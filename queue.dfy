/** A model of the grouped queue of lib/queue.js: an insertion-ordered map from lane
    name to lane, a `running` flag, and the priority scan that restarts from the first
    lane after every completed task.

    A lane's `run` defers the call of its head task with `setImmediate`. The model keeps
    that deferral as state: `scheduled` names the lane whose deferred callback is waiting,
    and `Fire` is the host's event loop calling it. Callers may call `add` in between. */
module GroupedQueue {
  import opened SubQueues

  /** The lane that `add` uses when its first argument is not a string. */
  const DefaultLane: string := "default"

  /** One `add` call a task makes while it runs. `lane` is `None` when the first
      argument is not a string (the task itself). */
  datatype Addition = Addition(lane: Option<string>, task: TaskId)

  /** What a task does when invoked: these `add` calls, in order, and then how it settles. */
  datatype TaskBehaviour = TaskBehaviour(adds: seq<Addition>, settles: Settlement)

  /** The queue as a value. `order` is `Object.keys(__queues__)`, `pending` the entries
      of each lane, `scheduled` the lane whose deferred run callback is waiting. */
  datatype Snapshot = Snapshot(order: seq<string>, pending: map<string, seq<Entry>>,
                               running: bool, scheduled: Option<string>)

  /** The outcome of one deferred callback: the state after it, the entry it ran and
      how that task settled. */
  datatype Fired = Fired(after: Snapshot, ran: Entry, outcome: Outcome)

  /** The state after a task's `add` calls, and whether one of them threw. */
  datatype AddsResult = AddsResult(state: Snapshot, threw: bool)

  predicate NoDuplicates(s: seq<string>)
  {
    forall i, j :: 0 <= i < j < |s| ==> s[i] != s[j]
  }

  /** Each name in `order` is once a lane, and a waiting callback belongs to a running
      queue and to a lane that still has a task. */
  predicate WellFormed(s: Snapshot)
  {
    && NoDuplicates(s.order)
    && (forall i :: 0 <= i < |s.order| ==> s.order[i] in s.pending)
    && (s.scheduled.Some? ==>
          s.running && s.scheduled.value in s.pending && s.pending[s.scheduled.value] != [])
  }

  /** Every lane is in `order`, so the scan visits it. */
  predicate Listed(s: Snapshot)
  {
    forall n :: n in s.pending ==> n in s.order
  }

  /** The key order of an object after `obj[n] = …` for each `n` of `names` in turn: a
      repeated name keeps the position of its first assignment. */
  function KeyOrder(names: seq<string>): (r: seq<string>)
    ensures NoDuplicates(r)
    ensures forall n :: n in r <==> n in names
  {
    if names == [] then []
    else
      var r := KeyOrder(names[..|names| - 1]);
      var last := names[|names| - 1];
      assert forall n :: n in names <==> n in names[..|names| - 1] || n == last by {
        assert names == names[..|names| - 1] + [last];
      }
      if last in r then r else r + [last]
  }

  /** The names the constructor assigns: the caller's list (none when it is null)
      followed by `'default'`. */
  function LaneNames(given: Option<seq<string>>): (names: seq<string>)
  {
    (if given.None? then [] else given.value) + [DefaultLane]
  }

  /** The state `new Queue(given)` builds. */
  function Initial(given: Option<seq<string>>): (s: Snapshot)
    ensures WellFormed(s) && Listed(s) && !s.running && s.scheduled.None?
  {
    var order := KeyOrder(LaneNames(given));
    Snapshot(order, map n | n in order :: [], false, None)
  }

  /** The new queue has one empty lane per given name and one named `'default'`. */
  lemma InitialLanes(given: Option<seq<string>>)
    ensures DefaultLane in Initial(given).order
    ensures forall n :: n in Initial(given).pending <==> n in LaneNames(given)
    ensures forall n :: n in Initial(given).pending ==> Initial(given).pending[n] == []
  {
    var names := LaneNames(given);
    assert names[|names| - 1] == DefaultLane;
  }

  /** Distinct names keep their order. */
  lemma {:induction false} KeyOrderOfDistinct(names: seq<string>)
    requires NoDuplicates(names)
    ensures KeyOrder(names) == names
    decreases |names|
  {
    if names != [] {
      var init := names[..|names| - 1];
      KeyOrderOfDistinct(init);
      assert names[|names| - 1] !in init;
      assert init + [names[|names| - 1]] == names;
    }
  }

  /** Assigning a name that is already a key leaves the key order as it was. */
  lemma KeyOrderOfRepeat(names: seq<string>, n: string)
    requires n in names
    ensures KeyOrder(names + [n]) == KeyOrder(names)
  {
    assert (names + [n])[..|names|] == names;
  }

  /** The lanes of `new Queue(given)` are the given names in order followed by
      `'default'`, or the given names alone when they already hold `'default'`; a null
      argument gives the single lane `'default'`. Every lane starts empty. */
  lemma ConstructorLaneOrder(given: seq<string>)
    requires NoDuplicates(given)
    ensures DefaultLane !in given ==> Initial(Some(given)).order == given + [DefaultLane]
    ensures DefaultLane in given ==> Initial(Some(given)).order == given
    ensures Initial(None).order == [DefaultLane]
  {
    if DefaultLane in given {
      KeyOrderOfRepeat(given, DefaultLane);
      KeyOrderOfDistinct(given);
    } else {
      KeyOrderOfDistinct(given + [DefaultLane]);
    }
    KeyOrderOfDistinct([DefaultLane]);
    assert LaneNames(None) == [DefaultLane];
  }

  /** A scan from lane `from`: the index of the first lane that has a task. */
  function FirstNonEmpty(order: seq<string>, pending: map<string, seq<Entry>>, from: nat): (k: Option<nat>)
    requires forall i :: 0 <= i < |order| ==> order[i] in pending
    requires from <= |order|
    ensures k.Some? ==>
              && from <= k.value < |order| && pending[order[k.value]] != []
              && forall j :: from <= j < k.value ==> pending[order[j]] == []
    ensures k.None? ==> forall j :: from <= j < |order| ==> pending[order[j]] == []
    decreases |order| - from
  {
    if from == |order| then None
    else if pending[order[from]] != [] then Some(from)
    else FirstNonEmpty(order, pending, from + 1)
  }

  /** `_exec(done)`: scan the lanes from the first. The first lane with a task gets its
      run callback deferred; when there is none, `done` clears `running`. */
  function AfterExec(s: Snapshot): (r: Snapshot)
    requires WellFormed(s) && s.running
    ensures WellFormed(r) && r.order == s.order && r.pending == s.pending
    ensures !r.running ==> r.scheduled.None?
  {
    match FirstNonEmpty(s.order, s.pending, 0)
    case None => s.(running := false, scheduled := None)
    case Some(k) => s.(scheduled := Some(s.order[k]))
  }

  /** The scan keeps `running` set exactly when some lane has a task, and the lane it
      schedules is no lower than any lane that has one, with every lane above it empty. */
  lemma ExecScansFromFirst(s: Snapshot)
    requires WellFormed(s) && s.running
    ensures AfterExec(s).running <==> exists i :: 0 <= i < |s.order| && s.pending[s.order[i]] != []
    ensures forall i :: 0 <= i < |s.order| && s.pending[s.order[i]] != [] ==>
              exists k :: 0 <= k <= i && AfterExec(s).scheduled == Some(s.order[k])
                       && forall j :: 0 <= j < k ==> s.pending[s.order[j]] == []
  {
  }

  /** `run()`: a no-op while running; otherwise set `running` and scan. */
  function AfterRun(s: Snapshot): (r: Snapshot)
    requires WellFormed(s)
    ensures WellFormed(r) && r.order == s.order && r.pending == s.pending
    ensures s.running ==> r == s
    ensures !s.running ==>
              (r.running <==> exists i :: 0 <= i < |s.order| && s.pending[s.order[i]] != [])
  {
    if s.running then s
    else
      ExecScansFromFirst(s.(running := true));
      AfterExec(s.(running := true))
  }

  /** The lane that `add(name, task)` appends to. */
  function Target(lane: Option<string>): (name: string)
  {
    if lane.Some? then lane.value else DefaultLane
  }

  /** `add(name, task)`: push the task on the named lane (on `'default'` when the first
      argument is not a string), then `run()`. `None` is the TypeError thrown when there
      is no such lane; nothing has changed then. */
  function AfterAdd(s: Snapshot, lane: Option<string>, task: TaskId): (r: Option<Snapshot>)
    requires WellFormed(s)
    ensures r.None? <==> Target(lane) !in s.pending
    ensures r.Some? ==>
              && WellFormed(r.value) && r.value.order == s.order
              && r.value.pending.Keys == s.pending.Keys
              && r.value.pending[Target(lane)] == s.pending[Target(lane)] + [Entry(task, None)]
              && (forall n :: n in s.pending && n != Target(lane) ==> r.value.pending[n] == s.pending[n])
              && (s.running ==> r.value.running && r.value.scheduled == s.scheduled)
  {
    var name := Target(lane);
    if name !in s.pending then None
    else
      var pushed := s.(pending := s.pending[name := Pushed(s.pending[name], task, None)]);
      Some(AfterRun(pushed))
  }

  /** A successful `add` leaves the queue running: the lane it pushed to has a task and
      the scan visits it. */
  lemma AddLeavesRunning(s: Snapshot, lane: Option<string>, task: TaskId)
    requires WellFormed(s) && Listed(s)
    ensures AfterAdd(s, lane, task).Some? ==>
              AfterAdd(s, lane, task).value.running && Listed(AfterAdd(s, lane, task).value)
  {
    var name := Target(lane);
    if name in s.pending {
      var i :| 0 <= i < |s.order| && s.order[i] == name;
    }
  }

  /** Some `add` call of `adds` targets a lane that does not exist, so it throws. */
  predicate SomeTargetMissing(lanes: set<string>, adds: seq<Addition>)
  {
    exists k :: 0 <= k < |adds| && Target(adds[k].lane) !in lanes
  }

  /** The entries that the `add` calls of `adds` append to lane `name`, in call order,
      up to the first call that targets a missing lane. */
  function Landed(lanes: set<string>, adds: seq<Addition>, name: string): (r: seq<Entry>)
    ensures |r| <= |adds|
    ensures forall i :: 0 <= i < |r| ==> r[i].name.None?
    decreases |adds|
  {
    if adds == [] || Target(adds[0].lane) !in lanes then []
    else (if Target(adds[0].lane) == name then [Entry(adds[0].task, None)] else [])
         + Landed(lanes, adds[1..], name)
  }

  /** The `add` calls of a running task, in order; the first that throws ends the task. */
  function ApplyAdds(s: Snapshot, adds: seq<Addition>): (r: AddsResult)
    requires WellFormed(s) && s.running
    ensures WellFormed(r.state) && r.state.order == s.order && r.state.running
    ensures r.state.scheduled == s.scheduled && r.state.pending.Keys == s.pending.Keys
    decreases |adds|
  {
    if adds == [] then AddsResult(s, false)
    else
      match AfterAdd(s, adds[0].lane, adds[0].task)
      case None => AddsResult(s, true)
      case Some(t) => ApplyAdds(t, adds[1..])
  }

  /** A running task's `add` calls throw exactly when one of them targets a missing
      lane. */
  lemma {:induction false} AddsThrowOnMissingLane(s: Snapshot, adds: seq<Addition>)
    requires WellFormed(s) && s.running
    ensures ApplyAdds(s, adds).threw <==> SomeTargetMissing(s.pending.Keys, adds)
    decreases |adds|
  {
    if adds != [] {
      if Target(adds[0].lane) in s.pending {
        var t := AfterAdd(s, adds[0].lane, adds[0].task).value;
        assert ApplyAdds(s, adds) == ApplyAdds(t, adds[1..]);
        AddsThrowOnMissingLane(t, adds[1..]);
        if SomeTargetMissing(t.pending.Keys, adds[1..]) {
          var k :| 0 <= k < |adds[1..]| && Target(adds[1..][k].lane) !in t.pending.Keys;
          assert adds[k + 1] == adds[1..][k];
        }
        if SomeTargetMissing(s.pending.Keys, adds) {
          var k :| 0 <= k < |adds| && Target(adds[k].lane) !in s.pending.Keys;
          assert k != 0 && adds[1..][k - 1] == adds[k];
        }
      } else {
        assert Target(adds[0].lane) !in s.pending.Keys;
      }
    }
  }

  /** One `add` that finds its lane: the rest of the calls continue from the state it
      leaves, and lane `n` has grown by what that `add` landed on it. */
  lemma AddStep(s: Snapshot, adds: seq<Addition>, n: string)
    requires WellFormed(s) && s.running && n in s.pending
    requires adds != [] && Target(adds[0].lane) in s.pending
    ensures AfterAdd(s, adds[0].lane, adds[0].task).Some?
    ensures var t := AfterAdd(s, adds[0].lane, adds[0].task).value;
            && WellFormed(t) && t.running && t.pending.Keys == s.pending.Keys
            && ApplyAdds(s, adds) == ApplyAdds(t, adds[1..])
            && s.pending[n] + Landed(s.pending.Keys, adds, n)
               == t.pending[n] + Landed(t.pending.Keys, adds[1..], n)
  {
    var t := AfterAdd(s, adds[0].lane, adds[0].task).value;
    var e := if Target(adds[0].lane) == n then [Entry(adds[0].task, None)] else [];
    assert t.pending[n] == s.pending[n] + e;
    assert (s.pending[n] + e) + Landed(t.pending.Keys, adds[1..], n)
        == s.pending[n] + (e + Landed(t.pending.Keys, adds[1..], n));
  }

  /** A running task's `add` calls append to lane `n` exactly the entries landed on it,
      in call order, after its old entries. */
  lemma {:induction false} AddsLand(s: Snapshot, adds: seq<Addition>, n: string)
    requires WellFormed(s) && s.running && n in s.pending
    ensures ApplyAdds(s, adds).state.pending[n] == s.pending[n] + Landed(s.pending.Keys, adds, n)
    decreases |adds|
  {
    if adds != [] && Target(adds[0].lane) in s.pending {
      AddStep(s, adds, n);
      AddsLand(AfterAdd(s, adds[0].lane, adds[0].task).value, adds[1..], n);
    }
  }

  /** The scheduled callback starts: the head of its lane is dequeued. */
  function Dequeued(s: Snapshot): (r: Snapshot)
    requires WellFormed(s) && s.scheduled.Some?
    ensures WellFormed(r) && r.order == s.order && r.running && r.scheduled.None?
    ensures r.pending.Keys == s.pending.Keys
    ensures r.pending[s.scheduled.value] == s.pending[s.scheduled.value][1..]
    ensures forall n :: n in s.pending && n != s.scheduled.value ==> r.pending[n] == s.pending[n]
  {
    var lane := s.scheduled.value;
    s.(pending := s.pending[lane := s.pending[lane][1..]], scheduled := None)
  }

  /** The deferred callback of the scheduled lane: dequeue the head and call its task
      with `done` only (lib/queue.js passes no `stop`). The task's `add` calls land while
      `running` is set, so they only push. On `done` the scan restarts from the first
      lane; any failure escapes as a TypeError and leaves `running` set. The start of
      the task and its settling are one step here, so an `add` made by other code while
      an asynchronous task is still running is not modelled on its own. */
  function AfterFire(s: Snapshot, behave: TaskId -> TaskBehaviour): (r: Fired)
    requires WellFormed(s) && s.scheduled.Some?
    ensures WellFormed(r.after) && r.after.order == s.order && r.after.pending.Keys == s.pending.Keys
    ensures Listed(s) ==> Listed(r.after)
    ensures r.ran == s.pending[s.scheduled.value][0]
    ensures r.outcome != Completed ==> r.after.running && r.after.scheduled.None?
  {
    var head := s.pending[s.scheduled.value][0];
    var task := behave(head.task);
    var applied := ApplyAdds(Dequeued(s), task.adds);
    var outcome := Settle(if applied.threw then Throws(TypeError) else task.settles, false);
    Fired(if outcome == Completed then AfterExec(applied.state) else applied.state, head, outcome)
  }

  /** What the deferred callback does to the lanes and how it ends: the head leaves the
      scheduled lane, every lane gets exactly the entries the task's `add` calls landed
      on it, and the task completes exactly when no `add` targeted a missing lane and
      it calls `done`; short of hanging, anything else escapes as a TypeError. */
  lemma FireEffects(s: Snapshot, behave: TaskId -> TaskBehaviour)
    requires WellFormed(s) && s.scheduled.Some?
    ensures var r := AfterFire(s, behave);
            var task := behave(r.ran.task);
            && (forall n :: n in s.pending ==>
                  r.after.pending[n] == Dequeued(s).pending[n] + Landed(s.pending.Keys, task.adds, n))
            && (r.outcome == Completed <==>
                  !SomeTargetMissing(s.pending.Keys, task.adds) && task.settles == CallsDone)
            && (r.outcome == Unsettled <==>
                  !SomeTargetMissing(s.pending.Keys, task.adds) && task.settles == Hangs)
            && (r.outcome == Completed || r.outcome == Unsettled || r.outcome == Escaped(TypeError))
  {
    var task := behave(s.pending[s.scheduled.value][0].task);
    forall n | n in s.pending
      ensures ApplyAdds(Dequeued(s), task.adds).state.pending[n]
              == Dequeued(s).pending[n] + Landed(s.pending.Keys, task.adds, n)
    {
      AddsLand(Dequeued(s), task.adds, n);
    }
    AddsThrowOnMissingLane(Dequeued(s), task.adds);
  }

  /** A lane that some `add` targets, when none of them targets a missing lane, gets at
      least one new entry. */
  lemma {:induction false} LandedNonEmpty(lanes: set<string>, adds: seq<Addition>, name: string)
    requires !SomeTargetMissing(lanes, adds)
    requires exists k :: 0 <= k < |adds| && Target(adds[k].lane) == name
    ensures Landed(lanes, adds, name) != []
    decreases |adds|
  {
    var k :| 0 <= k < |adds| && Target(adds[k].lane) == name;
    assert Target(adds[0].lane) in lanes;
    if Target(adds[0].lane) != name {
      assert k != 0 && adds[1..][k - 1] == adds[k];
      LandedNonEmpty(lanes, adds[1..], name);
    }
  }

  /** The `forEach` of the constructor: `__queues__[name] = new SubQueue()` for each
      name in turn; a repeated name gets a fresh lane that replaces the earlier one. */
  method MakeLanes(names: seq<string>) returns (made: map<string, SubQueue>, ghost objects: set<object>)
    ensures forall n :: n in made <==> n in names
    ensures forall n :: n in made ==> made[n] in objects && made[n].entries == []
    ensures forall a, b :: a in made && b in made && a != b ==> made[a] != made[b]
    ensures fresh(objects)
  {
    made, objects := map[], {};
    var i := 0;
    while i < |names|
      invariant i <= |names|
      invariant forall n :: n in made <==> n in names[..i]
      invariant forall n :: n in made ==> made[n] in objects && made[n].entries == []
      invariant forall a, b :: a in made && b in made && a != b ==> made[a] != made[b]
      invariant fresh(objects)
    {
      var lane := new SubQueue();
      made := made[names[i] := lane];
      objects := objects + {lane};
      assert names[..i + 1] == names[..i] + [names[i]];
      i := i + 1;
    }
    assert names[..i] == names;
  }

  /** The queue object. `__queues__` is an object whose key order is the priority order;
      the model keeps that order in `order` and the lanes in `lanes`. */
  class Queue {
    var order: seq<string>
    var lanes: map<string, SubQueue>
    var running: bool
    var scheduled: Option<string>
    /** The entries of each lane, as a value. */
    ghost var pending: map<string, seq<Entry>>
    ghost var Repr: set<object>

    /** The queue owns its lanes, no two names share a lane object, and `pending`
        holds what each lane holds. */
    ghost predicate Owns()
      reads this, Repr
    {
      && this in Repr
      && (forall n :: n in lanes ==> lanes[n] in Repr)
      && (forall a, b :: a in lanes && b in lanes && a != b ==> lanes[a] != lanes[b])
      && lanes.Keys == pending.Keys
      && (forall n :: n in lanes ==> lanes[n].entries == pending[n])
    }

    ghost function Abstract(): Snapshot
      reads this
    {
      Snapshot(order, pending, running, scheduled)
    }

    ghost predicate Valid()
      reads this, Repr
    {
      Owns() && WellFormed(Abstract())
    }

    /** `new Queue(given)`: one fresh lane per name of `given`, then `'default'`. */
    constructor (given: Option<seq<string>>)
      ensures Valid() && fresh(Repr)
      ensures Abstract() == Initial(given)
    {
      var names := LaneNames(given);
      var made, objects := MakeLanes(names);
      // The key order of `__queues__` follows the first assignment of each name.
      order, lanes, running, scheduled := KeyOrder(names), made, false, None;
      pending := Initial(given).pending;
      Repr := {this} + objects;
    }

    /** The scan loop of `_exec`: advance the cursor past every empty lane. */
    method Scan() returns (k: Option<nat>)
      requires Valid()
      ensures k == FirstNonEmpty(order, pending, 0)
    {
      var cursor := 0;
      while cursor < |order| && lanes[order[cursor]].entries == []
        invariant cursor <= |order|
        invariant FirstNonEmpty(order, pending, 0) == FirstNonEmpty(order, pending, cursor)
      {
        cursor := cursor + 1;
      }
      if cursor == |order| {
        return None;
      }
      return Some(cursor);
    }

    /** `_exec(done)` with `done` clearing `running`. */
    method Exec()
      requires Valid() && running
      modifies this
      ensures Valid() && Repr == old(Repr) && lanes == old(lanes)
      ensures Abstract() == AfterExec(old(Abstract()))
    {
      var k := Scan();
      if k.None? {
        running, scheduled := false, None;
      } else {
        scheduled := Some(order[k.value]);
      }
    }

    /** `run()`: guarded by `running`. */
    method Run()
      requires Valid()
      modifies this
      ensures Valid() && Repr == old(Repr) && lanes == old(lanes)
      ensures Abstract() == AfterRun(old(Abstract()))
    {
      if running {
        return;
      }
      running := true;
      Exec();
    }

    /** `add(name, task)`. `ok` is false where lib/queue.js throws a TypeError because
        the lane does not exist. */
    method Add(lane: Option<string>, task: TaskId) returns (ok: bool)
      requires Valid()
      modifies Repr
      ensures Valid() && Repr == old(Repr) && lanes == old(lanes)
      ensures ok <==> AfterAdd(old(Abstract()), lane, task).Some?
      ensures ok ==> Abstract() == AfterAdd(old(Abstract()), lane, task).value
      ensures !ok ==> Abstract() == old(Abstract())
    {
      var name := if lane.Some? then lane.value else DefaultLane;
      if name !in lanes {
        return false;
      }
      lanes[name].Push(task, None);
      pending := pending[name := lanes[name].entries];
      Run();
      return true;
    }

    /** The start of the deferred callback: `this.shift()` on the scheduled lane. */
    method Dequeue() returns (head: Entry)
      requires Valid() && scheduled.Some?
      modifies Repr
      ensures Valid() && Repr == old(Repr) && lanes == old(lanes)
      ensures head == old(pending)[old(scheduled).value][0]
      ensures Abstract() == Dequeued(old(Abstract()))
    {
      var name := scheduled.value;
      scheduled := None;
      var shifted := lanes[name].Shift();
      pending := pending[name := lanes[name].entries];
      head := shifted.value;
    }

    /** The `add` calls a running task makes, until one throws. */
    method PerformAdds(adds: seq<Addition>) returns (threw: bool)
      requires Valid() && running
      modifies Repr
      ensures Valid() && Repr == old(Repr) && lanes == old(lanes)
      ensures ApplyAdds(old(Abstract()), adds) == AddsResult(Abstract(), threw)
    {
      ghost var s := Abstract();
      threw := false;
      var i := 0;
      while i < |adds| && !threw
        invariant i <= |adds|
        invariant Valid() && Repr == old(Repr) && lanes == old(lanes) && running
        invariant !threw ==> ApplyAdds(s, adds) == ApplyAdds(Abstract(), adds[i..])
        invariant threw ==> ApplyAdds(s, adds) == AddsResult(Abstract(), true)
        decreases |adds| - i, !threw
      {
        var ok := Add(adds[i].lane, adds[i].task);
        assert adds[i..][0] == adds[i] && adds[i..][1..] == adds[i + 1..];
        if !ok {
          threw := true;
        } else {
          i := i + 1;
        }
      }
    }

    /** The host calls the deferred callback of the scheduled lane. `behave` says what
        each task does when called; `ran` is the entry that ran. */
    method Fire(behave: TaskId -> TaskBehaviour) returns (ran: Entry, outcome: Outcome)
      requires Valid() && scheduled.Some?
      modifies Repr
      ensures Valid() && Repr == old(Repr) && lanes == old(lanes)
      ensures AfterFire(old(Abstract()), behave) == Fired(Abstract(), ran, outcome)
    {
      ran := Dequeue();
      var task := behave(ran.task);
      var threw := PerformAdds(task.adds);
      outcome := Settle(if threw then Throws(TypeError) else task.settles, false);
      if outcome == Completed {
        Exec();
      }
    }
  }
}
