/** A model of one lane of the grouped queue: the FIFO sub-queue of lib/subqueue.js.
    A lane holds `{task, name}` entries; `name` is the caller's `once` key. */
module SubQueues {

  datatype Option<T> = None | Some(value: T)

  /** Tasks are opaque callables; the model names each one by a number. */
  type TaskId = nat

  /** A pending entry `{task, name}`. `name` is the `once` option exactly as it was
      given: `None` stands for `undefined`, and `Some("")` is a present but falsy key. */
  datatype Entry = Entry(task: TaskId, name: Option<string>)

  /** An error value: the `TypeError` the host raises when something that is not a
      function is called, or any value a task throws, rejects with or hands to `stop`. */
  datatype Error = TypeError | Raised(id: nat)

  /** How an invoked task ends, as seen from the code that invoked it. */
  datatype Settlement =
    | CallsDone            // calls its first callback
    | CallsStop(err: Error)  // calls its second callback with `err`
    | Throws(err: Error)     // throws `err` synchronously
    | Rejects(err: Error)    // returns a promise that rejects with `err`
    | Hangs                  // calls neither callback (a promise that merely resolves, too)

  /** What the caller of `run` is told about the task it handed out. */
  datatype Outcome =
    | Completed            // `done` was called
    | Stopped(err: Error)  // `stop` was called with `err`
    | Escaped(err: Error)  // `stop` is not a function, so an error escapes to the host
    | Unsettled            // neither callback is ever called

  /** What `run` does: skip an empty lane, or dequeue and invoke the head. */
  datatype RunResult = Skipped | Invoked(entry: Entry, outcome: Outcome)

  /** JavaScript truthiness of the `once` option (the empty string is falsy). */
  predicate Truthy(once: Option<string>)
  {
    once.Some? && once.value != ""
  }

  /** Some pending entry carries the key `key`. */
  predicate KeyPending(q: seq<Entry>, key: string)
  {
    exists i :: 0 <= i < |q| && q[i].name == Some(key)
  }

  /** At most one pending entry carries any given truthy key. */
  predicate UniqueKeys(q: seq<Entry>)
  {
    forall i, j :: 0 <= i < j < |q| && Truthy(q[i].name) ==> q[i].name != q[j].name
  }

  /** The lane after `push(task, {once})`: the entry is dropped when its truthy key
      is already pending, and appended at the tail otherwise. */
  function Pushed(q: seq<Entry>, task: TaskId, once: Option<string>): (r: seq<Entry>)
    ensures |q| <= |r| <= |q| + 1 && r[..|q|] == q
    ensures |r| == |q| + 1 <==> !(Truthy(once) && KeyPending(q, once.value))
    ensures |r| == |q| + 1 ==> r[|q|] == Entry(task, once)
  {
    if Truthy(once) && KeyPending(q, once.value) then q else q + [Entry(task, once)]
  }

  /** The try/catch and promise handling around a task call: a synchronous throw
      and a rejected promise are both turned into `stop(error)`. When `stop` is not a
      function, calling it raises a TypeError that nothing catches. */
  function Settle(s: Settlement, hasStop: bool): (o: Outcome)
    ensures o == Completed <==> s == CallsDone
    ensures o == Unsettled <==> s == Hangs
    ensures !(s.CallsDone? || s.Hangs?) && hasStop ==> o == Stopped(s.err)
    ensures !(s.CallsDone? || s.Hangs?) && !hasStop ==> o == Escaped(TypeError)
  {
    match s
    case CallsDone => Completed
    case Hangs => Unsettled
    case CallsStop(e) => if hasStop then Stopped(e) else Escaped(TypeError)
    case Throws(e) => if hasStop then Stopped(e) else Escaped(TypeError)
    case Rejects(e) => if hasStop then Stopped(e) else Escaped(TypeError)
  }

  /** The three failure channels of a task are indistinguishable to the caller of
      `run`: each reports the same error through `stop`. */
  lemma FailureChannelsAgree(e: Error)
    ensures Settle(CallsStop(e), true) == Settle(Throws(e), true) == Settle(Rejects(e), true) == Stopped(e)
  {
  }

  /** A push never creates a second pending entry for a truthy key. */
  lemma PushKeepsKeysUnique(q: seq<Entry>, task: TaskId, once: Option<string>)
    requires UniqueKeys(q)
    ensures UniqueKeys(Pushed(q, task, once))
  {
    var r := Pushed(q, task, once);
    if |r| == |q| + 1 {
      forall i, j | 0 <= i < j < |r| && Truthy(r[i].name)
        ensures r[i].name != r[j].name
      {
        if j == |q| {
          assert r[i] == q[i];
          if r[i].name == r[j].name {
            assert KeyPending(q, once.value);
          }
        } else {
          assert r[i] == q[i] && r[j] == q[j];
        }
      }
    }
  }

  /** Dequeuing the head keeps the truthy keys unique. */
  lemma ShiftKeepsKeysUnique(q: seq<Entry>)
    requires UniqueKeys(q) && q != []
    ensures UniqueKeys(q[1..])
  {
    forall i, j | 0 <= i < j < |q| - 1 && Truthy(q[1..][i].name)
      ensures q[1..][i].name != q[1..][j].name
    {
      assert q[1..][i] == q[i + 1] && q[1..][j] == q[j + 1];
    }
  }

  /** The lane after a series of `push(task, {once})` calls. */
  function PushAll(q: seq<Entry>, pushes: seq<(TaskId, Option<string>)>): (r: seq<Entry>)
    ensures |q| <= |r| <= |q| + |pushes| && r[..|q|] == q
    decreases |pushes|
  {
    if pushes == [] then q
    else
      var p := PushAll(q, pushes[..|pushes| - 1]);
      var r := Pushed(p, pushes[|pushes| - 1].0, pushes[|pushes| - 1].1);
      assert r[..|q|] == r[..|p|][..|q|];
      r
  }

  /** With only pushes, a lane never holds two pending entries with the same truthy key. */
  lemma {:induction false} PushesKeepKeysUnique(q: seq<Entry>, pushes: seq<(TaskId, Option<string>)>)
    requires UniqueKeys(q)
    ensures UniqueKeys(PushAll(q, pushes))
    decreases |pushes|
  {
    if pushes != [] {
      var last := pushes[|pushes| - 1];
      PushesKeepKeysUnique(q, pushes[..|pushes| - 1]);
      PushKeepsKeysUnique(PushAll(q, pushes[..|pushes| - 1]), last.0, last.1);
    }
  }

  /** Pushes without a truthy key keep every push, in call order. */
  lemma {:induction false} UnkeyedPushesAppend(q: seq<Entry>, pushes: seq<(TaskId, Option<string>)>)
    requires forall k :: 0 <= k < |pushes| ==> !Truthy(pushes[k].1)
    ensures PushAll(q, pushes) == q + seq(|pushes|, k requires 0 <= k < |pushes| => Entry(pushes[k].0, pushes[k].1))
    decreases |pushes|
  {
    if pushes != [] {
      var n := |pushes| - 1;
      UnkeyedPushesAppend(q, pushes[..n]);
      var before := seq(n, k requires 0 <= k < n => Entry(pushes[..n][k].0, pushes[..n][k].1));
      var after := seq(n + 1, k requires 0 <= k < n + 1 => Entry(pushes[k].0, pushes[k].1));
      assert after == before + [Entry(pushes[n].0, pushes[n].1)];
    }
  }

  /** Two pushes with the same truthy key leave one entry: the first. */
  lemma SameKeyPushedTwice(t1: TaskId, t2: TaskId, key: string)
    requires key != ""
    ensures Pushed(Pushed([], t1, Some(key)), t2, Some(key)) == [Entry(t1, Some(key))]
  {
    assert KeyPending([Entry(t1, Some(key))], key) by {
      assert [Entry(t1, Some(key))][0].name == Some(key);
    }
  }

  /** One lane: `__queue__` is a JavaScript array that the methods change in place. */
  class SubQueue {
    var entries: seq<Entry>

    constructor ()
      ensures entries == []
    {
      entries := [];
    }

    /** `Array.prototype.find` over the entries: the first one whose `name` is `key`. */
    method Find(key: string) returns (found: Option<Entry>)
      ensures found.None? <==> !KeyPending(entries, key)
      ensures found.Some? ==> exists i :: 0 <= i < |entries| && entries[i] == found.value
                                && found.value.name == Some(key)
                                && forall j :: 0 <= j < i ==> entries[j].name != Some(key)
    {
      var i := 0;
      while i < |entries|
        invariant 0 <= i <= |entries|
        invariant forall j :: 0 <= j < i ==> entries[j].name != Some(key)
      {
        if entries[i].name == Some(key) {
          return Some(entries[i]);
        }
        i := i + 1;
      }
      return None;
    }

    /** `push(task, opt)`: a truthy `once` key that is already pending drops the call. */
    method Push(task: TaskId, once: Option<string>)
      modifies this
      ensures entries == Pushed(old(entries), task, once)
    {
      if Truthy(once) {
        var planned := Find(once.value);
        if planned.Some? {
          return;
        }
      }
      entries := entries + [Entry(task, once)];
    }

    /** `shift()`: dequeue the oldest entry; on an empty lane, nothing. */
    method Shift() returns (head: Option<Entry>)
      modifies this
      ensures old(entries) == [] ==> head == None && entries == []
      ensures old(entries) != [] ==> head == Some(old(entries)[0]) && entries == old(entries)[1..]
    {
      if entries == [] {
        return None;
      }
      head := Some(entries[0]);
      entries := entries[1..];
    }

    /** `run(skip, done, stop)` for a task that does not touch this lane: an empty lane
        is skipped; otherwise the head is dequeued and invoked, and how it settles is
        reported through `done` or `stop`. `behave` says how each task settles and
        `hasStop` whether the caller supplied a `stop` function. The source defers the
        dequeue and the call to a `setImmediate` callback; this method does both at call
        time, so it models `run` as seen once that callback has fired. The queue does not
        call it: `Queue.Dequeue` and `Queue.Fire` model that deferred callback step by
        step for the queue's own use of `run`. */
    method Run(behave: TaskId -> Settlement, hasStop: bool) returns (r: RunResult)
      modifies this
      ensures old(entries) == [] ==> r == Skipped && entries == []
      ensures old(entries) != [] ==>
                entries == old(entries)[1..] &&
                r == Invoked(old(entries)[0], Settle(behave(old(entries)[0].task), hasStop))
    {
      if entries == [] {
        return Skipped;
      }
      var head := Shift();
      r := Invoked(head.value, Settle(behave(head.value.task), hasStop));
    }
  }
}
