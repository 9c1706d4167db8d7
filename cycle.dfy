/** How a run cycle of the grouped queue unfolds, one deferred callback at a time:
    priority-then-FIFO order, restart from the first lane, termination, and the
    `running` guard. */
module QueueCycles {
  import opened SubQueues
  import opened GroupedQueue

  /** Every pending entry, lane by lane in priority order, each lane oldest first. */
  function Flatten(order: seq<string>, pending: map<string, seq<Entry>>): (all: seq<Entry>)
    requires forall i :: 0 <= i < |order| ==> order[i] in pending
  {
    if order == [] then [] else pending[order[0]] + Flatten(order[1..], pending)
  }

  /** Tasks that add nothing and call `done`. */
  ghost predicate Quiet(behave: TaskId -> TaskBehaviour)
  {
    forall t :: behave(t) == TaskBehaviour([], CallsDone)
  }

  /** A cycle is under way and the waiting callback belongs to the first lane that has
      a task. */
  predicate Poised(s: Snapshot)
  {
    && WellFormed(s) && s.running
    && match FirstNonEmpty(s.order, s.pending, 0)
       case None => false
       case Some(k) => s.scheduled == Some(s.order[k])
  }

  /** No cycle is under way. */
  predicate Idle(s: Snapshot)
  {
    !s.running && s.scheduled.None?
  }

  /** A cycle is under way but no callback is waiting and none ever will be: what a
      task that fails or never settles leaves behind. */
  predicate Wedged(s: Snapshot)
  {
    s.running && s.scheduled.None?
  }

  /** The state after up to `n` deferred callbacks, and the entries they ran. */
  datatype Trace = Trace(final: Snapshot, ran: seq<Entry>)

  function Cycle(s: Snapshot, behave: TaskId -> TaskBehaviour, n: nat): (t: Trace)
    requires WellFormed(s)
    ensures WellFormed(t.final) && t.final.order == s.order && |t.ran| <= n
    decreases n
  {
    if n == 0 || s.scheduled.None? then Trace(s, [])
    else
      var f := AfterFire(s, behave);
      var rest := Cycle(f.after, behave, n - 1);
      Trace(rest.final, [f.ran] + rest.ran)
  }

  lemma {:induction false} FlattenEmpty(order: seq<string>, pending: map<string, seq<Entry>>)
    requires forall i :: 0 <= i < |order| ==> order[i] in pending
    ensures Flatten(order, pending) == [] <==> forall i :: 0 <= i < |order| ==> pending[order[i]] == []
    decreases |order|
  {
    if order != [] {
      FlattenEmpty(order[1..], pending);
      if pending[order[0]] == [] {
        forall i | 0 < i < |order| ensures order[i] == order[1..][i - 1] {}
      }
    }
  }

  /** When the lanes before `k` are empty, the entries start with lane `k`'s. */
  lemma {:induction false} FlattenFrom(order: seq<string>, pending: map<string, seq<Entry>>, k: nat)
    requires forall i :: 0 <= i < |order| ==> order[i] in pending
    requires k < |order| && forall j :: 0 <= j < k ==> pending[order[j]] == []
    ensures Flatten(order, pending) == pending[order[k]] + Flatten(order[k + 1..], pending)
    decreases k
  {
    if k > 0 {
      forall j | 0 <= j < k - 1 ensures pending[order[1..][j]] == [] {
        assert order[1..][j] == order[j + 1];
      }
      FlattenFrom(order[1..], pending, k - 1);
      assert order[1..][k - 1..] == order[k..];
      assert order[1..][k..] == order[k + 1..];
    }
  }

  /** A lane outside `order` does not contribute. */
  lemma {:induction false} FlattenIgnores(order: seq<string>, pending: map<string, seq<Entry>>, name: string, q: seq<Entry>)
    requires forall i :: 0 <= i < |order| ==> order[i] in pending
    requires name !in order
    ensures Flatten(order, pending[name := q]) == Flatten(order, pending)
    decreases |order|
  {
    if order != [] {
      FlattenIgnores(order[1..], pending, name, q);
    }
  }

  /** A deferred callback of a poised queue runs the oldest task of the first lane that
      has one. */
  lemma FireRunsHighestPriority(s: Snapshot, behave: TaskId -> TaskBehaviour)
    requires Poised(s)
    ensures exists k :: 0 <= k < |s.order| && s.pending[s.order[k]] != []
                     && (forall j :: 0 <= j < k ==> s.pending[s.order[j]] == [])
                     && AfterFire(s, behave).ran == s.pending[s.order[k]][0]
  {
    var k := FirstNonEmpty(s.order, s.pending, 0).value;
    assert s.scheduled == Some(s.order[k]);
  }

  /** After a completed task the scan starts again from the first lane: whatever lane
      has a task then, a lane no lower than it is scheduled next, even when the task
      has just added to a lane above the one it came from. */
  lemma FireRestartsFromFirstLane(s: Snapshot, behave: TaskId -> TaskBehaviour, i: nat)
    requires WellFormed(s) && s.scheduled.Some?
    requires AfterFire(s, behave).outcome == Completed
    requires i < |s.order| && AfterFire(s, behave).after.pending[s.order[i]] != []
    ensures Poised(AfterFire(s, behave).after)
    ensures exists k :: 0 <= k <= i && AfterFire(s, behave).after.scheduled == Some(s.order[k])
  {
  }

  /** A task that completes after adding to lane `h` hands the next callback to lane
      `h` or a higher one, whatever was scheduled before and whatever the other lanes
      hold: an `add` to a higher lane pre-empts the lower lanes. */
  lemma AddToHigherLanePreempts(s: Snapshot, behave: TaskId -> TaskBehaviour, h: nat)
    requires WellFormed(s) && s.scheduled.Some?
    requires AfterFire(s, behave).outcome == Completed
    requires h < |s.order|
    requires exists k :: 0 <= k < |behave(s.pending[s.scheduled.value][0].task).adds| &&
               Target(behave(s.pending[s.scheduled.value][0].task).adds[k].lane) == s.order[h]
    ensures Poised(AfterFire(s, behave).after)
    ensures exists k :: 0 <= k <= h && AfterFire(s, behave).after.scheduled == Some(s.order[k])
  {
    var adds := behave(s.pending[s.scheduled.value][0].task).adds;
    FireEffects(s, behave);
    LandedNonEmpty(s.pending.Keys, adds, s.order[h]);
    FireRestartsFromFirstLane(s, behave, h);
  }

  /** A task that completes when every lane is empty ends the cycle. */
  lemma CompletedOnEmptyLanesIdles(s: Snapshot, behave: TaskId -> TaskBehaviour)
    requires WellFormed(s) && s.scheduled.Some?
    requires AfterFire(s, behave).outcome == Completed
    requires forall i :: 0 <= i < |s.order| ==> AfterFire(s, behave).after.pending[s.order[i]] == []
    ensures Idle(AfterFire(s, behave).after)
  {
    ExecScansFromFirst(Dequeued(s));
  }

  /** A task that does not call `done` leaves the queue wedged: `running` stays set and
      nothing is scheduled. */
  lemma FailureWedges(s: Snapshot, behave: TaskId -> TaskBehaviour)
    requires WellFormed(s) && s.scheduled.Some?
    requires behave(s.pending[s.scheduled.value][0].task).settles != CallsDone
    ensures Wedged(AfterFire(s, behave).after)
  {
  }

  /** A wedged queue stays wedged: `run()` does nothing and `add` only pushes, so no
      task ever runs again. */
  lemma WedgedStaysWedged(s: Snapshot, lane: Option<string>, task: TaskId)
    requires WellFormed(s) && Wedged(s)
    ensures AfterRun(s) == s
    ensures AfterAdd(s, lane, task).Some? ==> Wedged(AfterAdd(s, lane, task).value)
  {
  }

  /** `run()` twice is `run()` once. */
  lemma RunIdempotent(s: Snapshot)
    requires WellFormed(s)
    ensures AfterRun(AfterRun(s)) == AfterRun(s)
  {
  }

  /** Dequeuing the head of the first non-empty lane takes the first of all pending
      entries and leaves the others in order. */
  lemma DequeueTakesFirst(s: Snapshot)
    requires Poised(s)
    ensures [s.pending[s.scheduled.value][0]] + Flatten(s.order, Dequeued(s).pending) == Flatten(s.order, s.pending)
  {
    var k := FirstNonEmpty(s.order, s.pending, 0).value;
    var lane := s.order[k];
    var d := Dequeued(s);
    FlattenFrom(s.order, s.pending, k);
    forall j | 0 <= j < k ensures d.pending[s.order[j]] == [] {
      assert s.order[j] != lane;
    }
    FlattenFrom(s.order, d.pending, k);
    assert lane !in s.order[k + 1..] by {
      forall j | k + 1 <= j < |s.order| ensures s.order[j] != lane {}
    }
    assert d.pending == s.pending[lane := s.pending[lane][1..]];
    FlattenIgnores(s.order[k + 1..], s.pending, lane, s.pending[lane][1..]);
  }

  /** One callback of a poised queue whose tasks are quiet: the oldest entry of the first
      non-empty lane runs, the rest stay in order, and the queue is poised again or idle. */
  lemma FireQuietStep(s: Snapshot, behave: TaskId -> TaskBehaviour)
    requires Poised(s) && Quiet(behave)
    ensures AfterFire(s, behave).outcome == Completed
    ensures [AfterFire(s, behave).ran] + Flatten(s.order, AfterFire(s, behave).after.pending)
            == Flatten(s.order, s.pending)
    ensures Flatten(s.order, AfterFire(s, behave).after.pending) == [] ==> Idle(AfterFire(s, behave).after)
    ensures Flatten(s.order, AfterFire(s, behave).after.pending) != [] ==> Poised(AfterFire(s, behave).after)
  {
    var d := Dequeued(s);
    var f := AfterFire(s, behave);
    assert behave(s.pending[s.scheduled.value][0].task) == TaskBehaviour([], CallsDone);
    assert f.after == AfterExec(d) && f.outcome == Completed;
    DequeueTakesFirst(s);
    FlattenEmpty(s.order, d.pending);
  }

  /** Poised while some lane has a task, idle once every lane is empty. */
  predicate Settled(s: Snapshot)
  {
    && WellFormed(s)
    && (Flatten(s.order, s.pending) == [] ==> Idle(s))
    && (Flatten(s.order, s.pending) != [] ==> Poised(s))
  }

  /** `t` is what up to `n` callbacks from `s` give. A plain wrapper around `Cycle`:
      naming the equation keeps the solver from unfolding `Cycle` where it is not needed. */
  predicate IsCycle(s: Snapshot, behave: TaskId -> TaskBehaviour, n: nat, t: Trace)
    requires WellFormed(s)
  {
    t == Cycle(s, behave, n)
  }

  /** The first callback of a cycle of quiet tasks, and the cycle that follows it. */
  lemma QuietCycleStep(s: Snapshot, behave: TaskId -> TaskBehaviour, n: nat, t: Trace)
      returns (x: Entry, next: Snapshot, tail: Trace)
    requires Poised(s) && Quiet(behave) && n >= 1 && IsCycle(s, behave, n, t)
    ensures next.order == s.order && Settled(next) && IsCycle(next, behave, n - 1, tail)
    ensures t == Trace(tail.final, [x] + tail.ran)
    ensures [x] + Flatten(s.order, next.pending) == Flatten(s.order, s.pending)
    ensures |Flatten(next.order, next.pending)| == |Flatten(s.order, s.pending)| - 1
  {
    var f := AfterFire(s, behave);
    FireQuietStep(s, behave);
    x, next := f.ran, f.after;
    tail := Cycle(next, behave, n - 1);
  }

  /** With quiet tasks, `n` callbacks of a settled queue run the first `n` pending entries
      in priority-then-FIFO order and leave the rest pending, and the queue stays settled. */
  lemma {:induction false} QuietTrace(s: Snapshot, behave: TaskId -> TaskBehaviour, n: nat, t: Trace)
    requires Settled(s) && Quiet(behave)
    requires n <= |Flatten(s.order, s.pending)| && IsCycle(s, behave, n, t)
    ensures t.ran == Flatten(s.order, s.pending)[..n]
    ensures Flatten(s.order, t.final.pending) == Flatten(s.order, s.pending)[n..]
    ensures Settled(t.final)
    decreases n
  {
    if n == 0 {
      assert t == Trace(s, []);
    } else {
      var all := Flatten(s.order, s.pending);
      var x, next, tail := QuietCycleStep(s, behave, n, t);
      QuietTrace(next, behave, n - 1, tail);
      SplitAfterFirst(all, x, Flatten(s.order, next.pending), n);
    }
  }

  lemma SplitAfterFirst(all: seq<Entry>, x: Entry, rest: seq<Entry>, n: nat)
    requires all == [x] + rest && 1 <= n <= |all|
    ensures all[..n] == [x] + rest[..n - 1] && all[n..] == rest[n - 1..]
  {
    assert all[..n] == [x] + rest[..n - 1];
  }

  /** With quiet tasks, `n` callbacks of a poised queue run the first `n` pending entries
      in priority-then-FIFO order; the queue stays poised until every one has run, and
      then it is idle with every lane empty. */
  lemma QuietCycle(s: Snapshot, behave: TaskId -> TaskBehaviour, n: nat)
    requires Poised(s) && Quiet(behave)
    requires n <= |Flatten(s.order, s.pending)|
    ensures Cycle(s, behave, n).ran == Flatten(s.order, s.pending)[..n]
    ensures Flatten(s.order, Cycle(s, behave, n).final.pending) == Flatten(s.order, s.pending)[n..]
    ensures n < |Flatten(s.order, s.pending)| ==> Poised(Cycle(s, behave, n).final)
    ensures n == |Flatten(s.order, s.pending)| ==> Idle(Cycle(s, behave, n).final)
  {
    FlattenEmpty(s.order, s.pending);
    QuietTrace(s, behave, n, Cycle(s, behave, n));
  }

  /** `run()` on an idle queue whose tasks are quiet: after exactly as many callbacks as
      there are pending tasks, every task has run, higher lanes first and each lane in
      FIFO order, and the queue is idle again with `running` cleared. */
  lemma RunDrainsInPriorityOrder(s: Snapshot, behave: TaskId -> TaskBehaviour)
    requires WellFormed(s) && Idle(s) && Quiet(behave)
    ensures Cycle(AfterRun(s), behave, |Flatten(s.order, s.pending)|).ran == Flatten(s.order, s.pending)
    ensures Idle(Cycle(AfterRun(s), behave, |Flatten(s.order, s.pending)|).final)
  {
    var r := AfterRun(s);
    FlattenEmpty(s.order, s.pending);
    if Flatten(s.order, s.pending) == [] {
      assert Cycle(r, behave, 0) == Trace(r, []);
    } else {
      assert Poised(r);
      QuietCycle(r, behave, |Flatten(s.order, s.pending)|);
    }
  }
}
