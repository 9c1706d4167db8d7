/** Runs of the grouped queue in which tasks add tasks: the restart of the scan from
    the first lane after every completed task. */
module QueueScenarios {
  import opened SubQueues
  import opened GroupedQueue
  import opened QueueCycles

  /** Every lane is empty. */
  predicate AllEmpty(p: map<string, seq<Entry>>)
  {
    forall n :: n in p ==> p[n] == []
  }

  /** Task 0 adds task 1 to lane `lo` and then task 2 to lane `hi`, and calls `done`;
      every other task adds nothing and calls `done`. */
  function AddsLowThenHigh(hi: string, lo: string): (behave: TaskId -> TaskBehaviour)
  {
    t => if t == 0 then TaskBehaviour([Addition(Some(lo), 1), Addition(Some(hi), 2)], CallsDone)
         else TaskBehaviour([], CallsDone)
  }

  /** The scan schedules lane `i` when it has a task and every lane above it is empty. */
  lemma ExecPicks(s: Snapshot, i: nat)
    requires WellFormed(s) && s.running && i < |s.order| && s.pending[s.order[i]] != []
    requires forall j :: 0 <= j < i ==> s.pending[s.order[j]] == []
    ensures AfterExec(s) == s.(scheduled := Some(s.order[i]))
  {
    var k := FirstNonEmpty(s.order, s.pending, 0);
    assert k.Some? && k.value == i;
  }

  /** The scan clears `running` when every lane is empty. */
  lemma ExecStops(s: Snapshot)
    requires WellFormed(s) && s.running && AllEmpty(s.pending)
    ensures AfterExec(s) == s.(running := false, scheduled := None)
  {
  }

  /** Giving lane `i` alone some tasks: the scan schedules it. */
  lemma ScheduleOnly(s: Snapshot, i: nat, q: seq<Entry>)
    requires WellFormed(s) && s.running && AllEmpty(s.pending) && i < |s.order| && q != []
    ensures WellFormed(s.(pending := s.pending[s.order[i] := q]))
    ensures AfterExec(s.(pending := s.pending[s.order[i] := q]))
            == s.(pending := s.pending[s.order[i] := q], scheduled := Some(s.order[i]))
  {
    var t := s.(pending := s.pending[s.order[i] := q]);
    forall j | 0 <= j < i ensures t.pending[t.order[j]] == [] {
      assert s.order[j] != s.order[i];
    }
    ExecPicks(t, i);
  }

  /** `add(task 0)` on an idle queue whose lanes are all empty: the task goes to
      `'default'`, which is scheduled. */
  lemma FirstAdd(s: Snapshot, d: nat)
    requires WellFormed(s) && Idle(s) && AllEmpty(s.pending)
    requires d < |s.order| && s.order[d] == DefaultLane
    ensures AfterAdd(s, None, 0)
            == Some(Snapshot(s.order, s.pending[DefaultLane := [Entry(0, None)]], true, Some(DefaultLane)))
  {
    ScheduleOnly(s.(running := true), d, [Entry(0, None)]);
  }

  /** The first callback: task 0 runs, pushes onto `lo` and `hi`, calls `done`, and the
      scan restarts from the first lane, so `hi` is scheduled. */
  lemma FirstCallback(s: Snapshot, h: nat, l: nat)
    requires WellFormed(s) && Idle(s) && AllEmpty(s.pending)
    requires h < l < |s.order| && DefaultLane in s.pending
    ensures var s1 := Snapshot(s.order, s.pending[DefaultLane := [Entry(0, None)]], true, Some(DefaultLane));
            var r := AfterFire(s1, AddsLowThenHigh(s.order[h], s.order[l]));
            && r.ran == Entry(0, None) && r.outcome == Completed
            && r.after == Snapshot(s.order, s.pending[s.order[l] := [Entry(1, None)]][s.order[h] := [Entry(2, None)]],
                                   true, Some(s.order[h]))
  {
    var hi, lo := s.order[h], s.order[l];
    var s1 := Snapshot(s.order, s.pending[DefaultLane := [Entry(0, None)]], true, Some(DefaultLane));
    var d1 := Dequeued(s1);
    assert d1.pending == s.pending;
    var a1 := s.(running := true, pending := s.pending[lo := [Entry(1, None)]]);
    assert AfterAdd(d1, Some(lo), 1) == Some(a1);
    var a2 := a1.(pending := a1.pending[hi := [Entry(2, None)]]);
    assert AfterAdd(a1, Some(hi), 2) == Some(a2);
    var adds := AddsLowThenHigh(hi, lo)(0).adds;
    assert ApplyAdds(a2, adds[2..]) == AddsResult(a2, false);
    assert ApplyAdds(d1, adds) == AddsResult(a2, false);
    forall j | 0 <= j < h ensures a2.pending[a2.order[j]] == [] {
      assert s.order[j] != hi && s.order[j] != lo;
    }
    ExecPicks(a2, h);
  }

  /** The second callback runs task 2 from `hi`; the scan then finds `lo`. */
  lemma SecondCallback(s: Snapshot, h: nat, l: nat)
    requires WellFormed(s) && AllEmpty(s.pending) && h < l < |s.order|
    ensures var s2 := Snapshot(s.order, s.pending[s.order[l] := [Entry(1, None)]][s.order[h] := [Entry(2, None)]],
                               true, Some(s.order[h]));
            var r := AfterFire(s2, AddsLowThenHigh(s.order[h], s.order[l]));
            && r.ran == Entry(2, None) && r.outcome == Completed
            && r.after == Snapshot(s.order, s.pending[s.order[l] := [Entry(1, None)]], true, Some(s.order[l]))
  {
    var hi, lo := s.order[h], s.order[l];
    var s2 := Snapshot(s.order, s.pending[lo := [Entry(1, None)]][hi := [Entry(2, None)]], true, Some(hi));
    var d2 := Dequeued(s2);
    var t := Snapshot(s.order, s.pending[lo := [Entry(1, None)]], true, None);
    assert d2 == t;
    ScheduleOnly(s.(running := true, scheduled := None), l, [Entry(1, None)]);
  }

  /** The third callback runs task 1 from `lo`; every lane is then empty and the scan
      clears `running`. */
  lemma ThirdCallback(s: Snapshot, h: nat, l: nat)
    requires WellFormed(s) && AllEmpty(s.pending) && h < l < |s.order|
    ensures var s3 := Snapshot(s.order, s.pending[s.order[l] := [Entry(1, None)]], true, Some(s.order[l]));
            var r := AfterFire(s3, AddsLowThenHigh(s.order[h], s.order[l]));
            && r.ran == Entry(1, None) && r.outcome == Completed
            && r.after == Snapshot(s.order, s.pending, false, None)
  {
    var lo := s.order[l];
    var s3 := Snapshot(s.order, s.pending[lo := [Entry(1, None)]], true, Some(lo));
    assert Dequeued(s3) == s.(running := true, scheduled := None);
    ExecStops(s.(running := true, scheduled := None));
  }

  /** A cycle of one callback or more from a state with a waiting callback. */
  lemma CycleStep(s: Snapshot, behave: TaskId -> TaskBehaviour, n: nat, f: Fired, rest: Trace)
    requires WellFormed(s) && n >= 1 && s.scheduled.Some?
    requires f == AfterFire(s, behave) && rest == Cycle(f.after, behave, n - 1)
    ensures Cycle(s, behave, n) == Trace(rest.final, [f.ran] + rest.ran)
  {
  }

  /** From the second callback on: task 2, then task 1, then idle. */
  lemma CycleFromSecond(s: Snapshot, h: nat, l: nat)
    requires WellFormed(s) && Idle(s) && AllEmpty(s.pending) && h < l < |s.order|
    ensures var s2 := Snapshot(s.order, s.pending[s.order[l] := [Entry(1, None)]][s.order[h] := [Entry(2, None)]],
                               true, Some(s.order[h]));
            Cycle(s2, AddsLowThenHigh(s.order[h], s.order[l]), 2) == Trace(s, [Entry(2, None), Entry(1, None)])
  {
    var hi, lo := s.order[h], s.order[l];
    var behave := AddsLowThenHigh(hi, lo);
    var s2 := Snapshot(s.order, s.pending[lo := [Entry(1, None)]][hi := [Entry(2, None)]], true, Some(hi));
    var s3 := Snapshot(s.order, s.pending[lo := [Entry(1, None)]], true, Some(lo));
    SecondCallback(s, h, l);
    ThirdCallback(s, h, l);
    CycleStep(s3, behave, 1, AfterFire(s3, behave), Trace(s, []));
    CycleStep(s2, behave, 2, AfterFire(s2, behave), Trace(s, [Entry(1, None)]));
  }

  /** From the first callback on: tasks 0, 2 and 1, then idle. */
  lemma CycleFromFirst(s: Snapshot, h: nat, l: nat)
    requires WellFormed(s) && Idle(s) && AllEmpty(s.pending)
    requires h < l < |s.order| && DefaultLane in s.pending
    ensures var s1 := Snapshot(s.order, s.pending[DefaultLane := [Entry(0, None)]], true, Some(DefaultLane));
            Cycle(s1, AddsLowThenHigh(s.order[h], s.order[l]), 3)
            == Trace(s, [Entry(0, None), Entry(2, None), Entry(1, None)])
  {
    var behave := AddsLowThenHigh(s.order[h], s.order[l]);
    var s1 := Snapshot(s.order, s.pending[DefaultLane := [Entry(0, None)]], true, Some(DefaultLane));
    FirstCallback(s, h, l);
    CycleFromSecond(s, h, l);
    CycleStep(s1, behave, 3, AfterFire(s1, behave), Trace(s, [Entry(2, None), Entry(1, None)]));
  }

  /** A task in `'default'` adds a task to a low lane, then one to a higher lane, and
      completes: the scan restarts from the first lane, so the task added second, to
      the higher lane, runs before the one added first, and the queue ends as it
      began, idle with every lane empty. */
  lemma ReentrantAddsRunHigherLaneFirst(s: Snapshot, h: nat, l: nat)
    requires WellFormed(s) && Idle(s) && AllEmpty(s.pending) && Listed(s)
    requires h < l < |s.order| && DefaultLane in s.pending
    ensures AfterAdd(s, None, 0).Some?
    ensures Cycle(AfterAdd(s, None, 0).value, AddsLowThenHigh(s.order[h], s.order[l]), 3)
            == Trace(s, [Entry(0, None), Entry(2, None), Entry(1, None)])
  {
    var d :| 0 <= d < |s.order| && s.order[d] == DefaultLane;
    FirstAdd(s, d);
    CycleFromFirst(s, h, l);
  }

  /** Tasks that add nothing and call `done`. */
  function QuietTasks(): (behave: TaskId -> TaskBehaviour)
  {
    t => TaskBehaviour([], CallsDone)
  }

  /** The second of two `add` calls made while the first one's callback is still
      waiting only pushes: the lane chosen by the first stays scheduled. */
  lemma SecondAddOnlyPushes(s: Snapshot, h: nat, l: nat)
    requires WellFormed(s) && Idle(s) && AllEmpty(s.pending) && h < l < |s.order|
    ensures AfterAdd(s, Some(s.order[l]), 1)
            == Some(Snapshot(s.order, s.pending[s.order[l] := [Entry(1, None)]], true, Some(s.order[l])))
    ensures AfterAdd(AfterAdd(s, Some(s.order[l]), 1).value, Some(s.order[h]), 2)
            == Some(Snapshot(s.order, s.pending[s.order[l] := [Entry(1, None)]][s.order[h] := [Entry(2, None)]],
                             true, Some(s.order[l])))
  {
    ScheduleOnly(s.(running := true), l, [Entry(1, None)]);
  }

  /** `add(lo, task 1)` then `add(hi, task 2)` on an idle queue whose lanes are empty,
      with `hi` the higher lane: the first `add` starts a cycle that has already chosen
      `lo` when the second arrives, so task 1 runs before task 2. */
  lemma FirstAddedRunsFirst(s: Snapshot, h: nat, l: nat)
    requires WellFormed(s) && Idle(s) && AllEmpty(s.pending) && h < l < |s.order|
    ensures AfterAdd(s, Some(s.order[l]), 1).Some?
    ensures AfterAdd(AfterAdd(s, Some(s.order[l]), 1).value, Some(s.order[h]), 2).Some?
    ensures Cycle(AfterAdd(AfterAdd(s, Some(s.order[l]), 1).value, Some(s.order[h]), 2).value, QuietTasks(), 2)
            == Trace(s, [Entry(1, None), Entry(2, None)])
  {
    var hi, lo := s.order[h], s.order[l];
    var both := s.pending[lo := [Entry(1, None)]][hi := [Entry(2, None)]];
    var b := Snapshot(s.order, both, true, Some(lo));
    SecondAddOnlyPushes(s, h, l);
    // The callback of `lo` runs task 1; the scan then finds `hi`.
    var d := Dequeued(b);
    assert d.pending == s.pending[hi := [Entry(2, None)]];
    ScheduleOnly(s.(running := true), h, [Entry(2, None)]);
    var c := Snapshot(s.order, s.pending[hi := [Entry(2, None)]], true, Some(hi));
    assert AfterFire(b, QuietTasks()) == Fired(c, Entry(1, None), Completed);
    // The callback of `hi` runs task 2; every lane is then empty.
    assert Dequeued(c) == s.(running := true);
    ExecStops(s.(running := true));
    assert AfterFire(c, QuietTasks()) == Fired(s, Entry(2, None), Completed);
    CycleStep(c, QuietTasks(), 1, AfterFire(c, QuietTasks()), Trace(s, []));
    CycleStep(b, QuietTasks(), 2, AfterFire(b, QuietTasks()), Trace(s, [Entry(2, None)]));
  }

  /** The lanes `before`, `run` and `after` of the queue the tests build. */
  const TestLanes: seq<string> := ["before", "run", "after"]

  /** `new Queue(["before", "run", "after"])`: those lanes in order, then `'default'`. */
  lemma TestQueueOrder()
    ensures Initial(Some(TestLanes)).order == ["before", "run", "after", DefaultLane]
  {
    assert NoDuplicates(TestLanes);
    assert DefaultLane !in TestLanes;
    ConstructorLaneOrder(TestLanes);
  }

  /** The initial queue satisfies what the scenarios ask of their start state. */
  lemma TestQueueStart()
    ensures var s := Initial(Some(TestLanes));
            && WellFormed(s) && Idle(s) && AllEmpty(s.pending) && Listed(s) && DefaultLane in s.pending
            && s.order[0] == "before" && s.order[2] == "after"
  {
    TestQueueOrder();
    InitialLanes(Some(TestLanes));
  }

  /** test/index.js:214-230 on the queue the tests build: a default-lane task adds a
      task to `after` and one to `before`; the `before` task runs first. */
  lemma TestReexecFromFirstQueue()
    ensures AfterAdd(Initial(Some(TestLanes)), None, 0).Some?
    ensures Cycle(AfterAdd(Initial(Some(TestLanes)), None, 0).value, AddsLowThenHigh("before", "after"), 3).ran
            == [Entry(0, None), Entry(2, None), Entry(1, None)]
  {
    TestQueueStart();
    ReentrantAddsRunHigherLaneFirst(Initial(Some(TestLanes)), 0, 2);
  }

  /** test/index.js:110-121 on the queue the tests build, as lib/queue.js is written:
      `add("after", task 1)` then `add("before", task 2)` with `run` live runs task 1
      first. */
  lemma TestAddsRunInCallOrder()
    ensures AfterAdd(Initial(Some(TestLanes)), Some("after"), 1).Some?
    ensures AfterAdd(AfterAdd(Initial(Some(TestLanes)), Some("after"), 1).value, Some("before"), 2).Some?
    ensures Cycle(AfterAdd(AfterAdd(Initial(Some(TestLanes)), Some("after"), 1).value, Some("before"), 2).value,
                  QuietTasks(), 2).ran
            == [Entry(1, None), Entry(2, None)]
  {
    TestQueueStart();
    FirstAddedRunsFirst(Initial(Some(TestLanes)), 0, 2);
  }
}
