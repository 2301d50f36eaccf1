/**
  Runs of the model-transition queue across any number of reloads.  A reload
  detaches: the current queue is frozen and its snapshot taken.  It attaches
  later: the snapshot becomes a new queue.  Frozen queues keep taking steps, and
  writes settle and settings change by hand at any time, also while detached.
  */
module Handoff {
  import opened Common
  import opened ModelQueue

  datatype Move = Turn | Resume | Finish

  /**
    `current` is the newest queue, `earlier` the frozen ones before it.  `finished`
    logs the number of each write whose remaining part was carried out.
    */
  datatype World = World(
    current: Queue,
    earlier: seq<Queue>,
    snapshot: Option<Queue>,
    slots: map<int, Slot>,
    exec: Executor,
    writes: seq<Write>,
    finished: seq<nat>)

  datatype Event =
    | Moved(move: Move)
    | OldMoved(i: nat, move: Move)
    | Submitted(task: Task)
    | WriteSettles(write: nat, accepted: bool, model: Identity)
    | UserModel(model: Identity)
    | UserThinking(level: string)
    | Detach
    | Attach

  function Advance(s: Site, move: Move): Site {
    match move
    case Turn => RunNext(s)
    case Resume => Continue(s)
    case Finish => s.(q := FinishRun(s.q))
  }

  function Here(w: World, q: Queue): Site {
    Site(q, w.slots, w.exec, w.writes)
  }

  /** The write whose remaining part this step carries out, if any. */
  function Completed(s: Site, move: Move): seq<nat> {
    if !s.q.frozen && s.q.inFlight.Some? && Advance(s, move).q.inFlight.None? then [s.q.inFlight.value.write] else []
  }

  function MoveCurrent(w: World, move: Move): World {
    var s := Here(w, w.current);
    var t := Advance(s, move);
    w.(current := t.q, slots := t.slots, exec := t.exec, writes := t.writes,
       finished := w.finished + Completed(s, move))
  }

  function MoveOld(w: World, i: nat, move: Move): World {
    if i >= |w.earlier| then w else
    var s := Here(w, w.earlier[i]);
    var t := Advance(s, move);
    w.(earlier := w.earlier[i := t.q], slots := t.slots, exec := t.exec, writes := t.writes,
       finished := w.finished + Completed(s, move))
  }

  /** A write settles once: the model may have changed to anything, the thinking level has not. */
  function SettleWrite(w: World, write: nat, accepted: bool, model: Identity): World {
    if write < |w.writes| && w.writes[write].accepted.None? then
      w.(writes := w.writes[write := w.writes[write].(accepted := Some(accepted))], exec := w.exec.(model := model))
    else w
  }

  function Step(w: World, e: Event): World {
    match e
    case Moved(move) => MoveCurrent(w, move)
    case OldMoved(i, move) => MoveOld(w, i, move)
    case Submitted(task) => if w.snapshot.Some? then w else w.(current := Submit(w.current, task))
    case WriteSettles(write, accepted, model) => SettleWrite(w, write, accepted, model)
    case UserModel(model) => w.(exec := w.exec.(model := model), current := w.current.(lastModel := Some(model)))
    case UserThinking(level) =>
      w.(exec := w.exec.(thinking := level), current := w.current.(lastThinking := Some(level)))
    case Detach =>
      if w.snapshot.Some? then w else
      var q := w.current.(frozen := true);
      w.(current := q, snapshot := Some(q))
    case Attach =>
      if w.snapshot.None? then w else
      w.(earlier := w.earlier + [w.current], current := Rehydrated(w.snapshot.value), snapshot := None)
  }

  function Run(w: World, es: seq<Event>): World
    decreases |es|
  {
    if es == [] then w else Step(Run(w, es[..|es| - 1]), es[|es| - 1])
  }

  function Start(exec: Executor): World {
    World(NEW_QUEUE, [], None, map[], exec, [], [])
  }

  // ----- one writer -----

  /** What the next unfrozen queue will go on from. */
  function Pending(w: World): Queue {
    if w.snapshot.Some? then w.snapshot.value else w.current
  }

  predicate AllSettled(writes: seq<Write>, n: nat) {
    n <= |writes| && forall i :: 0 <= i < n ==> writes[i].accepted.Some?
  }

  predicate Waiting(phase: Phase) {
    phase == Writing || phase == AtBarrier
  }

  /** An unfrozen queue waits exactly while a write is its own, and never idles over pending tasks. */
  predicate Live(q: Queue) {
    !q.frozen && (q.inFlight.Some? <==> Waiting(q.phase)) && (q.tasks != [] ==> q.phase != Idle)
  }

  /** Only the last write can be unsettled, and then the pending queue holds it. */
  predicate OneWriter(q: Queue, writes: seq<Write>) {
    if q.inFlight.Some? then
      q.inFlight.value.write + 1 == |writes| && AllSettled(writes, |writes| - 1)
    else AllSettled(writes, |writes|)
  }

  predicate Rising(xs: seq<nat>, bound: nat)
    decreases |xs|
  {
    xs == [] || (xs[|xs| - 1] < bound && Rising(xs[..|xs| - 1], xs[|xs| - 1]))
  }

  function Unfinished(q: Queue, writes: seq<Write>): nat {
    if q.inFlight.Some? then q.inFlight.value.write else |writes|
  }

  predicate AllFrozen(qs: seq<Queue>) {
    forall i :: 0 <= i < |qs| ==> qs[i].frozen
  }

  predicate Safe(w: World) {
    && AllFrozen(w.earlier)
    && (if w.snapshot.Some? then w.snapshot.value.frozen && w.current.frozen else Live(w.current))
    && OneWriter(Pending(w), w.writes)
    && Rising(w.finished, Unfinished(Pending(w), w.writes))
  }

  /** A frozen queue can still be woken by its write, but touches nothing. */
  lemma FrozenIsInert(s: Site, move: Move)
    requires s.q.frozen
    ensures Advance(s, move) == s.(q := Advance(s, move).q)
    ensures Advance(s, move).q.frozen
    ensures Completed(s, move) == []
  {
  }

  lemma RisingPush(xs: seq<nat>, b: nat, c: nat)
    requires Rising(xs, b) && b < c
    ensures Rising(xs + [b], c)
  {
    assert (xs + [b])[..|xs|] == xs;
  }

  /** Nothing of the queue but its records has changed, and no write has started. */
  ghost predicate Quiet(s: Site, t: Site) {
    && t.q == s.q.(lastModel := t.q.lastModel, lastThinking := t.q.lastThinking)
    && t.writes == s.writes
    && t.exec == s.exec.(thinking := t.exec.thinking)
  }

  /** One write has started, for this task. */
  ghost predicate StartedOne(s: Site, t: Site, task: Task) {
    && t.q.phase == Writing
    && t.q.inFlight.Some?
    && t.q.inFlight.value.task == task
    && t.q.inFlight.value.write == |s.writes|
    && t.q == s.q.(lastModel := t.q.lastModel, lastThinking := t.q.lastThinking,
                   phase := Writing, inFlight := t.q.inFlight)
    && |t.writes| == |s.writes| + 1
    && t.writes[..|s.writes|] == s.writes
    && t.exec == s.exec
  }

  lemma TailsAreQuiet(s: Site, target: Target, epoch: int, slot: Slot)
    ensures Quiet(s, SwitchTail(s, target))
    ensures Quiet(s, RestoreTail(s, epoch, slot))
  {
  }

  lemma SwitchStartsOneWrite(s: Site, task: Task)
    requires task.Switch?
    ensures var t := RunSwitch(s, task); Quiet(s, t) || StartedOne(s, t, task)
  {
    TailsAreQuiet(s, task.target, 0, Slot(Mask(false, false), None, None));
    TailsAreQuiet(RefreshModel(s), task.target, 0, Slot(Mask(false, false), None, None));
  }

  lemma RestoreStartsOneWrite(s: Site, task: Task)
    requires task.Restore?
    ensures var t := RunRestore(s, task); Quiet(s, t) || StartedOne(s, t, task)
  {
    if task.epoch in s.slots {
      TailsAreQuiet(RefreshThinking(RefreshModel(s)), Target(None, None), task.epoch, s.slots[task.epoch]);
    }
  }

  /** What one task can do to the queue: start one write or none. */
  lemma TaskStartsOneWrite(s: Site, task: Task)
    ensures var t := RunTask(s, task); Quiet(s, t) || StartedOne(s, t, task)
  {
    match task
    case Capture(_, _) =>
    case Switch(_, _) => SwitchStartsOneWrite(s, task);
    case Restore(_) => RestoreStartsOneWrite(s, task);
  }

  lemma AfterWriteIsQuiet(s: Site, task: Task, w: Write)
    ensures Quiet(s, AfterWrite(s, task, w))
  {
    var s1 := RefreshModel(s);
    match task
    case Capture(_, _) =>
    case Switch(_, target) => TailsAreQuiet(s1, target, 0, Slot(Mask(false, false), None, None));
    case Restore(epoch) =>
      if epoch in s1.slots {
        TailsAreQuiet(s1, Target(None, None), epoch, s1.slots[epoch]);
      }
  }

  lemma InheritedIsQuiet(s: Site, f: InFlight)
    ensures Quiet(s, FinishInherited(s, f))
  {
  }

  lemma ResumeClearsWrite(s: Site)
    requires !s.q.frozen && Settled(s) && Waiting(s.q.phase)
    ensures
      var t := Continue(s);
      && t.q.frozen == s.q.frozen
      && t.q.tasks == s.q.tasks
      && t.q.activeEpoch == s.q.activeEpoch
      && t.q.phase == Looping && t.q.inFlight.None? && t.writes == s.writes
  {
    var f := s.q.inFlight.value;
    AfterWriteIsQuiet(s.(q := s.q.(inFlight := None, phase := Looping)), f.task, s.writes[f.write]);
    InheritedIsQuiet(s, f);
  }

  /** The queue with its write over and done. */
  function Released(s: Site): Site {
    s.(q := s.q.(inFlight := None, phase := Looping))
  }

  lemma SwitchTailReleased(s: Site, target: Target)
    ensures SwitchTail(Released(s), target) == Released(SwitchTail(s, target))
  {
  }

  lemma RestoreTailReleased(s: Site, epoch: int, slot: Slot)
    ensures RestoreTail(Released(s), epoch, slot) == Released(RestoreTail(s, epoch, slot))
  {
  }

  lemma AfterWriteReleased(s: Site, task: Task, w: Write)
    ensures AfterWrite(Released(s), task, w) == Released(AfterWrite(s, task, w))
  {
    var s1 := RefreshModel(s);
    assert RefreshModel(Released(s)) == Released(s1);
    match task
    case Capture(_, _) =>
    case Switch(_, target) => SwitchTailReleased(s1, target);
    case Restore(epoch) =>
      if epoch in s1.slots {
        RestoreTailReleased(s1, epoch, s1.slots[epoch]);
      }
  }

  lemma TurnKeepsSafe(w: World)
    requires Safe(w) && w.snapshot.None?
    ensures Safe(MoveCurrent(w, Turn))
  {
    var s := Here(w, w.current);
    assert w.finished + [] == w.finished;
    if s.q.phase == Looping && s.q.tasks != [] {
      var s1 := s.(q := s.q.(tasks := s.q.tasks[1..]));
      TaskStartsOneWrite(s1, s.q.tasks[0]);
      var t := RunTask(s1, s.q.tasks[0]);
      if StartedOne(s1, t, s.q.tasks[0]) {
        assert forall i :: 0 <= i < |s.writes| ==> t.writes[i] == t.writes[..|s.writes|][i];
      }
    }
  }

  lemma ResumeKeepsSafe(w: World)
    requires Safe(w) && w.snapshot.None?
    ensures Safe(MoveCurrent(w, Resume))
  {
    var s := Here(w, w.current);
    assert w.finished + [] == w.finished;
    if Settled(s) && Waiting(s.q.phase) {
      ResumeClearsWrite(s);
      RisingPush(w.finished, s.q.inFlight.value.write, |w.writes|);
      assert AllSettled(w.writes, |w.writes|);
    }
  }

  lemma SettleKeepsSafe(w: World, write: nat, accepted: bool, model: Identity)
    requires Safe(w)
    ensures Safe(SettleWrite(w, write, accepted, model))
  {
  }

  lemma FrozenMoveKeepsSafe(w: World, e: Event)
    requires Safe(w)
    requires e.OldMoved? || (e.Moved? && w.snapshot.Some?)
    ensures Safe(Step(w, e))
  {
    if e.Moved? {
      FrozenIsInert(Here(w, w.current), e.move);
      assert w.finished + [] == w.finished;
    } else if e.i < |w.earlier| {
      FrozenIsInert(Here(w, w.earlier[e.i]), e.move);
      assert w.finished + [] == w.finished;
    }
  }

  /** Every step, frozen or not, at any await, keeps one writer. */
  lemma StepKeepsSafe(w: World, e: Event)
    requires Safe(w)
    ensures Safe(Step(w, e))
  {
    match e
    case Moved(move) =>
      if w.snapshot.Some? {
        FrozenMoveKeepsSafe(w, e);
      } else {
        match move
        case Turn => TurnKeepsSafe(w);
        case Resume => ResumeKeepsSafe(w);
        case Finish => assert w.finished + [] == w.finished;
      }
    case OldMoved(_, _) => FrozenMoveKeepsSafe(w, e);
    case WriteSettles(write, accepted, model) => SettleKeepsSafe(w, write, accepted, model);
    case _ =>
  }

  lemma {:induction false} AlwaysSafe(exec: Executor, es: seq<Event>)
    ensures Safe(Run(Start(exec), es))
    decreases |es|
  {
    if es != [] {
      AlwaysSafe(exec, es[..|es| - 1]);
      StepKeepsSafe(Run(Start(exec), es[..|es| - 1]), es[|es| - 1]);
    }
  }

  /** No two writes overlap: whenever a step starts one, every earlier write has settled. */
  lemma {:induction false} WritesNeverOverlap(exec: Executor, es: seq<Event>, e: Event)
    ensures
      var before, after := Run(Start(exec), es), Run(Start(exec), es + [e]);
      |after.writes| > |before.writes| ==>
        && AllSettled(before.writes, |before.writes|)
        && |after.writes| == |before.writes| + 1
  {
    var w := Run(Start(exec), es);
    AlwaysSafe(exec, es);
    AlwaysSafe(exec, es + [e]);
    assert (es + [e])[..|es|] == es;
    match e
    case Moved(move) =>
      if w.snapshot.Some? {
        FrozenIsInert(Here(w, w.current), move);
      } else if move == Turn && w.current.phase == Looping && w.current.tasks != [] {
        TaskStartsOneWrite(Here(w, w.current.(tasks := w.current.tasks[1..])), w.current.tasks[0]);
      } else if move == Resume && Settled(Here(w, w.current)) && Waiting(w.current.phase) {
        ResumeClearsWrite(Here(w, w.current));
      }
    case OldMoved(i, move) =>
      if i < |w.earlier| {
        FrozenIsInert(Here(w, w.earlier[i]), move);
      }
    case _ =>
  }

  lemma {:induction false} RisingIsDistinct(xs: seq<nat>, b: nat, i: nat, j: nat)
    requires Rising(xs, b) && i < j < |xs|
    ensures xs[i] < xs[j] < b
    decreases |xs|
  {
    var n := |xs| - 1;
    if j < n {
      RisingIsDistinct(xs[..n], xs[n], i, j);
    } else if i < n - 1 {
      RisingIsDistinct(xs[..n], xs[n], i, n - 1);
    }
  }

  /** However often a write is handed on, its remaining part is carried out at most once. */
  lemma {:induction false} RemainderAtMostOnce(exec: Executor, es: seq<Event>, i: nat, j: nat)
    requires i < j < |Run(Start(exec), es).finished|
    ensures Run(Start(exec), es).finished[i] != Run(Start(exec), es).finished[j]
  {
    var w := Run(Start(exec), es);
    AlwaysSafe(exec, es);
    RisingIsDistinct(w.finished, Unfinished(Pending(w), w.writes), i, j);
  }

  /** A barrier touches the thinking level only for the write's remaining level, and only on its target. */
  lemma LeftoverOnlyOnTarget(s: Site)
    requires Settled(s) && s.q.phase == AtBarrier
    ensures
      var f := s.q.inFlight.value;
      var t := Continue(s);
      t.exec.thinking != s.exec.thinking ==>
        && !s.q.frozen
        && f.remaining.Some?
        && BarrierTarget(s, f.task).Some?
        && RefreshModel(s).q.lastModel == BarrierTarget(s, f.task)
        && t.exec.thinking == s.exec.think(s.exec.model, s.exec.thinking, f.remaining.value)
  {
  }

  /** An unfrozen queue with pending tasks is never at rest. */
  lemma {:induction false} PendingTasksAreRun(exec: Executor, es: seq<Event>)
    ensures
      var w := Run(Start(exec), es);
      w.snapshot.None? && w.current.tasks != [] ==> !w.current.frozen && w.current.phase != Idle
  {
    AlwaysSafe(exec, es);
  }
}
