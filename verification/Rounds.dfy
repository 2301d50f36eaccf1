/**
  Rounds of joining and leaving.  Each round submits a capture and a switch on
  joining and a restore on leaving, under any epoch numbers, while writes are in
  flight and across reloads.  Once the queue has drained after a leave, model
  and thinking level are what they were before the first round.
  */
module Rounds {
  import opened Common
  import opened ModelQueue
  import opened Handoff

  /** Model and thinking level before the first round. */
  datatype Base = Base(model: Identity, thinking: string)

  /** How far the round at the head of the work has come. */
  datatype Stage = AtBase | Captured(epoch: int, mask: Mask) | Switched(epoch: int, mask: Mask)

  /** A profile only has targets in the dimensions its mask turns on. */
  predicate Fits(target: Target, mask: Mask) {
    && (target.model.Some? ==> mask.model)
    && (target.thinking.Some? ==> mask.thinking)
  }

  /** The stage after one more task; None when it does not belong there. */
  function Follow(stage: Option<Stage>, task: Task): Option<Stage> {
    match stage
    case Some(AtBase) => if task.Capture? then Some(Captured(task.epoch, task.mask)) else None
    case Some(Captured(epoch, mask)) =>
      if task.Switch? && task.epoch == epoch && Fits(task.target, mask) then Some(Switched(epoch, mask)) else None
    case Some(Switched(epoch, _)) => if task == Restore(epoch) then Some(AtBase) else None
    case None => None
  }

  function FollowAll(stage: Option<Stage>, tasks: seq<Task>): Option<Stage>
    decreases |tasks|
  {
    if tasks == [] then stage else FollowAll(Follow(stage, tasks[0]), tasks[1..])
  }

  /** Executor calls succeed, nobody changes settings by hand, tasks are submitted while attached. */
  predicate Proper(w: World, e: Event, base: Base) {
    match e
    case UserModel(_) => false
    case UserThinking(_) => false
    case Submitted(_) => w.snapshot.None?
    case WriteSettles(write, _, model) =>
      write < |w.writes| && w.writes[write].target == base.model ==> model == base.model
    case _ => true
  }

  predicate ProperRun(w: World, es: seq<Event>, base: Base)
    decreases |es|
  {
    es == [] || (ProperRun(w, es[..|es| - 1], base) && Proper(Run(w, es[..|es| - 1]), es[|es| - 1], base))
  }

  /** The getters work, the base model resolves, and on it the base level can be set. */
  ghost predicate Reliable(exec: Executor, base: Base) {
    && exec.modelSeen
    && exec.thinkingSeen
    && base.model in exec.catalog
    && forall t :: exec.think(base.model, t, base.thinking) == base.thinking
  }

  // ----- the invariant -----

  /** A restore in flight is still work to do. */
  function Work(q: Queue): seq<Task> {
    if q.inFlight.Some? && q.inFlight.value.task.Restore? then [q.inFlight.value.task] + q.tasks else q.tasks
  }

  function BaseSlot(mask: Mask, base: Base): Slot {
    Slot(mask, if mask.model then Some(base.model) else None, if mask.thinking then Some(base.thinking) else None)
  }

  /** No baseline anywhere was taken from a transient profile. */
  predicate SlotsHoldBase(slots: map<int, Slot>, base: Base) {
    forall e :: e in slots ==> slots[e] == BaseSlot(slots[e].mask, base)
  }

  predicate BeforeSwitch(exec: Executor, base: Base) {
    exec.model == base.model && exec.thinking == base.thinking
  }

  predicate OnlyMasked(exec: Executor, mask: Mask, base: Base) {
    && (!mask.model ==> exec.model == base.model)
    && (!mask.thinking ==> exec.thinking == base.thinking)
  }

  predicate StageHolds(s: Site, stage: Stage, base: Base) {
    match stage
    case AtBase => BeforeSwitch(s.exec, base) && s.q.inFlight.None?
    case Captured(epoch, mask) =>
      BeforeSwitch(s.exec, base) && s.q.inFlight.None? && epoch in s.slots && s.slots[epoch] == BaseSlot(mask, base)
    case Switched(epoch, mask) =>
      OnlyMasked(s.exec, mask, base) && epoch in s.slots && s.slots[epoch] == BaseSlot(mask, base)
  }

  /** The write in flight belongs to the stage and aims where it should. */
  predicate FlightHolds(s: Site, stage: Stage, base: Base) {
    s.q.inFlight.Some? ==>
      var f := s.q.inFlight.value;
      && stage.Switched?
      && stage.mask.model
      && f.write < |s.writes|
      && (match f.task
          case Capture(_, _) => false
          case Switch(_, _) => f.remaining.Some? ==> stage.mask.thinking
          case Restore(epoch) =>
            && epoch == stage.epoch
            && epoch in s.slots
            && s.writes[f.write].target == base.model
            && (s.writes[f.write].accepted.Some? ==> s.exec.model == base.model)
            && f.remaining == RestoreRemainder(s.slots[epoch]))
      && (f.task.Switch? ==> Fits(f.task.target, stage.mask))
  }

  predicate KnowsThinking(q: Queue, exec: Executor) {
    q.phase == Writing && q.inFlight.Some? && q.inFlight.value.task.Restore? ==> q.lastThinking == Some(exec.thinking)
  }

  ghost predicate Sound(s: Site, stage: Stage, base: Base) {
    && Reliable(s.exec, base)
    && SlotsHoldBase(s.slots, base)
    && StageHolds(s, stage, base)
    && FlightHolds(s, stage, base)
  }

  ghost predicate InRound(w: World, stage: Stage, goal: Option<Stage>, base: Base) {
    && Safe(w)
    && Sound(Here(w, Pending(w)), stage, base)
    && FollowAll(Some(stage), Work(Pending(w))) == goal
    && (w.snapshot.None? ==> KnowsThinking(w.current, w.exec))
  }

  // ----- tasks -----

  lemma {:induction false} FollowNone(tasks: seq<Task>)
    ensures FollowAll(None, tasks) == None
    decreases |tasks|
  {
    if tasks != [] {
      FollowNone(tasks[1..]);
    }
  }

  lemma {:induction false} FollowAppend(stage: Option<Stage>, tasks: seq<Task>, task: Task)
    ensures FollowAll(stage, tasks + [task]) == Follow(FollowAll(stage, tasks), task)
    decreases |tasks|
  {
    if tasks == [] {
      assert tasks + [task] == [task];
      assert [task][1..] == [];
    } else {
      assert (tasks + [task])[1..] == tasks[1..] + [task];
      FollowAppend(Follow(stage, tasks[0]), tasks[1..], task);
    }
  }

  lemma CaptureRound(s: Site, task: Task, base: Base)
    requires task.Capture? && s.q.inFlight.None? && Sound(s, AtBase, base)
    ensures Sound(RunTask(s, task), Captured(task.epoch, task.mask), base) && RunTask(s, task).q.inFlight.None?
  {
  }

  lemma SwitchRound(s: Site, task: Task, stage: Stage, base: Base)
    requires task.Switch? && s.q.inFlight.None? && stage.Captured? && Sound(s, stage, base)
    requires task.epoch == stage.epoch && Fits(task.target, stage.mask)
    ensures Sound(RunTask(s, task), Switched(stage.epoch, stage.mask), base)
  {
    TaskStartsOneWrite(s, task);
  }

  lemma RestoreTailRound(s: Site, epoch: int, mask: Mask, base: Base)
    requires Reliable(s.exec, base) && SlotsHoldBase(s.slots, base)
    requires OnlyMasked(s.exec, mask, base) && s.exec.model == base.model
    requires s.q.lastModel == Some(s.exec.model) && s.q.lastThinking == Some(s.exec.thinking)
    ensures
      var t := RestoreTail(s, epoch, BaseSlot(mask, base));
      && Reliable(t.exec, base)
      && SlotsHoldBase(t.slots, base)
      && BeforeSwitch(t.exec, base)
      && t.q.inFlight == s.q.inFlight
  {
  }

  lemma RestoreRound(s: Site, stage: Stage, base: Base)
    requires s.q.inFlight.None? && stage.Switched? && Sound(s, stage, base)
    ensures
      var t := RunTask(s, Restore(stage.epoch));
      && (if t.q.inFlight.Some? then
            Sound(t, stage, base) && t.q.inFlight.value.task == Restore(stage.epoch) && KnowsThinking(t.q, t.exec)
          else Sound(t, AtBase, base))
  {
    var s1 := RefreshThinking(RefreshModel(s));
    TaskStartsOneWrite(s, Restore(stage.epoch));
    if s1.exec.model == base.model {
      RestoreTailRound(s1, stage.epoch, stage.mask, base);
    }
  }

  // ----- steps -----

  lemma TurnRound(w: World, stage: Stage, goal: Option<Stage>, base: Base) returns (next: Stage)
    requires InRound(w, stage, goal, base) && goal.Some? && w.snapshot.None?
    ensures InRound(MoveCurrent(w, Turn), next, goal, base)
  {
    TurnKeepsSafe(w);
    next := stage;
    if w.current.phase == Looping && w.current.tasks != [] {
      var task := w.current.tasks[0];
      var rest := w.current.tasks[1..];
      var s := Here(w, w.current.(tasks := rest));
      FollowNone(rest);
      TaskStartsOneWrite(s, task);
      assert Follow(Some(stage), task).Some?;
      match stage
      case AtBase =>
        CaptureRound(s, task, base);
        next := Captured(task.epoch, task.mask);
      case Captured(epoch, mask) =>
        SwitchRound(s, task, stage, base);
        next := Switched(epoch, mask);
      case Switched(epoch, mask) =>
        RestoreRound(s, stage, base);
        if RunTask(s, task).q.inFlight.None? {
          next := AtBase;
        }
    }
  }

  /** A switch whose write settled, with the remaining level applied or not, ends inside its mask. */
  lemma AfterSwitchRound(s: Site, stage: Stage, base: Base)
    requires Sound(s, stage, base) && Settled(s) && s.q.inFlight.value.task.Switch?
    ensures
      var f := s.q.inFlight.value;
      && Sound(Released(AfterWrite(s, f.task, s.writes[f.write])), stage, base)
      && Sound(Released(FinishInherited(s, f)), stage, base)
  {
  }

  /** A restore whose write settled is back at the base, in the queue that wrote and in its successor alike. */
  lemma AfterRestoreRound(s: Site, stage: Stage, base: Base)
    requires Sound(s, stage, base) && Settled(s) && s.q.inFlight.value.task.Restore?
    ensures
      var f := s.q.inFlight.value;
      && (s.q.lastThinking == Some(s.exec.thinking)
          ==> Sound(Released(AfterWrite(s, f.task, s.writes[f.write])), AtBase, base))
      && Sound(Released(FinishInherited(s, f)), AtBase, base)
  {
    var f := s.q.inFlight.value;
    if s.q.lastThinking == Some(s.exec.thinking) {
      RestoreTailRound(RefreshModel(s), stage.epoch, stage.mask, base);
    }
  }

  lemma ResumeRound(w: World, stage: Stage, goal: Option<Stage>, base: Base) returns (next: Stage)
    requires InRound(w, stage, goal, base) && w.snapshot.None?
    ensures InRound(MoveCurrent(w, Resume), next, goal, base)
  {
    ResumeKeepsSafe(w);
    next := stage;
    var s := Here(w, w.current);
    if Settled(s) && Waiting(s.q.phase) {
      ResumeClearsWrite(s);
      var f := s.q.inFlight.value;
      AfterWriteReleased(s, f.task, s.writes[f.write]);
      if f.task.Switch? {
        AfterSwitchRound(s, stage, base);
      } else {
        AfterRestoreRound(s, stage, base);
        assert Work(s.q)[1..] == s.q.tasks;
        next := AtBase;
      }
    }
  }

  lemma SubmitKeepsWork(q: Queue, task: Task)
    ensures Work(Submit(q, task)) == Work(q) + [task]
    ensures Submit(q, task).inFlight == q.inFlight && Submit(q, task).lastThinking == q.lastThinking
    ensures Submit(q, task).phase == Writing ==> q.phase == Writing
  {
  }

  lemma SubmitKeepsSound(s: Site, stage: Stage, base: Base, q: Queue)
    requires Sound(s, stage, base) && q.inFlight == s.q.inFlight
    ensures Sound(s.(q := q), stage, base)
  {
  }

  lemma SubmitRound(w: World, stage: Stage, goal: Option<Stage>, base: Base, task: Task)
    requires InRound(w, stage, goal, base) && w.snapshot.None?
    ensures InRound(Step(w, Submitted(task)), stage, Follow(goal, task), base)
  {
    StepKeepsSafe(w, Submitted(task));
    FollowAppend(Some(stage), Work(w.current), task);
    SubmitKeepsWork(w.current, task);
    SubmitKeepsSound(Here(w, w.current), stage, base, Submit(w.current, task));
  }

  lemma SettleRound(w: World, e: Event, stage: Stage, goal: Option<Stage>, base: Base)
    requires InRound(w, stage, goal, base) && e.WriteSettles? && Proper(w, e, base)
    ensures InRound(Step(w, e), stage, goal, base)
  {
    StepKeepsSafe(w, e);
  }

  lemma StepRound(w: World, e: Event, stage: Stage, goal: Option<Stage>, base: Base) returns (next: Stage)
    requires InRound(w, stage, goal, base) && goal.Some? && Proper(w, e, base)
    ensures InRound(Step(w, e), next, if e.Submitted? then Follow(goal, e.task) else goal, base)
  {
    StepKeepsSafe(w, e);
    next := stage;
    match e
    case Moved(move) =>
      if w.snapshot.Some? {
        FrozenIsInert(Here(w, w.current), move);
      } else {
        match move
        case Turn => next := TurnRound(w, stage, goal, base);
        case Resume => next := ResumeRound(w, stage, goal, base);
        case Finish =>
      }
    case OldMoved(i, move) =>
      if i < |w.earlier| {
        FrozenIsInert(Here(w, w.earlier[i]), move);
      }
    case Submitted(task) => SubmitRound(w, stage, goal, base, task);
    case WriteSettles(_, _, _) => SettleRound(w, e, stage, goal, base);
    case _ =>
  }

  function Submissions(es: seq<Event>): seq<Task>
    decreases |es|
  {
    if es == [] then []
    else Submissions(es[..|es| - 1]) + (if es[|es| - 1].Submitted? then [es[|es| - 1].task] else [])
  }

  lemma {:induction false} RoundsHold(exec: Executor, es: seq<Event>, base: Base) returns (stage: Stage)
    requires Reliable(exec, base) && exec.model == base.model && exec.thinking == base.thinking
    requires ProperRun(Start(exec), es, base)
    requires FollowAll(Some(AtBase), Submissions(es)).Some?
    ensures InRound(Run(Start(exec), es), stage, FollowAll(Some(AtBase), Submissions(es)), base)
    decreases |es|
  {
    if es == [] {
      return AtBase;
    }
    var n := |es| - 1;
    if es[n].Submitted? {
      FollowAppend(Some(AtBase), Submissions(es[..n]), es[n].task);
    } else {
      assert Submissions(es) == Submissions(es[..n]);
    }
    var before := RoundsHold(exec, es[..n], base);
    stage := StepRound(Run(Start(exec), es[..n]), es[n], before, FollowAll(Some(AtBase), Submissions(es[..n])), base);
  }

  /**
    Restore over all rounds.  Once everything submitted has been carried out and
    the last round was left, model and thinking level are the ones from before
    the first round; and at no time does a baseline hold anything else.
    */
  lemma {:induction false} RestoredAfterAllRounds(exec: Executor, es: seq<Event>, base: Base)
    requires Reliable(exec, base) && exec.model == base.model && exec.thinking == base.thinking
    requires ProperRun(Start(exec), es, base)
    requires FollowAll(Some(AtBase), Submissions(es)).Some?
    ensures
      var w := Run(Start(exec), es);
      && SlotsHoldBase(w.slots, base)
      && (FollowAll(Some(AtBase), Submissions(es)) == Some(AtBase) && Pending(w).tasks == []
          && Pending(w).inFlight.None?
          ==> w.exec.model == base.model && w.exec.thinking == base.thinking)
  {
    var stage := RoundsHold(exec, es, base);
  }

  // ----- it does drain -----

  /** How far the current queue is from being drained. */
  function Distance(w: World): nat {
    5 * |w.current.tasks|
    + if Waiting(w.current.phase) then (if Settled(Here(w, w.current)) then 1 else 2)
      else if w.current.phase == Exiting then 1 else 0
  }

  /** The queue's next own step, or the settling it waits for. */
  function NextEvent(w: World): Event {
    if Waiting(w.current.phase) then
      if Settled(Here(w, w.current)) || w.current.inFlight.None?
         || w.current.inFlight.value.write >= |w.writes| then Moved(Resume)
      else WriteSettles(w.current.inFlight.value.write, true, w.writes[w.current.inFlight.value.write].target)
    else if w.current.phase == Exiting then Moved(Finish)
    else Moved(Turn)
  }

  predicate Drained(w: World) {
    w.current.tasks == [] && w.current.inFlight.None?
  }

  lemma TurnComesCloser(w: World)
    requires Safe(w) && w.snapshot.None? && w.current.phase == Looping && w.current.tasks != []
    ensures Distance(MoveCurrent(w, Turn)) < Distance(w)
  {
    TaskStartsOneWrite(Here(w, w.current.(tasks := w.current.tasks[1..])), w.current.tasks[0]);
  }

  lemma NextComesCloser(w: World)
    requires Safe(w) && w.snapshot.None? && !Drained(w)
    ensures var v := Step(w, NextEvent(w)); v.snapshot.None? && Distance(v) < Distance(w)
  {
    var s := Here(w, w.current);
    if Waiting(w.current.phase) {
      if Settled(s) {
        ResumeClearsWrite(s);
      }
    } else if w.current.phase != Exiting {
      TurnComesCloser(w);
    }
  }

  lemma {:induction false} Drain(start: World, es: seq<Event>, base: Base) returns (fs: seq<Event>)
    requires Safe(Run(start, es)) && Run(start, es).snapshot.None? && ProperRun(start, es, base)
    ensures es <= fs && ProperRun(start, fs, base) && Submissions(fs) == Submissions(es)
    ensures Run(start, fs).snapshot.None? && Drained(Run(start, fs))
    decreases Distance(Run(start, es))
  {
    var w := Run(start, es);
    if Drained(w) {
      return es;
    }
    var e := NextEvent(w);
    NextComesCloser(w);
    StepKeepsSafe(w, e);
    assert (es + [e])[..|es|] == es;
    fs := Drain(start, es + [e], base);
  }

  /**
    After any proper run that ends outside a round the queue can drain by its own
    steps and the settling of its writes, and then everything is as before.
    */
  lemma {:induction false} RestoreIsReached(exec: Executor, es: seq<Event>, base: Base) returns (fs: seq<Event>)
    requires Reliable(exec, base) && exec.model == base.model && exec.thinking == base.thinking
    requires ProperRun(Start(exec), es, base) && Run(Start(exec), es).snapshot.None?
    requires FollowAll(Some(AtBase), Submissions(es)) == Some(AtBase)
    ensures es <= fs && Submissions(fs) == Submissions(es)
    ensures
      var w := Run(Start(exec), fs);
      Drained(w) && w.exec.model == base.model && w.exec.thinking == base.thinking
  {
    AlwaysSafe(exec, es);
    fs := Drain(Start(exec), es, base);
    RestoredAfterAllRounds(exec, fs, base);
  }
}
