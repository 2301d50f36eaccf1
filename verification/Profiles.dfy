/**
  Joining as a character puts its profile into effect: once the switch of the
  current round has been carried out, across any number of reloads, the model and
  the thinking level in effect are the ones its card names.
  */
module Profiles {
  import opened Common
  import opened ModelQueue
  import opened Handoff
  import Rounds

  /** The model and the level a switch asks for; None where it asks for nothing. */
  datatype Profile = Profile(model: Option<Identity>, level: Option<string>)

  ghost predicate InEffect(exec: Executor, p: Profile) {
    && (p.model.Some? ==> exec.model == p.model.value)
    && (p.level.Some? ==> exec.thinking == p.level.value)
  }

  /** The target names this profile, in the notation of a card. */
  predicate Names(target: Target, p: Profile) {
    && (target.model.Some? <==> p.model.Some?)
    && (target.model.Some? ==> SplitModelReference(target.model.value) == p.model)
    && target.thinking == p.level
  }

  /** Both getters work, the model resolves, and on it the level can be set. */
  ghost predicate Able(exec: Executor, p: Profile) {
    && exec.modelSeen && exec.thinkingSeen
    && (p.model.Some? ==> p.model.value in exec.catalog)
    && (p.level.Some? ==>
          forall m, t :: (p.model.Some? ==> m == p.model.value) ==> exec.think(m, t, p.level.value) == p.level.value)
  }

  /** A write for the profile that settles does so on its model; nobody submits or sets anything else. */
  predicate Undisturbed(w: World, e: Event, p: Profile) {
    match e
    case Submitted(_) => false
    case UserModel(_) => false
    case UserThinking(_) => false
    case WriteSettles(write, _, model) =>
      write < |w.writes| && Some(w.writes[write].target) == p.model ==> Some(model) == p.model
    case _ => true
  }

  predicate UndisturbedRun(w: World, es: seq<Event>, p: Profile)
    decreases |es|
  {
    es == [] || (UndisturbedRun(w, es[..|es| - 1], p) && Undisturbed(Run(w, es[..|es| - 1]), es[|es| - 1], p))
  }

  // ----- the invariant -----

  /** The switch waits for its write, which is on its way to the profile's model. */
  predicate Landing(s: Site, task: Task, p: Profile) {
    && s.q.inFlight.Some? && p.model.Some?
    && s.q.inFlight.value.task == task
    && s.q.inFlight.value.remaining == p.level
    && s.q.inFlight.value.write < |s.writes|
    && s.writes[s.q.inFlight.value.write].target == p.model.value
    && (s.writes[s.q.inFlight.value.write].accepted.Some? ==> s.exec.model == p.model.value)
  }

  /** The switch is the last task, or it is in flight, or the profile is in effect. */
  ghost predicate Coming(s: Site, task: Task, p: Profile) {
    && task.Switch? && Names(task.target, p)
    && Able(s.exec, p)
    && s.q.activeEpoch == Some(task.epoch)
    && (s.q.tasks != [] ==> s.q.tasks[|s.q.tasks| - 1] == task)
    && (s.q.tasks == [] ==> if s.q.inFlight.Some? then Landing(s, task, p) else InEffect(s.exec, p))
  }

  /** What the executor is, apart from its settings. */
  ghost predicate SameExecutor(a: Executor, b: Executor) {
    a.modelSeen == b.modelSeen && a.thinkingSeen == b.thinkingSeen && a.catalog == b.catalog && a.think == b.think
  }

  // ----- the switch itself -----

  lemma TailTakesEffect(s: Site, target: Target, p: Profile)
    requires Names(target, p) && Able(s.exec, p) && (p.model.Some? ==> s.exec.model == p.model.value)
    ensures InEffect(SwitchTail(s, target).exec, p)
    ensures Quiet(s, SwitchTail(s, target))
  {
    TailsAreQuiet(s, target, 0, Slot(Mask(false, false), None, None));
  }

  /**
    A switch of the active round: with its model in use already, or none named, the
    level is set at once; otherwise a write to the model starts and the level is left
    to its end.
    */
  lemma SwitchComes(s: Site, task: Task, p: Profile)
    requires task.Switch? && Names(task.target, p) && Able(s.exec, p)
    requires s.q.activeEpoch == Some(task.epoch) && s.q.inFlight.None? && s.q.tasks == []
    ensures Coming(RunSwitch(s, task), task, p)
    ensures RunSwitch(s, task).q.inFlight.None? <==> p.model.None? || s.exec.model == p.model.value
  {
    if p.model.None? {
      TailTakesEffect(s, task.target, p);
    } else if s.exec.model == p.model.value {
      TailTakesEffect(RefreshModel(s), task.target, p);
    }
  }

  /** After its write the queue that made it sets the level, and so does a successor at its barrier. */
  lemma LandedTakesEffect(s: Site, task: Task, p: Profile)
    requires Coming(s, task, p) && s.q.tasks == [] && Settled(s) && Waiting(s.q.phase) && !s.q.frozen
    ensures InEffect(Continue(s).exec, p) && SameExecutor(s.exec, Continue(s).exec)
  {
    var f := s.q.inFlight.value;
    if s.q.phase == Writing {
      TailTakesEffect(RefreshModel(Released(s)), task.target, p);
    }
  }

  /** A switch that is not of the active round, or whose model does not parse or resolve, changes nothing. */
  lemma SwitchRefused(s: Site, task: Task)
    requires task.Switch?
    requires
      || s.q.activeEpoch != Some(task.epoch)
      || (task.target.model.Some? && SplitModelReference(task.target.model.value).None?)
      || (task.target.model.Some? && s.exec.modelSeen
          && SplitModelReference(task.target.model.value).value !in s.exec.catalog + {s.exec.model})
    ensures var t := RunSwitch(s, task); t.exec == s.exec && t.writes == s.writes && t.q.inFlight == s.q.inFlight
  {
  }

  /** When the write did not lead to the model, the level is left alone. */
  lemma FailedWriteKeepsLevel(s: Site)
    requires Settled(s) && Waiting(s.q.phase) && !s.q.frozen && s.exec.modelSeen && s.q.inFlight.value.task.Switch?
    requires
      var target := s.q.inFlight.value.task.target;
      && s.exec.model != s.writes[s.q.inFlight.value.write].target
      && target.model.Some?
      && SplitModelReference(target.model.value) == Some(s.writes[s.q.inFlight.value.write].target)
    ensures Continue(s).exec == s.exec
  {
  }

  // ----- steps -----

  lemma OthersComeFirst(s: Site, task: Task, p: Profile, first: Task)
    requires Coming(s, task, p) && s.q.tasks != []
    ensures Coming(RunTask(s, first), task, p)
  {
    TaskStartsOneWrite(s, first);
  }

  lemma TurnComes(w: World, task: Task, p: Profile)
    requires Safe(w) && w.snapshot.None? && Coming(Here(w, w.current), task, p)
    ensures Coming(Here(MoveCurrent(w, Turn), MoveCurrent(w, Turn).current), task, p)
  {
    if w.current.phase == Looping && w.current.tasks != [] {
      var rest := w.current.tasks[1..];
      var s := Here(w, w.current.(tasks := rest));
      if rest == [] {
        SwitchComes(s, task, p);
      } else {
        OthersComeFirst(s, task, p, w.current.tasks[0]);
      }
    }
  }

  lemma ResumeComes(w: World, task: Task, p: Profile)
    requires Safe(w) && w.snapshot.None? && Coming(Here(w, w.current), task, p)
    ensures Coming(Here(MoveCurrent(w, Resume), MoveCurrent(w, Resume).current), task, p)
  {
    var s := Here(w, w.current);
    if Settled(s) && Waiting(s.q.phase) {
      ResumeClearsWrite(s);
      ContinueKeepsExecutor(s);
      if s.q.tasks == [] {
        LandedTakesEffect(s, task, p);
      }
    }
  }

  lemma ContinueKeepsExecutor(s: Site)
    requires !s.q.frozen && Settled(s) && Waiting(s.q.phase)
    ensures SameExecutor(s.exec, Continue(s).exec)
  {
    var f := s.q.inFlight.value;
    AfterWriteIsQuiet(Released(s), f.task, s.writes[f.write]);
    InheritedIsQuiet(s, f);
  }

  lemma SettleComes(w: World, e: Event, task: Task, p: Profile)
    requires Safe(w) && e.WriteSettles? && Undisturbed(w, e, p) && Coming(Here(w, Pending(w)), task, p)
    ensures Coming(Here(Step(w, e), Pending(Step(w, e))), task, p)
  {
  }

  lemma StepComes(w: World, e: Event, task: Task, p: Profile)
    requires Safe(w) && Undisturbed(w, e, p) && Coming(Here(w, Pending(w)), task, p)
    ensures Coming(Here(Step(w, e), Pending(Step(w, e))), task, p)
  {
    match e
    case Moved(move) =>
      if w.snapshot.Some? {
        FrozenIsInert(Here(w, w.current), move);
      } else {
        match move
        case Turn => TurnComes(w, task, p);
        case Resume => ResumeComes(w, task, p);
        case Finish =>
      }
    case OldMoved(i, move) =>
      if i < |w.earlier| {
        FrozenIsInert(Here(w, w.earlier[i]), move);
      }
    case WriteSettles(_, _, _) => SettleComes(w, e, task, p);
    case _ =>
  }

  lemma {:induction false} AlwaysComing(w: World, es: seq<Event>, task: Task, p: Profile)
    requires Safe(w) && Coming(Here(w, Pending(w)), task, p) && UndisturbedRun(w, es, p)
    ensures Safe(Run(w, es)) && Coming(Here(Run(w, es), Pending(Run(w, es))), task, p)
    decreases |es|
  {
    if es != [] {
      AlwaysComing(w, es[..|es| - 1], task, p);
      StepKeepsSafe(Run(w, es[..|es| - 1]), es[|es| - 1]);
      StepComes(Run(w, es[..|es| - 1]), es[|es| - 1], task, p);
    }
  }

  // ----- the executor stays what it is -----

  lemma TaskKeepsExecutor(s: Site, task: Task)
    ensures SameExecutor(s.exec, RunTask(s, task).exec)
  {
    TaskStartsOneWrite(s, task);
  }

  lemma MoveKeepsExecutor(s: Site, move: Move)
    ensures SameExecutor(s.exec, Advance(s, move).exec)
  {
    if s.q.frozen {
      FrozenIsInert(s, move);
    } else {
      match move
      case Turn =>
        if s.q.phase == Looping && s.q.tasks != [] {
          TaskKeepsExecutor(s.(q := s.q.(tasks := s.q.tasks[1..])), s.q.tasks[0]);
        }
      case Resume =>
        if Settled(s) && Waiting(s.q.phase) {
          ContinueKeepsExecutor(s);
        }
      case Finish =>
    }
  }

  lemma StepKeepsExecutor(w: World, e: Event)
    ensures SameExecutor(w.exec, Step(w, e).exec)
  {
    match e
    case Moved(move) => MoveKeepsExecutor(Here(w, w.current), move);
    case OldMoved(i, move) =>
      if i < |w.earlier| {
        MoveKeepsExecutor(Here(w, w.earlier[i]), move);
      }
    case _ =>
  }

  lemma {:induction false} ExecutorStays(exec: Executor, es: seq<Event>)
    ensures SameExecutor(exec, Run(Start(exec), es).exec)
    decreases |es|
  {
    if es != [] {
      ExecutorStays(exec, es[..|es| - 1]);
      StepKeepsExecutor(Run(Start(exec), es[..|es| - 1]), es[|es| - 1]);
    }
  }

  // ----- main results -----

  /** The world in which a round has just been submitted, after any run at all. */
  function Joined(exec: Executor, es: seq<Event>, epoch: int, mask: Mask, target: Target): World {
    Step(Step(Run(Start(exec), es), Submitted(Capture(epoch, mask))), Submitted(Switch(epoch, target)))
  }

  lemma JoinedComes(exec: Executor, es: seq<Event>, epoch: int, mask: Mask, target: Target, p: Profile)
    requires Run(Start(exec), es).snapshot.None? && Names(target, p) && Able(exec, p)
    ensures
      var w := Joined(exec, es, epoch, mask, target);
      Safe(w) && w.snapshot.None? && Coming(Here(w, Pending(w)), Switch(epoch, target), p)
  {
    var w := Run(Start(exec), es);
    AlwaysSafe(exec, es);
    ExecutorStays(exec, es);
    StepKeepsSafe(w, Submitted(Capture(epoch, mask)));
    StepKeepsSafe(Step(w, Submitted(Capture(epoch, mask))), Submitted(Switch(epoch, target)));
  }

  /**
    The profile takes effect.  After any run, with work and writes of earlier rounds
    still under way, and through any reloads since, once everything submitted up to
    and including this round's switch has been carried out, the model and the level
    in effect are those the target names: with a model only, a level only or both,
    and whether or not the model was in use already.
    */
  lemma {:induction false} ProfileTakesEffect(exec: Executor, es: seq<Event>, epoch: int, mask: Mask, target: Target,
                                              p: Profile, fs: seq<Event>)
    requires Run(Start(exec), es).snapshot.None? && Names(target, p) && Able(exec, p)
    requires UndisturbedRun(Joined(exec, es, epoch, mask, target), fs, p)
    ensures
      var w := Run(Joined(exec, es, epoch, mask, target), fs);
      Pending(w).tasks == [] && Pending(w).inFlight.None? ==> InEffect(w.exec, p)
  {
    JoinedComes(exec, es, epoch, mask, target, p);
    AlwaysComing(Joined(exec, es, epoch, mask, target), fs, Switch(epoch, target), p);
  }

  lemma {:induction false} Drain(w: World, es: seq<Event>, p: Profile) returns (fs: seq<Event>)
    requires Safe(Run(w, es)) && Run(w, es).snapshot.None? && UndisturbedRun(w, es, p)
    ensures UndisturbedRun(w, fs, p) && Rounds.Drained(Run(w, fs)) && Run(w, fs).snapshot.None?
    decreases Rounds.Distance(Run(w, es))
  {
    var v := Run(w, es);
    if Rounds.Drained(v) {
      return es;
    }
    var e := Rounds.NextEvent(v);
    Rounds.NextComesCloser(v);
    StepKeepsSafe(v, e);
    assert (es + [e])[..|es|] == es;
    fs := Drain(w, es + [e], p);
  }

  /** And it is carried out: by its own steps and the settling of its writes the queue comes to that state. */
  lemma {:induction false} ProfileIsReached(exec: Executor, es: seq<Event>, epoch: int, mask: Mask, target: Target,
                                            p: Profile) returns (fs: seq<Event>)
    requires Run(Start(exec), es).snapshot.None? && Names(target, p) && Able(exec, p)
    ensures UndisturbedRun(Joined(exec, es, epoch, mask, target), fs, p)
    ensures
      var w := Run(Joined(exec, es, epoch, mask, target), fs);
      Rounds.Drained(w) && InEffect(w.exec, p)
  {
    JoinedComes(exec, es, epoch, mask, target, p);
    fs := Drain(Joined(exec, es, epoch, mask, target), [], p);
    ProfileTakesEffect(exec, es, epoch, mask, target, p, fs);
  }
}
