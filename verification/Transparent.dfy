/**
  A reload is transparent: every run with handoffs looks, from outside, like a
  run of one queue that was never interrupted and received the same submissions,
  settlements and manual changes in the same order.
  */
module Transparent {
  import opened Common
  import opened ModelQueue
  import opened Handoff

  /** Both getters work, and setting the level already in effect changes nothing. */
  ghost predicate Observable(exec: Executor) {
    && exec.modelSeen
    && exec.thinkingSeen
    && forall m, t :: exec.think(m, t, t) == t
  }

  predicate External(e: Event) {
    e.Submitted? || e.WriteSettles? || e.UserModel? || e.UserThinking?
  }

  function Externals(es: seq<Event>): seq<Event>
    decreases |es|
  {
    if es == [] then []
    else Externals(es[..|es| - 1]) + (if External(es[|es| - 1]) then [es[|es| - 1]] else [])
  }

  /** No reload: every step is the one queue's own or comes from outside. */
  predicate Uninterrupted(es: seq<Event>) {
    forall i :: 0 <= i < |es| ==> es[i].Moved? || External(es[i])
  }

  /** Tasks are only submitted while a controller is attached. */
  predicate SubmitsAttached(w: World, es: seq<Event>)
    decreases |es|
  {
    es == [] || (SubmitsAttached(w, es[..|es| - 1])
                 && (es[|es| - 1].Submitted? ==> Run(w, es[..|es| - 1]).snapshot.None?))
  }

  // ----- what the two runs share -----

  /** The write in flight is the one its task asks for. */
  predicate InFlightFits(s: Site) {
    s.q.inFlight.Some? ==>
      var f := s.q.inFlight.value;
      && f.write < |s.writes|
      && (match f.task
          case Capture(_, _) => false
          case Switch(_, target) =>
            && target.model.Some?
            && SplitModelReference(target.model.value) == Some(s.writes[f.write].target)
            && f.remaining == target.thinking
          case Restore(epoch) =>
            && epoch in s.slots
            && s.slots[epoch].mask.model
            && s.slots[epoch].model == Some(s.writes[f.write].target)
            && f.remaining == RestoreRemainder(s.slots[epoch]))
  }

  /** A restore in flight knows the level in effect. */
  predicate KnowsThinking(q: Queue, exec: Executor) {
    q.inFlight.Some? && q.inFlight.value.task.Restore? ==> q.lastThinking == Some(exec.thinking)
  }

  /** Two sites agree on everything but the records and the phase. */
  ghost predicate Agree(a: Site, b: Site) {
    && a.q.tasks == b.q.tasks
    && a.q.activeEpoch == b.q.activeEpoch
    && a.q.inFlight == b.q.inFlight
    && a.slots == b.slots
    && a.exec == b.exec
    && a.writes == b.writes
  }

  ghost predicate Similar(w: World, u: World) {
    && Safe(w) && Safe(u)
    && u.snapshot.None?
    && Observable(w.exec)
    && Agree(Here(w, Pending(w)), Here(u, u.current))
    && InFlightFits(Here(u, u.current))
    && u.current.phase != AtBarrier
    && KnowsThinking(u.current, u.exec)
    && (w.snapshot.None? && w.current.phase == Writing ==> KnowsThinking(w.current, w.exec))
  }

  // ----- one task -----

  lemma SwitchesAgree(a: Site, b: Site, task: Task)
    requires task.Switch? && Agree(a, b) && Observable(a.exec)
    ensures Agree(RunSwitch(a, task), RunSwitch(b, task))
  {
  }

  lemma TailsAgree(a: Site, b: Site, epoch: int, slot: Slot)
    requires Agree(a, b) && Observable(a.exec)
    requires a.q.lastModel == b.q.lastModel == Some(a.exec.model)
    requires a.q.lastThinking == b.q.lastThinking == Some(a.exec.thinking)
    ensures Agree(RestoreTail(a, epoch, slot), RestoreTail(b, epoch, slot))
  {
  }

  lemma RefreshedAgree(a: Site, b: Site)
    requires Agree(a, b) && Observable(a.exec)
    ensures
      var a1, b1 := RefreshThinking(RefreshModel(a)), RefreshThinking(RefreshModel(b));
      && Agree(a1, b1) && a1.exec == a.exec && a1.slots == a.slots
      && a1.q.lastModel == b1.q.lastModel == Some(a.exec.model)
      && a1.q.lastThinking == b1.q.lastThinking == Some(a.exec.thinking)
  {
  }

  lemma RestoresAgree(a: Site, b: Site, task: Task)
    requires task.Restore? && Agree(a, b) && Observable(a.exec)
    ensures Agree(RunRestore(a, task), RunRestore(b, task))
  {
    if task.epoch in a.slots {
      RefreshedAgree(a, b);
      TailsAgree(RefreshThinking(RefreshModel(a)), RefreshThinking(RefreshModel(b)), task.epoch, a.slots[task.epoch]);
    }
  }

  lemma TasksAgree(a: Site, b: Site, task: Task)
    requires Agree(a, b) && Observable(a.exec)
    ensures Agree(RunTask(a, task), RunTask(b, task))
  {
    match task
    case Capture(_, _) =>
    case Switch(_, _) => SwitchesAgree(a, b, task);
    case Restore(_) => RestoresAgree(a, b, task);
  }

  lemma StartedWriteFits(s: Site, task: Task)
    requires s.q.inFlight.None? && Observable(s.exec)
    ensures InFlightFits(RunTask(s, task)) && KnowsThinking(RunTask(s, task).q, RunTask(s, task).exec)
  {
    TaskStartsOneWrite(s, task);
  }

  // ----- after the write -----

  /** What a queue does after its own write, its successor does after the barrier: a switch. */
  lemma BarrierMatchesSwitch(a: Site, b: Site)
    requires Agree(a, b) && Observable(a.exec) && InFlightFits(b)
    requires a.q.inFlight.Some? && a.q.inFlight.value.task.Switch?
    ensures
      var f := b.q.inFlight.value;
      Agree(FinishInherited(a, f), AfterWrite(b, f.task, b.writes[f.write]))
  {
  }

  lemma BarrierMatchesRestore(a: Site, b: Site)
    requires Agree(a, b) && Observable(a.exec) && InFlightFits(b) && KnowsThinking(b.q, b.exec)
    requires a.q.inFlight.Some? && a.q.inFlight.value.task.Restore?
    ensures
      var f := b.q.inFlight.value;
      Agree(FinishInherited(a, f), AfterWrite(b, f.task, b.writes[f.write]))
  {
    var f := b.q.inFlight.value;
    assert f.task.epoch in b.slots;
  }

  /**
    The one place where the two paths differ: the barrier applies the level even
    when it is in effect already.  They agree exactly when that is a no-op.
    */
  lemma BarrierMatchesIffSteady(a: Site, b: Site)
    requires Agree(a, b) && a.exec.modelSeen && a.exec.thinkingSeen
    requires InFlightFits(b) && KnowsThinking(b.q, b.exec)
    requires a.q.inFlight.Some? && a.q.inFlight.value.task.Restore?
    ensures
      var f := b.q.inFlight.value;
      var m, t := a.exec.model, a.exec.thinking;
      FinishInherited(a, f).exec == AfterWrite(b, f.task, b.writes[f.write]).exec
      <==> (m == b.writes[f.write].target && f.remaining == Some(t) ==> a.exec.think(m, t, t) == t)
  {
    var f := b.q.inFlight.value;
    assert f.task.epoch in b.slots;
  }

  // ----- when the model cannot be observed -----

  /** Setting `level`, if there is one, would change nothing. */
  ghost predicate NoOp(exec: Executor, level: Option<string>) {
    level.Some? ==> exec.think(exec.model, exec.thinking, level.value) == exec.thinking
  }

  /**
    A switch in flight: the barrier goes by the record, which the write has not
    corrected, the uninterrupted queue by the receipt.  They leave the same
    settings exactly when the two agree, or there is nothing to set.
    */
  lemma UnobservedSwitchIff(a: Site, b: Site)
    requires Agree(a, b) && !a.exec.modelSeen && InFlightFits(b)
    requires a.q.inFlight.Some? && a.q.inFlight.value.task.Switch?
    ensures
      var f := b.q.inFlight.value;
      var w := b.writes[f.write];
      FinishInherited(a, f).exec == AfterWrite(b, f.task, w).exec
      <==> (a.q.lastModel == Some(w.target) <==> w.accepted == Some(true)) || NoOp(a.exec, f.remaining)
  {
  }

  /** The uninterrupted queue sets a restored level only if receipt, model record and level record all say so. */
  predicate SetsRestored(b: Site, f: InFlight, w: Write) {
    w.accepted == Some(true) && b.q.lastModel == Some(w.target) && b.q.lastThinking != f.remaining
  }

  /** A restore in flight: the same question for the barrier's record and everything the uninterrupted queue asks. */
  lemma UnobservedRestoreIff(a: Site, b: Site)
    requires Agree(a, b) && !a.exec.modelSeen && InFlightFits(b)
    requires a.q.inFlight.Some? && a.q.inFlight.value.task.Restore?
    ensures
      var f := b.q.inFlight.value;
      var w := b.writes[f.write];
      FinishInherited(a, f).exec == AfterWrite(b, f.task, w).exec
      <==> (a.q.lastModel == Some(w.target) <==> SetsRestored(b, f, w)) || NoOp(a.exec, f.remaining)
  {
    var f := b.q.inFlight.value;
    assert f.task.epoch in b.slots;
  }

  lemma OwnWritesAgree(a: Site, b: Site)
    requires Agree(a, b) && Observable(a.exec) && InFlightFits(b)
    requires a.q.inFlight.Some? && KnowsThinking(a.q, a.exec) && KnowsThinking(b.q, b.exec)
    ensures
      var f := b.q.inFlight.value;
      Agree(AfterWrite(a, f.task, b.writes[f.write]), AfterWrite(b, f.task, b.writes[f.write]))
  {
  }

  // ----- one step -----

  lemma RunOne(u: World, e: Event)
    ensures Run(u, [e]) == Step(u, e)
  {
    assert [e][..0] == [];
    assert Run(u, []) == u;
  }

  /** The uninterrupted queue notices that its loop has ended before tasks came. */
  lemma SimilarFinish(w: World, u: World)
    requires Similar(w, u) && u.current.phase == Exiting && u.current.tasks != []
    ensures Similar(w, MoveCurrent(u, Finish)) && MoveCurrent(u, Finish).current.phase == Looping
    ensures MoveCurrent(u, Finish).current.tasks == u.current.tasks
  {
    StepKeepsSafe(u, Moved(Finish));
  }

  lemma SimilarTurn(w: World, u: World) returns (fs: seq<Event>)
    requires Similar(w, u) && w.snapshot.None?
    ensures Uninterrupted(fs) && Externals(fs) == []
    ensures Similar(MoveCurrent(w, Turn), Run(u, fs))
  {
    fs := [];
    if w.current.phase == Looping && w.current.tasks != [] {
      var v := u;
      if u.current.phase == Exiting {
        fs := [Moved(Finish)];
        SimilarFinish(w, u);
        v := MoveCurrent(u, Finish);
        RunOne(u, Moved(Finish));
      }
      SimilarTask(w, v);
      assert Run(u, fs + [Moved(Turn)]) == MoveCurrent(v, Turn) by {
        assert (fs + [Moved(Turn)])[..|fs|] == fs;
      }
      fs := fs + [Moved(Turn)];
    } else {
      IdleTurn(w, u);
    }
  }

  lemma IdleTurn(w: World, u: World)
    requires Similar(w, u) && w.snapshot.None? && !(w.current.phase == Looping && w.current.tasks != [])
    ensures Similar(MoveCurrent(w, Turn), u)
  {
    TurnKeepsSafe(w);
  }

  lemma SimilarTask(w: World, u: World)
    requires Similar(w, u) && w.snapshot.None?
    requires w.current.phase == u.current.phase == Looping && w.current.tasks != []
    ensures Similar(MoveCurrent(w, Turn), MoveCurrent(u, Turn))
  {
    TurnKeepsSafe(w);
    TurnKeepsSafe(u);
    var task := w.current.tasks[0];
    var a := Here(w, w.current.(tasks := w.current.tasks[1..]));
    var b := Here(u, u.current.(tasks := u.current.tasks[1..]));
    TasksAgree(a, b, task);
    StartedWriteFits(a, task);
    StartedWriteFits(b, task);
    TaskStartsOneWrite(a, task);
    TaskStartsOneWrite(b, task);
  }

  lemma OwnStep(move: Move)
    ensures Uninterrupted([Moved(move)]) && Externals([Moved(move)]) == []
  {
    assert [Moved(move)][..0] == [];
    assert Externals([]) == [];
  }

  lemma IdleResume(w: World, u: World)
    requires Similar(w, u) && w.snapshot.None? && !(Waiting(w.current.phase) && Settled(Here(w, w.current)))
    ensures Similar(MoveCurrent(w, Resume), u)
  {
    ResumeKeepsSafe(w);
  }

  lemma SimilarResume(w: World, u: World) returns (fs: seq<Event>)
    requires Similar(w, u) && w.snapshot.None?
    ensures Uninterrupted(fs) && Externals(fs) == []
    ensures Similar(MoveCurrent(w, Resume), Run(u, fs))
  {
    if Waiting(w.current.phase) && Settled(Here(w, w.current)) {
      BothResume(w, u);
      fs := [Moved(Resume)];
      OwnStep(Resume);
      assert Run(u, fs) == MoveCurrent(u, Resume) by {
        RunOne(u, Moved(Resume));
      }
    } else {
      IdleResume(w, u);
      fs := [];
    }
  }

  lemma BothResume(w: World, u: World)
    requires Similar(w, u) && w.snapshot.None? && Waiting(w.current.phase) && Settled(Here(w, w.current))
    ensures Similar(MoveCurrent(w, Resume), MoveCurrent(u, Resume))
  {
    var a, b := Here(w, w.current), Here(u, u.current);
    ResumeKeepsSafe(w);
    ResumeKeepsSafe(u);
    ResumeClearsWrite(a);
    ResumeClearsWrite(b);
    SettledWritesAgree(a, b);
  }

  lemma SettledWritesAgree(a: Site, b: Site)
    requires Agree(a, b) && Observable(a.exec) && InFlightFits(b) && KnowsThinking(b.q, b.exec)
    requires Settled(a) && Live(a.q) && Live(b.q) && b.q.phase == Writing
    requires a.q.phase == Writing ==> KnowsThinking(a.q, a.exec)
    ensures Agree(Continue(a), Continue(b)) && Continue(a).exec.think == a.exec.think
    ensures Observable(Continue(a).exec)
  {
    var f := b.q.inFlight.value;
    if a.q.phase == Writing {
      OwnWritesAgree(a, b);
      AfterWriteReleased(a, f.task, b.writes[f.write]);
    } else if f.task.Switch? {
      BarrierMatchesSwitch(a, b);
    } else {
      BarrierMatchesRestore(a, b);
    }
    AfterWriteReleased(b, f.task, b.writes[f.write]);
  }

  lemma SimilarStep(w: World, u: World, e: Event) returns (fs: seq<Event>)
    requires Similar(w, u)
    requires e.Submitted? ==> w.snapshot.None?
    ensures Uninterrupted(fs) && Externals(fs) == if External(e) then [e] else []
    ensures Similar(Step(w, e), Run(u, fs))
  {
    StepKeepsSafe(w, e);
    fs := [];
    match e
    case Moved(move) =>
      if w.snapshot.Some? {
        FrozenIsInert(Here(w, w.current), move);
      } else {
        match move
        case Turn => fs := SimilarTurn(w, u);
        case Resume => fs := SimilarResume(w, u);
        case Finish =>
      }
    case OldMoved(i, move) =>
      if i < |w.earlier| {
        FrozenIsInert(Here(w, w.earlier[i]), move);
      }
    case Detach =>
    case Attach =>
    case _ =>
      fs := [e];
      StepKeepsSafe(u, e);
      assert Run(u, fs) == Step(u, e);
      SimilarExternal(w, u, e);
  }

  lemma SimilarSubmit(w: World, u: World, task: Task)
    requires Similar(w, u) && w.snapshot.None?
    ensures Similar(Step(w, Submitted(task)), Step(u, Submitted(task)))
  {
    StepKeepsSafe(w, Submitted(task));
    StepKeepsSafe(u, Submitted(task));
  }

  lemma SimilarSettle(w: World, u: World, e: Event)
    requires Similar(w, u) && e.WriteSettles?
    ensures Similar(Step(w, e), Step(u, e))
  {
    StepKeepsSafe(w, e);
    StepKeepsSafe(u, e);
  }

  lemma SimilarUser(w: World, u: World, e: Event)
    requires Similar(w, u) && (e.UserModel? || e.UserThinking?)
    ensures Similar(Step(w, e), Step(u, e))
  {
    StepKeepsSafe(w, e);
    StepKeepsSafe(u, e);
  }

  lemma SimilarExternal(w: World, u: World, e: Event)
    requires Similar(w, u) && External(e)
    requires e.Submitted? ==> w.snapshot.None?
    ensures Similar(Step(w, e), Step(u, e))
  {
    match e
    case Submitted(task) => SimilarSubmit(w, u, task);
    case WriteSettles(_, _, _) => SimilarSettle(w, u, e);
    case _ => SimilarUser(w, u, e);
  }

  lemma {:induction false} RunAppend(w: World, es: seq<Event>, fs: seq<Event>)
    ensures Run(w, es + fs) == Run(Run(w, es), fs)
    decreases |fs|
  {
    if fs == [] {
      assert es + fs == es;
    } else {
      var n := |fs| - 1;
      assert (es + fs)[..|es + fs| - 1] == es + fs[..n];
      RunAppend(w, es, fs[..n]);
    }
  }

  lemma {:induction false} ExternalsAppend(es: seq<Event>, fs: seq<Event>)
    ensures Externals(es + fs) == Externals(es) + Externals(fs)
    decreases |fs|
  {
    if fs == [] {
      assert es + fs == es;
    } else {
      var n := |fs| - 1;
      assert (es + fs)[..|es + fs| - 1] == es + fs[..n];
      ExternalsAppend(es, fs[..n]);
    }
  }

  lemma SubmitsLast(w: World, es: seq<Event>)
    requires es != [] && SubmitsAttached(w, es)
    ensures
      var front, e := es[..|es| - 1], es[|es| - 1];
      SubmitsAttached(w, front) && (e.Submitted? ==> Run(w, front).snapshot.None?) && es == front + [e]
  {
  }

  lemma SimilarAtStart(exec: Executor)
    requires Observable(exec)
    ensures Similar(Start(exec), Start(exec)) && Run(Start(exec), []) == Start(exec)
  {
  }

  lemma {:induction false} Simulate(exec: Executor, es: seq<Event>) returns (fs: seq<Event>)
    requires Observable(exec) && SubmitsAttached(Start(exec), es)
    ensures Uninterrupted(fs) && Externals(fs) == Externals(es)
    ensures Similar(Run(Start(exec), es), Run(Start(exec), fs))
    decreases |es|
  {
    if es == [] {
      SimilarAtStart(exec);
      return [];
    }
    var front, e := es[..|es| - 1], es[|es| - 1];
    SubmitsLast(Start(exec), es);
    var gs := Simulate(exec, front);
    fs := Extend(Start(exec), front, e, gs);
  }

  lemma Extend(start: World, es: seq<Event>, e: Event, gs: seq<Event>) returns (fs: seq<Event>)
    requires Similar(Run(start, es), Run(start, gs)) && Uninterrupted(gs) && Externals(gs) == Externals(es)
    requires e.Submitted? ==> Run(start, es).snapshot.None?
    ensures Uninterrupted(fs) && Externals(fs) == Externals(es + [e])
    ensures Similar(Run(start, es + [e]), Run(start, fs))
  {
    var hs := SimilarStep(Run(start, es), Run(start, gs), e);
    fs := gs + hs;
    assert Run(start, fs) == Run(Run(start, gs), hs) by { RunAppend(start, gs, hs); }
    assert Externals(fs) == Externals(gs) + Externals(hs) by { ExternalsAppend(gs, hs); }
    assert (es + [e])[..|es|] == es;
    assert Run(start, es + [e]) == Step(Run(start, es), e);
  }

  /**
    Handoff transparency.  Whatever reloads happen, at any await and even before
    the previous barrier is over, some uninterrupted run of one queue with the
    same external events makes the same model writes in the same order, and has
    the same model, thinking level, baselines and remaining tasks.
    */
  lemma {:induction false} HandoffIsTransparent(exec: Executor, es: seq<Event>)
    requires Observable(exec) && SubmitsAttached(Start(exec), es)
    ensures exists fs ::
              && Uninterrupted(fs)
              && Externals(fs) == Externals(es)
              && var w, u := Run(Start(exec), es), Run(Start(exec), fs);
                 && u.writes == w.writes
                 && u.exec == w.exec
                 && u.slots == w.slots
                 && u.current.tasks == Pending(w).tasks
                 && u.current.inFlight == Pending(w).inFlight
  {
    var fs := Simulate(exec, es);
    var w, u := Run(Start(exec), es), Run(Start(exec), fs);
    assert Agree(Here(w, Pending(w)), Here(u, u.current));
  }
}
