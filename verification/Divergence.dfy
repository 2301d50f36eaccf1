/**
  Where a reload does show: two runs up to a settled write, each going on in two
  ways, with and without a reload before the queue resumes.
  */
module Divergence {
  import opened Common
  import opened Text
  import opened ModelQueue
  import opened Handoff
  import opened Transparent

  const OLD_MODEL := Identity("p", "old")

  const NEW_MODEL := Identity("p", "new")

  const BASELINE := Mask(true, true)

  lemma ReferenceOfNewModel()
    ensures SplitModelReference("p/new") == Some(NEW_MODEL)
  {
    assert "p/new"[0] != '/' && "p/new"[1] == '/';
    assert "p/new"[1..][0] == '/';
    assert IndexOfSlash("p/new") == 1;
    assert "p/new"[..1] == "p" && "p/new"[2..] == "new";
    assert "p"[1..] == "" && "p"[..0] == "";
    assert Trim("p") == "p";
    assert TrimStart("new") == "new" && TrimEnd("new") == "new";
  }

  lemma Then(w: World, es: seq<Event>, e: Event)
    ensures Run(w, es + [e]) == Step(Run(w, es), e)
    ensures SubmitsAttached(w, es + [e])
            <==> SubmitsAttached(w, es) && (e.Submitted? ==> Run(w, es).snapshot.None?)
  {
    assert (es + [e])[..|es|] == es;
  }

  /** The run has come to this world, and every task was submitted to an attached queue. */
  ghost predicate Comes(start: World, es: seq<Event>, w: World) {
    Run(start, es) == w && SubmitsAttached(start, es)
  }

  lemma Next(start: World, es: seq<Event>, w: World, e: Event) returns (fs: seq<Event>)
    requires Comes(start, es, w) && (e.Submitted? ==> w.snapshot.None?)
    ensures fs == es + [e] && Comes(start, fs, Step(w, e))
  {
    Then(start, es, e);
    fs := es + [e];
  }

  // ----- the opening of both runs -----

  function BaselineOf(exec: Executor): Slot {
    Slot(BASELINE, Some(exec.model), Some(exec.thinking))
  }

  /** A round has begun and its baseline is taken. */
  function Opened(exec: Executor): World {
    World(Queue([], Looping, false, None, Some(exec.model), Some(exec.thinking), Some(1)),
          [], None, map[1 := BaselineOf(exec)], exec, [], [])
  }

  /** Model and level are chosen by hand, then a round begins. */
  lemma Opening(exec: Executor) returns (es: seq<Event>)
    ensures Comes(Start(exec), es, Opened(exec))
  {
    var w := Start(exec);
    es := [];
    es := Next(w, es, w, UserModel(exec.model));
    var w1 := w.(current := NEW_QUEUE.(lastModel := Some(exec.model)));
    assert Step(w, UserModel(exec.model)) == w1;
    es := Next(w, es, w1, UserThinking(exec.thinking));
    var w2 := w.(current := w1.current.(lastThinking := Some(exec.thinking)));
    assert Step(w1, UserThinking(exec.thinking)) == w2;
    es := Next(w, es, w2, Submitted(Capture(1, BASELINE)));
    var w3 := w2.(current := Submit(w2.current, Capture(1, BASELINE)));
    es := Next(w, es, w3, Moved(Turn));
    CaptureTurn(exec, w3);
  }

  lemma CaptureTurn(exec: Executor, w: World)
    requires w.current
             == Queue([Capture(1, BASELINE)], Looping, false, None, Some(exec.model), Some(exec.thinking), Some(1))
    requires w == Start(exec).(current := w.current)
    ensures MoveCurrent(w, Turn) == Opened(exec)
  {
  }

  // ----- the switch of both runs -----

  /** To the new model, and to a level if one is given. */
  function ToNew(level: Option<string>): Task {
    Switch(1, Target(Some("p/new"), level))
  }

  /** The write of the switch has begun. */
  function Switching(exec: Executor, level: Option<string>): World {
    var w := Opened(exec);
    w.(current := w.current.(inFlight := Some(InFlight(ToNew(level), 0, level)), phase := Writing),
       writes := [Write(NEW_MODEL, None)])
  }

  /** It is accepted and the model has changed. */
  function Switched(exec: Executor, level: Option<string>): World {
    var w := Switching(exec, level);
    w.(exec := w.exec.(model := NEW_MODEL), writes := [Write(NEW_MODEL, Some(true))])
  }

  lemma SwitchStarts(s: Site, level: Option<string>)
    requires s.exec.model == OLD_MODEL && NEW_MODEL in s.exec.catalog
    requires s.q.lastModel == Some(OLD_MODEL) && s.q.activeEpoch == Some(1)
    ensures RunTask(s, ToNew(level)) == StartWrite(s, NEW_MODEL, ToNew(level), level)
  {
    ReferenceOfNewModel();
  }

  lemma SwitchTurn(exec: Executor, level: Option<string>, w: World)
    requires exec.model == OLD_MODEL && NEW_MODEL in exec.catalog
    requires w == Opened(exec).(current := Submit(Opened(exec).current, ToNew(level)))
    ensures MoveCurrent(w, Turn) == Switching(exec, level)
  {
    SwitchStarts(Here(w, w.current.(tasks := [])), level);
    assert [] + [Write(NEW_MODEL, None)] == [Write(NEW_MODEL, None)];
  }

  lemma SwitchSettles(exec: Executor, level: Option<string>)
    ensures Step(Switching(exec, level), WriteSettles(0, true, NEW_MODEL)) == Switched(exec, level)
  {
    assert [Write(NEW_MODEL, None)][0 := Write(NEW_MODEL, Some(true))] == [Write(NEW_MODEL, Some(true))];
  }

  lemma SwitchRun(exec: Executor, level: Option<string>) returns (es: seq<Event>)
    requires exec.model == OLD_MODEL && NEW_MODEL in exec.catalog
    ensures Comes(Start(exec), es, Switched(exec, level))
  {
    var start, w := Start(exec), Opened(exec);
    es := Opening(exec);
    es := Next(start, es, w, Submitted(ToNew(level)));
    var submitted := w.(current := Submit(w.current, ToNew(level)));
    es := Next(start, es, submitted, Moved(Turn));
    SwitchTurn(exec, level, submitted);
    es := Next(start, es, Switching(exec, level), WriteSettles(0, true, NEW_MODEL));
    SwitchSettles(exec, level);
  }

  // ----- with and without a reload -----

  /** The queue is replaced while it waits, and then its successor resumes. */
  function Replaced(w: World): World {
    MoveCurrent(Step(Step(w, Detach), Attach), Resume)
  }

  lemma BothPaths(start: World, es: seq<Event>, w: World) returns (direct: seq<Event>, reloaded: seq<Event>)
    requires Comes(start, es, w)
    ensures direct == es + [Moved(Resume)] && reloaded == es + [Detach, Attach, Moved(Resume)]
    ensures Run(start, direct) == MoveCurrent(w, Resume) && Run(start, reloaded) == Replaced(w)
  {
    direct := Next(start, es, w, Moved(Resume));
    reloaded := Next(start, es, w, Detach);
    reloaded := Next(start, reloaded, Step(w, Detach), Attach);
    reloaded := Next(start, reloaded, Step(Step(w, Detach), Attach), Moved(Resume));
  }

  /** What the successor finds. */
  function Succeeded(w: World): Site {
    Here(w, Rehydrated(w.current.(frozen := true)))
  }

  lemma ReplacedSite(w: World)
    requires w.snapshot.None?
    ensures Replaced(w).exec == Continue(Succeeded(w)).exec
  {
  }

  // ----- a switch when the model cannot be observed -----

  /** Setting a level works; the model getter answers nothing. */
  function Unobserved(): Executor {
    Executor(OLD_MODEL, "low", false, true, {OLD_MODEL, NEW_MODEL}, (m, t, level) => level)
  }

  lemma SwitchGoesOn(w: World)
    requires w == Switched(Unobserved(), Some("high"))
    ensures Continue(Here(w, w.current)).exec.thinking == "high"
  {
  }

  lemma SwitchIsSucceeded(w: World)
    requires w == Switched(Unobserved(), Some("high"))
    ensures Continue(Succeeded(w)).exec.thinking == "low"
  {
    ReferenceOfNewModel();
  }

  /**
    A run whose write is accepted but not observed: the queue that made it sets the
    level, its successor after a reload does not.
    */
  lemma UnobservedPathsDiffer() returns (es: seq<Event>, direct: seq<Event>, reloaded: seq<Event>)
    ensures direct == es + [Moved(Resume)] && reloaded == es + [Detach, Attach, Moved(Resume)]
    ensures
      var start := Start(Unobserved());
      && SubmitsAttached(start, es)
      && Run(start, direct).exec.thinking == "high"
      && Run(start, reloaded).exec.thinking == "low"
  {
    var w := Switched(Unobserved(), Some("high"));
    es := SwitchRun(Unobserved(), Some("high"));
    direct, reloaded := BothPaths(Start(Unobserved()), es, w);
    SwitchGoesOn(w);
    ReplacedSite(w);
    SwitchIsSucceeded(w);
  }

  // ----- a restore whose level is in effect already -----

  /** Everything can be observed, but setting any level leads to "medium". */
  function Restless(): Executor {
    Executor(OLD_MODEL, "high", true, true, {OLD_MODEL, NEW_MODEL}, (m, t, level) => "medium")
  }

  /** The round is over and the write back to the old model has begun. */
  function Restoring(): World {
    World(Queue([], Writing, false, Some(InFlight(Restore(1), 1, Some("high"))), Some(NEW_MODEL), Some("high"), None),
          [], None, map[1 := BaselineOf(Restless())], Restless().(model := NEW_MODEL),
          [Write(NEW_MODEL, Some(true)), Write(OLD_MODEL, None)], [0])
  }

  function Restored(): World {
    Restoring().(exec := Restless(), writes := [Write(NEW_MODEL, Some(true)), Write(OLD_MODEL, Some(true))])
  }

  /** The switch sets no level and ends with its write. */
  lemma SwitchEnds(w: World)
    requires w == Switched(Restless(), None)
    ensures
      var q := w.current.(inFlight := None, phase := Looping, lastModel := Some(NEW_MODEL));
      MoveCurrent(w, Resume) == w.(current := q, finished := [0])
  {
  }

  lemma RestoreTurn(w: World)
    requires w == Switched(Restless(), None)
    ensures
      var q := w.current.(inFlight := None, phase := Looping, lastModel := Some(NEW_MODEL), activeEpoch := None,
                          tasks := [Restore(1)]);
      MoveCurrent(w.(current := q, finished := [0]), Turn) == Restoring()
  {
    assert [Write(NEW_MODEL, Some(true))] + [Write(OLD_MODEL, None)]
        == [Write(NEW_MODEL, Some(true)), Write(OLD_MODEL, None)];
  }

  lemma RestoreSettles()
    ensures Step(Restoring(), WriteSettles(1, true, OLD_MODEL)) == Restored()
  {
    assert Restoring().writes[1 := Write(OLD_MODEL, Some(true))] == Restored().writes;
  }

  lemma RestoreRun() returns (es: seq<Event>)
    ensures Comes(Start(Restless()), es, Restored())
  {
    var start, w := Start(Restless()), Switched(Restless(), None);
    es := SwitchRun(Restless(), None);
    es := Next(start, es, w, Moved(Resume));
    SwitchEnds(w);
    var v := MoveCurrent(w, Resume);
    es := Next(start, es, v, Submitted(Restore(1)));
    var submitted := v.(current := Submit(v.current, Restore(1)));
    es := Next(start, es, submitted, Moved(Turn));
    assert [] + [Restore(1)] == [Restore(1)];
    RestoreTurn(w);
    es := Next(start, es, Restoring(), WriteSettles(1, true, OLD_MODEL));
    RestoreSettles();
  }

  lemma RestoreGoesOn(w: World)
    requires w == Restored()
    ensures Continue(Here(w, w.current)).exec.thinking == "high"
  {
  }

  lemma RestoreIsSucceeded(w: World)
    requires w == Restored()
    ensures Continue(Succeeded(w)).exec.thinking == "medium"
  {
  }

  /**
    A run that restores a level which is in effect already: the queue that made the
    write leaves it alone, its successor after a reload sets it and so changes it.
    */
  lemma UnsteadyPathsDiffer() returns (es: seq<Event>, direct: seq<Event>, reloaded: seq<Event>)
    ensures direct == es + [Moved(Resume)] && reloaded == es + [Detach, Attach, Moved(Resume)]
    ensures
      var start := Start(Restless());
      && SubmitsAttached(start, es)
      && Run(start, direct).exec.thinking == "high"
      && Run(start, reloaded).exec.thinking == "medium"
  {
    var w := Restored();
    es := RestoreRun();
    direct, reloaded := BothPaths(Start(Restless()), es, w);
    RestoreGoesOn(w);
    ReplacedSite(w);
    RestoreIsSucceeded(w);
  }
}
