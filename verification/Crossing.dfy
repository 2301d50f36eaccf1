/**
  A session outlives its stay in a chat.  What pi still holds from one chat is
  read in the next, and a cursor file is kept for the next character: this module
  shows when exactly either reaches over a message still to be read, and a run of
  each that does.
  */
module Crossing {
  import opened Common
  import opened Messages
  import opened Preview
  import opened Delivery
  import opened DeliveryWorld
  import opened Coverage
  import opened NoSkip
  import CatchUp
  import Merging

  /** Something at most the cursor has not been read. */
  ghost predicate Skipped(w: World) {
    exists s: nat :: s <= w.c.cargo.cursor && Missing(GroundOf(w), s)
  }

  // ----- numbers come from the log -----

  predicate Within(numbers: set<nat>, bound: nat) {
    forall n | n in numbers :: n <= bound
  }

  /** What was read, and what pi holds, is in the log. */
  predicate InLog(w: World) {
    && Within(w.consumed, |w.log|)
    && forall i :: 0 <= i < |w.pi| ==> Within(Sequences(w.pi[i].items), |w.log|)
  }

  predicate SameReading(w: World, v: World) {
    v.pi == w.pi && v.consumed == w.consumed && |v.log| >= |w.log|
  }

  lemma SameReadingInLog(w: World, v: World)
    requires InLog(w) && SameReading(w, v)
    ensures InLog(v)
  {
  }

  lemma FlushEndInLog(w: World, accepted: bool)
    requires Inv(w) && InLog(w)
    ensures InLog(FlushEndStep(w, accepted))
  {
    if w.c.cargo.running.Some? {
      assert Mergeable(GroundOf(w), w.c.cargo.running.value.batch);
    }
  }

  lemma ConsumeInLog(w: World, i: nat, written: bool)
    requires InLog(w)
    ensures InLog(ConsumeStep(w, i, written))
  {
    DropInLog(w, i);
  }

  lemma DropInLog(w: World, i: nat)
    requires InLog(w)
    ensures InLog(DropStep(w, i))
  {
    if i < |w.pi| {
      var v := DropStep(w, i);
      forall j | 0 <= j < |v.pi| ensures Within(Sequences(v.pi[j].items), |w.log|) {
        assert v.pi[j] == w.pi[if j < i then j else j + 1];
      }
    }
  }

  lemma TimerSameReading(w: World, e: Event)
    requires TimerEvent(e)
    ensures SameReading(w, Step(w, e))
  {
  }

  lemma AgentSameReading(w: World, e: Event)
    requires AgentEvent(e)
    ensures SameReading(w, Step(w, e))
  {
  }

  lemma IncomingSameReading(w: World, e: Event)
    requires IncomingEvent(e)
    ensures SameReading(w, Step(w, e))
  {
  }

  lemma LifeInLog(w: World, e: Event)
    requires InLog(w) && LifeEvent(e)
    ensures InLog(Step(w, e))
  {
  }

  lemma BatchInLog(w: World, e: Event)
    requires Inv(w) && InLog(w) && BatchEvent(e)
    ensures InLog(Step(w, e))
  {
    match e
    case FlushStarts =>
    case FlushEnds(accepted) => FlushEndInLog(w, accepted);
    case PiConsumes(i, written) => ConsumeInLog(w, i, written);
    case PiDrops(i) => DropInLog(w, i);
    case ForeignBatch(_, _) =>
  }

  lemma StepInLog(w: World, e: Event)
    requires Inv(w) && InLog(w)
    ensures InLog(Step(w, e))
  {
    if TimerEvent(e) {
      TimerSameReading(w, e);
      SameReadingInLog(w, Step(w, e));
    } else if AgentEvent(e) {
      AgentSameReading(w, e);
      SameReadingInLog(w, Step(w, e));
    } else if IncomingEvent(e) {
      IncomingSameReading(w, e);
      SameReadingInLog(w, Step(w, e));
    } else if LifeEvent(e) {
      LifeInLog(w, e);
    } else {
      BatchInLog(w, e);
    }
  }

  lemma {:induction false} AlwaysInLog(log: seq<Message>, me: string, preset: nat, es: seq<Event>)
    requires GaplessLog(log) && preset <= |log| && SafeRun(Start(log, me, preset), es)
    ensures var w := Run(Start(log, me, preset), es); InLog(w) && |log| <= |w.log|
    decreases |es|
  {
    if es != [] {
      var w := Run(Start(log, me, preset), es[..|es| - 1]);
      AlwaysInLog(log, me, preset, es[..|es| - 1]);
      AlwaysSound(log, me, preset, es[..|es| - 1]);
      StepInLog(w, es[|es| - 1]);
      LogGrows(w, es[|es| - 1]);
    }
  }

  lemma LogGrows(w: World, e: Event)
    ensures |w.log| <= |Step(w, e).log|
  {
  }

  // ----- batches of another chat -----

  /**
    The exact condition.  From any reachable state, once someone has written the
    next message, the batch of another chat has made the client skip something if and
    only if it moved the cursor over something unread or beyond the end of the log.
    */
  lemma ForeignSkipsIff(w: World, b: Batch, written: bool, m: Message)
    requires Inv(w) && InLog(w) && w.preset <= |w.log| && !Authored(m, w.c.me)
    ensures Skipped(PublishStep(ForeignStep(w, b, written), m))
            <==> Confirms(w.c, b) && !ReadUpTo(GroundOf(w), b.latest.value)
  {
    var g, v := GroundOf(w), ForeignStep(w, b, written);
    var u := PublishStep(v, m);
    var next := |w.log| + 1;
    assert next !in w.consumed;
    assert Missing(GroundOf(u), next);
    forall s: nat ensures Missing(GroundOf(u), s) <==> Missing(g, s) || s == next {
      if 1 <= s <= |w.log| {
        assert u.log[s - 1] == w.log[s - 1];
      }
    }
    assert u.c.cargo.cursor == if Confirms(w.c, b) then b.latest.value else w.c.cargo.cursor;
  }

  /** The same for runs. */
  lemma {:induction false} RunForeignSkipsIff(log: seq<Message>, me: string, preset: nat, es: seq<Event>, b: Batch,
                                              written: bool, m: Message)
    requires GaplessLog(log) && preset <= |log| && SafeRun(Start(log, me, preset), es)
    requires !Authored(m, Run(Start(log, me, preset), es).c.me)
    ensures
      var w := Run(Start(log, me, preset), es);
      Skipped(Run(Start(log, me, preset), es + [ForeignBatch(b, written)] + [Publish(m)]))
      <==> Confirms(w.c, b) && !ReadUpTo(GroundOf(w), b.latest.value)
  {
    var start := Start(log, me, preset);
    AlwaysSound(log, me, preset, es);
    AlwaysInLog(log, me, preset, es);
    PresetStays(log, me, preset, es);
    ForeignSkipsIff(Run(start, es), b, written, m);
    ThenForeign(start, es, b, written);
    ThenPublish(start, es + [ForeignBatch(b, written)], m);
  }

  lemma ThenForeign(w: World, es: seq<Event>, b: Batch, written: bool)
    ensures Run(w, es + [ForeignBatch(b, written)]) == ForeignStep(Run(w, es), b, written)
  {
    Then(w, es, ForeignBatch(b, written));
  }

  /** A run that leaves one chat with a batch in pi's queue. */
  lemma LeavesBatchBehind() returns (es: seq<Event>)
    ensures
      var w := Run(Start([], "a", 0), es);
      w.c.stopped && w.pi == [Merging.LiveBatch(1)]
  {
    var start := Start([], "a", 0);
    assert start.log == Merging.RaceLog(0);
    var k := NewClient("a", 0).cargo;
    es := Merging.Arrives(start, [], 0, k, Resting, []);
    k := k.(pending := [Merging.Live(1)]);
    es := Merging.Drains(start, es, 1, k, Resting, []);
    k := k.(jobs := [Drain]);
    es := Merging.Flushes(start, es, 1, k, Resting, []);
    k := k.(pending := [], jobs := [], running := Some(Flight(Merging.LiveBatch(1), false)));
    es := Merging.Ends(start, es, 1, k, Resting, [], Merging.LiveBatch(1), true);
    ThenLeaves(start, es);
    es := es + [Leaves];
  }

  lemma ThenLeaves(w: World, es: seq<Event>)
    ensures Run(w, es + [Leaves]) == LeaveStep(Run(w, es))
  {
    Then(w, es, Leaves);
  }

  /**
    The input: the session then joins another chat, still empty, in which a whisper
    to it is the first message.  The batch left behind moves the new chat's cursor
    past the whisper.
    */
  lemma ForeignBatchSkips() returns (es: seq<Event>, fs: seq<Event>, b: Batch, v: World, w: World)
    ensures v == Run(Start([], "a", 0), es) && v.c.stopped && b in v.pi
    ensures fs == [Publish(Merging.RaceWhisper(0)), ForeignBatch(b, true)]
    ensures w == Run(Start([], "a", 0), fs)
    ensures 1 <= w.c.cargo.cursor && ByOther(w.log, "a", 1) && 1 !in w.consumed
  {
    es := LeavesBatchBehind();
    b := Merging.LiveBatch(1);
    var start, m := Start([], "a", 0), Merging.RaceWhisper(0);
    ThenPublish(start, [], m);
    assert [] + [Publish(m)] == [Publish(m)];
    ThenForeign(start, [Publish(m)], b, true);
    fs := [Publish(m)] + [ForeignBatch(b, true)];
    v, w := Run(start, es), Run(start, fs);
  }

  // ----- another character -----

  /**
    The exact condition.  Joining again skips something if and only if it is as
    another character and the file is past a message that is new to it.
    */
  lemma RejoinSkipsIff(w: World, me: string, known: set<nat>)
    requires Inv(w) && w.c.stopped
    ensures Skipped(RejoinStep(w, me, known))
            <==> me != w.c.me
                 && exists s: nat :: w.preset < s <= w.c.cargo.file && ByOther(w.log, me, s) && s !in known
  {
    var v := RejoinStep(w, me, known);
    assert v.c.cargo.cursor == w.c.cargo.file;
    if me == w.c.me {
      assert GroundOf(v) == GroundOf(w);
    } else {
      assert GroundOf(v) == GroundAs(w, me, known);
      forall s: nat ensures Missing(GroundOf(v), s) <==> w.preset < s && ByOther(w.log, me, s) && s !in known {
      }
    }
  }

  /** The same for runs. */
  lemma {:induction false} RunRejoinSkipsIff(log: seq<Message>, me: string, preset: nat, es: seq<Event>, next: string,
                                             known: set<nat>)
    requires GaplessLog(log) && preset <= |log| && SafeRun(Start(log, me, preset), es)
    requires Run(Start(log, me, preset), es).c.stopped
    ensures
      var w := Run(Start(log, me, preset), es);
      Skipped(Run(Start(log, me, preset), es + [Rejoins(next, known)]))
      <==> next != w.c.me
           && exists s: nat :: preset < s <= w.c.cargo.file && ByOther(w.log, next, s) && s !in known
  {
    var start := Start(log, me, preset);
    AlwaysSound(log, me, preset, es);
    PresetStays(log, me, preset, es);
    RejoinSkipsIff(Run(start, es), next, known);
    ThenRejoins(start, es, next, known);
  }

  lemma ThenRejoins(w: World, es: seq<Event>, me: string, known: set<nat>)
    ensures Run(w, es + [Rejoins(me, known)]) == RejoinStep(Run(w, es), me, known)
  {
    Then(w, es, Rejoins(me, known));
  }

  /** From one character to another; the client's own, "a", sees only that it was sent. */
  const SECRET := Message(Character("c", "c"), Some(Party("b", "b")), "", "", 1, "", RoundInfo(0, 0, 0))

  /** A stale speak makes the client fetch. */
  lemma FetchIsSent(w: World)
    requires w == PublishStep(Start([], "a", 0), SECRET)
    ensures
      var v := SettleStep(MarkStep(w));
      Inv(v) && CatchUp.OnlyFetching(v) && v.log == [SECRET] && v.c.cargo.cursor == 0 && v.pi == [] && v.c.me == "a"
      && v.preset == 0
  {
    PublishKeeps(Start([], "a", 0), SECRET);
    MarkKeeps(w);
    SettleKeeps(MarkStep(w));
  }

  /** The page tells of the whisper, so it is handed over, and the cursor and its file pass it. */
  lemma PlaceholderIsRead(v: World)
    requires Inv(v) && CatchUp.OnlyFetching(v) && v.log == [SECRET] && v.c.cargo.cursor == 0 && v.c.me == "a"
    ensures
      var u := CatchUp.Cycle(v, 0, true);
      && u == ConsumeStep(FlushEndStep(FlushStep(ReplyStep(v, 1, 0, true)), true), |v.pi|, true)
      && u.c.cargo.file == 1 && u.log == v.log && u.preset == v.preset && u.c.me == v.c.me
  {
    PageIsComplete(v.log, 0, "a");
    assert v.log[..1] == v.log;
    assert ByOther(v.log, "a", 1);
    assert 1 in Sequences(CatchUp.LastPage(v, 0));
    CatchUp.ReplyQueues(v, 0, true);
    CatchUp.ReplyBecomesBatch(v, 0, true);
    CatchUp.BatchMovesCursor(FlushStep(ReplyStep(v, 1, 0, true)),
                             FlushStep(ReplyStep(v, 1, 0, true)).c.cargo.running.value.batch, true);
  }

  /** The steps of that pull as a run. */
  lemma PullRuns(start: World, es: seq<Event>) returns (fs: seq<Event>)
    ensures
      var v := Run(start, es);
      Run(start, fs) == ConsumeStep(FlushEndStep(FlushStep(ReplyStep(v, 1, 0, true)), true), |v.pi|, true)
  {
    var i := |Run(start, es).pi|;
    ThenReplies(start, es, 1, 0, true);
    fs := es + [FetchReplies(1, 0, true)];
    ThenFlushStarts(start, fs);
    fs := fs + [FlushStarts];
    ThenFlushEnds(start, fs, true);
    fs := fs + [FlushEnds(true)];
    ThenPiConsumes(start, fs, i, true);
    fs := fs + [PiConsumes(i, true)];
  }

  lemma FetchRuns(start: World) returns (es: seq<Event>)
    ensures Run(start, es) == SettleStep(MarkStep(PublishStep(start, SECRET)))
  {
    es := [];
    ThenPublish(start, es, SECRET);
    es := es + [Publish(SECRET)];
    ThenMarked(start, es);
    es := es + [MarkedPending];
    ThenSettles(start, es);
    es := es + [RunSettles];
  }

  lemma RejoinIsPast(u: World)
    requires u.log == [SECRET] && u.c.cargo.file == 1 && u.preset == 0 && u.c.me == "a"
    ensures
      var w := RejoinStep(LeaveStep(u), "b", {});
      w.c.me == "b" && w.c.cargo.cursor == 1 && ByOther(w.log, "b", 1) && 1 !in w.consumed
  {
  }

  /**
    The input: the whisper passed by the cursor of "a" is to "b", as whom the session
    joins next; its agent never reads it.
    */
  lemma RejoinSkips() returns (es: seq<Event>)
    ensures
      var w := Run(Start([], "a", 0), es);
      && w.c.me == "b" && 1 <= w.c.cargo.cursor && 1 !in w.consumed
      && ByOther(w.log, "b", 1) && w.log[0].recipient == Some(Party("b", "b"))
  {
    var start := Start([], "a", 0);
    es := FetchRuns(start);
    FetchIsSent(PublishStep(start, SECRET));
    PlaceholderIsRead(Run(start, es));
    es := PullRuns(start, es);
    RejoinIsPast(Run(start, es));
    ThenLeaves(start, es);
    es := es + [Leaves];
    ThenRejoins(start, es, "b", {});
    es := es + [Rejoins("b", {})];
  }
}
