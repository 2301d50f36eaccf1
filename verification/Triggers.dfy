/**
  No lost trigger.  As long as no fetch fails, a public notification the client
  had to act on, or a whisper that came before one it depends on, is either
  covered by a fetched page or something is still going to fetch it, also after a
  reload, unless the reload came while a fetch was all there was.
  */
module Triggers {
  import opened Common
  import opened Messages
  import opened Preview
  import opened Delivery
  import opened DeliveryWorld

  /** Something will fetch everything up to `noted`, given the log's length when the last fetch was sent. */
  predicate Cause(c: Client, noted: nat, sent: nat) {
    || c.timers.idleWindow
    || c.agent.incrementPending
    || (c.refetch && c.pull != Resting)
    || (c.pull.Fetching? && noted <= sent)
  }

  /** The pull in progress does not start over, and the marks that wait stay. */
  predicate KeepsCause(c: Client, d: Client) {
    && (c.timers.idleWindow ==> d.timers.idleWindow)
    && (c.agent.incrementPending ==> d.agent.incrementPending)
    && d.refetch == c.refetch
    && (d.pull == c.pull || (c.pull == Handing && d.pull == Handed))
    && d.stopped == c.stopped
  }

  predicate Triggered(w: World) {
    && w.ledger.noted <= |w.log|
    && (!w.c.stopped && !w.ledger.failed && w.ledger.noted > w.ledger.fetched ==> Cause(w.c, w.ledger.noted, w.sent))
  }

  // ----- what fetches -----

  lemma IdleKeeps(w: World, tokenSent: bool)
    requires Triggered(w)
    ensures Triggered(IdleStep(w, tokenSent))
  {
  }

  lemma DeliveryKeeps(w: World)
    requires Triggered(w)
    ensures Triggered(DeliveryWindowStep(w))
  {
  }

  lemma SettleKeeps(w: World)
    requires Triggered(w)
    ensures Triggered(SettleStep(w))
  {
  }

  lemma WedgeKeeps(w: World)
    requires Triggered(w)
    ensures Triggered(WedgeStep(w))
  {
  }

  lemma GoesOnKeeps(w: World)
    requires Triggered(w)
    ensures Triggered(GoOnStep(w))
  {
  }

  lemma BreaksKeeps(w: World)
    requires Triggered(w)
    ensures Triggered(BreakStep(w))
  {
  }

  lemma UpdateKeeps(w: World, n: nat, tokenSent: bool)
    requires Triggered(w) && GaplessLog(w.log)
    ensures Triggered(UpdateStep(w, n, tokenSent))
  {
    if n <= |w.log| {
      UpdateWithin(w.log, n);
      var u := UpdateAt(w.log, n);
      if Notable(w.c, u) {
        var d := OnUpdate(w.c, u, tokenSent);
        assert !w.c.stopped ==> d.timers.idleWindow || d.agent.incrementPending;
      }
    }
  }

  /** A notification's watermark is a number of the log. */
  lemma UpdateWithin(log: seq<Message>, n: nat)
    requires GaplessLog(log) && n <= |log|
    ensures UpdateAt(log, n).latest <= n
  {
    StreamMembers(log[..n], false);
    var publics := Publics(log[..n]);
    if publics != [] {
      assert publics[|publics| - 1] in log[..n];
    }
  }

  /** A reply covers everything noted when its fetch was sent. */
  lemma ReplyKeeps(w: World, n: nat, window: nat, written: bool)
    requires Triggered(w)
    ensures Triggered(ReplyStep(w, n, window, written))
  {
    if Replies(w, n) {
      PageKeepsCause(w.c, PageAt(w.log, n, w.c.pull.since, window, w.c.me), written);
    }
  }

  lemma PageKeepsCause(c: Client, page: FetchPage, written: bool)
    requires c.pull.Fetching? && !c.stopped
    ensures
      var d := PageArrives(c, page, written);
      && d.timers == c.timers && d.agent == c.agent && d.stopped == c.stopped
      && (d.pull.Fetching? || d.refetch == c.refetch)
      && (c.refetch ==> d.pull != Resting)
  {
  }

  // ----- what does not -----

  lemma FramesKeepCause(c: Client, f: Frame, i: Item)
    ensures KeepsCause(c, OnFrame(c, f))
    ensures KeepsCause(c, OnItem(c, i))
  {
  }

  lemma FlushesKeepCause(c: Client, accepted: bool)
    ensures KeepsCause(c, StartFlush(c))
    ensures KeepsCause(c, FinishFlush(c, accepted))
  {
  }

  lemma OthersKeepCause(c: Client, b: Batch, written: bool)
    ensures KeepsCause(c, DebounceFires(c))
    ensures KeepsCause(c, AgentStarts(c))
    ensures KeepsCause(c, ConsumeAbortToken(c))
    ensures KeepsCause(c, MarkIncrementPending(c))
    ensures KeepsCause(c, ConfirmBatchConsumed(c, b, written))
  {
  }

  lemma KeepsTriggered(w: World, v: World)
    requires Triggered(w) && KeepsCause(w.c, v.c) && |v.log| >= |w.log| && v.sent == w.sent
    requires v.ledger.noted == w.ledger.noted && v.ledger.fetched == w.ledger.fetched
    requires v.ledger.failed == w.ledger.failed
    ensures Triggered(v)
  {
  }

  lemma NoticeKeeps(w: World, item: Item)
    requires Triggered(w)
    ensures Triggered(NoticeStep(w, item))
  {
    FramesKeepCause(w.c, Placeholder("", 0, "", UserPersona, Party("", "")), item);
    KeepsTriggered(w, NoticeStep(w, item));
  }

  lemma FlushStartKeeps(w: World)
    requires Triggered(w)
    ensures Triggered(FlushStep(w))
  {
    FlushesKeepCause(w.c, true);
    KeepsTriggered(w, FlushStep(w));
  }

  lemma FlushEndKeeps(w: World, accepted: bool)
    requires Triggered(w)
    ensures Triggered(FlushEndStep(w, accepted))
  {
    FlushesKeepCause(w.c, accepted);
    KeepsTriggered(w, FlushEndStep(w, accepted));
  }

  lemma ForeignKeeps(w: World, b: Batch, written: bool)
    requires Triggered(w)
    ensures Triggered(ForeignStep(w, b, written))
  {
    OthersKeepCause(w.c, b, written);
    KeepsTriggered(w, ForeignStep(w, b, written));
  }

  lemma ConsumeKeeps(w: World, i: nat, written: bool)
    requires Triggered(w)
    ensures Triggered(ConsumeStep(w, i, written))
  {
    if i < |w.pi| {
      OthersKeepCause(w.c, w.pi[i], written);
      KeepsTriggered(w, ConsumeStep(w, i, written));
    }
  }

  lemma DropKeeps(w: World, i: nat)
    requires Triggered(w)
    ensures Triggered(DropStep(w, i))
  {
    KeepsTriggered(w, DropStep(w, i));
  }

  lemma RunKeeps(w: World)
    requires Triggered(w)
    ensures Triggered(RunStartStep(w)) && Triggered(BoundaryStep(w)) && Triggered(MarkStep(w))
  {
    OthersKeepCause(w.c, Batch([], None, None), true);
    KeepsTriggered(w, RunStartStep(w));
    KeepsTriggered(w, BoundaryStep(w));
    KeepsTriggered(w, MarkStep(w));
  }

  lemma DebounceKeeps(w: World)
    requires Triggered(w)
    ensures Triggered(DebounceStep(w))
  {
    OthersKeepCause(w.c, Batch([], None, None), true);
    KeepsTriggered(w, DebounceStep(w));
  }

  lemma PublishKeeps(w: World, m: Message)
    requires Triggered(w)
    ensures Triggered(PublishStep(w, m))
  {
    KeepsTriggered(w, PublishStep(w, m));
  }

  /** A whisper beyond a gap is left to a pull, which it causes. */
  lemma GapCausesPull(c: Client, f: Frame)
    requires BeyondGap(c, f) && !c.stopped
    ensures OnFrame(c, f).timers.idleWindow || OnFrame(c, f).agent.incrementPending
    ensures OnFrame(c, f).cargo.pending == c.cargo.pending
  {
  }

  lemma FrameKeeps(w: World, s: nat)
    requires Triggered(w) && GaplessLog(w.log)
    ensures Triggered(FrameStep(w, s))
  {
    if !w.c.stopped && 1 <= s <= |w.log| {
      var f := FrameAt(w.log, s, w.c.me);
      FramesKeepCause(w.c, f, Welcome(0));
      if BeyondGap(w.c, f) {
        GapCausesPull(w.c, f);
      }
    }
  }

  lemma LeaveKeeps(w: World)
    requires Triggered(w)
    ensures Triggered(LeaveStep(w))
  {
  }

  lemma ReloadKeeps(w: World)
    requires Triggered(w)
    ensures Triggered(ReloadStep(w))
  {
  }

  lemma RejoinKeeps(w: World, me: string, known: set<nat>)
    requires Triggered(w)
    ensures Triggered(RejoinStep(w, me, known))
  {
  }

  lemma LifeKeeps(w: World, e: Event)
    requires Triggered(w) && LifeEvent(e)
    ensures Triggered(Step(w, e))
  {
    match e
    case Leaves => LeaveKeeps(w);
    case Reloads => ReloadKeeps(w);
    case Rejoins(me, known) => RejoinKeeps(w, me, known);
  }

  lemma TimerEventKeeps(w: World, e: Event)
    requires Triggered(w) && TimerEvent(e)
    ensures Triggered(Step(w, e))
  {
    match e
    case IdleWindowElapses(tokenSent) => IdleKeeps(w, tokenSent);
    case DeliveryWindowElapses => DeliveryKeeps(w);
    case FetchBreaks => BreaksKeeps(w);
    case PullGoesOn => GoesOnKeeps(w);
  }

  lemma AgentEventKeeps(w: World, e: Event)
    requires Triggered(w) && AgentEvent(e)
    ensures Triggered(Step(w, e))
  {
    match e
    case RunStarts => RunKeeps(w);
    case RunSettles => SettleKeeps(w);
    case RunWedges => WedgeKeeps(w);
    case Boundary => RunKeeps(w);
    case MarkedPending => RunKeeps(w);
  }

  lemma BatchEventKeeps(w: World, e: Event)
    requires Triggered(w) && BatchEvent(e)
    ensures Triggered(Step(w, e))
  {
    match e
    case FlushStarts => FlushStartKeeps(w);
    case FlushEnds(accepted) => FlushEndKeeps(w, accepted);
    case PiConsumes(i, written) => ConsumeKeeps(w, i, written);
    case PiDrops(i) => DropKeeps(w, i);
    case ForeignBatch(b, written) => ForeignKeeps(w, b, written);
  }

  lemma IncomingEventKeeps(w: World, e: Event)
    requires Triggered(w) && GaplessLog(w.log) && IncomingEvent(e)
    ensures Triggered(Step(w, e))
  {
    match e
    case Publish(m) => PublishKeeps(w, m);
    case UpdateArrives(n, tokenSent) => UpdateKeeps(w, n, tokenSent);
    case FrameArrives(s) => FrameKeeps(w, s);
    case NoticeArrives(item) => NoticeKeeps(w, item);
    case DebounceElapses => DebounceKeeps(w);
    case FetchReplies(n, window, written) => ReplyKeeps(w, n, window, written);
  }

  lemma StepKeeps(w: World, e: Event)
    requires Triggered(w) && GaplessLog(w.log)
    ensures Triggered(Step(w, e))
  {
    if TimerEvent(e) {
      TimerEventKeeps(w, e);
    } else if AgentEvent(e) {
      AgentEventKeeps(w, e);
    } else if LifeEvent(e) {
      LifeKeeps(w, e);
    } else if BatchEvent(e) {
      BatchEventKeeps(w, e);
    } else {
      IncomingEventKeeps(w, e);
    }
  }

  lemma GaplessStep(w: World, e: Event)
    requires GaplessLog(w.log)
    ensures GaplessLog(Step(w, e).log)
  {
  }

  lemma {:induction false} AlwaysTriggered(log: seq<Message>, me: string, preset: nat, es: seq<Event>)
    requires GaplessLog(log)
    ensures GaplessLog(Run(Start(log, me, preset), es).log) && Triggered(Run(Start(log, me, preset), es))
    decreases |es|
  {
    if es != [] {
      AlwaysTriggered(log, me, preset, es[..|es| - 1]);
      GaplessStep(Run(Start(log, me, preset), es[..|es| - 1]), es[|es| - 1]);
      StepKeeps(Run(Start(log, me, preset), es[..|es| - 1]), es[|es| - 1]);
    }
  }

  /** A client at rest with nothing armed or marked has fetched everything it was notified of. */
  lemma {:induction false} QuietMeansFetched(log: seq<Message>, me: string, preset: nat, es: seq<Event>)
    requires GaplessLog(log)
    ensures
      var w := Run(Start(log, me, preset), es);
      && !w.c.stopped && !w.ledger.failed
      && !w.c.timers.idleWindow && !w.c.agent.incrementPending && w.c.pull == Resting
      ==> w.ledger.noted <= w.ledger.fetched
  {
    AlwaysTriggered(log, me, preset, es);
  }

  // ----- reloads -----

  /** The busy mark becomes a fetch from the cursor file, with nothing else on its way. */
  lemma ReloadFetches(w: World)
    requires !w.c.stopped && w.c.agent.incrementPending
    ensures
      var v := ReloadStep(w);
      && !v.c.stopped && v.c.pull == Fetching(w.c.cargo.file) && !v.c.refetch && v.sent == |w.log| && v.log == w.log
      && v.c.cargo.jobs == [] && v.c.cargo.running == None && v.c.cargo.retry == None
      && v.c.cargo.cursor == w.c.cargo.file && v.c.cargo.pending == w.c.cargo.pending
  {
  }

  /** Without the mark an open idle window stays open, as eligible as it was, and nothing is fetched before it ends. */
  lemma ReloadKeepsWindow(w: World)
    requires !w.c.stopped && !w.c.agent.incrementPending
    ensures
      var v := ReloadStep(w);
      && v.c.timers.idleWindow == w.c.timers.idleWindow && v.c.pull == Resting
      && (w.c.timers.idleWindow ==> v.c.timers.idleEligible == w.c.timers.idleEligible)
      && v.c.cargo.cursor == w.c.cargo.file && v.c.cargo.pending == w.c.cargo.pending
  {
  }

  /**
    The exact condition: after a reload something is going to fetch if and only if
    the busy mark was set or the idle window was open.
    */
  lemma ReloadCausesIff(w: World, noted: nat)
    requires !w.c.stopped && noted <= |w.log|
    ensures Cause(ReloadStep(w).c, noted, ReloadStep(w).sent) <==> w.c.agent.incrementPending || w.c.timers.idleWindow
  {
  }

  lemma SingleMessage(x: Message)
    requires !IsWhisper(x) && x.sequence == 1 && !Authored(x, "a")
    ensures Publics([x]) == [x]
    ensures ClassifySelfPreview(Update(1, [x]), 0, "a").External?
  {
    assert [x][1..] == [];
    assert Stream([], false) == [];
    assert Unseen([], 0) == [];
    assert Unseen([x], 0) == [x];
    assert Sorted([]) == [];
    assert Sorted([x]) == [x];
    assert [x][0] == x;
  }

  lemma WindowFetches(w: World, m: Message)
    requires w == Start([], "a", 0) && m.recipient == None && m.sender == UserPersona
    ensures
      var v := IdleStep(UpdateStep(PublishStep(w, m), 1, true), true);
      && !v.c.stopped && v.c.pull.Fetching? && !v.c.agent.incrementPending && !v.c.timers.idleWindow
      && v.c.cargo.pending == [] && v.c.cargo.file == 0
      && v.log == [m.(sequence := 1)] && v.consumed == {} && v.ledger.noted == 1
  {
    var log := [m.(sequence := 1)];
    SingleMessage(log[0]);
    assert [] + log == log && log[..1] == log;
    assert UpdateAt(log, 1) == Update(1, log);
  }

  lemma ReloadForgets(v: World)
    requires !v.c.stopped && v.c.pull.Fetching? && !v.c.agent.incrementPending && !v.c.timers.idleWindow
    requires v.c.cargo.pending == [] && v.c.cargo.file == 0
    ensures
      var u := ReloadStep(v);
      && !Cause(u.c, 1, u.sent) && u.c.pull == Resting && u.c.cargo.pending == [] && u.c.cargo.cursor == 0
      && u.log == v.log && u.consumed == v.consumed
  {
  }

  /**
    The input: a message is announced, the idle window ends, and the reload comes
    while its fetch is on the way.  The next runtime knows nothing of it, and nothing
    will fetch before another notification.
    */
  lemma ReloadForgetsFetch(m: Message) returns (es: seq<Event>, w: World)
    requires m.recipient == None && m.sender == UserPersona
    ensures w == Run(Start([], "a", 0), es)
    ensures !w.c.stopped && !Cause(w.c, 1, w.sent) && w.c.cargo.pending == [] && w.c.cargo.cursor == 0
    ensures ByOther(w.log, "a", 1) && 1 !in w.consumed
  {
    var start := Start([], "a", 0);
    WindowFetches(start, m);
    ReloadForgets(IdleStep(UpdateStep(PublishStep(start, m), 1, true), true));
    es := [];
    ThenPublish(start, es, m);
    es := es + [Publish(m)];
    assert Run(start, es + [UpdateArrives(1, true)]) == UpdateStep(PublishStep(start, m), 1, true) by {
      Then(start, es, UpdateArrives(1, true));
    }
    es := es + [UpdateArrives(1, true)];
    assert Run(start, es + [IdleWindowElapses(true)]) == IdleStep(Run(start, es), true) by {
      Then(start, es, IdleWindowElapses(true));
    }
    es := es + [IdleWindowElapses(true)];
    ThenReloads(start, es);
    es := es + [Reloads];
    w := Run(start, es);
  }
}
