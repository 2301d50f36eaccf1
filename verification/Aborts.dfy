/**
  Abort discipline: between two settles the client asks for at most one abort,
  and only with a token that a notification has earned since, by proving that
  someone else's message was unread.
  */
module Aborts {
  import opened Common
  import opened Messages
  import opened Preview
  import opened Delivery
  import opened DeliveryWorld

  /** The proof holds up against the log. */
  ghost predicate Proven(log: seq<Message>, me: string, p: Option<Proof>) {
    p.Some? && p.value.cursor < p.value.sequence && ByOther(log, me, p.value.sequence)
  }

  /** Proofs are needed for an eligible idle window, a queued token and a requested abort. */
  ghost predicate Backed(c: Client, log: seq<Message>, idleProof: Option<Proof>, tokenProof: Option<Proof>) {
    && (c.timers.idleEligible ==> Proven(log, c.me, idleProof))
    && (c.agent.tokenQueued || c.agent.abortRequested ==> Proven(log, c.me, tokenProof))
  }

  ghost predicate Disciplined(w: World) {
    && GaplessLog(w.log)
    && Backed(w.c, w.log, w.ledger.idleProof, w.ledger.tokenProof)
    && (!w.c.stopped ==> w.ledger.aborts == if w.c.agent.abortRequested then 1 else 0)
    && w.ledger.aborts <= 1
  }

  // ----- notifications -----

  lemma UpdateIsTruthful(log: seq<Message>, n: nat)
    requires GaplessLog(log) && n <= |log|
    ensures Truthful(log, UpdateAt(log, n))
  {
    var part := log[..n];
    LogIncreasing(part, 0);
    MergeOfStreams(part);
    BroadcastIsTruthful(Publics(part), Whispers(part), n);
    TruthfulLater(part, log, UpdateAt(log, n));
  }

  /** Splitting a log into its two streams and merging them gives the log back. */
  lemma MergeOfStreams(log: seq<Message>)
    requires GaplessLog(log)
    ensures OneLog(Publics(log), Whispers(log), |log|) && Merge(Publics(log), Whispers(log)) == log
  {
    LogIncreasing(log, 0);
    StreamsMerge(log);
  }

  lemma {:induction false} StreamsMerge(log: seq<Message>)
    requires Increasing(log)
    ensures Merge(Publics(log), Whispers(log)) == log
  {
    if log != [] {
      StreamsMerge(log[1..]);
      StreamMembers(log[1..], true);
      StreamMembers(log[1..], false);
      HeadGoesFirst(log[0], Publics(log[1..]), Whispers(log[1..]));
      assert log == [log[0]] + log[1..];
    }
  }

  lemma HeadGoesFirst(m: Message, publics: seq<Message>, whispers: seq<Message>)
    requires forall x | x in publics || x in whispers :: m.sequence < x.sequence
    ensures Merge([m] + publics, whispers) == [m] + Merge(publics, whispers)
    ensures Merge(publics, [m] + whispers) == [m] + Merge(publics, whispers)
  {
    assert ([m] + publics)[1..] == publics;
    assert ([m] + whispers)[1..] == whispers;
    if publics != [] {
      assert publics[0] in publics;
    }
    if whispers != [] {
      assert whispers[0] in whispers;
    }
  }

  lemma ExternalHasProof(log: seq<Message>, c: Client, u: Update)
    requires Truthful(log, u) && u.latest > c.cargo.cursor
    requires ClassifySelfPreview(u, c.cargo.cursor, c.me).External?
    ensures Proven(log, c.me, ExternalProof(log, c, u))
  {
    ExternalIsSound(log, u, c.cargo.cursor, c.me);
  }

  /** A token or an eligible window comes only from an "external" notification. */
  lemma UpdateNeedsExternal(c: Client, u: Update, tokenSent: bool)
    ensures
      var d := OnUpdate(c, u, tokenSent);
      && ((d.agent.tokenQueued && !c.agent.tokenQueued) || (d.timers.idleEligible && !c.timers.idleEligible) ==>
            u.latest > c.cargo.cursor && ClassifySelfPreview(u, c.cargo.cursor, c.me).External?)
      && d.me == c.me && d.stopped == c.stopped && d.agent.abortRequested == c.agent.abortRequested
      && (c.agent.tokenQueued ==> d.agent.tokenQueued) && (c.timers.idleEligible ==> d.timers.idleEligible)
  {
  }

  /** Own echoes alone, complete in the preview or not, never queue a token. */
  lemma OwnEchoesQueueNothing(log: seq<Message>, c: Client, n: nat, tokenSent: bool)
    requires GaplessLog(log) && n <= |log|
    requires !OthersUnread(log, c.me, c.cargo.cursor, UpdateAt(log, n).latest)
    ensures
      var d := OnUpdate(c, UpdateAt(log, n), tokenSent);
      d.agent.tokenQueued == c.agent.tokenQueued && d.timers.idleEligible == c.timers.idleEligible
  {
    var u := UpdateAt(log, n);
    UpdateIsTruthful(log, n);
    UpdateNeedsExternal(c, u, tokenSent);
    if u.latest > c.cargo.cursor {
      if ClassifySelfPreview(u, c.cargo.cursor, c.me).External? {
        ExternalIsSound(log, u, c.cargo.cursor, c.me);
        assert false;
      }
    }
  }

  // ----- steps -----

  lemma UpdateKeeps(w: World, n: nat, tokenSent: bool)
    requires Disciplined(w)
    ensures Disciplined(UpdateStep(w, n, tokenSent))
  {
    if !w.c.stopped && n <= |w.log| {
      var u := UpdateAt(w.log, n);
      UpdateIsTruthful(w.log, n);
      UpdateNeedsExternal(w.c, u, tokenSent);
      if u.latest > w.c.cargo.cursor && ClassifySelfPreview(u, w.c.cargo.cursor, w.c.me).External? {
        ExternalHasProof(w.log, w.c, u);
      }
    }
  }

  lemma WhisperNeedsOther(c: Client, f: Frame)
    requires f.Full?
    ensures
      var d := OnWhisper(c, f);
      && (d.timers.idleEligible && !c.timers.idleEligible ==> !Own(f, c.me) && c.cargo.cursor < FrameSequence(f))
      && SameTokens(c, d)
  {
  }

  predicate SameTokens(c: Client, d: Client) {
    && d.me == c.me && d.stopped == c.stopped
    && d.agent.tokenQueued == c.agent.tokenQueued && d.agent.abortRequested == c.agent.abortRequested
  }

  /** A whisper beyond a gap proves itself: it is someone else's and not read. */
  lemma FrameKeeps(w: World, s: nat)
    requires Disciplined(w)
    ensures Disciplined(FrameStep(w, s))
  {
    if !w.c.stopped && 1 <= s <= |w.log| {
      var f := FrameAt(w.log, s, w.c.me);
      ProjectionHidesWhispers(w.log[s - 1], Some(w.c.me));
      if f.Full? {
        WhisperNeedsOther(w.c, f);
      }
    }
  }

  /** The idle window spends its eligibility; only an eligible one can queue a token. */
  lemma IdleSpendsEligibility(c: Client, tokenSent: bool)
    requires c.timers.idleWindow
    ensures
      var d := IdleWindowFires(c, tokenSent);
      && !d.timers.idleEligible
      && d.me == c.me && d.stopped == c.stopped && d.agent.abortRequested == c.agent.abortRequested
      && (d.agent.tokenQueued && !c.agent.tokenQueued ==> c.timers.idleEligible)
  {
  }

  lemma IdleKeeps(w: World, tokenSent: bool)
    requires Disciplined(w)
    ensures Disciplined(IdleStep(w, tokenSent))
  {
    if w.c.timers.idleWindow {
      IdleSpendsEligibility(w.c, tokenSent);
    }
  }

  /** A settle that reaches the input takes the tokens, and only them. */
  predicate TokensTaken(c: Client, d: Client) {
    && d.me == c.me && d.stopped == c.stopped && d.timers.idleEligible == c.timers.idleEligible
    && !d.agent.tokenQueued && !d.agent.abortRequested
  }

  lemma SettleTakesTokens(c: Client)
    ensures c.agent.wedgedSettled || c.stopped ==> SameMarks(c, SettleRun(c))
    ensures !c.agent.wedgedSettled && !c.stopped ==> TokensTaken(c, SettleRun(c))
  {
  }

  lemma WedgeTakesTokens(c: Client)
    ensures !c.agent.active || c.stopped ==> SameMarks(c, RunWedged(c))
    ensures c.agent.active && !c.stopped ==> TokensTaken(c, RunWedged(c))
  {
  }

  lemma SettleKeeps(w: World)
    requires Disciplined(w)
    ensures Disciplined(SettleStep(w))
  {
    SettleTakesTokens(w.c);
  }

  lemma WedgeKeeps(w: World)
    requires Disciplined(w)
    ensures Disciplined(WedgeStep(w))
  {
    WedgeTakesTokens(w.c);
  }

  lemma BoundaryKeeps(w: World)
    requires Disciplined(w)
    ensures Disciplined(BoundaryStep(w))
  {
  }

  lemma LeaveKeeps(w: World)
    requires Disciplined(w)
    ensures Disciplined(LeaveStep(w))
  {
  }

  lemma ReloadKeeps(w: World)
    requires Disciplined(w)
    ensures Disciplined(ReloadStep(w))
  {
  }

  lemma RejoinKeeps(w: World, me: string, known: set<nat>)
    requires Disciplined(w)
    ensures Disciplined(RejoinStep(w, me, known))
  {
  }

  lemma LifeEventKeeps(w: World, e: Event)
    requires Disciplined(w) && LifeEvent(e)
    ensures Disciplined(Step(w, e))
  {
    match e
    case Leaves => LeaveKeeps(w);
    case Reloads => ReloadKeeps(w);
    case Rejoins(me, known) => RejoinKeeps(w, me, known);
  }

  /** Neither tokens nor eligibility change. */
  predicate SameMarks(c: Client, d: Client) {
    SameTokens(c, d) && d.timers.idleEligible == c.timers.idleEligible
  }

  lemma FlowKeepsMarks(c: Client, i: Item, page: FetchPage, b: Batch, flag: bool)
    ensures SameMarks(c, OnItem(c, i))
    ensures SameMarks(c, PageArrives(c, page, flag))
    ensures SameMarks(c, ConfirmBatchConsumed(c, b, flag))
  {
  }

  lemma TimersKeepMarks(c: Client)
    ensures SameMarks(c, DebounceFires(c))
    ensures SameMarks(c, DeliveryWindowFires(c))
    ensures SameMarks(c, FetchFails(c))
    ensures SameMarks(c, PullResumes(c))
    ensures SameMarks(c, AgentStarts(c))
    ensures SameMarks(c, MarkIncrementPending(c))
  {
  }

  lemma FlushesKeepMarks(c: Client, accepted: bool)
    ensures SameMarks(c, StartFlush(c))
    ensures SameMarks(c, FinishFlush(c, accepted))
  {
  }

  /** The books about proofs are as before, and so is the log, but for a message more. */
  ghost predicate SameProofs(w: World, v: World) {
    && v.ledger.idleProof == w.ledger.idleProof && v.ledger.tokenProof == w.ledger.tokenProof
    && v.ledger.aborts == w.ledger.aborts && w.log <= v.log && (GaplessLog(w.log) ==> GaplessLog(v.log))
  }

  lemma MarklessKeeps(w: World, v: World)
    requires Disciplined(w) && SameMarks(w.c, v.c) && SameProofs(w, v)
    ensures Disciplined(v)
  {
  }

  lemma NoticeKeeps(w: World, item: Item)
    requires Disciplined(w)
    ensures Disciplined(NoticeStep(w, item))
  {
    FlowKeepsMarks(w.c, item, FetchPage([], 0, 0), Batch([], None, None), true);
    MarklessKeeps(w, NoticeStep(w, item));
  }

  lemma ReplyKeeps(w: World, n: nat, window: nat, written: bool)
    requires Disciplined(w)
    ensures Disciplined(ReplyStep(w, n, window, written))
  {
    if Replies(w, n) {
      FlowKeepsMarks(w.c, Welcome(0), PageAt(w.log, n, w.c.pull.since, window, w.c.me), Batch([], None, None), written);
      MarklessKeeps(w, ReplyStep(w, n, window, written));
    }
  }

  lemma ConsumeKeeps(w: World, i: nat, written: bool)
    requires Disciplined(w)
    ensures Disciplined(ConsumeStep(w, i, written))
  {
    if i < |w.pi| {
      ForeignKeeps(w, w.pi[i], written);
    }
  }

  lemma DropKeeps(w: World, i: nat)
    requires Disciplined(w)
    ensures Disciplined(DropStep(w, i))
  {
  }

  lemma ForeignKeeps(w: World, b: Batch, written: bool)
    requires Disciplined(w)
    ensures Disciplined(ForeignStep(w, b, written))
  {
    FlowKeepsMarks(w.c, Welcome(0), FetchPage([], 0, 0), b, written);
  }

  lemma FlushStartKeeps(w: World)
    requires Disciplined(w)
    ensures Disciplined(FlushStep(w))
  {
    FlushesKeepMarks(w.c, true);
    MarklessKeeps(w, FlushStep(w));
  }

  lemma FlushEndKeeps(w: World, accepted: bool)
    requires Disciplined(w)
    ensures Disciplined(FlushEndStep(w, accepted))
  {
    FlushesKeepMarks(w.c, accepted);
    MarklessKeeps(w, FlushEndStep(w, accepted));
  }

  lemma TimersKeep(w: World)
    requires Disciplined(w)
    ensures Disciplined(DebounceStep(w)) && Disciplined(DeliveryWindowStep(w))
    ensures Disciplined(BreakStep(w)) && Disciplined(GoOnStep(w))
  {
    TimersKeepMarks(w.c);
    MarklessKeeps(w, DebounceStep(w));
    MarklessKeeps(w, DeliveryWindowStep(w));
    MarklessKeeps(w, BreakStep(w));
    MarklessKeeps(w, GoOnStep(w));
  }

  lemma RunKeeps(w: World)
    requires Disciplined(w)
    ensures Disciplined(RunStartStep(w)) && Disciplined(MarkStep(w))
  {
    TimersKeepMarks(w.c);
    MarklessKeeps(w, RunStartStep(w));
    MarklessKeeps(w, MarkStep(w));
  }

  lemma PublishKeeps(w: World, m: Message)
    requires Disciplined(w)
    ensures Disciplined(PublishStep(w, m))
  {
    MarklessKeeps(w, PublishStep(w, m));
  }

  lemma TimerEventKeeps(w: World, e: Event)
    requires Disciplined(w) && TimerEvent(e)
    ensures Disciplined(Step(w, e))
  {
    match e
    case IdleWindowElapses(tokenSent) => IdleKeeps(w, tokenSent);
    case DeliveryWindowElapses => TimersKeep(w);
    case FetchBreaks => TimersKeep(w);
    case PullGoesOn => TimersKeep(w);
  }

  lemma AgentEventKeeps(w: World, e: Event)
    requires Disciplined(w) && AgentEvent(e)
    ensures Disciplined(Step(w, e))
  {
    match e
    case RunStarts => RunKeeps(w);
    case RunSettles => SettleKeeps(w);
    case RunWedges => WedgeKeeps(w);
    case Boundary => BoundaryKeeps(w);
    case MarkedPending => RunKeeps(w);
  }

  lemma BatchEventKeeps(w: World, e: Event)
    requires Disciplined(w) && BatchEvent(e)
    ensures Disciplined(Step(w, e))
  {
    match e
    case FlushStarts => FlushStartKeeps(w);
    case FlushEnds(accepted) => FlushEndKeeps(w, accepted);
    case PiConsumes(i, written) => ConsumeKeeps(w, i, written);
    case PiDrops(i) => DropKeeps(w, i);
    case ForeignBatch(b, written) => ForeignKeeps(w, b, written);
  }

  lemma IncomingEventKeeps(w: World, e: Event)
    requires Disciplined(w) && IncomingEvent(e)
    ensures Disciplined(Step(w, e))
  {
    match e
    case Publish(m) => PublishKeeps(w, m);
    case UpdateArrives(n, tokenSent) => UpdateKeeps(w, n, tokenSent);
    case FrameArrives(s) => FrameKeeps(w, s);
    case NoticeArrives(item) => NoticeKeeps(w, item);
    case DebounceElapses => TimersKeep(w);
    case FetchReplies(n, window, written) => ReplyKeeps(w, n, window, written);
  }

  lemma StepKeeps(w: World, e: Event)
    requires Disciplined(w)
    ensures Disciplined(Step(w, e))
  {
    if TimerEvent(e) {
      TimerEventKeeps(w, e);
    } else if AgentEvent(e) {
      AgentEventKeeps(w, e);
    } else if LifeEvent(e) {
      LifeEventKeeps(w, e);
    } else if BatchEvent(e) {
      BatchEventKeeps(w, e);
    } else {
      IncomingEventKeeps(w, e);
    }
  }

  lemma {:induction false} AlwaysDisciplined(log: seq<Message>, me: string, preset: nat, es: seq<Event>)
    requires GaplessLog(log)
    ensures Disciplined(Run(Start(log, me, preset), es))
    decreases |es|
  {
    if es != [] {
      AlwaysDisciplined(log, me, preset, es[..|es| - 1]);
      StepKeeps(Run(Start(log, me, preset), es[..|es| - 1]), es[|es| - 1]);
    }
  }

  /**
    At most one abort between two settles, and the token that asks for it was
    queued since the last of them, on proof of someone else's unread message.
    */
  lemma {:induction false} AbortsAreRareAndProven(log: seq<Message>, me: string, preset: nat, es: seq<Event>)
    requires GaplessLog(log)
    ensures
      var w := Run(Start(log, me, preset), es);
      && w.ledger.aborts <= 1
      && (TokenFires(w.c) ==> w.ledger.aborts == 0 && Proven(w.log, w.c.me, w.ledger.tokenProof))
  {
    AlwaysDisciplined(log, me, preset, es);
  }

  /** A settle takes every token with it; only a later notification can queue another. */
  lemma SettleEndsTokens(w: World)
    requires Disciplined(w) && !w.c.stopped && !w.c.agent.wedgedSettled
    ensures
      var v := SettleStep(w);
      && !TokenFires(v.c) && !v.c.agent.tokenQueued && !v.c.agent.abortRequested
      && v.ledger.tokenProof.None? && v.ledger.aborts == 0
  {
  }

  // ----- the abort does come -----

  /** A notification during a run that proves an unread message by someone else marks the run and queues the token. */
  lemma ExternalQueuesToken(w: World, n: nat)
    requires !w.c.stopped && n <= |w.log| && w.c.agent.active
    requires !w.c.agent.tokenQueued && !w.c.agent.abortRequested
    requires UpdateAt(w.log, n).latest > w.c.cargo.cursor
    requires ClassifySelfPreview(UpdateAt(w.log, n), w.c.cargo.cursor, w.c.me).External?
    ensures
      var v := UpdateStep(w, n, true);
      && v.c.agent == w.c.agent.(tokenQueued := true, incrementPending := true)
      && v.c.timers == w.c.timers.(deliveryWindow := true)
      && v.c.cargo == w.c.cargo && v.c.pull == w.c.pull && v.ledger.aborts == w.ledger.aborts && !v.c.stopped
  {
  }

  /** The next boundary asks for the abort, and no later one does before the settle. */
  lemma BoundaryAborts(v: World)
    requires !v.c.stopped && v.c.agent.active && v.c.agent.incrementPending
    requires v.c.agent.tokenQueued && !v.c.agent.abortRequested
    ensures
      var u := BoundaryStep(v);
      && u.ledger.aborts == v.ledger.aborts + 1
      && u.c.agent == v.c.agent.(tokenQueued := false, abortRequested := true)
      && BoundaryStep(u) == u
  {
  }

  /**
    An external notification stops the run it comes in: the next boundary aborts, the
    one after it does not, and the settle that follows fetches from the cursor.
    */
  lemma ExternalAborts(w: World, n: nat)
    requires !w.c.stopped && n <= |w.log| && w.c.agent.active && !w.c.agent.wedgedSettled && w.c.pull == Resting
    requires !w.c.agent.tokenQueued && !w.c.agent.abortRequested
    requires UpdateAt(w.log, n).latest > w.c.cargo.cursor
    requires ClassifySelfPreview(UpdateAt(w.log, n), w.c.cargo.cursor, w.c.me).External?
    ensures
      var v := BoundaryStep(UpdateStep(w, n, true));
      && v.ledger.aborts == w.ledger.aborts + 1 && BoundaryStep(v) == v
      && SettleStep(v).c.pull == Fetching(w.c.cargo.cursor) && SettleStep(v).sent == |w.log|
      && !SettleStep(v).c.agent.incrementPending && !SettleStep(v).c.agent.active
  {
    ExternalQueuesToken(w, n);
    BoundaryAborts(UpdateStep(w, n, true));
    SettleFetches(BoundaryStep(UpdateStep(w, n, true)));
  }

  /** A settle with something waiting fetches from the cursor. */
  lemma SettleFetches(v: World)
    requires !v.c.stopped && !v.c.agent.wedgedSettled && v.c.agent.incrementPending && v.c.pull == Resting
    ensures
      var u := SettleStep(v);
      && u.c.pull == Fetching(v.c.cargo.cursor) && u.sent == |v.log|
      && !u.c.agent.incrementPending && !u.c.agent.active
  {
  }

  /** Without a token that pi took, or with the mark alone, no boundary aborts. */
  lemma BoundaryAbortsIff(w: World)
    ensures
      BoundaryStep(w).ledger.aborts == w.ledger.aborts + 1
      <==> && !w.c.stopped && w.c.agent.active && w.c.agent.incrementPending
           && w.c.agent.tokenQueued && !w.c.agent.abortRequested
    ensures BoundaryStep(w).ledger.aborts != w.ledger.aborts + 1 ==> BoundaryStep(w) == w
  {
  }

  /** A window that ends during a run marks it, with the token only if the window was eligible and pi took it. */
  lemma WindowDuringRun(w: World, sent: bool)
    requires !w.c.stopped && w.c.agent.active && w.c.timers.idleWindow
    requires !w.c.agent.tokenQueued && !w.c.agent.abortRequested
    ensures
      var v := IdleStep(w, sent);
      && v.c.agent == w.c.agent.(incrementPending := true, tokenQueued := w.c.timers.idleEligible && sent)
      && v.c.timers == w.c.timers.(idleWindow := false, idleEligible := false)
      && v.c.pull == w.c.pull
  {
  }

  /** One that ends outside a run fetches. */
  lemma WindowOutsideRun(w: World, sent: bool)
    requires !w.c.stopped && !w.c.agent.active && w.c.timers.idleWindow && w.c.pull == Resting
    ensures
      var v := IdleStep(w, sent);
      v.c.pull == Fetching(w.c.cargo.cursor) && v.sent == |w.log| && !v.c.timers.idleWindow && v.c.agent == w.c.agent
  {
  }
}
