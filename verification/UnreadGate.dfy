/**
  What the client knows about unread messages when its agent wants to speak: in
  every reachable state the stored notification and placeholder watermark are
  true of the log, so the local gate counts and blocks soundly.
  */
module UnreadGate {
  import opened Common
  import opened Messages
  import opened Preview
  import opened Delivery
  import opened DeliveryWorld
  import Aborts
  import Heard

  ghost predicate Informed(w: World) {
    Knows(w.log, w.c.known, w.c.placeholder, w.c.me)
  }

  predicate SameKnowledge(c: Client, d: Client) {
    d.me == c.me && d.known == c.known && d.placeholder == c.placeholder
  }

  lemma TimersTeachNothing(c: Client, tokenSent: bool)
    ensures SameKnowledge(c, IdleWindowFires(c, tokenSent))
    ensures SameKnowledge(c, DeliveryWindowFires(c))
    ensures SameKnowledge(c, FetchFails(c))
    ensures SameKnowledge(c, PullResumes(c))
    ensures SameKnowledge(c, DebounceFires(c))
  {
  }

  lemma AgentTeachesNothing(c: Client)
    ensures SameKnowledge(c, SettleRun(c))
    ensures SameKnowledge(c, RunWedged(c))
    ensures SameKnowledge(c, AgentStarts(c))
    ensures SameKnowledge(c, ConsumeAbortToken(c))
    ensures SameKnowledge(c, MarkIncrementPending(c))
  {
  }

  lemma FlowTeachesNothing(c: Client, i: Item, page: FetchPage, b: Batch, flag: bool)
    ensures SameKnowledge(c, OnItem(c, i))
    ensures SameKnowledge(c, PageArrives(c, page, flag))
    ensures SameKnowledge(c, StartFlush(c))
    ensures SameKnowledge(c, FinishFlush(c, flag))
    ensures SameKnowledge(c, ConfirmBatchConsumed(c, b, flag))
  {
  }

  lemma WhispersTeachNothing(c: Client, f: Frame)
    requires f.Full?
    ensures SameKnowledge(c, OnFrame(c, f))
  {
  }

  lemma UpdateTeaches(c: Client, u: Update, tokenSent: bool)
    ensures
      var d := OnUpdate(c, u, tokenSent);
      d.known == Some(u) && d.placeholder == c.placeholder && d.me == c.me
  {
  }

  lemma UpdateInforms(w: World, n: nat, tokenSent: bool)
    requires Informed(w)
    ensures Informed(UpdateStep(w, n, tokenSent))
  {
    if !w.c.stopped && n <= |w.log| {
      Aborts.UpdateIsTruthful(w.log, n);
      UpdateTeaches(w.c, UpdateAt(w.log, n), tokenSent);
    }
  }

  lemma FrameInforms(w: World, s: nat)
    requires Informed(w)
    ensures Informed(FrameStep(w, s))
  {
    if !w.c.stopped && 1 <= s <= |w.log| {
      var f := FrameAt(w.log, s, w.c.me);
      ProjectionHidesWhispers(w.log[s - 1], Some(w.c.me));
      if f.Full? {
        WhispersTeachNothing(w.c, f);
      }
    }
  }

  lemma KnowsLater(log: seq<Message>, later: seq<Message>, known: Option<Update>, placeholder: nat, me: string)
    requires Knows(log, known, placeholder, me) && log <= later && GaplessLog(later)
    ensures Knows(later, known, placeholder, me)
  {
    if known.Some? {
      TruthfulLater(log, later, known.value);
    }
  }

  lemma PublishInforms(w: World, m: Message)
    requires Informed(w)
    ensures Informed(PublishStep(w, m))
  {
    var later := PublishStep(w, m).log;
    assert later == w.log + [m.(sequence := |w.log| + 1)];
    KnowsLater(w.log, later, w.c.known, w.c.placeholder, w.c.me);
  }

  lemma KeepsInformed(w: World, v: World)
    requires Informed(w) && SameKnowledge(w.c, v.c) && v.log == w.log
    ensures Informed(v)
  {
  }

  lemma NoticeInforms(w: World, item: Item)
    requires Informed(w)
    ensures Informed(NoticeStep(w, item))
  {
    FlowTeachesNothing(w.c, item, FetchPage([], 0, 0), Batch([], None, None), true);
    KeepsInformed(w, NoticeStep(w, item));
  }

  lemma ReplyInforms(w: World, n: nat, window: nat, written: bool)
    requires Informed(w)
    ensures Informed(ReplyStep(w, n, window, written))
  {
    if Replies(w, n) {
      FlowTeachesNothing(w.c, Welcome(0), PageAt(w.log, n, w.c.pull.since, window, w.c.me), Batch([], None, None),
                         written);
      KeepsInformed(w, ReplyStep(w, n, window, written));
    }
  }

  lemma FlushInforms(w: World, accepted: bool)
    requires Informed(w)
    ensures Informed(FlushStep(w)) && Informed(FlushEndStep(w, accepted))
  {
    FlowTeachesNothing(w.c, Welcome(0), FetchPage([], 0, 0), Batch([], None, None), accepted);
    KeepsInformed(w, FlushStep(w));
    KeepsInformed(w, FlushEndStep(w, accepted));
  }

  lemma BatchInforms(w: World, b: Batch, written: bool)
    requires Informed(w)
    ensures Informed(ForeignStep(w, b, written))
  {
    FlowTeachesNothing(w.c, Welcome(0), FetchPage([], 0, 0), b, written);
    KeepsInformed(w, ForeignStep(w, b, written));
  }

  lemma PiInforms(w: World, i: nat, written: bool)
    requires Informed(w)
    ensures Informed(ConsumeStep(w, i, written)) && Informed(DropStep(w, i))
  {
    if i < |w.pi| {
      BatchInforms(w, w.pi[i], written);
    }
  }

  lemma TimersInform(w: World, tokenSent: bool)
    requires Informed(w)
    ensures Informed(IdleStep(w, tokenSent)) && Informed(DeliveryWindowStep(w)) && Informed(DebounceStep(w))
    ensures Informed(BreakStep(w)) && Informed(GoOnStep(w))
  {
    TimersTeachNothing(w.c, tokenSent);
    KeepsInformed(w, IdleStep(w, tokenSent));
    KeepsInformed(w, DeliveryWindowStep(w));
    KeepsInformed(w, DebounceStep(w));
    KeepsInformed(w, BreakStep(w));
    KeepsInformed(w, GoOnStep(w));
  }

  lemma AgentInforms(w: World)
    requires Informed(w)
    ensures Informed(RunStartStep(w)) && Informed(SettleStep(w)) && Informed(WedgeStep(w))
    ensures Informed(BoundaryStep(w)) && Informed(MarkStep(w))
  {
    AgentTeachesNothing(w.c);
    KeepsInformed(w, RunStartStep(w));
    KeepsInformed(w, SettleStep(w));
    KeepsInformed(w, WedgeStep(w));
    KeepsInformed(w, BoundaryStep(w));
    KeepsInformed(w, MarkStep(w));
  }

  lemma TimerEventInforms(w: World, e: Event)
    requires Informed(w) && TimerEvent(e)
    ensures Informed(Step(w, e))
  {
    match e
    case IdleWindowElapses(tokenSent) => TimersInform(w, tokenSent);
    case DeliveryWindowElapses => TimersInform(w, true);
    case FetchBreaks => TimersInform(w, true);
    case PullGoesOn => TimersInform(w, true);
  }

  lemma AgentEventInforms(w: World, e: Event)
    requires Informed(w) && AgentEvent(e)
    ensures Informed(Step(w, e))
  {
    AgentInforms(w);
  }

  lemma LifeInforms(w: World, e: Event)
    requires Informed(w) && LifeEvent(e)
    ensures Informed(Step(w, e))
  {
  }

  lemma BatchEventInforms(w: World, e: Event)
    requires Informed(w) && BatchEvent(e)
    ensures Informed(Step(w, e))
  {
    match e
    case FlushStarts => FlushInforms(w, true);
    case FlushEnds(accepted) => FlushInforms(w, accepted);
    case PiConsumes(i, written) => PiInforms(w, i, written);
    case PiDrops(i) => PiInforms(w, i, true);
    case ForeignBatch(b, written) => BatchInforms(w, b, written);
  }

  lemma IncomingInforms(w: World, e: Event)
    requires Informed(w) && IncomingEvent(e)
    ensures Informed(Step(w, e))
  {
    match e
    case Publish(m) => PublishInforms(w, m);
    case UpdateArrives(n, tokenSent) => UpdateInforms(w, n, tokenSent);
    case FrameArrives(s) => FrameInforms(w, s);
    case NoticeArrives(item) => NoticeInforms(w, item);
    case DebounceElapses => TimersInform(w, true);
    case FetchReplies(n, window, written) => ReplyInforms(w, n, window, written);
  }

  lemma StepInforms(w: World, e: Event)
    requires Informed(w)
    ensures Informed(Step(w, e))
  {
    if TimerEvent(e) {
      TimerEventInforms(w, e);
    } else if AgentEvent(e) {
      AgentEventInforms(w, e);
    } else if LifeEvent(e) {
      LifeInforms(w, e);
    } else if BatchEvent(e) {
      BatchEventInforms(w, e);
    } else {
      IncomingInforms(w, e);
    }
  }

  lemma {:induction false} AlwaysInformed(log: seq<Message>, me: string, preset: nat, es: seq<Event>)
    requires GaplessLog(log)
    ensures Informed(Run(Start(log, me, preset), es))
    decreases |es|
  {
    if es != [] {
      AlwaysInformed(log, me, preset, es[..|es| - 1]);
      StepInforms(Run(Start(log, me, preset), es[..|es| - 1]), es[|es| - 1]);
    }
  }

  /** The gate of a reachable client. */
  function Gate(c: Client): Option<Unread> {
    UnreadOthersProven(c.known, c.placeholder, c.cargo.cursor, c.me)
  }

  /** In every reachable state the gate never counts too much, and counts exactly whenever it says so. */
  lemma {:induction false} GateCountsSoundly(log: seq<Message>, me: string, preset: nat, es: seq<Event>)
    requires GaplessLog(log)
    ensures
      var w := Run(Start(log, me, preset), es);
      var truth := UnreadByOthers(w.log, w.c.me, w.c.cargo.cursor, Watermark(w.c.known, w.c.placeholder));
      && (Gate(w.c).Some? ==> Gate(w.c).value.count <= |truth|)
      && (Gate(w.c).Some? && Gate(w.c).value.exact ==> Gate(w.c).value.count == |truth|)
      && (Gate(w.c).None? ==> truth == {})
  {
    var w := Run(Start(log, me, preset), es);
    AlwaysInformed(log, me, preset, es);
    UnreadCountIsSound(w.log, w.c.known, w.c.placeholder, w.c.cargo.cursor, w.c.me);
  }

  /** A blocked speak always has its cause in the log, or a cut preview with an own message in it. */
  lemma {:induction false} GateBlocksWithCause(log: seq<Message>, me: string, preset: nat, es: seq<Event>)
    requires GaplessLog(log)
    requires var c := Run(Start(log, me, preset), es).c; Gate(c).Some? && Gate(c).value.shouldBlock
    ensures
      var w := Run(Start(log, me, preset), es);
      && w.c.known.Some?
      && (PublicUnread(w.log, w.c.me, w.c.cargo.cursor, w.c.known.value.latest)
          || (!Gate(w.c).value.exact && AnyOwn(Unseen(w.c.known.value.preview, w.c.cargo.cursor), w.c.me)))
  {
    var w := Run(Start(log, me, preset), es);
    AlwaysInformed(log, me, preset, es);
    BlockNeedsCause(w.log, w.c.known.value, w.c.placeholder, w.c.cargo.cursor, w.c.me);
  }

  /** In every reachable state the gate says "exact" exactly when nothing up to the watermark is unheard of. */
  lemma {:induction false} GateIsExactIff(log: seq<Message>, me: string, preset: nat, es: seq<Event>)
    requires GaplessLog(log)
    requires var c := Run(Start(log, me, preset), es).c; Watermark(c.known, c.placeholder) > c.cargo.cursor
    ensures
      var w := Run(Start(log, me, preset), es);
      && Gate(w.c).Some?
      && (Gate(w.c).value.exact <==> !Heard.Unheard(w.c.known, w.c.placeholder, w.c.cargo.cursor))
      && Gate(w.c).value.count
         == |Heard.HeardOthers(w.log, w.c.known, w.c.placeholder, w.c.cargo.cursor, w.c.me)|
  {
    var w := Run(Start(log, me, preset), es);
    AlwaysInformed(log, me, preset, es);
    Heard.ExactIff(w.log, w.c.known, w.c.placeholder, w.c.cargo.cursor, w.c.me);
    Heard.CountIs(w.log, w.c.known, w.c.placeholder, w.c.cargo.cursor, w.c.me);
  }

  /**
    The exact condition: a speak is blocked if and only if the newest notification
    shows an unread message by someone else, or shows an unread own one while of
    some number up to the watermark nothing was heard.
    */
  lemma {:induction false} GateBlocksIff(log: seq<Message>, me: string, preset: nat, es: seq<Event>)
    requires GaplessLog(log)
    ensures
      var c := Run(Start(log, me, preset), es).c;
      (Gate(c).Some? && Gate(c).value.shouldBlock) <==>
        (Heard.ShowsBy(c.known, c.cargo.cursor, c.me, false)
         || (Heard.ShowsBy(c.known, c.cargo.cursor, c.me, true)
             && Heard.Unheard(c.known, c.placeholder, c.cargo.cursor)))
  {
    var w := Run(Start(log, me, preset), es);
    AlwaysInformed(log, me, preset, es);
    if Watermark(w.c.known, w.c.placeholder) > w.c.cargo.cursor {
      Heard.BlockIff(w.log, w.c.known, w.c.placeholder, w.c.cargo.cursor, w.c.me);
    } else {
      Heard.NothingBeyondIff(w.c.known, w.c.placeholder, w.c.cargo.cursor, w.c.me);
    }
  }

  /** Own public messages alone, as many as a notification shows, never block the next speak. */
  lemma {:induction false} OwnEchoesLeaveGateOpen(log: seq<Message>, me: string, preset: nat, es: seq<Event>)
    requires GaplessLog(log)
    requires
      var w := Run(Start(log, me, preset), es);
      Heard.OnlyOwn(w.log, w.c.me, w.c.cargo.cursor, Watermark(w.c.known, w.c.placeholder))
    ensures
      var c := Run(Start(log, me, preset), es).c;
      Gate(c).Some? ==> Gate(c).value == Unread(false, 0, true)
  {
    var w := Run(Start(log, me, preset), es);
    AlwaysInformed(log, me, preset, es);
    if Watermark(w.c.known, w.c.placeholder) > w.c.cargo.cursor {
      Heard.OwnEchoesLeaveOpen(w.log, w.c.known, w.c.placeholder, w.c.cargo.cursor, w.c.me);
    } else {
      Heard.NothingBeyondIff(w.c.known, w.c.placeholder, w.c.cargo.cursor, w.c.me);
    }
  }
}
