/**
  The other side of safety: one undisturbed pull, from its fetch to the moment pi
  puts its batch before the agent, brings the client up to the end of the log.
  And where a skip cannot happen at all: as long as pi refuses no batch and the
  session stays with one chat and one character.
  */
module CatchUp {
  import opened Common
  import opened Messages
  import opened Preview
  import opened Delivery
  import opened DeliveryWorld
  import opened Coverage
  import opened NoSkip
  import Triggers

  /** A fetch from the cursor is on its way and nothing else is. */
  predicate OnlyFetching(w: World) {
    && !w.c.stopped
    && w.c.pull == Fetching(w.c.cargo.cursor)
    && !w.c.refetch
    && w.c.cargo.jobs == [] && w.c.cargo.running == None && w.c.cargo.retry == None
    && w.sent <= |w.log|
  }

  /** What a fetch from the cursor brings when it is answered now. */
  function LastPage(w: World, window: nat): seq<Item> {
    PageItems(PageAt(w.log, |w.log|, w.c.cargo.cursor, window, w.c.me).messages, w.c.me)
  }

  lemma LastPageEnds(w: World, window: nat)
    requires GaplessLog(w.log)
    ensures forall s | s in Sequences(LastPage(w, window)) :: s <= |w.log|
    ensures w.log != [] ==> PageAt(w.log, |w.log|, w.c.cargo.cursor, window, w.c.me).latest == |w.log|
  {
    var start := Max(0, w.c.cargo.cursor - window);
    assert w.log[..|w.log|] == w.log;
    assert LastPage(w, window) == PageItems(FetchMessagesSince(w.log, start, Some(w.c.me)).messages, w.c.me);
    PageIsComplete(w.log, start, w.c.me);
  }

  /** A pull's flush that starts on its own carries the page's watermark and claims everything above the cursor. */
  lemma PulledFlight(c: Client, items: seq<Item>, latest: nat)
    requires !c.stopped && c.cargo.running == None && c.cargo.retry == None && c.cargo.jobs == [Deliver(items, latest)]
    requires exists s :: s in Sequences(items) && s > c.cargo.cursor
    requires latest > c.cargo.cursor
    ensures
      var d := StartFlush(c);
      && !d.stopped && d.pull == c.pull && d.cargo.cursor == c.cargo.cursor && d.cargo.running.Some?
      && d.cargo.running.value.batch.coverage == Some(c.cargo.cursor)
      && d.cargo.running.value.batch.latest == Some(latest)
  {
    FreshKeeps(items, c.cargo.cursor, c.cargo.pullWindow, {});
    var s :| s in Sequences(items) && s > c.cargo.cursor;
    assert s in Sequences(Prepared(c.cargo, Deliver(items, latest)).items);
  }

  /** What the reply leaves to be flushed. */
  lemma ReplyQueues(w: World, window: nat, written: bool)
    requires Inv(w) && OnlyFetching(w) && AnyUnread(LastPage(w, window), w.c.cargo.cursor)
    ensures
      var v := ReplyStep(w, |w.log|, window, written);
      var k := v.c.cargo;
      && v.pi == w.pi && v.log == w.log && !v.c.stopped && v.c.pull == Handing
      && k.cursor == w.c.cargo.cursor < |w.log| && k.running == None && k.retry == None
      && k.jobs == [Deliver(w.c.cargo.pending + LastPage(w, window), |w.log|)]
  {
    LastPageEnds(w, window);
    var s :| s in Sequences(LastPage(w, window)) && s > w.c.cargo.cursor;
    assert s <= |w.log|;
  }

  /** The batch the reply turns into, once its flush has started. */
  lemma ReplyBecomesBatch(w: World, window: nat, written: bool)
    requires Inv(w) && OnlyFetching(w) && AnyUnread(LastPage(w, window), w.c.cargo.cursor)
    ensures
      var v := FlushStep(ReplyStep(w, |w.log|, window, written));
      && v.pi == w.pi && !v.c.stopped && v.c.cargo.cursor == w.c.cargo.cursor < |w.log| && StateReplies(v)
      && v.c.cargo.running.Some?
      && v.c.cargo.running.value.batch.coverage == Some(w.c.cargo.cursor)
      && v.c.cargo.running.value.batch.latest == Some(|w.log|)
  {
    ReplyQueues(w, window, written);
    SequencesConcat(w.c.cargo.pending, LastPage(w, window));
    PulledFlight(ReplyStep(w, |w.log|, window, written).c, w.c.cargo.pending + LastPage(w, window), |w.log|);
  }

  /** Context the page brings is delivered with what is new, though it was read before. */
  lemma PullBringsContext(w: World, window: nat, written: bool)
    requires Inv(w) && OnlyFetching(w) && AnyUnread(LastPage(w, window), w.c.cargo.cursor)
    requires w.c.cargo.pending == [] && w.c.cargo.pullWindow == {}
    ensures
      var v := FlushStep(ReplyStep(w, |w.log|, window, written));
      v.c.cargo.running.Some?
      && Sequences(v.c.cargo.running.value.batch.items) == Sequences(LastPage(w, window))
  {
    var items := LastPage(w, window);
    var u := ReplyStep(w, |w.log|, window, written);
    ReplyQueues(w, window, written);
    ReplyBecomesBatch(w, window, written);
    ReplyWindow(w, window, written);
    assert [] + items == items;
    ContextIsKept(u.c.cargo, items, |w.log|);
  }

  lemma ReplyWindow(w: World, window: nat, written: bool)
    requires OnlyFetching(w) && w.arrived <= |w.log| && AnyUnread(LastPage(w, window), w.c.cargo.cursor)
    requires w.c.cargo.pullWindow == {}
    ensures ReplyStep(w, |w.log|, window, written).c.cargo.pullWindow
            == WindowSequences(LastPage(w, window), w.c.cargo.cursor)
  {
  }

  lemma ContextIsKept(k: Cargo, items: seq<Item>, latest: nat)
    requires k.retry.None? && k.pullWindow == WindowSequences(items, k.cursor)
    ensures Sequences(Prepared(k, Deliver(items, latest)).items) == Sequences(items)
  {
    FreshKeeps(items, k.cursor, k.pullWindow, {});
  }

  lemma BatchMovesCursor(v: World, b: Batch, written: bool)
    requires v.c.cargo.running.Some? && v.c.cargo.running.value.batch == b && !v.c.stopped && StateReplies(v)
    requires b.coverage.Some? && b.latest.Some?
    requires b.coverage.value <= v.c.cargo.cursor < b.latest.value
    ensures ConsumeStep(FlushEndStep(v, true), |v.pi|, written).c.cargo.cursor == b.latest.value
  {
  }

  /** The steps of an undisturbed pull; a reply without anything unread needs only the first. */
  function Cycle(w: World, window: nat, written: bool): World {
    var replied := ReplyStep(w, |w.log|, window, written);
    if replied.c.cargo.jobs == [] then replied
    else ConsumeStep(FlushEndStep(FlushStep(replied), true), |w.pi|, written)
  }

  /** A page without anything unread moves the cursor by itself. */
  lemma ReadPageMovesCursor(c: Client, page: FetchPage, written: bool)
    requires c.pull.Fetching? && !c.stopped && !AnyUnread(PageItems(page.messages, c.me), c.pull.since)
    ensures
      var d := PageArrives(c, page, written);
      && d.cargo.jobs == c.cargo.jobs
      && d.cargo.cursor == if page.messages != [] then page.latest else c.cargo.cursor
  {
  }

  lemma EmptyPageAtEnd(w: World, window: nat)
    requires Inv(w)
    ensures
      var page := PageAt(w.log, |w.log|, w.c.cargo.cursor, window, w.c.me);
      if page.messages != [] then page.latest == |w.log| else w.c.cargo.cursor == |w.log|
  {
    assert w.log[..|w.log|] == w.log;
    PageIsComplete(w.log, Max(0, w.c.cargo.cursor - window), w.c.me);
  }

  lemma ReplyIsPage(w: World, window: nat, written: bool)
    requires OnlyFetching(w) && w.arrived <= |w.log|
    ensures
      var v := ReplyStep(w, |w.log|, window, written);
      && v.c == PageArrives(w.c, PageAt(w.log, |w.log|, w.c.cargo.cursor, window, w.c.me), written)
      && v.log == w.log
  {
  }

  /** A reply without anything unread moves the cursor to the end by itself. */
  lemma NothingUnreadCatchesUp(w: World, window: nat, written: bool)
    requires Inv(w) && OnlyFetching(w)
    requires !AnyUnread(LastPage(w, window), w.c.cargo.cursor)
    ensures
      var v := ReplyStep(w, |w.log|, window, written);
      v.c.cargo.cursor == |w.log| && v.c.cargo.jobs == [] && v.log == w.log
  {
    EmptyPageAtEnd(w, window);
    ReplyIsPage(w, window, written);
    ReadPageMovesCursor(w.c, PageAt(w.log, |w.log|, w.c.cargo.cursor, window, w.c.me), written);
  }

  lemma CursorAtEnd(v: World, n: nat)
    requires Inv(v) && v.c.cargo.cursor == n
    ensures ReadUpTo(GroundOf(v), n)
  {
  }

  lemma SameLog(w: World, written: bool, i: nat)
    ensures FlushStep(w).log == w.log && FlushEndStep(w, true).log == w.log && ConsumeStep(w, i, written).log == w.log
  {
  }

  /** After an undisturbed pull the cursor is at the end of the log and nothing there is unread. */
  lemma OneCycleCatchesUp(w: World, window: nat, written: bool)
    requires Inv(w) && OnlyFetching(w)
    ensures
      var v := Cycle(w, window, written);
      v.log == w.log && v.c.cargo.cursor == |w.log| && ReadUpTo(GroundOf(v), |w.log|)
  {
    var n := |w.log|;
    var w1 := ReplyStep(w, n, window, written);
    ReplyKeeps(w, n, window, written);
    if AnyUnread(LastPage(w, window), w.c.cargo.cursor) {
      ReplyQueues(w, window, written);
      ReplyBecomesBatch(w, window, written);
      var w2 := FlushStep(w1);
      FlushStartKeeps(w1);
      BatchMovesCursor(w2, w2.c.cargo.running.value.batch, written);
      var w3 := FlushEndStep(w2, true);
      FlushEndKeeps(w2, true);
      ConsumeKeeps(w3, |w.pi|, written);
      SameLog(w1, written, 0);
      SameLog(w2, written, 0);
      SameLog(w3, written, |w.pi|);
      CursorAtEnd(ConsumeStep(w3, |w.pi|, written), n);
    } else {
      NothingUnreadCatchesUp(w, window, written);
      CursorAtEnd(w1, n);
    }
  }

  // ----- live frames -----

  /** Everything pending carries its text, and above the cursor it is exactly the numbers up to `hi`. */
  ghost predicate Gapless(c: Client, hi: nat) {
    && TextOnly(c.cargo.pending) && c.cargo.pullWindow == {}
    && c.cargo.cursor < hi
    && forall n: nat :: n > c.cargo.cursor ==> (n in Sequences(c.cargo.pending) <==> n <= hi)
  }

  lemma GaplessFresh(c: Client, hi: nat)
    requires Gapless(c, hi) && c.cargo.retry.None?
    ensures
      var b := Prepared(c.cargo, Drain);
      b.items != [] && b.coverage == Some(c.cargo.cursor) && b.latest == Some(hi)
  {
    var k := c.cargo;
    var items := Fresh(k.pending, k.cursor, k.pullWindow, {});
    FreshKeeps(k.pending, k.cursor, k.pullWindow, {});
    InjectedWithin(items);
    IntervalFacts(k.cursor, hi);
    forall n ensures n in InjectedSequences(items) <==> n in Interval(k.cursor, hi) {
    }
    assert InjectedSequences(items) == Interval(k.cursor, hi);
    assert hi in Sequences(items);
    GaplessDeclares(items, k.cursor, hi);
  }

  /** Live frames without a gap, however many, move the cursor to the last of them without any pull. */
  lemma LiveBatchMovesCursor(w: World, hi: nat, written: bool)
    requires !w.c.stopped && w.c.cargo.running == None && w.c.cargo.retry == None && w.c.cargo.jobs == [Drain]
    requires Gapless(w.c, hi) && StateReplies(FlushStep(w))
    ensures
      var v := ConsumeStep(FlushEndStep(FlushStep(w), true), |w.pi|, written);
      v.c.cargo.cursor == hi && (written ==> v.c.cargo.file == hi)
      && v.consumed == w.consumed + Sequences(Fresh(w.c.cargo.pending, w.c.cargo.cursor, {}, {}))
  {
    GaplessFresh(w.c, hi);
    var v := FlushStep(w);
    assert v.c.cargo.running == Some(Flight(Prepared(w.c.cargo, Drain), false));
  }

  // ----- after a restart -----

  /**
    A reload during a run with something unread: the next runtime fetches at once,
    and undisturbed it comes to the end of the log.
    */
  lemma ReloadCatchesUp(w: World, window: nat, written: bool)
    requires Inv(w) && !w.c.stopped && w.c.agent.incrementPending
    ensures OnlyFetching(ReloadStep(w))
    ensures
      var v := Cycle(ReloadStep(w), window, written);
      v.log == w.log && v.c.cargo.cursor == |w.log| && ReadUpTo(GroundOf(v), |w.log|)
  {
    Triggers.ReloadFetches(w);
    ReloadKeeps(w);
    OneCycleCatchesUp(ReloadStep(w), window, written);
  }

  /** The same for joining again. */
  lemma RejoinCatchesUp(w: World, me: string, known: set<nat>, window: nat, written: bool)
    requires Inv(w) && w.c.stopped && SafeStep(w, Rejoins(me, known))
    ensures OnlyFetching(RejoinStep(w, me, known))
    ensures
      var v := Cycle(RejoinStep(w, me, known), window, written);
      v.log == w.log && v.c.cargo.cursor == |w.log| && ReadUpTo(GroundOf(v), |w.log|)
  {
    RejoinKeeps(w, me, known);
    OneCycleCatchesUp(RejoinStep(w, me, known), window, written);
  }

  // ----- one reader and no refusal, no skip -----

  /** The same character goes on, and no batch comes into the retry slot. */
  predicate Steady(c: Client, d: Client) {
    d.me == c.me && (c.cargo.retry.None? ==> d.cargo.retry.None?)
  }

  lemma FramesSteady(c: Client, f: Frame, i: Item)
    ensures Steady(c, OnFrame(c, f))
    ensures Steady(c, OnItem(c, i))
  {
  }

  lemma PageSteady(c: Client, page: FetchPage, written: bool)
    ensures Steady(c, PageArrives(c, page, written))
  {
  }

  lemma FlushesSteady(c: Client)
    ensures Steady(c, StartFlush(c))
    ensures Steady(c, FinishFlush(c, true))
  {
  }

  lemma FrameStepSteady(w: World, s: nat)
    ensures Steady(w.c, FrameStep(w, s).c)
  {
    if 1 <= s <= |w.log| {
      FramesSteady(w.c, FrameAt(w.log, s, w.c.me), Welcome(0));
    }
  }

  lemma UpdateStepSteady(w: World, n: nat, tokenSent: bool)
    ensures Steady(w.c, UpdateStep(w, n, tokenSent).c)
  {
    if n <= |w.log| {
      NotificationsCarryNothing(w.c, UpdateAt(w.log, n), tokenSent, 0);
    }
  }

  lemma ReplyStepSteady(w: World, n: nat, window: nat, written: bool)
    ensures Steady(w.c, ReplyStep(w, n, window, written).c)
  {
    if Replies(w, n) {
      PageSteady(w.c, PageAt(w.log, n, w.c.pull.since, window, w.c.me), written);
    }
  }

  lemma TimersSteady(c: Client, tokenSent: bool)
    ensures Steady(c, IdleWindowFires(c, tokenSent)) && Steady(c, DeliveryWindowFires(c))
    ensures Steady(c, FetchFails(c)) && Steady(c, PullResumes(c))
  {
    TimersCarryNothing(c, tokenSent);
  }

  lemma TimerStepSteady(w: World, e: Event)
    requires TimerEvent(e)
    ensures Steady(w.c, Step(w, e).c)
  {
    TimersSteady(w.c, if e.IdleWindowElapses? then e.tokenSent else true);
  }

  lemma AgentStepSteady(w: World, e: Event)
    requires AgentEvent(e)
    ensures Steady(w.c, Step(w, e).c)
  {
    AgentCarriesNothing(w.c);
  }

  lemma BatchStepSteady(w: World, e: Event)
    requires BatchEvent(e) && (e.FlushEnds? ==> e.accepted) && !e.ForeignBatch?
    ensures Steady(w.c, Step(w, e).c)
  {
    FlushesSteady(w.c);
  }

  lemma LifeStepSteady(w: World, e: Event)
    requires LifeEvent(e) && (e.Rejoins? ==> e.me == w.c.me)
    ensures Steady(w.c, Step(w, e).c)
  {
  }

  lemma IncomingStepSteady(w: World, e: Event)
    requires IncomingEvent(e)
    ensures Steady(w.c, Step(w, e).c)
  {
    match e
    case Publish(_) =>
    case UpdateArrives(n, tokenSent) => UpdateStepSteady(w, n, tokenSent);
    case FrameArrives(s) => FrameStepSteady(w, s);
    case NoticeArrives(item) => FramesSteady(w.c, Placeholder("", 0, "", UserPersona, Party("", "")), item);
    case DebounceElapses =>
    case FetchReplies(n, window, written) => ReplyStepSteady(w, n, window, written);
  }

  lemma StepSteady(w: World, e: Event)
    requires (e.FlushEnds? ==> e.accepted) && !e.ForeignBatch? && (e.Rejoins? ==> e.me == w.c.me)
    ensures Steady(w.c, Step(w, e).c)
  {
    if TimerEvent(e) {
      TimerStepSteady(w, e);
    } else if AgentEvent(e) {
      AgentStepSteady(w, e);
    } else if LifeEvent(e) {
      LifeStepSteady(w, e);
    } else if BatchEvent(e) {
      BatchStepSteady(w, e);
    } else {
      IncomingStepSteady(w, e);
    }
  }

  predicate NeverRefused(es: seq<Event>) {
    forall i :: 0 <= i < |es| ==> es[i].FlushEnds? ==> es[i].accepted
  }

  /** The session stays with one chat and one character, and its queue holds nothing else's batches. */
  predicate OneReader(es: seq<Event>, me: string) {
    forall i :: 0 <= i < |es| ==> !es[i].ForeignBatch? && (es[i].Rejoins? ==> es[i].me == me)
  }

  lemma {:induction false} AcceptedRunsAreSafe(log: seq<Message>, me: string, preset: nat, es: seq<Event>)
    requires GaplessLog(log) && preset <= |log| && NeverRefused(es) && OneReader(es, me)
    ensures SafeRun(Start(log, me, preset), es)
    ensures Steady(Start(log, me, preset).c, Run(Start(log, me, preset), es).c)
    decreases |es|
  {
    if es != [] {
      var w := Run(Start(log, me, preset), es[..|es| - 1]);
      AcceptedRunsAreSafe(log, me, preset, es[..|es| - 1]);
      AlwaysSound(log, me, preset, es[..|es| - 1]);
      StepSteady(w, es[|es| - 1]);
    }
  }

  /** Dropping and reordering alone skip nothing: among a reader's own batches only a refused one can, by its merge. */
  lemma {:induction false} NothingSkippedUnlessRefused(log: seq<Message>, me: string, preset: nat, es: seq<Event>,
                                                        s: nat)
    requires GaplessLog(log) && preset <= |log| && NeverRefused(es) && OneReader(es, me)
    ensures
      var w := Run(Start(log, me, preset), es);
      preset < s && (s <= w.c.cargo.cursor || s <= w.c.cargo.file) && ByOther(w.log, me, s) ==> s in w.consumed
  {
    AcceptedRunsAreSafe(log, me, preset, es);
    NothingSkipped(log, me, preset, es, s);
  }
}
