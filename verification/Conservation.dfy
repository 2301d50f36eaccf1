/**
  Conservation of items: until the client stops, each item it has taken in, with
  or without a number, is in exactly one place or was handed to pi, unless the
  filter found it read already or repeated in its batch.
  */
module Conservation {
  import opened Common
  import opened Messages
  import opened Preview
  import opened Delivery
  import opened DeliveryWorld
  import opened Coverage

  function JobItems(jobs: seq<Job>): multiset<Item> {
    if jobs == [] then multiset{}
    else (if jobs[0].Deliver? then multiset(jobs[0].items) else multiset{}) + JobItems(jobs[1..])
  }

  function FlightItems(f: Option<Flight>): multiset<Item> {
    if f.Some? then multiset(f.value.batch.items) else multiset{}
  }

  function RetryItems(r: Option<Batch>): multiset<Item> {
    if r.Some? then multiset(r.value.items) else multiset{}
  }

  /** Everything still with the client. */
  function Held(k: Cargo): multiset<Item> {
    multiset(k.pending) + JobItems(k.jobs) + FlightItems(k.running) + RetryItems(k.retry)
  }

  predicate SlotFree(k: Cargo) {
    k.running.Some? ==> k.retry.None?
  }

  predicate Conserved(w: World) {
    !w.c.stopped ==>
      SlotFree(w.c.cargo) && w.ledger.accepted == Held(w.c.cargo) + w.ledger.handed + w.ledger.dropped
  }

  // ----- the filter -----

  lemma {:induction false} FilterSplits(items: seq<Item>, cursor: nat, window: set<nat>, taken: set<nat>)
    ensures multiset(Fresh(items, cursor, window, taken)) + multiset(Stale(items, cursor, window, taken))
            == multiset(items)
    decreases |items|
  {
    if items != [] {
      assert items == [items[0]] + items[1..];
      FilterSplits(items[1..], cursor, window, taken);
      if items[0].Chat? {
        FilterSplits(items[1..], cursor, window, taken + {SequenceOf(items[0])});
      }
    }
  }

  /** Only numbered items are dropped, and each was read before or is kept once in the same batch. */
  lemma {:induction false} DroppedWithReason(items: seq<Item>, cursor: nat, window: set<nat>, taken: set<nat>)
    ensures forall i | i in Stale(items, cursor, window, taken) ::
              i.Chat? && ((SequenceOf(i) <= cursor && SequenceOf(i) !in window)
                          || SequenceOf(i) in Sequences(Fresh(items, cursor, window, taken)) + taken)
    decreases |items|
  {
    if items != [] {
      var i := items[0];
      DroppedWithReason(items[1..], cursor, window, taken);
      if i.Chat? {
        var n := SequenceOf(i);
        DroppedWithReason(items[1..], cursor, window, taken + {n});
        SequencesConcat([i], Fresh(items[1..], cursor, window, taken + {n}));
        SequencesSingle(i);
      } else {
        SequencesConcat([i], Fresh(items[1..], cursor, window, taken));
      }
    }
  }

  lemma {:induction false} FreshPrefix(a: seq<Item>, b: seq<Item>, cursor: nat, window: set<nat>, taken: set<nat>)
    ensures Fresh(a, cursor, window, taken) <= Fresh(a + b, cursor, window, taken)
    decreases |a|
  {
    if a != [] {
      assert (a + b)[1..] == a[1..] + b;
      FreshPrefix(a[1..], b, cursor, window, taken);
      if a[0].Chat? {
        FreshPrefix(a[1..], b, cursor, window, taken + {SequenceOf(a[0])});
      }
    }
  }

  // ----- steps -----

  lemma {:induction false} JobItemsPush(jobs: seq<Job>, job: Job)
    ensures JobItems(jobs + [job]) == JobItems(jobs) + if job.Deliver? then multiset(job.items) else multiset{}
  {
    if jobs == [] {
      assert jobs + [job] == [job];
      assert [job][1..] == [];
    } else {
      assert (jobs + [job])[1..] == jobs[1..] + [job];
      JobItemsPush(jobs[1..], job);
    }
  }

  /** Taking up a job: what it gathers leaves its places. */
  lemma TakeJobSplits(k: Cargo)
    requires k.jobs != [] && k.running.None?
    ensures Held(k) == Held(TakeJob(k)) + multiset(Gathered(k, k.jobs[0]))
  {
    var job := k.jobs[0];
    if job.Deliver? && k.retry.Some? {
      assert multiset(k.retry.value.items + job.items) == multiset(k.retry.value.items) + multiset(job.items);
    }
  }

  lemma StartFlushCargo(c: Client)
    requires !c.stopped && c.cargo.running.None? && c.cargo.jobs != []
    ensures
      var k := c.cargo;
      var b := Prepared(k, k.jobs[0]);
      StartFlush(c).cargo
      == if b.items == [] then TakeJob(k)
         else TakeJob(k).(running := Some(Flight(b, k.jobs[0].Deliver?)))
  {
  }

  /** A flush that starts moves what it keeps into the flight and drops the rest. */
  lemma FlushHolds(c: Client)
    requires !c.stopped && c.cargo.running.None? && c.cargo.jobs != []
    ensures
      var k := c.cargo;
      Held(k) == Held(StartFlush(c).cargo) + multiset(Stale(Gathered(k, k.jobs[0]), k.cursor, k.pullWindow, {}))
  {
    var k := c.cargo;
    var job := k.jobs[0];
    var gathered, b := Gathered(k, job), Prepared(k, job);
    var dropped := Stale(gathered, k.cursor, k.pullWindow, {});
    StartFlushCargo(c);
    var held := Held(TakeJob(k));
    assert Held(k) == held + multiset(gathered) by { TakeJobSplits(k); }
    assert multiset(b.items) + multiset(dropped) == multiset(gathered) by {
      FilterSplits(gathered, k.cursor, k.pullWindow, {});
    }
    assert Held(StartFlush(c).cargo) == held + multiset(b.items) by {
      FlightHolds(TakeJob(k), b, job.Deliver?);
    }
  }

  lemma FlightHolds(k: Cargo, b: Batch, pulled: bool)
    requires k.running.None?
    ensures Held(k.(running := Some(Flight(b, pulled)))) == Held(k) + multiset(b.items)
  {
  }

  lemma Regroup(all: multiset<Item>, held: multiset<Item>, next: multiset<Item>,
                handed: multiset<Item>, dropped: multiset<Item>, moved: multiset<Item>)
    requires all == held + handed + dropped && held == next + moved
    ensures all == next + handed + (dropped + moved)
  {
  }

  lemma FlushStartConserves(w: World)
    requires Conserved(w)
    ensures Conserved(FlushStep(w))
  {
    var k, l := w.c.cargo, w.ledger;
    if !w.c.stopped && k.running.None? && k.jobs != [] {
      FlushHolds(w.c);
      var moved := multiset(Stale(Gathered(k, k.jobs[0]), k.cursor, k.pullWindow, {}));
      Regroup(l.accepted, Held(k), Held(StartFlush(w.c).cargo), l.handed, l.dropped, moved);
      assert StartFlush(w.c).cargo.retry.None?;
    }
  }

  lemma FinishCargo(c: Client, accepted: bool)
    requires c.cargo.running.Some?
    ensures
      var k, d := c.cargo, FinishFlush(c, accepted);
      && d.stopped == c.stopped
      && d.cargo == if c.stopped || accepted then k.(running := None)
                    else k.(running := None, retry := Some(k.running.value.batch))
  {
  }

  lemma LandedHolds(k: Cargo)
    requires k.running.Some? && k.retry.None?
    ensures Held(k) == Held(k.(running := None)) + multiset(k.running.value.batch.items)
    ensures Held(k.(running := None, retry := Some(k.running.value.batch))) == Held(k)
  {
  }

  lemma FlushEndConserves(w: World, accepted: bool)
    requires Conserved(w)
    ensures Conserved(FlushEndStep(w, accepted))
  {
    if !w.c.stopped && w.c.cargo.running.Some? {
      FinishCargo(w.c, accepted);
      LandedHolds(w.c.cargo);
    }
  }

  lemma QueueDeliverySplits(k: Cargo, items: seq<Item>, latest: nat, window: set<nat>)
    ensures Held(QueueDelivery(k, items, latest, window)) == Held(k) + multiset(items)
  {
    JobItemsPush(k.jobs, Deliver(k.pending + items, latest));
    assert multiset(k.pending + items) == multiset(k.pending) + multiset(items);
  }

  /** Only a page with something unread brings anything in. */
  lemma PageCargo(c: Client, page: FetchPage, written: bool)
    requires c.pull.Fetching?
    ensures
      var d, items := PageArrives(c, page, written), PageItems(page.messages, c.me);
      && d.stopped == c.stopped
      && (d.pull == Handing ==>
            d.cargo == QueueDelivery(c.cargo, items, page.latest, WindowSequences(items, c.pull.since)))
      && (d.pull != Handing ==> d.cargo == c.cargo.(cursor := d.cargo.cursor, file := d.cargo.file))
  {
  }

  lemma PageHolds(c: Client, page: FetchPage, written: bool)
    requires c.pull.Fetching?
    ensures
      var d := PageArrives(c, page, written);
      && Held(d.cargo)
         == Held(c.cargo) + (if d.pull == Handing then multiset(PageItems(page.messages, c.me)) else multiset{})
      && d.stopped == c.stopped && (SlotFree(c.cargo) ==> SlotFree(d.cargo))
  {
    var items := PageItems(page.messages, c.me);
    PageCargo(c, page, written);
    QueueDeliverySplits(c.cargo, items, page.latest, WindowSequences(items, c.pull.since));
  }

  lemma ReplyBooks(w: World, n: nat, window: nat, written: bool)
    requires Replies(w, n)
    ensures
      var page := PageAt(w.log, n, w.c.pull.since, window, w.c.me);
      var d, v := PageArrives(w.c, page, written), ReplyStep(w, n, window, written);
      && v.c == d && v.ledger.handed == w.ledger.handed && v.ledger.dropped == w.ledger.dropped
      && v.ledger.accepted
         == w.ledger.accepted + if d.pull == Handing then multiset(PageItems(page.messages, w.c.me)) else multiset{}
  {
  }

  lemma ReplyConserves(w: World, n: nat, window: nat, written: bool)
    requires Conserved(w)
    ensures Conserved(ReplyStep(w, n, window, written))
  {
    if Replies(w, n) {
      ReplyBooks(w, n, window, written);
      PageHolds(w.c, PageAt(w.log, n, w.c.pull.since, window, w.c.me), written);
    }
  }

  lemma TakeInHolds(k: Cargo, i: Item)
    ensures Held(k.(pending := k.pending + [i])) == Held(k) + multiset{i}
    ensures multiset((k.pending + [i])[|k.pending|..]) == multiset{i}
  {
    assert (k.pending + [i])[|k.pending|..] == [i];
  }

  lemma TakenIsNew(c: Client, d: Client, i: Item)
    ensures d.cargo.pending == c.cargo.pending ==> Taken(c, d) == multiset{}
    ensures d.cargo.pending == c.cargo.pending + [i] ==> Taken(c, d) == multiset{i}
  {
    assert c.cargo.pending[|c.cargo.pending|..] == [];
    assert (c.cargo.pending + [i])[|c.cargo.pending|..] == [i];
  }

  lemma FrameTakesInOne(c: Client, f: Frame, i: Item)
    ensures OnFrame(c, f).cargo == c.cargo || OnFrame(c, f).cargo == c.cargo.(pending := c.cargo.pending + [Chat(f)])
    ensures OnItem(c, i).cargo == c.cargo || OnItem(c, i).cargo == c.cargo.(pending := c.cargo.pending + [i])
    ensures OnFrame(c, f).stopped == c.stopped && OnItem(c, i).stopped == c.stopped
  {
  }

  lemma TakenHolds(c: Client, d: Client, i: Item)
    requires d.cargo == c.cargo || d.cargo == c.cargo.(pending := c.cargo.pending + [i])
    ensures Held(d.cargo) == Held(c.cargo) + Taken(c, d)
    ensures SlotFree(c.cargo) ==> SlotFree(d.cargo)
  {
    TakenIsNew(c, d, i);
    TakeInHolds(c.cargo, i);
  }

  lemma FrameConserves(w: World, s: nat)
    requires Conserved(w)
    ensures Conserved(FrameStep(w, s))
  {
    if !w.c.stopped && 1 <= s <= |w.log| {
      var f := FrameAt(w.log, s, w.c.me);
      FrameTakesInOne(w.c, f, Welcome(0));
      TakenHolds(w.c, OnFrame(w.c, f), Chat(f));
    }
  }

  lemma NoticeConserves(w: World, item: Item)
    requires Conserved(w)
    ensures Conserved(NoticeStep(w, item))
  {
    FrameTakesInOne(w.c, Placeholder("", 0, "", UserPersona, Party("", "")), item);
    TakenHolds(w.c, OnItem(w.c, item), item);
  }

  lemma DebounceConserves(w: World)
    requires Conserved(w)
    ensures Conserved(DebounceStep(w))
  {
    JobItemsPush(w.c.cargo.jobs, Drain);
  }

  /** Places and books are as before. */
  predicate SameBooks(w: World, v: World) {
    && v.c.stopped == w.c.stopped
    && v.c.cargo == w.c.cargo.(cursor := v.c.cargo.cursor, file := v.c.cargo.file, pullWindow := v.c.cargo.pullWindow)
    && v.ledger.accepted == w.ledger.accepted && v.ledger.handed == w.ledger.handed
    && v.ledger.dropped == w.ledger.dropped
  }

  predicate SamePlaces(c: Client, d: Client) {
    && d.stopped == c.stopped
    && d.cargo == c.cargo.(cursor := d.cargo.cursor, file := d.cargo.file, pullWindow := d.cargo.pullWindow)
  }

  lemma TimersSamePlaces(c: Client, tokenSent: bool)
    ensures SamePlaces(c, IdleWindowFires(c, tokenSent))
    ensures SamePlaces(c, DeliveryWindowFires(c))
    ensures SamePlaces(c, FetchFails(c))
    ensures SamePlaces(c, PullResumes(c))
  {
  }

  lemma IdleSameBooks(w: World, tokenSent: bool)
    ensures SameBooks(w, IdleStep(w, tokenSent))
  {
    TimersSamePlaces(w.c, tokenSent);
  }

  lemma TimersSameBooks(w: World)
    ensures SameBooks(w, DeliveryWindowStep(w))
    ensures SameBooks(w, BreakStep(w))
    ensures SameBooks(w, GoOnStep(w))
  {
    TimersSamePlaces(w.c, false);
  }

  lemma AgentSamePlaces(c: Client)
    ensures SamePlaces(c, AgentStarts(c))
    ensures SamePlaces(c, SettleRun(c))
    ensures SamePlaces(c, RunWedged(c))
    ensures SamePlaces(c, ConsumeAbortToken(c))
    ensures SamePlaces(c, MarkIncrementPending(c))
  {
  }

  lemma SettlesSameBooks(w: World)
    ensures SameBooks(w, SettleStep(w))
    ensures SameBooks(w, WedgeStep(w))
  {
    AgentSamePlaces(w.c);
  }

  lemma AgentSameBooks(w: World)
    ensures SameBooks(w, RunStartStep(w))
    ensures SameBooks(w, BoundaryStep(w))
    ensures SameBooks(w, MarkStep(w))
  {
    AgentSamePlaces(w.c);
  }

  lemma UpdateSamePlaces(c: Client, u: Update, tokenSent: bool)
    ensures SamePlaces(c, OnUpdate(c, u, tokenSent))
  {
  }

  lemma UpdateSameBooks(w: World, n: nat, tokenSent: bool)
    ensures SameBooks(w, UpdateStep(w, n, tokenSent))
  {
    if n <= |w.log| {
      UpdateSamePlaces(w.c, UpdateAt(w.log, n), tokenSent);
    }
  }

  lemma ForeignSameBooks(w: World, b: Batch, written: bool)
    ensures SameBooks(w, ForeignStep(w, b, written))
  {
  }

  lemma ConsumeSameBooks(w: World, i: nat, written: bool)
    ensures SameBooks(w, ConsumeStep(w, i, written))
  {
  }

  lemma DropSameBooks(w: World, i: nat)
    ensures SameBooks(w, DropStep(w, i))
  {
  }

  lemma PublishSameBooks(w: World, m: Message)
    ensures SameBooks(w, PublishStep(w, m))
  {
  }

  lemma LeavesConserves(w: World)
    ensures Conserved(LeaveStep(w))
  {
  }

  lemma ReloadHolds(c: Client)
    ensures Held(Reloaded(c).cargo) == multiset(c.cargo.pending) && SlotFree(Reloaded(c).cargo)
  {
  }

  lemma ReloadConserves(w: World)
    requires Conserved(w)
    ensures Conserved(ReloadStep(w))
  {
    ReloadHolds(w.c);
    if !w.c.stopped {
      var v := ReloadStep(w);
      assert v.c == Reloaded(w.c);
      assert v.ledger.accepted == multiset(w.c.cargo.pending) && v.ledger.handed == v.ledger.dropped == multiset{};
    }
  }

  lemma RejoinHolds(c: Client, me: string)
    ensures Held(Rejoined(c, me).cargo) == multiset{} && SlotFree(Rejoined(c, me).cargo)
  {
  }

  lemma RejoinConserves(w: World, me: string, known: set<nat>)
    requires Conserved(w)
    ensures Conserved(RejoinStep(w, me, known))
  {
    RejoinHolds(w.c, me);
    if w.c.stopped {
      var v := RejoinStep(w, me, known);
      assert v.c == Rejoined(w.c, me) && v.ledger == NewLedger([], None).(noted := w.ledger.noted);
    }
  }

  lemma StepConserves(w: World, e: Event)
    requires Conserved(w)
    ensures Conserved(Step(w, e))
  {
    match e
    case FrameArrives(s) => FrameConserves(w, s);
    case NoticeArrives(item) => NoticeConserves(w, item);
    case DebounceElapses => DebounceConserves(w);
    case FetchReplies(n, window, written) => ReplyConserves(w, n, window, written);
    case FlushStarts => FlushStartConserves(w);
    case FlushEnds(accepted) => FlushEndConserves(w, accepted);
    case Leaves => LeavesConserves(w);
    case Reloads => ReloadConserves(w);
    case Rejoins(me, known) => RejoinConserves(w, me, known);
    case _ => RestConserves(w, e);
  }

  predicate Bookless(e: Event) {
    TimerEvent(e) || AgentEvent(e) || OtherEvent(e)
  }

  predicate OtherEvent(e: Event) {
    e.Publish? || e.UpdateArrives? || e.PiConsumes? || e.PiDrops? || e.ForeignBatch?
  }

  lemma TimerEventSameBooks(w: World, e: Event)
    requires TimerEvent(e)
    ensures SameBooks(w, Step(w, e))
  {
    match e
    case IdleWindowElapses(tokenSent) => IdleSameBooks(w, tokenSent);
    case DeliveryWindowElapses => TimersSameBooks(w);
    case FetchBreaks => TimersSameBooks(w);
    case PullGoesOn => TimersSameBooks(w);
  }

  lemma AgentEventSameBooks(w: World, e: Event)
    requires AgentEvent(e)
    ensures SameBooks(w, Step(w, e))
  {
    AgentSameBooks(w);
    SettlesSameBooks(w);
  }

  lemma OtherEventSameBooks(w: World, e: Event)
    requires OtherEvent(e)
    ensures SameBooks(w, Step(w, e))
  {
    match e
    case Publish(m) => PublishSameBooks(w, m);
    case UpdateArrives(n, tokenSent) => UpdateSameBooks(w, n, tokenSent);
    case PiConsumes(i, written) => ConsumeSameBooks(w, i, written);
    case PiDrops(i) => DropSameBooks(w, i);
    case ForeignBatch(b, written) => ForeignSameBooks(w, b, written);
  }

  lemma BooklessSameBooks(w: World, e: Event)
    requires Bookless(e)
    ensures SameBooks(w, Step(w, e))
  {
    if TimerEvent(e) {
      TimerEventSameBooks(w, e);
    } else if AgentEvent(e) {
      AgentEventSameBooks(w, e);
    } else {
      OtherEventSameBooks(w, e);
    }
  }

  lemma SameBooksConserve(w: World, v: World)
    requires Conserved(w) && SameBooks(w, v)
    ensures Conserved(v)
  {
    assert Held(v.c.cargo) == Held(w.c.cargo);
  }

  lemma RestConserves(w: World, e: Event)
    requires Conserved(w) && Bookless(e)
    ensures Conserved(Step(w, e))
  {
    BooklessSameBooks(w, e);
    SameBooksConserve(w, Step(w, e));
  }

  /** In every reachable state, until the client stops, nothing taken in is lost or doubled. */
  lemma {:induction false} AlwaysConserved(log: seq<Message>, me: string, preset: nat, es: seq<Event>)
    ensures Conserved(Run(Start(log, me, preset), es))
    decreases |es|
  {
    if es != [] {
      AlwaysConserved(log, me, preset, es[..|es| - 1]);
      StepConserves(Run(Start(log, me, preset), es[..|es| - 1]), es[|es| - 1]);
    }
  }

  // ----- the retry slot -----

  /** A failed batch goes out before anything later: what is left of it heads the next batch. */
  lemma RetryGoesFirst(k: Cargo, job: Job)
    requires k.retry.Some?
    ensures Fresh(k.retry.value.items, k.cursor, k.pullWindow, {}) <= Prepared(k, job).items
  {
    if job.Deliver? {
      FreshPrefix(k.retry.value.items, job.items, k.cursor, k.pullWindow, {});
    }
  }

  lemma FramesKeepRetry(c: Client, f: Frame, i: Item, page: FetchPage, written: bool)
    ensures OnFrame(c, f).cargo.retry == c.cargo.retry && OnItem(c, i).cargo.retry == c.cargo.retry
    ensures PageArrives(c, page, written).cargo.retry == c.cargo.retry
  {
  }

  lemma FrameKeepsRetry(w: World, s: nat)
    ensures FrameStep(w, s).c.cargo.retry == w.c.cargo.retry
  {
    if 1 <= s <= |w.log| {
      FramesKeepRetry(w.c, FrameAt(w.log, s, w.c.me), Welcome(0), FetchPage([], 0, 0), true);
    }
  }

  lemma NoticeKeepsRetry(w: World, item: Item)
    ensures NoticeStep(w, item).c.cargo.retry == w.c.cargo.retry
  {
    FramesKeepRetry(w.c, Placeholder("", 0, "", UserPersona, Party("", "")), item, FetchPage([], 0, 0), true);
  }

  lemma ReplyKeepsRetry(w: World, n: nat, window: nat, written: bool)
    ensures ReplyStep(w, n, window, written).c.cargo.retry == w.c.cargo.retry
  {
    if Replies(w, n) {
      FramesKeepRetry(w.c, Placeholder("", 0, "", UserPersona, Party("", "")), Welcome(0),
                      PageAt(w.log, n, w.c.pull.since, window, w.c.me), written);
    }
  }

  lemma BooklessKeepsRetry(w: World, e: Event)
    requires Bookless(e)
    ensures Step(w, e).c.cargo.retry == w.c.cargo.retry
  {
    BooklessSameBooks(w, e);
  }

  /** Until it is taken up by a flush the failed batch stays in its slot: no other failure can overwrite it. */
  lemma RetryStays(w: World, e: Event)
    requires Conserved(w) && !w.c.stopped && w.c.cargo.retry.Some?
    requires !e.FlushStarts? && !e.Reloads?
    ensures Step(w, e).c.cargo.retry == w.c.cargo.retry
  {
    match e
    case FrameArrives(s) => FrameKeepsRetry(w, s);
    case NoticeArrives(item) => NoticeKeepsRetry(w, item);
    case DebounceElapses =>
    case FetchReplies(n, window, written) => ReplyKeepsRetry(w, n, window, written);
    case FlushEnds(accepted) =>
    case Leaves =>
    case Rejoins(_, _) =>
    case _ => BooklessKeepsRetry(w, e);
  }
}
