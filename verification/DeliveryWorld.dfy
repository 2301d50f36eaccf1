/**
  Delivery as a step system: the creator's log, one client over any number of
  runtimes, and pi's queue of handed-over batches.  The server is the log and
  the replies computed from it; frames and replies travel over one ordered
  channel; timers, failures and pi's choices come as events in any order.
  */
module DeliveryWorld {
  import opened Common
  import opened Messages
  import opened Preview
  import opened Delivery

  /** What a number proved at the time: unread then, and written by someone else. */
  datatype Proof = Proof(sequence: nat, cursor: nat)

  /**
    Bookkeeping for the statements, about one runtime unless said otherwise: items taken in, handed to
    pi and dropped as read or repeated; the newest notified and the newest fetched
    number; whether a fetch failed; aborts since the last settle; and what proved
    the open idle window and the queued token.
    */
  datatype Ledger = Ledger(
    accepted: multiset<Item>,
    handed: multiset<Item>,
    dropped: multiset<Item>,
    noted: nat,
    fetched: nat,
    failed: bool,
    aborts: nat,
    idleProof: Option<Proof>,
    tokenProof: Option<Proof>)

  /**
    `arrived` is the highest number received in a frame, `sent` the log's length
    when the last fetch was sent, `consumed` what the agent has read or knows.  A flush
    asks the creator for the group chat state, and replies come in the order of
    the requests: `stateFirst` says, when both are open, which was sent first.
    */
  datatype World = World(
    log: seq<Message>,
    preset: nat,
    c: Client,
    pi: seq<Batch>,
    consumed: set<nat>,
    arrived: nat,
    sent: nat,
    stateFirst: bool,
    ledger: Ledger)

  datatype Event =
    | Publish(m: Message)
    | UpdateArrives(n: nat, tokenSent: bool)
    | FrameArrives(s: nat)
    | NoticeArrives(item: Item)
    | DebounceElapses
    | IdleWindowElapses(tokenSent: bool)
    | DeliveryWindowElapses
    | FetchReplies(n: nat, window: nat, written: bool)
    | FetchBreaks
    | PullGoesOn
    | FlushStarts
    | FlushEnds(accepted: bool)
    | RunStarts
    | RunSettles
    | RunWedges
    | Boundary
    | MarkedPending
    | PiConsumes(i: nat, written: bool)
    | PiDrops(i: nat)
    | ForeignBatch(b: Batch, written: bool)
    | Leaves
    | Reloads
    | Rejoins(me: string, known: set<nat>)

  /** Timers run out, a fetch breaks off, the pull loop goes on. */
  predicate TimerEvent(e: Event) {
    e.IdleWindowElapses? || e.DeliveryWindowElapses? || e.FetchBreaks? || e.PullGoesOn?
  }

  /** The agent's run begins, ends or passes a boundary. */
  predicate AgentEvent(e: Event) {
    e.RunStarts? || e.RunSettles? || e.RunWedges? || e.Boundary? || e.MarkedPending?
  }

  /** The client stops or starts again. */
  predicate LifeEvent(e: Event) {
    e.Leaves? || e.Reloads? || e.Rejoins?
  }

  /** Batches on their way to the agent. */
  predicate BatchEvent(e: Event) {
    e.FlushStarts? || e.FlushEnds? || e.PiConsumes? || e.PiDrops? || e.ForeignBatch?
  }

  /** Something new to take in or to send for. */
  predicate IncomingEvent(e: Event) {
    e.Publish? || e.UpdateArrives? || e.FrameArrives? || e.NoticeArrives? || e.DebounceElapses? || e.FetchReplies?
  }

  function NewLedger(pending: seq<Item>, idleProof: Option<Proof>): Ledger {
    Ledger(multiset(pending), multiset{}, multiset{}, 0, 0, false, 0, idleProof, None)
  }

  /** The notification as broadcast when the log held `n` messages. */
  function UpdateAt(log: seq<Message>, n: nat): Update
    requires n <= |log|
  {
    BroadcastUpdate(Publics(log[..n]))
  }

  function FrameAt(log: seq<Message>, s: nat, me: string): Frame
    requires 1 <= s <= |log|
  {
    ProjectMessage(log[s - 1], Some(me))
  }

  /** The page a fetch from `since` gets when the log holds `n` messages. */
  function PageAt(log: seq<Message>, n: nat, since: nat, window: nat, me: string): FetchPage
    requires n <= |log|
  {
    FetchMessagesSince(log[..n], Max(0, since - window), Some(me))
  }

  /** A reply was computed after its request was sent and after every frame that came before it. */
  predicate Replies(w: World, n: nat) {
    && !w.c.stopped && w.c.pull.Fetching? && w.sent <= n <= |w.log| && w.arrived <= n
    && !(w.c.cargo.running.Some? && w.stateFirst)
  }

  /** A flush goes on when its state reply is there, which a fetch sent before it holds up. */
  predicate StateReplies(w: World) {
    w.c.pull.Fetching? ==> w.stateFirst
  }

  /** The client has changed; a pull that went to the server notes how long the log is. */
  function Become(w: World, d: Client, fetches: bool): World {
    if fetches && d.pull.Fetching? then w.(c := d, sent := |w.log|, stateFirst := d.cargo.running.Some?)
    else w.(c := d)
  }

  // ----- notifications -----

  /** Is the notification one the client must act on? */
  predicate Notable(c: Client, u: Update) {
    u.latest > c.cargo.cursor && !ClassifySelfPreview(u, c.cargo.cursor, c.me).CompleteSelfOnly?
  }

  /** The number that an "external" notification proves to be unread and someone else's. */
  ghost function ExternalProof(log: seq<Message>, c: Client, u: Update): Option<Proof> {
    if exists s: nat :: c.cargo.cursor < s <= u.latest && ByOther(log, c.me, s) then
      var s: nat :| c.cargo.cursor < s <= u.latest && ByOther(log, c.me, s);
      Some(Proof(s, c.cargo.cursor))
    else None
  }

  ghost function NoteUpdate(w: World, u: Update, d: Client): Ledger {
    var l := w.ledger.(noted := if Notable(w.c, u) then Max(w.ledger.noted, u.latest) else w.ledger.noted);
    var p := ExternalProof(w.log, w.c, u);
    l.(idleProof := if d.timers.idleEligible && !w.c.timers.idleEligible then p else l.idleProof,
       tokenProof := if d.agent.tokenQueued && !w.c.agent.tokenQueued then p else l.tokenProof)
  }

  ghost function UpdateStep(w: World, n: nat, tokenSent: bool): World {
    if w.c.stopped || n > |w.log| then w else
    var u := UpdateAt(w.log, n);
    var d := OnUpdate(w.c, u, tokenSent);
    w.(c := d, ledger := NoteUpdate(w, u, d))
  }

  // ----- frames -----

  function Taken(c: Client, d: Client): multiset<Item> {
    multiset(d.cargo.pending[Min(|c.cargo.pending|, |d.cargo.pending|)..])
  }

  /** A whisper the client cannot take in yet: something before it has not arrived. */
  predicate BeyondGap(c: Client, f: Frame) {
    && f.Full? && IsWhisper(f.message) && !Own(f, c.me)
    && FrameSequence(f) > Max(c.cargo.cursor, c.injected) + 1
  }

  function FrameStep(w: World, s: nat): World {
    if w.c.stopped || !(1 <= s <= |w.log|) then w else
    var f := FrameAt(w.log, s, w.c.me);
    var d := OnFrame(w.c, f);
    w.(c := d,
       arrived := Max(w.arrived, s),
       ledger := w.ledger.(
         noted := if BeyondGap(w.c, f) then Max(w.ledger.noted, s) else w.ledger.noted,
         accepted := w.ledger.accepted + Taken(w.c, d),
         idleProof :=
           if d.timers.idleEligible && !w.c.timers.idleEligible then Some(Proof(s, w.c.cargo.cursor))
           else w.ledger.idleProof))
  }

  function NoticeStep(w: World, item: Item): World {
    if w.c.stopped || item.Chat? then w else
    var d := OnItem(w.c, item);
    w.(c := d, ledger := w.ledger.(accepted := w.ledger.accepted + Taken(w.c, d)))
  }

  // ----- timers -----

  function IdleStep(w: World, tokenSent: bool): World {
    if !w.c.timers.idleWindow then w else
    var d := IdleWindowFires(w.c, tokenSent);
    Become(w, d, !w.c.pull.Fetching?).(ledger := w.ledger.(
      idleProof := None,
      tokenProof := if d.agent.tokenQueued && !w.c.agent.tokenQueued then w.ledger.idleProof else w.ledger.tokenProof))
  }

  function DebounceStep(w: World): World {
    w.(c := DebounceFires(w.c))
  }

  function DeliveryWindowStep(w: World): World {
    Become(w, DeliveryWindowFires(w.c), !w.c.pull.Fetching?)
  }

  // ----- pulls and flushes -----

  function ReplyStep(w: World, n: nat, window: nat, written: bool): World {
    if !Replies(w, n) then w else
    var page := PageAt(w.log, n, w.c.pull.since, window, w.c.me);
    var d := PageArrives(w.c, page, written);
    Become(w, d, true).(ledger := w.ledger.(
      fetched := Max(w.ledger.fetched, n),
      accepted := w.ledger.accepted +
        if d.pull == Handing then multiset(PageItems(page.messages, w.c.me)) else multiset{}))
  }

  function BreakStep(w: World): World {
    w.(c := FetchFails(w.c), ledger := w.ledger.(failed := w.ledger.failed || w.c.pull.Fetching?))
  }

  function GoOnStep(w: World): World {
    Become(w, PullResumes(w.c), !w.c.pull.Fetching?)
  }

  /** What the filter before delivery leaves out. */
  function Stale(items: seq<Item>, cursor: nat, window: set<nat>, taken: set<nat>): seq<Item>
    decreases |items|
  {
    if items == [] then []
    else if !items[0].Chat? then Stale(items[1..], cursor, window, taken)
    else
      var n := SequenceOf(items[0]);
      if (n <= cursor && n !in window) || n in taken then [items[0]] + Stale(items[1..], cursor, window, taken)
      else Stale(items[1..], cursor, window, taken + {n})
  }

  function FlushStep(w: World): World {
    var d := StartFlush(w.c);
    w.(c := d,
       stateFirst := if w.c.cargo.running.None? && d.cargo.running.Some? then !d.pull.Fetching? else w.stateFirst,
       ledger := w.ledger.(dropped := w.ledger.dropped +
         if w.c.cargo.running.None? && w.c.cargo.jobs != [] && !w.c.stopped then
           multiset(Stale(Gathered(w.c.cargo, w.c.cargo.jobs[0]), w.c.cargo.cursor, w.c.cargo.pullWindow, {}))
         else multiset{}))
  }

  function FlushEndStep(w: World, accepted: bool): World {
    if !StateReplies(w) then w else
    var d := FinishFlush(w.c, accepted);
    if HandsOver(w.c, accepted) then
      var b := w.c.cargo.running.value.batch;
      w.(c := d, pi := w.pi + [b], ledger := w.ledger.(handed := w.ledger.handed + multiset(b.items)))
    else w.(c := d)
  }

  // ----- pi -----

  function Without(pi: seq<Batch>, i: nat): seq<Batch>
    requires i < |pi|
  {
    pi[..i] + pi[i + 1..]
  }

  /** pi puts any of its batches into the agent's context, in any order. */
  function ConsumeStep(w: World, i: nat, written: bool): World {
    if i >= |w.pi| then w else
    var b := w.pi[i];
    w.(pi := Without(w.pi, i),
       consumed := w.consumed + Sequences(b.items),
       c := ConfirmBatchConsumed(w.c, b, written))
  }

  function DropStep(w: World, i: nat): World {
    if i >= |w.pi| then w else w.(pi := Without(w.pi, i))
  }

  /** pi reads a batch handed to it for another chat or another character of the same session. */
  function ForeignStep(w: World, b: Batch, written: bool): World {
    w.(c := ConfirmBatchConsumed(w.c, b, written))
  }

  // ----- the agent -----

  function RunStartStep(w: World): World {
    w.(c := AgentStarts(w.c))
  }

  function MarkStep(w: World): World {
    w.(c := MarkIncrementPending(w.c))
  }

  /** A settle that reaches the input. */
  function SettledLedger(c: Client, l: Ledger): Ledger {
    if c.stopped then l else l.(aborts := 0, tokenProof := None)
  }

  function SettleStep(w: World): World {
    Become(w, SettleRun(w.c), !w.c.pull.Fetching?).(
      ledger := if w.c.agent.wedgedSettled then w.ledger else SettledLedger(w.c, w.ledger))
  }

  function WedgeStep(w: World): World {
    Become(w, RunWedged(w.c), !w.c.pull.Fetching?).(
      ledger := if w.c.agent.active then SettledLedger(w.c, w.ledger) else w.ledger)
  }

  function BoundaryStep(w: World): World {
    w.(c := ConsumeAbortToken(w.c),
       ledger := w.ledger.(aborts := if TokenFires(w.c) then w.ledger.aborts + 1 else w.ledger.aborts))
  }

  // ----- the log and the life of the client -----

  function PublishStep(w: World, m: Message): World {
    w.(log := w.log + [m.(sequence := |w.log| + 1)])
  }

  function LeaveStep(w: World): World {
    w.(c := Stop(w.c))
  }

  function RestartStep(w: World, d: Client, l: Ledger): World {
    Become(w, d, true).(ledger := l)
  }

  /** What a notification asked for stays asked for as long as a mark or a window that survives the reload says so. */
  function ReloadStep(w: World): World {
    if w.c.stopped then w
    else
      var idleProof := if w.c.agent.incrementPending then None else w.ledger.idleProof;
      var noted := if w.c.agent.incrementPending || w.c.timers.idleWindow then w.ledger.noted else 0;
      RestartStep(w, Reloaded(w.c), NewLedger(w.c.cargo.pending, idleProof).(noted := noted))
  }

  /**
    Joining again.  As another character the session goes on from the same cursor
    file, and what was handed over before was another character's.  `known` says
    which messages the agent knows all the same: the public ones it read, say, but
    not a whisper of which it was shown no more than that there is one.
    */
  function RejoinStep(w: World, me: string, known: set<nat>): World {
    if !w.c.stopped then w
    else
      var v := if me == w.c.me then w else w.(pi := [], consumed := set n | n in known && n <= |w.log|);
      RestartStep(v, Rejoined(w.c, me), NewLedger([], None).(noted := w.ledger.noted))
  }

  // ----- one step -----

  ghost function Step(w: World, e: Event): World {
    match e
    case Publish(m) => PublishStep(w, m)
    case UpdateArrives(n, tokenSent) => UpdateStep(w, n, tokenSent)
    case FrameArrives(s) => FrameStep(w, s)
    case NoticeArrives(item) => NoticeStep(w, item)
    case DebounceElapses => DebounceStep(w)
    case IdleWindowElapses(tokenSent) => IdleStep(w, tokenSent)
    case DeliveryWindowElapses => DeliveryWindowStep(w)
    case FetchReplies(n, window, written) => ReplyStep(w, n, window, written)
    case FetchBreaks => BreakStep(w)
    case PullGoesOn => GoOnStep(w)
    case FlushStarts => FlushStep(w)
    case FlushEnds(accepted) => FlushEndStep(w, accepted)
    case RunStarts => RunStartStep(w)
    case RunSettles => SettleStep(w)
    case RunWedges => WedgeStep(w)
    case Boundary => BoundaryStep(w)
    case MarkedPending => MarkStep(w)
    case PiConsumes(i, written) => ConsumeStep(w, i, written)
    case PiDrops(i) => DropStep(w, i)
    case ForeignBatch(b, written) => ForeignStep(w, b, written)
    case Leaves => LeaveStep(w)
    case Reloads => ReloadStep(w)
    case Rejoins(me, known) => RejoinStep(w, me, known)
  }

  ghost function Run(w: World, es: seq<Event>): World
    decreases |es|
  {
    if es == [] then w else Step(Run(w, es[..|es| - 1]), es[|es| - 1])
  }

  lemma Then(w: World, es: seq<Event>, e: Event)
    ensures Run(w, es + [e]) == Step(Run(w, es), e)
  {
    assert (es + [e])[..|es|] == es;
  }

  lemma ThenPublish(w: World, es: seq<Event>, m: Message)
    ensures Run(w, es + [Publish(m)]) == PublishStep(Run(w, es), m)
  {
    Then(w, es, Publish(m));
  }

  lemma ThenNotice(w: World, es: seq<Event>, item: Item)
    ensures Run(w, es + [NoticeArrives(item)]) == NoticeStep(Run(w, es), item)
  {
    Then(w, es, NoticeArrives(item));
  }

  lemma ThenDebounce(w: World, es: seq<Event>)
    ensures Run(w, es + [DebounceElapses]) == DebounceStep(Run(w, es))
  {
    Then(w, es, DebounceElapses);
  }

  lemma ThenReplies(w: World, es: seq<Event>, n: nat, window: nat, written: bool)
    ensures Run(w, es + [FetchReplies(n, window, written)]) == ReplyStep(Run(w, es), n, window, written)
  {
    Then(w, es, FetchReplies(n, window, written));
  }

  lemma ThenFlushStarts(w: World, es: seq<Event>)
    ensures Run(w, es + [FlushStarts]) == FlushStep(Run(w, es))
  {
    Then(w, es, FlushStarts);
  }

  lemma ThenFlushEnds(w: World, es: seq<Event>, accepted: bool)
    ensures Run(w, es + [FlushEnds(accepted)]) == FlushEndStep(Run(w, es), accepted)
  {
    Then(w, es, FlushEnds(accepted));
  }

  lemma ThenPiConsumes(w: World, es: seq<Event>, i: nat, written: bool)
    ensures Run(w, es + [PiConsumes(i, written)]) == ConsumeStep(Run(w, es), i, written)
  {
    Then(w, es, PiConsumes(i, written));
  }

  lemma ThenSettles(w: World, es: seq<Event>)
    ensures Run(w, es + [RunSettles]) == SettleStep(Run(w, es))
  {
    Then(w, es, RunSettles);
  }

  lemma ThenReloads(w: World, es: seq<Event>)
    ensures Run(w, es + [Reloads]) == ReloadStep(Run(w, es))
  {
    Then(w, es, Reloads);
  }

  lemma ThenMarked(w: World, es: seq<Event>)
    ensures Run(w, es + [MarkedPending]) == MarkStep(Run(w, es))
  {
    Then(w, es, MarkedPending);
  }

  /** A first join: the cursor starts at the watermark of the ready response, and so does its file. */
  function Start(log: seq<Message>, me: string, preset: nat): World {
    World(log, preset, NewClient(me, preset), [], {}, 0, 0, false, NewLedger([], None))
  }
}
