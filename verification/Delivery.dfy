/**
  The client half of message delivery.  A `Client` is the state of one
  GroupChatInput together with the cursor and agent flags of its runtime; each
  function is one stretch of code between two awaits, one timer or one callback.
  */
module Delivery {
  import opened Common
  import opened Messages
  import opened Preview

  /** What can wait for delivery: a projected message, a board update or a system message. */
  datatype Item = Chat(frame: Frame) | BoardUpdate(actor: string, note: nat) | Welcome(note: nat)

  /** Items on their way to pi, with the lower bound of the interval they cover and the cursor after it. */
  datatype Batch = Batch(items: seq<Item>, coverage: Option<int>, latest: Option<nat>)

  /** A queued flush: of whatever is pending, or of the items of one pull. */
  datatype Job = Drain | Deliver(items: seq<Item>, latest: nat)

  /** The batch of the running flush while it awaits the group chat state. */
  datatype Flight = Flight(batch: Batch, pulled: bool)

  /** The single pull: at rest, awaiting its page, awaiting its flush, or about to go on. */
  datatype Pull = Resting | Fetching(since: nat) | Handing | Handed

  /** Messages on their way, and the cursor in memory and on disk. */
  datatype Cargo = Cargo(
    pending: seq<Item>,
    pullWindow: set<nat>,
    jobs: seq<Job>,
    running: Option<Flight>,
    retry: Option<Batch>,
    cursor: nat,
    file: nat)

  datatype Timers = Timers(
    debounce: bool, debounceDue: bool, idleWindow: bool, idleEligible: bool, deliveryWindow: bool)

  /** The agent's run as the client sees it, and what waits for its end. */
  datatype Agent = Agent(
    active: bool, wedgedSettled: bool, incrementPending: bool, tokenQueued: bool, abortRequested: bool)

  datatype Client = Client(
    me: string,
    cargo: Cargo,
    pull: Pull,
    refetch: bool,
    timers: Timers,
    agent: Agent,
    known: Option<Update>,
    placeholder: nat,
    injected: nat,
    stopped: bool)

  // ----- items -----

  function SequenceOf(i: Item): nat
    requires i.Chat?
  {
    FrameSequence(i.frame)
  }

  /** public_message and whisper_message frames, the ones whose text reaches the agent. */
  predicate Injected(i: Item) {
    i.Chat? && i.frame.Full?
  }

  predicate Own(f: Frame, me: string) {
    f.Full? && Authored(f.message, me)
  }

  predicate EnvironmentItem(i: Item, me: string) {
    match i
    case Chat(Full(m)) => IsWhisper(m) || !Authored(m, me)
    case Chat(_) => false
    case BoardUpdate(actor, _) => actor != me
    case Welcome(_) => true
  }

  /** The sequence numbers among the items. */
  function Sequences(items: seq<Item>): set<nat> {
    if items == [] then {}
    else (if items[0].Chat? then {SequenceOf(items[0])} else {}) + Sequences(items[1..])
  }

  function InjectedSequences(items: seq<Item>): set<nat> {
    if items == [] then {}
    else (if Injected(items[0]) then {SequenceOf(items[0])} else {}) + InjectedSequences(items[1..])
  }

  function LowestInjected(items: seq<Item>): Option<nat> {
    if items == [] then None
    else
      var rest := LowestInjected(items[1..]);
      if !Injected(items[0]) then rest
      else if rest.Some? && rest.value < SequenceOf(items[0]) then rest
      else Some(SequenceOf(items[0]))
  }

  function HighestInjected(items: seq<Item>): nat {
    if items == [] then 0
    else
      var rest := HighestInjected(items[1..]);
      if Injected(items[0]) && SequenceOf(items[0]) > rest then SequenceOf(items[0]) else rest
  }

  /** The cursor candidate of a live batch: the highest number actually injected. */
  function WatermarkOfDelivered(items: seq<Item>): Option<nat> {
    if HighestInjected(items) > 0 then Some(HighestInjected(items)) else None
  }

  /** A live batch covers an interval only if its injected frames have no gap. */
  function CoverageLowerBound(items: seq<Item>): Option<int> {
    var lowest := LowestInjected(items);
    if lowest.None? then None
    else if HighestInjected(items) - lowest.value + 1 != |InjectedSequences(items)| then None
    else Some(lowest.value - 1)
  }

  // ----- flush -----

  /** The items left after the filter before delivery: nothing already behind the cursor, no number twice. */
  function Fresh(items: seq<Item>, cursor: nat, window: set<nat>, taken: set<nat>): seq<Item>
    decreases |items|
  {
    if items == [] then []
    else if !items[0].Chat? then [items[0]] + Fresh(items[1..], cursor, window, taken)
    else
      var n := SequenceOf(items[0]);
      if (n <= cursor && n !in window) || n in taken then Fresh(items[1..], cursor, window, taken)
      else [items[0]] + Fresh(items[1..], cursor, window, taken + {n})
  }

  function MergeCoverage(kept: Option<int>, added: Option<int>): Option<int> {
    if kept.None? then added
    else if added.None? then kept
    else Some(Min(kept.value, added.value))
  }

  /** The items a flush takes up: a failed batch goes first. */
  function Gathered(k: Cargo, job: Job): seq<Item> {
    match job
    case Drain => if k.retry.Some? then k.retry.value.items else k.pending
    case Deliver(items, _) => if k.retry.Some? then k.retry.value.items + items else items
  }

  function RetryLatest(k: Cargo, job: Job): Option<nat> {
    if k.retry.None? then None
    else if job.Deliver? then Some(Max(k.retry.value.latest.GetOr(0), job.latest))
    else k.retry.value.latest
  }

  /** The batch a flush prepares. */
  function Prepared(k: Cargo, job: Job): Batch {
    var items := Fresh(Gathered(k, job), k.cursor, k.pullWindow, {});
    var added := if job.Deliver? then Some(k.cursor) else CoverageLowerBound(items);
    var kept := if k.retry.Some? then k.retry.value.coverage else None;
    var retried := RetryLatest(k, job);
    var candidate :=
      if retried.Some? then retried
      else if job.Deliver? then Some(job.latest)
      else WatermarkOfDelivered(items);
    Batch(
      items,
      MergeCoverage(kept, added),
      if candidate.Some? && candidate.value > k.cursor then candidate else None)
  }

  function Debounced(t: Timers): Timers {
    t.(debounce := true, debounceDue := true)
  }

  /** The end of a flush: its pull may go on, and what came in meanwhile is scheduled. */
  function EndJob(c: Client, pulled: bool): Client {
    c.(pull := if pulled && c.pull == Handing then Handed else c.pull,
       timers := if c.cargo.pending != [] && c.cargo.retry.None? && !c.stopped then Debounced(c.timers) else c.timers)
  }

  /** A flush takes its job: the retry slot is emptied, pending items only if the flush is of them. */
  function TakeJob(k: Cargo): Cargo
    requires k.jobs != []
  {
    k.(jobs := k.jobs[1..], retry := None, pending := if k.jobs[0].Drain? && k.retry.None? then [] else k.pending)
  }

  /** A queued flush starts and runs up to its await. */
  function StartFlush(c: Client): Client {
    var k := c.cargo;
    if k.running.Some? || k.jobs == [] then c else
    var job := k.jobs[0];
    var batch := Prepared(k, job);
    if c.stopped || batch.items == [] then EndJob(c.(cargo := TakeJob(k)), job.Deliver?)
    else c.(cargo := TakeJob(k).(running := Some(Flight(batch, job.Deliver?))))
  }

  /** The flush hands its batch to pi; when that throws, the batch goes to the retry slot. */
  function FinishFlush(c: Client, accepted: bool): Client {
    if c.cargo.running.None? then c else
    var f := c.cargo.running.value;
    var done := c.cargo.(running := None);
    if c.stopped || accepted then EndJob(c.(cargo := done), f.pulled)
    else EndJob(c.(cargo := done.(retry := Some(f.batch)), timers := Debounced(c.timers)), f.pulled)
  }

  predicate HandsOver(c: Client, accepted: bool) {
    c.cargo.running.Some? && !c.stopped && accepted
  }

  // ----- cursor -----

  /** Memory first; the file follows only if the write succeeds. */
  function SaveCursor(c: Client, sequence: nat, written: bool): Client {
    c.(cargo := c.cargo.(cursor := sequence, file := if written then sequence else c.cargo.file))
  }

  /** A batch moves the cursor when its interval reaches down to it and beyond it; whose batch it is, is not asked. */
  predicate Confirms(c: Client, b: Batch) {
    && !c.stopped && b.latest.Some? && b.coverage.Some?
    && b.coverage.value <= c.cargo.cursor < b.latest.value
  }

  /** pi has put a batch into the agent's context. */
  function ConfirmBatchConsumed(c: Client, b: Batch, written: bool): Client {
    if Confirms(c, b) then SaveCursor(c, b.latest.value, written) else c
  }

  // ----- pull -----

  function PullIncrement(c: Client): Client {
    if c.stopped || c.pull != Resting then c.(refetch := true)
    else c.(refetch := false, pull := Fetching(c.cargo.cursor))
  }

  /** The end of one turn of the pull loop. */
  function LoopOrRest(c: Client): Client {
    if c.refetch && !c.stopped then c.(refetch := false, pull := Fetching(c.cargo.cursor))
    else c.(pull := Resting)
  }

  /** The items of a page: everything but the client's own messages. */
  function PageItems(frames: seq<Frame>, me: string): seq<Item> {
    if frames == [] then []
    else (if Own(frames[0], me) then [] else [Chat(frames[0])]) + PageItems(frames[1..], me)
  }

  /** Numbers of the context at the head of a page, read before. */
  function WindowSequences(items: seq<Item>, since: nat): set<nat> {
    set n | n in Sequences(items) && n <= since
  }

  predicate AnyUnread(items: seq<Item>, since: nat) {
    exists n :: n in Sequences(items) && n > since
  }

  /** A pull's items, with everything pending before them, become one flush. */
  function QueueDelivery(k: Cargo, items: seq<Item>, latest: nat, window: set<nat>): Cargo {
    k.(pullWindow := if window == {} then k.pullWindow else window,
       jobs := k.jobs + [Deliver(k.pending + items, latest)],
       pending := [])
  }

  function PageArrives(c: Client, page: FetchPage, written: bool): Client {
    if !c.pull.Fetching? then c
    else if c.stopped then c.(pull := Resting)
    else
      var since := c.pull.since;
      var items := PageItems(page.messages, c.me);
      if AnyUnread(items, since) then
        c.(cargo := QueueDelivery(c.cargo, items, page.latest, WindowSequences(items, since)), pull := Handing)
      else if page.messages != [] then LoopOrRest(SaveCursor(c, page.latest, written))
      else LoopOrRest(c)
  }

  function FetchFails(c: Client): Client {
    if c.pull.Fetching? then c.(pull := Resting) else c
  }

  /** The flush of the pull is over. */
  function PullResumes(c: Client): Client {
    if c.pull != Handed then c else LoopOrRest(c.(cargo := c.cargo.(pullWindow := {})))
  }

  // ----- timers and tokens -----

  function ArmIdleWindow(c: Client, eligible: bool): Client {
    if c.stopped then c
    else c.(timers := c.timers.(idleWindow := true, idleEligible := c.timers.idleEligible || eligible))
  }

  /** At most one token a run; `sent` is false when pi refuses it. */
  function QueueAbortToken(a: Agent, sent: bool): Agent {
    if a.tokenQueued || a.abortRequested then a else a.(tokenQueued := sent)
  }

  function DebounceFires(c: Client): Client {
    if c.timers.debounce then
      c.(timers := c.timers.(debounce := false, debounceDue := false),
         cargo := c.cargo.(jobs := c.cargo.jobs + [Drain]))
    else c
  }

  function IdleWindowFires(c: Client, sent: bool): Client {
    if !c.timers.idleWindow then c else
    var d := c.(timers := c.timers.(idleWindow := false, idleEligible := false));
    if c.stopped then d
    else if c.agent.active then
      var marked := c.agent.(incrementPending := true);
      d.(agent := if c.timers.idleEligible then QueueAbortToken(marked, sent) else marked)
    else PullIncrement(d)
  }

  function DeliveryWindowFires(c: Client): Client {
    if !c.timers.deliveryWindow then c else
    var d := c.(timers := c.timers.(deliveryWindow := false));
    if c.stopped || !c.agent.incrementPending then d
    else PullIncrement(d.(agent := c.agent.(incrementPending := false)))
  }

  predicate TokenFires(c: Client) {
    && !c.stopped
    && c.agent.tokenQueued
    && !c.agent.abortRequested
    && c.agent.incrementPending
    && c.agent.active
  }

  /** The context hook at a safe boundary: the token, if still good, asks for one abort. */
  function ConsumeAbortToken(c: Client): Client {
    if TokenFires(c) then c.(agent := c.agent.(tokenQueued := false, abortRequested := true)) else c
  }

  function MarkIncrementPending(c: Client): Client {
    if c.stopped then c else c.(agent := c.agent.(incrementPending := true))
  }

  // ----- agent -----

  function AgentStarts(c: Client): Client {
    c.(agent := c.agent.(active := true, wedgedSettled := false))
  }

  function OnSettled(c: Client): Client {
    if c.stopped then c else
    var d := c.(agent := c.agent.(tokenQueued := false, abortRequested := false, incrementPending := false),
                timers := c.timers.(deliveryWindow := false));
    if c.agent.incrementPending then PullIncrement(d) else d
  }

  /** agent_settled; a late one, after the watchdog has settled the run, changes no input state. */
  function SettleRun(c: Client): Client {
    var d := c.(agent := c.agent.(active := false));
    if c.agent.wedgedSettled then d else OnSettled(d)
  }

  function RunWedged(c: Client): Client {
    if c.agent.active then OnSettled(c.(agent := c.agent.(wedgedSettled := true, active := false))) else c
  }

  // ----- incoming frames -----

  function OnUpdate(c: Client, u: Update, sent: bool): Client {
    var d := c.(known := Some(u));
    var kind := ClassifySelfPreview(u, c.cargo.cursor, c.me);
    if u.latest <= c.cargo.cursor || kind.CompleteSelfOnly? then d
    else if c.agent.active then
      var marked := c.agent.(incrementPending := true);
      d.(timers := c.timers.(deliveryWindow := true),
         agent := if kind.IncompleteWithSelf? then marked else QueueAbortToken(marked, sent))
    else ArmIdleWindow(d, kind.External?)
  }

  function OnPlaceholder(c: Client, sequence: nat): Client {
    c.(placeholder := Max(c.placeholder, sequence))
  }

  function TakeIn(c: Client, i: Item): Client {
    c.(cargo := c.cargo.(pending := c.cargo.pending + [i]), timers := Debounced(c.timers))
  }

  /** A whisper is taken in only if it is the next one; a gap is left to a pull. */
  function OnWhisper(c: Client, f: Frame): Client
    requires f.Full?
  {
    var s := FrameSequence(f);
    if s <= c.cargo.cursor || s <= c.injected then c
    else if Own(f, c.me) then c.(injected := s)
    else if s > Max(c.cargo.cursor, c.injected) + 1 then
      if c.agent.active then MarkIncrementPending(c) else ArmIdleWindow(c, true)
    else TakeIn(c, Chat(f)).(injected := s)
  }

  function OnItem(c: Client, i: Item): Client {
    if EnvironmentItem(i, c.me) then TakeIn(c, i) else c
  }

  function OnFrame(c: Client, f: Frame): Client {
    match f
    case Placeholder(_, s, _, _, _) => OnPlaceholder(c, s)
    case Full(m) => if IsWhisper(m) then OnWhisper(c, f) else OnItem(c, Chat(f))
  }

  // ----- life cycle -----

  const NO_TIMERS := Timers(false, false, false, false, false)

  function Stop(c: Client): Client {
    c.(stopped := true,
       timers := NO_TIMERS,
       cargo := c.cargo.(pending := []),
       agent := c.agent.(tokenQueued := false, abortRequested := false))
  }

  /** A new instance, its cursor read from the file. */
  function NewClient(me: string, file: nat): Client {
    Client(me, Cargo([], {}, [], None, None, file, file), Resting, false, NO_TIMERS,
           Agent(false, false, false, false, false), None, 0, 0, false)
  }

  /**
    The instance after a reload: pending items, timers and the busy mark survive,
    nothing in flight does.  A debounce restored this way is not restored again.
    */
  function Reloaded(c: Client): Client {
    var restarted := NewClient(c.me, c.cargo.file);
    var t := NO_TIMERS.(debounce := c.timers.debounceDue);
    var d := restarted.(cargo := restarted.cargo.(pending := c.cargo.pending), timers := t);
    if c.agent.incrementPending then PullIncrement(d)
    else if c.timers.idleWindow then d.(timers := t.(idleWindow := true, idleEligible := c.timers.idleEligible))
    else d
  }

  /** The instance after leaving and joining again, as any character: the cursor file is the session's. */
  function Rejoined(c: Client, me: string): Client {
    PullIncrement(NewClient(me, c.cargo.file))
  }
}
