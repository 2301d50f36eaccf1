/**
  One way a message can be skipped.  A pull merged with a batch that failed
  before it claims everything up to the higher watermark; this module shows when
  exactly that claim is safe, for a client that cannot see the log and for the
  run as it is, and a whole run in which it is not.
  */
module Merging {
  import opened Common
  import opened Messages
  import opened Preview
  import opened Delivery
  import opened DeliveryWorld
  import opened Coverage
  import opened NoSkip

  // ----- what a client can check -----

  /** The hole is empty, whatever the log holds. */
  ghost predicate MergeSafe(r: Batch, latest: nat, cursor: nat) {
    forall s: nat :: !InHole(r, latest, cursor, s)
  }

  /** Everything the parts of a merge promise holds on this ground. */
  ghost predicate PartsHold(g: Ground, k: Cargo, job: Job) {
    && GaplessLog(g.log)
    && ReadUpTo(g, k.cursor)
    && (k.retry.Some? ==> Honest(g, k.retry.value))
    && Complete(g, job)
  }

  lemma SafeMergeIsHonest(g: Ground, k: Cargo, job: Job)
    requires PartsHold(g, k, job) && job.Deliver? && k.retry.Some?
    requires MergeSafe(k.retry.value, job.latest, k.cursor)
    ensures Honest(g, Prepared(k, job))
  {
    var r := k.retry.value;
    SequencesConcat(r.items, job.items);
    FreshKeeps(r.items + job.items, k.cursor, k.pullWindow, {});
    assert HoleRead(g, r, job.latest, k.cursor);
  }

  function PlainMessage(s: nat): Message {
    Message(UserPersona, None, "", "", s, "", RoundInfo(0, 0, 0))
  }

  /** A log of `n` messages by someone else of which only number `s` is unread. */
  function AllButOne(n: nat, s: nat): Ground {
    Ground(seq(n, i requires 0 <= i < n => PlainMessage(i + 1)), "", 0, Interval(0, n) - {s})
  }

  lemma OnlyUnread(n: nat, s: nat)
    requires 1 <= s <= n
    ensures forall x: nat :: Missing(AllButOne(n, s), x) <==> x == s
    ensures GaplessLog(AllButOne(n, s).log)
  {
    var g := AllButOne(n, s);
    IntervalFacts(0, n);
    forall x: nat ensures Missing(g, x) <==> x == s {
      if 1 <= x <= n {
        assert g.log[x - 1] == PlainMessage(x);
      }
    }
  }

  lemma UnsafeMergeOverclaims(k: Cargo, job: Job, s: nat) returns (g: Ground)
    requires job.Deliver? && k.retry.Some? && k.retry.value.latest.Some?
    requires forall n | n in Sequences(job.items) :: n <= job.latest
    requires Max(job.latest, k.cursor) < s <= k.retry.value.latest.value
    requires k.retry.value.coverage.Some? ==> s <= k.retry.value.coverage.value
    requires s !in Sequences(k.retry.value.items)
    ensures PartsHold(g, k, job) && !Honest(g, Prepared(k, job))
  {
    var r := k.retry.value;
    g := AllButOne(r.latest.value, s);
    OnlyUnread(r.latest.value, s);
    SequencesConcat(r.items, job.items);
    FreshKeeps(r.items + job.items, k.cursor, k.pullWindow, {});
    assert Missing(g, s);
  }

  /**
    The exact condition.  The merged batch is honest on every ground on which its
    parts are if and only if the failed batch holds each number between the pull's
    watermark and its own that its own claim does not reach.
    */
  lemma MergeSafeIff(k: Cargo, job: Job)
    requires job.Deliver? && k.retry.Some?
    requires forall n | n in Sequences(job.items) :: n <= job.latest
    ensures (forall g :: PartsHold(g, k, job) ==> Honest(g, Prepared(k, job)))
            <==> MergeSafe(k.retry.value, job.latest, k.cursor)
  {
    var r := k.retry.value;
    if MergeSafe(r, job.latest, k.cursor) {
      forall g | PartsHold(g, k, job) ensures Honest(g, Prepared(k, job)) {
        SafeMergeIsHonest(g, k, job);
      }
    } else {
      var s: nat :| InHole(r, job.latest, k.cursor, s);
      var g := UnsafeMergeOverclaims(k, job, s);
    }
  }

  // ----- what happens on the run -----

  function PullJobs(jobs: seq<Job>): nat {
    if jobs == [] then 0 else (if jobs[0].Deliver? then 1 else 0) + PullJobs(jobs[1..])
  }

  /** The one pull is handing its items over exactly while its flush is queued or running. */
  predicate OnePull(c: Client) {
    PullJobs(c.cargo.jobs) + (if c.cargo.running.Some? && c.cargo.running.value.pulled then 1 else 0)
    == if c.pull == Handing then 1 else 0
  }

  lemma {:induction false} PullsPush(jobs: seq<Job>, job: Job)
    ensures PullJobs(jobs + [job]) == PullJobs(jobs) + if job.Deliver? then 1 else 0
  {
    if jobs == [] {
      assert jobs + [job] == [job];
      assert [job][1..] == [];
    } else {
      assert (jobs + [job])[1..] == jobs[1..] + [job];
      PullsPush(jobs[1..], job);
    }
  }

  lemma FlushesKeepOnePull(c: Client, accepted: bool)
    requires OnePull(c)
    ensures OnePull(StartFlush(c)) && OnePull(FinishFlush(c, accepted))
  {
  }

  lemma PageKeepsOnePull(c: Client, page: FetchPage, written: bool)
    requires OnePull(c)
    ensures OnePull(PageArrives(c, page, written))
  {
    var items := PageItems(page.messages, c.me);
    PullsPush(c.cargo.jobs, Deliver(c.cargo.pending + items, page.latest));
  }

  lemma FramesKeepOnePull(c: Client, f: Frame, i: Item)
    requires OnePull(c)
    ensures OnePull(OnFrame(c, f)) && OnePull(OnItem(c, i))
  {
  }

  /** Nothing else begins or ends a hand-over. */
  predicate SameHandOver(c: Client, d: Client) {
    d.cargo.jobs == c.cargo.jobs && d.cargo.running == c.cargo.running && (c.pull == Handing) == (d.pull == Handing)
  }

  lemma TimersSameHandOver(c: Client, u: Update, tokenSent: bool)
    ensures SameHandOver(c, IdleWindowFires(c, tokenSent))
    ensures SameHandOver(c, DeliveryWindowFires(c))
    ensures SameHandOver(c, FetchFails(c))
    ensures SameHandOver(c, PullResumes(c))
    ensures SameHandOver(c, OnUpdate(c, u, tokenSent))
  {
  }

  lemma AgentSameHandOver(c: Client)
    ensures SameHandOver(c, AgentStarts(c))
    ensures SameHandOver(c, SettleRun(c))
    ensures SameHandOver(c, RunWedged(c))
    ensures SameHandOver(c, ConsumeAbortToken(c))
    ensures SameHandOver(c, MarkIncrementPending(c))
  {
  }

  lemma FrameKeepsOnePull(w: World, s: nat)
    requires OnePull(w.c)
    ensures OnePull(FrameStep(w, s).c)
  {
    if 1 <= s <= |w.log| {
      FramesKeepOnePull(w.c, FrameAt(w.log, s, w.c.me), Welcome(0));
    }
  }

  lemma NoticeKeepsOnePull(w: World, item: Item)
    requires OnePull(w.c)
    ensures OnePull(NoticeStep(w, item).c)
  {
    FramesKeepOnePull(w.c, Placeholder("", 0, "", UserPersona, Party("", "")), item);
  }

  lemma ReplyKeepsOnePull(w: World, n: nat, window: nat, written: bool)
    requires OnePull(w.c)
    ensures OnePull(ReplyStep(w, n, window, written).c)
  {
    if Replies(w, n) {
      PageKeepsOnePull(w.c, PageAt(w.log, n, w.c.pull.since, window, w.c.me), written);
    }
  }

  lemma UpdateKeepsOnePull(w: World, n: nat, tokenSent: bool)
    requires OnePull(w.c)
    ensures OnePull(UpdateStep(w, n, tokenSent).c)
  {
    if n <= |w.log| {
      TimersSameHandOver(w.c, UpdateAt(w.log, n), tokenSent);
    }
  }

  lemma DebounceKeepsOnePull(w: World)
    requires OnePull(w.c)
    ensures OnePull(DebounceStep(w).c)
  {
    PullsPush(w.c.cargo.jobs, Drain);
  }

  lemma IncomingKeepsOnePull(w: World, e: Event)
    requires OnePull(w.c) && IncomingEvent(e)
    ensures OnePull(Step(w, e).c)
  {
    match e
    case Publish(_) =>
    case UpdateArrives(n, tokenSent) => UpdateKeepsOnePull(w, n, tokenSent);
    case FrameArrives(s) => FrameKeepsOnePull(w, s);
    case NoticeArrives(item) => NoticeKeepsOnePull(w, item);
    case DebounceElapses => DebounceKeepsOnePull(w);
    case FetchReplies(n, window, written) => ReplyKeepsOnePull(w, n, window, written);
  }

  lemma TimerSameHandOver(w: World, tokenSent: bool)
    ensures SameHandOver(w.c, IdleStep(w, tokenSent).c) && SameHandOver(w.c, DeliveryWindowStep(w).c)
    ensures SameHandOver(w.c, BreakStep(w).c) && SameHandOver(w.c, GoOnStep(w).c)
  {
    TimersSameHandOver(w.c, Update(0, []), tokenSent);
  }

  lemma AgentStepSameHandOver(w: World)
    ensures SameHandOver(w.c, RunStartStep(w).c) && SameHandOver(w.c, SettleStep(w).c)
    ensures SameHandOver(w.c, WedgeStep(w).c) && SameHandOver(w.c, BoundaryStep(w).c)
    ensures SameHandOver(w.c, MarkStep(w).c)
  {
    AgentSameHandOver(w.c);
  }

  lemma TimerEventSameHandOver(w: World, e: Event)
    requires TimerEvent(e)
    ensures SameHandOver(w.c, Step(w, e).c)
  {
    match e
    case IdleWindowElapses(tokenSent) => TimerSameHandOver(w, tokenSent);
    case DeliveryWindowElapses => TimerSameHandOver(w, true);
    case FetchBreaks => TimerSameHandOver(w, true);
    case PullGoesOn => TimerSameHandOver(w, true);
  }

  lemma AgentEventSameHandOver(w: World, e: Event)
    requires AgentEvent(e)
    ensures SameHandOver(w.c, Step(w, e).c)
  {
    AgentStepSameHandOver(w);
  }

  lemma BatchKeepsOnePull(w: World, e: Event)
    requires OnePull(w.c) && BatchEvent(e)
    ensures OnePull(Step(w, e).c)
  {
    FlushesKeepOnePull(w.c, if e.FlushEnds? then e.accepted else true);
  }

  lemma LifeKeepsOnePull(w: World, e: Event)
    requires OnePull(w.c) && LifeEvent(e)
    ensures OnePull(Step(w, e).c)
  {
  }

  lemma StepKeepsOnePull(w: World, e: Event)
    requires OnePull(w.c)
    ensures OnePull(Step(w, e).c)
  {
    if TimerEvent(e) {
      TimerEventSameHandOver(w, e);
    } else if AgentEvent(e) {
      AgentEventSameHandOver(w, e);
    } else if LifeEvent(e) {
      LifeKeepsOnePull(w, e);
    } else if BatchEvent(e) {
      BatchKeepsOnePull(w, e);
    } else {
      IncomingKeepsOnePull(w, e);
    }
  }

  lemma {:induction false} AlwaysOnePull(log: seq<Message>, me: string, preset: nat, es: seq<Event>)
    ensures OnePull(Run(Start(log, me, preset), es).c)
    decreases |es|
  {
    if es != [] {
      AlwaysOnePull(log, me, preset, es[..|es| - 1]);
      StepKeepsOnePull(Run(Start(log, me, preset), es[..|es| - 1]), es[|es| - 1]);
    }
  }

  /** The merged flush starts, pi takes its batch and puts it before the agent. */
  ghost function Consumed(w: World, written: bool): World {
    ConsumeStep(FlushEndStep(FlushStep(w), true), |w.pi|, written)
  }

  /** What the merged flush prepares. */
  lemma MergedFlight(w: World)
    requires Merges(w.c) && OnePull(w.c)
    ensures
      var v := FlushStep(w);
      && v.c.cargo.running == Some(Flight(Prepared(w.c.cargo, w.c.cargo.jobs[0]), true))
      && StateReplies(v) && !v.c.stopped && v.pi == w.pi && v.log == w.log && v.consumed == w.consumed
      && v.preset == w.preset && v.c.me == w.c.me && v.c.cargo.cursor == w.c.cargo.cursor
  {
    assert PullJobs(w.c.cargo.jobs) > 0;
  }

  lemma FlightIsConsumed(v: World, written: bool)
    requires v.c.cargo.running.Some? && !v.c.stopped && StateReplies(v)
    ensures
      var b := v.c.cargo.running.value.batch;
      var u := ConsumeStep(FlushEndStep(v, true), |v.pi|, written);
      && u.consumed == v.consumed + Sequences(b.items)
      && u.log == v.log && u.preset == v.preset && u.c.me == v.c.me
      && u.c.cargo.cursor ==
         if b.latest.Some? && b.coverage.Some? && b.coverage.value <= v.c.cargo.cursor < b.latest.value then
           b.latest.value
         else v.c.cargo.cursor
  {
  }

  /** A message still to be read in the hole of a merge is skipped as soon as the merged batch is read. */
  lemma HoleIsSkipped(w: World, written: bool, s: nat)
    requires Inv(w) && Merges(w.c) && OnePull(w.c)
    requires Missing(GroundOf(w), s)
    requires InHole(w.c.cargo.retry.value, w.c.cargo.jobs[0].latest, w.c.cargo.cursor, s)
    ensures s <= Consumed(w, written).c.cargo.cursor && Missing(GroundOf(Consumed(w, written)), s)
  {
    var k := w.c.cargo;
    var job, r := k.jobs[0], k.retry.value;
    var b := Prepared(k, job);
    MergedFlight(w);
    FlightIsConsumed(FlushStep(w), written);
    assert Complete(GroundOf(w), job);
    SequencesConcat(r.items, job.items);
    FreshKeeps(r.items + job.items, k.cursor, k.pullWindow, {});
    assert s !in Sequences(b.items);
  }

  /**
    The exact condition on the run.  From any reachable state in which a merging
    flush is about to start, once pi has read the merged batch something at most
    the cursor is unread if and only if a message still to be read is in the hole.
    */
  lemma MergeSkipsIff(w: World, written: bool)
    requires Inv(w) && Merges(w.c) && OnePull(w.c)
    ensures
      var v := Consumed(w, written);
      (exists s: nat :: s <= v.c.cargo.cursor && Missing(GroundOf(v), s))
      <==> !HoleRead(GroundOf(w), w.c.cargo.retry.value, w.c.cargo.jobs[0].latest, w.c.cargo.cursor)
  {
    var v := Consumed(w, written);
    if HoleRead(GroundOf(w), w.c.cargo.retry.value, w.c.cargo.jobs[0].latest, w.c.cargo.cursor) {
      FlushStartKeeps(w);
      FlushEndKeeps(FlushStep(w), true);
      ConsumeKeeps(FlushEndStep(FlushStep(w), true), |w.pi|, written);
      assert ReadUpTo(GroundOf(v), v.c.cargo.cursor);
    } else {
      var k := w.c.cargo;
      var s: nat :| Missing(GroundOf(w), s) && InHole(k.retry.value, k.jobs[0].latest, k.cursor, s);
      HoleIsSkipped(w, written, s);
    }
  }

  /**
    The same for runs: after any safe run that brings a merge, the next one skips
    exactly when the hole is not read.
    */
  lemma {:induction false} RunSkipsIff(log: seq<Message>, me: string, preset: nat, es: seq<Event>, written: bool)
    requires GaplessLog(log) && preset <= |log| && SafeRun(Start(log, me, preset), es)
    requires Merges(Run(Start(log, me, preset), es).c)
    ensures
      var w := Run(Start(log, me, preset), es);
      var v := Run(Start(log, me, preset), es + [FlushStarts] + [FlushEnds(true)] + [PiConsumes(|w.pi|, written)]);
      (exists s: nat :: s <= v.c.cargo.cursor && Missing(GroundOf(v), s))
      <==> !HoleRead(GroundOf(w), w.c.cargo.retry.value, w.c.cargo.jobs[0].latest, w.c.cargo.cursor)
  {
    var w := Run(Start(log, me, preset), es);
    AlwaysSound(log, me, preset, es);
    AlwaysOnePull(log, me, preset, es);
    RunConsumes(Start(log, me, preset), es, written);
    MergeSkipsIff(w, written);
  }

  lemma RunConsumes(start: World, es: seq<Event>, written: bool)
    ensures
      var w := Run(start, es);
      Run(start, es + [FlushStarts] + [FlushEnds(true)] + [PiConsumes(|w.pi|, written)]) == Consumed(w, written)
  {
    ThenFlushStarts(start, es);
    ThenFlushEnds(start, es + [FlushStarts], true);
    ThenPiConsumes(start, es + [FlushStarts] + [FlushEnds(true)], |Run(start, es).pi|, written);
  }

  // ----- the run -----

  /** Whisper number `s`, from someone else to the client. */
  function RaceWhisper(s: nat): Message {
    Message(Character("b", "b"), Some(Party("a", "a")), "", "", s, "", RoundInfo(0, 0, 0))
  }

  function RaceLog(n: nat): seq<Message> {
    seq(n, i requires 0 <= i < n => RaceWhisper(i + 1))
  }

  function Live(s: nat): Item {
    Chat(Full(RaceWhisper(s)))
  }

  predicate At(w: World, n: nat, k: Cargo, pull: Pull, pi: seq<Batch>) {
    && w.log == RaceLog(n) && w.preset == 0 && w.arrived == n && w.consumed == {} && w.pi == pi
    && w.c.me == "a" && w.c.cargo == k && k.cursor == 0 && w.c.pull == pull && !w.c.refetch && w.c.injected == n
    && !w.c.stopped && !w.c.agent.active && !w.c.agent.wedgedSettled
    && (pull.Fetching? ==> w.sent <= n && !w.stateFirst)
  }

  /** Another's board update, which only keeps the debounce going. */
  const BOARD := BoardUpdate("b", 0)

  const ARRIVAL := Publish(RaceWhisper(0))

  lemma ArrivesStep(w: World, n: nat, k: Cargo, pull: Pull, pi: seq<Batch>)
    requires At(w, n, k, pull, pi)
    ensures
      var v := Step(Step(w, ARRIVAL), FrameArrives(n + 1));
      At(v, n + 1, k.(pending := k.pending + [Live(n + 1)]), pull, pi) && v.c.timers.debounce
  {
    var u := Step(w, ARRIVAL);
    assert u.log == RaceLog(n + 1);
    assert FrameAt(u.log, n + 1, "a") == Full(RaceWhisper(n + 1));
    assert Max(0, n) + 1 == n + 1;
  }

  /** The next whisper is published and arrives. */
  lemma Arrives(w: World, es: seq<Event>, n: nat, k: Cargo, pull: Pull, pi: seq<Batch>) returns (fs: seq<Event>)
    requires At(Run(w, es), n, k, pull, pi)
    ensures At(Run(w, fs), n + 1, k.(pending := k.pending + [Live(n + 1)]), pull, pi) && Run(w, fs).c.timers.debounce
  {
    ArrivesStep(Run(w, es), n, k, pull, pi);
    Then(w, es, ARRIVAL);
    Then(w, es + [ARRIVAL], FrameArrives(n + 1));
    fs := es + [ARRIVAL] + [FrameArrives(n + 1)];
  }

  lemma DrainsStep(w: World, n: nat, k: Cargo, pull: Pull, pi: seq<Batch>)
    requires At(w, n, k, pull, pi) && w.c.timers.debounce
    ensures At(DebounceStep(w), n, k.(jobs := k.jobs + [Drain]), pull, pi)
  {
  }

  lemma Drains(w: World, es: seq<Event>, n: nat, k: Cargo, pull: Pull, pi: seq<Batch>) returns (fs: seq<Event>)
    requires At(Run(w, es), n, k, pull, pi) && Run(w, es).c.timers.debounce
    ensures At(Run(w, fs), n, k.(jobs := k.jobs + [Drain]), pull, pi)
  {
    DrainsStep(Run(w, es), n, k, pull, pi);
    ThenDebounce(w, es);
    fs := es + [DebounceElapses];
  }

  function LiveBatch(s: nat): Batch {
    Batch([Live(s)], Some(s - 1), Some(s))
  }

  lemma LiveBatchOf(k: Cargo, s: nat)
    requires s > 0 && k.pending == [Live(s)] && k.retry == None && k.cursor == 0
    ensures Prepared(k, Drain) == LiveBatch(s)
  {
    var items := [Live(s)];
    assert items[1..] == [];
    assert Fresh([], 0, k.pullWindow, {s}) == [];
    assert Fresh(items, 0, k.pullWindow, {}) == items;
    SequencesSingle(Live(s));
    assert LowestInjected(items) == Some(s) && HighestInjected(items) == s;
    assert |InjectedSequences(items)| == 1;
  }

  lemma FlushesStep(w: World, n: nat, k: Cargo, pull: Pull, pi: seq<Batch>)
    requires At(w, n, k, pull, pi) && n > 0
    requires k.pending == [Live(n)] && k.jobs != [] && k.jobs[0] == Drain && k.running == None && k.retry == None
    ensures At(FlushStep(w), n, k.(pending := [], jobs := k.jobs[1..], running := Some(Flight(LiveBatch(n), false))),
               pull, pi)
  {
    LiveBatchOf(k, n);
  }

  /** The queued flush takes the one pending whisper. */
  lemma Flushes(w: World, es: seq<Event>, n: nat, k: Cargo, pull: Pull, pi: seq<Batch>) returns (fs: seq<Event>)
    requires At(Run(w, es), n, k, pull, pi) && n > 0
    requires k.pending == [Live(n)] && k.jobs != [] && k.jobs[0] == Drain && k.running == None && k.retry == None
    ensures At(Run(w, fs), n, k.(pending := [], jobs := k.jobs[1..], running := Some(Flight(LiveBatch(n), false))),
               pull, pi)
  {
    FlushesStep(Run(w, es), n, k, pull, pi);
    ThenFlushStarts(w, es);
    fs := es + [FlushStarts];
  }

  lemma EndsStep(w: World, n: nat, k: Cargo, pull: Pull, pi: seq<Batch>, b: Batch, accepted: bool)
    requires At(w, n, k, pull, pi) && !pull.Fetching?
    requires k.running == Some(Flight(b, false)) && k.retry == None
    ensures At(FlushEndStep(w, accepted), n, k.(running := None, retry := if accepted then None else Some(b)), pull,
               if accepted then pi + [b] else pi)
  {
  }

  /** pi accepts the batch or refuses it. */
  lemma Ends(w: World, es: seq<Event>, n: nat, k: Cargo, pull: Pull, pi: seq<Batch>, b: Batch, accepted: bool)
    returns (fs: seq<Event>)
    requires At(Run(w, es), n, k, pull, pi) && !pull.Fetching?
    requires k.running == Some(Flight(b, false)) && k.retry == None
    ensures At(Run(w, fs), n, k.(running := None, retry := if accepted then None else Some(b)), pull,
               if accepted then pi + [b] else pi)
  {
    EndsStep(Run(w, es), n, k, pull, pi, b, accepted);
    ThenFlushEnds(w, es, accepted);
    fs := es + [FlushEnds(accepted)];
  }

  function RacePage(): Batch {
    Batch([Live(4), Live(2), BOARD, Live(1)], Some(0), Some(4))
  }

  const RACE_PULL := Deliver([Live(2), BOARD, Live(1), Live(2)], 2)

  /** The pull's flush comes last and takes the failed whisper 4 with it: the claim is (0, 4], without 3. */
  lemma RaceMerge(k: Cargo)
    requires k.retry == Some(LiveBatch(4)) && k.cursor == 0 && k.pullWindow == {}
    ensures Prepared(k, RACE_PULL) == RacePage()
    ensures !MergeSafe(LiveBatch(4), 2, 0)
  {
    var items := Gathered(k, RACE_PULL);
    assert items == [Live(4), Live(2), BOARD, Live(1), Live(2)];
    assert items[1..] == [Live(2), BOARD, Live(1), Live(2)];
    assert items[1..][1..] == [BOARD, Live(1), Live(2)];
    assert items[1..][1..][1..] == [Live(1), Live(2)];
    assert items[1..][1..][1..][1..] == [Live(2)];
    assert items[1..][1..][1..][1..][1..] == [];
    assert Fresh([Live(2)], 0, {}, {4, 2, 1}) == [];
    assert {4, 2} + {1} == {4, 2, 1};
    assert {4} + {2} == {4, 2};
    assert {} + {4} == {4};
    assert Fresh([Live(1), Live(2)], 0, {}, {4, 2}) == [Live(1)];
    assert Fresh([BOARD, Live(1), Live(2)], 0, {}, {4, 2}) == [BOARD, Live(1)];
    assert Fresh(items[1..], 0, {}, {4}) == [Live(2), BOARD, Live(1)];
    SequencesSingle(Live(4));
    assert InHole(LiveBatch(4), 2, 0, 3);
  }

  /** Whisper 1 arrives while a run is active. */
  lemma ArrivesDuringRun(w: World)
    requires At(w, 0, NewClient("a", 0).cargo, Resting, [])
    ensures
      var v := FrameStep(PublishStep(w.(c := AgentStarts(w.c)), RaceWhisper(0)), 1);
      && v.c.agent.active
      && At(v.(c := v.c.(agent := w.c.agent)), 1, NewClient("a", 0).cargo.(pending := [Live(1)]), Resting, [])
      && v.c.timers.debounce && !v.c.agent.wedgedSettled
  {
    var u := PublishStep(w.(c := AgentStarts(w.c)), RaceWhisper(0));
    assert u.log == RaceLog(1);
    assert FrameAt(u.log, 1, "a") == Full(RaceWhisper(1));
  }

  /** The speak of that run is rejected as stale; the end of the run starts a pull. */
  lemma StaleSpeakPulls(v: World, k: Cargo, agent: Agent)
    requires At(v.(c := v.c.(agent := agent)), 1, k, Resting, [])
    requires v.c.agent.active && !v.c.agent.wedgedSettled && v.c.timers.debounce && k.running == None
    ensures
      var u := SettleStep(MarkStep(v));
      At(u, 1, k, Fetching(0), []) && u.c.timers.debounce
  {
  }

  /**
    Whisper 1 arrives during a run, whose own message is rejected because of it; so
    the end of the run starts a pull.  While the creator is busy whisper 1 is
    being flushed behind that pull and two more flushes queue up.
    */
  lemma RaceOpening(w: World) returns (es: seq<Event>)
    requires At(w, 0, NewClient("a", 0).cargo, Resting, [])
    ensures At(Run(w, es), 2,
               Cargo([Live(2), BOARD], {}, [Drain, Drain], Some(Flight(LiveBatch(1), false)), None, 0, 0),
               Fetching(0), [])
  {
    es := Opens(w);
    var k := NewClient("a", 0).cargo;
    es := Drains(w, es, 1, k.(pending := [Live(1)]), Fetching(0), []);
    es := Flushes(w, es, 1, k.(pending := [Live(1)], jobs := [Drain]), Fetching(0), []);
    k := k.(running := Some(Flight(LiveBatch(1), false)));
    es := Arrives(w, es, 1, k, Fetching(0), []);
    es := Drains(w, es, 2, k.(pending := [Live(2)]), Fetching(0), []);
    k := k.(pending := [Live(2)], jobs := [Drain]);
    es := Notices(w, es, 2, k, Fetching(0), []);
    es := Drains(w, es, 2, k.(pending := [Live(2), BOARD]), Fetching(0), []);
  }

  lemma Opens(w: World) returns (es: seq<Event>)
    requires At(w, 0, NewClient("a", 0).cargo, Resting, [])
    ensures At(Run(w, es), 1, NewClient("a", 0).cargo.(pending := [Live(1)]), Fetching(0), [])
        && Run(w, es).c.timers.debounce
  {
    ArrivesDuringRun(w);
    var v := FrameStep(PublishStep(w.(c := AgentStarts(w.c)), RaceWhisper(0)), 1);
    StaleSpeakPulls(v, NewClient("a", 0).cargo.(pending := [Live(1)]), w.c.agent);
    es := [RunStarts] + [ARRIVAL] + [FrameArrives(1)];
    OpeningRun(w);
    assert Run(w, es) == v;
    MarkAndSettle(w, es);
    es := es + [MarkedPending] + [RunSettles];
  }

  lemma OpeningRun(w: World)
    ensures Run(w, [RunStarts] + [ARRIVAL] + [FrameArrives(1)])
            == FrameStep(PublishStep(w.(c := AgentStarts(w.c)), RaceWhisper(0)), 1)
  {
    assert [] + [RunStarts] == [RunStarts];
    assert Run(w, [RunStarts]) == w.(c := AgentStarts(w.c)) by { Then(w, [], RunStarts); }
    assert Run(w, [RunStarts] + [ARRIVAL]) == PublishStep(w.(c := AgentStarts(w.c)), RaceWhisper(0)) by {
      Then(w, [RunStarts], ARRIVAL);
    }
    Then(w, [RunStarts] + [ARRIVAL], FrameArrives(1));
  }

  lemma MarkAndSettle(w: World, es: seq<Event>)
    ensures
      var v := Run(w, es);
      Run(w, es + [MarkedPending] + [RunSettles]) == SettleStep(MarkStep(v))
  {
    ThenMarked(w, es);
    ThenSettles(w, es + [MarkedPending]);
  }

  lemma NoticesStep(w: World, n: nat, k: Cargo, pull: Pull, pi: seq<Batch>)
    requires At(w, n, k, pull, pi)
    ensures At(NoticeStep(w, BOARD), n, k.(pending := k.pending + [BOARD]), pull, pi)
    ensures NoticeStep(w, BOARD).c.timers.debounce
  {
  }

  lemma Notices(w: World, es: seq<Event>, n: nat, k: Cargo, pull: Pull, pi: seq<Batch>) returns (fs: seq<Event>)
    requires At(Run(w, es), n, k, pull, pi)
    ensures At(Run(w, fs), n, k.(pending := k.pending + [BOARD]), pull, pi) && Run(w, fs).c.timers.debounce
  {
    NoticesStep(Run(w, es), n, k, pull, pi);
    fs := es + [NoticeArrives(BOARD)];
    ThenNotice(w, es, BOARD);
  }

  /** The page of the race's pull: both whispers, nothing read before. */
  lemma RacePageItems()
    ensures
      var page := FetchMessagesSince(RaceLog(2), 0, Some("a"));
      var items := PageItems(page.messages, "a");
      && items == [Live(1), Live(2)] && page.latest == 2
      && AnyUnread(items, 0) && WindowSequences(items, 0) == {}
  {
    var log := RaceLog(2);
    assert log == [RaceWhisper(1), RaceWhisper(2)];
    AfterIsSuffix(log, 0, 0);
    assert After(log, 0) == log;
    var frames := ProjectAll(log, Some("a"));
    assert frames == [Full(RaceWhisper(1)), Full(RaceWhisper(2))];
    assert frames[1..] == [Full(RaceWhisper(2))];
    assert frames[1..][1..] == [];
    assert PageItems(frames[1..], "a") == [Live(2)] + PageItems(frames[1..][1..], "a");
    assert PageItems(frames, "a") == [Live(1), Live(2)];
    SequencesConcat([Live(1)], [Live(2)]);
    SequencesSingle(Live(1));
    SequencesSingle(Live(2));
    assert [Live(1)] + [Live(2)] == [Live(1), Live(2)];
    assert 2 in Sequences(PageItems(frames, "a"));
  }

  lemma RacePages(w: World, es: seq<Event>, k: Cargo) returns (fs: seq<Event>)
    requires At(Run(w, es), 2, k, Fetching(0), []) && k.pending == [Live(2), BOARD] && k.pullWindow == {}
    ensures At(Run(w, fs), 2, k.(jobs := k.jobs + [RACE_PULL], pending := []), Handing, [])
  {
    var u := Run(w, es);
    RacePagesStep(u, k);
    var v := ReplyStep(u, 2, 0, true);
    fs := es + [FetchReplies(2, 0, true)];
    ThenReplies(w, es, 2, 0, true);
  }

  lemma RacePagesStep(w: World, k: Cargo)
    requires At(w, 2, k, Fetching(0), []) && k.pending == [Live(2), BOARD] && k.pullWindow == {}
    ensures At(ReplyStep(w, 2, 0, true), 2, k.(jobs := k.jobs + [RACE_PULL], pending := []), Handing, [])
  {
    RacePageItems();
    assert RaceLog(2)[..2] == RaceLog(2);
    assert PageAt(w.log, 2, 0, 0, "a") == FetchMessagesSince(RaceLog(2), 0, Some("a"));
    assert k.pending + [Live(1), Live(2)] == RACE_PULL.items;
  }

  /**
    Whisper 3 arrives and goes out, whisper 4 arrives behind it and is refused, all
    before the pull's own flush starts.
    */
  lemma RaceMiddle(w: World, es: seq<Event>, k: Cargo) returns (fs: seq<Event>)
    requires At(Run(w, es), 2, k, Handing, [])
    requires k == Cargo([], {}, [Drain, Drain, RACE_PULL], Some(Flight(LiveBatch(1), false)), None, 0, 0)
    ensures At(Run(w, fs), 4, Cargo([], {}, [RACE_PULL], None, Some(LiveBatch(4)), 0, 0), Handing,
               [LiveBatch(1), LiveBatch(3)])
  {
    var pi := [LiveBatch(1)];
    fs := Arrives(w, es, 2, k, Handing, []);
    fs := Ends(w, fs, 3, k.(pending := [Live(3)]), Handing, [], LiveBatch(1), true);
    assert [] + [LiveBatch(1)] == pi;
    fs := Flushes(w, fs, 3, k.(pending := [Live(3)], running := None), Handing, pi);
    var d := k.(jobs := [Drain, RACE_PULL], running := Some(Flight(LiveBatch(3), false)));
    fs := Arrives(w, fs, 3, d, Handing, pi);
    fs := Ends(w, fs, 4, d.(pending := [Live(4)]), Handing, pi, LiveBatch(3), true);
    pi := [LiveBatch(1), LiveBatch(3)];
    fs := Flushes(w, fs, 4, d.(pending := [Live(4)], running := None), Handing, pi);
    d := d.(jobs := [RACE_PULL], running := Some(Flight(LiveBatch(4), false)));
    fs := Ends(w, fs, 4, d, Handing, pi, LiveBatch(4), false);
  }

  const RACE_LAST := Cargo([], {}, [RACE_PULL], None, Some(LiveBatch(4)), 0, 0)

  /** pi drops the first batch of its queue. */
  lemma Dropped(w: World, es: seq<Event>, k: Cargo, pull: Pull, pi: seq<Batch>) returns (fs: seq<Event>)
    requires At(Run(w, es), 4, k, pull, pi) && pi != []
    ensures At(Run(w, fs), 4, k, pull, pi[1..])
  {
    fs := es + [PiDrops(0)];
    assert Run(w, fs) == DropStep(Run(w, es), 0) by {
      Then(w, es, PiDrops(0));
    }
    assert Without(pi, 0) == pi[1..];
  }

  /** pi clears its queue: whispers 1 and 3 are dropped with it. */
  lemma QueueIsCleared(w: World, es: seq<Event>) returns (fs: seq<Event>)
    requires At(Run(w, es), 4, RACE_LAST, Handing, [LiveBatch(1), LiveBatch(3)])
    ensures At(Run(w, fs), 4, RACE_LAST, Handing, [])
  {
    fs := Dropped(w, es, RACE_LAST, Handing, [LiveBatch(1), LiveBatch(3)]);
    fs := Dropped(w, fs, RACE_LAST, Handing, [LiveBatch(3)]);
  }

  lemma RaceMergeStarts(w: World)
    requires At(w, 4, RACE_LAST, Handing, [])
    ensures At(FlushStep(w), 4, Cargo([], {}, [], Some(Flight(RacePage(), true)), None, 0, 0), Handing, [])
  {
    RaceMerge(w.c.cargo);
  }

  lemma RaceMergeIsRead(w: World)
    requires At(w, 4, Cargo([], {}, [], Some(Flight(RacePage(), true)), None, 0, 0), Handing, [])
    ensures
      var v := ConsumeStep(FlushEndStep(w, true), 0, true);
      v.c.cargo.cursor == 4 && 3 !in v.consumed && v.log == w.log
  {
    RacePageWithout3();
    FlightIsConsumed(w, true);
    assert |w.pi| == 0;
  }

  lemma RaceEnding(w: World, es: seq<Event>) returns (fs: seq<Event>)
    requires At(Run(w, es), 4, RACE_LAST, Handing, [LiveBatch(1), LiveBatch(3)])
    ensures Run(w, fs).c.cargo.cursor == 4 && 3 !in Run(w, fs).consumed && Run(w, fs).log == RaceLog(4)
  {
    fs := QueueIsCleared(w, es);
    var v := Run(w, fs);
    RaceMergeStarts(v);
    RaceMergeIsRead(FlushStep(v));
    RunConsumes(w, fs, true);
    fs := fs + [FlushStarts] + [FlushEnds(true)] + [PiConsumes(|v.pi|, true)];
  }

  lemma RacePageWithout3()
    ensures 3 !in Sequences(RacePage().items)
  {
    var items := RacePage().items;
    assert items == [Live(4)] + [Live(2)] + [BOARD] + [Live(1)];
    SequencesConcat([Live(4)] + [Live(2)] + [BOARD], [Live(1)]);
    SequencesConcat([Live(4)] + [Live(2)], [BOARD]);
    SequencesConcat([Live(4)], [Live(2)]);
    SequencesSingle(Live(4));
    SequencesSingle(Live(2));
    SequencesSingle(BOARD);
    SequencesSingle(Live(1));
  }

  /**
    The skip.  pi refuses one live batch and drops another while a pull waits its
    turn; the merge that follows claims both, and the cursor passes whisper 3,
    addressed to this client, which its agent never read.
    */
  lemma UnsafeMergeSkips() returns (es: seq<Event>)
    ensures
      var w := Run(Start([], "a", 0), es);
      && 3 <= w.c.cargo.cursor
      && ByOther(w.log, "a", 3)
      && 3 !in w.consumed
  {
    var w := Start([], "a", 0);
    assert w.log == RaceLog(0);
    es := RaceOpening(w);
    es := RacePages(w, es, Cargo([Live(2), BOARD], {}, [Drain, Drain], Some(Flight(LiveBatch(1), false)), None, 0, 0));
    es := RaceMiddle(w, es, Cargo([], {}, [Drain, Drain, RACE_PULL], Some(Flight(LiveBatch(1), false)), None, 0, 0));
    es := RaceEnding(w, es);
  }
}
