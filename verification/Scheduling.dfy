/**
  Nothing taken in is left lying: while items are pending or a failed batch waits
  for its retry, a flush is running, queued or about to be, except after a reload
  that comes between the debounce and its flush.
  */
module Scheduling {
  import opened Common
  import opened Messages
  import opened Preview
  import opened Delivery
  import opened DeliveryWorld

  /** Some flush is coming. */
  predicate FlushAhead(c: Client) {
    c.timers.debounce || c.cargo.jobs != [] || c.cargo.running.Some?
  }

  predicate Scheduled(c: Client) {
    && (c.stopped ==> c.cargo.pending == [])
    && (c.cargo.running.Some? ==> c.cargo.retry.None?)
    && (!c.stopped && (c.cargo.pending != [] || c.cargo.retry.Some?) ==> FlushAhead(c))
  }

  lemma FramesKeep(c: Client, f: Frame, i: Item)
    requires Scheduled(c) && !c.stopped
    ensures Scheduled(OnFrame(c, f)) && Scheduled(OnItem(c, i))
  {
  }

  lemma FlushStartKeepsSchedule(c: Client)
    requires Scheduled(c)
    ensures Scheduled(StartFlush(c))
  {
  }

  lemma FlushEndKeepsSchedule(c: Client, accepted: bool)
    requires Scheduled(c)
    ensures Scheduled(FinishFlush(c, accepted))
  {
  }

  lemma PageKeeps(c: Client, page: FetchPage, written: bool)
    requires Scheduled(c)
    ensures Scheduled(PageArrives(c, page, written))
  {
  }

  /** Nothing a flush depends on has changed. */
  predicate SameDebounce(c: Client, d: Client) {
    d.stopped == c.stopped && d.timers.debounce == c.timers.debounce
    && d.cargo.pending == c.cargo.pending && d.cargo.jobs == c.cargo.jobs
    && d.cargo.running == c.cargo.running && d.cargo.retry == c.cargo.retry
  }

  lemma UpdateKeepsDebounce(c: Client, u: Update, tokenSent: bool)
    ensures SameDebounce(c, OnUpdate(c, u, tokenSent))
  {
  }

  lemma IdleKeepsDebounce(c: Client, tokenSent: bool)
    ensures SameDebounce(c, IdleWindowFires(c, tokenSent))
  {
  }

  lemma TimersKeepDebounce(c: Client)
    ensures SameDebounce(c, DeliveryWindowFires(c))
    ensures SameDebounce(c, FetchFails(c))
    ensures SameDebounce(c, PullResumes(c))
  {
  }

  lemma SettleKeepsDebounce(c: Client)
    ensures SameDebounce(c, SettleRun(c))
    ensures SameDebounce(c, RunWedged(c))
  {
  }

  lemma AgentKeepsDebounce(c: Client)
    ensures SameDebounce(c, AgentStarts(c))
    ensures SameDebounce(c, ConsumeAbortToken(c))
    ensures SameDebounce(c, MarkIncrementPending(c))
  {
  }

  /** The exact condition: a reload leaves pending items to a flush if and only if the debounce was still due. */
  lemma ReloadSchedulesIff(c: Client)
    ensures Scheduled(Reloaded(c)) <==> (c.cargo.pending != [] ==> c.timers.debounceDue)
  {
  }

  predicate ReloadsInTime(w: World, e: Event) {
    e.Reloads? && !w.c.stopped && w.c.cargo.pending != [] ==> w.c.timers.debounceDue
  }

  lemma FrameKeepsSchedule(w: World, s: nat)
    requires Scheduled(w.c)
    ensures Scheduled(FrameStep(w, s).c)
  {
    if !w.c.stopped && 1 <= s <= |w.log| {
      FramesKeep(w.c, FrameAt(w.log, s, w.c.me), Welcome(0));
    }
  }

  lemma NoticeKeepsSchedule(w: World, item: Item)
    requires Scheduled(w.c)
    ensures Scheduled(NoticeStep(w, item).c)
  {
    if !w.c.stopped {
      FramesKeep(w.c, Placeholder("", 0, "", UserPersona, Party("", "")), item);
    }
  }

  lemma ReplyKeepsSchedule(w: World, n: nat, window: nat, written: bool)
    requires Scheduled(w.c)
    ensures Scheduled(ReplyStep(w, n, window, written).c)
  {
    if Replies(w, n) {
      PageKeeps(w.c, PageAt(w.log, n, w.c.pull.since, window, w.c.me), written);
    }
  }

  lemma UpdateKeepsSchedule(w: World, n: nat, tokenSent: bool)
    requires Scheduled(w.c)
    ensures Scheduled(UpdateStep(w, n, tokenSent).c)
  {
    if n <= |w.log| {
      UpdateKeepsDebounce(w.c, UpdateAt(w.log, n), tokenSent);
    }
  }

  lemma IncomingKeepsSchedule(w: World, e: Event)
    requires Scheduled(w.c) && IncomingEvent(e)
    ensures Scheduled(Step(w, e).c)
  {
    match e
    case Publish(_) =>
    case UpdateArrives(n, tokenSent) => UpdateKeepsSchedule(w, n, tokenSent);
    case FrameArrives(s) => FrameKeepsSchedule(w, s);
    case NoticeArrives(item) => NoticeKeepsSchedule(w, item);
    case DebounceElapses =>
    case FetchReplies(n, window, written) => ReplyKeepsSchedule(w, n, window, written);
  }

  lemma BatchKeepsSchedule(w: World, e: Event)
    requires Scheduled(w.c) && BatchEvent(e)
    ensures Scheduled(Step(w, e).c)
  {
    match e
    case FlushStarts => FlushStartKeepsSchedule(w.c);
    case FlushEnds(accepted) => FlushEndKeepsSchedule(w.c, accepted);
    case PiConsumes(_, _) =>
    case PiDrops(_) =>
    case ForeignBatch(_, _) =>
  }

  lemma LifeKeepsSchedule(w: World, e: Event)
    requires Scheduled(w.c) && LifeEvent(e) && ReloadsInTime(w, e)
    ensures Scheduled(Step(w, e).c)
  {
    ReloadSchedulesIff(w.c);
  }

  lemma SameDebounceKeeps(c: Client, d: Client)
    requires Scheduled(c) && SameDebounce(c, d)
    ensures Scheduled(d)
  {
  }

  lemma IdleKeepsSchedule(w: World, tokenSent: bool)
    requires Scheduled(w.c)
    ensures Scheduled(IdleStep(w, tokenSent).c)
  {
    IdleKeepsDebounce(w.c, tokenSent);
  }

  lemma TimersKeepSchedule(w: World)
    requires Scheduled(w.c)
    ensures Scheduled(DeliveryWindowStep(w).c) && Scheduled(BreakStep(w).c) && Scheduled(GoOnStep(w).c)
  {
    TimersKeepDebounce(w.c);
  }

  lemma SettleKeepsSchedule(w: World)
    requires Scheduled(w.c)
    ensures Scheduled(SettleStep(w).c) && Scheduled(WedgeStep(w).c)
  {
    SettleKeepsDebounce(w.c);
    SameDebounceKeeps(w.c, SettleStep(w).c);
    SameDebounceKeeps(w.c, WedgeStep(w).c);
  }

  lemma AgentKeepsSchedule(w: World)
    requires Scheduled(w.c)
    ensures Scheduled(RunStartStep(w).c) && Scheduled(BoundaryStep(w).c) && Scheduled(MarkStep(w).c)
  {
    AgentKeepsDebounce(w.c);
  }

  lemma TimerEventKeepsSchedule(w: World, e: Event)
    requires Scheduled(w.c) && TimerEvent(e)
    ensures Scheduled(Step(w, e).c)
  {
    match e
    case IdleWindowElapses(tokenSent) => IdleKeepsSchedule(w, tokenSent);
    case DeliveryWindowElapses => TimersKeepSchedule(w);
    case FetchBreaks => TimersKeepSchedule(w);
    case PullGoesOn => TimersKeepSchedule(w);
  }

  lemma AgentEventKeepsSchedule(w: World, e: Event)
    requires Scheduled(w.c) && AgentEvent(e)
    ensures Scheduled(Step(w, e).c)
  {
    AgentKeepsSchedule(w);
    SettleKeepsSchedule(w);
  }

  lemma StepKeepsSchedule(w: World, e: Event)
    requires Scheduled(w.c) && ReloadsInTime(w, e)
    ensures Scheduled(Step(w, e).c)
  {
    if TimerEvent(e) {
      TimerEventKeepsSchedule(w, e);
    } else if AgentEvent(e) {
      AgentEventKeepsSchedule(w, e);
    } else if LifeEvent(e) {
      LifeKeepsSchedule(w, e);
    } else if BatchEvent(e) {
      BatchKeepsSchedule(w, e);
    } else {
      IncomingKeepsSchedule(w, e);
    }
  }

  ghost predicate AllReloadsInTime(w: World, es: seq<Event>)
    decreases |es|
  {
    es == [] || (AllReloadsInTime(w, es[..|es| - 1]) && ReloadsInTime(Run(w, es[..|es| - 1]), es[|es| - 1]))
  }

  /** On every run whose reloads come in time, pending items always have a flush ahead. */
  lemma {:induction false} AlwaysScheduled(log: seq<Message>, me: string, preset: nat, es: seq<Event>)
    requires AllReloadsInTime(Start(log, me, preset), es)
    ensures Scheduled(Run(Start(log, me, preset), es).c)
    decreases |es|
  {
    if es != [] {
      AlwaysScheduled(log, me, preset, es[..|es| - 1]);
      StepKeepsSchedule(Run(Start(log, me, preset), es[..|es| - 1]), es[|es| - 1]);
    }
  }

  /** No pull and no window is open; these are the pending items and the flushes, and no batch has failed. */
  predicate At(c: Client, pending: seq<Item>, jobs: seq<Job>, running: bool) {
    && !c.stopped && !c.agent.incrementPending && !c.timers.idleWindow && c.pull == Resting
    && c.cargo.pending == pending && c.cargo.jobs == jobs && c.cargo.running.Some? == running && c.cargo.retry.None?
  }

  lemma WelcomeWaits(w: World, jobs: seq<Job>, running: bool, note: nat)
    requires At(w.c, [], jobs, running)
    ensures
      var v := DebounceStep(NoticeStep(w, Welcome(note)));
      At(v.c, [Welcome(note)], jobs + [Drain], running) && !v.c.timers.debounce && !v.c.timers.debounceDue
  {
  }

  /** A message comes in and its flush is queued. */
  lemma NoticeFlushes(w: World, es: seq<Event>, jobs: seq<Job>, running: bool, note: nat) returns (fs: seq<Event>)
    requires At(Run(w, es).c, [], jobs, running)
    ensures
      var c := Run(w, fs).c;
      At(c, [Welcome(note)], jobs + [Drain], running) && !c.timers.debounce && !c.timers.debounceDue
  {
    WelcomeWaits(Run(w, es), jobs, running, note);
    ThenNotice(w, es, Welcome(note));
    ThenDebounce(w, es + [NoticeArrives(Welcome(note))]);
    fs := es + [NoticeArrives(Welcome(note))] + [DebounceElapses];
  }

  lemma FlushIsUnderWay(w: World)
    requires At(w.c, [Welcome(0)], [Drain], false)
    ensures At(FlushStep(w).c, [], [], true)
  {
    var k := w.c.cargo;
    assert Fresh([Welcome(0)][1..], k.cursor, k.pullWindow, {}) == [];
    assert Prepared(k, Drain).items == [Welcome(0)];
  }

  lemma ReloadStrands(w: World)
    requires At(w.c, [Welcome(1)], [Drain], true) && !w.c.timers.debounceDue
    ensures At(ReloadStep(w).c, [Welcome(1)], [], false) && !FlushAhead(ReloadStep(w).c)
  {
  }

  /**
    A run that fails: a second message's flush waits behind the first one's when the
    reload comes.  After it the message is pending, and no timer, flush or pull will
    ever take it by itself.
    */
  lemma LateReloadStrands(log: seq<Message>, me: string, preset: nat) returns (es: seq<Event>, c: Client)
    ensures c == Run(Start(log, me, preset), es).c
    ensures c.cargo.pending == [Welcome(1)] && !FlushAhead(c) && !c.timers.idleWindow && c.pull == Resting
  {
    var w := Start(log, me, preset);
    es := NoticeFlushes(w, [], [], false, 0);
    FlushIsUnderWay(Run(w, es));
    ThenFlushStarts(w, es);
    es := NoticeFlushes(w, es + [FlushStarts], [], true, 1);
    ReloadStrands(Run(w, es));
    ThenReloads(w, es);
    es := es + [Reloads];
    c := Run(w, es).c;
  }
}
