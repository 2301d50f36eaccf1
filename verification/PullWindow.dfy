/**
  Read messages are shown again only as the context of a pull: outside a pull's
  hand-over its window is empty, and then no batch holds anything already read.
  */
module PullWindow {
  import opened Common
  import opened Messages
  import opened Preview
  import opened Delivery
  import opened DeliveryWorld
  import opened Coverage

  predicate WindowClosed(c: Client) {
    c.pull == Resting || c.pull.Fetching? ==> c.cargo.pullWindow == {}
  }

  /** The pull has not come to rest, or its window is as it was. */
  predicate KeepsWindow(c: Client, d: Client) {
    && (d.cargo.pullWindow == c.cargo.pullWindow || d.cargo.pullWindow == {})
    && (d.pull == Resting || d.pull.Fetching? ==>
          c.pull == Resting || c.pull.Fetching? || d.cargo.pullWindow == {})
  }

  lemma KeepsClosed(c: Client, d: Client)
    requires WindowClosed(c) && KeepsWindow(c, d)
    ensures WindowClosed(d)
  {
  }

  lemma IdleKeeps(c: Client, sent: bool)
    ensures KeepsWindow(c, IdleWindowFires(c, sent))
  {
  }

  lemma TimersKeep(c: Client)
    ensures KeepsWindow(c, DebounceFires(c))
    ensures KeepsWindow(c, DeliveryWindowFires(c))
    ensures KeepsWindow(c, FetchFails(c))
    ensures KeepsWindow(c, PullResumes(c))
  {
  }

  lemma AgentKeeps(c: Client)
    ensures KeepsWindow(c, AgentStarts(c))
    ensures KeepsWindow(c, ConsumeAbortToken(c))
    ensures KeepsWindow(c, MarkIncrementPending(c))
  {
  }

  lemma SettlesKeep(c: Client)
    ensures KeepsWindow(c, SettleRun(c))
    ensures KeepsWindow(c, RunWedged(c))
  {
  }

  lemma FramesKeep(c: Client, f: Frame, i: Item)
    ensures KeepsWindow(c, OnFrame(c, f))
    ensures KeepsWindow(c, OnItem(c, i))
  {
  }

  lemma UpdateKeeps(c: Client, u: Update, sent: bool)
    ensures KeepsWindow(c, OnUpdate(c, u, sent))
  {
  }

  lemma FlushesKeep(c: Client, accepted: bool)
    ensures KeepsWindow(c, StartFlush(c))
    ensures KeepsWindow(c, FinishFlush(c, accepted))
  {
  }

  lemma PageKeepsClosed(c: Client, page: FetchPage, written: bool)
    requires WindowClosed(c)
    ensures WindowClosed(PageArrives(c, page, written))
  {
  }

  lemma TimerEventKeeps(w: World, e: Event)
    requires TimerEvent(e)
    ensures KeepsWindow(w.c, Step(w, e).c)
  {
    match e
    case IdleWindowElapses(sent) => IdleKeeps(w.c, sent);
    case DeliveryWindowElapses => TimersKeep(w.c);
    case FetchBreaks => TimersKeep(w.c);
    case PullGoesOn => TimersKeep(w.c);
  }

  lemma AgentEventKeeps(w: World, e: Event)
    requires AgentEvent(e)
    ensures KeepsWindow(w.c, Step(w, e).c)
  {
    match e
    case RunStarts => AgentKeeps(w.c);
    case RunSettles => SettlesKeep(w.c);
    case RunWedges => SettlesKeep(w.c);
    case Boundary => AgentKeeps(w.c);
    case MarkedPending => AgentKeeps(w.c);
  }

  lemma BatchEventKeeps(w: World, e: Event)
    requires BatchEvent(e)
    ensures KeepsWindow(w.c, Step(w, e).c)
  {
    match e
    case FlushStarts => FlushesKeep(w.c, true);
    case FlushEnds(accepted) => FlushesKeep(w.c, accepted);
    case PiConsumes(_, _) =>
    case PiDrops(_) =>
    case ForeignBatch(_, _) =>
  }

  lemma LifeEventKeeps(w: World, e: Event)
    requires WindowClosed(w.c) && LifeEvent(e)
    ensures WindowClosed(Step(w, e).c)
  {
  }

  lemma ReplyKeepsClosed(w: World, n: nat, window: nat, written: bool)
    requires WindowClosed(w.c)
    ensures WindowClosed(ReplyStep(w, n, window, written).c)
  {
    if Replies(w, n) {
      PageKeepsClosed(w.c, PageAt(w.log, n, w.c.pull.since, window, w.c.me), written);
    }
  }

  lemma FrameKeepsClosed(w: World, s: nat)
    requires WindowClosed(w.c)
    ensures WindowClosed(FrameStep(w, s).c)
  {
    if 1 <= s <= |w.log| {
      FramesKeep(w.c, FrameAt(w.log, s, w.c.me), Welcome(0));
    }
  }

  lemma UpdateKeepsClosed(w: World, n: nat, sent: bool)
    requires WindowClosed(w.c)
    ensures WindowClosed(UpdateStep(w, n, sent).c)
  {
    if n <= |w.log| {
      UpdateKeeps(w.c, UpdateAt(w.log, n), sent);
    }
  }

  lemma IncomingEventKeeps(w: World, e: Event)
    requires WindowClosed(w.c) && IncomingEvent(e)
    ensures WindowClosed(Step(w, e).c)
  {
    match e
    case Publish(_) =>
    case UpdateArrives(n, sent) => UpdateKeepsClosed(w, n, sent);
    case FrameArrives(s) => FrameKeepsClosed(w, s);
    case NoticeArrives(item) => FramesKeep(w.c, Placeholder("", 0, "", UserPersona, Party("", "")), item);
    case DebounceElapses => TimersKeep(w.c);
    case FetchReplies(n, window, written) => ReplyKeepsClosed(w, n, window, written);
  }

  lemma StepKeepsClosed(w: World, e: Event)
    requires WindowClosed(w.c)
    ensures WindowClosed(Step(w, e).c)
  {
    if TimerEvent(e) {
      TimerEventKeeps(w, e);
    } else if AgentEvent(e) {
      AgentEventKeeps(w, e);
    } else if LifeEvent(e) {
      LifeEventKeeps(w, e);
    } else if BatchEvent(e) {
      BatchEventKeeps(w, e);
    } else {
      IncomingEventKeeps(w, e);
    }
  }

  lemma {:induction false} AlwaysClosed(log: seq<Message>, me: string, preset: nat, es: seq<Event>)
    ensures WindowClosed(Run(Start(log, me, preset), es).c)
    decreases |es|
  {
    if es != [] {
      AlwaysClosed(log, me, preset, es[..|es| - 1]);
      StepKeepsClosed(Run(Start(log, me, preset), es[..|es| - 1]), es[|es| - 1]);
    }
  }

  lemma FlightIsFresh(c: Client)
    requires c.cargo.pullWindow == {} && c.cargo.running.None? && StartFlush(c).cargo.running.Some?
    ensures forall n | n in Sequences(StartFlush(c).cargo.running.value.batch.items) :: n > c.cargo.cursor
  {
    FreshKeeps(Gathered(c.cargo, c.cargo.jobs[0]), c.cargo.cursor, {}, {});
  }

  /** In every reachable state a flush that starts outside a pull's hand-over delivers nothing that was read already. */
  lemma {:induction false} NothingReadAgain(log: seq<Message>, me: string, preset: nat, es: seq<Event>)
    requires
      var c := Run(Start(log, me, preset), es).c;
      (c.pull == Resting || c.pull.Fetching?) && c.cargo.running.None? && StartFlush(c).cargo.running.Some?
    ensures
      var w := Run(Start(log, me, preset), es);
      var v := FlushStep(w);
      && v.c.cargo.running.Some?
      && forall n | n in Sequences(v.c.cargo.running.value.batch.items) :: n > w.c.cargo.cursor
  {
    AlwaysClosed(log, me, preset, es);
    FlightIsFresh(Run(Start(log, me, preset), es).c);
  }
}
