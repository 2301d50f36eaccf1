/**
  How a running client reacts to each thing that can happen to it, said in terms of
  what was published and what its agent is doing: what it takes in, what it marks,
  which window it opens, and when it sends for more.
  */
module Reactions {
  import opened Common
  import opened Messages
  import opened Preview
  import opened Delivery
  import opened DeliveryWorld
  import opened Coverage

  /** A pull from the cursor has just been sent, and nothing asks for another. */
  predicate SentFor(w: World, v: World) {
    v.c.pull == Fetching(w.c.cargo.cursor) && v.sent == |w.log| && !v.c.refetch
  }

  /** Nothing on its way to the agent has changed. */
  predicate SameLoad(w: World, v: World) {
    && v.log == w.log && v.pi == w.pi && v.consumed == w.consumed
    && v.c.cargo == w.c.cargo && v.c.me == w.c.me && v.c.stopped == w.c.stopped
  }

  // ----- notifications -----

  /** Whatever it leads to, the newest notification is the one the client goes by. */
  lemma UpdateIsKnown(w: World, n: nat, sent: bool)
    requires !w.c.stopped && n <= |w.log|
    ensures
      var v := UpdateStep(w, n, sent);
      v.c.known == Some(UpdateAt(w.log, n)) && v.c.placeholder == w.c.placeholder && SameLoad(w, v)
      && v.c.pull == w.c.pull && v.c.refetch == w.c.refetch
  {
  }

  /** One with nothing beyond the cursor, or nothing but own messages, changes no mark and no window. */
  lemma OwnUpdateIsQuiet(w: World, n: nat, sent: bool)
    requires !w.c.stopped && n <= |w.log|
    requires
      var u := UpdateAt(w.log, n);
      u.latest <= w.c.cargo.cursor || ClassifySelfPreview(u, w.c.cargo.cursor, w.c.me).CompleteSelfOnly?
    ensures
      var v := UpdateStep(w, n, sent);
      v.c.agent == w.c.agent && v.c.timers == w.c.timers
  {
  }

  /** Any other that comes during a run marks the run and opens the delivery window. */
  lemma UpdateDuringRun(w: World, n: nat, sent: bool)
    requires !w.c.stopped && n <= |w.log| && w.c.agent.active && Notable(w.c, UpdateAt(w.log, n))
    ensures
      var v := UpdateStep(w, n, sent);
      var external := ClassifySelfPreview(UpdateAt(w.log, n), w.c.cargo.cursor, w.c.me).External?;
      && v.c.agent.incrementPending && v.c.agent.active
      && v.c.timers == w.c.timers.(deliveryWindow := true)
      && v.c.agent.abortRequested == w.c.agent.abortRequested
      && (v.c.agent.tokenQueued <==> w.c.agent.tokenQueued || (external && sent && !w.c.agent.abortRequested))
  {
  }

  /** One that comes outside a run opens the idle window, which remembers whether any proved someone else's message. */
  lemma UpdateOutsideRun(w: World, n: nat, sent: bool)
    requires !w.c.stopped && n <= |w.log| && !w.c.agent.active && Notable(w.c, UpdateAt(w.log, n))
    ensures
      var v := UpdateStep(w, n, sent);
      var external := ClassifySelfPreview(UpdateAt(w.log, n), w.c.cargo.cursor, w.c.me).External?;
      && v.c.timers == w.c.timers.(idleWindow := true, idleEligible := w.c.timers.idleEligible || external)
      && v.c.agent == w.c.agent
  {
  }

  // ----- frames -----

  /** A placeholder raises the watermark of what is known, and nothing else. */
  lemma PlaceholderRaises(w: World, s: nat)
    requires GaplessLog(w.log) && !w.c.stopped && 1 <= s <= |w.log| && !MayRead(w.log[s - 1], Some(w.c.me))
    ensures
      var v := FrameStep(w, s);
      v.c == w.c.(placeholder := Max(w.c.placeholder, s))
  {
    ProjectionHidesWhispers(w.log[s - 1], Some(w.c.me));
  }

  /** The client has had the message: it was read, or it came as a live whisper before. */
  predicate Had(c: Client, s: nat) {
    s <= c.cargo.cursor || s <= c.injected
  }

  lemma WhisperFrame(w: World, s: nat)
    requires GaplessLog(w.log) && 1 <= s <= |w.log|
    requires IsWhisper(w.log[s - 1]) && MayRead(w.log[s - 1], Some(w.c.me))
    ensures
      var f := FrameAt(w.log, s, w.c.me);
      f == Full(w.log[s - 1]) && FrameSequence(f) == s && (Own(f, w.c.me) <==> Authored(w.log[s - 1], w.c.me))
  {
    ProjectionHidesWhispers(w.log[s - 1], Some(w.c.me));
  }

  /** A whisper that was had already leaves everything as it is. */
  lemma RepeatedWhisper(w: World, s: nat)
    requires GaplessLog(w.log) && !w.c.stopped && 1 <= s <= |w.log|
    requires IsWhisper(w.log[s - 1]) && MayRead(w.log[s - 1], Some(w.c.me)) && Had(w.c, s)
    ensures FrameStep(w, s).c == w.c
  {
    WhisperFrame(w, s);
  }

  /** The client's own whisper is noted so that the next one is not taken for a gap, and is not delivered. */
  lemma OwnWhisper(w: World, s: nat)
    requires GaplessLog(w.log) && !w.c.stopped && 1 <= s <= |w.log|
    requires IsWhisper(w.log[s - 1]) && Authored(w.log[s - 1], w.c.me) && !Had(w.c, s)
    ensures FrameStep(w, s).c == w.c.(injected := s)
  {
    WhisperFrame(w, s);
  }

  /** The next whisper for the client is taken in, and its flush is scheduled. */
  lemma NextWhisper(w: World, s: nat)
    requires GaplessLog(w.log) && !w.c.stopped && 1 <= s <= |w.log|
    requires IsWhisper(w.log[s - 1]) && MayRead(w.log[s - 1], Some(w.c.me)) && !Authored(w.log[s - 1], w.c.me)
    requires s == Max(w.c.cargo.cursor, w.c.injected) + 1
    ensures
      var v := FrameStep(w, s);
      && v.c.cargo == w.c.cargo.(pending := w.c.cargo.pending + [Chat(Full(w.log[s - 1]))])
      && v.c.injected == s && v.c.timers == w.c.timers.(debounce := true, debounceDue := true)
      && v.c.agent == w.c.agent && v.c.pull == w.c.pull
  {
    WhisperFrame(w, s);
  }

  /** One with something missing before it is left to a pull: after the run, or when the idle window ends. */
  lemma WhisperBeyondGap(w: World, s: nat)
    requires GaplessLog(w.log) && !w.c.stopped && 1 <= s <= |w.log|
    requires IsWhisper(w.log[s - 1]) && MayRead(w.log[s - 1], Some(w.c.me)) && !Authored(w.log[s - 1], w.c.me)
    requires s > Max(w.c.cargo.cursor, w.c.injected) + 1
    ensures
      var v := FrameStep(w, s);
      && SameLoad(w, v) && v.c.injected == w.c.injected && v.c.pull == w.c.pull
      && (w.c.agent.active ==>
            v.c.agent == w.c.agent.(incrementPending := true) && v.c.timers == w.c.timers)
      && (!w.c.agent.active ==>
            v.c.agent == w.c.agent && v.c.timers == w.c.timers.(idleWindow := true, idleEligible := true))
  {
    WhisperFrame(w, s);
  }

  /** A public message that comes live is taken in if and only if someone else wrote it. */
  lemma PublicFrame(w: World, s: nat)
    requires GaplessLog(w.log) && !w.c.stopped && 1 <= s <= |w.log| && !IsWhisper(w.log[s - 1])
    ensures
      var v := FrameStep(w, s);
      && (Authored(w.log[s - 1], w.c.me) ==> v.c == w.c)
      && (!Authored(w.log[s - 1], w.c.me) ==>
            && v.c.cargo == w.c.cargo.(pending := w.c.cargo.pending + [Chat(Full(w.log[s - 1]))])
            && v.c.timers == w.c.timers.(debounce := true, debounceDue := true) && v.c.agent == w.c.agent)
  {
    ProjectionHidesWhispers(w.log[s - 1], Some(w.c.me));
  }

  /** Board updates by others and welcome messages are taken in; the client's own board updates are not. */
  lemma NoticeTaken(w: World, item: Item)
    requires !w.c.stopped && !item.Chat?
    ensures
      var v := NoticeStep(w, item);
      && (item.BoardUpdate? && item.actor == w.c.me ==> v.c == w.c)
      && ((item.BoardUpdate? && item.actor != w.c.me) || item.Welcome? ==>
            && v.c.cargo == w.c.cargo.(pending := w.c.cargo.pending + [item])
            && v.c.timers == w.c.timers.(debounce := true, debounceDue := true) && v.c.agent == w.c.agent)
  {
  }

  // ----- windows -----

  /** The debounce queues one flush and is over. */
  lemma DebounceQueues(w: World)
    requires w.c.timers.debounce
    ensures
      var v := DebounceStep(w);
      && v.c.timers == w.c.timers.(debounce := false, debounceDue := false)
      && v.c.cargo == w.c.cargo.(jobs := w.c.cargo.jobs + [Drain])
  {
  }

  /** The delivery window sends for what is unread in the middle of a run, unless a settle came first. */
  lemma DeliveryWindowFetches(w: World)
    requires !w.c.stopped && w.c.timers.deliveryWindow
    ensures
      var v := DeliveryWindowStep(w);
      && v.c.timers == w.c.timers.(deliveryWindow := false) && SameLoad(w, v)
      && v.c.agent == w.c.agent.(incrementPending := false)
      && (w.c.agent.incrementPending && w.c.pull == Resting ==> SentFor(w, v))
      && (w.c.agent.incrementPending && w.c.pull != Resting ==> v.c.pull == w.c.pull && v.c.refetch)
      && (!w.c.agent.incrementPending ==> v.c.pull == w.c.pull && v.c.refetch == w.c.refetch)
  {
  }

  /** The idle window sends for what is unread, if no run has begun meanwhile. */
  lemma IdleWindowFetches(w: World, sent: bool)
    requires !w.c.stopped && w.c.timers.idleWindow && !w.c.agent.active
    ensures
      var v := IdleStep(w, sent);
      && v.c.timers == w.c.timers.(idleWindow := false, idleEligible := false) && SameLoad(w, v)
      && v.c.agent == w.c.agent
      && (w.c.pull == Resting ==> SentFor(w, v))
      && (w.c.pull != Resting ==> v.c.pull == w.c.pull && v.c.refetch)
  {
  }

  /** A timer that is not armed does not fire. */
  lemma TimersNeedArming(w: World, sent: bool)
    ensures !w.c.timers.debounce ==> DebounceStep(w).c == w.c
    ensures !w.c.timers.idleWindow ==> IdleStep(w, sent).c == w.c
    ensures !w.c.timers.deliveryWindow ==> DeliveryWindowStep(w).c == w.c
  {
  }

  // ----- the run -----

  /** The end of a run drops its tokens and its delivery window, and sends for what waited for it. */
  predicate RunIsOver(w: World, v: World) {
    && SameLoad(w, v)
    && v.c.agent == w.c.agent.(active := false, wedgedSettled := v.c.agent.wedgedSettled, incrementPending := false,
                               tokenQueued := false, abortRequested := false)
    && v.c.timers == w.c.timers.(deliveryWindow := false)
    && (w.c.agent.incrementPending && w.c.pull == Resting ==> SentFor(w, v))
    && (w.c.agent.incrementPending && w.c.pull != Resting ==> v.c.pull == w.c.pull && v.c.refetch)
    && (!w.c.agent.incrementPending ==> v.c.pull == w.c.pull && v.c.refetch == w.c.refetch)
  }

  lemma RunSettled(w: World)
    requires !w.c.stopped && !w.c.agent.wedgedSettled
    ensures RunIsOver(w, SettleStep(w)) && !SettleStep(w).c.agent.wedgedSettled
  {
  }

  /** The watchdog ends a run in the same way; the settle that still comes later does nothing. */
  lemma WedgedOnce(w: World)
    requires !w.c.stopped && w.c.agent.active
    ensures RunIsOver(w, WedgeStep(w)) && WedgeStep(w).c.agent.wedgedSettled
    ensures SettleStep(WedgeStep(w)).c == WedgeStep(w).c
  {
  }

  /** The watchdog has nothing to do when no run is active. */
  lemma WedgedOutsideRun(w: World)
    requires !w.c.agent.active
    ensures WedgeStep(w).c == w.c
  {
  }

  /** Of the next run the settle counts again. */
  lemma NextRunSettles(w: World)
    requires !w.c.stopped
    ensures
      var v := RunStartStep(w);
      && v.c == w.c.(agent := w.c.agent.(active := true, wedgedSettled := false))
      && RunIsOver(v, SettleStep(v))
  {
    RunSettled(RunStartStep(w));
  }

  /** A blocked or stale speak leaves the mark, and nothing else. */
  lemma MarkOnly(w: World)
    requires !w.c.stopped
    ensures MarkStep(w).c == w.c.(agent := w.c.agent.(incrementPending := true))
  {
  }

  /** From notification to fetch: during a run at its end or at the delivery window, outside at the idle window. */
  lemma NotableIsFetched(w: World, n: nat, sent: bool)
    requires !w.c.stopped && n <= |w.log| && Notable(w.c, UpdateAt(w.log, n))
    requires w.c.pull == Resting && !w.c.agent.wedgedSettled
    ensures
      var v := UpdateStep(w, n, sent);
      && (w.c.agent.active ==> SentFor(w, SettleStep(v)) && SentFor(w, DeliveryWindowStep(v)))
      && (!w.c.agent.active ==> SentFor(w, IdleStep(v, sent)))
  {
    var v := UpdateStep(w, n, sent);
    UpdateIsKnown(w, n, sent);
    if w.c.agent.active {
      UpdateDuringRun(w, n, sent);
      UpdateKeepsWedged(w.c, UpdateAt(w.log, n), sent);
      RunSettled(v);
      DeliveryWindowFetches(v);
    } else {
      UpdateOutsideRun(w, n, sent);
      IdleWindowFetches(v, sent);
    }
  }

  lemma UpdateKeepsWedged(c: Client, u: Update, sent: bool)
    ensures OnUpdate(c, u, sent).agent.wedgedSettled == c.agent.wedgedSettled
  {
  }

  // ----- pulls -----

  /** A failed fetch ends the pull and leaves everything else; the next one starts over from the cursor. */
  lemma BreakEndsPull(w: World)
    requires w.c.pull.Fetching?
    ensures BreakStep(w).c == w.c.(pull := Resting)
    ensures !w.c.stopped ==> PullIncrement(BreakStep(w).c).pull == Fetching(w.c.cargo.cursor)
  {
  }

  /** After its flush a pull goes once more if it was asked to, and rests otherwise; its window is over. */
  lemma PullGoesOnOnce(w: World)
    requires !w.c.stopped && w.c.pull == Handed
    ensures
      var v := GoOnStep(w);
      && v.c.cargo == w.c.cargo.(pullWindow := {}) && v.c.timers == w.c.timers && v.c.agent == w.c.agent
      && (w.c.refetch ==> SentFor(w, v))
      && (!w.c.refetch ==> v.c.pull == Resting && !v.c.refetch)
  {
  }

  /** A page without anything unread moves the cursor; then the pull goes once more if it was asked to, or rests. */
  lemma ReadPageGoesOn(c: Client, page: FetchPage, written: bool)
    requires c.pull.Fetching? && !c.stopped && !AnyUnread(PageItems(page.messages, c.me), c.pull.since)
    ensures
      var d := PageArrives(c, page, written);
      && d.cargo.pending == c.cargo.pending && d.cargo.jobs == c.cargo.jobs
      && (page.messages != [] ==> d.cargo.cursor == page.latest && d.cargo.file == if written then page.latest
                                                                                   else c.cargo.file)
      && (page.messages == [] ==> d.cargo == c.cargo)
      && !d.refetch && d.pull == if c.refetch then Fetching(d.cargo.cursor) else Resting
  {
  }

  /** A page with something unread becomes the last flush in the queue, behind everything pending. */
  lemma UnreadPageIsQueued(c: Client, page: FetchPage, written: bool)
    requires c.pull.Fetching? && !c.stopped && AnyUnread(PageItems(page.messages, c.me), c.pull.since)
    ensures
      var d := PageArrives(c, page, written);
      && d.cargo.jobs == c.cargo.jobs + [Deliver(c.cargo.pending + PageItems(page.messages, c.me), page.latest)]
      && d.cargo.pending == [] && d.pull == Handing && d.refetch == c.refetch
      && d.cargo.cursor == c.cargo.cursor && d.cargo.file == c.cargo.file
      && d.cargo.running == c.cargo.running && d.cargo.retry == c.cargo.retry
      && d.timers == c.timers && d.agent == c.agent
  {
  }

  /** One that comes after the stop only ends the pull. */
  lemma PageAfterStop(c: Client, page: FetchPage, written: bool)
    requires c.pull.Fetching? && c.stopped
    ensures PageArrives(c, page, written) == c.(pull := Resting)
  {
  }

  // ----- flushes -----

  /** A refused batch is kept and its retry scheduled; until then nothing else goes out before it. */
  lemma RefusedIsRetried(w: World)
    requires !w.c.stopped && w.c.cargo.running.Some? && StateReplies(w)
    ensures
      var v := FlushEndStep(w, false);
      && v.c.cargo == w.c.cargo.(running := None, retry := Some(w.c.cargo.running.value.batch))
      && v.c.timers == w.c.timers.(debounce := true, debounceDue := true)
      && v.pi == w.pi && v.consumed == w.consumed
  {
  }

  /** An accepted one is with pi; what came in meanwhile is scheduled. */
  lemma AcceptedIsHanded(w: World)
    requires !w.c.stopped && w.c.cargo.running.Some? && StateReplies(w)
    ensures
      var v := FlushEndStep(w, true);
      && v.pi == w.pi + [w.c.cargo.running.value.batch] && v.consumed == w.consumed
      && v.c.cargo == w.c.cargo.(running := None)
      && v.c.timers == if w.c.cargo.pending != [] && w.c.cargo.retry.None? then
                         w.c.timers.(debounce := true, debounceDue := true)
                       else w.c.timers
  {
  }

  /** A flush that ends after the stop hands nothing over and keeps nothing. */
  lemma FlushAfterStop(w: World, accepted: bool)
    requires w.c.stopped && w.c.cargo.running.Some? && StateReplies(w)
    ensures
      var v := FlushEndStep(w, accepted);
      v.pi == w.pi && v.c.cargo == w.c.cargo.(running := None) && v.c.timers == w.c.timers
  {
  }

  /** Only the flush of the pull lets the pull go on. */
  lemma FlushEndsPull(w: World, accepted: bool)
    requires w.c.cargo.running.Some? && StateReplies(w)
    ensures
      FlushEndStep(w, accepted).c.pull
      == if w.c.cargo.running.value.pulled && w.c.pull == Handing then Handed else w.c.pull
  {
  }

  /** A batch that moves the cursor does so in memory always, in the file only if that could be written. */
  lemma ReadBatchMovesCursor(w: World, i: nat, written: bool)
    requires !w.c.stopped && i < |w.pi|
    ensures
      var b, v := w.pi[i], ConsumeStep(w, i, written);
      && v.consumed == w.consumed + Sequences(b.items)
      && v.c == w.c.(cargo := w.c.cargo.(cursor := v.c.cargo.cursor, file := v.c.cargo.file))
      && (if b.latest.Some? && b.coverage.Some? && b.coverage.value <= w.c.cargo.cursor < b.latest.value then
            v.c.cargo.cursor == b.latest.value
            && v.c.cargo.file == if written then b.latest.value else w.c.cargo.file
          else v.c.cargo == w.c.cargo)
  {
  }

  // ----- the end -----

  /** A stopped client holds nothing pending and waits for no timer or token. */
  lemma StopClears(w: World)
    ensures
      var v := LeaveStep(w);
      && v.c.stopped && v.c.cargo == w.c.cargo.(pending := [])
      && v.c.timers == Timers(false, false, false, false, false)
      && v.c.agent == w.c.agent.(tokenQueued := false, abortRequested := false)
      && v.pi == w.pi && v.consumed == w.consumed && v.log == w.log
  {
  }

  /** It reacts to nothing any more: no frame, no notification, no page, no batch that pi reads. */
  lemma StoppedIsDeaf(w: World, n: nat, s: nat, item: Item, b: Batch, flag: bool)
    requires w.c.stopped
    ensures UpdateStep(w, n, flag) == w && FrameStep(w, s) == w && NoticeStep(w, item) == w
    ensures ReplyStep(w, n, s, flag) == w && ForeignStep(w, b, flag) == w && BoundaryStep(w) == w
    ensures FlushEndStep(w, flag).pi == w.pi && FlushStep(w).c.cargo.running == w.c.cargo.running
    ensures MarkStep(w) == w && SettleStep(w).c.pull == w.c.pull
  {
  }

  // ----- the next instance -----

  /** A new instance goes by the cursor file and knows of nothing else: no run, no notification, no whisper. */
  predicate Blank(c: Client, me: string, file: nat) {
    && c.me == me && !c.stopped && c.cargo.cursor == file && c.cargo.file == file
    && c.cargo.jobs == [] && c.cargo.running.None? && c.cargo.retry.None? && c.cargo.pullWindow == {}
    && c.agent == Agent(false, false, false, false, false)
    && c.known.None? && c.placeholder == 0 && c.injected == 0 && !c.refetch
  }

  lemma FirstJoinIsBlank(log: seq<Message>, me: string, preset: nat)
    ensures
      var c := Start(log, me, preset).c;
      && Blank(c, me, preset) && c.cargo.pending == [] && c.pull == Resting
      && c.timers == Timers(false, false, false, false, false)
  {
  }

  lemma ReloadIsBlank(w: World)
    requires !w.c.stopped
    ensures
      var v := ReloadStep(w);
      && Blank(v.c, w.c.me, w.c.cargo.file) && v.c.cargo.pending == w.c.cargo.pending
      && v.pi == w.pi && v.consumed == w.consumed && v.log == w.log
      && v.c.timers.debounce == w.c.timers.debounceDue && !v.c.timers.debounceDue && !v.c.timers.deliveryWindow
      && (w.c.agent.incrementPending ==> SentFor(v, v) && !v.c.timers.idleWindow)
      && (!w.c.agent.incrementPending ==> v.c.pull == Resting && v.c.timers.idleWindow == w.c.timers.idleWindow)
  {
  }

  lemma RejoinIsBlank(w: World, me: string, known: set<nat>)
    requires w.c.stopped
    ensures
      var v := RejoinStep(w, me, known);
      && Blank(v.c, me, w.c.cargo.file) && v.c.cargo.pending == [] && SentFor(v, v) && v.log == w.log
      && v.c.timers == Timers(false, false, false, false, false)
  {
  }
}
