/**
  The input pipeline as an object that updates its fields step by step.  Each
  method is one callback, one timer or the stretch of an async method between
  two awaits, and is proved equal to the function that the theorems about
  whole runs use.  What pi and the disk decide comes in as a parameter.
  */
module GroupChatInput {
  import opened Common
  import opened Messages
  import opened Preview
  import opened Delivery

  class CharacterRuntime {
    const character: string
    var cursorSequence: nat
    var cursorFile: nat
    var isAgentActive: bool
    var wedgedSettled: bool

    constructor (character: string, file: nat)
      ensures this.character == character && cursorSequence == cursorFile == file
      ensures !isAgentActive && !wedgedSettled
    {
      this.character := character;
      cursorSequence, cursorFile, isAgentActive, wedgedSettled := file, file, false, false;
    }

    method SaveCursor(sequence: nat, written: bool)
      modifies this`cursorSequence, this`cursorFile
      ensures cursorSequence == sequence
      ensures cursorFile == if written then sequence else old(cursorFile)
    {
      cursorSequence := sequence;
      if written {
        cursorFile := sequence;
      }
    }
  }

  // ----- the loops that only compute -----

  lemma PageItemsConcat(a: seq<Frame>, b: seq<Frame>, me: string)
    ensures PageItems(a + b, me) == PageItems(a, me) + PageItems(b, me)
  {
    if a == [] {
      assert a + b == b;
    } else {
      assert (a + b)[1..] == a[1..] + b;
      PageItemsConcat(a[1..], b, me);
    }
  }

  /** The page loop: which frames to inject, which of them are context, and whether any is unread. */
  method ScanPage(frames: seq<Frame>, since: nat, me: string)
    returns (items: seq<Item>, window: set<nat>, deliverable: bool)
    ensures items == PageItems(frames, me)
    ensures window == WindowSequences(items, since)
    ensures deliverable == AnyUnread(items, since)
  {
    items, window, deliverable := [], {}, false;
    ghost var numbers: set<nat> := {};
    for i := 0 to |frames|
      invariant items == PageItems(frames[..i], me)
      invariant numbers == Sequences(items)
      invariant forall n :: n in window <==> n in numbers && n <= since
      invariant deliverable <==> exists n :: n in numbers && n > since
    {
      var f := frames[i];
      assert frames[..i + 1] == frames[..i] + [f];
      PageItemsConcat(frames[..i], [f], me);
      assert [f][1..] == [];
      if Own(f, me) {
        assert PageItems([f], me) == [];
        continue;
      }
      assert PageItems([f], me) == [Chat(f)];
      SequencesPush(items, Chat(f));
      items := items + [Chat(f)];
      numbers := numbers + {FrameSequence(f)};
      if FrameSequence(f) <= since {
        window := window + {FrameSequence(f)};
      } else {
        deliverable := true;
      }
    }
    assert frames[..|frames|] == frames;
    assert window == WindowSequences(items, since);
  }

  lemma SequencesPush(items: seq<Item>, i: Item)
    ensures Sequences(items + [i]) == Sequences(items) + if i.Chat? then {SequenceOf(i)} else {}
    ensures InjectedSequences(items + [i]) == InjectedSequences(items) + if Injected(i) then {SequenceOf(i)} else {}
  {
    if items == [] {
      assert items + [i] == [i];
      assert [i][1..] == [];
    } else {
      assert (items + [i])[1..] == items[1..] + [i];
      SequencesPush(items[1..], i);
    }
  }

  /** The filter before delivery, with the numbers seen so far. */
  method FilterDelivered(items: seq<Item>, cursor: nat, window: set<nat>) returns (kept: seq<Item>)
    ensures kept == Fresh(items, cursor, window, {})
  {
    kept := [];
    var seen: set<nat> := {};
    for i := 0 to |items|
      invariant Fresh(items, cursor, window, {}) == kept + Fresh(items[i..], cursor, window, seen)
    {
      var item := items[i];
      assert items[i..][1..] == items[i + 1..];
      if !item.Chat? {
        kept := kept + [item];
        continue;
      }
      var n := SequenceOf(item);
      if (n <= cursor && n !in window) || n in seen {
        continue;
      }
      seen := seen + {n};
      kept := kept + [item];
    }
  }

  lemma ExtremesPush(items: seq<Item>, i: Item)
    ensures HighestInjected(items + [i]) ==
            if Injected(i) then Max(HighestInjected(items), SequenceOf(i)) else HighestInjected(items)
    ensures LowestInjected(items + [i]) ==
            if !Injected(i) then LowestInjected(items)
            else if LowestInjected(items).None? then Some(SequenceOf(i))
            else Some(Min(LowestInjected(items).value, SequenceOf(i)))
  {
    if items == [] {
      assert items + [i] == [i];
      assert [i][1..] == [];
    } else {
      assert (items + [i])[1..] == items[1..] + [i];
      ExtremesPush(items[1..], i);
    }
  }

  method ComputeWatermark(items: seq<Item>) returns (watermark: Option<nat>)
    ensures watermark == WatermarkOfDelivered(items)
  {
    var max: nat := 0;
    for i := 0 to |items|
      invariant max == HighestInjected(items[..i])
    {
      assert items[..i + 1] == items[..i] + [items[i]];
      ExtremesPush(items[..i], items[i]);
      if Injected(items[i]) && SequenceOf(items[i]) > max {
        max := SequenceOf(items[i]);
      }
    }
    assert items[..|items|] == items;
    return if max > 0 then Some(max) else None;
  }

  method ComputeCoverage(items: seq<Item>) returns (coverage: Option<int>)
    ensures coverage == CoverageLowerBound(items)
  {
    var sequences: set<nat> := {};
    var min: Option<nat> := None;
    var max: nat := 0;
    for i := 0 to |items|
      invariant sequences == InjectedSequences(items[..i])
      invariant min == LowestInjected(items[..i])
      invariant max == HighestInjected(items[..i])
    {
      assert items[..i + 1] == items[..i] + [items[i]];
      ExtremesPush(items[..i], items[i]);
      SequencesPush(items[..i], items[i]);
      if !Injected(items[i]) {
        continue;
      }
      var n := SequenceOf(items[i]);
      sequences := sequences + {n};
      if min.None? || n < min.value {
        min := Some(n);
      }
      if n > max {
        max := n;
      }
    }
    assert items[..|items|] == items;
    if min.None? || max - min.value + 1 != |sequences| {
      return None;
    }
    return Some(min.value - 1);
  }

  class GroupChatInput {
    const runtime: CharacterRuntime
    var pendingEvents: seq<Item>
    var pullWindowSeqs: set<nat>
    /** The flushes chained on the tail, in order, and the one awaiting the group chat state. */
    var flushTail: seq<Job>
    var flushing: Option<Flight>
    var retryBatch: Option<Batch>
    var debounceTimer: bool
    var debounceDueAt: bool
    var idleWindowTimer: bool
    var idleWindowAbortEligible: bool
    var deliveryWindowTimer: bool
    var pull: Pull
    var refetchRequested: bool
    var incrementPending: bool
    var abortTokenQueued: bool
    var abortRequested: bool
    var latestGroupChatUpdate: Option<Update>
    var latestWhisperPlaceholderSequence: nat
    var injectedWhisperSequence: nat
    var stopped: bool

    ghost function TheCargo(): Cargo
      reads this, runtime
    {
      Cargo(pendingEvents, pullWindowSeqs, flushTail, flushing, retryBatch, runtime.cursorSequence, runtime.cursorFile)
    }

    ghost function TheTimers(): Timers
      reads this
    {
      Timers(debounceTimer, debounceDueAt, idleWindowTimer, idleWindowAbortEligible, deliveryWindowTimer)
    }

    ghost function TheAgent(): Agent
      reads this, runtime
    {
      Agent(runtime.isAgentActive, runtime.wedgedSettled, incrementPending, abortTokenQueued, abortRequested)
    }

    ghost function State(): Client
      reads this, runtime
    {
      Client(runtime.character, TheCargo(), pull, refetchRequested, TheTimers(), TheAgent(),
             latestGroupChatUpdate, latestWhisperPlaceholderSequence, injectedWhisperSequence, stopped)
    }

    constructor (runtime: CharacterRuntime)
      requires runtime.cursorSequence == runtime.cursorFile && !runtime.isAgentActive && !runtime.wedgedSettled
      ensures this.runtime == runtime && State() == NewClient(runtime.character, runtime.cursorFile)
    {
      this.runtime := runtime;
      pendingEvents, pullWindowSeqs, flushTail, flushing, retryBatch := [], {}, [], None, None;
      debounceTimer, debounceDueAt, deliveryWindowTimer := false, false, false;
      idleWindowTimer, idleWindowAbortEligible := false, false;
      pull, refetchRequested, incrementPending, abortTokenQueued, abortRequested := Resting, false, false, false, false;
      latestGroupChatUpdate, latestWhisperPlaceholderSequence, injectedWhisperSequence, stopped := None, 0, 0, false;
    }

    // ----- timers and tokens -----

    method ResetJoinDebounce()
      modifies this`debounceTimer, this`debounceDueAt
      ensures State() == old(State()).(timers := Debounced(old(TheTimers())))
    {
      debounceTimer, debounceDueAt := true, true;
    }

    method ArmIdleWindowTimer(eligible: bool)
      modifies this`idleWindowTimer, this`idleWindowAbortEligible
      ensures State() == ArmIdleWindow(old(State()), eligible)
    {
      if stopped {
        return;
      }
      idleWindowAbortEligible := idleWindowAbortEligible || eligible;
      idleWindowTimer := true;
    }

    method QueueAbortControlToken(sent: bool)
      requires !stopped
      modifies this`abortTokenQueued
      ensures TheAgent() == QueueAbortToken(old(TheAgent()), sent)
    {
      if abortTokenQueued || abortRequested {
        return;
      }
      abortTokenQueued := true;
      if !sent {
        abortTokenQueued := false;
      }
    }

    /** The run goes on over something unread; a token may stop it at the next safe boundary. */
    method MarkUnread(proven: bool, sent: bool)
      requires !stopped
      modifies this`incrementPending, this`abortTokenQueued
      ensures TheAgent() == var marked := old(TheAgent()).(incrementPending := true);
                            if proven then QueueAbortToken(marked, sent) else marked
    {
      incrementPending := true;
      if proven {
        QueueAbortControlToken(sent);
      }
    }

    method ConsumeAbortControlToken() returns (aborted: bool)
      modifies this`abortTokenQueued, this`abortRequested
      ensures State() == ConsumeAbortToken(old(State()))
      ensures aborted == TokenFires(old(State()))
    {
      if stopped || !abortTokenQueued || abortRequested || !incrementPending || !runtime.isAgentActive {
        return false;
      }
      abortTokenQueued, abortRequested := false, true;
      return true;
    }

    method MarkPending()
      modifies this`incrementPending
      ensures State() == MarkIncrementPending(old(State()))
    {
      if !stopped {
        incrementPending := true;
      }
    }

    // ----- pull -----

    method Pull()
      modifies this`pull, this`refetchRequested
      ensures State() == PullIncrement(old(State()))
    {
      if stopped || pull != Resting {
        refetchRequested := true;
        return;
      }
      refetchRequested := false;
      pull := Fetching(runtime.cursorSequence);
    }

    method Loop()
      modifies this`pull, this`refetchRequested
      ensures State() == LoopOrRest(old(State()))
    {
      if refetchRequested && !stopped {
        refetchRequested := false;
        pull := Fetching(runtime.cursorSequence);
      } else {
        pull := Resting;
      }
    }

    /** The pull's items, behind whatever is pending, become one flush, which the pull waits for. */
    method HandOver(items: seq<Item>, window: set<nat>, latest: nat)
      modifies this`pullWindowSeqs, this`flushTail, this`pendingEvents, this`pull
      ensures State() == old(State()).(cargo := QueueDelivery(old(TheCargo()), items, latest, window), pull := Handing)
    {
      if window != {} {
        pullWindowSeqs := window;
      }
      flushTail := flushTail + [Deliver(pendingEvents + items, latest)];
      pendingEvents := [];
      pull := Handing;
    }

    method OnPage(page: FetchPage, written: bool)
      modifies this, runtime
      ensures State() == PageArrives(old(State()), page, written)
    {
      if !pull.Fetching? {
        return;
      }
      if stopped {
        pull := Resting;
        return;
      }
      var items, window, deliverable := ScanPage(page.messages, pull.since, runtime.character);
      if deliverable {
        HandOver(items, window, page.latest);
        return;
      }
      if page.messages != [] {
        runtime.SaveCursor(page.latest, written);
      }
      Loop();
    }

    method OnFetchFailed()
      modifies this`pull
      ensures State() == FetchFails(old(State()))
    {
      if pull.Fetching? {
        pull := Resting;
      }
    }

    method OnDelivered()
      modifies this`pull, this`refetchRequested, this`pullWindowSeqs
      ensures State() == PullResumes(old(State()))
    {
      if pull == Handed {
        pullWindowSeqs := {};
        Loop();
      }
    }

    // ----- flush -----

    method AfterFlush(pulled: bool)
      modifies this`pull, this`debounceTimer, this`debounceDueAt
      ensures State() == EndJob(old(State()), pulled)
    {
      if pulled && pull == Handing {
        pull := Handed;
      }
      if pendingEvents != [] && retryBatch.None? && !stopped {
        ResetJoinDebounce();
      }
    }

    /**
      The batch of a flush, from the fields as they are when it starts; takes up the retry
      slot and the pending items.
      */
    method PrepareFlush(job: Job) returns (batch: Batch)
      modifies this`retryBatch, this`pendingEvents
      ensures batch == Prepared(old(TheCargo()), job)
      ensures retryBatch == None
      ensures pendingEvents == if job.Drain? && old(retryBatch).None? then [] else old(pendingEvents)
    {
      var gathered := if job.Deliver? then job.items else pendingEvents;
      var retryLatest: Option<nat> := None;
      var retryCoverage: Option<int> := None;
      if retryBatch.Some? {
        gathered := if job.Drain? then retryBatch.value.items else retryBatch.value.items + job.items;
        retryLatest := retryBatch.value.latest;
        retryCoverage := retryBatch.value.coverage;
        if job.Deliver? {
          retryLatest := Some(Max(if retryLatest.Some? then retryLatest.value else 0, job.latest));
        }
        retryBatch := None;
      } else if job.Drain? {
        pendingEvents := [];
      }
      var cursor := runtime.cursorSequence;
      var kept := FilterDelivered(gathered, cursor, pullWindowSeqs);
      var coverage := if job.Deliver? then Some(cursor as int) else None;
      var candidate := retryLatest;
      if job.Drain? {
        coverage := ComputeCoverage(kept);
      }
      if candidate.None? {
        if job.Deliver? {
          candidate := Some(job.latest);
        } else {
          candidate := ComputeWatermark(kept);
        }
      }
      if candidate.Some? && candidate.value <= cursor {
        candidate := None;
      }
      return Batch(kept, MergeCoverage(retryCoverage, coverage), candidate);
    }

    method BeginFlush()
      modifies this`flushTail, this`flushing, this`retryBatch, this`pendingEvents, this`pull,
               this`debounceTimer, this`debounceDueAt
      ensures State() == StartFlush(old(State()))
    {
      if flushing.Some? || flushTail == [] {
        return;
      }
      var job := flushTail[0];
      ghost var c := State();
      var batch := PrepareFlush(job);
      flushTail := flushTail[1..];
      assert State() == c.(cargo := TakeJob(c.cargo));
      if stopped || batch.items == [] {
        AfterFlush(job.Deliver?);
        return;
      }
      flushing := Some(Flight(batch, job.Deliver?));
    }

    /** The group chat state has come back: hand the batch over; `accepted` is false when pi throws. */
    method EndFlush(accepted: bool) returns (handed: Option<Batch>)
      modifies this
      ensures State() == FinishFlush(old(State()), accepted)
      ensures handed == if HandsOver(old(State()), accepted) then Some(old(flushing).value.batch) else None
    {
      handed := None;
      if flushing.None? {
        return;
      }
      var f := flushing.value;
      flushing := None;
      if !stopped {
        if accepted {
          handed := Some(f.batch);
        } else {
          retryBatch := Some(f.batch);
          ResetJoinDebounce();
        }
      }
      AfterFlush(f.pulled);
    }

    method ConfirmConsumed(b: Batch, written: bool)
      modifies runtime
      ensures State() == ConfirmBatchConsumed(old(State()), b, written)
    {
      if stopped || b.latest.None? || b.coverage.None? {
        return;
      }
      if b.coverage.value > runtime.cursorSequence || b.latest.value <= runtime.cursorSequence {
        return;
      }
      runtime.SaveCursor(b.latest.value, written);
    }

    // ----- timers fire -----

    method OnDebounce()
      modifies this`debounceTimer, this`debounceDueAt, this`flushTail
      ensures State() == DebounceFires(old(State()))
    {
      if debounceTimer {
        debounceTimer, debounceDueAt := false, false;
        flushTail := flushTail + [Drain];
      }
    }

    method OnIdleWindow(sent: bool)
      modifies this
      ensures State() == IdleWindowFires(old(State()), sent)
    {
      if !idleWindowTimer {
        return;
      }
      var shouldAbort := idleWindowAbortEligible;
      ghost var c := State();
      idleWindowTimer, idleWindowAbortEligible := false, false;
      assert State() == c.(timers := c.timers.(idleWindow := false, idleEligible := false));
      if stopped {
        return;
      }
      if runtime.isAgentActive {
        MarkUnread(shouldAbort, sent);
        return;
      }
      Pull();
    }

    method OnDeliveryWindow()
      modifies this
      ensures State() == DeliveryWindowFires(old(State()))
    {
      if !deliveryWindowTimer {
        return;
      }
      deliveryWindowTimer := false;
      if stopped || !incrementPending {
        return;
      }
      incrementPending := false;
      Pull();
    }

    // ----- the agent -----

    method OnAgentStart()
      modifies runtime
      ensures State() == AgentStarts(old(State()))
    {
      runtime.isAgentActive, runtime.wedgedSettled := true, false;
    }

    method Settled()
      modifies this
      ensures State() == OnSettled(old(State()))
    {
      if stopped {
        return;
      }
      ghost var c := State();
      var pending := incrementPending;
      abortTokenQueued, abortRequested, deliveryWindowTimer, incrementPending := false, false, false, false;
      assert State() == c.(agent := c.agent.(tokenQueued := false, abortRequested := false, incrementPending := false),
                           timers := c.timers.(deliveryWindow := false));
      if pending {
        Pull();
      }
    }

    method OnAgentSettled()
      modifies this, runtime
      ensures State() == SettleRun(old(State()))
    {
      runtime.isAgentActive := false;
      if !runtime.wedgedSettled {
        Settled();
      }
    }

    method OnRunWedged()
      modifies this, runtime
      ensures State() == RunWedged(old(State()))
    {
      if runtime.isAgentActive {
        runtime.wedgedSettled, runtime.isAgentActive := true, false;
        Settled();
      }
    }

    // ----- incoming frames -----

    /** A notification during a run: the delivery window opens, and a token may be queued. */
    method NoteWhileBusy(proven: bool, sent: bool)
      requires !stopped
      modifies this`incrementPending, this`abortTokenQueued, this`deliveryWindowTimer
      ensures TheTimers() == old(TheTimers()).(deliveryWindow := true) && TheCargo() == old(TheCargo())
      ensures TheAgent() == var marked := old(TheAgent()).(incrementPending := true);
                            if proven then QueueAbortToken(marked, sent) else marked
    {
      MarkUnread(proven, sent);
      deliveryWindowTimer := true;
    }

    method OnGroupChatUpdate(u: Update, sent: bool)
      requires !stopped
      modifies this
      ensures State() == OnUpdate(old(State()), u, sent)
    {
      ghost var c := State();
      latestGroupChatUpdate := Some(u);
      assert State() == c.(known := Some(u));
      var cursor := runtime.cursorSequence;
      var kind := ClassifySelfPreview(u, cursor, runtime.character);
      if u.latest <= cursor || kind.CompleteSelfOnly? {
        return;
      }
      if runtime.isAgentActive {
        NoteWhileBusy(!kind.IncompleteWithSelf?, sent);
      } else {
        ArmIdleWindowTimer(kind.External?);
      }
    }

    method OnWhisperPlaceholder(sequence: nat)
      modifies this`latestWhisperPlaceholderSequence
      ensures State() == OnPlaceholder(old(State()), sequence)
    {
      if sequence > latestWhisperPlaceholderSequence {
        latestWhisperPlaceholderSequence := sequence;
      }
    }

    method OnWhisperMessage(f: Frame)
      requires f.Full?
      modifies this
      ensures State() == OnWhisper(old(State()), f)
    {
      var s := FrameSequence(f);
      var cursor := runtime.cursorSequence;
      if s <= cursor || s <= injectedWhisperSequence {
        return;
      }
      if Own(f, runtime.character) {
        injectedWhisperSequence := s;
        return;
      }
      if s > Max(cursor, injectedWhisperSequence) + 1 {
        if runtime.isAgentActive {
          MarkPending();
        } else {
          ArmIdleWindowTimer(true);
        }
        return;
      }
      pendingEvents := pendingEvents + [Chat(f)];
      injectedWhisperSequence := s;
      ResetJoinDebounce();
    }

    method OnEnvironmentItem(i: Item)
      modifies this
      ensures State() == OnItem(old(State()), i)
    {
      if EnvironmentItem(i, runtime.character) {
        pendingEvents := pendingEvents + [i];
        ResetJoinDebounce();
      }
    }

    // ----- life cycle -----

    method ClearTimers()
      modifies this`debounceTimer, this`debounceDueAt, this`idleWindowTimer, this`idleWindowAbortEligible,
               this`deliveryWindowTimer
      ensures TheTimers() == NO_TIMERS
    {
      debounceTimer, debounceDueAt := false, false;
      idleWindowTimer, idleWindowAbortEligible := false, false;
      deliveryWindowTimer := false;
    }

    method Stop()
      modifies this
      ensures State() == Delivery.Stop(old(State()))
    {
      ghost var c := State();
      ClearTimers();
      assert State() == c.(timers := NO_TIMERS);
      Discard();
      stopped := true;
    }

    method Discard()
      modifies this`pendingEvents, this`abortTokenQueued, this`abortRequested
      ensures TheCargo() == old(TheCargo()).(pending := [])
      ensures TheAgent() == old(TheAgent()).(tokenQueued := false, abortRequested := false)
    {
      pendingEvents, abortTokenQueued, abortRequested := [], false, false;
    }

    /** The busy mark becomes a pull; otherwise an open idle window stays open. */
    method RestoreMarks(pending: bool, idle: bool, eligible: bool)
      modifies this`pull, this`refetchRequested, this`idleWindowTimer, this`idleWindowAbortEligible
      ensures State() == if pending then PullIncrement(old(State()))
                         else if idle then old(State()).(timers := old(TheTimers()).(idleWindow := true,
                                                                                     idleEligible := eligible))
                         else old(State())
    {
      if pending {
        Pull();
      } else if idle {
        idleWindowTimer, idleWindowAbortEligible := true, eligible;
      }
    }

    /** The instance of the next runtime, from what the reload snapshot carries. */
    constructor RestoreFromReload(previous: GroupChatInput, runtime: CharacterRuntime)
      requires runtime.cursorSequence == runtime.cursorFile == previous.runtime.cursorFile
      requires runtime.character == previous.runtime.character && !runtime.isAgentActive && !runtime.wedgedSettled
      ensures this.runtime == runtime && State() == Reloaded(previous.State())
    {
      this.runtime := runtime;
      pendingEvents, pullWindowSeqs, flushTail, flushing, retryBatch := previous.pendingEvents, {}, [], None, None;
      debounceTimer, debounceDueAt, deliveryWindowTimer := previous.debounceDueAt, false, false;
      idleWindowTimer, idleWindowAbortEligible := false, false;
      pull, refetchRequested, incrementPending, abortTokenQueued, abortRequested := Resting, false, false, false, false;
      latestGroupChatUpdate, latestWhisperPlaceholderSequence, injectedWhisperSequence, stopped := None, 0, 0, false;
      new;
      RestoreMarks(previous.incrementPending, previous.idleWindowTimer, previous.idleWindowAbortEligible);
    }
  }
}
