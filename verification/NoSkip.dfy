/**
  No message is skipped: whatever pi drops or reorders, however hand-overs fail,
  live and pulled batches merge or a reload falls back to an older cursor file,
  everything by others up to the cursor has been read by the agent, on every run
  without one of three steps at a bad moment.
  */
module NoSkip {
  import opened Common
  import opened Messages
  import opened Preview
  import opened Delivery
  import opened DeliveryWorld
  import opened Coverage

  /** What coverage is about: the log, whose client it is, where it joined, what its agent has read. */
  datatype Ground = Ground(log: seq<Message>, me: string, preset: nat, consumed: set<nat>)

  function GroundOf(w: World): Ground {
    Ground(w.log, w.c.me, w.preset, w.consumed)
  }

  /** Written by someone else after the join, and not read. */
  ghost predicate Missing(g: Ground, s: nat) {
    g.preset < s && ByOther(g.log, g.me, s) && s !in g.consumed
  }

  /** Everything up to `k` has been read. */
  ghost predicate ReadUpTo(g: Ground, k: int) {
    k <= |g.log| && forall s: nat | Missing(g, s) :: s > k
  }

  /** Everything in (lo, hi] that is unread is among `numbers`. */
  ghost predicate Covers(g: Ground, lo: int, hi: nat, numbers: set<nat>) {
    forall s: nat | Missing(g, s) :: lo < s <= hi ==> s in numbers
  }

  // ----- the invariant -----

  /** What a batch claims is true: reading it leaves nothing unread in its interval. */
  ghost predicate Honest(g: Ground, b: Batch) {
    && (b.latest.Some? ==> b.latest.value <= |g.log|)
    && (b.latest.Some? && b.coverage.Some? ==> Covers(g, b.coverage.value, b.latest.value, Sequences(b.items)))
  }

  /** A batch that can still be merged: its lower bound and its watermark fit the items it holds. */
  ghost predicate Mergeable(g: Ground, b: Batch) {
    && Honest(g, b)
    && (b.coverage.Some? ==>
          ReadUpTo(g, b.coverage.value) || forall n | n in InjectedSequences(b.items) :: n > b.coverage.value)
    && (forall n | n in Sequences(b.items) :: (b.latest.Some? && n <= b.latest.value) || ReadUpTo(g, n))
    && (b.coverage.None? ==> TextOnly(b.items) && (b.latest.Some? ==> b.latest.value in Sequences(b.items)))
  }

  /** A pull's items reach up to its watermark, without a hole. */
  ghost predicate Complete(g: Ground, j: Job) {
    j.Deliver? ==>
      && j.latest <= |g.log|
      && Covers(g, -1, j.latest, Sequences(j.items))
      && forall n | n in Sequences(j.items) :: n <= j.latest
  }

  ghost predicate LiveItems(items: seq<Item>, arrived: nat) {
    TextOnly(items) && forall n | n in Sequences(items) :: n <= arrived
  }

  ghost predicate JobsComplete(g: Ground, jobs: seq<Job>) {
    forall i :: 0 <= i < |jobs| ==> Complete(g, jobs[i])
  }

  ghost predicate AllHonest(g: Ground, pi: seq<Batch>) {
    forall i :: 0 <= i < |pi| ==> Honest(g, pi[i])
  }

  ghost predicate Sound(g: Ground, c: Client, arrived: nat) {
    && GaplessLog(g.log)
    && ReadUpTo(g, c.cargo.cursor)
    && ReadUpTo(g, c.cargo.file)
    && (c.pull.Fetching? ==> ReadUpTo(g, c.pull.since))
    && arrived <= |g.log|
    && LiveItems(c.cargo.pending, arrived)
    && JobsComplete(g, c.cargo.jobs)
    && (c.cargo.running.Some? ==> Mergeable(g, c.cargo.running.value.batch) && c.cargo.retry.None?)
    && (c.cargo.retry.Some? ==> Mergeable(g, c.cargo.retry.value))
  }

  ghost predicate Inv(w: World) {
    Sound(GroundOf(w), w.c, w.arrived) && AllHonest(GroundOf(w), w.pi)
  }

  // ----- more log, more reading -----

  /** The log may have grown beyond its end and more may have been read. */
  ghost predicate Later(g: Ground, h: Ground) {
    && |g.log| <= |h.log|
    && GaplessLog(h.log)
    && forall s: nat | Missing(h, s) :: Missing(g, s) || s > |g.log|
  }

  lemma MergeableLater(g: Ground, h: Ground, b: Batch)
    requires Later(g, h) && Mergeable(g, b)
    ensures Mergeable(h, b)
  {
  }

  lemma JobsLater(g: Ground, h: Ground, jobs: seq<Job>)
    requires Later(g, h) && JobsComplete(g, jobs)
    ensures JobsComplete(h, jobs)
  {
    forall i | 0 <= i < |jobs| ensures Complete(h, jobs[i]) {
      assert Complete(g, jobs[i]);
    }
  }

  lemma HonestLater(g: Ground, h: Ground, pi: seq<Batch>)
    requires Later(g, h) && AllHonest(g, pi)
    ensures AllHonest(h, pi)
  {
    forall i | 0 <= i < |pi| ensures Honest(h, pi[i]) {
      assert Honest(g, pi[i]);
    }
  }

  lemma SoundLater(g: Ground, h: Ground, c: Client, arrived: nat)
    requires Later(g, h) && Sound(g, c, arrived)
    ensures Sound(h, c, arrived)
  {
    JobsLater(g, h, c.cargo.jobs);
    if c.cargo.running.Some? {
      MergeableLater(g, h, c.cargo.running.value.batch);
    }
    if c.cargo.retry.Some? {
      MergeableLater(g, h, c.cargo.retry.value);
    }
  }

  // ----- preparing a batch -----

  /**
    When a pull is merged with a failed batch the claim reaches from the cursor to
    the higher watermark.  In the hole are the numbers above the pull's watermark
    which the failed batch's own claim does not reach and which it does not hold.
    */
  ghost predicate InHole(r: Batch, latest: nat, cursor: nat, s: nat) {
    && r.latest.Some?
    && Max(latest, cursor) < s <= r.latest.value
    && (r.coverage.Some? ==> s <= r.coverage.value)
    && s !in Sequences(r.items)
  }

  /** Nothing in the hole is still to be read. */
  ghost predicate HoleRead(g: Ground, r: Batch, latest: nat, cursor: nat) {
    forall s: nat | Missing(g, s) :: !InHole(r, latest, cursor, s)
  }

  /** A flush about to start merges a pull with the batch in the retry slot. */
  predicate Merges(c: Client) {
    var k := c.cargo;
    && !c.stopped && k.running.None? && k.jobs != [] && k.jobs[0].Deliver? && k.retry.Some?
    && Prepared(k, k.jobs[0]).items != []
  }

  ghost predicate SafeToStart(g: Ground, c: Client) {
    Merges(c) ==> HoleRead(g, c.cargo.retry.value, c.cargo.jobs[0].latest, c.cargo.cursor)
  }

  /** A pull on its own. */
  lemma PulledIsMergeable(g: Ground, c: Client, arrived: nat, job: Job)
    requires Sound(g, c, arrived) && Complete(g, job) && job.Deliver? && c.cargo.retry.None?
    ensures Mergeable(g, Prepared(c.cargo, job))
  {
    FreshKeeps(job.items, c.cargo.cursor, c.cargo.pullWindow, {});
  }

  /** A pull together with the batch that failed before it. */
  lemma MergedIsMergeable(g: Ground, c: Client, arrived: nat, job: Job)
    requires Sound(g, c, arrived) && Complete(g, job) && job.Deliver? && c.cargo.retry.Some?
    requires HoleRead(g, c.cargo.retry.value, job.latest, c.cargo.cursor)
    ensures Mergeable(g, Prepared(c.cargo, job))
  {
    var r := c.cargo.retry.value;
    SequencesConcat(r.items, job.items);
    FreshKeeps(r.items + job.items, c.cargo.cursor, c.cargo.pullWindow, {});
  }

  /** Live items on their own. */
  lemma LiveIsMergeable(g: Ground, c: Client, arrived: nat)
    requires Sound(g, c, arrived) && c.cargo.retry.None?
    ensures Mergeable(g, Prepared(c.cargo, Drain))
  {
    var items := Fresh(c.cargo.pending, c.cargo.cursor, c.cargo.pullWindow, {});
    FreshKeeps(c.cargo.pending, c.cargo.cursor, c.cargo.pullWindow, {});
    InjectedWithin(items);
    HighestIsHighest(items);
    ContiguousCovers(items);
  }

  /** The failed batch once more: its claim, lowered at most to what its own items still fill. */
  lemma RetriedIsHonest(g: Ground, r: Batch, items: seq<Item>, cursor: nat, b: Batch)
    requires ReadUpTo(g, cursor) && Mergeable(g, r)
    requires Sequences(items) <= Sequences(r.items) && InjectedSequences(items) <= InjectedSequences(r.items)
    requires TextOnly(r.items) ==> TextOnly(items)
    requires forall n | n in Sequences(r.items) :: n > cursor ==> n in Sequences(items)
    requires b.items == items && b.coverage == MergeCoverage(r.coverage, CoverageLowerBound(items))
    requires b.latest == BeyondCursor(if r.latest.Some? then r.latest else WatermarkOfDelivered(items), cursor)
    ensures Honest(g, b)
  {
    InjectedWithin(items);
    HighestIsHighest(items);
    ContiguousCovers(items);
    LowestIsLowest(items);
    if b.latest.Some? && b.coverage.Some? {
      forall s: nat | Missing(g, s) && b.coverage.value < s <= b.latest.value ensures s in Sequences(items) {
        RetriedClaim(g, r, items, cursor, b, s);
      }
    }
  }

  lemma RetriedClaim(g: Ground, r: Batch, items: seq<Item>, cursor: nat, b: Batch, s: nat)
    requires ReadUpTo(g, cursor) && Mergeable(g, r)
    requires InjectedSequences(items) <= InjectedSequences(r.items)
    requires TextOnly(r.items) ==> TextOnly(items)
    requires forall n | n in Sequences(r.items) :: n > cursor ==> n in Sequences(items)
    requires b.coverage == MergeCoverage(r.coverage, CoverageLowerBound(items)) && b.coverage.Some?
    requires b.latest == BeyondCursor(if r.latest.Some? then r.latest else WatermarkOfDelivered(items), cursor)
    requires b.latest.Some?
    requires Missing(g, s) && b.coverage.value < s <= b.latest.value
    ensures s in Sequences(items)
  {
    InjectedWithin(items);
    HighestIsHighest(items);
    ContiguousCovers(items);
    LowestIsLowest(items);
    if r.coverage.Some? && r.latest.Some? {
      if s <= r.coverage.value {
        assert false;
      }
    } else if r.latest.None? {
      assert HighestInjected(items) in InjectedSequences(items);
      InjectedWithin(r.items);
      assert false;
    } else {
      assert r.latest.value in Sequences(items);
    }
  }

  function BeyondCursor(candidate: Option<nat>, cursor: nat): Option<nat> {
    if candidate.Some? && candidate.value > cursor then candidate else None
  }

  /** Its lower bound, and each item's number, stay within what its watermark or the cursor accounts for. */
  lemma RetriedFits(g: Ground, r: Batch, items: seq<Item>, cursor: nat, b: Batch)
    requires ReadUpTo(g, cursor) && Mergeable(g, r)
    requires Sequences(items) <= Sequences(r.items) && InjectedSequences(items) <= InjectedSequences(r.items)
    requires TextOnly(r.items) ==> TextOnly(items)
    requires forall n | n in Sequences(r.items) :: n > cursor ==> n in Sequences(items)
    requires b.items == items && b.coverage == MergeCoverage(r.coverage, CoverageLowerBound(items))
    requires b.latest == BeyondCursor(if r.latest.Some? then r.latest else WatermarkOfDelivered(items), cursor)
    requires Honest(g, b)
    ensures Mergeable(g, b)
  {
    ContiguousCovers(items);
    RetriedNumbers(g, r, items, cursor, b);
  }

  lemma RetriedNumbers(g: Ground, r: Batch, items: seq<Item>, cursor: nat, b: Batch)
    requires ReadUpTo(g, cursor) && Mergeable(g, r)
    requires Sequences(items) <= Sequences(r.items)
    requires TextOnly(r.items) ==> TextOnly(items)
    requires forall n | n in Sequences(r.items) :: n > cursor ==> n in Sequences(items)
    requires b.latest == BeyondCursor(if r.latest.Some? then r.latest else WatermarkOfDelivered(items), cursor)
    ensures forall n | n in Sequences(items) :: (b.latest.Some? && n <= b.latest.value) || ReadUpTo(g, n)
    ensures r.coverage.None? ==> TextOnly(items) && (b.latest.Some? ==> b.latest.value in Sequences(items))
  {
    InjectedWithin(items);
    HighestIsHighest(items);
  }

  lemma RetriedIsMergeable(g: Ground, c: Client, arrived: nat)
    requires Sound(g, c, arrived) && c.cargo.retry.Some?
    ensures Mergeable(g, Prepared(c.cargo, Drain))
  {
    var r := c.cargo.retry.value;
    var items := Fresh(r.items, c.cargo.cursor, c.cargo.pullWindow, {});
    FreshKeeps(r.items, c.cargo.cursor, c.cargo.pullWindow, {});
    RetriedIsHonest(g, r, items, c.cargo.cursor, Prepared(c.cargo, Drain));
    RetriedFits(g, r, items, c.cargo.cursor, Prepared(c.cargo, Drain));
  }

  // ----- steps -----

  lemma PublishKeeps(w: World, m: Message)
    requires Inv(w)
    ensures Inv(PublishStep(w, m))
  {
    var g, h := GroundOf(w), GroundOf(PublishStep(w, m));
    forall s: nat | Missing(h, s) ensures Missing(g, s) || s > |g.log| {
    }
    SoundLater(g, h, w.c, w.arrived);
    HonestLater(g, h, w.pi);
  }

  /** Nothing that carries messages has changed, except that a pull may have gone out from the cursor. */
  predicate SameCargo(c: Client, d: Client) {
    && d.me == c.me && d.cargo.cursor == c.cargo.cursor && d.cargo.file == c.cargo.file
    && d.cargo.pending == c.cargo.pending && d.cargo.jobs == c.cargo.jobs
    && d.cargo.running == c.cargo.running && d.cargo.retry == c.cargo.retry
    && (d.pull == c.pull || (d.pull.Fetching? ==> d.pull.since == c.cargo.cursor))
  }

  lemma SameCargoSound(g: Ground, c: Client, d: Client, arrived: nat)
    requires Sound(g, c, arrived) && SameCargo(c, d)
    ensures Sound(g, d, arrived)
  {
  }

  lemma TimersCarryNothing(c: Client, tokenSent: bool)
    ensures SameCargo(c, PullIncrement(c))
    ensures SameCargo(c, IdleWindowFires(c, tokenSent))
    ensures SameCargo(c, DeliveryWindowFires(c))
    ensures SameCargo(c, FetchFails(c))
    ensures SameCargo(c, PullResumes(c))
  {
  }

  lemma AgentCarriesNothing(c: Client)
    ensures SameCargo(c, SettleRun(c))
    ensures SameCargo(c, RunWedged(c))
    ensures SameCargo(c, AgentStarts(c))
    ensures SameCargo(c, ConsumeAbortToken(c))
    ensures SameCargo(c, MarkIncrementPending(c))
  {
  }

  lemma NotificationsCarryNothing(c: Client, u: Update, tokenSent: bool, s: nat)
    ensures SameCargo(c, OnUpdate(c, u, tokenSent))
    ensures SameCargo(c, OnPlaceholder(c, s))
  {
    var kind := ClassifySelfPreview(u, c.cargo.cursor, c.me);
  }

  /** What a flush leaves behind when its batch is taken out. */
  lemma TakenSound(g: Ground, c: Client, arrived: nat, d: Client)
    requires Sound(g, c, arrived) && c.cargo.jobs != [] && c.cargo.running.None?
    requires d.me == c.me && d.cargo.cursor == c.cargo.cursor && d.cargo.file == c.cargo.file
    requires d.pull == c.pull || !d.pull.Fetching?
    requires d.cargo.jobs == c.cargo.jobs[1..] && d.cargo.retry == None
    requires d.cargo.pending == c.cargo.pending || d.cargo.pending == []
    requires d.cargo.running.Some? ==> Mergeable(g, d.cargo.running.value.batch)
    ensures Sound(g, d, arrived)
  {
    forall i | 0 <= i < |c.cargo.jobs[1..]| ensures Complete(g, c.cargo.jobs[1..][i]) {
      assert Complete(g, c.cargo.jobs[i + 1]);
    }
  }

  lemma PreparedIsMergeable(g: Ground, c: Client, arrived: nat)
    requires Sound(g, c, arrived) && c.cargo.jobs != [] && c.cargo.running.None? && !c.stopped
    requires SafeToStart(g, c) && Prepared(c.cargo, c.cargo.jobs[0]).items != []
    ensures Mergeable(g, Prepared(c.cargo, c.cargo.jobs[0]))
  {
    var job := c.cargo.jobs[0];
    assert Complete(g, job);
    if job.Drain? && c.cargo.retry.None? {
      LiveIsMergeable(g, c, arrived);
    } else if job.Drain? {
      RetriedIsMergeable(g, c, arrived);
    } else if c.cargo.retry.None? {
      PulledIsMergeable(g, c, arrived, job);
    } else {
      MergedIsMergeable(g, c, arrived, job);
    }
  }

  lemma FlushStartKeeps(w: World)
    requires Inv(w) && SafeToStart(GroundOf(w), w.c)
    ensures Inv(FlushStep(w))
  {
    var g, c := GroundOf(w), w.c;
    if c.cargo.running.None? && c.cargo.jobs != [] {
      if !c.stopped && Prepared(c.cargo, c.cargo.jobs[0]).items != [] {
        PreparedIsMergeable(g, c, w.arrived);
      }
      TakenSound(g, c, w.arrived, StartFlush(c));
    }
  }

  lemma FlushEndKeeps(w: World, accepted: bool)
    requires Inv(w)
    ensures Inv(FlushEndStep(w, accepted))
  {
  }

  /** A reply that has something unread becomes a complete job. */
  lemma ReplyIsComplete(w: World, n: nat, window: nat)
    requires Inv(w) && Replies(w, n)
    ensures
      var page := PageAt(w.log, n, w.c.pull.since, window, w.c.me);
      var items := PageItems(page.messages, w.c.me);
      && (AnyUnread(items, w.c.pull.since) ==> Complete(GroundOf(w), Deliver(w.c.cargo.pending + items, page.latest)))
      && (!AnyUnread(items, w.c.pull.since) && page.messages != [] ==> ReadUpTo(GroundOf(w), page.latest))
  {
    var g, since := GroundOf(w), w.c.pull.since;
    var page := PageAt(w.log, n, since, window, w.c.me);
    var items := PageItems(page.messages, w.c.me);
    var start := Max(0, since - window);
    PageIsComplete(w.log[..n], start, w.c.me);
    forall s: nat | Missing(g, s) && s <= n ensures s > since && s in Sequences(items) {
      assert ByOther(w.log[..n], w.c.me, s);
    }
    SequencesConcat(w.c.cargo.pending, items);
    if page.messages != [] {
      assert page.latest == n;
    }
  }

  lemma JobsPush(g: Ground, jobs: seq<Job>, job: Job)
    requires JobsComplete(g, jobs) && Complete(g, job)
    ensures JobsComplete(g, jobs + [job])
  {
    forall i | 0 <= i < |jobs + [job]| ensures Complete(g, (jobs + [job])[i]) {
      if i < |jobs| {
        assert Complete(g, jobs[i]);
      }
    }
  }

  lemma PageArrivesSound(g: Ground, c: Client, arrived: nat, page: FetchPage, written: bool)
    requires Sound(g, c, arrived) && c.pull.Fetching?
    requires var items := PageItems(page.messages, c.me);
      && (AnyUnread(items, c.pull.since) ==> Complete(g, Deliver(c.cargo.pending + items, page.latest)))
      && (!AnyUnread(items, c.pull.since) && page.messages != [] ==> ReadUpTo(g, page.latest))
    ensures Sound(g, PageArrives(c, page, written), arrived)
  {
    var items := PageItems(page.messages, c.me);
    if !c.stopped && AnyUnread(items, c.pull.since) {
      JobsPush(g, c.cargo.jobs, Deliver(c.cargo.pending + items, page.latest));
      assert PageArrives(c, page, written).cargo.pending == [];
    }
  }

  lemma ReplyKeeps(w: World, n: nat, window: nat, written: bool)
    requires Inv(w)
    ensures Inv(ReplyStep(w, n, window, written))
  {
    if Replies(w, n) {
      var page := PageAt(w.log, n, w.c.pull.since, window, w.c.me);
      ReplyIsComplete(w, n, window);
      PageArrivesSound(GroundOf(w), w.c, w.arrived, page, written);
      assert PageArrives(w.c, page, written).me == w.c.me;
    }
  }

  lemma ConsumeKeeps(w: World, i: nat, written: bool)
    requires Inv(w)
    ensures Inv(ConsumeStep(w, i, written))
  {
    if i < |w.pi| {
      var g := GroundOf(w);
      var h := g.(consumed := g.consumed + Sequences(w.pi[i].items));
      assert Honest(g, w.pi[i]);
      SoundLater(g, h, w.c, w.arrived);
      HonestLater(g, h, w.pi);
      forall j | 0 <= j < |Without(w.pi, i)| ensures Honest(h, Without(w.pi, i)[j]) {
        assert Honest(h, w.pi[if j < i then j else j + 1]);
      }
    }
  }

  lemma DropKeeps(w: World, i: nat)
    requires Inv(w)
    ensures Inv(DropStep(w, i))
  {
    if i < |w.pi| {
      forall j | 0 <= j < |Without(w.pi, i)| ensures Honest(GroundOf(w), Without(w.pi, i)[j]) {
        assert Honest(GroundOf(w), w.pi[if j < i then j else j + 1]);
      }
    }
  }

  lemma PendingKeeps(pending: seq<Item>, item: Item, arrived: nat, later: nat)
    requires LiveItems(pending, arrived) && arrived <= later
    requires item.Chat? ==> Injected(item) && SequenceOf(item) <= later
    ensures LiveItems(pending + [item], later)
  {
    SequencesConcat(pending, [item]);
    SequencesSingle(item);
  }

  lemma WhisperSound(g: Ground, c: Client, arrived: nat, f: Frame, s: nat)
    requires Sound(g, c, arrived) && f.Full? && IsWhisper(f.message) && FrameSequence(f) == s && s <= |g.log|
    ensures Sound(g, OnWhisper(c, f), Max(arrived, s))
    ensures OnWhisper(c, f).me == c.me
  {
    PendingKeeps(c.cargo.pending, Chat(f), arrived, Max(arrived, s));
  }

  lemma ItemSound(g: Ground, c: Client, arrived: nat, i: Item, later: nat)
    requires Sound(g, c, arrived) && arrived <= later <= |g.log|
    requires i.Chat? ==> Injected(i) && SequenceOf(i) <= later
    ensures Sound(g, OnItem(c, i), later)
    ensures OnItem(c, i).me == c.me
  {
    PendingKeeps(c.cargo.pending, i, arrived, later);
  }

  lemma FrameKeeps(w: World, s: nat)
    requires Inv(w)
    ensures Inv(FrameStep(w, s))
  {
    if !w.c.stopped && 1 <= s <= |w.log| {
      var g, f := GroundOf(w), FrameAt(w.log, s, w.c.me);
      ProjectionHidesWhispers(w.log[s - 1], Some(w.c.me));
      if f.Full? && IsWhisper(f.message) {
        WhisperSound(g, w.c, w.arrived, f, s);
      } else if f.Full? {
        ItemSound(g, w.c, w.arrived, Chat(f), Max(w.arrived, s));
      }
    }
  }

  lemma NoticeKeeps(w: World, item: Item)
    requires Inv(w)
    ensures Inv(NoticeStep(w, item))
  {
    if !item.Chat? {
      ItemSound(GroundOf(w), w.c, w.arrived, item, w.arrived);
    }
  }

  lemma UpdateKeeps(w: World, n: nat, tokenSent: bool)
    requires Inv(w)
    ensures Inv(UpdateStep(w, n, tokenSent))
  {
    if !w.c.stopped && n <= |w.log| {
      var u := UpdateAt(w.log, n);
      NotificationsCarryNothing(w.c, u, tokenSent, 0);
      SameCargoSound(GroundOf(w), w.c, OnUpdate(w.c, u, tokenSent), w.arrived);
    }
  }

  lemma QueueKeeps(w: World)
    requires Inv(w)
    ensures Inv(DebounceStep(w))
  {
    JobsPush(GroundOf(w), w.c.cargo.jobs, Drain);
  }

  lemma LeaveKeeps(w: World)
    requires Inv(w)
    ensures Inv(LeaveStep(w))
  {
  }

  lemma ReloadKeeps(w: World)
    requires Inv(w)
    ensures Inv(ReloadStep(w))
  {
  }

  /** What the character would still have to read if it went on from here. */
  function GroundAs(w: World, me: string, known: set<nat>): Ground {
    if me == w.c.me then GroundOf(w) else Ground(w.log, me, w.preset, set n | n in known && n <= |w.log|)
  }

  lemma RejoinKeeps(w: World, me: string, known: set<nat>)
    requires Inv(w) && (w.c.stopped ==> ReadUpTo(GroundAs(w, me, known), w.c.cargo.file))
    ensures Inv(RejoinStep(w, me, known))
  {
  }

  lemma ForeignKeeps(w: World, b: Batch, written: bool)
    requires Inv(w) && (Confirms(w.c, b) ==> ReadUpTo(GroundOf(w), b.latest.value))
    ensures Inv(ForeignStep(w, b, written))
  {
  }

  lemma IdleKeeps(w: World, tokenSent: bool)
    requires Inv(w)
    ensures Inv(IdleStep(w, tokenSent))
  {
    TimersCarryNothing(w.c, tokenSent);
    SameCargoSound(GroundOf(w), w.c, IdleStep(w, tokenSent).c, w.arrived);
  }

  lemma TimersKeep(w: World)
    requires Inv(w)
    ensures Inv(DeliveryWindowStep(w)) && Inv(BreakStep(w)) && Inv(GoOnStep(w))
  {
    TimersCarryNothing(w.c, true);
    SameCargoSound(GroundOf(w), w.c, DeliveryWindowStep(w).c, w.arrived);
    SameCargoSound(GroundOf(w), w.c, BreakStep(w).c, w.arrived);
    SameCargoSound(GroundOf(w), w.c, GoOnStep(w).c, w.arrived);
  }

  lemma RunStartKeeps(w: World)
    requires Inv(w)
    ensures Inv(RunStartStep(w))
  {
    AgentCarriesNothing(w.c);
    SameCargoSound(GroundOf(w), w.c, RunStartStep(w).c, w.arrived);
  }

  lemma SettleKeeps(w: World)
    requires Inv(w)
    ensures Inv(SettleStep(w))
  {
    AgentCarriesNothing(w.c);
    SameCargoSound(GroundOf(w), w.c, SettleStep(w).c, w.arrived);
  }

  lemma WedgeKeeps(w: World)
    requires Inv(w)
    ensures Inv(WedgeStep(w))
  {
    AgentCarriesNothing(w.c);
    SameCargoSound(GroundOf(w), w.c, WedgeStep(w).c, w.arrived);
  }

  lemma BoundaryKeeps(w: World)
    requires Inv(w)
    ensures Inv(BoundaryStep(w))
  {
    AgentCarriesNothing(w.c);
    SameCargoSound(GroundOf(w), w.c, BoundaryStep(w).c, w.arrived);
  }

  lemma MarkKeeps(w: World)
    requires Inv(w)
    ensures Inv(MarkStep(w))
  {
    AgentCarriesNothing(w.c);
    SameCargoSound(GroundOf(w), w.c, MarkStep(w).c, w.arrived);
  }

  /**
    The three steps that can reach over a message still to be read: a merge with
    something in its hole, a foreign batch that moves the cursor, and joining again
    as another character.
    */
  ghost predicate SafeStep(w: World, e: Event) {
    match e
    case FlushStarts => SafeToStart(GroundOf(w), w.c)
    case ForeignBatch(b, _) => Confirms(w.c, b) ==> ReadUpTo(GroundOf(w), b.latest.value)
    case Rejoins(me, known) => w.c.stopped ==> ReadUpTo(GroundAs(w, me, known), w.c.cargo.file)
    case _ => true
  }

  lemma TimerEventKeeps(w: World, e: Event)
    requires Inv(w) && TimerEvent(e)
    ensures Inv(Step(w, e))
  {
    match e
    case IdleWindowElapses(tokenSent) => IdleKeeps(w, tokenSent);
    case DeliveryWindowElapses => TimersKeep(w);
    case FetchBreaks => TimersKeep(w);
    case PullGoesOn => TimersKeep(w);
  }

  lemma AgentEventKeeps(w: World, e: Event)
    requires Inv(w) && AgentEvent(e)
    ensures Inv(Step(w, e))
  {
    match e
    case RunStarts => RunStartKeeps(w);
    case RunSettles => SettleKeeps(w);
    case RunWedges => WedgeKeeps(w);
    case Boundary => BoundaryKeeps(w);
    case MarkedPending => MarkKeeps(w);
  }

  lemma LifeEventKeeps(w: World, e: Event)
    requires Inv(w) && SafeStep(w, e) && LifeEvent(e)
    ensures Inv(Step(w, e))
  {
    match e
    case Leaves => LeaveKeeps(w);
    case Reloads => ReloadKeeps(w);
    case Rejoins(me, known) => RejoinKeeps(w, me, known);
  }

  lemma BatchEventKeeps(w: World, e: Event)
    requires Inv(w) && SafeStep(w, e) && BatchEvent(e)
    ensures Inv(Step(w, e))
  {
    match e
    case FlushStarts => FlushStartKeeps(w);
    case FlushEnds(accepted) => FlushEndKeeps(w, accepted);
    case PiConsumes(i, written) => ConsumeKeeps(w, i, written);
    case PiDrops(i) => DropKeeps(w, i);
    case ForeignBatch(b, written) => ForeignKeeps(w, b, written);
  }

  lemma IncomingKeeps(w: World, e: Event)
    requires Inv(w) && IncomingEvent(e)
    ensures Inv(Step(w, e))
  {
    match e
    case Publish(m) => PublishKeeps(w, m);
    case UpdateArrives(n, tokenSent) => UpdateKeeps(w, n, tokenSent);
    case FrameArrives(s) => FrameKeeps(w, s);
    case NoticeArrives(item) => NoticeKeeps(w, item);
    case DebounceElapses => QueueKeeps(w);
    case FetchReplies(n, window, written) => ReplyKeeps(w, n, window, written);
  }

  /** Whatever happens next keeps the invariant, as long as it is none of the three at a bad moment. */
  lemma StepKeeps(w: World, e: Event)
    requires Inv(w) && SafeStep(w, e)
    ensures Inv(Step(w, e))
  {
    if TimerEvent(e) {
      TimerEventKeeps(w, e);
    } else if AgentEvent(e) {
      AgentEventKeeps(w, e);
    } else if LifeEvent(e) {
      LifeEventKeeps(w, e);
    } else if BatchEvent(e) {
      BatchEventKeeps(w, e);
    } else {
      IncomingKeeps(w, e);
    }
  }

  ghost predicate SafeRun(w: World, es: seq<Event>)
    decreases |es|
  {
    es == [] || (SafeRun(w, es[..|es| - 1]) && SafeStep(Run(w, es[..|es| - 1]), es[|es| - 1]))
  }

  lemma {:induction false} AlwaysSound(log: seq<Message>, me: string, preset: nat, es: seq<Event>)
    requires GaplessLog(log) && preset <= |log|
    requires SafeRun(Start(log, me, preset), es)
    ensures Inv(Run(Start(log, me, preset), es))
    decreases |es|
  {
    if es != [] {
      var w := Run(Start(log, me, preset), es[..|es| - 1]);
      AlwaysSound(log, me, preset, es[..|es| - 1]);
      StepKeeps(w, es[|es| - 1]);
    }
  }

  /**
    No skip.  In every state a safe run reaches, every message by someone else above
    the join preset and at most the cursor, in memory or on disk, was read.
    */
  lemma {:induction false} NothingSkipped(log: seq<Message>, me: string, preset: nat, es: seq<Event>, s: nat)
    requires GaplessLog(log) && preset <= |log|
    requires SafeRun(Start(log, me, preset), es)
    ensures
      var w := Run(Start(log, me, preset), es);
      preset < s && (s <= w.c.cargo.cursor || s <= w.c.cargo.file) && ByOther(w.log, w.c.me, s) ==> s in w.consumed
  {
    var w := Run(Start(log, me, preset), es);
    AlwaysSound(log, me, preset, es);
    PresetStays(log, me, preset, es);
    assert !Missing(GroundOf(w), s) || (s > w.c.cargo.cursor && s > w.c.cargo.file);
  }

  lemma PresetFixed(w: World, e: Event)
    ensures Step(w, e).preset == w.preset
  {
  }

  lemma {:induction false} PresetStays(log: seq<Message>, me: string, preset: nat, es: seq<Event>)
    ensures Run(Start(log, me, preset), es).preset == preset
    decreases |es|
  {
    if es != [] {
      PresetStays(log, me, preset, es[..|es| - 1]);
      PresetFixed(Run(Start(log, me, preset), es[..|es| - 1]), es[|es| - 1]);
    }
  }
}
