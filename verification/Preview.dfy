/**
  The notification a creator broadcasts after each public message (a watermark
  and the last three public messages), and what a client may conclude from it
  about messages it has not read.
  */
module Preview {
  import opened Common
  import opened Messages

  const PREVIEW_SIZE: nat := 3

  /** group_chat_update: the newest public sequence and the tail of the public stream. */
  datatype Update = Update(latest: nat, preview: seq<Message>)

  function TailOf(publics: seq<Message>, k: nat): seq<Message> {
    if |publics| <= k then publics else publics[|publics| - k..]
  }

  function BroadcastUpdate(publics: seq<Message>): Update {
    if publics == [] then Update(0, [])
    else Update(publics[|publics| - 1].sequence, TailOf(publics, PREVIEW_SIZE))
  }

  /** A public message that the preview has room for. */
  predicate Shown(u: Update, m: Message) {
    && !IsWhisper(m)
    && m.sequence <= u.latest
    && (|u.preview| < PREVIEW_SIZE || u.preview[0].sequence <= m.sequence)
  }

  /** What a received notification guarantees, whatever was appended to the log since. */
  ghost predicate Truthful(log: seq<Message>, u: Update) {
    && GaplessLog(log)
    && u.latest <= |log|
    && |u.preview| <= PREVIEW_SIZE
    && Increasing(u.preview)
    && (forall m | m in u.preview :: !IsWhisper(m) && 1 <= m.sequence <= u.latest && m == log[m.sequence - 1])
    && (u.latest > 0 ==> log[u.latest - 1] in u.preview)
    && (forall m | m in log[..u.latest] && Shown(u, m) :: m in u.preview)
  }

  lemma {:induction false} IncreasingSuffix(log: seq<Message>, k: nat)
    requires Increasing(log) && k <= |log|
    ensures Increasing(log[k..])
    ensures k < |log| ==> forall m | m in log && log[k].sequence <= m.sequence :: m in log[k..]
    decreases k
  {
    if k > 0 {
      IncreasingSuffix(log[1..], k - 1);
      assert log[1..][k - 1..] == log[k..];
      assert log == [log[0]] + log[1..];
      if k < |log| {
        assert log[k] == log[1..][k - 1];
        assert log[k] in log[1..];
      }
    } else {
      assert log[0..] == log;
    }
  }

  lemma {:induction false} LastIsLargest(log: seq<Message>)
    requires Increasing(log) && log != []
    ensures forall m | m in log :: m.sequence <= log[|log| - 1].sequence
  {
    assert log == [log[0]] + log[1..];
    if |log| > 1 {
      LastIsLargest(log[1..]);
      assert log[1] in log[1..];
    }
  }

  /** The members of the public stream are the public messages of the log. */
  lemma PublicsOfLog(publics: seq<Message>, whispers: seq<Message>, n: nat)
    requires OneLog(publics, whispers, n)
    ensures var log := Merge(publics, whispers);
            && Increasing(publics)
            && (forall m | m in publics :: !IsWhisper(m) && 1 <= m.sequence <= |log| && m == log[m.sequence - 1])
            && (forall m | m in log && !IsWhisper(m) :: m in publics)
  {
    var log := Merge(publics, whispers);
    OneLogMakesStreams(publics, whispers, n);
    StreamMembers(log, false);
    forall m | m in publics ensures m == log[m.sequence - 1] {
      assert m in log;
    }
  }

  /** The preview is the newest end of an increasing public stream. */
  lemma PreviewIsTail(publics: seq<Message>)
    requires Increasing(publics) && publics != []
    ensures var u := BroadcastUpdate(publics);
            && Increasing(u.preview)
            && publics[|publics| - 1] in u.preview
            && (forall m | m in u.preview :: m in publics)
            && (forall m | m in publics :: m.sequence <= u.latest)
            && (forall m | m in publics && Shown(u, m) :: m in u.preview)
  {
    var u := BroadcastUpdate(publics);
    LastIsLargest(publics);
    var k := |publics| - |u.preview|;
    assert u.preview == publics[k..];
    IncreasingSuffix(publics, k);
    assert u.preview[|u.preview| - 1] == publics[|publics| - 1];
  }

  /** It names the newest public message and shows the last three, or as many as there are. */
  lemma BroadcastShowsThree(publics: seq<Message>)
    ensures
      var u, k := BroadcastUpdate(publics), Min(3, |publics|);
      && u.preview == publics[|publics| - k..]
      && u.latest == if publics == [] then 0 else publics[|publics| - 1].sequence
  {
  }

  /** Every notification the creator sends is truthful about its log. */
  lemma BroadcastIsTruthful(publics: seq<Message>, whispers: seq<Message>, n: nat)
    requires OneLog(publics, whispers, n)
    ensures Truthful(Merge(publics, whispers), BroadcastUpdate(publics))
  {
    var log := Merge(publics, whispers);
    var u := BroadcastUpdate(publics);
    PublicsOfLog(publics, whispers, n);
    if publics != [] {
      PreviewIsTail(publics);
      var last := publics[|publics| - 1];
      assert last in publics && u.latest == last.sequence;
      assert log[u.latest - 1] == last;
      forall m | m in log[..u.latest] && Shown(u, m) ensures m in u.preview {
        assert m in log;
      }
    }
  }

  /** A truthful notification stays truthful when the log grows. */
  lemma TruthfulLater(log: seq<Message>, later: seq<Message>, u: Update)
    requires Truthful(log, u) && log <= later && GaplessLog(later)
    ensures Truthful(later, u)
  {
    assert later[..u.latest] == log[..u.latest];
  }

  // ----- classifySelfPreview -----

  datatype SelfPreview = CompleteSelfOnly | IncompleteWithSelf | External

  function Unseen(preview: seq<Message>, cursor: nat): seq<Message> {
    if preview == [] then []
    else if preview[0].sequence > cursor then [preview[0]] + Unseen(preview[1..], cursor)
    else Unseen(preview[1..], cursor)
  }

  function Insert(m: Message, sorted: seq<Message>): seq<Message> {
    if sorted == [] || m.sequence <= sorted[0].sequence then [m] + sorted
    else [sorted[0]] + Insert(m, sorted[1..])
  }

  /** Stable ascending sort by sequence number. */
  function Sorted(ms: seq<Message>): seq<Message> {
    if ms == [] then [] else Insert(ms[0], Sorted(ms[1..]))
  }

  predicate AnyOwn(ms: seq<Message>, me: string) {
    exists m | m in ms :: Authored(m, me)
  }

  function ClassifySelfPreview(u: Update, cursor: nat, me: string): SelfPreview {
    var unseen := Sorted(Unseen(u.preview, cursor));
    if |unseen| != u.latest - cursor then
      if AnyOwn(unseen, me) then IncompleteWithSelf else External
    else if forall i | 0 <= i < |unseen| :: unseen[i].sequence == cursor + i + 1 && Authored(unseen[i], me) then
      CompleteSelfOnly
    else
      External
  }

  lemma {:induction false} UnseenFacts(preview: seq<Message>, cursor: nat)
    requires Increasing(preview)
    ensures Increasing(Unseen(preview, cursor))
    ensures forall m :: m in Unseen(preview, cursor) <==> m in preview && m.sequence > cursor
  {
    if preview != [] {
      UnseenFacts(preview[1..], cursor);
      assert preview == [preview[0]] + preview[1..];
      assert ([preview[0]] + Unseen(preview[1..], cursor))[1..] == Unseen(preview[1..], cursor);
    }
  }

  lemma {:induction false} SortedStays(ms: seq<Message>)
    requires Increasing(ms)
    ensures Sorted(ms) == ms
  {
    if ms != [] {
      SortedStays(ms[1..]);
      if |ms| > 1 {
        assert ms[1] in ms[1..];
      }
    }
  }

  /** The pigeonhole step: k increasing numbers in (lo, lo + k] are lo + 1 .. lo + k. */
  lemma {:induction false} Pigeonhole(ms: seq<Message>, lo: nat, hi: nat)
    requires Increasing(ms) && |ms| == hi - lo
    requires forall m | m in ms :: lo < m.sequence <= hi
    ensures forall i :: 0 <= i < |ms| ==> ms[i].sequence == lo + i + 1
  {
    if ms != [] {
      var rest := ms[1..];
      assert ms[0] in ms;
      forall m | m in rest ensures lo + 1 < m.sequence <= hi {
        assert m in ms;
      }
      Pigeonhole(rest, lo + 1, hi);
      FirstFits(ms, lo, hi);
      assert forall j :: 1 <= j < |ms| ==> ms[j] == rest[j - 1];
    }
  }

  lemma {:induction false} FirstFits(ms: seq<Message>, lo: nat, hi: nat)
    requires Increasing(ms) && ms != []
    requires forall m | m in ms :: lo < m.sequence <= hi
    ensures ms[0].sequence + |ms| <= hi + 1
  {
    assert ms[0] in ms;
    if |ms| > 1 {
      var rest := ms[1..];
      forall m | m in rest ensures lo < m.sequence <= hi {
        assert m in ms;
      }
      assert rest[0] in rest;
      FirstFits(rest, lo, hi);
    }
  }

  /** Some unread message up to `hi` is by someone else. */
  ghost predicate OthersUnread(log: seq<Message>, me: string, cursor: nat, hi: nat) {
    exists s: nat :: cursor < s <= hi && ByOther(log, me, s)
  }

  /** The unseen part of a truthful preview: increasing, genuine, and holding the newest public message. */
  lemma UnseenOfTruthful(log: seq<Message>, u: Update, cursor: nat)
    requires Truthful(log, u) && u.latest > cursor
    ensures var unseen := Unseen(u.preview, cursor);
            && Sorted(unseen) == unseen
            && Increasing(unseen)
            && log[u.latest - 1] in unseen
            && (forall m | m in unseen :: cursor < m.sequence <= u.latest && m == log[m.sequence - 1])
  {
    UnseenFacts(u.preview, cursor);
    SortedStays(Unseen(u.preview, cursor));
  }

  /** "complete-self-only" proves that every message in (cursor, latest] is the client's own. */
  lemma SelfOnlyIsSound(log: seq<Message>, u: Update, cursor: nat, me: string)
    requires Truthful(log, u) && u.latest > cursor
    requires ClassifySelfPreview(u, cursor, me).CompleteSelfOnly?
    ensures !OthersUnread(log, me, cursor, u.latest)
    ensures forall i | cursor <= i < u.latest :: !IsWhisper(log[i])
    ensures u.latest - cursor <= PREVIEW_SIZE
  {
    var unseen := Unseen(u.preview, cursor);
    UnseenShorter(u.preview, cursor);
    assert Sorted(unseen) == unseen by {
      UnseenOfTruthful(log, u, cursor);
    }
    forall i | cursor <= i < u.latest ensures Authored(log[i], me) && !IsWhisper(log[i]) {
      var m := unseen[i - cursor];
      UnseenWithin(u.preview, cursor, m);
      PreviewIsLog(log, u, m);
    }
  }

  lemma {:induction false} UnseenWithin(preview: seq<Message>, cursor: nat, m: Message)
    requires m in Unseen(preview, cursor)
    ensures m in preview && m.sequence > cursor
  {
    if m != preview[0] {
      UnseenWithin(preview[1..], cursor, m);
    } else if preview[0].sequence <= cursor {
      UnseenWithin(preview[1..], cursor, m);
    }
  }

  lemma PreviewIsLog(log: seq<Message>, u: Update, m: Message)
    requires Truthful(log, u) && m in u.preview
    ensures 1 <= m.sequence <= u.latest <= |log| && m == log[m.sequence - 1] && !IsWhisper(m)
  {
  }

  lemma {:induction false} UnseenShorter(preview: seq<Message>, cursor: nat)
    ensures |Unseen(preview, cursor)| <= |preview|
  {
    if preview != [] {
      UnseenShorter(preview[1..], cursor);
    }
  }

  lemma CompleteAndOwn(unseen: seq<Message>, cursor: nat, hi: nat, me: string)
    requires Increasing(unseen) && |unseen| == hi - cursor
    requires forall m | m in unseen :: cursor < m.sequence <= hi && Authored(m, me)
    ensures forall i | 0 <= i < |unseen| :: unseen[i].sequence == cursor + i + 1 && Authored(unseen[i], me)
  {
    Pigeonhole(unseen, cursor, hi);
    forall i | 0 <= i < |unseen| ensures Authored(unseen[i], me) {
      assert unseen[i] in unseen;
    }
  }

  /** "external" proves that someone else's message is unread. */
  lemma ExternalIsSound(log: seq<Message>, u: Update, cursor: nat, me: string)
    requires Truthful(log, u) && u.latest > cursor
    requires ClassifySelfPreview(u, cursor, me).External?
    ensures OthersUnread(log, me, cursor, u.latest)
  {
    UnseenOfTruthful(log, u, cursor);
    var unseen := Unseen(u.preview, cursor);
    if !OthersUnread(log, me, cursor, u.latest) {
      forall m | m in unseen ensures Authored(m, me) {
        assert !ByOther(log, me, m.sequence);
      }
      if |unseen| == u.latest - cursor {
        CompleteAndOwn(unseen, cursor, u.latest, me);
      }
      assert false;
    }
  }

  /** A run of at most three public messages up to the newest is in the preview. */
  lemma AllShown(log: seq<Message>, u: Update, cursor: nat)
    requires Truthful(log, u) && cursor < u.latest <= cursor + PREVIEW_SIZE
    requires forall i | cursor <= i < u.latest :: !IsWhisper(log[i])
    ensures forall i | cursor <= i < u.latest :: log[i] in u.preview
  {
    if |u.preview| == PREVIEW_SIZE {
      assert u.preview[0] in u.preview;
      FirstFits(u.preview, 0, u.latest);
    }
    forall i | cursor <= i < u.latest ensures log[i] in u.preview {
      assert log[i] == log[..u.latest][i];
      assert Shown(u, log[i]);
    }
  }

  /**
    When exactly the client may ignore a notification: all of (cursor, latest] is
    its own, all of it is public, and it fits into the preview.
    */
  lemma SelfOnlyIff(log: seq<Message>, u: Update, cursor: nat, me: string)
    requires Truthful(log, u) && u.latest > cursor
    ensures ClassifySelfPreview(u, cursor, me).CompleteSelfOnly? <==>
            && u.latest - cursor <= PREVIEW_SIZE
            && (forall i | cursor <= i < u.latest :: !IsWhisper(log[i]))
            && !OthersUnread(log, me, cursor, u.latest)
  {
    if ClassifySelfPreview(u, cursor, me).CompleteSelfOnly? {
      SelfOnlyIsSound(log, u, cursor, me);
    } else if u.latest - cursor <= PREVIEW_SIZE && (forall i | cursor <= i < u.latest :: !IsWhisper(log[i])) {
      if !OthersUnread(log, me, cursor, u.latest) {
        OwnRunIsSelfOnly(log, u, cursor, me);
      }
    }
  }

  /** Everything in (cursor, latest] is in the unseen preview, so the preview is complete. */
  lemma ShownIsComplete(log: seq<Message>, unseen: seq<Message>, cursor: nat, hi: nat)
    requires GaplessLog(log) && cursor < hi <= |log| && Increasing(unseen)
    requires forall m | m in unseen :: cursor < m.sequence <= hi
    requires forall i | cursor <= i < hi :: log[i] in unseen
    ensures |unseen| == hi - cursor
  {
    forall k: nat | cursor < k <= hi ensures HasSequence(unseen, k) {
      HasMember(unseen, log[k - 1]);
    }
    Dense(unseen, cursor, hi);
  }

  lemma UnseenOwn(log: seq<Message>, unseen: seq<Message>, cursor: nat, hi: nat, me: string)
    requires !OthersUnread(log, me, cursor, hi) && hi <= |log|
    requires forall m | m in unseen :: cursor < m.sequence <= hi && m == log[m.sequence - 1]
    ensures forall m | m in unseen :: Authored(m, me)
  {
    forall m | m in unseen ensures Authored(m, me) {
      assert !ByOther(log, me, m.sequence);
    }
  }

  lemma UnseenHasRun(log: seq<Message>, u: Update, cursor: nat)
    requires Truthful(log, u) && cursor < u.latest <= cursor + PREVIEW_SIZE
    requires forall i | cursor <= i < u.latest :: !IsWhisper(log[i])
    ensures |Unseen(u.preview, cursor)| == u.latest - cursor
  {
    UnseenOfTruthful(log, u, cursor);
    UnseenFacts(u.preview, cursor);
    AllShown(log, u, cursor);
    ShownIsComplete(log, Unseen(u.preview, cursor), cursor, u.latest);
  }

  lemma SelfOnlyBy(u: Update, cursor: nat, me: string)
    requires
      var unseen := Unseen(u.preview, cursor);
      && Sorted(unseen) == unseen && |unseen| == u.latest - cursor
      && forall i | 0 <= i < |unseen| :: unseen[i].sequence == cursor + i + 1 && Authored(unseen[i], me)
    ensures ClassifySelfPreview(u, cursor, me).CompleteSelfOnly?
  {
  }

  lemma OwnRunIsSelfOnly(log: seq<Message>, u: Update, cursor: nat, me: string)
    requires Truthful(log, u) && cursor < u.latest <= cursor + PREVIEW_SIZE
    requires forall i | cursor <= i < u.latest :: !IsWhisper(log[i])
    requires !OthersUnread(log, me, cursor, u.latest)
    ensures ClassifySelfPreview(u, cursor, me).CompleteSelfOnly?
  {
    var unseen := Unseen(u.preview, cursor);
    UnseenHasRun(log, u, cursor);
    UnseenOfTruthful(log, u, cursor);
    UnseenOwn(log, unseen, cursor, u.latest, me);
    CompleteAndOwn(unseen, cursor, u.latest, me);
    SelfOnlyBy(u, cursor, me);
  }

  // ----- unreadOthersProven -----

  datatype Unread = Unread(shouldBlock: bool, count: nat, exact: bool)

  function Others(ms: seq<Message>, me: string): seq<Message> {
    if ms == [] then []
    else if Authored(ms[0], me) then Others(ms[1..], me)
    else [ms[0]] + Others(ms[1..], me)
  }

  /**
    The local read-before-speak test, from the newest notification, the newest
    placeholder watermark (0 when none arrived) and the cursor.
    */
  function UnreadOthersProven(known: Option<Update>, placeholder: nat, cursor: nat, me: string): Option<Unread> {
    match known
    case None =>
      if placeholder > cursor then Some(Unread(false, 1, placeholder == cursor + 1)) else None
    case Some(u) =>
      var latest := Max(u.latest, placeholder);
      if latest <= cursor then Some(Unread(false, 0, true))
      else
        var unseen := Unseen(u.preview, cursor);
        var extra := if placeholder > cursor then 1 else 0;
        var exact := |unseen| + extra == latest - cursor;
        var others := Others(unseen, me);
        Some(Unread(others != [] || (!exact && AnyOwn(unseen, me)), |others| + extra, exact))
  }

  function Interval(lo: nat, hi: nat): set<nat>
    decreases hi
  {
    if hi <= lo then {} else Interval(lo, hi - 1) + {hi}
  }

  lemma {:induction false} IntervalFacts(lo: nat, hi: nat)
    requires lo <= hi
    ensures |Interval(lo, hi)| == hi - lo
    ensures forall s: nat :: s in Interval(lo, hi) <==> lo < s <= hi
    decreases hi
  {
    if lo < hi {
      IntervalFacts(lo, hi - 1);
    }
  }

  /** The unread messages by others up to `hi`. */
  ghost function UnreadByOthers(log: seq<Message>, me: string, cursor: nat, hi: nat): set<nat> {
    set s | s in Interval(cursor, hi) && ByOther(log, me, s)
  }

  ghost function Numbers(ms: seq<Message>): set<nat> {
    set m | m in ms :: m.sequence
  }

  lemma {:induction false} NumbersCount(ms: seq<Message>)
    requires Increasing(ms)
    ensures |Numbers(ms)| == |ms|
  {
    if ms != [] {
      NumbersCount(ms[1..]);
      assert ms == [ms[0]] + ms[1..];
      assert Numbers(ms) == {ms[0].sequence} + Numbers(ms[1..]);
    } else {
      assert Numbers(ms) == {};
    }
  }

  lemma {:induction false} OthersFacts(ms: seq<Message>, me: string)
    requires Increasing(ms)
    ensures Increasing(Others(ms, me))
    ensures forall m :: m in Others(ms, me) <==> m in ms && !Authored(m, me)
  {
    if ms != [] {
      OthersFacts(ms[1..], me);
      assert ms == [ms[0]] + ms[1..];
      assert ([ms[0]] + Others(ms[1..], me))[1..] == Others(ms[1..], me);
    }
  }

  lemma SubsetCount(a: set<nat>, b: set<nat>)
    requires a <= b
    ensures |a| <= |b|
    ensures |a| == |b| ==> a == b
  {
    assert b == a + (b - a);
  }

  /** What the two watermarks say about the log; the placeholder stands for a whisper between others. */
  ghost predicate Knows(log: seq<Message>, known: Option<Update>, placeholder: nat, me: string) {
    && GaplessLog(log)
    && (known.Some? ==> Truthful(log, known.value))
    && placeholder <= |log|
    && (placeholder > 0 ==> IsWhisper(log[placeholder - 1]) && !Authored(log[placeholder - 1], me))
  }

  /** Up to which sequence the client has heard of messages. */
  function Watermark(known: Option<Update>, placeholder: nat): nat {
    Max(if known.Some? then known.value.latest else 0, placeholder)
  }

  /**
    The count is never too high, and it is the true number of unread messages by
    others up to the known watermark whenever it is called exact.
    */
  lemma UnreadCountIsSound(log: seq<Message>, known: Option<Update>, placeholder: nat, cursor: nat, me: string)
    requires Knows(log, known, placeholder, me)
    ensures var r := UnreadOthersProven(known, placeholder, cursor, me);
            var truth := UnreadByOthers(log, me, cursor, Watermark(known, placeholder));
            && (r.Some? ==> r.value.count <= |truth|)
            && (r.Some? && r.value.exact ==> r.value.count == |truth|)
            && (r.None? ==> truth == {})
  {
    var hi := Watermark(known, placeholder);
    var truth := UnreadByOthers(log, me, cursor, hi);
    if hi <= cursor {
      assert truth == {};
    } else {
      var unseen := if known.Some? then Unseen(known.value.preview, cursor) else [];
      if known.Some? {
        UnseenFacts(known.value.preview, cursor);
      }
      CountShown(log, unseen, placeholder, cursor, hi, me);
    }
  }

  /** The unseen preview messages, as entries of the log between cursor and watermark. */
  ghost predicate ShownOf(log: seq<Message>, unseen: seq<Message>, cursor: nat, hi: nat) {
    && Increasing(unseen)
    && cursor < hi <= |log|
    && forall m | m in unseen :: cursor < m.sequence <= hi && m == log[m.sequence - 1] && !IsWhisper(m)
  }

  lemma OthersAreUnread(log: seq<Message>, unseen: seq<Message>, cursor: nat, hi: nat, me: string)
    requires ShownOf(log, unseen, cursor, hi)
    ensures Numbers(Others(unseen, me)) <= UnreadByOthers(log, me, cursor, hi)
    ensures Numbers(unseen) <= Interval(cursor, hi)
    ensures |Numbers(Others(unseen, me))| == |Others(unseen, me)|
    ensures |Numbers(unseen)| == |unseen|
  {
    OthersFacts(unseen, me);
    NumbersCount(Others(unseen, me));
    NumbersCount(unseen);
    IntervalFacts(cursor, hi);
    forall m | m in Others(unseen, me) ensures m.sequence in UnreadByOthers(log, me, cursor, hi) {
      assert ByOther(log, me, m.sequence);
    }
  }

  lemma IsCounted(log: seq<Message>, unseen: seq<Message>, p: set<nat>, cursor: nat, hi: nat, me: string, s: nat)
    requires ShownOf(log, unseen, cursor, hi) && Numbers(unseen) + p == Interval(cursor, hi)
    requires s in Interval(cursor, hi) && ByOther(log, me, s) && s !in p
    ensures s in Numbers(Others(unseen, me))
  {
    assert s in Numbers(unseen);
    var m :| m in unseen && m.sequence == s;
    OtherIsCounted(unseen, me, m);
  }

  lemma AllCounted(log: seq<Message>, unseen: seq<Message>, p: set<nat>, cursor: nat, hi: nat, me: string)
    requires ShownOf(log, unseen, cursor, hi) && Numbers(unseen) + p == Interval(cursor, hi)
    ensures UnreadByOthers(log, me, cursor, hi) <= Numbers(Others(unseen, me)) + p
  {
    forall s | s in UnreadByOthers(log, me, cursor, hi) ensures s in Numbers(Others(unseen, me)) + p {
      if s !in p {
        IsCounted(log, unseen, p, cursor, hi, me, s);
      }
    }
  }

  lemma {:induction false} OtherIsCounted(unseen: seq<Message>, me: string, m: Message)
    requires m in unseen && !Authored(m, me)
    ensures m.sequence in Numbers(Others(unseen, me))
  {
    if m == unseen[0] {
      assert Others(unseen, me)[0] == m;
    } else {
      OtherIsCounted(unseen[1..], me, m);
      var rest := Others(unseen[1..], me);
      var x :| x in rest && x.sequence == m.sequence;
      assert x in Others(unseen, me);
    }
  }

  /** The placeholder's number, when it is unread. */
  ghost function Pending(placeholder: nat, cursor: nat): set<nat> {
    if placeholder > cursor then {placeholder} else {}
  }

  lemma PlaceholderApart(log: seq<Message>, unseen: seq<Message>, placeholder: nat, cursor: nat, hi: nat, me: string)
    requires ShownOf(log, unseen, cursor, hi) && placeholder <= hi
    requires placeholder > 0 ==> IsWhisper(log[placeholder - 1]) && !Authored(log[placeholder - 1], me)
    ensures Pending(placeholder, cursor) !! Numbers(unseen)
    ensures Pending(placeholder, cursor) <= UnreadByOthers(log, me, cursor, hi)
  {
    IntervalFacts(cursor, hi);
    if placeholder > cursor {
      assert ByOther(log, me, placeholder);
      forall m | m in unseen ensures m.sequence != placeholder {
      }
    }
  }

  lemma OthersSubset(unseen: seq<Message>, me: string)
    requires Increasing(unseen)
    ensures Numbers(Others(unseen, me)) <= Numbers(unseen)
  {
    OthersFacts(unseen, me);
  }

  lemma CountShown(log: seq<Message>, unseen: seq<Message>, placeholder: nat, cursor: nat, hi: nat, me: string)
    requires ShownOf(log, unseen, cursor, hi) && placeholder <= hi
    requires placeholder > 0 ==> IsWhisper(log[placeholder - 1]) && !Authored(log[placeholder - 1], me)
    ensures var extra := if placeholder > cursor then 1 else 0;
            var truth := UnreadByOthers(log, me, cursor, hi);
            && |Others(unseen, me)| + extra <= |truth|
            && (|unseen| + extra == hi - cursor ==> |Others(unseen, me)| + extra == |truth|)
  {
    var p := Pending(placeholder, cursor);
    PlaceholderApart(log, unseen, placeholder, cursor, hi, me);
    OthersSubset(unseen, me);
    OthersAreUnread(log, unseen, cursor, hi, me);
    CountSets(Numbers(Others(unseen, me)), Numbers(unseen), p, UnreadByOthers(log, me, cursor, hi));
    if |unseen| + |p| == hi - cursor {
      IntervalFacts(cursor, hi);
      DisjointSum(Numbers(unseen), p);
      assert p <= Interval(cursor, hi);
      SubsetCount(Numbers(unseen) + p, Interval(cursor, hi));
      AllCounted(log, unseen, p, cursor, hi, me);
      SubsetCount(UnreadByOthers(log, me, cursor, hi), Numbers(Others(unseen, me)) + p);
    }
  }

  lemma CountSets(others: set<nat>, unseen: set<nat>, p: set<nat>, truth: set<nat>)
    requires others <= unseen && p !! unseen && others <= truth && p <= truth
    ensures |others + p| == |others| + |p| && |others| + |p| <= |truth|
  {
    DisjointSum(others, p);
    SubsetCount(others + p, truth);
  }

  lemma DisjointSum(a: set<nat>, b: set<nat>)
    requires a !! b
    ensures |a + b| == |a| + |b|
  {
  }

  /** A public message by someone else in (cursor, hi]. */
  ghost predicate PublicUnread(log: seq<Message>, me: string, cursor: nat, hi: nat) {
    exists s: nat :: cursor < s <= hi && ByOther(log, me, s) && !IsWhisper(log[s - 1])
  }

  /**
    Speaking is blocked exactly when the preview shows an unread public message by
    someone else, or is cut short and shows an unread own message.
    */
  lemma BlockNeedsCause(log: seq<Message>, u: Update, placeholder: nat, cursor: nat, me: string)
    requires Knows(log, Some(u), placeholder, me) && Max(u.latest, placeholder) > cursor
    ensures
      var r := UnreadOthersProven(Some(u), placeholder, cursor, me);
      var unseen := Unseen(u.preview, cursor);
      && r.Some?
      && (r.value.shouldBlock <==>
            (exists m | m in unseen :: !Authored(m, me)) || (!r.value.exact && AnyOwn(unseen, me)))
      && (r.value.shouldBlock ==>
            PublicUnread(log, me, cursor, u.latest) || (!r.value.exact && AnyOwn(unseen, me)))
  {
    var unseen := Unseen(u.preview, cursor);
    UnseenFacts(u.preview, cursor);
    OthersFacts(unseen, me);
    if Others(unseen, me) != [] {
      var m := Others(unseen, me)[0];
      assert m in Others(unseen, me);
      PreviewIsLog(log, u, m);
      assert ByOther(log, me, m.sequence) && !IsWhisper(log[m.sequence - 1]);
    }
    if exists m | m in unseen :: !Authored(m, me) {
      var m :| m in unseen && !Authored(m, me);
      assert m in Others(unseen, me);
    }
  }

  /** With nothing beyond the cursor known, speaking is never blocked. */
  lemma NothingKnownNothingBlocked(known: Option<Update>, placeholder: nat, cursor: nat, me: string)
    requires known.None? || Max(known.value.latest, placeholder) <= cursor
    ensures
      var r := UnreadOthersProven(known, placeholder, cursor, me);
      r.Some? ==> !r.value.shouldBlock
  {
  }
}
