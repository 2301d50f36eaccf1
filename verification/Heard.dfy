/**
  What the local read-before-speak test answers, said in terms of what the client
  has heard of: the numbers in its newest notification and its newest placeholder.
  */
module Heard {
  import opened Common
  import opened Messages
  import opened Preview

  /** The message is in the preview and above the cursor. */
  predicate Shows(known: Option<Update>, cursor: nat, m: Message) {
    known.Some? && m in known.value.preview && m.sequence > cursor
  }

  /** The client has heard of message `s`: the preview shows it, or it is the newest placeholder. */
  ghost predicate IsHeard(known: Option<Update>, placeholder: nat, cursor: nat, s: nat) {
    s == placeholder || exists m :: Shows(known, cursor, m) && m.sequence == s
  }

  /** Of some number in (cursor, watermark] the client has not heard. */
  ghost predicate Unheard(known: Option<Update>, placeholder: nat, cursor: nat) {
    exists s: nat :: cursor < s <= Watermark(known, placeholder) && !IsHeard(known, placeholder, cursor, s)
  }

  /** The preview shows something unread by the client itself, or by someone else. */
  ghost predicate ShowsBy(known: Option<Update>, cursor: nat, me: string, own: bool) {
    exists m :: Shows(known, cursor, m) && Authored(m, me) == own
  }

  function Shown(known: Option<Update>, cursor: nat): seq<Message> {
    if known.Some? then Unseen(known.value.preview, cursor) else []
  }

  lemma ShownFacts(log: seq<Message>, known: Option<Update>, placeholder: nat, cursor: nat, me: string)
    requires Knows(log, known, placeholder, me) && Watermark(known, placeholder) > cursor
    ensures ShownOf(log, Shown(known, cursor), cursor, Watermark(known, placeholder))
    ensures forall m :: m in Shown(known, cursor) <==> Shows(known, cursor, m)
  {
    if known.Some? {
      UnseenFacts(known.value.preview, cursor);
    }
  }

  lemma NumberOf(ms: seq<Message>, m: Message)
    requires m in ms
    ensures m.sequence in Numbers(ms)
  {
  }

  lemma HeardIsNumbered(log: seq<Message>, known: Option<Update>, placeholder: nat, cursor: nat, me: string, s: nat)
    requires Knows(log, known, placeholder, me) && Watermark(known, placeholder) > cursor && s > cursor
    ensures IsHeard(known, placeholder, cursor, s)
            <==> s in Pending(placeholder, cursor) + Numbers(Shown(known, cursor))
  {
    ShownFacts(log, known, placeholder, cursor, me);
    if s != placeholder && IsHeard(known, placeholder, cursor, s) {
      var m :| Shows(known, cursor, m) && m.sequence == s;
      NumberOf(Shown(known, cursor), m);
    }
  }

  lemma FullExactly(numbers: set<nat>, lo: nat, hi: nat)
    requires lo <= hi && numbers <= Interval(lo, hi)
    ensures |numbers| == hi - lo <==> forall s: nat :: lo < s <= hi ==> s in numbers
  {
    IntervalFacts(lo, hi);
    SubsetCount(numbers, Interval(lo, hi));
    if forall s: nat :: lo < s <= hi ==> s in numbers {
      assert numbers == Interval(lo, hi);
    }
  }

  /** What was heard, counted. */
  lemma HeardCount(log: seq<Message>, known: Option<Update>, placeholder: nat, cursor: nat, me: string)
    requires Knows(log, known, placeholder, me) && Watermark(known, placeholder) > cursor
    ensures
      var shown := Shown(known, cursor);
      var numbers := Pending(placeholder, cursor) + Numbers(shown);
      && numbers <= Interval(cursor, Watermark(known, placeholder))
      && |numbers| == |shown| + if placeholder > cursor then 1 else 0
  {
    var hi, shown := Watermark(known, placeholder), Shown(known, cursor);
    ShownFacts(log, known, placeholder, cursor, me);
    OthersAreUnread(log, shown, cursor, hi, me);
    PlaceholderApart(log, shown, placeholder, cursor, hi, me);
    DisjointSum(Pending(placeholder, cursor), Numbers(shown));
    PendingCount(placeholder, cursor, hi);
  }

  lemma PendingCount(placeholder: nat, cursor: nat, hi: nat)
    requires cursor <= hi && placeholder <= hi
    ensures |Pending(placeholder, cursor)| == if placeholder > cursor then 1 else 0
    ensures Pending(placeholder, cursor) <= Interval(cursor, hi)
  {
    IntervalFacts(cursor, hi);
  }

  lemma ExactCounts(known: Option<Update>, placeholder: nat, cursor: nat, me: string)
    requires Watermark(known, placeholder) > cursor
    ensures
      var r := UnreadOthersProven(known, placeholder, cursor, me);
      && r.Some?
      && (r.value.exact <==> |Shown(known, cursor)| + (if placeholder > cursor then 1 else 0)
                             == Watermark(known, placeholder) - cursor)
  {
  }

  /** "Exact" is answered if and only if the client has heard of every number up to the watermark. */
  lemma ExactIff(log: seq<Message>, known: Option<Update>, placeholder: nat, cursor: nat, me: string)
    requires Knows(log, known, placeholder, me) && Watermark(known, placeholder) > cursor
    ensures
      var r := UnreadOthersProven(known, placeholder, cursor, me);
      r.Some? && (r.value.exact <==> !Unheard(known, placeholder, cursor))
  {
    var hi := Watermark(known, placeholder);
    var numbers := Pending(placeholder, cursor) + Numbers(Shown(known, cursor));
    ExactCounts(known, placeholder, cursor, me);
    HeardCount(log, known, placeholder, cursor, me);
    FullExactly(numbers, cursor, hi);
    forall s: nat | cursor < s <= hi ensures IsHeard(known, placeholder, cursor, s) <==> s in numbers {
      HeardIsNumbered(log, known, placeholder, cursor, me, s);
    }
  }

  // ----- the count -----

  /** Others' unread messages of which the client has heard. */
  ghost function HeardOthers(log: seq<Message>, known: Option<Update>, placeholder: nat, cursor: nat,
                             me: string): set<nat> {
    set s | s in UnreadByOthers(log, me, cursor, Watermark(known, placeholder))
            && IsHeard(known, placeholder, cursor, s)
  }

  lemma OtherIsHeard(log: seq<Message>, known: Option<Update>, placeholder: nat, cursor: nat, me: string, s: nat)
    requires Knows(log, known, placeholder, me) && Watermark(known, placeholder) > cursor
    requires s in Numbers(Others(Shown(known, cursor), me))
    ensures IsHeard(known, placeholder, cursor, s)
  {
    ShownFacts(log, known, placeholder, cursor, me);
    OthersFacts(Shown(known, cursor), me);
    var m :| m in Others(Shown(known, cursor), me) && m.sequence == s;
    assert Shows(known, cursor, m);
  }

  lemma ShownIsCounted(log: seq<Message>, shown: seq<Message>, cursor: nat, hi: nat, me: string, m: Message)
    requires ShownOf(log, shown, cursor, hi) && m in shown && ByOther(log, me, m.sequence)
    ensures m.sequence in Numbers(Others(shown, me))
  {
    OtherIsCounted(shown, me, m);
  }

  lemma HeardIsCounted(log: seq<Message>, known: Option<Update>, placeholder: nat, cursor: nat, me: string, s: nat)
    requires Knows(log, known, placeholder, me) && Watermark(known, placeholder) > cursor
    requires s > cursor && ByOther(log, me, s) && IsHeard(known, placeholder, cursor, s)
    ensures s in Pending(placeholder, cursor) || s in Numbers(Others(Shown(known, cursor), me))
  {
    if s != placeholder {
      var m :| Shows(known, cursor, m) && m.sequence == s;
      ShownFacts(log, known, placeholder, cursor, me);
      ShownIsCounted(log, Shown(known, cursor), cursor, Watermark(known, placeholder), me, m);
    }
  }

  lemma CountedIsHeard(log: seq<Message>, known: Option<Update>, placeholder: nat, cursor: nat, me: string, s: nat)
    requires Knows(log, known, placeholder, me) && Watermark(known, placeholder) > cursor
    requires s in Pending(placeholder, cursor) + Numbers(Others(Shown(known, cursor), me))
    ensures s in HeardOthers(log, known, placeholder, cursor, me)
  {
    var hi := Watermark(known, placeholder);
    ShownFacts(log, known, placeholder, cursor, me);
    OthersAreUnread(log, Shown(known, cursor), cursor, hi, me);
    PlaceholderApart(log, Shown(known, cursor), placeholder, cursor, hi, me);
    if s !in Pending(placeholder, cursor) {
      OtherIsHeard(log, known, placeholder, cursor, me, s);
    }
  }

  lemma CountAdds(known: Option<Update>, placeholder: nat, cursor: nat, me: string)
    requires Watermark(known, placeholder) > cursor
    ensures
      var r := UnreadOthersProven(known, placeholder, cursor, me);
      r.Some? && r.value.count == |Others(Shown(known, cursor), me)| + if placeholder > cursor then 1 else 0
  {
  }

  lemma SameMembers(a: set<nat>, b: set<nat>)
    requires forall s :: s in a <==> s in b
    ensures a == b
  {
  }

  /** The count is the number of unread messages by others of which the client has heard. */
  lemma CountIs(log: seq<Message>, known: Option<Update>, placeholder: nat, cursor: nat, me: string)
    requires Knows(log, known, placeholder, me) && Watermark(known, placeholder) > cursor
    ensures
      var r := UnreadOthersProven(known, placeholder, cursor, me);
      r.Some? && r.value.count == |HeardOthers(log, known, placeholder, cursor, me)|
  {
    var hi, shown := Watermark(known, placeholder), Shown(known, cursor);
    var others := Numbers(Others(shown, me));
    CountAdds(known, placeholder, cursor, me);
    ShownFacts(log, known, placeholder, cursor, me);
    OthersAreUnread(log, shown, cursor, hi, me);
    OthersSubset(shown, me);
    PlaceholderApart(log, shown, placeholder, cursor, hi, me);
    PendingCount(placeholder, cursor, hi);
    DisjointSum(Pending(placeholder, cursor), others);
    IntervalFacts(cursor, hi);
    forall s
      ensures s in HeardOthers(log, known, placeholder, cursor, me) <==> s in Pending(placeholder, cursor) + others
    {
      if s in HeardOthers(log, known, placeholder, cursor, me) {
        HeardIsCounted(log, known, placeholder, cursor, me, s);
      }
      if s in Pending(placeholder, cursor) + others {
        CountedIsHeard(log, known, placeholder, cursor, me, s);
      }
    }
    SameMembers(HeardOthers(log, known, placeholder, cursor, me), Pending(placeholder, cursor) + others);
  }

  // ----- the block -----

  lemma BlockParts(known: Option<Update>, placeholder: nat, cursor: nat, me: string)
    requires Watermark(known, placeholder) > cursor
    ensures
      var r, shown := UnreadOthersProven(known, placeholder, cursor, me), Shown(known, cursor);
      && r.Some?
      && (r.value.shouldBlock <==> Others(shown, me) != [] || (!r.value.exact && AnyOwn(shown, me)))
  {
  }

  /**
    Speaking is blocked if and only if the preview shows an unread message by
    someone else, or shows an unread own one while of some number in between
    nothing was heard.
    */
  lemma BlockIff(log: seq<Message>, known: Option<Update>, placeholder: nat, cursor: nat, me: string)
    requires Knows(log, known, placeholder, me) && Watermark(known, placeholder) > cursor
    ensures
      var r := UnreadOthersProven(known, placeholder, cursor, me);
      && r.Some?
      && (r.value.shouldBlock <==>
            ShowsBy(known, cursor, me, false)
            || (ShowsBy(known, cursor, me, true) && Unheard(known, placeholder, cursor)))
  {
    var shown := Shown(known, cursor);
    ShownFacts(log, known, placeholder, cursor, me);
    OthersFacts(shown, me);
    ExactIff(log, known, placeholder, cursor, me);
    BlockParts(known, placeholder, cursor, me);
    if Others(shown, me) != [] {
      assert Others(shown, me)[0] in Others(shown, me);
      assert Shows(known, cursor, Others(shown, me)[0]);
    }
    if ShowsBy(known, cursor, me, false) {
      var m :| Shows(known, cursor, m) && !Authored(m, me);
      assert m in Others(shown, me);
    }
    if ShowsBy(known, cursor, me, true) {
      var m :| Shows(known, cursor, m) && Authored(m, me);
      assert m in shown;
    }
  }

  // ----- own echoes -----

  /** All of (cursor, hi] is the client's own, public, and fits the preview. */
  ghost predicate OnlyOwn(log: seq<Message>, me: string, cursor: nat, hi: nat) {
    && hi - cursor <= PREVIEW_SIZE
    && hi <= |log|
    && forall i | cursor <= i < hi :: !IsWhisper(log[i]) && Authored(log[i], me)
  }

  /** Own echoes alone never block: the answer is an exact count of zero. */
  lemma OwnEchoesLeaveOpen(log: seq<Message>, known: Option<Update>, placeholder: nat, cursor: nat, me: string)
    requires Knows(log, known, placeholder, me) && Watermark(known, placeholder) > cursor
    requires OnlyOwn(log, me, cursor, Watermark(known, placeholder))
    ensures UnreadOthersProven(known, placeholder, cursor, me) == Some(Unread(false, 0, true))
  {
    var hi := Watermark(known, placeholder);
    assert placeholder <= cursor;
    var u := known.value;
    AllShown(log, u, cursor);
    forall s: nat | cursor < s <= hi ensures IsHeard(known, placeholder, cursor, s) {
      assert Shows(known, cursor, log[s - 1]);
    }
    ExactIff(log, known, placeholder, cursor, me);
    BlockIff(log, known, placeholder, cursor, me);
    forall m | Shows(known, cursor, m) ensures Authored(m, me) {
      PreviewIsLog(log, u, m);
    }
    UnreadCountIsSound(log, known, placeholder, cursor, me);
    OwnLeavesNone(log, me, cursor, hi);
  }

  lemma OwnLeavesNone(log: seq<Message>, me: string, cursor: nat, hi: nat)
    requires OnlyOwn(log, me, cursor, hi) && cursor <= hi
    ensures UnreadByOthers(log, me, cursor, hi) == {}
  {
    IntervalFacts(cursor, hi);
  }

  /** With nothing beyond the cursor there is no answer before the first notification, and an exact zero after it. */
  lemma NothingBeyondIff(known: Option<Update>, placeholder: nat, cursor: nat, me: string)
    ensures
      var r := UnreadOthersProven(known, placeholder, cursor, me);
      && (r.None? <==> known.None? && placeholder <= cursor)
      && (known.Some? && Watermark(known, placeholder) <= cursor ==> r == Some(Unread(false, 0, true)))
  {
  }

  // ----- the same for a notification as it comes -----

  /** A notification leaves it open whose the missing messages are if and only if it shows an own one and not all. */
  lemma IncompleteIff(log: seq<Message>, u: Update, cursor: nat, me: string)
    requires Truthful(log, u) && u.latest > cursor
    ensures ClassifySelfPreview(u, cursor, me).IncompleteWithSelf?
            <==> ShowsBy(Some(u), cursor, me, true) && Unheard(Some(u), 0, cursor)
  {
    var unseen := Unseen(u.preview, cursor);
    UnseenOfTruthful(log, u, cursor);
    ExactIff(log, Some(u), 0, cursor, me);
    ExactCounts(Some(u), 0, cursor, me);
    ShownFacts(log, Some(u), 0, cursor, me);
    if ShowsBy(Some(u), cursor, me, true) {
      var m :| Shows(Some(u), cursor, m) && Authored(m, me);
      assert m in unseen;
    }
  }

  lemma AllOwnIsComplete(log: seq<Message>, u: Update, cursor: nat, me: string)
    requires Truthful(log, u) && u.latest > cursor
    requires |Unseen(u.preview, cursor)| == u.latest - cursor
    requires !ShowsBy(Some(u), cursor, me, false)
    ensures ClassifySelfPreview(u, cursor, me).CompleteSelfOnly?
  {
    var unseen := Unseen(u.preview, cursor);
    UnseenOfTruthful(log, u, cursor);
    UnseenFacts(u.preview, cursor);
    forall m | m in unseen ensures Authored(m, me) {
      assert Shows(Some(u), cursor, m);
    }
    CompleteAndOwn(unseen, cursor, u.latest, me);
  }

  lemma OtherIsNotComplete(log: seq<Message>, u: Update, cursor: nat, me: string)
    requires Truthful(log, u) && u.latest > cursor && ShowsBy(Some(u), cursor, me, false)
    ensures !ClassifySelfPreview(u, cursor, me).CompleteSelfOnly?
  {
    var m :| Shows(Some(u), cursor, m) && !Authored(m, me);
    PreviewIsLog(log, u, m);
    assert ByOther(log, me, m.sequence);
    if ClassifySelfPreview(u, cursor, me).CompleteSelfOnly? {
      SelfOnlyIsSound(log, u, cursor, me);
      assert false;
    }
  }

  lemma CompleteHasAll(log: seq<Message>, u: Update, cursor: nat, me: string)
    requires Truthful(log, u) && u.latest > cursor
    requires ClassifySelfPreview(u, cursor, me).CompleteSelfOnly?
    ensures |Unseen(u.preview, cursor)| == u.latest - cursor
  {
    UnseenOfTruthful(log, u, cursor);
  }

  /** It proves that there is nothing to do if and only if it shows everything and all of it is the client's own. */
  lemma CompleteIff(log: seq<Message>, u: Update, cursor: nat, me: string)
    requires Truthful(log, u) && u.latest > cursor
    ensures ClassifySelfPreview(u, cursor, me).CompleteSelfOnly?
            <==> !ShowsBy(Some(u), cursor, me, false) && !Unheard(Some(u), 0, cursor)
  {
    ExactIff(log, Some(u), 0, cursor, me);
    ExactCounts(Some(u), 0, cursor, me);
    if ClassifySelfPreview(u, cursor, me).CompleteSelfOnly? {
      CompleteHasAll(log, u, cursor, me);
      if ShowsBy(Some(u), cursor, me, false) {
        OtherIsNotComplete(log, u, cursor, me);
      }
    } else if !ShowsBy(Some(u), cursor, me, false) && !Unheard(Some(u), 0, cursor) {
      AllOwnIsComplete(log, u, cursor, me);
    }
  }

  // ----- in whatever order the preview comes -----

  ghost predicate Ascending(ms: seq<Message>) {
    ms == [] || ((forall m | m in ms[1..] :: ms[0].sequence <= m.sequence) && Ascending(ms[1..]))
  }

  lemma {:induction false} InsertFacts(m: Message, sorted: seq<Message>)
    requires Ascending(sorted)
    ensures Ascending(Insert(m, sorted))
    ensures forall x :: x in Insert(m, sorted) <==> x == m || x in sorted
    ensures multiset(Insert(m, sorted)) == multiset(sorted) + multiset{m}
  {
    if sorted != [] {
      assert sorted == [sorted[0]] + sorted[1..];
      if m.sequence > sorted[0].sequence {
        InsertFacts(m, sorted[1..]);
        assert ([sorted[0]] + Insert(m, sorted[1..]))[1..] == Insert(m, sorted[1..]);
      } else {
        assert ([m] + sorted)[1..] == sorted;
      }
    }
  }

  /** Sorting puts the same messages in ascending order. */
  lemma {:induction false} SortedFacts(ms: seq<Message>)
    ensures Ascending(Sorted(ms)) && multiset(Sorted(ms)) == multiset(ms)
  {
    if ms != [] {
      SortedFacts(ms[1..]);
      InsertFacts(ms[0], Sorted(ms[1..]));
      assert ms == [ms[0]] + ms[1..];
    }
  }

  lemma {:induction false} UnseenInsert(m: Message, sorted: seq<Message>, cursor: nat)
    requires Ascending(sorted)
    ensures Unseen(Insert(m, sorted), cursor)
            == if m.sequence > cursor then Insert(m, Unseen(sorted, cursor)) else Unseen(sorted, cursor)
  {
    if sorted == [] {
      assert [m][1..] == [];
    } else if m.sequence > sorted[0].sequence {
      UnseenInsert(m, sorted[1..], cursor);
      assert ([sorted[0]] + Insert(m, sorted[1..]))[1..] == Insert(m, sorted[1..]);
      UnseenTail(m, sorted, cursor);
    } else {
      assert ([m] + sorted)[1..] == sorted;
      InsertInFront(m, sorted, cursor);
    }
  }

  lemma UnseenTail(m: Message, sorted: seq<Message>, cursor: nat)
    requires sorted != [] && m.sequence > sorted[0].sequence
    ensures sorted[0].sequence > cursor ==>
              Insert(m, Unseen(sorted, cursor)) == [sorted[0]] + Insert(m, Unseen(sorted[1..], cursor))
  {
    var rest := Unseen(sorted[1..], cursor);
    assert ([sorted[0]] + rest)[1..] == rest;
  }

  lemma UnseenWithinSeq(sorted: seq<Message>, cursor: nat)
    ensures forall x | x in Unseen(sorted, cursor) :: x in sorted
  {
    forall x | x in Unseen(sorted, cursor) ensures x in sorted {
      UnseenWithin(sorted, cursor, x);
    }
  }

  /** A message not above any of the sequence goes in front of what is unseen of it. */
  lemma InsertInFront(m: Message, sorted: seq<Message>, cursor: nat)
    requires Ascending(sorted) && sorted != [] && m.sequence <= sorted[0].sequence
    ensures Insert(m, Unseen(sorted, cursor)) == [m] + Unseen(sorted, cursor)
  {
    assert sorted == [sorted[0]] + sorted[1..];
    UnseenWithinSeq(sorted, cursor);
    if Unseen(sorted, cursor) != [] {
      assert Unseen(sorted, cursor)[0] in sorted;
    }
  }

  lemma {:induction false} SortedCommutes(preview: seq<Message>, cursor: nat)
    ensures Unseen(Sorted(preview), cursor) == Sorted(Unseen(preview, cursor))
  {
    if preview != [] {
      SortedFacts(preview[1..]);
      SortedCommutes(preview[1..], cursor);
      UnseenInsert(preview[0], Sorted(preview[1..]), cursor);
      var rest := Unseen(preview[1..], cursor);
      assert ([preview[0]] + rest)[1..] == rest;
    }
  }

  lemma {:induction false} AscendingStays(ms: seq<Message>)
    requires Ascending(ms)
    ensures Sorted(ms) == ms
  {
    if ms != [] {
      AscendingStays(ms[1..]);
      if |ms| > 1 {
        assert ms[1] in ms[1..];
      }
    }
  }

  /** The answer does not depend on the order in which the preview lists its messages. */
  lemma OrderDoesNotMatter(u: Update, cursor: nat, me: string)
    ensures ClassifySelfPreview(u, cursor, me) == ClassifySelfPreview(u.(preview := Sorted(u.preview)), cursor, me)
  {
    SortedCommutes(u.preview, cursor);
    SortedFacts(Unseen(u.preview, cursor));
    AscendingStays(Sorted(Unseen(u.preview, cursor)));
  }
}
