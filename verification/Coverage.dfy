/**
  What the numbers inside a batch say about an interval of the log: facts about
  the filter before delivery, the contiguity test of live batches and the pages
  of a pull, none of which depend on the protocol's state.
  */
module Coverage {
  import opened Common
  import opened Messages
  import opened Preview
  import opened Delivery

  lemma {:induction false} SequencesConcat(a: seq<Item>, b: seq<Item>)
    ensures Sequences(a + b) == Sequences(a) + Sequences(b)
    ensures InjectedSequences(a + b) == InjectedSequences(a) + InjectedSequences(b)
  {
    if a == [] {
      assert a + b == b;
    } else {
      assert (a + b)[1..] == a[1..] + b;
      SequencesConcat(a[1..], b);
    }
  }

  lemma SequencesSingle(i: Item)
    ensures Sequences([i]) == if i.Chat? then {SequenceOf(i)} else {}
    ensures InjectedSequences([i]) == if Injected(i) then {SequenceOf(i)} else {}
  {
    assert [i][1..] == [];
  }

  /** Every numbered item carries its text. */
  predicate TextOnly(items: seq<Item>) {
    forall i | i in items :: i.Chat? ==> Injected(i)
  }

  lemma {:induction false} InjectedWithin(items: seq<Item>)
    ensures InjectedSequences(items) <= Sequences(items)
    ensures TextOnly(items) ==> InjectedSequences(items) == Sequences(items)
  {
    if items != [] {
      InjectedWithin(items[1..]);
      assert items == [items[0]] + items[1..];
    }
  }

  /** The filter only removes: what was read, and repetitions of a number it keeps. */
  lemma {:induction false} FreshKeeps(items: seq<Item>, cursor: nat, window: set<nat>, taken: set<nat>)
    ensures var kept := Fresh(items, cursor, window, taken);
            && Sequences(kept) <= Sequences(items)
            && InjectedSequences(kept) <= InjectedSequences(items)
            && (forall i | i in kept :: i in items)
            && (forall n | n in Sequences(items) :: (n > cursor || n in window) && n !in taken ==> n in Sequences(kept))
            && (forall n | n in Sequences(kept) :: (n > cursor || n in window) && n !in taken)
    decreases |items|
  {
    if items != [] {
      var i := items[0];
      assert items == [i] + items[1..];
      if !i.Chat? {
        FreshKeeps(items[1..], cursor, window, taken);
        SequencesConcat([i], Fresh(items[1..], cursor, window, taken));
      } else {
        var n := SequenceOf(i);
        FreshKeeps(items[1..], cursor, window, taken);
        FreshKeeps(items[1..], cursor, window, taken + {n});
        SequencesConcat([i], Fresh(items[1..], cursor, window, taken + {n}));
        SequencesSingle(i);
      }
    }
  }

  /** No number goes out twice in one batch. */
  predicate EachOnce(items: seq<Item>) {
    forall i, j :: 0 <= i < j < |items| && items[i].Chat? && items[j].Chat? ==>
      SequenceOf(items[i]) != SequenceOf(items[j])
  }

  lemma {:induction false} MemberNumber(items: seq<Item>, i: nat)
    requires i < |items| && items[i].Chat?
    ensures SequenceOf(items[i]) in Sequences(items)
  {
    if i > 0 {
      MemberNumber(items[1..], i - 1);
    }
  }

  lemma {:induction false} FreshOnce(items: seq<Item>, cursor: nat, window: set<nat>, taken: set<nat>)
    ensures EachOnce(Fresh(items, cursor, window, taken))
    decreases |items|
  {
    if items != [] {
      var head := items[0];
      FreshOnce(items[1..], cursor, window, taken);
      if head.Chat? {
        var n := SequenceOf(head);
        var rest := Fresh(items[1..], cursor, window, taken + {n});
        FreshOnce(items[1..], cursor, window, taken + {n});
        FreshKeeps(items[1..], cursor, window, taken + {n});
        forall j | 0 <= j < |rest| && rest[j].Chat? ensures SequenceOf(rest[j]) != n {
          MemberNumber(rest, j);
        }
      }
    }
  }

  /** The injected numbers are those of the frames with text: public messages, and whispers the client may read. */
  lemma {:induction false} InjectedIs(items: seq<Item>, n: nat)
    ensures n in InjectedSequences(items)
            <==> exists i :: 0 <= i < |items| && items[i].Chat? && items[i].frame.Full?
                             && items[i].frame.message.sequence == n
  {
    if items != [] {
      InjectedIs(items[1..], n);
      if n in InjectedSequences(items[1..]) {
        var i :| 0 <= i < |items[1..]| && items[1..][i].Chat? && items[1..][i].frame.Full?
                 && items[1..][i].frame.message.sequence == n;
        assert items[i + 1] == items[1..][i];
      }
      if exists i :: 0 <= i < |items| && items[i].Chat? && items[i].frame.Full?
                     && items[i].frame.message.sequence == n {
        var i :| 0 <= i < |items| && items[i].Chat? && items[i].frame.Full? && items[i].frame.message.sequence == n;
        if i > 0 {
          assert items[1..][i - 1] == items[i];
        }
      }
    }
  }

  lemma {:induction false} HighestIsHighest(items: seq<Item>)
    ensures forall n | n in InjectedSequences(items) :: n <= HighestInjected(items)
    ensures HighestInjected(items) > 0 ==> HighestInjected(items) in InjectedSequences(items)
  {
    if items != [] {
      HighestIsHighest(items[1..]);
    }
  }

  lemma {:induction false} LowestIsLowest(items: seq<Item>)
    ensures LowestInjected(items).None? <==> InjectedSequences(items) == {}
    ensures LowestInjected(items).Some? ==>
              && LowestInjected(items).value in InjectedSequences(items)
              && forall n | n in InjectedSequences(items) :: LowestInjected(items).value <= n
  {
    if items != [] {
      LowestIsLowest(items[1..]);
    }
  }

  /** As many numbers as the span has room for fill it. */
  lemma SpanIsFull(numbers: set<nat>, lo: int, hi: nat)
    requires -1 <= lo <= hi && |numbers| == hi - lo
    requires forall n | n in numbers :: lo < n <= hi
    ensures forall s: nat :: lo < s <= hi ==> s in numbers
  {
    if lo == -1 {
      var positive := numbers - {0};
      IntervalFacts(0, hi);
      SubsetCount(positive, Interval(0, hi));
      if 0 in numbers {
        assert numbers == positive + {0};
        FullSubset(positive, Interval(0, hi));
      } else {
        assert false;
      }
    } else {
      IntervalFacts(lo, hi);
      FullSubset(numbers, Interval(lo, hi));
    }
  }

  lemma {:induction false} FullSubset(a: set<nat>, b: set<nat>)
    requires forall n | n in a :: n in b
    requires |a| == |b|
    ensures a == b
  {
    SubsetCount(b - a, b);
    assert a + (b - a) == b;
    DisjointSum(a, b - a);
    assert |b - a| == 0;
  }

  /** The contiguity test: a declared lower bound means the batch's own frames fill the interval above it. */
  lemma ContiguousCovers(items: seq<Item>)
    ensures var k := CoverageLowerBound(items);
            k.Some? ==>
              && (forall s: nat :: k.value < s <= HighestInjected(items) ==> s in InjectedSequences(items))
              && (forall n | n in InjectedSequences(items) :: k.value < n)
  {
    var k := CoverageLowerBound(items);
    if k.Some? {
      LowestIsLowest(items);
      HighestIsHighest(items);
      SpanIsFull(InjectedSequences(items), k.value, HighestInjected(items));
    }
  }

  /** A gap anywhere in the batch, and it declares nothing. */
  lemma GapMeansNoCoverage(items: seq<Item>, s: nat)
    requires LowestInjected(items).Some?
    requires LowestInjected(items).value < s < HighestInjected(items) && s !in InjectedSequences(items)
    ensures CoverageLowerBound(items).None?
  {
    ContiguousCovers(items);
  }

  /** Frames lo + 1 .. hi, in any order and repeated or not, declare exactly the interval above `lo`, up to `hi`. */
  lemma GaplessDeclares(items: seq<Item>, lo: nat, hi: nat)
    requires lo < hi && InjectedSequences(items) == Interval(lo, hi)
    ensures CoverageLowerBound(items) == Some(lo)
    ensures WatermarkOfDelivered(items) == Some(hi)
  {
    IntervalFacts(lo, hi);
    LowestIsLowest(items);
    HighestIsHighest(items);
    assert lo + 1 in Interval(lo, hi) && hi in Interval(lo, hi);
  }

  /** No number is left out between two that are there. */
  ghost predicate Convex(numbers: set<nat>) {
    forall a, b | a in numbers && b in numbers :: forall s: nat | a <= s <= b :: s in numbers
  }

  lemma ConvexCount(numbers: set<nat>, lo: nat, hi: nat)
    requires lo in numbers && hi in numbers && (forall n | n in numbers :: lo <= n <= hi) && Convex(numbers)
    ensures |numbers| == hi - lo + 1
  {
    IntervalFacts(lo, hi);
    assert numbers == Interval(lo, hi) + {lo};
  }

  lemma DeclaredIsConvex(items: seq<Item>)
    requires CoverageLowerBound(items).Some?
    ensures Convex(InjectedSequences(items))
  {
    HighestIsHighest(items);
    ContiguousCovers(items);
  }

  /** A batch declares its interval if and only if its own frames leave no number out. */
  lemma CoverageIff(items: seq<Item>)
    ensures CoverageLowerBound(items).Some? <==> InjectedSequences(items) != {} && Convex(InjectedSequences(items))
  {
    LowestIsLowest(items);
    if CoverageLowerBound(items).Some? {
      DeclaredIsConvex(items);
    } else if InjectedSequences(items) != {} && Convex(InjectedSequences(items)) {
      HighestIsHighest(items);
      var lo := LowestInjected(items).value;
      assert HighestInjected(items) in InjectedSequences(items) by {
        if HighestInjected(items) == 0 {
          assert lo == 0;
        }
      }
      ConvexCount(InjectedSequences(items), lo, HighestInjected(items));
    }
  }

  // ----- pages -----

  lemma {:induction false} PageItemsNumbers(ms: seq<Message>, me: string, lo: nat)
    requires forall i :: 0 <= i < |ms| ==> ms[i].sequence == lo + i + 1
    ensures forall n | n in Sequences(PageItems(ProjectAll(ms, Some(me)), me)) :: lo < n <= lo + |ms|
    ensures forall i | 0 <= i < |ms| ::
              lo + i + 1 in Sequences(PageItems(ProjectAll(ms, Some(me)), me)) <==> !Authored(ms[i], me)
  {
    var frames := ProjectAll(ms, Some(me));
    if ms != [] {
      assert frames[1..] == ProjectAll(ms[1..], Some(me));
      PageItemsNumbers(ms[1..], me, lo + 1);
      var rest := PageItems(frames[1..], me);
      ProjectionHidesWhispers(ms[0], Some(me));
      var head := if Own(frames[0], me) then [] else [Chat(frames[0])];
      assert PageItems(frames, me) == head + rest;
      SequencesConcat(head, rest);
      SequencesSingle(Chat(frames[0]));
      assert Sequences(head) == if Authored(ms[0], me) then {} else {lo + 1};
      forall i | 0 < i < |ms| ensures lo + i + 1 in Sequences(rest) <==> !Authored(ms[i], me) {
        assert ms[1..][i - 1] == ms[i];
        assert (lo + 1) + (i - 1) + 1 in Sequences(rest) <==> !Authored(ms[1..][i - 1], me);
      }
    }
  }

  /** A page holds everything by others above its starting point, and nothing beyond its watermark. */
  lemma PageIsComplete(log: seq<Message>, start: nat, me: string)
    requires GaplessLog(log)
    ensures var page := FetchMessagesSince(log, start, Some(me));
            var items := PageItems(page.messages, me);
            && (forall n | n in Sequences(items) :: start < n <= |log|)
            && (forall s: nat | start < s <= |log| :: s in Sequences(items) <==> ByOther(log, me, s))
            && (page.messages != [] ==> page.latest == |log|)
            && (page.messages == [] ==> |log| <= start)
  {
    AfterIsSuffix(log, 0, start);
    var tail := After(log, start);
    if start < |log| {
      assert tail == log[start..];
      PageItemsNumbers(tail, me, start);
      forall s: nat | start < s <= |log|
        ensures s in Sequences(PageItems(ProjectAll(tail, Some(me)), me)) <==> ByOther(log, me, s)
      {
        var i := s - start - 1;
        assert start + i + 1 in Sequences(PageItems(ProjectAll(tail, Some(me)), me)) <==> !Authored(tail[i], me);
      }
    } else {
      assert tail == [];
    }
  }
}
