/**
  The creator's message log: two append-only streams (public messages and
  whispers) that draw their sequence numbers from one counter, the merge that
  turns them back into one time line, and the queries answered from it.
  */
module Messages {
  import opened Common

  datatype Sender = UserPersona | Character(id: string, name: string)

  datatype Party = Party(id: string, name: string)

  datatype RoundInfo = RoundInfo(max: nat, used: nat, remaining: nat)

  /** A message is a whisper exactly when it has a recipient. */
  datatype Message = Message(
    sender: Sender,
    recipient: Option<Party>,
    content: string,
    eventId: string,
    sequence: nat,
    timestamp: string,
    round: RoundInfo)

  predicate IsWhisper(m: Message) {
    m.recipient.Some?
  }

  predicate Authored(m: Message, who: string) {
    m.sender.Character? && m.sender.id == who
  }

  // ----- the two streams and their merge -----

  /** The two-index merge of message-stream.ts as a recursive function. */
  function Merge(publics: seq<Message>, whispers: seq<Message>): seq<Message>
    decreases |publics| + |whispers|
  {
    if publics == [] then whispers
    else if whispers == [] then publics
    else if publics[0].sequence <= whispers[0].sequence then
      [publics[0]] + Merge(publics[1..], whispers)
    else
      [whispers[0]] + Merge(publics, whispers[1..])
  }

  lemma MergeStep(publics: seq<Message>, whispers: seq<Message>, i: nat, j: nat)
    requires i <= |publics| && j <= |whispers| && (i < |publics| || j < |whispers|)
    ensures Merge(publics[i..], whispers[j..]) ==
            if j == |whispers| || (i < |publics| && publics[i].sequence <= whispers[j].sequence) then
              [publics[i]] + Merge(publics[i + 1..], whispers[j..])
            else
              [whispers[j]] + Merge(publics[i..], whispers[j + 1..])
  {
    if i < |publics| {
      assert publics[i..][1..] == publics[i + 1..];
    }
    if j < |whispers| {
      assert whispers[j..][1..] == whispers[j + 1..];
    }
  }

  lemma MergedSoFar(merged: seq<Message>, next: Message, rest: seq<Message>)
    ensures merged + ([next] + rest) == (merged + [next]) + rest
  {
  }

  method MergeMessageStreams(publics: seq<Message>, whispers: seq<Message>) returns (merged: seq<Message>)
    ensures merged == Merge(publics, whispers)
  {
    if |publics| == 0 {
      return whispers;
    }
    if |whispers| == 0 {
      return publics;
    }
    merged := [];
    var i, j := 0, 0;
    while i < |publics| || j < |whispers|
      invariant 0 <= i <= |publics| && 0 <= j <= |whispers|
      invariant merged + Merge(publics[i..], whispers[j..]) == Merge(publics, whispers)
      decreases |publics| - i + |whispers| - j
    {
      MergeStep(publics, whispers, i, j);
      var next: Message;
      if i == |publics| {
        next := whispers[j];
        j := j + 1;
      } else if j == |whispers| {
        next := publics[i];
        i := i + 1;
      } else if publics[i].sequence <= whispers[j].sequence {
        next := publics[i];
        i := i + 1;
      } else {
        next := whispers[j];
        j := j + 1;
      }
      MergedSoFar(merged, next, Merge(publics[i..], whispers[j..]));
      merged := merged + [next];
    }
  }

  /** The messages of one kind, in log order. */
  function Stream(log: seq<Message>, whisper: bool): seq<Message> {
    if log == [] then []
    else if IsWhisper(log[0]) == whisper then [log[0]] + Stream(log[1..], whisper)
    else Stream(log[1..], whisper)
  }

  function Publics(log: seq<Message>): seq<Message> {
    Stream(log, false)
  }

  function Whispers(log: seq<Message>): seq<Message> {
    Stream(log, true)
  }

  ghost predicate AllAbove(log: seq<Message>, k: nat) {
    forall m | m in log :: k < m.sequence
  }

  /** Strictly increasing sequence numbers. */
  ghost predicate Increasing(log: seq<Message>) {
    log == [] || (AllAbove(log[1..], log[0].sequence) && Increasing(log[1..]))
  }

  ghost predicate HasSequence(log: seq<Message>, k: nat) {
    exists i :: 0 <= i < |log| && log[i].sequence == k
  }

  /** The log in order: message number i + 1 sits at position i. */
  ghost predicate GaplessLog(log: seq<Message>) {
    forall i :: 0 <= i < |log| ==> log[i].sequence == i + 1
  }

  /** The two streams share the counter: each number of 1..n was used by exactly one of them. */
  ghost predicate GaplessStreams(publics: seq<Message>, whispers: seq<Message>, n: nat) {
    && (forall m | m in publics :: !IsWhisper(m) && 1 <= m.sequence <= n)
    && (forall m | m in whispers :: IsWhisper(m) && 1 <= m.sequence <= n)
    && Increasing(publics)
    && Increasing(whispers)
    && (forall k: nat | 1 <= k <= n :: HasSequence(publics, k) != HasSequence(whispers, k))
  }

  /** The same fact seen from the merged log. */
  ghost predicate OneLog(publics: seq<Message>, whispers: seq<Message>, n: nat) {
    var log := Merge(publics, whispers);
    |log| == n && GaplessLog(log) && Publics(log) == publics && Whispers(log) == whispers
  }

  lemma {:induction false} MergeMembers(publics: seq<Message>, whispers: seq<Message>)
    ensures forall m :: m in Merge(publics, whispers) <==> m in publics || m in whispers
    decreases |publics| + |whispers|
  {
    if publics != [] && whispers != [] {
      if publics[0].sequence <= whispers[0].sequence {
        MergeMembers(publics[1..], whispers);
        assert publics == [publics[0]] + publics[1..];
      } else {
        MergeMembers(publics, whispers[1..]);
        assert whispers == [whispers[0]] + whispers[1..];
      }
    }
  }

  ghost predicate Disjoint(a: seq<Message>, b: seq<Message>) {
    forall x, y | x in a && y in b :: x.sequence != y.sequence
  }

  lemma {:induction false} StreamOfOneKind(log: seq<Message>, whisper: bool)
    requires forall m | m in log :: IsWhisper(m) == whisper
    ensures Stream(log, whisper) == log && Stream(log, !whisper) == []
  {
    if log != [] {
      assert log[0] in log;
      StreamOfOneKind(log[1..], whisper);
    }
  }

  /** Merging loses nothing: the merged log splits back into the two streams. */
  lemma {:induction false} MergeSplits(publics: seq<Message>, whispers: seq<Message>)
    requires (forall m | m in publics :: !IsWhisper(m)) && (forall m | m in whispers :: IsWhisper(m))
    ensures Publics(Merge(publics, whispers)) == publics
    ensures Whispers(Merge(publics, whispers)) == whispers
    decreases |publics| + |whispers|
  {
    if publics == [] {
      StreamOfOneKind(whispers, true);
    } else if whispers == [] {
      StreamOfOneKind(publics, false);
    } else if publics[0].sequence <= whispers[0].sequence {
      MergeSplits(publics[1..], whispers);
      assert Merge(publics, whispers)[1..] == Merge(publics[1..], whispers);
      assert publics[0] in publics;
    } else {
      MergeSplits(publics, whispers[1..]);
      assert Merge(publics, whispers)[1..] == Merge(publics, whispers[1..]);
      assert whispers[0] in whispers;
    }
  }

  /** Increasing streams with no common number merge into one increasing log. */
  lemma {:induction false} MergeIncreasing(publics: seq<Message>, whispers: seq<Message>)
    requires Increasing(publics) && Increasing(whispers) && Disjoint(publics, whispers)
    ensures Increasing(Merge(publics, whispers))
    decreases |publics| + |whispers|
  {
    if publics == [] || whispers == [] {
    } else {
      var p, w := publics[0], whispers[0];
      assert p in publics && w in whispers;
      HeadIsLeast(publics);
      HeadIsLeast(whispers);
      if p.sequence <= w.sequence {
        MergeIncreasing(publics[1..], whispers);
        MergeMembers(publics[1..], whispers);
        assert Merge(publics, whispers)[1..] == Merge(publics[1..], whispers);
      } else {
        MergeIncreasing(publics, whispers[1..]);
        MergeMembers(publics, whispers[1..]);
        assert Merge(publics, whispers)[1..] == Merge(publics, whispers[1..]);
      }
    }
  }

  lemma HeadIsLeast(log: seq<Message>)
    requires log != [] && Increasing(log)
    ensures forall m | m in log :: log[0].sequence <= m.sequence
  {
    assert log == [log[0]] + log[1..];
  }

  /** An increasing log that uses exactly the numbers lo + 1 .. hi holds them one by one. */
  lemma {:induction false} Dense(log: seq<Message>, lo: nat, hi: nat)
    requires Increasing(log) && lo <= hi
    requires forall m | m in log :: lo < m.sequence <= hi
    requires forall k: nat | lo < k <= hi :: HasSequence(log, k)
    ensures |log| == hi - lo
    ensures forall i :: 0 <= i < |log| ==> log[i].sequence == lo + i + 1
  {
    if lo < hi {
      assert HasSequence(log, lo + 1);
      HeadIsLeast(log);
      assert log[0] in log;
      var rest := log[1..];
      forall k: nat | lo + 1 < k <= hi ensures HasSequence(rest, k) {
        assert HasSequence(log, k);
        var j :| 0 <= j < |log| && log[j].sequence == k;
        assert rest[j - 1] == log[j];
      }
      assert forall m | m in rest :: m in log;
      Dense(rest, lo + 1, hi);
      assert forall j :: 1 <= j < |log| ==> log[j] == rest[j - 1];
    } else if log != [] {
      assert false;
    }
  }

  lemma {:induction false} StreamMembers(log: seq<Message>, whisper: bool)
    ensures forall m :: m in Stream(log, whisper) <==> m in log && IsWhisper(m) == whisper
  {
    if log != [] {
      StreamMembers(log[1..], whisper);
      assert log == [log[0]] + log[1..];
    }
  }

  lemma {:induction false} StreamIncreasing(log: seq<Message>, whisper: bool)
    requires Increasing(log)
    ensures Increasing(Stream(log, whisper))
  {
    if log != [] {
      var rest := Stream(log[1..], whisper);
      StreamIncreasing(log[1..], whisper);
      StreamMembers(log[1..], whisper);
      assert ([log[0]] + rest)[1..] == rest;
    }
  }

  lemma HasMember(log: seq<Message>, m: Message)
    requires m in log
    ensures HasSequence(log, m.sequence)
  {
  }

  lemma MemberWith(log: seq<Message>, k: nat) returns (m: Message)
    requires HasSequence(log, k)
    ensures m in log && m.sequence == k
  {
    var i :| 0 <= i < |log| && log[i].sequence == k;
    m := log[i];
  }

  lemma StreamsDisjoint(publics: seq<Message>, whispers: seq<Message>, n: nat)
    requires GaplessStreams(publics, whispers, n)
    ensures Disjoint(publics, whispers)
  {
    forall x, y | x in publics && y in whispers ensures x.sequence != y.sequence {
      HasMember(publics, x);
      HasMember(whispers, y);
    }
  }

  lemma MergeHasAll(publics: seq<Message>, whispers: seq<Message>, n: nat)
    requires GaplessStreams(publics, whispers, n)
    ensures forall k: nat | 0 < k <= n :: HasSequence(Merge(publics, whispers), k)
  {
    MergeMembers(publics, whispers);
    forall k: nat | 0 < k <= n ensures HasSequence(Merge(publics, whispers), k) {
      var m := MemberWith(if HasSequence(publics, k) then publics else whispers, k);
      HasMember(Merge(publics, whispers), m);
    }
  }

  lemma StreamsMakeOneLog(publics: seq<Message>, whispers: seq<Message>, n: nat)
    requires GaplessStreams(publics, whispers, n)
    ensures OneLog(publics, whispers, n)
  {
    StreamsDisjoint(publics, whispers, n);
    MergeIncreasing(publics, whispers);
    MergeSplits(publics, whispers);
    MergeHasAll(publics, whispers, n);
    MergeMembers(publics, whispers);
    Dense(Merge(publics, whispers), 0, n);
  }

  lemma {:induction false} LogIncreasing(log: seq<Message>, lo: nat)
    requires forall i :: 0 <= i < |log| ==> log[i].sequence == lo + i + 1
    ensures Increasing(log)
  {
    if log != [] {
      LogIncreasing(log[1..], lo + 1);
    }
  }

  lemma OneLogMakesStreams(publics: seq<Message>, whispers: seq<Message>, n: nat)
    requires OneLog(publics, whispers, n)
    ensures GaplessStreams(publics, whispers, n)
  {
    var log := Merge(publics, whispers);
    StreamMembers(log, false);
    StreamMembers(log, true);
    LogIncreasing(log, 0);
    StreamIncreasing(log, false);
    StreamIncreasing(log, true);
    forall k: nat | 1 <= k <= n ensures HasSequence(publics, k) != HasSequence(whispers, k) {
      var m := log[k - 1];
      assert m in log;
      HasMember(if IsWhisper(m) then whispers else publics, m);
      if HasSequence(publics, k) && HasSequence(whispers, k) {
        var p := MemberWith(publics, k);
        var w := MemberWith(whispers, k);
        assert false;
      }
    }
  }

  /**
    The main fact about the log: two streams use the numbers 1..n exactly once
    between them if and only if their merge is the log in order, splitting back
    into the same two streams.
    */
  lemma GaplessIffOneLog(publics: seq<Message>, whispers: seq<Message>, n: nat)
    ensures GaplessStreams(publics, whispers, n) <==> OneLog(publics, whispers, n)
  {
    if GaplessStreams(publics, whispers, n) {
      StreamsMakeOneLog(publics, whispers, n);
    }
    if OneLog(publics, whispers, n) {
      OneLogMakesStreams(publics, whispers, n);
    }
  }

  /** Appending the next message to its stream appends it to the log. */
  lemma {:induction false} MergeAppend(publics: seq<Message>, whispers: seq<Message>, m: Message)
    requires forall x | x in publics || x in whispers :: x.sequence < m.sequence
    ensures !IsWhisper(m) ==> Merge(publics + [m], whispers) == Merge(publics, whispers) + [m]
    ensures IsWhisper(m) ==> Merge(publics, whispers + [m]) == Merge(publics, whispers) + [m]
    decreases |publics| + |whispers|
  {
    var pm, wm := publics + [m], whispers + [m];
    if publics == [] {
      MergeOneLate(whispers, m);
      assert pm == [m];
    } else if whispers == [] {
      assert wm == [m];
      MergeOneLate(publics, m);
    } else if publics[0].sequence <= whispers[0].sequence {
      MergeAppend(publics[1..], whispers, m);
      assert pm[1..] == publics[1..] + [m] && wm[0] == whispers[0] && pm[0] == publics[0];
    } else {
      MergeAppend(publics, whispers[1..], m);
      assert wm[1..] == whispers[1..] + [m] && wm[0] == whispers[0] && pm[0] == publics[0];
    }
  }

  lemma {:induction false} MergeOneLate(others: seq<Message>, m: Message)
    requires forall x | x in others :: x.sequence < m.sequence
    ensures Merge([m], others) == others + [m]
    ensures Merge(others, [m]) == others + [m]
  {
    if others != [] {
      MergeOneLate(others[1..], m);
      assert others == [others[0]] + others[1..];
    }
  }

  lemma {:induction false} StreamAppend(log: seq<Message>, m: Message, whisper: bool)
    ensures Stream(log + [m], whisper) == Stream(log, whisper) + (if IsWhisper(m) == whisper then [m] else [])
  {
    if log == [] {
      assert log + [m] == [m];
    } else {
      StreamAppend(log[1..], m, whisper);
      assert (log + [m])[0] == log[0];
      assert (log + [m])[1..] == log[1..] + [m];
    }
  }

  /** A message carrying the next number keeps the two streams one gapless log. */
  lemma OneLogAppend(publics: seq<Message>, whispers: seq<Message>, n: nat, m: Message)
    requires OneLog(publics, whispers, n) && m.sequence == n + 1
    ensures !IsWhisper(m) ==> OneLog(publics + [m], whispers, n + 1)
    ensures IsWhisper(m) ==> OneLog(publics, whispers + [m], n + 1)
    ensures !IsWhisper(m) ==> Merge(publics + [m], whispers) == Merge(publics, whispers) + [m]
    ensures IsWhisper(m) ==> Merge(publics, whispers + [m]) == Merge(publics, whispers) + [m]
  {
    MergeMembers(publics, whispers);
    var log := Merge(publics, whispers);
    forall x | x in publics || x in whispers ensures x.sequence < m.sequence {
      assert x in log;
    }
    MergeAppend(publics, whispers, m);
    StreamAppend(log, m, false);
    StreamAppend(log, m, true);
  }

  // ----- staleness -----

  /**
    What makes a basis stale for `who`: any public message by someone else, and
    any whisper addressed to `who`.  Own messages and whispers between others do
    not count.
    */
  predicate Counts(m: Message, who: string) {
    && !Authored(m, who)
    && (m.recipient.Some? ==> m.recipient.value.id == who)
  }

  /** Message number `s` exists and someone other than `who` wrote it. */
  ghost predicate ByOther(log: seq<Message>, who: string, s: nat) {
    1 <= s <= |log| && !Authored(log[s - 1], who)
  }

  function LatestOther(log: seq<Message>, who: string): nat {
    if log == [] then 0
    else if Counts(log[|log| - 1], who) then log[|log| - 1].sequence
    else LatestOther(log[..|log| - 1], who)
  }

  method ComputeLatestOtherSequence(merged: seq<Message>, who: string) returns (latest: nat)
    ensures latest == LatestOther(merged, who)
  {
    var i := |merged|;
    assert merged[..i] == merged;
    while i > 0
      invariant 0 <= i <= |merged|
      invariant LatestOther(merged, who) == LatestOther(merged[..i], who)
    {
      i := i - 1;
      assert merged[..i + 1][..i] == merged[..i];
      if Authored(merged[i], who) {
        continue;
      }
      if merged[i].recipient.Some? && merged[i].recipient.value.id != who {
        continue;
      }
      return merged[i].sequence;
    }
    return 0;
  }

  /** A basis is behind exactly when some message that counts came after it. */
  lemma {:induction false} StaleIff(log: seq<Message>, who: string, basis: nat)
    requires GaplessLog(log)
    ensures basis < LatestOther(log, who) <==> exists i :: basis <= i < |log| && Counts(log[i], who)
  {
    if log != [] {
      var last := |log| - 1;
      var front := log[..last];
      StaleIff(front, who, basis);
      if Counts(log[last], who) {
        if exists i :: basis <= i < |log| && Counts(log[i], who) {
          assert basis <= last;
        }
      } else {
        assert forall i :: 0 <= i < last ==> front[i] == log[i];
        if exists i :: basis <= i < |log| && Counts(log[i], who) {
          var i :| basis <= i < |log| && Counts(log[i], who);
          assert front[i] == log[i];
        }
      }
    }
  }

  // ----- what each requester sees -----

  datatype Frame =
    | Full(message: Message)
    | Placeholder(eventId: string, sequence: nat, timestamp: string, sender: Sender, recipient: Party)

  function ProjectMessage(m: Message, requester: Option<string>): Frame {
    match m.recipient
    case None => Full(m)
    case Some(to) =>
      if requester.Some? && (Authored(m, requester.value) || to.id == requester.value) then Full(m)
      else Placeholder(m.eventId, m.sequence, m.timestamp, m.sender, to)
  }

  function FrameSequence(f: Frame): nat {
    match f
    case Full(m) => m.sequence
    case Placeholder(_, s, _, _, _) => s
  }

  /** The requester may read the message: it is public, or the requester wrote it or is its recipient. */
  predicate MayRead(m: Message, requester: Option<string>) {
    m.recipient.None?
    || (requester.Some? && (Authored(m, requester.value) || m.recipient.value.id == requester.value))
  }

  /** What counts for `who` is exactly what `who` may read and did not write. */
  lemma CountsIff(m: Message, who: string)
    ensures Counts(m, who) <==> MayRead(m, Some(who)) && !Authored(m, who)
  {
  }

  /** The placeholder of a message, field by field. */
  predicate Tells(f: Frame, m: Message) {
    && m.recipient.Some?
    && f.Placeholder?
    && f.eventId == m.eventId && f.sequence == m.sequence && f.timestamp == m.timestamp
    && f.sender == m.sender && f.recipient == m.recipient.value
  }

  /**
    Whisper text reaches the two participants only: everyone else sees the
    placeholder, which tells who wrote to whom, when, and nothing else.
    */
  lemma ProjectionHidesWhispers(m: Message, requester: Option<string>)
    ensures FrameSequence(ProjectMessage(m, requester)) == m.sequence
    ensures ProjectMessage(m, requester).Full? <==> MayRead(m, requester)
    ensures MayRead(m, requester) ==> ProjectMessage(m, requester) == Full(m)
    ensures !MayRead(m, requester) ==> Tells(ProjectMessage(m, requester), m)
  {
  }

  // ----- incremental fetch -----

  function After(log: seq<Message>, since: nat): seq<Message> {
    if log == [] then []
    else (if log[0].sequence > since then [log[0]] else []) + After(log[1..], since)
  }

  function ProjectAll(log: seq<Message>, requester: Option<string>): seq<Frame> {
    seq(|log|, i requires 0 <= i < |log| => ProjectMessage(log[i], requester))
  }

  datatype FetchPage = FetchPage(messages: seq<Frame>, latest: nat, total: nat)

  function FetchMessagesSince(log: seq<Message>, since: nat, requester: Option<string>): FetchPage {
    FetchPage(
      ProjectAll(After(log, since), requester),
      if log == [] then since else log[|log| - 1].sequence,
      |log|)
  }

  lemma {:induction false} AfterIsSuffix(log: seq<Message>, lo: nat, since: nat)
    requires forall i :: 0 <= i < |log| ==> log[i].sequence == lo + i + 1
    ensures After(log, since) == log[Max(0, Min(since - lo, |log|))..]
  {
    if log != [] {
      assert forall i :: 0 <= i < |log[1..]| ==> log[1..][i] == log[i + 1];
      AfterIsSuffix(log[1..], lo + 1, since);
      if since <= lo {
        assert log == [log[0]] + log[1..];
      }
    }
  }

  /** What follows number `since` in a gapless log. */
  lemma AfterOfLog(log: seq<Message>, since: nat)
    requires GaplessLog(log)
    ensures After(log, since) == if since < |log| then log[since..] else []
  {
    AfterIsSuffix(log, 0, since);
    assert log[|log|..] == [];
  }

  lemma FetchOfLog(log: seq<Message>, since: nat, requester: Option<string>)
    requires GaplessLog(log)
    ensures var page := FetchMessagesSince(log, since, requester);
            && |page.messages| == Max(0, |log| - since)
            && (forall i :: 0 <= i < |page.messages| ==> page.messages[i] == ProjectMessage(log[since + i], requester))
            && page.latest == (if log == [] then since else |log|) && page.total == |log|
  {
    AfterOfLog(log, since);
  }

  /** A fetch since k returns k + 1 .. n, each once and in order, however the log was split. */
  lemma FetchIsExact(publics: seq<Message>, whispers: seq<Message>, n: nat, since: nat, requester: Option<string>)
    requires GaplessStreams(publics, whispers, n)
    ensures var log := Merge(publics, whispers);
            var page := FetchMessagesSince(log, since, requester);
            && |log| == n
            && |page.messages| == Max(0, n - since)
            && (forall i :: 0 <= i < |page.messages| ==>
                  page.messages[i] == ProjectMessage(log[since + i], requester)
                  && FrameSequence(page.messages[i]) == since + i + 1)
            && page.latest == (if n == 0 then since else n) && page.total == n
            && forall i :: 0 <= i < |page.messages| ==>
                 if MayRead(log[since + i], requester) then page.messages[i] == Full(log[since + i])
                 else Tells(page.messages[i], log[since + i])
  {
    GaplessIffOneLog(publics, whispers, n);
    var log := Merge(publics, whispers);
    FetchOfLog(log, since, requester);
    forall s | since <= s < n ensures FrameSequence(ProjectMessage(log[s], requester)) == s + 1 {
      ProjectionHidesWhispers(log[s], requester);
    }
  }
}
