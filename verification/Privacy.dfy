/**
  Who can learn what of a whisper.  Nothing that reaches a bystander depends on
  the text or the round of a whisper, neither a fetched page nor a page of history
  nor a notice; and what does reach everyone is told field by field.
  */
module Privacy {
  import opened Common
  import opened Messages
  import opened Creator
  import opened CreatorRuntime
  import opened History

  /** The same message but for a text and a round that the requester may not see. */
  predicate Alike(a: Message, b: Message, requester: Option<string>) {
    a == b || (!MayRead(a, requester) && b == a.(content := b.content, round := b.round))
  }

  predicate AlikeLogs(a: seq<Message>, b: seq<Message>, requester: Option<string>) {
    |a| == |b| && forall i :: 0 <= i < |a| ==> Alike(a[i], b[i], requester)
  }

  /** Two messages that differ in hidden text only look the same. */
  lemma TextStaysHidden(a: Message, b: Message, requester: Option<string>)
    requires Alike(a, b, requester)
    ensures ProjectMessage(a, requester) == ProjectMessage(b, requester)
  {
  }

  // ----- pages -----

  lemma AlikeCons(x: Message, y: Message, a: seq<Message>, b: seq<Message>, requester: Option<string>)
    requires Alike(x, y, requester) && AlikeLogs(a, b, requester)
    ensures AlikeLogs([x] + a, [y] + b, requester)
  {
  }

  lemma AlikeTail(a: seq<Message>, b: seq<Message>, requester: Option<string>)
    requires AlikeLogs(a, b, requester) && a != []
    ensures Alike(a[0], b[0], requester) && AlikeLogs(a[1..], b[1..], requester)
  {
    forall i | 0 <= i < |a[1..]| ensures Alike(a[1..][i], b[1..][i], requester) {
      assert Alike(a[i + 1], b[i + 1], requester);
    }
  }

  lemma {:induction false} AfterAlike(a: seq<Message>, b: seq<Message>, since: nat, requester: Option<string>)
    requires AlikeLogs(a, b, requester)
    ensures AlikeLogs(After(a, since), After(b, since), requester)
  {
    if a != [] {
      AlikeTail(a, b, requester);
      AfterAlike(a[1..], b[1..], since, requester);
      AlikeCons(a[0], b[0], After(a[1..], since), After(b[1..], since), requester);
    }
  }

  lemma ProjectionsAlike(a: seq<Message>, b: seq<Message>, requester: Option<string>)
    requires AlikeLogs(a, b, requester)
    ensures ProjectAll(a, requester) == ProjectAll(b, requester)
  {
    forall i | 0 <= i < |a| ensures ProjectAll(a, requester)[i] == ProjectAll(b, requester)[i] {
      TextStaysHidden(a[i], b[i], requester);
    }
  }

  /** Two logs that differ in hidden texts only give the same page to every fetch. */
  lemma FetchHidesTexts(a: seq<Message>, b: seq<Message>, since: nat, requester: Option<string>)
    requires AlikeLogs(a, b, requester)
    ensures FetchMessagesSince(a, since, requester) == FetchMessagesSince(b, since, requester)
  {
    AfterAlike(a, b, since, requester);
    ProjectionsAlike(After(a, since), After(b, since), requester);
  }

  /** What a history query answers: the page, projected. */
  function HistoryFrames(log: seq<Message>, cursor: Cursor, requester: Option<string>): seq<Frame> {
    ProjectAll(GetMessageHistory(log, cursor).messages, requester)
  }

  lemma {:induction false} BeforeAlike(a: seq<Message>, b: seq<Message>, boundary: int, requester: Option<string>)
    requires AlikeLogs(a, b, requester)
    ensures AlikeLogs(Before(a, boundary), Before(b, boundary), requester)
  {
    if a != [] {
      AlikeTail(a, b, requester);
      BeforeAlike(a[1..], b[1..], boundary, requester);
      AlikeCons(a[0], b[0], Before(a[1..], boundary), Before(b[1..], boundary), requester);
    }
  }

  lemma LastAlike(a: seq<Message>, b: seq<Message>, k: nat, requester: Option<string>)
    requires AlikeLogs(a, b, requester)
    ensures AlikeLogs(LastOf(a, k), LastOf(b, k), requester)
  {
    if |a| > k {
      forall i | 0 <= i < k ensures Alike(LastOf(a, k)[i], LastOf(b, k)[i], requester) {
        assert Alike(a[|a| - k + i], b[|a| - k + i], requester);
      }
    }
  }

  /** The same for every page of history, its cursor and its flag. */
  lemma HistoryHidesTexts(a: seq<Message>, b: seq<Message>, cursor: Cursor, requester: Option<string>)
    requires AlikeLogs(a, b, requester)
    ensures HistoryFrames(a, cursor, requester) == HistoryFrames(b, cursor, requester)
    ensures GetMessageHistory(a, cursor).cursor == GetMessageHistory(b, cursor).cursor
    ensures GetMessageHistory(a, cursor).hasMore == GetMessageHistory(b, cursor).hasMore
  {
    if cursor.Boundary? {
      BeforeAlike(a, b, cursor.sequence, requester);
      LastAlike(Before(a, cursor.sequence), Before(b, cursor.sequence), PAGE_SIZE, requester);
    } else {
      LastAlike(a, b, PAGE_SIZE, requester);
    }
    var p, q := GetMessageHistory(a, cursor).messages, GetMessageHistory(b, cursor).messages;
    ProjectionsAlike(p, q, requester);
    if p != [] {
      assert Alike(p[0], q[0], requester);
    }
  }

  // ----- notices -----

  /** What goes to anyone but the recipient. */
  function Bystanders(notices: seq<Notice>, recipient: string): seq<Notice> {
    if notices == [] then []
    else (if notices[0].session == recipient then [] else [notices[0]]) + Bystanders(notices[1..], recipient)
  }

  lemma {:induction false} PlaceholdersAreForBystanders(m: Message, online: seq<OnlineCharacter>, sender: string,
                                                        recipient: string, connected: set<string>)
    requires IsWhisper(m)
    ensures
      var notices := PlaceholderNotices(m, online, sender, recipient, connected);
      Bystanders(notices, recipient) == notices && forall n | n in notices :: Tells(n.frame, m)
  {
    if online != [] {
      PlaceholdersAreForBystanders(m, online[1..], sender, recipient, connected);
      var rest := PlaceholderNotices(m, online[1..], sender, recipient, connected);
      var n := Notice(online[0].session, PlaceholderOf(m));
      assert ([n] + rest)[1..] == rest && [] + rest == rest;
    }
  }

  lemma {:induction false} PlaceholdersAlike(a: Message, b: Message, online: seq<OnlineCharacter>, sender: string,
                                             recipient: string, connected: set<string>)
    requires IsWhisper(a) && b == a.(content := b.content, round := b.round)
    ensures PlaceholderNotices(a, online, sender, recipient, connected)
            == PlaceholderNotices(b, online, sender, recipient, connected)
  {
    if online != [] {
      PlaceholdersAlike(a, b, online[1..], sender, recipient, connected);
    }
  }

  lemma BystandersOfNotices(m: Message, online: seq<OnlineCharacter>, sender: string, recipient: string,
                            connected: set<string>)
    requires IsWhisper(m)
    ensures Bystanders(Notices(m, online, sender, recipient, connected), recipient)
            == PlaceholderNotices(m, online, sender, recipient, connected)
  {
    var rest := PlaceholderNotices(m, online, sender, recipient, connected);
    PlaceholdersAreForBystanders(m, online, sender, recipient, connected);
    if recipient in connected {
      assert ([Notice(recipient, Full(m))] + rest)[1..] == rest;
    } else {
      assert [] + rest == rest;
    }
  }

  /**
    Notices that do not go to the recipient's session are the same whatever the
    whisper says, and each is its placeholder.
    */
  lemma NoticesHideText(a: Message, b: Message, online: seq<OnlineCharacter>, sender: string, recipient: string,
                        connected: set<string>)
    requires IsWhisper(a) && b == a.(content := b.content, round := b.round)
    ensures Bystanders(Notices(a, online, sender, recipient, connected), recipient)
            == Bystanders(Notices(b, online, sender, recipient, connected), recipient)
    ensures forall n | n in Notices(a, online, sender, recipient, connected) && n.session != recipient ::
              Tells(n.frame, a)
  {
    BystandersOfNotices(a, online, sender, recipient, connected);
    BystandersOfNotices(b, online, sender, recipient, connected);
    PlaceholdersAlike(a, b, online, sender, recipient, connected);
    PlaceholdersAreForBystanders(a, online, sender, recipient, connected);
  }

  // ----- each once -----

  function NoticesTo(notices: seq<Notice>, session: string): nat {
    if notices == [] then 0 else (if notices[0].session == session then 1 else 0) + NoticesTo(notices[1..], session)
  }

  function EntriesOf(online: seq<OnlineCharacter>, session: string): nat {
    if online == [] then 0 else (if online[0].session == session then 1 else 0) + EntriesOf(online[1..], session)
  }

  lemma {:induction false} PlaceholdersEachOnce(m: Message, online: seq<OnlineCharacter>, sender: string,
                                                recipient: string, connected: set<string>, session: string)
    requires IsWhisper(m)
    ensures NoticesTo(PlaceholderNotices(m, online, sender, recipient, connected), session)
            == if session == sender || session == recipient || session !in connected then 0
               else EntriesOf(online, session)
  {
    if online != [] {
      PlaceholdersEachOnce(m, online[1..], sender, recipient, connected, session);
      var rest := PlaceholderNotices(m, online[1..], sender, recipient, connected);
      var n := Notice(online[0].session, PlaceholderOf(m));
      assert ([n] + rest)[1..] == rest && [] + rest == rest;
    }
  }

  /** Everyone connected is told as often as it is in the online table, the recipient once, the author never. */
  lemma NoticesEachOnce(m: Message, online: seq<OnlineCharacter>, sender: string, recipient: string,
                        connected: set<string>, session: string)
    requires IsWhisper(m) && sender != recipient
    ensures NoticesTo(Notices(m, online, sender, recipient, connected), session)
            == if session == sender || session !in connected then 0
               else if session == recipient then 1
               else EntriesOf(online, session)
  {
    PlaceholdersEachOnce(m, online, sender, recipient, connected, session);
    var rest := PlaceholderNotices(m, online, sender, recipient, connected);
    assert ([Notice(recipient, Full(m))] + rest)[1..] == rest && [] + rest == rest;
  }
}
