/**
  The creator as the object the source has: fields that the pipelines update in
  place.  Each method computes what the corresponding function of module Creator
  says about the old state.
  */
module CreatorRuntime {
  import opened Common
  import opened Messages
  import opened SessionStore
  import opened Creator

  /** A notification addressed to one session. */
  datatype Notice = Notice(session: string, frame: Frame)

  class CreatorRuntimeObject {
    var name: Option<string>
    var limit: nat
    var round: Option<Round>
    var nextSequence: nat
    var publicMessages: seq<Message>
    var whisperMessages: seq<Message>
    var persistedCount: nat
    var online: seq<OnlineCharacter>
    const header: Header
    const config: nat
    const store: SessionStoreObject

    ghost function State(): Creator
      reads this, store
    {
      Creator(name, limit, round, nextSequence, publicMessages, whisperMessages, persistedCount, online,
              header, config, store.State())
    }

    constructor (c: Creator, store: SessionStoreObject)
      requires store.State() == c.store
      ensures this.store == store && State() == c
    {
      name, limit, round, nextSequence := c.name, c.limit, c.round, c.nextSequence;
      publicMessages, whisperMessages, persistedCount := c.publics, c.whispers, c.persisted;
      online, header, config := c.online, c.header, c.config;
      this.store := store;
    }

    method SetHandRaised(session: string, raised: bool)
      modifies this`online
      ensures online == RaiseHand(old(online), session, raised)
    {
      var i := 0;
      while i < |online|
        invariant 0 <= i <= |online| == |old(online)|
        invariant forall k :: 0 <= k < i ==> online[k] == RaiseHand(old(online), session, raised)[k]
        invariant forall k :: i <= k < |online| ==> online[k] == old(online)[k]
      {
        if online[i].session == session {
          online := online[i := online[i].(handRaised := raised)];
        }
        i := i + 1;
      }
    }

    method LowerHands()
      modifies this`online
      ensures online == LowerAll(old(online))
    {
      var i := 0;
      while i < |online|
        invariant 0 <= i <= |online| == |old(online)|
        invariant forall k :: 0 <= k < i ==> online[k] == LowerAll(old(online))[k]
        invariant forall k :: i <= k < |online| ==> online[k] == old(online)[k]
      {
        online := online[i := online[i].(handRaised := false)];
        i := i + 1;
      }
    }

    /** The commit of a speak or whisper whose entry is in the file. */
    method Commit(m: Message, charged: Round)
      modifies this`persistedCount, this`round, this`nextSequence, this`publicMessages, this`whisperMessages
      ensures State() == Committed(old(State()), m, charged, store.State(), 1)
    {
      persistedCount := persistedCount + 1;
      round := Some(charged);
      nextSequence := m.sequence;
      if m.recipient.None? {
        publicMessages := publicMessages + [m];
      } else {
        whisperMessages := whisperMessages + [m];
      }
    }

    /** Stages 2 to 5 of a speak (`recipient` absent) or a whisper. */
    method RunPublish(author: OnlineCharacter, recipient: Option<Party>, content: string, basis: Option<nat>,
                      stamp: Stamp, fault: AppendFault) returns (outcome: Outcome)
      requires round.Some?
      modifies this, store
      ensures (State(), outcome) == Publish(old(State()), author, recipient, content, basis, stamp, fault)
    {
      var current := round.value;
      var merged := MergeMessageStreams(publicMessages, whisperMessages);
      var latestOther := ComputeLatestOtherSequence(merged, author.id);
      if basis.Some? && basis.value < latestOther {
        return Stale(basis.value + 1, LastSequence(merged), RoundView(current));
      }
      var canPublish := current.used < current.max;
      if store.fatal {
        return Refused(PersistenceBroken);
      }
      if !canPublish {
        SetHandRaised(author.session, true);
        return RoundLimitReached(RoundInfo(current.max, current.used, 0));
      }
      var charged := Round(current.max, current.used + 1);
      var m := Message(Character(author.id, author.name), recipient, content, stamp.id,
                       nextSequence + 1, stamp.timestamp, RoundView(charged));
      var threw := store.AppendOrRecover(EntryOf(m), fault);
      if threw {
        return Refused(PersistFailed);
      }
      Commit(m, charged);
      SetHandRaised(author.session, false);
      return Published(m);
    }

    method RunSpeak(conn: Connection, content: string, basis: Option<nat>, stamp: Stamp, fault: AppendFault)
      returns (outcome: Outcome)
      modifies this, store
      ensures (State(), outcome) == Speak(old(State()), conn, content, basis, stamp, fault)
    {
      if !conn.online || conn.session.None? {
        return Refused(NotMember);
      }
      if Utf8Length(content) > MAX_CONTENT_BYTES {
        return Refused(TooLarge);
      }
      var author := Find(online, conn.session.value);
      if author.None? {
        return Refused(NotMember);
      }
      if round.None? {
        return Refused(NoActiveRound);
      }
      outcome := RunPublish(author.value, None, content, basis, stamp, fault);
    }

    /** A whisper, and the notices it sends: see `Notices`. */
    method RunWhisper(conn: Connection, target: string, content: string, basis: Option<nat>, open: set<string>,
                      connected: set<string>, stamp: Stamp, fault: AppendFault)
      returns (outcome: Outcome, notices: seq<Notice>)
      requires open <= connected
      modifies this, store
      ensures (State(), outcome) == Whisper(old(State()), conn, target, content, basis, open, stamp, fault)
      ensures !outcome.Published? ==> notices == []
      ensures outcome.Published? ==>
                notices == Notices(outcome.message, old(online), conn.session.value,
                                   FindById(old(online), target).value.session, connected)
    {
      notices := [];
      if !conn.online || conn.session.None? {
        return Refused(NotMember), [];
      }
      if Utf8Length(content) > MAX_CONTENT_BYTES {
        return Refused(TooLarge), [];
      }
      var author := Find(online, conn.session.value);
      if author.None? {
        return Refused(NotMember), [];
      }
      if round.None? {
        return Refused(NoActiveRound), [];
      }
      if target == author.value.id {
        return Refused(WhisperToSelf), [];
      }
      var to := FindById(online, target);
      if to.None? || to.value.session !in open {
        return Refused(TargetOffline), [];
      }
      outcome := RunPublish(author.value, Some(Party(to.value.id, to.value.name)), content, basis, stamp, fault);
      if outcome.Published? {
        notices := Notify(outcome.message, conn.session.value, to.value.session, connected);
        RaiseKeepsSessions(old(online), author.value.session, false, outcome.message, conn.session.value,
                           to.value.session, connected);
      }
    }

    /** One full frame to the recipient, one placeholder to everyone else connected, nothing to the author. */
    method Notify(whisper: Message, senderSession: string, recipientSession: string, connected: set<string>)
      returns (notices: seq<Notice>)
      requires IsWhisper(whisper)
      ensures notices == Notices(whisper, online, senderSession, recipientSession, connected)
    {
      notices := if recipientSession in connected then [Notice(recipientSession, Full(whisper))] else [];
      ghost var head := notices;
      var i := 0;
      while i < |online|
        invariant 0 <= i <= |online|
        invariant notices + PlaceholderNotices(whisper, online[i..], senderSession, recipientSession, connected)
                  == head + PlaceholderNotices(whisper, online, senderSession, recipientSession, connected)
      {
        assert online[i..][1..] == online[i + 1..];
        var session := online[i].session;
        if session != senderSession && session != recipientSession && session in connected {
          notices := notices + [Notice(session, PlaceholderOf(whisper))];
        }
        i := i + 1;
      }
    }

    method RunUserPersona(content: string, nameStamp: Stamp, settingsStamp: Stamp, stamp: Stamp, faults: PersonaFaults)
      returns (outcome: Outcome)
      modifies this, store
      ensures (State(), outcome) == Persona(old(State()), content, nameStamp, settingsStamp, stamp, faults)
    {
      if store.fatal {
        return Refused(PersistenceBroken);
      }
      if Utf8Length(content) > MAX_CONTENT_BYTES {
        return Refused(TooLarge);
      }
      var m := Message(UserPersona, None, content, stamp.id, nextSequence + 1, stamp.timestamp, PersonaRound(limit));
      if persistedCount == 0 {
        var input := FirstInput(header, name, limit, nextSequence + 1, content, nameStamp, settingsStamp, stamp);
        var persisted := store.PersistFirstMessage(input, faults.first);
        if persisted.None? {
          return Refused(PersistFailed);
        }
        persistedCount := persistedCount + persisted.value;
      } else {
        var threw := store.AppendOrRecover(EntryOf(m), faults.append);
        if threw {
          return Refused(PersistFailed);
        }
        persistedCount := persistedCount + 1;
      }
      round := Some(Round(limit, 0));
      nextSequence := m.sequence;
      LowerHands();
      publicMessages := publicMessages + [m];
      return Published(m);
    }

    method SetGroupName(raw: string, described: bool, stamp: Stamp, fault: AppendFault)
      modifies this, store
      ensures State() == SetName(old(State()), raw, described, stamp, fault)
    {
      var normalized := NormalizeName(raw);
      if persistedCount == 0 {
        if described {
          name := normalized;
        }
        return;
      }
      if store.fatal {
        return;
      }
      var e := Entry(stamp.id, stamp.timestamp, SessionInfo(if normalized.Some? then normalized.value else ""));
      var threw := store.AppendOrRecover(e, fault);
      if threw {
        return;
      }
      persistedCount := persistedCount + 1;
      name := normalized;
    }

    method SetMaxMessages(maxMessages: int, stamp: Stamp, fault: AppendFault)
      modifies this, store
      ensures State() == SetLimit(old(State()), maxMessages, stamp, fault)
    {
      if maxMessages < 0 || maxMessages > MAX_SAFE_INTEGER {
        return;
      }
      if persistedCount == 0 {
        limit := maxMessages;
        return;
      }
      if store.fatal {
        return;
      }
      var threw := store.AppendOrRecover(SettingsEntry(stamp, maxMessages), fault);
      if threw {
        return;
      }
      persistedCount := persistedCount + 1;
      limit := maxMessages;
    }
  }

  // ----- the notices of a whisper -----

  function PlaceholderOf(m: Message): Frame
    requires IsWhisper(m)
  {
    Placeholder(m.eventId, m.sequence, m.timestamp, m.sender, m.recipient.value)
  }

  function PlaceholderNotices(m: Message, online: seq<OnlineCharacter>, sender: string, recipient: string,
                              connected: set<string>): seq<Notice>
    requires IsWhisper(m)
  {
    if online == [] then []
    else
      (if online[0].session != sender && online[0].session != recipient && online[0].session in connected then
         [Notice(online[0].session, PlaceholderOf(m))]
       else [])
      + PlaceholderNotices(m, online[1..], sender, recipient, connected)
  }

  function Notices(m: Message, online: seq<OnlineCharacter>, sender: string, recipient: string,
                   connected: set<string>): seq<Notice>
    requires IsWhisper(m)
  {
    (if recipient in connected then [Notice(recipient, Full(m))] else [])
    + PlaceholderNotices(m, online, sender, recipient, connected)
  }

  lemma {:induction false} PlaceholderNoticesFacts(m: Message, online: seq<OnlineCharacter>, sender: string,
                                                   recipient: string, connected: set<string>)
    requires IsWhisper(m)
    ensures forall n | n in PlaceholderNotices(m, online, sender, recipient, connected) ::
              n.frame == PlaceholderOf(m) && Tells(n.frame, m) && n.session != sender && n.session != recipient
    ensures forall o | o in online && o.session != sender && o.session != recipient && o.session in connected ::
              Notice(o.session, PlaceholderOf(m)) in PlaceholderNotices(m, online, sender, recipient, connected)
  {
    if online != [] {
      PlaceholderNoticesFacts(m, online[1..], sender, recipient, connected);
      assert online == [online[0]] + online[1..];
    }
  }

  /**
    Whisper privacy on the wire: the text goes to the recipient's session and
    nobody else; the author's session hears nothing; every other connected member
    gets the placeholder.
    */
  lemma WhisperReachesRecipientOnly(m: Message, online: seq<OnlineCharacter>, sender: string, recipient: string,
                                    connected: set<string>)
    requires IsWhisper(m) && sender != recipient
    ensures forall n | n in Notices(m, online, sender, recipient, connected) ::
              n.session != sender && if n.session == recipient then n.frame == Full(m) else Tells(n.frame, m)
    ensures recipient in connected ==> Notice(recipient, Full(m)) in Notices(m, online, sender, recipient, connected)
    ensures forall o | o in online && o.session != sender && o.session != recipient && o.session in connected ::
              Notice(o.session, PlaceholderOf(m)) in Notices(m, online, sender, recipient, connected)
  {
    PlaceholderNoticesFacts(m, online, sender, recipient, connected);
  }

  lemma {:induction false} SameSessionsSameNotices(m: Message, a: seq<OnlineCharacter>, b: seq<OnlineCharacter>,
                                                   sender: string, recipient: string, connected: set<string>)
    requires IsWhisper(m) && |a| == |b| && forall i :: 0 <= i < |a| ==> a[i].session == b[i].session
    ensures PlaceholderNotices(m, a, sender, recipient, connected)
            == PlaceholderNotices(m, b, sender, recipient, connected)
  {
    if a != [] {
      SameSessionsSameNotices(m, a[1..], b[1..], sender, recipient, connected);
    }
  }

  /** Raising or lowering a hand does not change who is notified. */
  lemma RaiseKeepsSessions(online: seq<OnlineCharacter>, session: string, raised: bool, m: Message,
                           sender: string, recipient: string, connected: set<string>)
    requires IsWhisper(m)
    ensures Notices(m, RaiseHand(online, session, raised), sender, recipient, connected)
            == Notices(m, online, sender, recipient, connected)
  {
    SameSessionsSameNotices(m, RaiseHand(online, session, raised), online, sender, recipient, connected);
  }

  // ----- the resume scan -----

  /** The scan as the source runs it: one pass over the entries, updating six variables. */
  method ScanEntries(entries: seq<Entry>, config: nat) returns (s: Snapshot)
    ensures s == Scan(entries, config)
  {
    var name: Option<string> := None;
    var limit: nat := config;
    var round: Option<Round> := None;
    var nextSequence: nat := 0;
    var publics: seq<Message>, whispers: seq<Message> := [], [];
    var count := CountPersistedEntries(entries);
    var i := 0;
    while i < |entries|
      invariant 0 <= i <= |entries|
      invariant Snapshot(name, limit, round, nextSequence, publics, whispers, Owned(entries[..i]))
                == Scan(entries[..i], config)
    {
      assert entries[..i + 1][..i] == entries[..i];
      var e := entries[i];
      match e.payload {
        case SessionInfo(raw) =>
          name := ScannedName(raw);
        case Settings(max) =>
          if max.Some? && 0 <= max.value <= MAX_SAFE_INTEGER {
            limit := max.value;
          }
        case PublicEntry(details) =>
          if details.Some? {
            var d := details.value;
            publics := publics + [Message(d.sender, None, d.content, e.id, d.sequence, e.timestamp, d.round)];
            nextSequence := d.sequence;
            round := Some(Round(d.round.max, d.round.used));
          }
        case WhisperEntry(details, to) =>
          if details.Some? {
            var d := details.value;
            whispers := whispers + [Message(d.sender, Some(to), d.content, e.id, d.sequence, e.timestamp, d.round)];
            nextSequence := d.sequence;
            round := Some(Round(d.round.max, d.round.used));
          }
        case Foreign =>
      }
      i := i + 1;
    }
    assert entries[..|entries|] == entries;
    s := Snapshot(name, limit, round, nextSequence, publics, whispers, count);
  }

  /** How many entries the group chat owns. */
  function Owned(entries: seq<Entry>): nat {
    if entries == [] then 0
    else Owned(entries[..|entries| - 1]) + (if entries[|entries| - 1].payload.Foreign? then 0 else 1)
  }

  method CountPersistedEntries(entries: seq<Entry>) returns (count: nat)
    ensures count == Owned(entries)
  {
    count := 0;
    var i := 0;
    while i < |entries|
      invariant 0 <= i <= |entries|
      invariant count == Owned(entries[..i])
    {
      assert entries[..i + 1][..i] == entries[..i];
      if !entries[i].payload.Foreign? {
        count := count + 1;
      }
      i := i + 1;
    }
    assert entries[..|entries|] == entries;
  }
}
