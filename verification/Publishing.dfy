/**
  What a request leaves behind, field by field: the message that is published, its
  entry in the file, the round it is charged to, the hands, and for every request
  that is refused the reason.
  */
module Publishing {
  import opened Common
  import opened Messages
  import opened SessionStore
  import opened Creator
  import opened CreatorProofs
  import opened Text

  // ----- who is online -----

  /** `o` is the first entry of the online table for `session`. */
  ghost predicate IsOnline(online: seq<OnlineCharacter>, session: string, o: OnlineCharacter) {
    exists i :: 0 <= i < |online| && online[i] == o && o.session == session
                && forall j :: 0 <= j < i ==> online[j].session != session
  }

  ghost predicate PlaysFirst(online: seq<OnlineCharacter>, id: string, o: OnlineCharacter) {
    exists i :: 0 <= i < |online| && online[i] == o && o.id == id && forall j :: 0 <= j < i ==> online[j].id != id
  }

  lemma {:induction false} FindFacts(online: seq<OnlineCharacter>, session: string)
    ensures Find(online, session).Some? ==> IsOnline(online, session, Find(online, session).value)
    ensures Find(online, session).None? <==> forall o | o in online :: o.session != session
  {
    if online != [] {
      assert online == [online[0]] + online[1..];
      FindFacts(online[1..], session);
      if online[0].session != session && Find(online, session).Some? {
        var o := Find(online, session).value;
        var i :| 0 <= i < |online[1..]| && online[1..][i] == o && o.session == session
                 && forall j :: 0 <= j < i ==> online[1..][j].session != session;
        assert online[i + 1] == o;
        forall j | 0 <= j < i + 1 ensures online[j].session != session {
          if j > 0 {
            assert online[1..][j - 1] == online[j];
          }
        }
      } else if online[0].session == session {
        assert online[0] == Find(online, session).value;
      }
    }
  }

  lemma {:induction false} FindByIdFacts(online: seq<OnlineCharacter>, id: string)
    ensures FindById(online, id).Some? ==> PlaysFirst(online, id, FindById(online, id).value)
    ensures FindById(online, id).None? <==> forall o | o in online :: o.id != id
  {
    if online != [] {
      assert online == [online[0]] + online[1..];
      FindByIdFacts(online[1..], id);
      if online[0].id != id && FindById(online, id).Some? {
        var o := FindById(online, id).value;
        var i :| 0 <= i < |online[1..]| && online[1..][i] == o && o.id == id
                 && forall j :: 0 <= j < i ==> online[1..][j].id != id;
        assert online[i + 1] == o;
        forall j | 0 <= j < i + 1 ensures online[j].id != id {
          if j > 0 {
            assert online[1..][j - 1] == online[j];
          }
        }
      } else if online[0].id == id {
        assert online[0] == FindById(online, id).value;
      }
    }
  }

  // ----- what publishing writes -----

  /** The message `author` publishes as number `sequence`, the round's `used` + 1st. */
  function Authors(author: OnlineCharacter, recipient: Option<Party>, content: string, stamp: Stamp, sequence: nat,
                   round: Round): Message
    requires round.used < round.max
  {
    Message(Character(author.id, author.name), recipient, content, stamp.id, sequence, stamp.timestamp,
            RoundInfo(round.max, round.used + 1, round.max - round.used - 1))
  }

  /** The entry tells every field of the message. */
  predicate Records(e: Entry, m: Message) {
    && e.id == m.eventId && e.timestamp == m.timestamp
    && (m.recipient.None? ==> e.payload.PublicEntry?)
    && (m.recipient.Some? ==> e.payload.WhisperEntry? && e.payload.recipient == m.recipient.value)
    && (var details := if e.payload.PublicEntry? || e.payload.WhisperEntry? then e.payload.details else None;
        details == Some(Details(m.sender, m.content, m.sequence, m.round)))
  }

  /** The file has grown by the entry of `m`. */
  ghost predicate FileGrowsBy(before: Disk, after: Disk, m: Message) {
    && before.File? && after.File? && after.header == before.header
    && exists e :: Records(e, m) && after.entries == before.entries + [e]
  }

  /** The hands of one session are set, and nothing else in the online table has changed. */
  predicate HandsSet(before: seq<OnlineCharacter>, after: seq<OnlineCharacter>, session: string, raised: bool) {
    && |after| == |before|
    && forall i :: 0 <= i < |before| ==>
         && after[i].session == before[i].session && after[i].id == before[i].id && after[i].name == before[i].name
         && after[i].handRaised == if before[i].session == session then raised else before[i].handRaised
  }

  /** Nobody's hand is up, and nothing else in the online table has changed. */
  predicate HandsLowered(before: seq<OnlineCharacter>, after: seq<OnlineCharacter>) {
    && |after| == |before|
    && forall i :: 0 <= i < |before| ==>
         && after[i].session == before[i].session && after[i].id == before[i].id && after[i].name == before[i].name
         && !after[i].handRaised
  }

  lemma RoundMeansFile(c: Creator)
    requires Good(c) && c.round.Some?
    ensures c.persisted > 0 && c.store.disk.File? && c.nextSequence == |Log(c)|
  {
  }

  lemma EntryRecords(m: Message)
    ensures Records(EntryOf(m), m)
  {
  }

  lemma HandsAreSet(online: seq<OnlineCharacter>, session: string, raised: bool)
    ensures HandsSet(online, RaiseHand(online, session, raised), session, raised)
    ensures HandsLowered(online, LowerAll(online))
  {
  }

  /** A commit whose message is known. */
  ghost predicate PublishedAs(c: Creator, d: Creator, m: Message, round: Round) {
    && Log(d) == Log(c) + [m]
    && d.nextSequence == |Log(c)| + 1
    && d.round == Some(round)
    && d.name == c.name && d.limit == c.limit
    && d.persisted == c.persisted + 1
    && FileGrowsBy(c.store.disk, d.store.disk, m)
  }

  lemma CommitIsPublished(c: Creator, m: Message, round: Round)
    requires Good(c) && c.persisted > 0 && m.sequence == c.nextSequence + 1
    ensures PublishedAs(c, Committed(c, m, round, Appended(c.store, EntryOf(m), true), 1), m, round)
  {
    EntryRecords(m);
    CommitExtends(c, m, round, Appended(c.store, EntryOf(m), true), 1);
  }

  lemma PublishIsCommit(c: Creator, author: OnlineCharacter, recipient: Option<Party>, content: string,
                        basis: Option<nat>, stamp: Stamp, fault: AppendFault)
    requires c.round.Some? && Publish(c, author, recipient, content, basis, stamp, fault).1.Published?
    ensures
      var (d, outcome) := Publish(c, author, recipient, content, basis, stamp, fault);
      var r := c.round.value;
      && r.used < r.max
      && outcome.message == Authors(author, recipient, content, stamp, c.nextSequence + 1, r)
      && var store := Appended(c.store, EntryOf(outcome.message), true);
         d == Committed(c, outcome.message, Round(r.max, r.used + 1), store, 1)
                .(online := RaiseHand(c.online, author.session, false))
  {
  }

  lemma OnlineApart(c: Creator, d: Creator, m: Message, round: Round, online: seq<OnlineCharacter>)
    requires PublishedAs(c, d, m, round)
    ensures PublishedAs(c, d.(online := online), m, round)
  {
  }

  /**
    A publication: exactly this message, with the author's name and the text it was
    given, charged to the round, written to the file, and the author's hand lowered.
    */
  lemma PublishWrites(c: Creator, author: OnlineCharacter, recipient: Option<Party>, content: string,
                      basis: Option<nat>, stamp: Stamp, fault: AppendFault)
    requires Good(c) && c.round.Some?
    requires Publish(c, author, recipient, content, basis, stamp, fault).1.Published?
    ensures
      var (d, outcome) := Publish(c, author, recipient, content, basis, stamp, fault);
      var r := c.round.value;
      && r.used < r.max
      && outcome.message == Authors(author, recipient, content, stamp, |Log(c)| + 1, r)
      && PublishedAs(c, d, outcome.message, Round(r.max, r.used + 1))
      && HandsSet(c.online, d.online, author.session, false)
  {
    var m, r := Publish(c, author, recipient, content, basis, stamp, fault).1.message, c.round.value;
    var round := Round(r.max, r.used + 1);
    RoundMeansFile(c);
    PublishIsCommit(c, author, recipient, content, basis, stamp, fault);
    HandsAreSet(c.online, author.session, false);
    CommitIsPublished(c, m, round);
    OnlineApart(c, Committed(c, m, round, Appended(c.store, EntryOf(m), true), 1), m, round,
                RaiseHand(c.online, author.session, false));
  }

  /** Nothing but the hands and the manager's memory can change when nothing is published. */
  ghost predicate Unpublished(c: Creator, d: Creator) {
    Live(d) == Live(c) && d.store.disk == c.store.disk
  }

  /**
    The other ends of a publication: stale names what is missing, a spent round raises
    the author's hand, and a store that cannot write refuses.
    */
  lemma PublishRefuses(c: Creator, author: OnlineCharacter, recipient: Option<Party>, content: string,
                       basis: Option<nat>, stamp: Stamp, fault: AppendFault)
    requires Good(c) && c.round.Some?
    requires !Publish(c, author, recipient, content, basis, stamp, fault).1.Published?
    ensures
      var (d, outcome) := Publish(c, author, recipient, content, basis, stamp, fault);
      var r := c.round.value;
      var stale := Behind(c, author.id, basis);
      && Unpublished(c, d)
      && (stale ==> d == c && outcome == Stale(basis.value + 1, |Log(c)|, RoundInfo(r.max, r.used, r.max - r.used)))
      && (!stale && c.store.fatal ==> d == c && outcome == Refused(PersistenceBroken))
      && (!stale && !c.store.fatal && r.used == r.max ==>
            && outcome == RoundLimitReached(RoundInfo(r.max, r.max, 0))
            && d == c.(online := d.online) && HandsSet(c.online, d.online, author.session, true))
      && (!stale && !c.store.fatal && r.used < r.max ==>
            fault.AppendFails? && outcome == Refused(PersistFailed) && d.online == c.online)
  {
    RoundMeansFile(c);
    HandsAreSet(c.online, author.session, true);
    if basis.Some? {
      StaleIff(Log(c), author.id, basis.value);
    }
  }

  // ----- speak and whisper -----

  /** Something that counts for `who` came after the basis. */
  ghost predicate Behind(c: Creator, who: string, basis: Option<nat>) {
    basis.Some? && exists i :: basis.value <= i < |Log(c)| && Counts(Log(c)[i], who)
  }

  /** A member, a text of at most 64 KiB, and an open round. */
  ghost predicate MayPublish(c: Creator, conn: Connection, content: string) {
    && conn.online && conn.session.Some?
    && Utf8Length(content) <= 64 * 1024
    && (exists o | o in c.online :: o.session == conn.session.value)
    && c.round.Some?
  }

  lemma VetIff(c: Creator, conn: Connection, content: string)
    ensures Vet(c, conn, content).None? <==> MayPublish(c, conn, content)
    ensures Vet(c, conn, content) == Some(TooLarge)
            <==> conn.online && conn.session.Some? && Utf8Length(content) > 64 * 1024
    ensures Vet(c, conn, content) == Some(NoActiveRound)
            <==> && conn.online && conn.session.Some? && Utf8Length(content) <= 64 * 1024
                 && (exists o | o in c.online :: o.session == conn.session.value) && c.round.None?
    ensures Vet(c, conn, content).Some? ==> Vet(c, conn, content).value in {NotMember, TooLarge, NoActiveRound}
  {
    if conn.session.Some? {
      FindFacts(c.online, conn.session.value);
    }
  }

  /** A speak publishes under the name its session has in the online table, to everyone. */
  lemma SpeakWrites(c: Creator, conn: Connection, content: string, basis: Option<nat>, stamp: Stamp,
                    fault: AppendFault)
    requires Good(c)
    ensures
      var (d, outcome) := Speak(c, conn, content, basis, stamp, fault);
      && (!MayPublish(c, conn, content) ==> d == c && outcome.Refused? && Vet(c, conn, content) == Some(outcome.reason))
      && (outcome.Published? ==>
            && MayPublish(c, conn, content)
            && c.round.value.used < c.round.value.max
            && exists author ::
                 && IsOnline(c.online, conn.session.value, author)
                 && outcome.message == Authors(author, None, content, stamp, |Log(c)| + 1, c.round.value)
                 && PublishedAs(c, d, outcome.message, Round(c.round.value.max, c.round.value.used + 1))
                 && HandsSet(c.online, d.online, conn.session.value, false))
  {
    VetIff(c, conn, content);
    if Speak(c, conn, content, basis, stamp, fault).1.Published? {
      FindFacts(c.online, conn.session.value);
      var author := Find(c.online, conn.session.value).value;
      PublishWrites(c, author, None, content, basis, stamp, fault);
      assert IsOnline(c.online, conn.session.value, author);
    }
  }

  /** When a speak is published, and when it is stale. */
  lemma SpeakPublishesIff(c: Creator, conn: Connection, content: string, basis: Option<nat>, stamp: Stamp,
                          fault: AppendFault)
    requires Good(c) && MayPublish(c, conn, content)
    ensures
      var outcome := Speak(c, conn, content, basis, stamp, fault).1;
      exists author ::
        && IsOnline(c.online, conn.session.value, author)
        && (outcome.Stale? <==> Behind(c, author.id, basis))
        && (outcome.Published? <==> && !Behind(c, author.id, basis) && !c.store.fatal
                                    && c.round.value.used < c.round.value.max && fault.Appends?)
  {
    VetIff(c, conn, content);
    FindFacts(c.online, conn.session.value);
    var author := Find(c.online, conn.session.value).value;
    PublishingIff(c, author, None, content, basis, stamp, fault);
    assert IsOnline(c.online, conn.session.value, author);
  }

  lemma PublishingIff(c: Creator, author: OnlineCharacter, recipient: Option<Party>, content: string,
                      basis: Option<nat>, stamp: Stamp, fault: AppendFault)
    requires Good(c) && c.round.Some?
    ensures
      var outcome := Publish(c, author, recipient, content, basis, stamp, fault).1;
      && (outcome.Stale? <==> Behind(c, author.id, basis))
      && (outcome.Published? <==> && !Behind(c, author.id, basis) && !c.store.fatal
                                  && c.round.value.used < c.round.value.max && fault.Appends?)
  {
    if !Publish(c, author, recipient, content, basis, stamp, fault).1.Published? {
      PublishRefuses(c, author, recipient, content, basis, stamp, fault);
    } else if basis.Some? {
      StaleIff(Log(c), author.id, basis.value);
    }
  }

  /** A whisper publishes to the online character it names. */
  lemma WhisperWrites(c: Creator, conn: Connection, target: string, content: string, basis: Option<nat>,
                      open: set<string>, stamp: Stamp, fault: AppendFault)
    requires Good(c)
    ensures
      var (d, outcome) := Whisper(c, conn, target, content, basis, open, stamp, fault);
      && (!MayPublish(c, conn, content) ==> d == c && outcome.Refused? && Vet(c, conn, content) == Some(outcome.reason))
      && (outcome.Published? ==>
            && MayPublish(c, conn, content)
            && c.round.value.used < c.round.value.max
            && exists author, to ::
                 && IsOnline(c.online, conn.session.value, author) && author.id != target
                 && PlaysFirst(c.online, target, to) && to.session in open
                 && outcome.message
                    == Authors(author, Some(Party(target, to.name)), content, stamp, |Log(c)| + 1, c.round.value)
                 && PublishedAs(c, d, outcome.message, Round(c.round.value.max, c.round.value.used + 1))
                 && HandsSet(c.online, d.online, conn.session.value, false))
  {
    VetIff(c, conn, content);
    if Whisper(c, conn, target, content, basis, open, stamp, fault).1.Published? {
      FindFacts(c.online, conn.session.value);
      FindByIdFacts(c.online, target);
      var author, to := Find(c.online, conn.session.value).value, FindById(c.online, target).value;
      PublishWrites(c, author, Some(Party(target, to.name)), content, basis, stamp, fault);
      assert IsOnline(c.online, conn.session.value, author) && PlaysFirst(c.online, target, to);
    }
  }

  /** The two refusals of a whisper that a speak does not have. */
  lemma WhisperRefuses(c: Creator, conn: Connection, target: string, content: string, basis: Option<nat>,
                       open: set<string>, stamp: Stamp, fault: AppendFault)
    requires Good(c) && MayPublish(c, conn, content)
    ensures
      var (d, outcome) := Whisper(c, conn, target, content, basis, open, stamp, fault);
      var self := exists o :: IsOnline(c.online, conn.session.value, o) && o.id == target;
      var reached := exists o :: PlaysFirst(c.online, target, o) && o.session in open;
      && (self <==> outcome == Refused(WhisperToSelf))
      && (!self && !reached <==> outcome == Refused(TargetOffline))
      && (self || !reached ==> d == c)
  {
    VetIff(c, conn, content);
    FindFacts(c.online, conn.session.value);
    FindByIdFacts(c.online, target);
    FirstIsFind(c.online, conn.session.value);
    FirstIsFindById(c.online, target);
  }

  lemma FirstIsFind(online: seq<OnlineCharacter>, session: string)
    ensures forall o | IsOnline(online, session, o) :: Find(online, session) == Some(o)
  {
    FindFacts(online, session);
    forall o | IsOnline(online, session, o) ensures Find(online, session) == Some(o) {
      var i :| 0 <= i < |online| && online[i] == o && o.session == session
               && forall j :: 0 <= j < i ==> online[j].session != session;
      assert online[i] in online;
      var p := Find(online, session).value;
      var k :| 0 <= k < |online| && online[k] == p && p.session == session
               && forall j :: 0 <= j < k ==> online[j].session != session;
      assert i == k;
    }
  }

  lemma FirstIsFindById(online: seq<OnlineCharacter>, id: string)
    ensures forall o | PlaysFirst(online, id, o) :: FindById(online, id) == Some(o)
  {
    FindByIdFacts(online, id);
    forall o | PlaysFirst(online, id, o) ensures FindById(online, id) == Some(o) {
      var i :| 0 <= i < |online| && online[i] == o && o.id == id && forall j :: 0 <= j < i ==> online[j].id != id;
      assert online[i] in online;
      var p := FindById(online, id).value;
      var k :| 0 <= k < |online| && online[k] == p && p.id == id && forall j :: 0 <= j < k ==> online[j].id != id;
      assert i == k;
    }
  }

  // ----- the persona -----

  /** The first persist, or the append, succeeds. */
  predicate Persists(c: Creator, faults: PersonaFaults) {
    if c.persisted == 0 then
      && faults.first.write == Written && faults.first.open.Loaded?
      && (c.name.Some? && c.name.value != "" ==> faults.first.name) && faults.first.settings && faults.first.message
    else faults.append.Appends?
  }

  ghost predicate FileEndsWith(disk: Disk, m: Message) {
    disk.File? && disk.entries != [] && Records(disk.entries[|disk.entries| - 1], m)
  }

  /** The persona has spoken: the message, the round it opens, the file and the hands. */
  ghost predicate Opened(c: Creator, d: Creator, outcome: Outcome, content: string, stamp: Stamp) {
    var view := RoundInfo(c.limit, 0, c.limit);
    var m := Message(UserPersona, None, content, stamp.id, |Log(c)| + 1, stamp.timestamp, view);
    && outcome == Published(m)
    && Log(d) == Log(c) + [m]
    && d.nextSequence == |Log(c)| + 1 && d.round == Some(Round(c.limit, 0))
    && d.name == c.name && d.limit == c.limit
    && FileEndsWith(d.store.disk, m) && HandsLowered(c.online, d.online)
  }

  /** The persona's message opens a round of the current limit and lowers every hand, or nothing changes. */
  lemma PersonaWrites(c: Creator, content: string, nameStamp: Stamp, settingsStamp: Stamp, stamp: Stamp,
                      faults: PersonaFaults)
    requires Good(c)
    ensures
      var (d, outcome) := Persona(c, content, nameStamp, settingsStamp, stamp, faults);
      if c.store.fatal then d == c && outcome == Refused(PersistenceBroken)
      else if Utf8Length(content) > 64 * 1024 then d == c && outcome == Refused(TooLarge)
      else if !Persists(c, faults) then
        Live(d) == Live(c) && d.online == c.online && outcome == Refused(PersistFailed)
      else Opened(c, d, outcome, content, stamp)
  {
    if !c.store.fatal && Utf8Length(content) <= 64 * 1024 && Persists(c, faults) {
      if c.persisted == 0 {
        FirstPersonaWrites(c, content, nameStamp, settingsStamp, stamp, faults);
      } else {
        LaterPersonaWrites(c, content, nameStamp, settingsStamp, stamp, faults);
      }
    } else if c.persisted == 0 && !c.store.fatal {
      FirstPersistAllOrFatal(c.store, PersonaInput(c, content, nameStamp, settingsStamp, stamp), faults.first);
    }
  }

  lemma FirstPersonaWrites(c: Creator, content: string, nameStamp: Stamp, settingsStamp: Stamp, stamp: Stamp,
                           faults: PersonaFaults)
    requires Good(c) && c.persisted == 0 && !c.store.fatal && Utf8Length(content) <= 64 * 1024 && Persists(c, faults)
    ensures
      var (d, outcome) := Persona(c, content, nameStamp, settingsStamp, stamp, faults);
      Opened(c, d, outcome, content, stamp)
  {
    var input := PersonaInput(c, content, nameStamp, settingsStamp, stamp);
    FirstPersistAllOrFatal(c.store, input, faults.first);
    var m := PersonaMessage(c, content, stamp);
    HandsAreSet(c.online, "", false);
    CommitExtends(c, m, Round(c.limit, 0), FirstPersisted(c.store, input, faults.first).0, |FirstEntries(input)|);
  }

  lemma LaterPersonaWrites(c: Creator, content: string, nameStamp: Stamp, settingsStamp: Stamp, stamp: Stamp,
                           faults: PersonaFaults)
    requires Good(c) && c.persisted > 0 && !c.store.fatal && Utf8Length(content) <= 64 * 1024 && Persists(c, faults)
    ensures
      var (d, outcome) := Persona(c, content, nameStamp, settingsStamp, stamp, faults);
      Opened(c, d, outcome, content, stamp)
  {
    var m := PersonaMessage(c, content, stamp);
    HandsAreSet(c.online, "", false);
    CommitIsPublished(c, m, Round(c.limit, 0));
  }

  // ----- the name and the limit -----

  /** A rename or a new limit changes that alone, and only if it could be written. */
  lemma SetNameWrites(c: Creator, raw: string, described: bool, stamp: Stamp, fault: AppendFault)
    requires Good(c)
    ensures
      var d := SetName(c, raw, described, stamp, fault);
      var kept := if c.persisted == 0 then described else !c.store.fatal && fault.Appends?;
      && d.name == (if kept then NormalizeName(raw) else c.name)
      && Live(d) == Live(c).(name := d.name, count := d.persisted)
      && d.online == c.online
      && (kept && c.persisted > 0 ==>
            && d.persisted == c.persisted + 1 && c.store.disk.File? && d.store.disk.File?
            && |d.store.disk.entries| == |c.store.disk.entries| + 1
            && d.store.disk.entries[|c.store.disk.entries|].payload == SessionInfo(NormalizeName(raw).GetOr("")))
      && (!kept || c.persisted == 0 ==> d.persisted == c.persisted && d.store.disk == c.store.disk)
  {
  }

  lemma SetLimitWrites(c: Creator, limit: int, stamp: Stamp, fault: AppendFault)
    requires Good(c)
    ensures
      var d := SetLimit(c, limit, stamp, fault);
      var kept := && 0 <= limit <= 9007199254740991
                  && (c.persisted == 0 || (!c.store.fatal && fault.Appends?));
      && d.limit == (if kept then limit else c.limit)
      && Live(d) == Live(c).(limit := d.limit, count := d.persisted)
      && d.online == c.online
      && (kept && c.persisted > 0 ==>
            && d.persisted == c.persisted + 1 && c.store.disk.File? && d.store.disk.File?
            && |d.store.disk.entries| == |c.store.disk.entries| + 1
            && d.store.disk.entries[|c.store.disk.entries|].payload == Settings(Some(limit)))
      && (!kept || c.persisted == 0 ==> d.persisted == c.persisted && d.store.disk == c.store.disk)
  {
  }

  // ----- text -----

  /** The bytes of a character in UTF-8, by section 3 of RFC 3629. */
  function Utf8(c: char): seq<nat> {
    var n := c as int;
    if n < 0x80 then [n]
    else if n < 0x800 then [0xC0 + n / 0x40, 0x80 + n % 0x40]
    else if n < 0x10000 then [0xE0 + n / 0x1000, 0x80 + n / 0x40 % 0x40, 0x80 + n % 0x40]
    else [0xF0 + n / 0x40000, 0x80 + n / 0x1000 % 0x40, 0x80 + n / 0x40 % 0x40, 0x80 + n % 0x40]
  }

  function Utf8Text(s: string): seq<nat> {
    if s == "" then [] else Utf8(s[0]) + Utf8Text(s[1..])
  }

  /** The size of a text is the number of its bytes. */
  lemma {:induction false} Utf8Counts(s: string)
    ensures Utf8Length(s) == |Utf8Text(s)|
  {
    if s != "" {
      Utf8Counts(s[1..]);
    }
  }

  predicate IsBreak(c: char) {
    c == '\r' || c == '\n'
  }

  predicate AllBreaks(s: string) {
    forall i :: 0 <= i < |s| ==> IsBreak(s[i])
  }

  predicate NoBreaks(s: string) {
    forall i :: 0 <= i < |s| ==> !IsBreak(s[i])
  }

  /** Text without a line break is left alone. */
  lemma {:induction false} JoinLinesKeeps(s: string)
    requires NoBreaks(s)
    ensures JoinLines(s) == s
  {
    if s != "" {
      JoinLinesKeeps(s[1..]);
    }
  }

  /** A run of breaks between two pieces becomes one space. */
  lemma {:induction false} JoinLinesJoins(front: string, breaks: string, rest: string)
    requires NoBreaks(front) && breaks != "" && AllBreaks(breaks) && (rest != "" ==> !IsBreak(rest[0]))
    ensures JoinLines(front + breaks + rest) == front + " " + JoinLines(rest)
    decreases |front| + |breaks|
  {
    var s := front + breaks + rest;
    if front != "" {
      assert s[1..] == front[1..] + breaks + rest;
      JoinLinesJoins(front[1..], breaks, rest);
      assert front + " " + JoinLines(rest) == [front[0]] + (front[1..] + " " + JoinLines(rest));
    } else if |breaks| > 1 {
      assert s[1..] == "" + breaks[1..] + rest;
      JoinLinesJoins("", breaks[1..], rest);
    } else {
      assert s[1..] == rest;
    }
  }

  predicate AllSpaces(s: string) {
    forall i :: 0 <= i < |s| ==> IsSpace(s[i])
  }

  /** Trimming takes the white space at both ends and nothing else. */
  lemma TrimTakesEnds(s: string) returns (i: nat, j: nat)
    ensures i <= j <= |s| && Trim(s) == s[i..j] && AllSpaces(s[..i]) && AllSpaces(s[j..])
    ensures i < j ==> !IsSpace(s[i]) && !IsSpace(s[j - 1])
  {
    i := TrimStartTakes(s);
    j := TrimEndTakes(s[i..]);
    assert s[i..][..j] == s[i..i + j] && s[i..][j..] == s[i + j..];
    if j > 0 {
      assert s[i..][j - 1] == s[i + j - 1];
    }
    j := i + j;
  }

  lemma {:induction false} TrimStartTakes(s: string) returns (i: nat)
    ensures i <= |s| && TrimStart(s) == s[i..] && AllSpaces(s[..i]) && (i < |s| ==> !IsSpace(s[i]))
  {
    i := 0;
    if s != "" && IsSpace(s[0]) {
      i := TrimStartTakes(s[1..]);
      i := i + 1;
      assert s[1..][i - 1..] == s[i..];
      forall k | 0 <= k < |s[..i]| ensures IsSpace(s[..i][k]) {
        if k > 0 {
          assert s[1..][..i - 1][k - 1] == s[k];
        }
      }
    }
  }

  lemma {:induction false} TrimEndTakes(s: string) returns (j: nat)
    ensures j <= |s| && TrimEnd(s) == s[..j] && AllSpaces(s[j..]) && (j > 0 ==> !IsSpace(s[j - 1]))
  {
    j := |s|;
    if s != "" && IsSpace(s[|s| - 1]) {
      j := TrimEndTakes(s[..|s| - 1]);
      assert s[..|s| - 1][..j] == s[..j];
      forall k | 0 <= k < |s[j..]| ensures IsSpace(s[j..][k]) {
        if j + k < |s| - 1 {
          assert s[..|s| - 1][j..][k] == s[j + k];
        }
      }
    }
  }

  lemma {:induction false} JoinLinesPrefix(front: string, rest: string)
    requires NoBreaks(front)
    ensures JoinLines(front + rest) == front + JoinLines(rest)
  {
    if front == "" {
      assert front + rest == rest;
    } else {
      assert (front + rest)[1..] == front[1..] + rest;
      JoinLinesPrefix(front[1..], rest);
      assert front + JoinLines(rest) == [front[0]] + (front[1..] + JoinLines(rest));
    }
  }

  /** A name in one line is what is left of it without white space at its ends, if anything is. */
  lemma NameOfOneLine(raw: string)
    requires NoBreaks(raw)
    ensures NormalizeName(raw) == if AllSpaces(raw) then None else Some(Trim(raw))
  {
    JoinLinesKeeps(raw);
    var i, j := TrimTakesEnds(raw);
    if Trim(raw) == "" {
      assert raw == raw[..i] + raw[j..];
    } else {
      assert !IsSpace(raw[i]);
    }
  }

  /** In a name a run of line breaks is as good as one space. */
  lemma NameOfManyLines(front: string, breaks: string, rest: string)
    requires NoBreaks(front) && breaks != "" && AllBreaks(breaks) && (rest != "" ==> !IsBreak(rest[0]))
    ensures NormalizeName(front + breaks + rest) == NormalizeName(front + " " + rest)
  {
    JoinLinesJoins(front, breaks, rest);
    JoinLinesPrefix(front + " ", rest);
  }
}
