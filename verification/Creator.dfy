/**
  The creator's state and its publishing pipelines as functions: what one
  request does to the group chat, with every persistence failure as an input.
  */
module Creator {
  import opened Common
  import opened Messages
  import opened SessionStore
  import opened Text

  const MAX_CONTENT_BYTES: nat := 64 * 1024
  const MAX_SAFE_INTEGER: nat := 9007199254740991

  datatype Round = Round(max: nat, used: nat)

  /** One entry of the online table, which keeps insertion order. */
  datatype OnlineCharacter = OnlineCharacter(session: string, id: string, name: string, handRaised: bool)

  datatype Creator = Creator(
    name: Option<string>,
    limit: nat,
    round: Option<Round>,
    nextSequence: nat,
    publics: seq<Message>,
    whispers: seq<Message>,
    persisted: nat,
    online: seq<OnlineCharacter>,
    header: Header,
    config: nat,
    store: Store)

  datatype Connection = Connection(session: Option<string>, online: bool)

  datatype Refusal =
    | NotMember | TooLarge | NoActiveRound | WhisperToSelf | TargetOffline
    | PersistFailed | PersistenceBroken | InvalidLimit

  datatype Outcome =
    | Published(message: Message)
    | Stale(missingFrom: nat, missingTo: nat, round: RoundInfo)
    | RoundLimitReached(round: RoundInfo)
    | Refused(reason: Refusal)

  // ----- text -----

  function Utf8Size(c: char): nat {
    if c < '\U{0080}' then 1 else if c < '\U{0800}' then 2 else if c < '\U{10000}' then 3 else 4
  }

  function Utf8Length(s: string): nat {
    if s == "" then 0 else Utf8Size(s[0]) + Utf8Length(s[1..])
  }

  /** Each run of line breaks becomes one space. */
  function JoinLines(s: string): string {
    if s == "" then ""
    else if s[0] !in {'\r', '\n'} then [s[0]] + JoinLines(s[1..])
    else if |s| > 1 && s[1] in {'\r', '\n'} then JoinLines(s[1..])
    else " " + JoinLines(s[1..])
  }

  function NonEmpty(s: string): Option<string> {
    if s == "" then None else Some(s)
  }

  function NormalizeName(raw: string): Option<string> {
    NonEmpty(Trim(JoinLines(raw)))
  }

  /** What the resume scan makes of a persisted name. */
  function ScannedName(raw: string): Option<string> {
    NonEmpty(Trim(raw))
  }

  /** A stored name is read back as it was kept: trimming a trimmed name changes nothing. */
  lemma NameRoundTrip(raw: string)
    ensures ScannedName(NormalizeName(raw).GetOr("")) == NormalizeName(raw)
  {
    TrimTwice(JoinLines(raw));
  }

  lemma ScannedNameKept(raw: string)
    ensures ScannedName(raw).Some? ==> ScannedName(ScannedName(raw).value) == ScannedName(raw)
  {
    TrimTwice(raw);
  }

  // ----- the online table -----

  function Find(online: seq<OnlineCharacter>, session: string): Option<OnlineCharacter> {
    if online == [] then None
    else if online[0].session == session then Some(online[0])
    else Find(online[1..], session)
  }

  function FindById(online: seq<OnlineCharacter>, id: string): Option<OnlineCharacter> {
    if online == [] then None
    else if online[0].id == id then Some(online[0])
    else FindById(online[1..], id)
  }

  function RaiseHand(online: seq<OnlineCharacter>, session: string, raised: bool): seq<OnlineCharacter> {
    seq(|online|, i requires 0 <= i < |online| =>
      if online[i].session == session then online[i].(handRaised := raised) else online[i])
  }

  function LowerAll(online: seq<OnlineCharacter>): seq<OnlineCharacter> {
    seq(|online|, i requires 0 <= i < |online| => online[i].(handRaised := false))
  }

  // ----- speak and whisper -----

  function Log(c: Creator): seq<Message> {
    Merge(c.publics, c.whispers)
  }

  function RoundView(r: Round): RoundInfo {
    RoundInfo(r.max, r.used, if r.used <= r.max then r.max - r.used else 0)
  }

  /** Stage 1: membership, size, the online entry, an active round. */
  function Vet(c: Creator, conn: Connection, content: string): (r: Option<Refusal>) {
    if !conn.online || conn.session.None? then Some(NotMember)
    else if Utf8Length(content) > MAX_CONTENT_BYTES then Some(TooLarge)
    else if Find(c.online, conn.session.value).None? then Some(NotMember)
    else if c.round.None? then Some(NoActiveRound)
    else None
  }

  function LastSequence(log: seq<Message>): nat {
    if log == [] then 0 else log[|log| - 1].sequence
  }

  function EntryPayload(m: Message): Payload {
    var details := Some(Details(m.sender, m.content, m.sequence, m.round));
    match m.recipient
    case None => PublicEntry(details)
    case Some(to) => WhisperEntry(details, to)
  }

  function EntryOf(m: Message): Entry {
    Entry(m.eventId, m.timestamp, EntryPayload(m))
  }

  /** The state once `m` is persisted: counters, its stream, and the round it was charged to. */
  function Committed(c: Creator, m: Message, round: Round, store: Store, entries: nat): Creator {
    c.(round := Some(round),
       nextSequence := m.sequence,
       publics := if IsWhisper(m) then c.publics else c.publics + [m],
       whispers := if IsWhisper(m) then c.whispers + [m] else c.whispers,
       persisted := c.persisted + entries,
       store := store)
  }

  /**
    Stages 2 to 5, shared by speak and whisper: staleness, writability and quota,
    persistence, and only then the commit.
    */
  function Publish(c: Creator, author: OnlineCharacter, recipient: Option<Party>, content: string,
                   basis: Option<nat>, stamp: Stamp, fault: AppendFault): (Creator, Outcome)
    requires c.round.Some?
  {
    var round := c.round.value;
    var log := Log(c);
    if basis.Some? && basis.value < LatestOther(log, author.id) then
      (c, Stale(basis.value + 1, LastSequence(log), RoundView(round)))
    else if c.store.fatal then
      (c, Refused(PersistenceBroken))
    else if round.used >= round.max then
      (c.(online := RaiseHand(c.online, author.session, true)), RoundLimitReached(RoundInfo(round.max, round.used, 0)))
    else
      var charged := Round(round.max, round.used + 1);
      var m := Message(Character(author.id, author.name), recipient, content, stamp.id,
                       c.nextSequence + 1, stamp.timestamp, RoundView(charged));
      match fault
      case AppendFails(reload) =>
        (c.(store := Recovered(Appended(c.store, EntryOf(m), false), reload)), Refused(PersistFailed))
      case Appends =>
        (Committed(c, m, charged, Appended(c.store, EntryOf(m), true), 1)
           .(online := RaiseHand(c.online, author.session, false)),
         Published(m))
  }

  function Speak(c: Creator, conn: Connection, content: string, basis: Option<nat>,
                 stamp: Stamp, fault: AppendFault): (Creator, Outcome)
  {
    var refusal := Vet(c, conn, content);
    if refusal.Some? then (c, Refused(refusal.value))
    else Publish(c, Find(c.online, conn.session.value).value, None, content, basis, stamp, fault)
  }

  /** `open`: the sessions whose socket is in the connection table and open. */
  function Whisper(c: Creator, conn: Connection, target: string, content: string, basis: Option<nat>,
                   open: set<string>, stamp: Stamp, fault: AppendFault): (Creator, Outcome)
  {
    var refusal := Vet(c, conn, content);
    if refusal.Some? then (c, Refused(refusal.value)) else
    var author := Find(c.online, conn.session.value).value;
    var to := FindById(c.online, target);
    if target == author.id then (c, Refused(WhisperToSelf))
    else if to.None? || to.value.session !in open then (c, Refused(TargetOffline))
    else Publish(c, author, Some(Party(to.value.id, to.value.name)), content, basis, stamp, fault)
  }

  // ----- the persona, the name and the limit -----

  /** The outcomes the environment picks for one persona message. */
  datatype PersonaFaults = PersonaFaults(first: FirstFaults, append: AppendFault)

  function PersonaMessage(c: Creator, content: string, stamp: Stamp): Message {
    Message(UserPersona, None, content, stamp.id, c.nextSequence + 1, stamp.timestamp, PersonaRound(c.limit))
  }

  function PersonaInput(c: Creator, content: string, nameStamp: Stamp, settingsStamp: Stamp, stamp: Stamp): FirstInput {
    FirstInput(c.header, c.name, c.limit, c.nextSequence + 1, content, nameStamp, settingsStamp, stamp)
  }

  function Persona(c: Creator, content: string, nameStamp: Stamp, settingsStamp: Stamp, stamp: Stamp,
                   faults: PersonaFaults): (Creator, Outcome)
  {
    if c.store.fatal then (c, Refused(PersistenceBroken))
    else if Utf8Length(content) > MAX_CONTENT_BYTES then (c, Refused(TooLarge))
    else
      var m := PersonaMessage(c, content, stamp);
      var opening := Round(c.limit, 0);
      if c.persisted == 0 then
        var input := PersonaInput(c, content, nameStamp, settingsStamp, stamp);
        var (store, ok) := FirstPersisted(c.store, input, faults.first);
        if !ok then (c.(store := store), Refused(PersistFailed))
        else (Committed(c, m, opening, store, |FirstEntries(input)|).(online := LowerAll(c.online)), Published(m))
      else
        match faults.append
        case AppendFails(reload) =>
          (c.(store := Recovered(Appended(c.store, EntryOf(m), false), reload)), Refused(PersistFailed))
        case Appends =>
          (Committed(c, m, opening, Appended(c.store, EntryOf(m), true), 1).(online := LowerAll(c.online)),
              Published(m))
  }

  /** `described` tells whether updating the active descriptor succeeds, which matters only before the first persist. */
  function SetName(c: Creator, raw: string, described: bool, stamp: Stamp, fault: AppendFault): Creator {
    var name := NormalizeName(raw);
    if c.persisted == 0 then
      if described then c.(name := name) else c
    else if c.store.fatal then c
    else
      var e := Entry(stamp.id, stamp.timestamp, SessionInfo(name.GetOr("")));
      match fault
      case AppendFails(reload) => c.(store := Recovered(Appended(c.store, e, false), reload))
      case Appends => c.(name := name, persisted := c.persisted + 1, store := Appended(c.store, e, true))
  }

  function SetLimit(c: Creator, limit: int, stamp: Stamp, fault: AppendFault): Creator {
    if limit < 0 || limit > MAX_SAFE_INTEGER then c
    else if c.persisted == 0 then c.(limit := limit)
    else if c.store.fatal then c
    else
      var e := SettingsEntry(stamp, limit);
      match fault
      case AppendFails(reload) => c.(store := Recovered(Appended(c.store, e, false), reload))
      case Appends => c.(limit := limit, persisted := c.persisted + 1, store := Appended(c.store, e, true))
  }

  /** A new group chat: nothing persisted yet. */
  function Fresh(header: Header, config: nat): Creator {
    Creator(None, config, None, 0, [], [], 0, [], header, config, Store([], NoFile, false))
  }

  // ----- resume: rebuilding the state from the file -----

  /** What the scan rebuilds; `count` is the number of entries the group chat owns. */
  datatype Snapshot = Snapshot(
    name: Option<string>, limit: nat, round: Option<Round>, nextSequence: nat,
    publics: seq<Message>, whispers: seq<Message>, count: nat)

  function ScanMessage(s: Snapshot, e: Entry, d: Details, recipient: Option<Party>): Snapshot {
    var m := Message(d.sender, recipient, d.content, e.id, d.sequence, e.timestamp, d.round);
    s.(publics := if recipient.None? then s.publics + [m] else s.publics,
       whispers := if recipient.None? then s.whispers else s.whispers + [m],
       nextSequence := d.sequence,
       round := Some(Round(d.round.max, d.round.used)),
       count := s.count + 1)
  }

  function ScanEntry(s: Snapshot, e: Entry): Snapshot {
    match e.payload
    case SessionInfo(raw) => s.(name := ScannedName(raw), count := s.count + 1)
    case Settings(limit) =>
      s.(limit := if limit.Some? && 0 <= limit.value <= MAX_SAFE_INTEGER then limit.value else s.limit,
         count := s.count + 1)
    case PublicEntry(details) =>
      if details.None? then s.(count := s.count + 1) else ScanMessage(s, e, details.value, None)
    case WhisperEntry(details, to) =>
      if details.None? then s.(count := s.count + 1) else ScanMessage(s, e, details.value, Some(to))
    case Foreign => s
  }

  function Scan(entries: seq<Entry>, config: nat): Snapshot {
    if entries == [] then Snapshot(None, config, None, 0, [], [], 0)
    else ScanEntry(Scan(entries[..|entries| - 1], config), entries[|entries| - 1])
  }

  function Live(c: Creator): Snapshot {
    Snapshot(c.name, c.limit, c.round, c.nextSequence, c.publics, c.whispers, c.persisted)
  }

  /** A resumed creator: the scan of the file, no members, a clean store. */
  function Resume(disk: Disk, config: nat): Creator
    requires disk.File?
  {
    var s := Scan(disk.entries, config);
    Creator(s.name, s.limit, s.round, s.nextSequence, s.publics, s.whispers, s.count, [], disk.header, config,
            Store(disk.entries, disk, false))
  }
}
