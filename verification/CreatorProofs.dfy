/**
  What holds of the creator in every reachable state: one gapless log, the round
  quota, memory and file in step (or a store that has given up), and a session
  file from which a resume rebuilds exactly the live state.
  */
module CreatorProofs {
  import opened Common
  import opened Messages
  import opened SessionStore
  import opened Creator

  datatype Op =
    | OpSpeak(conn: Connection, content: string, basis: Option<nat>, stamp: Stamp, fault: AppendFault)
    | OpWhisper(conn: Connection, target: string, content: string, basis: Option<nat>, open: set<string>,
                stamp: Stamp, fault: AppendFault)
    | OpPersona(content: string, nameStamp: Stamp, settingsStamp: Stamp, stamp: Stamp, faults: PersonaFaults)
    | OpSetName(raw: string, described: bool, stamp: Stamp, fault: AppendFault)
    | OpSetLimit(limit: int, stamp: Stamp, fault: AppendFault)
    | OpMembers(online: seq<OnlineCharacter>)
    | OpResume(config: nat)

  /** One operation; a resume without a session file is refused. */
  function Apply(c: Creator, op: Op): Creator {
    match op
    case OpSpeak(conn, content, basis, stamp, fault) => Speak(c, conn, content, basis, stamp, fault).0
    case OpWhisper(conn, target, content, basis, open, stamp, fault) =>
      Whisper(c, conn, target, content, basis, open, stamp, fault).0
    case OpPersona(content, nameStamp, settingsStamp, stamp, faults) =>
      Persona(c, content, nameStamp, settingsStamp, stamp, faults).0
    case OpSetName(raw, described, stamp, fault) => SetName(c, raw, described, stamp, fault)
    case OpSetLimit(limit, stamp, fault) => SetLimit(c, limit, stamp, fault)
    case OpMembers(online) => c.(online := online)
    case OpResume(config) =>
      if c.store.disk.File? && config <= MAX_SAFE_INTEGER then Resume(c.store.disk, config) else c
  }

  function Run(c: Creator, ops: seq<Op>): Creator
    decreases |ops|
  {
    if ops == [] then c else Run(Apply(c, ops[0]), ops[1..])
  }

  // ----- the invariant -----

  /** Speaks and whispers logged since the last persona message. */
  function UsedSince(log: seq<Message>): nat {
    if log == [] || log[|log| - 1].sender.UserPersona? then 0
    else 1 + UsedSince(log[..|log| - 1])
  }

  ghost predicate QuotaHolds(c: Creator) {
    match c.round
    case None => Log(c) == []
    case Some(r) => r.used <= r.max && r.used == UsedSince(Log(c))
  }

  predicate NameKept(name: Option<string>) {
    name.Some? ==> ScannedName(name.value) == name
  }

  /** Before the first persist there is no log, and a file left behind holds no message. */
  ghost predicate Unpersisted(c: Creator) {
    && Log(c) == []
    && c.round.None?
    && Preamble(DiskEntries(c.store.disk))
    && (!c.store.fatal ==> c.store.mem == [])
  }

  ghost predicate FileMatches(c: Creator) {
    && c.store.disk.File?
    && c.store.disk.header == c.header
    && Scan(c.store.disk.entries, c.config) == Live(c)
  }

  ghost predicate Good(c: Creator) {
    && OneLog(c.publics, c.whispers, c.nextSequence)
    && QuotaHolds(c)
    && NameKept(c.name)
    && c.limit <= MAX_SAFE_INTEGER
    && c.config <= MAX_SAFE_INTEGER
    && AllOrFatal(c.store)
    && (if c.persisted == 0 then Unpersisted(c) else FileMatches(c))
  }

  // ----- the scan, entry by entry -----

  lemma ScanAppend(entries: seq<Entry>, e: Entry, config: nat)
    ensures Scan(entries + [e], config) == ScanEntry(Scan(entries, config), e)
  {
    assert (entries + [e])[..|entries|] == entries;
  }

  /** The entry written for a message is scanned back into that message. */
  lemma ScanCommitted(c: Creator, m: Message, round: Round, store: Store)
    requires m.round.max == round.max && m.round.used == round.used
    ensures ScanEntry(Live(c), EntryOf(m)) == Live(Committed(c, m, round, store, 1))
  {
    assert Message(m.sender, m.recipient, m.content, m.eventId, m.sequence, m.timestamp, m.round) == m;
  }

  lemma ScanSettings(s: Snapshot, stamp: Stamp, limit: nat)
    requires limit <= MAX_SAFE_INTEGER
    ensures ScanEntry(s, SettingsEntry(stamp, limit)) == s.(limit := limit, count := s.count + 1)
  {
  }

  lemma ScanPersona(s: Snapshot, stamp: Stamp, limit: nat, sequence: nat, content: string)
    ensures
      var m := Message(UserPersona, None, content, stamp.id, sequence, stamp.timestamp, PersonaRound(limit));
      ScanEntry(s, PersonaEntry(stamp, limit, sequence, content))
      == s.(publics := s.publics + [m], nextSequence := sequence, round := Some(Round(limit, 0)), count := s.count + 1)
  {
  }

  lemma ScanFirst(c: Creator, input: FirstInput, config: nat)
    requires input.name == c.name && NameKept(c.name) && input.limit == c.limit <= MAX_SAFE_INTEGER
    ensures var m := Message(UserPersona, None, input.content, input.messageStamp.id, input.sequence,
                             input.messageStamp.timestamp, PersonaRound(input.limit));
            Scan(FirstEntries(input), config)
            == Snapshot(c.name, c.limit, Some(Round(c.limit, 0)), input.sequence, [m], [], |FirstEntries(input)|)
  {
    var n := NameEntry(input);
    var s := SettingsEntry(input.settingsStamp, input.limit);
    var p := PersonaEntry(input.messageStamp, input.limit, input.sequence, input.content);
    assert FirstEntries(input) == (n + [s]) + [p];
    ScanName(input, config);
    ScanAppend(n, s, config);
    ScanSettings(Scan(n, config), input.settingsStamp, input.limit);
    ScanAppend(n + [s], p, config);
    ScanPersona(Scan(n + [s], config), input.messageStamp, input.limit, input.sequence, input.content);
  }

  lemma ScanName(input: FirstInput, config: nat)
    requires NameKept(input.name)
    ensures Scan(NameEntry(input), config) == Snapshot(input.name, config, None, 0, [], [], |NameEntry(input)|)
  {
    var n := NameEntry(input);
    assert Scan([], config) == Snapshot(None, config, None, 0, [], [], 0);
    if n != [] {
      assert n == [] + [n[0]];
      ScanAppend([], n[0], config);
    }
  }

  /** Entries of another kind are passed over, damaged ones and limits out of range only counted. */
  lemma ScanPassesOver(s: Snapshot, e: Entry)
    ensures e.payload.Foreign? ==> ScanEntry(s, e) == s
    ensures (e.payload.PublicEntry? || e.payload.WhisperEntry?) && e.payload.details.None? ==>
              ScanEntry(s, e) == s.(count := s.count + 1)
    ensures e.payload.Settings? && (e.payload.limit.None? || !(0 <= e.payload.limit.value <= 9007199254740991)) ==>
              ScanEntry(s, e) == s.(count := s.count + 1)
  {
  }

  // ----- each operation keeps the invariant -----

  /** Committing the next message extends the log by it. */
  lemma CommitExtends(c: Creator, m: Message, round: Round, store: Store, entries: nat)
    requires OneLog(c.publics, c.whispers, c.nextSequence) && m.sequence == c.nextSequence + 1
    ensures var d := Committed(c, m, round, store, entries);
            && OneLog(d.publics, d.whispers, d.nextSequence)
            && Log(d) == Log(c) + [m]
  {
    OneLogAppend(c.publics, c.whispers, c.nextSequence, m);
  }

  lemma UsedAppend(log: seq<Message>, m: Message)
    ensures UsedSince(log + [m]) == if m.sender.UserPersona? then 0 else 1 + UsedSince(log)
  {
    assert (log + [m])[..|log|] == log;
  }

  /** Changing only the online table or the store keeps what is said about the rest. */
  lemma SameLive(c: Creator, d: Creator)
    requires Good(c) && Live(d) == Live(c) && d.config == c.config && d.header == c.header
    requires AllOrFatal(d.store) && (c.persisted > 0 ==> d.store.disk == c.store.disk)
    requires c.persisted == 0 ==> Unpersisted(d)
    ensures Good(d)
  {
  }

  lemma FailedAppendKeeps(c: Creator, e: Entry, reload: Reload)
    requires Good(c) && c.persisted > 0
    ensures Good(c.(store := Recovered(Appended(c.store, e, false), reload)))
  {
    AppendAllOrFatal(c.store, e, AppendFails(reload));
    SameLive(c, c.(store := Recovered(Appended(c.store, e, false), reload)));
  }

  /** A message appended to a group chat that already has a file. */
  lemma CommitKeeps(c: Creator, m: Message, round: Round)
    requires Good(c) && c.persisted > 0
    requires m.sequence == c.nextSequence + 1 && m.round.max == round.max && m.round.used == round.used
    requires round.used <= round.max
    requires if m.sender.UserPersona? then round.used == 0
             else c.round.Some? && round.used == c.round.value.used + 1
    ensures Good(Committed(c, m, round, Appended(c.store, EntryOf(m), true), 1))
  {
    var store := Appended(c.store, EntryOf(m), true);
    CommitExtends(c, m, round, store, 1);
    UsedAppend(Log(c), m);
    AppendAllOrFatal(c.store, EntryOf(m), Appends);
    ScanAppend(c.store.disk.entries, EntryOf(m), c.config);
    ScanCommitted(c, m, round, store);
  }

  lemma PublishKeeps(c: Creator, author: OnlineCharacter, recipient: Option<Party>, content: string,
                     basis: Option<nat>, stamp: Stamp, fault: AppendFault)
    requires Good(c) && c.round.Some?
    ensures Good(Publish(c, author, recipient, content, basis, stamp, fault).0)
  {
    var (d, outcome) := Publish(c, author, recipient, content, basis, stamp, fault);
    match outcome {
      case Stale(_, _, _) =>
      case RoundLimitReached(_) => SameLive(c, d);
      case Refused(reason) =>
        if reason == PersistFailed {
          var m := Message(Character(author.id, author.name), recipient, content, stamp.id, c.nextSequence + 1,
                           stamp.timestamp, RoundView(Round(c.round.value.max, c.round.value.used + 1)));
          FailedAppendKeeps(c, EntryOf(m), fault.reload);
        }
      case Published(m) =>
        var charged := Round(c.round.value.max, c.round.value.used + 1);
        CommitKeeps(c, m, charged);
        SameLive(Committed(c, m, charged, Appended(c.store, EntryOf(m), true), 1), d);
    }
  }

  lemma FirstPersonaKeeps(c: Creator, content: string, nameStamp: Stamp, settingsStamp: Stamp, stamp: Stamp,
                          faults: PersonaFaults)
    requires Good(c) && c.persisted == 0
    ensures Good(Persona(c, content, nameStamp, settingsStamp, stamp, faults).0)
  {
    if !c.store.fatal && Utf8Length(content) <= MAX_CONTENT_BYTES {
      var d := Persona(c, content, nameStamp, settingsStamp, stamp, faults).0;
      var input := PersonaInput(c, content, nameStamp, settingsStamp, stamp);
      var (store, ok) := FirstPersisted(c.store, input, faults.first);
      FirstPersistAllOrFatal(c.store, input, faults.first);
      if ok {
        var m := PersonaMessage(c, content, stamp);
        var entries := |FirstEntries(input)|;
        var done := Committed(c, m, Round(c.limit, 0), store, entries);
        EmptyStreams(c);
        CommitExtends(c, m, Round(c.limit, 0), store, entries);
        UsedAppend(Log(c), m);
        ScanFirst(c, input, c.config);
        assert Good(done);
        SameLive(done, d);
      } else {
        FailedFirstPersistLeavesNoMessage(c.store, input, faults.first);
        SameLive(c, d);
      }
    }
  }

  lemma EmptyStreams(c: Creator)
    requires Log(c) == []
    ensures c.publics == [] && c.whispers == []
  {
  }

  lemma PersonaKeeps(c: Creator, content: string, nameStamp: Stamp, settingsStamp: Stamp, stamp: Stamp,
                     faults: PersonaFaults)
    requires Good(c)
    ensures Good(Persona(c, content, nameStamp, settingsStamp, stamp, faults).0)
  {
    if c.persisted == 0 {
      FirstPersonaKeeps(c, content, nameStamp, settingsStamp, stamp, faults);
    } else if !c.store.fatal && Utf8Length(content) <= MAX_CONTENT_BYTES {
      var m := PersonaMessage(c, content, stamp);
      match faults.append {
        case AppendFails(reload) => FailedAppendKeeps(c, EntryOf(m), reload);
        case Appends =>
          CommitKeeps(c, m, Round(c.limit, 0));
          SameLive(Committed(c, m, Round(c.limit, 0), Appended(c.store, EntryOf(m), true), 1),
                   Persona(c, content, nameStamp, settingsStamp, stamp, faults).0);
      }
    }
  }

  lemma SetNameKeeps(c: Creator, raw: string, described: bool, stamp: Stamp, fault: AppendFault)
    requires Good(c)
    ensures Good(SetName(c, raw, described, stamp, fault))
  {
    NameRoundTrip(raw);
    if c.persisted > 0 && !c.store.fatal {
      var e := Entry(stamp.id, stamp.timestamp, SessionInfo(NormalizeName(raw).GetOr("")));
      match fault {
        case AppendFails(reload) => FailedAppendKeeps(c, e, reload);
        case Appends => ScanAppend(c.store.disk.entries, e, c.config);
      }
    }
  }

  lemma NewLimitKeeps(c: Creator, limit: nat, stamp: Stamp)
    requires Good(c) && c.persisted > 0 && !c.store.fatal && limit <= MAX_SAFE_INTEGER
    ensures
      var store := Appended(c.store, SettingsEntry(stamp, limit), true);
      Good(c.(limit := limit, persisted := c.persisted + 1, store := store))
  {
    var e := SettingsEntry(stamp, limit);
    AppendAllOrFatal(c.store, e, Appends);
    ScanAppend(c.store.disk.entries, e, c.config);
  }

  lemma SetLimitKeeps(c: Creator, limit: int, stamp: Stamp, fault: AppendFault)
    requires Good(c)
    ensures Good(SetLimit(c, limit, stamp, fault))
  {
    if 0 <= limit <= MAX_SAFE_INTEGER && c.persisted > 0 && !c.store.fatal {
      match fault {
        case AppendFails(reload) => FailedAppendKeeps(c, SettingsEntry(stamp, limit), reload);
        case Appends => NewLimitKeeps(c, limit, stamp);
      }
    }
  }

  // ----- resume -----

  predicate HasSettings(entries: seq<Entry>) {
    exists e | e in entries ::
      e.payload.Settings? && e.payload.limit.Some? && 0 <= e.payload.limit.value <= MAX_SAFE_INTEGER
  }

  lemma SettingsPush(front: seq<Entry>, last: Entry)
    ensures HasSettings(front + [last])
            <==> HasSettings(front) || (last.payload.Settings? && last.payload.limit.Some?
                                        && 0 <= last.payload.limit.value <= MAX_SAFE_INTEGER)
  {
    assert last in front + [last];
  }

  lemma EntryConfig(s: Snapshot, limit: nat, e: Entry)
    ensures ScanEntry(s.(limit := limit), e)
            == ScanEntry(s, e).(limit := if HasSettings([e]) then ScanEntry(s, e).limit else limit)
  {
    assert e in [e];
  }

  /** The configured default matters to the scan only while no settings entry replaced it. */
  lemma {:induction false} ScanConfig(entries: seq<Entry>, a: nat, b: nat)
    ensures Scan(entries, b) == Scan(entries, a).(limit := if HasSettings(entries) then Scan(entries, a).limit else b)
  {
    if entries != [] {
      var front, last := entries[..|entries| - 1], entries[|entries| - 1];
      ScanConfig(front, a, b);
      assert entries == front + [last];
      SettingsPush(front, last);
      SettingsPush([], last);
      assert [] + [last] == [last];
      EntryConfig(Scan(front, a), if HasSettings(front) then Scan(front, a).limit else b, last);
    }
  }

  lemma {:induction false} ScanLimit(entries: seq<Entry>, config: nat)
    requires config <= MAX_SAFE_INTEGER
    ensures Scan(entries, config).limit <= MAX_SAFE_INTEGER
  {
    if entries != [] {
      ScanLimit(entries[..|entries| - 1], config);
    }
  }

  lemma {:induction false} ScanPreamble(entries: seq<Entry>, config: nat)
    requires Preamble(entries)
    ensures var s := Scan(entries, config);
            && s.publics == [] && s.whispers == [] && s.round.None? && s.nextSequence == 0
            && s.count == |entries| && NameKept(s.name)
  {
    if entries != [] {
      var front, last := entries[..|entries| - 1], entries[|entries| - 1];
      assert entries == front + [last];
      ScanPreamble(front, config);
      if last.payload.SessionInfo? {
        ScannedNameKept(last.payload.name);
      }
    }
  }

  lemma ResumeKeeps(c: Creator, config: nat)
    requires Good(c) && c.store.disk.File? && config <= MAX_SAFE_INTEGER
    ensures Good(Resume(c.store.disk, config))
  {
    var entries := c.store.disk.entries;
    ScanLimit(entries, config);
    if c.persisted == 0 {
      ScanPreamble(entries, config);
    } else {
      ScanConfig(entries, c.config, config);
    }
  }

  lemma StepKeeps(c: Creator, op: Op)
    requires Good(c)
    ensures Good(Apply(c, op))
  {
    match op {
      case OpSpeak(conn, content, basis, stamp, fault) =>
        if Vet(c, conn, content).None? {
          PublishKeeps(c, Find(c.online, conn.session.value).value, None, content, basis, stamp, fault);
        }
      case OpWhisper(conn, target, content, basis, open, stamp, fault) =>
        WhisperKeeps(c, conn, target, content, basis, open, stamp, fault);
      case OpPersona(content, nameStamp, settingsStamp, stamp, faults) =>
        PersonaKeeps(c, content, nameStamp, settingsStamp, stamp, faults);
      case OpSetName(raw, described, stamp, fault) => SetNameKeeps(c, raw, described, stamp, fault);
      case OpSetLimit(limit, stamp, fault) => SetLimitKeeps(c, limit, stamp, fault);
      case OpMembers(online) => SameLive(c, c.(online := online));
      case OpResume(config) =>
        if c.store.disk.File? && config <= MAX_SAFE_INTEGER {
          ResumeKeeps(c, config);
        }
    }
  }

  lemma WhisperKeeps(c: Creator, conn: Connection, target: string, content: string, basis: Option<nat>,
                     open: set<string>, stamp: Stamp, fault: AppendFault)
    requires Good(c)
    ensures Good(Whisper(c, conn, target, content, basis, open, stamp, fault).0)
  {
    if Vet(c, conn, content).None? {
      var author := Find(c.online, conn.session.value).value;
      var to := FindById(c.online, target);
      if target != author.id && to.Some? && to.value.session in open {
        PublishKeeps(c, author, Some(Party(to.value.id, to.value.name)), content, basis, stamp, fault);
      }
    }
  }

  /** Every reachable state is good, whatever fails along the way and however often the chat is resumed. */
  lemma {:induction false} AlwaysGood(c: Creator, ops: seq<Op>)
    requires Good(c)
    ensures Good(Run(c, ops))
    decreases |ops|
  {
    if ops != [] {
      StepKeeps(c, ops[0]);
      AlwaysGood(Apply(c, ops[0]), ops[1..]);
    }
  }

  lemma FreshIsGood(header: Header, config: nat)
    requires config <= MAX_SAFE_INTEGER
    ensures Good(Fresh(header, config))
  {
  }

  // ----- main results -----

  /**
    Resume equals live: after any run in which something was persisted, scanning
    the session file rebuilds exactly the live name, limit, round, next sequence,
    both streams and the persisted count; the configured default may differ as
    soon as the file holds a settings entry.
    */
  lemma {:induction false} ResumeEqualsLive(header: Header, config: nat, ops: seq<Op>, later: nat)
    requires config <= MAX_SAFE_INTEGER
    requires var c := Run(Fresh(header, config), ops);
             c.persisted > 0 && (later == c.config || HasSettings(DiskEntries(c.store.disk)))
    ensures var c := Run(Fresh(header, config), ops);
            && c.store.disk.File?
            && Live(Resume(c.store.disk, later)) == Live(c)
            && Resume(c.store.disk, later).header == c.header
            && Resume(c.store.disk, later).online == []
            && Resume(c.store.disk, later).store == Store(c.store.disk.entries, c.store.disk, false)
  {
    var c := Run(Fresh(header, config), ops);
    FreshIsGood(header, config);
    AlwaysGood(Fresh(header, config), ops);
    ScanConfig(c.store.disk.entries, c.config, later);
  }

  // ----- a file left behind -----

  /**
    The exact condition where nothing was persisted and yet there is a file: resume
    equals live only if the file holds the header alone, the chat has no name, and
    its limit is the one configured at the resume.
    */
  lemma {:induction false} LeftoverEqualsLiveIff(header: Header, config: nat, ops: seq<Op>, later: nat)
    requires config <= MAX_SAFE_INTEGER
    requires var c := Run(Fresh(header, config), ops); c.persisted == 0 && c.store.disk.File?
    ensures var c := Run(Fresh(header, config), ops);
            Live(Resume(c.store.disk, later)) == Live(c)
            <==> c.store.disk.entries == [] && c.name.None? && c.limit == later
  {
    var c := Run(Fresh(header, config), ops);
    FreshIsGood(header, config);
    AlwaysGood(Fresh(header, config), ops);
    ScanPreamble(c.store.disk.entries, later);
    EmptyStreams(c);
  }

  /** A first persist that failed and whose rollback could not delete the file. */
  predicate DeleteFails(c: Creator, op: Op) {
    && op.OpPersona?
    && c.persisted == 0 && !c.store.fatal
    && !op.faults.first.delete
    && Apply(c, op).persisted == 0 && Apply(c, op).store.fatal
  }

  /** The run got its file from a failed delete; it is still fatal, or resumed that file later. */
  ghost predicate LeftBehind(c: Creator, ops: seq<Op>)
    decreases |ops|
  {
    ops != [] && (DeleteFails(c, ops[0]) || LeftBehind(Apply(c, ops[0]), ops[1..]))
  }

  lemma {:induction false} UnpersistedBefore(c: Creator, op: Op)
    requires Good(c) && Apply(c, op).persisted == 0
    ensures c.persisted == 0
  {
    if c.persisted > 0 {
      if op.OpResume? {
        ScanConfig(c.store.disk.entries, c.config, op.config);
      }
    }
  }

  /** Without a persisted history only a failed delete leaves a file, and it leaves the store fatal. */
  lemma FileNeedsFailedDelete(c: Creator, op: Op)
    requires Good(c) && c.persisted == 0 && !c.store.disk.File?
    requires Apply(c, op).persisted == 0 && Apply(c, op).store.disk.File?
    ensures DeleteFails(c, op)
  {
  }

  /** Every run that ends with a file but nothing persisted contains a first persist whose rollback could not delete. */
  lemma {:induction false} LeftoverNeedsFailedDelete(c: Creator, ops: seq<Op>)
    requires Good(c) && !c.store.disk.File?
    requires Run(c, ops).persisted == 0 && Run(c, ops).store.disk.File?
    ensures LeftBehind(c, ops)
    decreases |ops|
  {
    if ops != [] && !DeleteFails(c, ops[0]) {
      var d := Apply(c, ops[0]);
      StepKeeps(c, ops[0]);
      StaysPersisted(d, ops[1..]);
      UnpersistedBefore(c, ops[0]);
      if d.store.disk.File? {
        FileNeedsFailedDelete(c, ops[0]);
      }
      LeftoverNeedsFailedDelete(d, ops[1..]);
    }
  }

  /** What was persisted stays so. */
  lemma {:induction false} StaysPersisted(c: Creator, ops: seq<Op>)
    requires Good(c) && Run(c, ops).persisted == 0
    ensures c.persisted == 0
    decreases |ops|
  {
    if ops != [] {
      StepKeeps(c, ops[0]);
      StaysPersisted(Apply(c, ops[0]), ops[1..]);
      UnpersistedBefore(c, ops[0]);
    }
  }

  predicate Resumes(ops: seq<Op>) {
    exists i :: 0 <= i < |ops| && ops[i].OpResume?
  }

  /** Until it is resumed the leftover stays, and the store with it stays fatal. */
  lemma {:induction false} FatalUntilResumed(c: Creator, ops: seq<Op>)
    requires c.store.fatal && !Resumes(ops)
    ensures Run(c, ops).store == c.store
    decreases |ops|
  {
    if ops != [] {
      FatalIsFinal(c, ops[0]);
      assert forall i :: 0 <= i < |ops[1..]| ==> ops[1..][i] == ops[i + 1];
      FatalUntilResumed(Apply(c, ops[0]), ops[1..]);
    }
  }

  /**
    From the first message on: a file without a persisted history comes from a
    first persist whose rollback could not delete it, and the store is still fatal
    unless a resume followed.
    */
  lemma {:induction false} LeftoverHistory(header: Header, config: nat, ops: seq<Op>)
    requires config <= MAX_SAFE_INTEGER
    requires var c := Run(Fresh(header, config), ops); c.persisted == 0 && c.store.disk.File?
    ensures LeftBehind(Fresh(header, config), ops)
    ensures Run(Fresh(header, config), ops).store.fatal || Resumes(ops)
  {
    FreshIsGood(header, config);
    LeftoverNeedsFailedDelete(Fresh(header, config), ops);
    if !Resumes(ops) {
      StillFatal(Fresh(header, config), ops);
    }
  }

  lemma {:induction false} StillFatal(c: Creator, ops: seq<Op>)
    requires LeftBehind(c, ops) && !Resumes(ops)
    ensures Run(c, ops).store.fatal
    decreases |ops|
  {
    assert forall i :: 0 <= i < |ops[1..]| ==> ops[1..][i] == ops[i + 1];
    if DeleteFails(c, ops[0]) {
      FatalUntilResumed(Apply(c, ops[0]), ops[1..]);
    } else {
      StillFatal(Apply(c, ops[0]), ops[1..]);
    }
  }

  /** A run that does differ: the last step of a first persist fails, and so does the delete. */
  lemma LeftoverFileDiffers(header: Header, config: nat, content: string, stamp: Stamp)
    requires config <= MAX_SAFE_INTEGER && Utf8Length(content) <= MAX_CONTENT_BYTES
    ensures var faults := PersonaFaults(NO_FAULTS.(message := false, delete := false), Appends);
            var c := Run(Fresh(header, config), [OpPersona(content, stamp, stamp, stamp, faults)]);
            && c.persisted == 0 && c.store.fatal && c.store.disk.File?
            && Live(Resume(c.store.disk, config)) != Live(c)
  {
    var faults := PersonaFaults(NO_FAULTS.(message := false, delete := false), Appends);
    var op := OpPersona(content, stamp, stamp, stamp, faults);
    var c0 := Fresh(header, config);
    var c := Apply(c0, op);
    assert Run(c0, [op]) == Run(c, []);
    var e := SettingsEntry(stamp, config);
    assert c.store.disk == File(header, [] + [e]);
    ScanAppend([], e, config);
  }

  /** A group chat with a persisted history always has a settings entry in its file. */
  ghost predicate Settled(c: Creator) {
    c.persisted > 0 ==> HasSettings(DiskEntries(c.store.disk))
  }

  /** No leftover of a failed first persist is ever resumed. */
  predicate ResumesPersisted(c: Creator, ops: seq<Op>)
    decreases |ops|
  {
    ops == [] || ((ops[0].OpResume? ==> c.persisted > 0) && ResumesPersisted(Apply(c, ops[0]), ops[1..]))
  }

  lemma SettingsStay(entries: seq<Entry>, e: Entry)
    requires HasSettings(entries)
    ensures HasSettings(entries + [e])
  {
    var s :| s in entries && s.payload.Settings? && s.payload.limit.Some?
          && 0 <= s.payload.limit.value <= MAX_SAFE_INTEGER;
    assert s in entries + [e];
  }

  lemma FirstPersistWritesSettings(input: FirstInput)
    requires input.limit <= MAX_SAFE_INTEGER
    ensures HasSettings(FirstEntries(input))
  {
    assert SettingsEntry(input.settingsStamp, input.limit) in FirstEntries(input);
  }

  /** Once something is persisted, an operation leaves the file alone or adds one entry to it. */
  lemma FileGrowsByOne(c: Creator, op: Op)
    requires Good(c) && c.persisted > 0 && !op.OpResume?
    ensures var after := Apply(c, op).store.disk;
            after == c.store.disk
            || (after.File? && exists e :: after.entries == c.store.disk.entries + [e])
  {
    if op.OpPersona? {
      PersonaGrowsByOne(c, op);
    } else {
      var after := Apply(c, op).store.disk;
      if after != c.store.disk {
        var e := after.entries[|after.entries| - 1];
        assert after.entries == c.store.disk.entries + [e];
      }
    }
  }

  lemma PersonaGrowsByOne(c: Creator, op: Op)
    requires Good(c) && c.persisted > 0 && op.OpPersona?
    ensures var after := Apply(c, op).store.disk;
            after == c.store.disk
            || (after.File? && exists e :: after.entries == c.store.disk.entries + [e])
  {
    var after := Apply(c, op).store.disk;
    if after != c.store.disk {
      var e := after.entries[|after.entries| - 1];
      assert after.entries == c.store.disk.entries + [e];
    }
  }

  lemma FirstStepSettles(c: Creator, op: Op)
    requires Good(c) && c.persisted == 0 && op.OpPersona?
    ensures Settled(Apply(c, op))
  {
    if Apply(c, op).persisted > 0 {
      var input := PersonaInput(c, op.content, op.nameStamp, op.settingsStamp, op.stamp);
      FirstPersistAllOrFatal(c.store, input, op.faults.first);
      FirstPersistWritesSettings(input);
    }
  }

  lemma OnlyPersonaStarts(c: Creator, op: Op)
    requires Good(c) && c.persisted == 0 && !op.OpPersona? && !op.OpResume?
    ensures Apply(c, op).persisted == 0
  {
  }

  lemma StepSettles(c: Creator, op: Op)
    requires Good(c) && Settled(c) && (op.OpResume? ==> c.persisted > 0)
    ensures Settled(Apply(c, op))
  {
    if op.OpResume? {
    } else if c.persisted > 0 {
      FileGrowsByOne(c, op);
      var after := Apply(c, op).store.disk;
      if after != c.store.disk {
        var e :| after.entries == c.store.disk.entries + [e];
        SettingsStay(c.store.disk.entries, e);
      }
    } else if op.OpPersona? {
      FirstStepSettles(c, op);
    } else {
      OnlyPersonaStarts(c, op);
    }
  }

  lemma {:induction false} AlwaysSettled(c: Creator, ops: seq<Op>)
    requires Good(c) && Settled(c) && ResumesPersisted(c, ops)
    ensures Settled(Run(c, ops))
    decreases |ops|
  {
    if ops != [] {
      StepKeeps(c, ops[0]);
      StepSettles(c, ops[0]);
      AlwaysSettled(Apply(c, ops[0]), ops[1..]);
    }
  }

  /** Resume equals live whatever default is configured then, as long as no leftover file was ever resumed. */
  lemma {:induction false} ResumeEqualsLiveAnyDefault(header: Header, config: nat, ops: seq<Op>, later: nat)
    requires config <= MAX_SAFE_INTEGER && ResumesPersisted(Fresh(header, config), ops)
    requires Run(Fresh(header, config), ops).persisted > 0
    ensures var c := Run(Fresh(header, config), ops);
            c.store.disk.File? && Live(Resume(c.store.disk, later)) == Live(c)
  {
    FreshIsGood(header, config);
    AlwaysSettled(Fresh(header, config), ops);
    ResumeEqualsLive(header, config, ops, later);
  }

  /** The round quota, in every reachable state. */
  lemma {:induction false} RoundQuota(header: Header, config: nat, ops: seq<Op>)
    requires config <= MAX_SAFE_INTEGER
    ensures var c := Run(Fresh(header, config), ops);
            && (c.round.None? ==> Log(c) == [])
            && (c.round.Some? ==> c.round.value.used <= c.round.value.max && c.round.value.used == UsedSince(Log(c)))
  {
    FreshIsGood(header, config);
    AlwaysGood(Fresh(header, config), ops);
  }

  /** The gapless log, in every reachable state. */
  lemma {:induction false} GaplessAlways(header: Header, config: nat, ops: seq<Op>)
    requires config <= MAX_SAFE_INTEGER
    ensures var c := Run(Fresh(header, config), ops);
            GaplessStreams(c.publics, c.whispers, c.nextSequence)
  {
    var c := Run(Fresh(header, config), ops);
    FreshIsGood(header, config);
    AlwaysGood(Fresh(header, config), ops);
    GaplessIffOneLog(c.publics, c.whispers, c.nextSequence);
  }

  /** Persistence is all or fatal, in every reachable state. */
  lemma {:induction false} AllOrFatalAlways(header: Header, config: nat, ops: seq<Op>)
    requires config <= MAX_SAFE_INTEGER
    ensures AllOrFatal(Run(Fresh(header, config), ops).store)
  {
    FreshIsGood(header, config);
    AlwaysGood(Fresh(header, config), ops);
  }

  /** A store that has given up refuses every later write: file, log and round stay as they are. */
  lemma FatalIsFinal(c: Creator, op: Op)
    requires c.store.fatal && !op.OpResume?
    ensures var d := Apply(c, op);
            && d.store == c.store
            && d.publics == c.publics && d.whispers == c.whispers
            && d.nextSequence == c.nextSequence && d.round == c.round && d.persisted == c.persisted
  {
  }

  /** A rejected or failed speak or whisper leaves the live state and the file as they were. */
  lemma RejectionChangesNothing(c: Creator, op: Op, outcome: Outcome)
    requires (op.OpSpeak? && outcome == Speak(c, op.conn, op.content, op.basis, op.stamp, op.fault).1)
             || (op.OpWhisper? && outcome
                 == Whisper(c, op.conn, op.target, op.content, op.basis, op.open, op.stamp, op.fault).1)
    requires !outcome.Published?
    ensures Live(Apply(c, op)) == Live(c)
    ensures Apply(c, op).store.disk == c.store.disk
  {
  }

  /** Published, stale, or neither: the outcome and the log agree. */
  lemma PublishedIff(c: Creator, author: OnlineCharacter, recipient: Option<Party>, content: string,
                     basis: Option<nat>, stamp: Stamp, fault: AppendFault)
    requires Good(c) && c.round.Some?
    ensures var (d, outcome) := Publish(c, author, recipient, content, basis, stamp, fault);
            && (outcome.Published? <==>
                  && (basis.Some? ==> !exists i :: basis.value <= i < |Log(c)| && Counts(Log(c)[i], author.id))
                  && !c.store.fatal && UsedSince(Log(c)) < c.round.value.max && fault.Appends?)
            && (outcome.Stale? <==>
                  basis.Some? && exists i :: basis.value <= i < |Log(c)| && Counts(Log(c)[i], author.id))
            && (outcome.Published? ==> Log(d) == Log(c) + [outcome.message])
            && (!outcome.Published? ==> Live(d) == Live(c))
  {
    if basis.Some? {
      StaleIff(Log(c), author.id, basis.value);
    }
    var (d, outcome) := Publish(c, author, recipient, content, basis, stamp, fault);
    if outcome.Published? {
      var charged := Round(c.round.value.max, c.round.value.used + 1);
      CommitExtends(c, outcome.message, charged, Appended(c.store, EntryOf(outcome.message), true), 1);
    }
  }
}
