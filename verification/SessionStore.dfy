/**
  Persistence of one group chat: the session file, the manager's in-memory copy
  of its entries, and the store that keeps the two in step.  Every outside
  action that can fail takes its outcome as an argument.
  */
module SessionStore {
  import opened Common
  import opened Messages

  datatype Header = Header(id: string, timestamp: string)

  datatype Details = Details(sender: Sender, content: string, sequence: nat, round: RoundInfo)

  /** The persisted payloads; `None` stands for details that do not have the expected shape. */
  datatype Payload =
    | SessionInfo(name: string)
    | Settings(limit: Option<int>)
    | PublicEntry(details: Option<Details>)
    | WhisperEntry(details: Option<Details>, recipient: Party)
    | Foreign

  datatype Entry = Entry(id: string, timestamp: string, payload: Payload)

  /** The identity the manager gives to a new entry. */
  datatype Stamp = Stamp(id: string, timestamp: string)

  datatype Disk = NoFile | Torn | File(header: Header, entries: seq<Entry>)

  /** Manager memory, session file and the store's fatal flag. */
  datatype Store = Store(mem: seq<Entry>, disk: Disk, fatal: bool)

  // ----- outcomes of outside actions -----

  /** Reloading the file into memory; a failed reload leaves anything behind. */
  datatype Reload = Loaded | ReloadFails(left: seq<Entry>)

  datatype AppendFault = Appends | AppendFails(reload: Reload)

  /** Writing the header; a failed write may leave nothing, part of it, or all of it. */
  datatype HeaderWrite = Written | FailedClean | FailedTorn | FailedWhole

  /** One outcome per step of the first persist, in order, and one for the rollback's delete. */
  datatype FirstFaults = FirstFaults(
    write: HeaderWrite, open: Reload, name: bool, settings: bool, message: bool, delete: bool)

  const NO_FAULTS := FirstFaults(Written, Loaded, true, true, true, true)

  datatype FirstInput = FirstInput(
    header: Header, name: Option<string>, limit: nat, sequence: nat, content: string,
    nameStamp: Stamp, settingsStamp: Stamp, messageStamp: Stamp)

  // ----- what each action does to the store -----

  function DiskEntries(disk: Disk): seq<Entry> {
    match disk
    case File(_, entries) => entries
    case _ => []
  }

  /** The manager changes its memory before it writes; a failed write leaves the file as it was. */
  function Appended(st: Store, e: Entry, ok: bool): Store {
    st.(mem := st.mem + [e],
        disk := if ok && st.disk.File? then File(st.disk.header, st.disk.entries + [e]) else st.disk)
  }

  function Reloaded(st: Store, outcome: Reload): Store {
    match outcome
    case Loaded => st.(mem := DiskEntries(st.disk))
    case ReloadFails(left) => st.(mem := left)
  }

  /** After a failed append: reload, or give up for good. */
  function Recovered(st: Store, outcome: Reload): Store {
    Reloaded(st, outcome).(fatal := st.fatal || outcome.ReloadFails?)
  }

  function AfterHeaderWrite(disk: Disk, header: Header, outcome: HeaderWrite): Disk {
    match outcome
    case FailedClean => disk
    case FailedTorn => Torn
    case _ => File(header, [])
  }

  function PersonaRound(limit: nat): RoundInfo {
    RoundInfo(limit, 0, limit)
  }

  function PersonaEntry(stamp: Stamp, limit: nat, sequence: nat, content: string): Entry {
    Entry(stamp.id, stamp.timestamp, PublicEntry(Some(Details(UserPersona, content, sequence, PersonaRound(limit)))))
  }

  function NameEntry(input: FirstInput): seq<Entry> {
    match input.name
    case Some(n) => if n == "" then [] else [Entry(input.nameStamp.id, input.nameStamp.timestamp, SessionInfo(n))]
    case None => []
  }

  function SettingsEntry(stamp: Stamp, limit: int): Entry {
    Entry(stamp.id, stamp.timestamp, Settings(Some(limit)))
  }

  /** The entries a complete first persist leaves in the file. */
  function FirstEntries(input: FirstInput): seq<Entry> {
    NameEntry(input)
    + [SettingsEntry(input.settingsStamp, input.limit),
       PersonaEntry(input.messageStamp, input.limit, input.sequence, input.content)]
  }

  /** Rollback: delete the file, and replace a manager whose memory was touched. */
  function RolledBack(st: Store, touched: bool, deleted: bool): Store {
    if !deleted then st.(fatal := true)
    else st.(disk := NoFile, mem := if touched then [] else st.mem)
  }

  /** The store after a first persist that got as far as `faults` lets it, and whether it succeeded. */
  function FirstPersisted(st: Store, input: FirstInput, faults: FirstFaults): (Store, bool) {
    var s1 := st.(disk := AfterHeaderWrite(st.disk, input.header, faults.write));
    if faults.write != Written then (RolledBack(s1, false, faults.delete), false) else
    var s2 := Reloaded(s1, faults.open);
    if faults.open.ReloadFails? then (RolledBack(s2, true, faults.delete), false)
    else FirstFilled(s2, input, faults)
  }

  /** The entries of a first persist, appended to the opened session one by one. */
  function FirstFilled(s2: Store, input: FirstInput, faults: FirstFaults): (Store, bool) {
    var s3 := if NameEntry(input) == [] then s2 else Appended(s2, NameEntry(input)[0], faults.name);
    if NameEntry(input) != [] && !faults.name then (RolledBack(s3, true, faults.delete), false) else
    var s4 := Appended(s3, SettingsEntry(input.settingsStamp, input.limit), faults.settings);
    if !faults.settings then (RolledBack(s4, true, faults.delete), false) else
    var s5 := Appended(s4, PersonaEntry(input.messageStamp, input.limit, input.sequence, input.content),
          faults.message);
    if !faults.message then (RolledBack(s5, true, faults.delete), false) else
    (s5, true)
  }

  // ----- what is promised -----

  /** Either the store has given up, or memory and file hold the same entries. */
  ghost predicate AllOrFatal(st: Store) {
    st.fatal || (!st.disk.Torn? && st.mem == DiskEntries(st.disk))
  }

  /** An ordinary append, with its recovery, keeps memory and file in step or gives up. */
  lemma AppendAllOrFatal(st: Store, e: Entry, fault: AppendFault)
    requires AllOrFatal(st) && st.disk.File?
    ensures var after := if fault.Appends? then Appended(st, e, true)
                         else Recovered(Appended(st, e, false), fault.reload);
            && AllOrFatal(after)
            && (fault.Appends? ==> after.disk == File(st.disk.header, st.disk.entries + [e]))
            && (fault.AppendFails? ==> after.disk == st.disk)
            && (after.fatal <==> st.fatal || (fault.AppendFails? && fault.reload.ReloadFails?))
  {
  }

  /**
    The first persist, with a failure at any step: it either writes exactly the
    first entries; or leaves no file and an empty manager; or gives up, and that
    happens exactly when the rollback could not delete the file.
    */
  lemma FirstPersistAllOrFatal(st: Store, input: FirstInput, faults: FirstFaults)
    requires AllOrFatal(st) && !st.fatal && st.mem == []
    ensures var (after, ok) := FirstPersisted(st, input, faults);
            && AllOrFatal(after)
            && (ok ==> after == Store(FirstEntries(input), File(input.header, FirstEntries(input)), false))
            && (!ok ==> after.fatal == !faults.delete)
            && (!ok && faults.delete ==> after == Store([], NoFile, false))
            && (ok <==> faults.write == Written && faults.open.Loaded?
                        && (NameEntry(input) == [] || faults.name) && faults.settings && faults.message)
  {
    if FirstPersisted(st, input, faults).1 {
      FirstPersistWrites(st, input);
    }
  }

  lemma FirstPersistWrites(st: Store, input: FirstInput)
    requires !st.fatal
    ensures FirstPersisted(st, input, NO_FAULTS)
            == (Store(FirstEntries(input), File(input.header, FirstEntries(input)), false), true)
  {
    var n := NameEntry(input);
    var s := SettingsEntry(input.settingsStamp, input.limit);
    var m := PersonaEntry(input.messageStamp, input.limit, input.sequence, input.content);
    assert [] + [s] + [m] == [s, m];
    if n != [] {
      assert n == [n[0]];
      assert [] + [n[0]] + [s] + [m] == n + [s, m];
    } else {
      assert n + [s, m] == [s, m];
    }
  }

  /** A failed append leaves the manager ahead of the file: that is what has to be recovered from. */
  lemma FailedAppendNeedsRecovery(st: Store, e: Entry)
    requires AllOrFatal(st) && !st.fatal
    ensures var after := Appended(st, e, false);
            after.disk == st.disk && after.mem == st.mem + [e] && !AllOrFatal(after)
  {
    assert |st.mem + [e]| == |DiskEntries(st.disk)| + 1;
  }

  /**
    The file a first persist leaves: its header, the name if there is one, the limit
    and the message, each entry under its own stamp.
    */
  lemma FirstFileIs(st: Store, input: FirstInput, faults: FirstFaults)
    requires AllOrFatal(st) && !st.fatal && st.mem == [] && FirstPersisted(st, input, faults).1
    ensures
      var names :=
        if input.name.Some? && input.name.value != "" then
          [Entry(input.nameStamp.id, input.nameStamp.timestamp, SessionInfo(input.name.value))]
        else [];
      var settings := Entry(input.settingsStamp.id, input.settingsStamp.timestamp, Settings(Some(input.limit)));
      var details := Details(UserPersona, input.content, input.sequence, RoundInfo(input.limit, 0, input.limit));
      var message := Entry(input.messageStamp.id, input.messageStamp.timestamp, PublicEntry(Some(details)));
      && FirstPersisted(st, input, faults).0.disk == File(input.header, names + [settings, message])
      && FirstPersisted(st, input, faults).0.mem == names + [settings, message]
  {
    FirstPersistAllOrFatal(st, input, faults);
  }

  /** When the rollback cannot delete the file, everything stays as the failing step left it. */
  lemma FailedDeleteLeavesAll(st: Store, input: FirstInput, faults: FirstFaults)
    requires st.mem == [] && !FirstPersisted(st, input, faults).1 && !faults.delete
    ensures
      var after := FirstPersisted(st, input, faults).0;
      && after.fatal
      && (faults.write != Written ==>
            after.mem == [] && after.disk == match faults.write
                                             case FailedClean => st.disk
                                             case FailedTorn => Torn
                                             case _ => File(input.header, []))
      && (faults.write == Written && faults.open.ReloadFails? ==>
            after.mem == faults.open.left && after.disk == File(input.header, []))
      && (faults.write == Written && faults.open.Loaded? ==>
            && after.disk.File? && after.disk.header == input.header
            && after.mem <= FirstEntries(input) && |after.mem| == |after.disk.entries| + 1
            && after.disk.entries <= after.mem)
  {
  }

  /** After any failed first persist that did not give up, a retry writes what a first try would have written. */
  lemma RetrySucceeds(st: Store, input: FirstInput, faults: FirstFaults, again: FirstInput)
    requires AllOrFatal(st) && !st.fatal && st.mem == []
    requires !FirstPersisted(st, input, faults).1 && !FirstPersisted(st, input, faults).0.fatal
    ensures FirstPersisted(FirstPersisted(st, input, faults).0, again, NO_FAULTS)
            == (Store(FirstEntries(again), File(again.header, FirstEntries(again)), false), true)
  {
    FirstPersistAllOrFatal(st, input, faults);
    FirstPersistWrites(FirstPersisted(st, input, faults).0, again);
  }

  /** Entries a first persist writes before its message. */
  predicate Preamble(entries: seq<Entry>) {
    forall e | e in entries :: e.payload.SessionInfo? || e.payload.Settings?
  }

  /** A failed first persist never leaves a message in the file, not even when the delete failed too. */
  lemma FailedFirstPersistLeavesNoMessage(st: Store, input: FirstInput, faults: FirstFaults)
    requires Preamble(DiskEntries(st.disk)) && !FirstPersisted(st, input, faults).1
    ensures Preamble(DiskEntries(FirstPersisted(st, input, faults).0.disk))
  {
  }

  // ----- the store object -----

  datatype Milestone = HeaderWritten | SessionOpened | NameAppended | SettingsAppended | MessageAppended

  class SessionStoreObject {
    var mem: seq<Entry>
    var disk: Disk
    var fatal: bool
    var milestones: set<Milestone>

    ghost function State(): Store
      reads this
    {
      Store(mem, disk, fatal)
    }

    constructor (st: Store)
      ensures State() == st
    {
      mem, disk, fatal := st.mem, st.disk, st.fatal;
      milestones := {};
    }

    method Append(e: Entry, ok: bool) returns (threw: bool)
      modifies this`mem, this`disk
      ensures State() == Appended(old(State()), e, ok) && threw == !ok
    {
      mem := mem + [e];
      if !ok {
        return true;
      }
      if disk.File? {
        disk := File(disk.header, disk.entries + [e]);
      }
      return false;
    }

    method SetSessionFile(outcome: Reload) returns (threw: bool)
      modifies this`mem
      ensures State() == Reloaded(old(State()), outcome) && threw == outcome.ReloadFails?
    {
      match outcome {
        case Loaded =>
          mem := DiskEntries(disk);
          threw := false;
        case ReloadFails(left) =>
          mem := left;
          threw := true;
      }
    }

    method RecoverFromFailedAppend(outcome: Reload)
      modifies this`mem, this`fatal
      ensures State() == Recovered(old(State()), outcome)
    {
      var threw := SetSessionFile(outcome);
      if threw {
        fatal := true;
      }
    }

    /** An ordinary append; when it throws, the store reloads or gives up. */
    method AppendOrRecover(e: Entry, fault: AppendFault) returns (threw: bool)
      modifies this`mem, this`disk, this`fatal
      ensures threw == !fault.Appends?
      ensures State() == if fault.Appends? then Appended(old(State()), e, true)
                         else Recovered(Appended(old(State()), e, false), fault.reload)
    {
      threw := Append(e, fault.Appends?);
      if threw {
        RecoverFromFailedAppend(fault.reload);
      }
    }

    method RollbackFirstPersist(deleted: bool)
      modifies this
      ensures milestones == {}
      ensures State() == if HeaderWritten in old(milestones) then
                           RolledBack(old(State()), SessionOpened in old(milestones), deleted)
                         else old(State()).(mem := if SessionOpened in old(milestones) then [] else old(mem))
    {
      var headerWritten := HeaderWritten in milestones;
      var sessionOpened := SessionOpened in milestones;
      milestones := {};
      if headerWritten {
        if !deleted {
          fatal := true;
          return;
        }
        disk := NoFile;
      }
      if sessionOpened {
        mem := [];
      }
    }

    /** Five steps with a mark before or after each, so that the rollback knows what to undo. */
    method PersistFirstMessage(input: FirstInput, faults: FirstFaults) returns (persisted: Option<nat>)
      modifies this
      ensures State() == FirstPersisted(old(State()), input, faults).0
      ensures persisted == if FirstPersisted(old(State()), input, faults).1 then Some(|FirstEntries(input)|) else None
    {
      milestones := {HeaderWritten};
      disk := AfterHeaderWrite(disk, input.header, faults.write);
      if faults.write != Written {
        RollbackFirstPersist(faults.delete);
        return None;
      }
      milestones := milestones + {SessionOpened};
      var threw := SetSessionFile(faults.open);
      if threw {
        RollbackFirstPersist(faults.delete);
        return None;
      }
      persisted := FillSession(input, faults);
    }

    /** The steps that append the first entries, each with its mark. */
    method FillSession(input: FirstInput, faults: FirstFaults) returns (persisted: Option<nat>)
      requires milestones == {HeaderWritten, SessionOpened}
      modifies this
      ensures State() == FirstFilled(old(State()), input, faults).0
      ensures persisted == if FirstFilled(old(State()), input, faults).1 then Some(|FirstEntries(input)|) else None
    {
      var count := 0;
      var threw := false;
      if input.name.Some? && input.name.value != "" {
        threw := Append(NameEntry(input)[0], faults.name);
        if threw {
          RollbackFirstPersist(faults.delete);
          return None;
        }
        milestones := milestones + {NameAppended};
        count := count + 1;
      }
      threw := Append(SettingsEntry(input.settingsStamp, input.limit), faults.settings);
      if threw {
        RollbackFirstPersist(faults.delete);
        return None;
      }
      milestones := milestones + {SettingsAppended};
      count := count + 1;
      threw := Append(PersonaEntry(input.messageStamp, input.limit, input.sequence, input.content), faults.message);
      if threw {
        RollbackFirstPersist(faults.delete);
        return None;
      }
      milestones := milestones + {MessageAppended};
      count := count + 1;
      return Some(count);
    }
  }
}
