/**
  The model-transition queue: a single-flight FIFO of capture, switch and restore
  tasks with one asynchronous model write.  A `Site` is what one queue reads and
  writes: its own fields, the baseline slots it shares with its successors, and
  the executor.  Each function below is one stretch of code between two awaits.
  */
module ModelQueue {
  import opened Common
  import opened Text

  datatype Identity = Identity(provider: string, id: string)

  datatype Mask = Mask(model: bool, thinking: bool)

  datatype Target = Target(model: Option<string>, thinking: Option<string>)

  datatype Task =
    | Capture(epoch: int, mask: Mask)
    | Switch(epoch: int, target: Target)
    | Restore(epoch: int)

  datatype Slot = Slot(mask: Mask, model: Option<Identity>, thinking: Option<string>)

  /** A write that was started: its task, its number, and the thinking level still to be applied. */
  datatype InFlight = InFlight(task: Task, write: nat, remaining: Option<string>)

  /**
    Where the run loop stands: not running; waiting for the barrier; between two
    tasks; waiting for a model write; or returned but not yet marked as stopped.
    */
  datatype Phase = Idle | AtBarrier | Looping | Writing | Exiting

  datatype Queue = Queue(
    tasks: seq<Task>,
    phase: Phase,
    frozen: bool,
    inFlight: Option<InFlight>,
    lastModel: Option<Identity>,
    lastThinking: Option<string>,
    activeEpoch: Option<int>)

  /** One model write; `accepted` is known once it has settled. */
  datatype Write = Write(target: Identity, accepted: Option<bool>)

  /**
    The executor: current model and thinking level, whether the getters can be
    observed, the models that resolve, and what applying a level leads to (the
    level in effect afterwards, which is the old one when the call throws).
    */
  datatype Executor = Executor(
    model: Identity,
    thinking: string,
    modelSeen: bool,
    thinkingSeen: bool,
    catalog: set<Identity>,
    think: (Identity, string, string) -> string)

  datatype Site = Site(q: Queue, slots: map<int, Slot>, exec: Executor, writes: seq<Write>)

  // ----- model references -----

  function IndexOfSlash(raw: string): (k: nat)
    ensures k <= |raw|
    ensures forall i :: 0 <= i < k ==> raw[i] != '/'
    ensures k < |raw| ==> raw[k] == '/'
  {
    if raw == "" || raw[0] == '/' then 0 else 1 + IndexOfSlash(raw[1..])
  }

  /** Split at the first slash; both parts are trimmed and neither may be empty. */
  function SplitModelReference(raw: string): Option<Identity> {
    var k := IndexOfSlash(raw);
    if k == |raw| then None else
    var provider, id := Trim(raw[..k]), Trim(raw[k + 1..]);
    if provider == "" || id == "" then None else Some(Identity(provider, id))
  }

  // ----- getters -----

  function RefreshModel(s: Site): Site {
    if s.exec.modelSeen then s.(q := s.q.(lastModel := Some(s.exec.model))) else s
  }

  function RefreshThinking(s: Site): Site {
    if s.exec.thinkingSeen then s.(q := s.q.(lastThinking := Some(s.exec.thinking))) else s
  }

  function ApplyThinking(s: Site, level: string): Site {
    RefreshThinking(s.(exec := s.exec.(thinking := s.exec.think(s.exec.model, s.exec.thinking, level))))
  }

  // ----- tasks -----

  function RunCapture(s: Site, epoch: int, mask: Mask): Site {
    var s1 := if mask.model then RefreshModel(s) else s;
    var s2 := if mask.thinking then RefreshThinking(s1) else s1;
    var slot := Slot(
      mask,
      if mask.model then s2.q.lastModel else None,
      if mask.thinking then s2.q.lastThinking else None);
    s2.(slots := s2.slots[epoch := slot])
  }

  /** Start the write; the caller has checked that the model resolves. */
  function StartWrite(s: Site, target: Identity, task: Task, remaining: Option<string>): Site {
    s.(q := s.q.(phase := Writing, inFlight := Some(InFlight(task, |s.writes|, remaining))),
       writes := s.writes + [Write(target, None)])
  }

  function SwitchTail(s: Site, target: Target): Site {
    if target.thinking.Some? then ApplyThinking(s, target.thinking.value) else s
  }

  function RunSwitch(s: Site, task: Task): Site
    requires task.Switch?
  {
    if s.q.activeEpoch != Some(task.epoch) then s
    else if task.target.model.None? then SwitchTail(s, task.target)
    else
      var parsed := SplitModelReference(task.target.model.value);
      if parsed.None? then s else
      var s1 := RefreshModel(s);
      if s1.q.lastModel == parsed then SwitchTail(s1, task.target)
      else if parsed.value !in s1.exec.catalog then s1
      else StartWrite(s1, parsed.value, task, task.target.thinking)
  }

  function DropSlot(s: Site, epoch: int): Site {
    s.(slots := s.slots - {epoch})
  }

  /** The part of a restore after the model dimension has been reached. */
  function RestoreTail(s: Site, epoch: int, slot: Slot): Site {
    if slot.mask.model && slot.mask.thinking && s.q.lastModel != slot.model then DropSlot(s, epoch)
    else if slot.mask.thinking && slot.thinking.Some? && s.q.lastThinking != slot.thinking then
      DropSlot(ApplyThinking(s, slot.thinking.value), epoch)
    else DropSlot(s, epoch)
  }

  function RestoreRemainder(slot: Slot): Option<string> {
    if slot.mask.thinking then slot.thinking else None
  }

  function RunRestore(s: Site, task: Task): Site
    requires task.Restore?
  {
    if task.epoch !in s.slots then s else
    var slot := s.slots[task.epoch];
    var s1 := RefreshThinking(RefreshModel(s));
    if slot.mask.model && slot.model.None? then DropSlot(s1, task.epoch)
    else if slot.mask.model && s1.q.lastModel != slot.model then
      if slot.model.value !in s1.exec.catalog then DropSlot(s1, task.epoch)
      else StartWrite(s1, slot.model.value, task, RestoreRemainder(slot))
    else RestoreTail(s1, task.epoch, slot)
  }

  function RunTask(s: Site, task: Task): Site {
    match task
    case Capture(epoch, mask) => RunCapture(s, epoch, mask)
    case Switch(_, _) => RunSwitch(s, task)
    case Restore(_) => RunRestore(s, task)
  }

  /** One turn of the run loop. */
  function RunNext(s: Site): Site {
    if s.q.phase != Looping then s
    else if s.q.frozen || s.q.tasks == [] then s.(q := s.q.(phase := Exiting))
    else RunTask(s.(q := s.q.(tasks := s.q.tasks[1..])), s.q.tasks[0])
  }

  predicate Settled(s: Site) {
    s.q.inFlight.Some? && s.q.inFlight.value.write < |s.writes|
    && s.writes[s.q.inFlight.value.write].accepted.Some?
  }

  /**
    Did the settled write reach its target?  The getter decides; the receipt counts only
    if nothing can be observed.
    */
  predicate Reached(s: Site, w: Write) {
    if s.exec.modelSeen then s.exec.model == w.target else w.accepted == Some(true)
  }

  /** The rest of a switch or restore after its own write. */
  function AfterWrite(s: Site, task: Task, w: Write): Site {
    var s1 := RefreshModel(s);
    match task
    case Capture(_, _) => s1
    case Switch(_, target) => if Reached(s1, w) then SwitchTail(s1, target) else s1
    case Restore(epoch) =>
      if !Reached(s1, w) then DropSlot(s1, epoch)
      else if epoch in s1.slots then RestoreTail(s1, epoch, s1.slots[epoch])
      else s1
  }

  /** The loop resumes after its write; a frozen queue drops the rest of its work. */
  function ResumeWrite(s: Site): Site
    requires Settled(s)
  {
    var f := s.q.inFlight.value;
    var s1 := s.(q := s.q.(inFlight := None, phase := Looping));
    if s.q.frozen then s1 else AfterWrite(s1, f.task, s.writes[f.write])
  }

  function BarrierTarget(s: Site, task: Task): Option<Identity> {
    match task
    case Switch(_, target) => if target.model.Some? then SplitModelReference(target.model.value) else None
    case _ => if task.epoch in s.slots then s.slots[task.epoch].model else None
  }

  /** The leftover of an inherited write, once that write has settled. */
  function FinishInherited(s: Site, f: InFlight): Site {
    var s1 := RefreshThinking(RefreshModel(s));
    var target := BarrierTarget(s1, f.task);
    var s2 := if f.remaining.Some? && target.Some? && s1.q.lastModel == target
              then ApplyThinking(s1, f.remaining.value) else s1;
    if f.task.Restore? then DropSlot(s2, f.task.epoch) else s2
  }

  /** The barrier resumes; a frozen queue leaves everything to its successor. */
  function ResumeBarrier(s: Site): Site
    requires Settled(s)
  {
    if s.q.frozen then s.(q := s.q.(phase := Looping))
    else
      var s1 := FinishInherited(s, s.q.inFlight.value);
      s1.(q := s1.q.(inFlight := None, phase := Looping))
  }

  /** Whatever the queue was waiting for has settled. */
  function Continue(s: Site): Site {
    if s.q.phase == Writing && Settled(s) then ResumeWrite(s)
    else if s.q.phase == AtBarrier && Settled(s) then ResumeBarrier(s)
    else s
  }

  /** The end of a run: it starts again when a task slipped in after the loop had ended. */
  function FinishRun(q: Queue): Queue {
    if q.phase != Exiting then q
    else if q.tasks != [] && !q.frozen then q.(phase := Looping)
    else q.(phase := Idle)
  }

  function Enqueue(q: Queue, task: Task): Queue {
    q.(tasks := q.tasks + [task], phase := if q.phase == Idle then Looping else q.phase)
  }

  function Submit(q: Queue, task: Task): Queue {
    match task
    case Capture(epoch, _) => Enqueue(q.(activeEpoch := Some(epoch)), task)
    case Switch(_, _) => Enqueue(q, task)
    case Restore(epoch) => Enqueue(if q.activeEpoch == Some(epoch) then q.(activeEpoch := None) else q, task)
  }

  const NEW_QUEUE := Queue([], Idle, false, None, None, None, None)

  /** The successor rebuilt from a frozen queue's snapshot. */
  function Rehydrated(q: Queue): Queue {
    Queue(q.tasks, if q.inFlight.Some? then AtBarrier else if q.tasks != [] then Looping else Idle,
          false, q.inFlight, q.lastModel, q.lastThinking, q.activeEpoch)
  }

  // ----- the objects -----

  class ExecutorObject {
    var model: Identity
    var thinking: string
    var modelSeen: bool
    var thinkingSeen: bool
    var writes: seq<Write>
    const catalog: set<Identity>
    const think: (Identity, string, string) -> string

    ghost function State(): Executor
      reads this
    {
      Executor(model, thinking, modelSeen, thinkingSeen, catalog, think)
    }

    constructor (e: Executor)
      ensures State() == e && writes == []
    {
      model, thinking, modelSeen, thinkingSeen, writes := e.model, e.thinking, e.modelSeen, e.thinkingSeen, [];
      catalog, think := e.catalog, e.think;
    }

    method GetModelIdentity() returns (m: Option<Identity>)
      ensures m == if modelSeen then Some(model) else None
    {
      return if modelSeen then Some(model) else None;
    }

    method GetThinkingLevel() returns (t: Option<string>)
      ensures t == if thinkingSeen then Some(thinking) else None
    {
      return if thinkingSeen then Some(thinking) else None;
    }

    /** Starts a write and returns its number; the model changes when it settles. */
    method ApplyModel(target: Identity) returns (write: nat)
      modifies this`writes
      ensures write == |old(writes)| && writes == old(writes) + [Write(target, None)]
    {
      write := |writes|;
      writes := writes + [Write(target, None)];
    }

    method ApplyLevel(level: string)
      modifies this`thinking
      ensures thinking == think(model, old(thinking), level)
    {
      thinking := think(model, thinking, level);
    }
  }

  class SlotTable {
    var slots: map<int, Slot>

    constructor ()
      ensures slots == map[]
    {
      slots := map[];
    }
  }

  class ModelTransitionQueue {
    var tasks: seq<Task>
    var phase: Phase
    var frozen: bool
    var inFlight: Option<InFlight>
    var lastModel: Option<Identity>
    var lastThinking: Option<string>
    var activeEpoch: Option<int>
    const table: SlotTable
    const executor: ExecutorObject

    ghost function State(): Queue
      reads this
    {
      Queue(tasks, phase, frozen, inFlight, lastModel, lastThinking, activeEpoch)
    }

    ghost function Here(): Site
      reads this, table, executor
    {
      Site(State(), table.slots, executor.State(), executor.writes)
    }

    constructor (executor: ExecutorObject)
      ensures State() == NEW_QUEUE && fresh(table) && table.slots == map[] && this.executor == executor
    {
      tasks, phase, frozen, inFlight := [], Idle, false, None;
      lastModel, lastThinking, activeEpoch := None, None, None;
      table := new SlotTable();
      this.executor := executor;
    }

    /** The successor shares the slot table of the queue it replaces. */
    constructor Rehydrate(previous: ModelTransitionQueue, executor: ExecutorObject)
      ensures State() == Rehydrated(previous.State()) && table == previous.table && this.executor == executor
    {
      tasks := previous.tasks;
      phase := if previous.inFlight.Some? then AtBarrier else if previous.tasks != [] then Looping else Idle;
      frozen, inFlight := false, previous.inFlight;
      lastModel, lastThinking, activeEpoch := previous.lastModel, previous.lastThinking, previous.activeEpoch;
      table := previous.table;
      this.executor := executor;
    }

    method Freeze()
      modifies this`frozen
      ensures frozen
    {
      frozen := true;
    }

    method NoteModelIdentity(m: Option<Identity>)
      modifies this`lastModel
      ensures lastModel == if m.Some? then m else old(lastModel)
    {
      if m.Some? {
        lastModel := m;
      }
    }

    method NoteThinkingLevel(t: Option<string>)
      modifies this`lastThinking
      ensures lastThinking == if t.Some? then t else old(lastThinking)
    {
      if t.Some? {
        lastThinking := t;
      }
    }

    method SubmitTask(task: Task)
      modifies this
      ensures State() == Submit(old(State()), task)
    {
      match task {
        case Capture(epoch, _) => activeEpoch := Some(epoch);
        case Switch(_, _) =>
        case Restore(epoch) =>
          if activeEpoch == Some(epoch) {
            activeEpoch := None;
          }
      }
      tasks := tasks + [task];
      if phase == Idle {
        phase := Looping;
      }
    }

    method Finish()
      modifies this`phase
      ensures State() == FinishRun(old(State()))
    {
      if phase != Exiting {
        return;
      }
      phase := if tasks != [] && !frozen then Looping else Idle;
    }

    method RefreshModelRecord() returns (observed: Option<Identity>)
      modifies this`lastModel
      ensures Here() == RefreshModel(old(Here()))
      ensures observed == if executor.modelSeen then Some(executor.model) else None
    {
      observed := executor.GetModelIdentity();
      if observed.Some? {
        lastModel := observed;
      }
    }

    method RefreshThinkingRecord()
      modifies this`lastThinking
      ensures Here() == RefreshThinking(old(Here()))
    {
      var observed := executor.GetThinkingLevel();
      if observed.Some? {
        lastThinking := observed;
      }
    }

    method ApplyThinkingDimension(level: string)
      modifies this`lastThinking, executor`thinking
      ensures Here() == ApplyThinking(old(Here()), level)
    {
      executor.ApplyLevel(level);
      RefreshThinkingRecord();
    }

    method BeginWrite(target: Identity, task: Task, remaining: Option<string>)
      modifies this`inFlight, this`phase, executor`writes
      ensures Here() == StartWrite(old(Here()), target, task, remaining)
    {
      var write := executor.ApplyModel(target);
      inFlight := Some(InFlight(task, write, remaining));
      phase := Writing;
    }

    method Drop(epoch: int)
      modifies table
      ensures Here() == DropSlot(old(Here()), epoch)
    {
      table.slots := table.slots - {epoch};
    }

    method DoCapture(epoch: int, mask: Mask)
      modifies this`lastModel, this`lastThinking, table
      ensures Here() == RunCapture(old(Here()), epoch, mask)
    {
      var slot := Slot(mask, None, None);
      if mask.model {
        var _ := RefreshModelRecord();
        slot := slot.(model := lastModel);
      }
      if mask.thinking {
        RefreshThinkingRecord();
        slot := slot.(thinking := lastThinking);
      }
      table.slots := table.slots[epoch := slot];
    }

    method DoSwitch(task: Task)
      requires task.Switch?
      modifies this, executor
      ensures Here() == RunSwitch(old(Here()), task)
    {
      if activeEpoch != Some(task.epoch) {
        return;
      }
      if task.target.model.Some? {
        var parsed := SplitModelReference(task.target.model.value);
        if parsed.None? {
          return;
        }
        var _ := RefreshModelRecord();
        if lastModel != parsed {
          if parsed.value in executor.catalog {
            BeginWrite(parsed.value, task, task.target.thinking);
          }
          return;
        }
      }
      if task.target.thinking.Some? {
        ApplyThinkingDimension(task.target.thinking.value);
      }
    }

    method DoRestore(task: Task)
      requires task.Restore?
      modifies this, executor, table
      ensures Here() == RunRestore(old(Here()), task)
    {
      if task.epoch !in table.slots {
        return;
      }
      var slot := table.slots[task.epoch];
      var _ := RefreshModelRecord();
      RefreshThinkingRecord();
      if slot.mask.model {
        if slot.model.None? {
          Drop(task.epoch);
          return;
        }
        if lastModel != slot.model {
          if slot.model.value in executor.catalog {
            BeginWrite(slot.model.value, task, if slot.mask.thinking then slot.thinking else None);
          } else {
            Drop(task.epoch);
          }
          return;
        }
      }
      FinishRestore(task.epoch, slot);
    }

    method FinishRestore(epoch: int, slot: Slot)
      modifies this`lastThinking, executor`thinking, table
      ensures Here() == RestoreTail(old(Here()), epoch, slot)
    {
      if slot.mask.model && slot.mask.thinking && lastModel != slot.model {
        Drop(epoch);
        return;
      }
      if slot.mask.thinking && slot.thinking.Some? && lastThinking != slot.thinking {
        ApplyThinkingDimension(slot.thinking.value);
      }
      Drop(epoch);
    }

    /** One turn of the run loop, up to its next await. */
    method Turn()
      modifies this, executor, table
      ensures Here() == RunNext(old(Here()))
    {
      if phase != Looping {
        return;
      }
      if frozen || tasks == [] {
        phase := Exiting;
        return;
      }
      var task := tasks[0];
      tasks := tasks[1..];
      match task {
        case Capture(epoch, mask) => DoCapture(epoch, mask);
        case Switch(_, _) => DoSwitch(task);
        case Restore(_) => DoRestore(task);
      }
    }

    /** The write this queue started has settled. */
    method OnWriteSettled()
      requires Settled(Here())
      modifies this, executor, table
      ensures Here() == ResumeWrite(old(Here()))
    {
      var f := inFlight.value;
      var w := executor.writes[f.write];
      inFlight, phase := None, Looping;
      if frozen {
        return;
      }
      var observed := RefreshModelRecord();
      var reached := if observed.Some? then observed.value == w.target else w.accepted == Some(true);
      match f.task {
        case Capture(_, _) =>
        case Switch(_, target) =>
          if reached && target.thinking.Some? {
            ApplyThinkingDimension(target.thinking.value);
          }
        case Restore(epoch) =>
          if !reached {
            Drop(epoch);
          } else if epoch in table.slots {
            FinishRestore(epoch, table.slots[epoch]);
          }
      }
    }

    /** The model an inherited write is for. */
    method TargetOf(task: Task) returns (target: Option<Identity>)
      ensures target == BarrierTarget(Here(), task)
    {
      target := None;
      match task {
        case Switch(_, t) =>
          if t.model.Some? {
            target := SplitModelReference(t.model.value);
          }
        case _ =>
          if task.epoch in table.slots {
            target := table.slots[task.epoch].model;
          }
      }
    }

    /** The inherited write has settled. */
    method OnBarrierSettled()
      requires Settled(Here())
      modifies this, executor, table
      ensures Here() == ResumeBarrier(old(Here()))
    {
      if frozen {
        phase := Looping;
        return;
      }
      var f := inFlight.value;
      var _ := RefreshModelRecord();
      RefreshThinkingRecord();
      if f.remaining.Some? {
        var target := TargetOf(f.task);
        if target.Some? && lastModel == target {
          ApplyThinkingDimension(f.remaining.value);
        }
      }
      if f.task.Restore? {
        Drop(f.task.epoch);
      }
      inFlight, phase := None, Looping;
    }
  }
}
