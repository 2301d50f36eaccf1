/**
  What a capture records, what a restore and a barrier do with it, and when a
  baseline is given up, for every executor, observed or not.
  */
module Baselines {
  import opened Common
  import opened ModelQueue
  import opened Handoff
  import Text

  /** The model the queue goes by: the getter's answer, or its record. */
  function ModelNow(s: Site): Option<Identity> {
    if s.exec.modelSeen then Some(s.exec.model) else s.q.lastModel
  }

  function LevelNow(s: Site): Option<string> {
    if s.exec.thinkingSeen then Some(s.exec.thinking) else s.q.lastThinking
  }

  /** The queue itself, its executor and its writes are as before, but for the records. */
  ghost predicate OnlyRecords(s: Site, t: Site) {
    && t.exec == s.exec && t.writes == s.writes
    && t.q == s.q.(lastModel := t.q.lastModel, lastThinking := t.q.lastThinking)
  }

  /** A capture records what is in effect in the masked dimensions, beside the baselines of other rounds. */
  lemma CaptureRecords(s: Site, epoch: int, mask: Mask)
    ensures
      var t := RunTask(s, Capture(epoch, mask));
      && OnlyRecords(s, t)
      && t.slots == s.slots[epoch := Slot(mask, if mask.model then ModelNow(s) else None,
                                          if mask.thinking then LevelNow(s) else None)]
      && (mask.model && s.exec.modelSeen ==> t.q.lastModel == Some(s.exec.model))
      && (mask.thinking && s.exec.thinkingSeen ==> t.q.lastThinking == Some(s.exec.thinking))
  {
  }

  /** The level is set, as far as the executor takes it, and what came of it is on record. */
  ghost predicate LevelSet(s: Site, t: Site, level: string) {
    && t.exec == s.exec.(thinking := s.exec.think(s.exec.model, s.exec.thinking, level)) && t.writes == s.writes
    && (s.exec.thinkingSeen ==> t.q.lastThinking == Some(t.exec.thinking))
  }

  /** The baseline of this round is gone, every other one is as it was. */
  predicate GivenUp(s: Site, t: Site, epoch: int) {
    t.slots == s.slots - {epoch}
  }

  /** There is another model to go back to. */
  predicate NeedsWrite(s: Site, slot: Slot) {
    slot.mask.model && slot.model.Some? && ModelNow(s) != slot.model
  }

  predicate NeedsLevel(s: Site, slot: Slot) {
    slot.mask.thinking && slot.thinking.Some? && LevelNow(s) != slot.thinking
  }

  lemma RestoreWithoutBaseline(s: Site, epoch: int)
    requires epoch !in s.slots
    ensures RunTask(s, Restore(epoch)) == s
  {
  }

  /** A restore to another model starts its write and keeps the baseline until it has settled. */
  lemma RestoreStartsWrite(s: Site, epoch: int)
    requires epoch in s.slots && NeedsWrite(s, s.slots[epoch]) && s.slots[epoch].model.value in s.exec.catalog
    ensures
      var slot, t := s.slots[epoch], RunTask(s, Restore(epoch));
      && t.exec == s.exec && t.slots == s.slots
      && t.writes == s.writes + [Write(slot.model.value, None)]
      && t.q.phase == Writing && t.q.tasks == s.q.tasks
      && t.q.inFlight
         == Some(InFlight(Restore(epoch), |s.writes|, if slot.mask.thinking then slot.thinking else None))
  {
  }

  /** One that cannot: the model was never known, or does not resolve.  The baseline is given up as it is. */
  lemma RestoreGivesUp(s: Site, epoch: int)
    requires epoch in s.slots && s.slots[epoch].mask.model
    requires s.slots[epoch].model.None?
             || (NeedsWrite(s, s.slots[epoch]) && s.slots[epoch].model.value !in s.exec.catalog)
    ensures
      var t := RunTask(s, Restore(epoch));
      OnlyRecords(s, t) && GivenUp(s, t, epoch)
  {
  }

  /** On the baseline's model, or without one, the level is set if it is another, and the baseline is given up. */
  lemma RestoreInPlace(s: Site, epoch: int)
    requires epoch in s.slots
    requires var slot := s.slots[epoch]; !slot.mask.model || (slot.model.Some? && ModelNow(s) == slot.model)
    ensures
      var slot, t := s.slots[epoch], RunTask(s, Restore(epoch));
      && GivenUp(s, t, epoch) && t.writes == s.writes && t.q.inFlight == s.q.inFlight
      && (NeedsLevel(s, slot) ==> LevelSet(s, t, slot.thinking.value))
      && (!NeedsLevel(s, slot) ==> t.exec == s.exec)
  {
  }

  /** Did the write reach its target?  The getter decides; the receipt counts only if nothing can be observed. */
  predicate Landed(s: Site, w: Write) {
    if s.exec.modelSeen then s.exec.model == w.target else w.accepted == Some(true)
  }

  /**
    The queue that made a restore's write gives the baseline up in any case.  It sets
    the level only if the write landed, the model it goes by is the baseline's, and
    the level it goes by is another.
    */
  lemma RestoreEnds(s: Site, epoch: int)
    requires Settled(s) && s.q.phase == Writing && !s.q.frozen && s.q.inFlight.value.task == Restore(epoch)
    requires epoch in s.slots && s.slots[epoch].mask.model
    ensures
      var slot, w, t := s.slots[epoch], s.writes[s.q.inFlight.value.write], Continue(s);
      var sets := && Landed(s, w) && slot.mask.thinking && slot.thinking.Some?
                  && ModelNow(s) == slot.model && s.q.lastThinking != slot.thinking;
      && GivenUp(s, t, epoch) && t.q.inFlight.None? && t.q.phase == Looping && t.q.tasks == s.q.tasks
      && (sets ==> LevelSet(s, t, slot.thinking.value))
      && (!sets ==> t.exec == s.exec)
  {
  }

  /** A switch's write ends with the level it was started with, if it landed. */
  lemma SwitchEnds(s: Site)
    requires Settled(s) && s.q.phase == Writing && !s.q.frozen && s.q.inFlight.value.task.Switch?
    ensures
      var level, w, t := s.q.inFlight.value.task.target.thinking, s.writes[s.q.inFlight.value.write], Continue(s);
      && t.slots == s.slots && t.q.inFlight.None? && t.q.phase == Looping && t.q.tasks == s.q.tasks
      && (Landed(s, w) && level.Some? ==> LevelSet(s, t, level.value))
      && (!(Landed(s, w) && level.Some?) ==> t.exec == s.exec)
  {
  }

  /**
    At the barrier the level that was left is set on the write's target only, by the
    model the successor goes by; a restore's baseline is given up, a switch's stays.
    */
  lemma BarrierEnds(s: Site)
    requires Settled(s) && s.q.phase == AtBarrier && !s.q.frozen && !s.q.inFlight.value.task.Capture?
    requires s.q.inFlight.value.task.Restore? ==> s.q.inFlight.value.task.epoch in s.slots
    ensures
      var f, t := s.q.inFlight.value, Continue(s);
      var target :=
        if f.task.Restore? then s.slots[f.task.epoch].model
        else if f.task.target.model.Some? then SplitModelReference(f.task.target.model.value)
        else None;
      var sets := f.remaining.Some? && target.Some? && ModelNow(s) == target;
      && t.q.inFlight.None? && t.q.phase == Looping && t.q.tasks == s.q.tasks
      && (f.task.Restore? ==> GivenUp(s, t, f.task.epoch)) && (f.task.Switch? ==> t.slots == s.slots)
      && (sets ==> LevelSet(s, t, f.remaining.value))
      && (!sets ==> t.exec == s.exec)
  {
  }

  /** A frozen queue that is woken by its write leaves slots, settings and writes to its successor. */
  lemma FrozenEnds(s: Site)
    requires Settled(s) && Waiting(s.q.phase) && s.q.frozen
    ensures
      var t := Continue(s);
      t.slots == s.slots && t.exec == s.exec && t.writes == s.writes && t.q.phase == Looping && t.q.tasks == s.q.tasks
  {
  }

  /** The loop of a frozen queue, or of one without tasks, ends; it is over once that is noticed. */
  lemma LoopEnds(s: Site)
    requires s.q.phase == Looping && (s.q.frozen || s.q.tasks == [])
    ensures RunNext(s) == s.(q := s.q.(phase := Exiting))
    ensures FinishRun(RunNext(s).q) == s.q.(phase := Idle)
  {
  }

  /** A task that slips in after the loop has ended starts it again. */
  lemma LateTaskRuns(s: Site, task: Task)
    requires s.q.phase == Exiting && !s.q.frozen
    ensures FinishRun(Submit(s.q, task)).phase == Looping
    ensures Submit(s.q, task).tasks == s.q.tasks + [task]
  {
  }

  /** What a submission does to the round in force: a capture opens its own, a restore closes its own and no other. */
  lemma SubmissionMarksRound(q: Queue, task: Task)
    ensures
      var r := Submit(q, task);
      && r == q.(tasks := q.tasks + [task], phase := r.phase, activeEpoch := r.activeEpoch)
      && (q.phase == Idle ==> r.phase == Looping) && (q.phase != Idle ==> r.phase == q.phase)
      && (task.Capture? ==> r.activeEpoch == Some(task.epoch))
      && (task.Switch? ==> r.activeEpoch == q.activeEpoch)
      && (task.Restore? && q.activeEpoch == Some(task.epoch) ==> r.activeEpoch.None?)
      && (task.Restore? && q.activeEpoch != Some(task.epoch) ==> r.activeEpoch == q.activeEpoch)
  {
  }

  /** A successor takes over tasks, write, records and round, and waits for the write before anything else. */
  lemma SuccessorTakesOver(q: Queue)
    ensures
      var r := Rehydrated(q);
      && r.tasks == q.tasks && r.inFlight == q.inFlight && r.activeEpoch == q.activeEpoch
      && r.lastModel == q.lastModel && r.lastThinking == q.lastThinking && !r.frozen
      && (q.inFlight.Some? ==> r.phase == AtBarrier)
      && (q.inFlight.None? && q.tasks != [] ==> r.phase == Looping)
      && (q.inFlight.None? && q.tasks == [] ==> r.phase == Idle)
  {
  }

  // ----- references -----

  predicate Plain(s: string) {
    forall i :: 0 <= i < |s| ==> s[i] != '/'
  }

  lemma {:induction false} FirstSlash(provider: string, id: string)
    requires Plain(provider)
    ensures IndexOfSlash(provider + "/" + id) == |provider|
  {
    var raw := provider + "/" + id;
    if provider != "" {
      assert raw[1..] == provider[1..] + "/" + id;
      FirstSlash(provider[1..], id);
    }
  }

  /** "provider/id" names that model: split at the first slash, each part trimmed, neither empty. */
  lemma ReferenceIs(provider: string, id: string)
    requires Plain(provider)
    ensures SplitModelReference(provider + "/" + id)
            == if Text.Trim(provider) == "" || Text.Trim(id) == "" then None
               else Some(Identity(Text.Trim(provider), Text.Trim(id)))
  {
    var raw := provider + "/" + id;
    FirstSlash(provider, id);
    assert raw[..|provider|] == provider && raw[|provider| + 1..] == id;
  }

  /** Text without a slash names none. */
  lemma {:induction false} NoReference(raw: string)
    requires Plain(raw)
    ensures SplitModelReference(raw).None?
  {
    assert IndexOfSlash(raw) == |raw|;
  }
}
