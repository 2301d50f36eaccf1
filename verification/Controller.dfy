/**
  The part of the tavern controller that drives the model-transition queue: one
  round per stay as a character, submitted as capture and switch on entry and
  restore on any way out.
  */
module Controller {
  import opened Common
  import opened ModelQueue
  import opened Rounds

  /** A profile field of a character card. */
  datatype Field = Absent | Valid(value: string) | Invalid

  datatype Plan = Plan(mask: Mask, target: Target)

  function FieldValue(f: Field): Option<string> {
    if f.Valid? then Some(f.value) else None
  }

  /** Fields that are absent or invalid never reach the queue. */
  function PlanModelProfile(model: Field, thinking: Field): (p: Plan)
    ensures Fits(p.target, p.mask)
    ensures p.mask.model <==> model.Valid?
    ensures p.mask.thinking <==> thinking.Valid?
    ensures p.target.model == if model.Valid? then Some(model.value) else None
    ensures p.target.thinking == if thinking.Valid? then Some(thinking.value) else None
  {
    Plan(Mask(model.Valid?, thinking.Valid?), Target(FieldValue(model), FieldValue(thinking)))
  }

  datatype Mode = Outside | Joining | Inside

  class TavernController {
    var mode: Mode
    var modelHookEpoch: int
    var modelHookActiveEpoch: Option<int>
    var modelQueue: ModelTransitionQueue?
    /** Every task submitted so far, to this queue or the ones it was rebuilt from. */
    ghost var submitted: seq<Task>

    /** The stage all submissions so far lead to. */
    ghost function Reached(): Option<Stage>
      reads this
    {
      FollowAll(Some(AtBase), submitted)
    }

    /** What was submitted is a run of whole rounds, the last one still unfinished exactly while inside. */
    ghost predicate Valid()
      reads this, modelQueue
    {
      && (mode != Inside ==> modelHookActiveEpoch.None?)
      && (modelHookActiveEpoch.None? ==> Reached() == Some(AtBase))
      && (modelHookActiveEpoch.Some? ==>
            Reached().Some? && Reached().value.Switched? && Reached().value.epoch == modelHookActiveEpoch.value)
      && (modelQueue == null ==> modelHookActiveEpoch.None?)
      && (modelQueue != null ==> modelQueue.activeEpoch == modelHookActiveEpoch)
    }

    constructor ()
      ensures Valid() && submitted == [] && mode == Outside
    {
      mode, modelHookEpoch, modelHookActiveEpoch, modelQueue, submitted := Outside, 0, None, null, [];
    }

    method StartJoining() returns (ok: bool)
      requires Valid()
      modifies this`mode
      ensures Valid() && ok == (old(mode) == Outside)
      ensures mode == if ok then Joining else old(mode)
    {
      ok := mode == Outside;
      if ok {
        mode := Joining;
      }
    }

    /** Entering as a character starts a round when the card names a model or a level and there is a queue to run it. */
    method ClaimCharacter(model: Field, thinking: Field, executor: ExecutorObject?) returns (ok: bool)
      requires Valid()
      modifies this, modelQueue
      ensures Valid() && ok == (old(mode) == Joining)
      ensures mode == if ok then Inside else old(mode)
      ensures
        var plan := PlanModelProfile(model, thinking);
        if ok && (plan.mask.model || plan.mask.thinking) && (executor != null || old(modelQueue) != null) then
          var epoch := old(modelHookEpoch) + 1;
          submitted == old(submitted) + [Capture(epoch, plan.mask), Switch(epoch, plan.target)]
        else submitted == old(submitted)
    {
      ok := mode == Joining;
      if !ok {
        return;
      }
      mode := Inside;
      var plan := PlanModelProfile(model, thinking);
      if !plan.mask.model && !plan.mask.thinking {
        return;
      }
      if modelQueue == null {
        if executor == null {
          return;
        }
        modelQueue := new ModelTransitionQueue(executor);
      }
      modelHookEpoch := modelHookEpoch + 1;
      modelHookActiveEpoch := Some(modelHookEpoch);
      var capture, switch := Capture(modelHookEpoch, plan.mask), Switch(modelHookEpoch, plan.target);
      modelQueue.SubmitTask(capture);
      modelQueue.SubmitTask(switch);
      FollowAppend(Some(AtBase), submitted, capture);
      FollowAppend(Some(AtBase), submitted + [capture], switch);
      submitted := submitted + [capture] + [switch];
    }

    /** Leaving, by command or by a lost connection, ends the round. */
    method Leave()
      requires Valid()
      modifies this, modelQueue
      ensures Valid() && mode == Outside && modelHookActiveEpoch.None?
      ensures Reached() == Some(AtBase)
      ensures
        var active := old(modelHookActiveEpoch);
        submitted == old(submitted) + if active.Some? then [Restore(active.value)] else []
    {
      mode := Outside;
      if modelHookActiveEpoch.None? || modelQueue == null {
        return;
      }
      var restore := Restore(modelHookActiveEpoch.value);
      modelQueue.SubmitTask(restore);
      modelHookActiveEpoch := None;
      FollowAppend(Some(AtBase), submitted, restore);
      submitted := submitted + [restore];
    }

    /**
      The controller of the next runtime takes over the queue of the one before, with the
      epochs of its slots: the round goes on.
      */
    constructor Adopt(previous: TavernController, executor: ExecutorObject, epochs: seq<int>)
      requires previous.Valid() && previous.mode == Inside && previous.modelQueue != null
      requires forall e :: e in epochs <==> e in previous.modelQueue.table.slots
      ensures Valid() && mode == Inside && submitted == previous.submitted
      ensures modelHookActiveEpoch == previous.modelHookActiveEpoch
      ensures modelQueue != null && fresh(modelQueue)
      ensures modelQueue.State() == Rehydrated(previous.modelQueue.State())
      ensures forall e ::
                Some(e) == modelHookActiveEpoch || e in previous.modelQueue.table.slots ==> modelHookEpoch >= e
    {
      mode := Inside;
      var active := previous.modelQueue.activeEpoch;
      var known := epochs + if active.Some? then [active.value] else [];
      var epoch := Newest(known);
      assert forall e :: Some(e) == active || e in epochs ==> e in known;
      modelQueue := new ModelTransitionQueue.Rehydrate(previous.modelQueue, executor);
      modelHookEpoch := epoch;
      modelHookActiveEpoch := active;
      submitted := previous.submitted;
    }
  }

  /** The largest of zero and the given epochs. */
  method Newest(epochs: seq<int>) returns (n: int)
    ensures n >= 0 && (n == 0 || n in epochs)
    ensures forall e :: e in epochs ==> n >= e
  {
    n := 0;
    for i := 0 to |epochs|
      invariant n >= 0 && (n == 0 || n in epochs)
      invariant forall e :: e in epochs[..i] ==> n >= e
    {
      assert epochs[..i + 1] == epochs[..i] + [epochs[i]];
      n := Max(n, epochs[i]);
    }
    assert epochs[..|epochs|] == epochs;
  }
}
