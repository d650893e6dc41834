/** Under which parameters `old_log_prob` is computed: the snapshots taken by `_process_batch_common`
    (recipe/fully_async_policy/ray_trainer.py, recipe/fully_async_policy/fsdp_workers.py). */
module OldLogProb {
  import opened Arith
  import opened Options

  /** The live parameters of the actor and its CPU snapshots. */
  datatype Worker<P> = Worker(params: P, saved: map<nat, P>)

  function Save<P>(w: Worker<P>, n: nat): Worker<P> { w.(saved := w.saved[n := w.params]) }

  function Restore<P>(w: Worker<P>, n: nat): Worker<P> { if n in w.saved then w.(params := w.saved[n]) else w }

  function Clear<P>(w: Worker<P>, n: nat): Worker<P> { w.(saved := w.saved - {n}) }

  class ActorWorker<P> {
    var params: P
    var cpuSavedModels: map<nat, P>

    ghost function View(): Worker<P>
      reads this
    {
      Worker(params, cpuSavedModels)
    }

    constructor (initial: P)
      ensures View() == Worker(initial, map[])
    {
      params, cpuSavedModels := initial, map[];
    }

    method SaveModelToCpu(n: nat)
      modifies this
      ensures View() == Save(old(View()), n)
    {
      cpuSavedModels := cpuSavedModels[n := params];
    }

    method RestoreModelFromCpu(n: nat)
      modifies this
      ensures View() == Restore(old(View()), n)
    {
      if n in cpuSavedModels {
        params := cpuSavedModels[n];
      }
    }

    method ClearCpuModel(n: nat)
      modifies this
      ensures View() == Clear(old(View()), n)
    {
      if n in cpuSavedModels {
        cpuSavedModels := cpuSavedModels - {n};
      } else {
        assert cpuSavedModels - {n} == cpuSavedModels;
      }
    }

    /** The parameters that `compute_log_prob` runs under. */
    method ComputeLogProb() returns (under: P)
      ensures under == params
    {
      under := params;
    }

    /** The old-log-prob part of `_process_batch_common`; None when the rollout's own log-probs are
        used. In every case the live parameters come out as they went in, and only snapshot 1 can
        have changed. */
    method ProcessBatch(useRolloutLogProbs: bool, localTriggerStep: Option<nat>) returns (under: Option<P>)
      modifies this
      ensures params == old(params)
      ensures !useRolloutLogProbs ==> under == Some(params) && cpuSavedModels == old(cpuSavedModels)
      ensures useRolloutLogProbs && localTriggerStep == None ==> under == None && cpuSavedModels == old(cpuSavedModels)
      ensures useRolloutLogProbs && localTriggerStep == Some(1) ==>
                under == Some(params) && cpuSavedModels == old(cpuSavedModels)[1 := params]
      ensures useRolloutLogProbs && localTriggerStep.Some? && localTriggerStep != Some(1) ==>
                && cpuSavedModels == old(cpuSavedModels) - {localTriggerStep.value}
                && under == Some(if 1 in old(cpuSavedModels) then old(cpuSavedModels)[1] else params)
    {
      if useRolloutLogProbs {
        if localTriggerStep == Some(1) {
          SaveModelToCpu(1);
          var u := ComputeLogProb();
          under := Some(u);
        } else if localTriggerStep.Some? {
          var n := localTriggerStep.value;
          SaveModelToCpu(n);
          RestoreModelFromCpu(1);
          var u := ComputeLogProb();
          under := Some(u);
          RestoreModelFromCpu(n);
          ClearCpuModel(n);
        } else {
          under := None;
        }
      } else {
        var u := ComputeLogProb();
        under := Some(u);
      }
    }
  }

  /** One training step of `fit` seen from the actor; `synced` is what the rollouter was last sent. */
  method TrainOneStep<P>(actor: ActorWorker<P>, localTriggerStep: nat, triggerStep: nat, synced: P, updated: P)
    returns (under: P, nextStep: nat, nextSynced: P)
    requires 1 <= localTriggerStep <= triggerStep
    requires if localTriggerStep == 1 then actor.params == synced && actor.cpuSavedModels.Keys <= {1}
             else actor.cpuSavedModels == map[1 := synced]
    modifies actor
    ensures under == synced
    ensures actor.params == updated && actor.cpuSavedModels == map[1 := synced]
    ensures 1 <= nextStep <= triggerStep
    ensures nextStep == 1 ==> localTriggerStep == triggerStep && nextSynced == actor.params
    ensures nextStep != 1 ==> nextStep == localTriggerStep + 1 && nextSynced == synced
  {
    var computed := actor.ProcessBatch(true, Some(localTriggerStep));
    under := computed.value;
    actor.params := updated;                       // update_actor
    if localTriggerStep < triggerStep {
      nextStep, nextSynced := localTriggerStep + 1, synced;
    } else {
      nextStep, nextSynced := 1, actor.params;     // sync_weights
    }
  }

  /** What had last been sent to the rollouter when step i (from 0) begins: the initial parameters,
      or those after the last step of the previous window. */
  function SentBefore<P>(initial: P, updates: seq<P>, triggerStep: nat, i: nat): P
    requires triggerStep >= 1 && i <= |updates|
  {
    var window := i / triggerStep;
    assert triggerStep * window <= i;
    if window == 0 then initial else updates[triggerStep * window - 1]
  }

  /** With proximal log-probs enabled, over any number of steps and synchronisations every
      old_log_prob is computed under the parameters last sent to the rollouter, whatever the updates
      did in between, and only snapshot 1 remains. */
  method TrainRun<P>(initial: P, updates: seq<P>, triggerStep: nat) returns (unders: seq<P>, saved: map<nat, P>)
    requires triggerStep >= 1
    ensures |unders| == |updates|
    ensures forall i :: 0 <= i < |unders| ==> unders[i] == SentBefore(initial, updates, triggerStep, i)
    ensures updates != [] ==> saved.Keys == {1}
  {
    var actor := new ActorWorker(initial);
    var step, synced := 1, initial;
    unders := [];
    ghost var window := 0;
    while |unders| < |updates|
      invariant |unders| <= |updates|
      invariant 1 <= step <= triggerStep && |unders| == triggerStep * window + step - 1
      invariant synced == (if window == 0 then initial else updates[triggerStep * window - 1])
      invariant window > 0 ==> 0 <= triggerStep * window - 1 < |updates|
      invariant if step == 1 then actor.params == synced && actor.cpuSavedModels.Keys <= {1}
                else actor.cpuSavedModels == map[1 := synced]
      invariant unders != [] ==> actor.cpuSavedModels.Keys == {1}
      invariant forall i :: 0 <= i < |unders| ==> unders[i] == SentBefore(initial, updates, triggerStep, i)
    {
      var update := updates[|unders|];
      DivUnique(|unders|, triggerStep, window);
      var under, nextStep, nextSynced := TrainOneStep(actor, step, triggerStep, synced, update);
      unders := unders + [under];
      if nextStep == 1 {
        assert triggerStep * (window + 1) == triggerStep * window + triggerStep;
        window := window + 1;
      }
      step, synced := nextStep, nextSynced;
    }
    saved := actor.cpuSavedModels;
  }
}
