/** The tuner delegator: holds a construct directive and a tuner directive, obtains a
trainable construct delegator for the former, and assembles the tuner job from what that
delegator supplies. Its fields start unset and are filled in a fixed order. */
module Tuner {
  import opened Directives
  import opened RayRecords

  /** What the tuner delegator uses of a trainable construct delegator: the outcome of its
      `delegate()` and its `target_trainable_ray_prefix`. How it computes them is not part of
      this model. */
  datatype TrainableSupplier = TrainableSupplier(delegation: Result<ParamSpace>, targetTrainableRayPrefix: string)

  /** The setup steps of `delegate_tuner_entity`, as recorded in the ghost trace. */
  datatype Step = RunConfigSetup | TrainablePrefixAndParamSpaceSetup

  /** The tuner `delegate_tuner_entity` returns given the construct delegator and the run
      configuration: the delegator must be there, and its delegation must succeed. */
  function Delegated(supplier: Option<TrainableSupplier>, runConfig: Option<RunConfig>): Result<Tuner> {
    match supplier
    case None => Failure(NoSuchAttribute("delegate"))
    case Some(d) =>
      match d.delegation
      case Failure(e) => Failure(e)
      case Success(paramSpace) => Success(Tuner(Some(d.targetTrainableRayPrefix), Some(paramSpace), runConfig))
  }

  /** The tuner job exists exactly when a construct delegator is present and delegates
      successfully; it then carries that delegator's prefix and parameter space and the given
      run configuration, and otherwise the error is the missing attribute or the delegation's. */
  lemma DelegatedSpec(supplier: Option<TrainableSupplier>, runConfig: Option<RunConfig>)
    ensures Delegated(supplier, runConfig).Success? <==> supplier.Some? && supplier.value.delegation.Success?
    ensures Delegated(supplier, runConfig).Success? ==>
              && Delegated(supplier, runConfig).value.trainable == Some(supplier.value.targetTrainableRayPrefix)
              && Delegated(supplier, runConfig).value.paramSpace == Some(supplier.value.delegation.value)
              && Delegated(supplier, runConfig).value.runConfig == runConfig
    ensures supplier.None? ==> Delegated(supplier, runConfig) == Failure(NoSuchAttribute("delegate"))
    ensures supplier.Some? && supplier.value.delegation.Failure? ==>
              Delegated(supplier, runConfig) == Failure(supplier.value.delegation.error)
  {
  }

  class TunerDelegator {
    var constructDirective: Node
    var tunerDirective: Node
    var trainableConstructDelegator: Option<TrainableSupplier>
    var rayTrainablePrefix: Option<string>
    var paramSpace: Option<ParamSpace>
    var runConfig: Option<RunConfig>
    var tuneConfig: Option<Node>
    /** The setup steps run so far, in order. */
    ghost var steps: seq<Step>

    /** All five derived fields are unset. */
    predicate AllUnset()
      reads this
    {
      && trainableConstructDelegator.None? && rayTrainablePrefix.None? && paramSpace.None?
      && runConfig.None? && tuneConfig.None?
    }

    /** `TunerDelegator(construct_directive, tuner_directive)`: stores both directives. */
    constructor (constructDirective: Node, tunerDirective: Node)
      ensures this.constructDirective == constructDirective && this.tunerDirective == tunerDirective
      ensures AllUnset()
      ensures steps == []
    {
      this.constructDirective := constructDirective;
      this.tunerDirective := tunerDirective;
      trainableConstructDelegator := None;
      rayTrainablePrefix := None;
      paramSpace := None;
      runConfig := None;
      tuneConfig := None;
      steps := [];
    }

    /** `from_trial_directive`: a new instance whose construct delegator is built from the
        construct directive by `fromConstructDirective`, which may raise. */
    static method FromTrialDirective(constructDirective: Node, tunerDirective: Node,
                                     fromConstructDirective: Node -> Result<TrainableSupplier>)
      returns (r: Result<TunerDelegator>)
      ensures r.Success? <==> fromConstructDirective(constructDirective).Success?
      ensures r.Failure? ==> r.error == fromConstructDirective(constructDirective).error
      ensures r.Success? ==> fresh(r.value)
      ensures r.Success? ==> r.value.constructDirective == constructDirective
      ensures r.Success? ==> r.value.tunerDirective == tunerDirective
      ensures r.Success? ==> r.value.trainableConstructDelegator == Some(fromConstructDirective(constructDirective).value)
      ensures r.Success? ==> r.value.rayTrainablePrefix.None? && r.value.paramSpace.None?
      ensures r.Success? ==> r.value.runConfig.None? && r.value.tuneConfig.None? && r.value.steps == []
    {
      var instance := new TunerDelegator(constructDirective, tunerDirective);
      var delegator :- fromConstructDirective(constructDirective);
      instance.trainableConstructDelegator := Some(delegator);
      return Success(instance);
    }

    /** `_setup_run_config`: a placeholder that sets nothing. */
    method SetupRunConfig()
      modifies this`steps
      ensures steps == old(steps) + [RunConfigSetup]
    {
      steps := steps + [RunConfigSetup];
    }

    /** `_setup_trainable_prefix_and_param_space`: takes the parameter space from the construct
        delegator's `delegate()`, then its prefix; if there is no delegator or the delegation
        raises, neither field is set. */
    method SetupTrainablePrefixAndParamSpace() returns (r: Result<()>)
      modifies this`paramSpace, this`rayTrainablePrefix, this`steps
      ensures steps == old(steps) + [TrainablePrefixAndParamSpaceSetup]
      ensures r.Success? <==> trainableConstructDelegator.Some? && trainableConstructDelegator.value.delegation.Success?
      ensures trainableConstructDelegator.None? ==> r == Failure(NoSuchAttribute("delegate"))
      ensures r.Success? ==> paramSpace == Some(trainableConstructDelegator.value.delegation.value)
      ensures r.Success? ==> rayTrainablePrefix == Some(trainableConstructDelegator.value.targetTrainableRayPrefix)
      ensures r.Failure? ==> paramSpace == old(paramSpace) && rayTrainablePrefix == old(rayTrainablePrefix)
      ensures trainableConstructDelegator.Some? && r.Failure? ==> r.error == trainableConstructDelegator.value.delegation.error
    {
      steps := steps + [TrainablePrefixAndParamSpaceSetup];
      if trainableConstructDelegator.None? {
        return Failure(NoSuchAttribute("delegate"));
      }
      var delegator := trainableConstructDelegator.value;
      var delegated :- delegator.delegation;
      paramSpace := Some(delegated);
      rayTrainablePrefix := Some(delegator.targetTrainableRayPrefix);
      r := Success(());
    }

    /** `delegate_tuner_entity`: the run-config step, then the prefix and parameter-space step,
        then the tuner built from the fields as they now are. */
    method DelegateTunerEntity() returns (r: Result<Tuner>)
      modifies this`paramSpace, this`rayTrainablePrefix, this`steps
      ensures steps == old(steps) + [RunConfigSetup, TrainablePrefixAndParamSpaceSetup]
      ensures r == Delegated(trainableConstructDelegator, runConfig)
      ensures r.Success? ==> r.value == Tuner(rayTrainablePrefix, paramSpace, runConfig)
      ensures r.Failure? ==> paramSpace == old(paramSpace) && rayTrainablePrefix == old(rayTrainablePrefix)
      ensures runConfig == old(runConfig) && tuneConfig == old(tuneConfig)
    {
      SetupRunConfig();
      var status := SetupTrainablePrefixAndParamSpace();
      if status.Failure? {
        return Failure(status.error);
      }
      r := Success(Tuner(rayTrainablePrefix, paramSpace, runConfig));
    }

    /** The whole workflow from fresh: `from_trial_directive` followed by
        `delegate_tuner_entity` yields a tuner built from the construct delegator's prefix and
        parameter space, without run configuration. */
    static method DelegateFromTrialDirective(constructDirective: Node, tunerDirective: Node,
                                             fromConstructDirective: Node -> Result<TrainableSupplier>)
      returns (r: Result<Tuner>)
      ensures r.Success? <==>
                fromConstructDirective(constructDirective).Success? &&
                fromConstructDirective(constructDirective).value.delegation.Success?
      ensures r.Success? ==> r.value == Tuner(Some(fromConstructDirective(constructDirective).value.targetTrainableRayPrefix),
                                              Some(fromConstructDirective(constructDirective).value.delegation.value),
                                              None)
    {
      var instance :- FromTrialDirective(constructDirective, tunerDirective, fromConstructDirective);
      r := instance.DelegateTunerEntity();
    }
  }
}
