/** The engine: reads the trainable name, the PPO parameter space and the run-time
conditions out of one configuration tree and keeps each in a field of its own. Its
parameter-space schema is not the PPO construct's: the environment id sits at
`environment/env_name` and the sections are not under a `ppo-directive` key. */
module Engine {
  import opened Directives
  import opened RayRecords

  // The directives `_set_param_space_config` reads below the `param-space` section, in
  // the order its builder chain reads them.

  const EnvFields: seq<Field<Kwarg>> := [Field(Env, ["environment", "env_name"])]

  const FrameworkFields: seq<Field<Kwarg>> := [Field(Framework, ["framework"])]

  const RolloutsFields: seq<Field<Kwarg>> := [
    Field(NumRolloutWorkers, ["rollouts", "num-workers"]),
    Field(NumEnvsPerWorker, ["rollouts", "num-envs-per-worker"]),
    Field(RolloutFragmentLength, ["rollouts", "rollout_fragment_length"])
  ]

  const TrainingFields: seq<Field<Kwarg>> := [
    Field(Lr, ["training", "lr"]),
    Field(Lambda, ["training", "lambda_"]),
    Field(Gamma, ["training", "gamma"]),
    Field(SgdMinibatchSize, ["training", "sgd_minibatch_size"]),
    Field(UseGae, ["training", "use_gae"]),
    Field(TrainBatchSize, ["training", "train_batch_size"]),
    Field(NumSgdIter, ["training", "num_sgd_iter"]),
    Field(ClipParam, ["training", "clip_param"]),
    Field(Model, ["training", "model"])
  ]

  const ResourcesFields: seq<Field<Kwarg>> := [Field(NumGpus, ["resources", "num_gpus"])]

  const EvaluationFields: seq<Field<Kwarg>> := [
    Field(EvaluationInterval, ["evaluation", "evaluation-interval"]),
    Field(EvaluationDuration, ["evaluation", "evaluation-duration"])
  ]

  /** Every directive the parameter space reads, in reading order. */
  const ParamSpaceFields: seq<Field<Kwarg>> :=
    EnvFields + FrameworkFields + RolloutsFields + TrainingFields + ResourcesFields + EvaluationFields

  /** The stop-condition dict literal, below the `stop-config` section. */
  const StopFields: seq<Field<StopMetric>> := [
    Field(TrainingIteration, ["training_iteration"]),
    Field(TimestepsTotal, ["timesteps_total"]),
    Field(EpisodeRewardMean, ["episode_reward_mean"])
  ]

  // Where the sections sit in the whole configuration tree.

  const ParamSpacePath: seq<string> := ["param-space"]
  const TunerSpacePath: seq<string> := ["tuner-space"]
  const AiRuntimePath: seq<string> := ["tuner-space", "ai-runtime-conditions"]
  const TrainablePath: seq<string> := ["tuner-space", "trainable"]
  const RunPath: seq<string> := ["tuner-space", "ai-runtime-conditions", "run-config"]
  const StopPath: seq<string> := ["tuner-space", "ai-runtime-conditions", "stop-config"]
  const CheckpointPath: seq<string> := ["tuner-space", "ai-runtime-conditions", "checkpoint-config"]

  /** The builder arguments `_set_param_space_config` records for the `param-space` section `p`:
      six section calls, in order, each reading its directives before the call. */
  function ParamSpaceOf(p: Node): Result<ParamSpace> {
    var env :- ResolveFields(p, EnvFields);
    var framework :- ResolveFields(p, FrameworkFields);
    var rollouts :- ResolveFields(p, RolloutsFields);
    var training :- ResolveFields(p, TrainingFields);
    var resources :- ResolveFields(p, ResourcesFields);
    var evaluation :- ResolveFields(p, EvaluationFields);
    Success(env + framework + rollouts + training + resources + evaluation)
  }

  /** The run configuration `_set_ai_runtime_config` builds: the stop dict first, then the
      checkpoint settings, then the verbosity. */
  function RuntimeOf(run: Node, stop: Node, checkpoint: Node): Result<RunConfig> {
    var stopConditions :- ResolveFields(stop, StopFields);
    var frequency :- Unwrap(checkpoint, ["checkpoint_frequency"]);
    var atEnd :- Unwrap(checkpoint, ["checkpoint_at_end"]);
    var verbose :- Unwrap(run, ["verbose"]);
    Success(RunConfig(stopConditions, CheckpointConfig(frequency, atEnd), verbose))
  }

  /** The five sub-sections the loader hands to the setters. */
  datatype Sections = Sections(paramSpace: Node, trainable: Node, run: Node, stop: Node, checkpoint: Node)

  /** The seven lookups at the head of `load_configuration_and_set_parameters`, in source order. */
  function SubSections(config: Node): Result<Sections> {
    var paramSpace :- Get(config, ["param-space"]);
    var tunerSpace :- Get(config, ["tuner-space"]);
    var aiRuntimeConditions :- Get(tunerSpace, ["ai-runtime-conditions"]);
    var trainable :- Get(tunerSpace, ["trainable"]);
    var run :- Get(aiRuntimeConditions, ["run-config"]);
    var stop :- Get(aiRuntimeConditions, ["stop-config"]);
    var checkpoint :- Get(aiRuntimeConditions, ["checkpoint-config"]);
    Success(Sections(paramSpace, trainable, run, stop, checkpoint))
  }

  /** The three fields the engine sets; `trainable` is Python's None until set. */
  datatype EngineState = EngineState(trainable: Node, paramSpaceConfig: Option<ParamSpace>, aiRuntimeConfig: Option<RunConfig>)

  /** The state before any setter has run. */
  const Unset: EngineState := EngineState(NoneNode, None, None)

  datatype Outcome = Outcome(status: Result<()>, state: EngineState)

  /** What `load_configuration_and_set_parameters` does to the fields `s` for configuration
      `config`: all lookups of sub-sections, then the three setters in turn, each raising
      before it assigns its field. */
  function LoadOutcome(config: Node, s: EngineState): Outcome {
    match SubSections(config)
    case Failure(e) => Outcome(Failure(e), s)
    case Success(sec) =>
      match Unwrap(sec.trainable, [])
      case Failure(e) => Outcome(Failure(e), s)
      case Success(trainable) =>
        var s1 := s.(trainable := trainable);
        match ParamSpaceOf(sec.paramSpace)
        case Failure(e) => Outcome(Failure(e), s1)
        case Success(paramSpace) =>
          var s2 := s1.(paramSpaceConfig := Some(paramSpace));
          match RuntimeOf(sec.run, sec.stop, sec.checkpoint)
          case Failure(e) => Outcome(Failure(e), s2)
          case Success(runtime) => Outcome(Success(()), s2.(aiRuntimeConfig := Some(runtime)))
  }

  /** Within each section the keys follow the keyword order, and each section starts after
      the previous one ends. */
  lemma SectionsAscending()
    ensures Ascending(EnvFields, KwargOrder) && Ascending(FrameworkFields, KwargOrder)
    ensures Ascending(RolloutsFields, KwargOrder) && Ascending(TrainingFields, KwargOrder)
    ensures Ascending(ResourcesFields, KwargOrder) && Ascending(EvaluationFields, KwargOrder)
  {
  }

  /** The seventeen keys of the parameter space are pairwise distinct. */
  lemma ParamSpaceFieldsDistinct()
    ensures DistinctKeys(ParamSpaceFields)
    ensures |KeysOf(ParamSpaceFields)| == 17
  {
    SectionsAscending();
    SixSectionsAscending(EnvFields, FrameworkFields, RolloutsFields, TrainingFields, ResourcesFields,
                         EvaluationFields, KwargOrder);
    AscendingDistinct(ParamSpaceFields, KwargOrder);
  }

  /** The six section calls amount to one dict literal over all seventeen directives. */
  lemma ParamSpaceIsFlat(p: Node)
    ensures ParamSpaceOf(p) == ResolveFields(p, ParamSpaceFields)
  {
    ResolveSixSections(p, EnvFields, FrameworkFields, RolloutsFields, TrainingFields, ResourcesFields, EvaluationFields);
  }

  /** The parameter space fails exactly when one of its seventeen directives is missing or not an
      envelope, reporting the first in reading order; otherwise it records exactly those values. */
  lemma ParamSpaceOfSpec(p: Node, e: Error)
    ensures ParamSpaceOf(p).Success? <==>
              forall i :: 0 <= i < |ParamSpaceFields| ==> Unwrap(p, ParamSpaceFields[i].directive).Success?
    ensures ParamSpaceOf(p) == Failure(e) <==> exists i: nat :: FirstFailure(p, ParamSpaceFields, i, e)
    ensures ParamSpaceOf(p).Success? ==>
              |ParamSpaceOf(p).value| == 17 && HoldsAsListed(p, ParamSpaceFields, ParamSpaceOf(p).value)
  {
    ParamSpaceIsFlat(p);
    ResolveFieldsSucceedsIff(p, ParamSpaceFields);
    ResolveFieldsFailsAtFirst(p, ParamSpaceFields, e);
    if ParamSpaceOf(p).Success? {
      ParamSpaceFieldsDistinct();
      ResolveFieldsContents(p, ParamSpaceFields);
    }
  }

  /** The run configuration exists exactly when its six directives do; its stop dict has exactly
      the three stop metrics, and every setting is the unwrapped choice of its directive. */
  lemma RuntimeOfSpec(run: Node, stop: Node, checkpoint: Node)
    ensures RuntimeOf(run, stop, checkpoint).Success? <==>
              && Unwrap(stop, ["training_iteration"]).Success?
              && Unwrap(stop, ["timesteps_total"]).Success?
              && Unwrap(stop, ["episode_reward_mean"]).Success?
              && Unwrap(checkpoint, ["checkpoint_frequency"]).Success?
              && Unwrap(checkpoint, ["checkpoint_at_end"]).Success?
              && Unwrap(run, ["verbose"]).Success?
    ensures RuntimeOf(run, stop, checkpoint).Success? ==>
              && RuntimeOf(run, stop, checkpoint).value.stop == map[
                   TrainingIteration := Unwrap(stop, ["training_iteration"]).value,
                   TimestepsTotal := Unwrap(stop, ["timesteps_total"]).value,
                   EpisodeRewardMean := Unwrap(stop, ["episode_reward_mean"]).value]
              && RuntimeOf(run, stop, checkpoint).value.checkpointConfig.checkpointFrequency ==
                   Unwrap(checkpoint, ["checkpoint_frequency"]).value
              && RuntimeOf(run, stop, checkpoint).value.checkpointConfig.checkpointAtEnd ==
                   Unwrap(checkpoint, ["checkpoint_at_end"]).value
              && RuntimeOf(run, stop, checkpoint).value.verbose == Unwrap(run, ["verbose"]).value
  {
    ResolveFieldsSucceedsIff(stop, StopFields);
    if ResolveFields(stop, StopFields).Success? {
      var m := ResolveFields(stop, StopFields).value;
      forall i | 0 <= i < 3 ensures m[StopFields[i].key] == Unwrap(stop, StopFields[i].directive).value {
        ResolveFieldsValue(stop, StopFields, i);
      }
    }
  }

  /** A failing run configuration reports the first of its six reads that raises, in the order
      the stop dict, the two checkpoint settings and the verbosity are read. */
  lemma RuntimeOfFailsAtFirst(run: Node, stop: Node, checkpoint: Node)
    ensures Unwrap(stop, ["training_iteration"]).Failure? ==>
              RuntimeOf(run, stop, checkpoint) == Failure(Unwrap(stop, ["training_iteration"]).error)
    ensures Unwrap(stop, ["training_iteration"]).Success? && Unwrap(stop, ["timesteps_total"]).Failure? ==>
              RuntimeOf(run, stop, checkpoint) == Failure(Unwrap(stop, ["timesteps_total"]).error)
    ensures && Unwrap(stop, ["training_iteration"]).Success? && Unwrap(stop, ["timesteps_total"]).Success?
            && Unwrap(stop, ["episode_reward_mean"]).Failure? ==>
              RuntimeOf(run, stop, checkpoint) == Failure(Unwrap(stop, ["episode_reward_mean"]).error)
    ensures && ResolveFields(stop, StopFields).Success?
            && Unwrap(checkpoint, ["checkpoint_frequency"]).Failure? ==>
              RuntimeOf(run, stop, checkpoint) == Failure(Unwrap(checkpoint, ["checkpoint_frequency"]).error)
    ensures && ResolveFields(stop, StopFields).Success?
            && Unwrap(checkpoint, ["checkpoint_frequency"]).Success?
            && Unwrap(checkpoint, ["checkpoint_at_end"]).Failure? ==>
              RuntimeOf(run, stop, checkpoint) == Failure(Unwrap(checkpoint, ["checkpoint_at_end"]).error)
    ensures && ResolveFields(stop, StopFields).Success?
            && Unwrap(checkpoint, ["checkpoint_frequency"]).Success?
            && Unwrap(checkpoint, ["checkpoint_at_end"]).Success?
            && Unwrap(run, ["verbose"]).Failure? ==>
              RuntimeOf(run, stop, checkpoint) == Failure(Unwrap(run, ["verbose"]).error)
  {
    if Unwrap(stop, ["training_iteration"]).Success? {
      if Unwrap(stop, ["timesteps_total"]).Failure? {
        var e := Unwrap(stop, ["timesteps_total"]).error;
        assert FirstFailure(stop, StopFields, 1, e);
        ResolveFieldsFailsAtFirst(stop, StopFields, e);
      } else if Unwrap(stop, ["episode_reward_mean"]).Failure? {
        var e := Unwrap(stop, ["episode_reward_mean"]).error;
        assert FirstFailure(stop, StopFields, 2, e);
        ResolveFieldsFailsAtFirst(stop, StopFields, e);
      }
    }
  }

  /** A failing load reports the first of the seven sub-section lookups that raises, in source
      order, each stated on its place in the whole tree. */
  lemma SubSectionsFailsAtFirst(config: Node)
    ensures Get(config, ParamSpacePath).Failure? ==>
              SubSections(config) == Failure(Get(config, ParamSpacePath).error)
    ensures Get(config, ParamSpacePath).Success? && Get(config, TunerSpacePath).Failure? ==>
              SubSections(config) == Failure(Get(config, TunerSpacePath).error)
    ensures && Get(config, ParamSpacePath).Success? && Get(config, TunerSpacePath).Success?
            && Get(config, AiRuntimePath).Failure? ==>
              SubSections(config) == Failure(Get(config, AiRuntimePath).error)
    ensures && Get(config, ParamSpacePath).Success? && Get(config, AiRuntimePath).Success?
            && Get(config, TrainablePath).Failure? ==>
              SubSections(config) == Failure(Get(config, TrainablePath).error)
    ensures && Get(config, ParamSpacePath).Success? && Get(config, AiRuntimePath).Success?
            && Get(config, TrainablePath).Success? && Get(config, RunPath).Failure? ==>
              SubSections(config) == Failure(Get(config, RunPath).error)
    ensures && Get(config, ParamSpacePath).Success? && Get(config, AiRuntimePath).Success?
            && Get(config, TrainablePath).Success? && Get(config, RunPath).Success?
            && Get(config, StopPath).Failure? ==>
              SubSections(config) == Failure(Get(config, StopPath).error)
    ensures && Get(config, ParamSpacePath).Success? && Get(config, AiRuntimePath).Success?
            && Get(config, TrainablePath).Success? && Get(config, RunPath).Success?
            && Get(config, StopPath).Success? && Get(config, CheckpointPath).Failure? ==>
              SubSections(config) == Failure(Get(config, CheckpointPath).error)
  {
    GetAppend(config, TunerSpacePath, ["ai-runtime-conditions"]);
    GetAppend(config, TunerSpacePath, ["trainable"]);
    GetAppend(config, AiRuntimePath, ["run-config"]);
    GetAppend(config, AiRuntimePath, ["stop-config"]);
    GetAppend(config, AiRuntimePath, ["checkpoint-config"]);
  }

  /** The sub-section lookups succeed exactly when the five sections exist at their places in the
      whole tree, and hand those very sections on. */
  lemma SubSectionsSpec(config: Node)
    ensures SubSections(config).Success? <==>
              && Get(config, ParamSpacePath).Success?
              && Get(config, TrainablePath).Success?
              && Get(config, RunPath).Success?
              && Get(config, StopPath).Success?
              && Get(config, CheckpointPath).Success?
    ensures SubSections(config).Success? ==>
              SubSections(config).value == Sections(
                Get(config, ParamSpacePath).value, Get(config, TrainablePath).value, Get(config, RunPath).value,
                Get(config, StopPath).value, Get(config, CheckpointPath).value)
  {
  }

  /** Loading succeeds exactly when the sub-sections exist and each of the three setters
      succeeds on its own. */
  lemma LoadStatus(config: Node, s: EngineState)
    ensures LoadOutcome(config, s).status.Success? <==>
              && SubSections(config).Success?
              && Unwrap(SubSections(config).value.trainable, []).Success?
              && ParamSpaceOf(SubSections(config).value.paramSpace).Success?
              && RuntimeOf(SubSections(config).value.run, SubSections(config).value.stop,
                           SubSections(config).value.checkpoint).Success?
  {
  }

  /** The seventeen parameter-space directives, taken from the root, all unwrap exactly when the
      `param-space` section exists and its parameter space resolves. */
  lemma ParamSpaceUnder(config: Node)
    ensures (forall i :: 0 <= i < |ParamSpaceFields| ==>
               Unwrap(config, ParamSpacePath + ParamSpaceFields[i].directive).Success?) <==>
            Get(config, ParamSpacePath).Success? && ParamSpaceOf(Get(config, ParamSpacePath).value).Success?
  {
    ResolveFieldsUnder(config, ParamSpacePath, ParamSpaceFields);
    if Get(config, ParamSpacePath).Success? {
      ParamSpaceIsFlat(Get(config, ParamSpacePath).value);
    }
  }

  /** The six run-time directives, taken from the root, all unwrap exactly when the three
      run-time sections exist and the run configuration resolves. */
  lemma RuntimeUnder(config: Node)
    ensures (&& (forall i :: 0 <= i < |StopFields| ==> Unwrap(config, StopPath + StopFields[i].directive).Success?)
             && Unwrap(config, CheckpointPath + ["checkpoint_frequency"]).Success?
             && Unwrap(config, CheckpointPath + ["checkpoint_at_end"]).Success?
             && Unwrap(config, RunPath + ["verbose"]).Success?) <==>
            && Get(config, RunPath).Success? && Get(config, StopPath).Success? && Get(config, CheckpointPath).Success?
            && RuntimeOf(Get(config, RunPath).value, Get(config, StopPath).value, Get(config, CheckpointPath).value).Success?
  {
    ResolveFieldsUnder(config, StopPath, StopFields);
    UnwrapUnder(config, CheckpointPath, ["checkpoint_frequency"]);
    UnwrapUnder(config, CheckpointPath, ["checkpoint_at_end"]);
    UnwrapUnder(config, RunPath, ["verbose"]);
    if Get(config, StopPath).Success? {
      ResolveFieldsSucceedsIff(Get(config, StopPath).value, StopFields);
    }
  }

  /** The trainable envelope, taken from the root, unwraps exactly when `tuner-space/trainable`
      exists and unwraps there. */
  lemma TrainableUnder(config: Node)
    ensures Unwrap(config, TrainablePath).Success? <==>
              Get(config, TrainablePath).Success? && Unwrap(Get(config, TrainablePath).value, []).Success?
    ensures Unwrap(config, TrainablePath).Success? ==>
              Unwrap(config, TrainablePath).value == Unwrap(Get(config, TrainablePath).value, []).value
  {
    UnwrapUnder(config, TrainablePath, []);
    assert TrainablePath + [] == TrainablePath;
  }

  /** Loading succeeds exactly when every leaf directive it reads unwraps, each taken from the
      root of the configuration. */
  lemma LoadSucceedsIff(config: Node, s: EngineState)
    ensures LoadOutcome(config, s).status.Success? <==>
              && Unwrap(config, TrainablePath).Success?
              && (forall i :: 0 <= i < |ParamSpaceFields| ==>
                    Unwrap(config, ParamSpacePath + ParamSpaceFields[i].directive).Success?)
              && (forall i :: 0 <= i < |StopFields| ==> Unwrap(config, StopPath + StopFields[i].directive).Success?)
              && Unwrap(config, CheckpointPath + ["checkpoint_frequency"]).Success?
              && Unwrap(config, CheckpointPath + ["checkpoint_at_end"]).Success?
              && Unwrap(config, RunPath + ["verbose"]).Success?
  {
    LoadStatus(config, s);
    SubSectionsSpec(config);
    TrainableUnder(config);
    ParamSpaceUnder(config);
    RuntimeUnder(config);
  }

  /** A missing sub-section is noticed before any field is set, and the setters run in the order
      trainable, parameter space, run-time conditions: a failing setter leaves in place what the
      earlier setters assigned, and the later fields as they were. */
  lemma LoadSetsFieldsInOrder(config: Node, s: EngineState)
    ensures SubSections(config).Failure? ==> LoadOutcome(config, s) == Outcome(Failure(SubSections(config).error), s)
    ensures SubSections(config).Success? ==>
              var sec := SubSections(config).value;
              var trainable := Unwrap(sec.trainable, []);
              && (trainable.Failure? ==> LoadOutcome(config, s) == Outcome(Failure(trainable.error), s))
              && (trainable.Success? && ParamSpaceOf(sec.paramSpace).Failure? ==>
                    LoadOutcome(config, s) ==
                      Outcome(Failure(ParamSpaceOf(sec.paramSpace).error), s.(trainable := trainable.value)))
              && (trainable.Success? && ParamSpaceOf(sec.paramSpace).Success? &&
                  RuntimeOf(sec.run, sec.stop, sec.checkpoint).Failure? ==>
                    LoadOutcome(config, s) ==
                      Outcome(Failure(RuntimeOf(sec.run, sec.stop, sec.checkpoint).error),
                              s.(trainable := trainable.value, paramSpaceConfig := Some(ParamSpaceOf(sec.paramSpace).value))))
              && (trainable.Success? && ParamSpaceOf(sec.paramSpace).Success? &&
                  RuntimeOf(sec.run, sec.stop, sec.checkpoint).Success? ==>
                    LoadOutcome(config, s) ==
                      Outcome(Success(()), EngineState(trainable.value, Some(ParamSpaceOf(sec.paramSpace).value),
                                                       Some(RuntimeOf(sec.run, sec.stop, sec.checkpoint).value))))
    ensures LoadOutcome(config, s).status.Failure? ==>
              LoadOutcome(config, s).state.aiRuntimeConfig == s.aiRuntimeConfig
  {
  }

  /** On a fresh engine a successful load sets all three fields to what the configuration holds
      at the sections' places in the tree, and a failed one leaves the run-time conditions unset. */
  lemma LoadFromUnset(config: Node)
    ensures LoadOutcome(config, Unset).status.Success? ==>
              && Unwrap(config, TrainablePath).Success?
              && Get(config, ParamSpacePath).Success?
              && Get(config, RunPath).Success? && Get(config, StopPath).Success? && Get(config, CheckpointPath).Success?
              && LoadOutcome(config, Unset).state == EngineState(
                   Unwrap(config, TrainablePath).value,
                   Some(ParamSpaceOf(Get(config, ParamSpacePath).value).value),
                   Some(RuntimeOf(Get(config, RunPath).value, Get(config, StopPath).value,
                                  Get(config, CheckpointPath).value).value))
    ensures LoadOutcome(config, Unset).status.Failure? ==> LoadOutcome(config, Unset).state.aiRuntimeConfig.None?
  {
    SubSectionsSpec(config);
    TrainableUnder(config);
  }

  class Engine {
    var config: Node
    var trainable: Node
    var paramSpaceConfig: Option<ParamSpace>
    var aiRuntimeConfig: Option<RunConfig>

    /** The fields as one value. */
    function State(): EngineState
      reads this
    {
      EngineState(trainable, paramSpaceConfig, aiRuntimeConfig)
    }

    /** `Engine(config)`: stores the configuration; the three fields start unset. */
    constructor (config: Node)
      ensures this.config == config
      ensures State() == Unset
    {
      this.config := config;
      trainable := NoneNode;
      paramSpaceConfig := None;
      aiRuntimeConfig := None;
    }

    /** `_set_trainable`: the trainable is the choice of its envelope. */
    method SetTrainable(trainable: Node) returns (r: Result<()>)
      modifies this`trainable
      ensures r == Status(Unwrap(trainable, []))
      ensures this.trainable == if r.Success? then Unwrap(trainable, []).value else old(this.trainable)
    {
      var choice :- Unwrap(trainable, []);
      this.trainable := choice;
      r := Success(());
    }

    /** `_set_param_space_config`: the builder chain over the six sections. */
    method SetParamSpaceConfig(paramSpaceConfiguration: Node) returns (r: Result<()>)
      modifies this`paramSpaceConfig
      ensures r == Status(ParamSpaceOf(paramSpaceConfiguration))
      ensures paramSpaceConfig == if r.Success? then Some(ParamSpaceOf(paramSpaceConfiguration).value)
                                  else old(paramSpaceConfig)
    {
      var builder := new AlgorithmConfig();

      var env :- ResolveFields(paramSpaceConfiguration, EnvFields);
      builder.Apply(env);
      assert builder.settings == env;

      var framework :- ResolveFields(paramSpaceConfiguration, FrameworkFields);
      builder.Apply(framework);

      var rollouts :- ResolveFields(paramSpaceConfiguration, RolloutsFields);
      builder.Apply(rollouts);

      var training :- ResolveFields(paramSpaceConfiguration, TrainingFields);
      builder.Apply(training);

      var resources :- ResolveFields(paramSpaceConfiguration, ResourcesFields);
      builder.Apply(resources);

      var evaluation :- ResolveFields(paramSpaceConfiguration, EvaluationFields);
      builder.Apply(evaluation);

      paramSpaceConfig := Some(builder.ToDict());
      r := Success(());
    }

    /** `_set_ai_runtime_config`: stop dict, checkpoint settings and verbosity. */
    method SetAiRuntimeConfig(runConfig: Node, stopConfig: Node, checkpointConfig: Node) returns (r: Result<()>)
      modifies this`aiRuntimeConfig
      ensures r == Status(RuntimeOf(runConfig, stopConfig, checkpointConfig))
      ensures aiRuntimeConfig == if r.Success? then Some(RuntimeOf(runConfig, stopConfig, checkpointConfig).value)
                                 else old(aiRuntimeConfig)
    {
      var stopConditions :- ResolveFields(stopConfig, StopFields);
      var checkpointFrequency :- Unwrap(checkpointConfig, ["checkpoint_frequency"]);
      var checkpointAtEnd :- Unwrap(checkpointConfig, ["checkpoint_at_end"]);
      var checkpointConditions := CheckpointConfig(checkpointFrequency, checkpointAtEnd);
      var verbose :- Unwrap(runConfig, ["verbose"]);
      aiRuntimeConfig := Some(RunConfig(stopConditions, checkpointConditions, verbose));
      r := Success(());
    }

    /** `load_configuration_and_set_parameters`: looks up every sub-section, then runs the
        three setters in turn. */
    method LoadConfigurationAndSetParameters() returns (r: Result<()>)
      modifies this`trainable, this`paramSpaceConfig, this`aiRuntimeConfig
      ensures r == LoadOutcome(config, old(State())).status
      ensures State() == LoadOutcome(config, old(State())).state
    {
      var paramSpace :- Get(config, ["param-space"]);
      var tunerSpace :- Get(config, ["tuner-space"]);

      var aiRuntimeConditions :- Get(tunerSpace, ["ai-runtime-conditions"]);
      var trainable :- Get(tunerSpace, ["trainable"]);

      var runConfig :- Get(aiRuntimeConditions, ["run-config"]);
      var stopConfig :- Get(aiRuntimeConditions, ["stop-config"]);
      var checkpointConfig :- Get(aiRuntimeConditions, ["checkpoint-config"]);

      r := SetTrainable(trainable);
      if r.Failure? {
        return;
      }
      r := SetParamSpaceConfig(paramSpace);
      if r.Failure? {
        return;
      }
      r := SetAiRuntimeConfig(runConfig, stopConfig, checkpointConfig);
    }
  }
}
