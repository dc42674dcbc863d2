/** The PPO construct: translates its own directive tree into the keyword
arguments of the PPO algorithm-config builder, six sections in a fixed order. */
module PPO {
  import opened Directives
  import opened RayRecords

  // The directives each section extractor reads, in the order its dict literal lists them.

  const EnvFields: seq<Field<Kwarg>> := [Field(Env, ["env-directive", "prefix"])]

  const FrameworkFields: seq<Field<Kwarg>> := [Field(Framework, ["ppo-directive", "framework"])]

  const RolloutsFields: seq<Field<Kwarg>> := [
    Field(NumRolloutWorkers, ["ppo-directive", "rollouts", "num-workers"]),
    Field(NumEnvsPerWorker, ["ppo-directive", "rollouts", "num-envs-per-worker"]),
    Field(RolloutFragmentLength, ["ppo-directive", "rollouts", "rollout_fragment_length"])
  ]

  const TrainingFields: seq<Field<Kwarg>> := [
    Field(Lr, ["ppo-directive", "training", "lr"]),
    Field(Lambda, ["ppo-directive", "training", "lambda_"]),
    Field(Gamma, ["ppo-directive", "training", "gamma"]),
    Field(SgdMinibatchSize, ["ppo-directive", "training", "sgd_minibatch_size"]),
    Field(UseGae, ["ppo-directive", "training", "use_gae"]),
    Field(TrainBatchSize, ["ppo-directive", "training", "train_batch_size"]),
    Field(NumSgdIter, ["ppo-directive", "training", "num_sgd_iter"]),
    Field(ClipParam, ["ppo-directive", "training", "clip_param"]),
    Field(Model, ["ppo-directive", "training", "model"])
  ]

  const ResourcesFields: seq<Field<Kwarg>> := [Field(NumGpus, ["ppo-directive", "resources", "num_gpus"])]

  const EvaluationFields: seq<Field<Kwarg>> := [
    Field(EvaluationInterval, ["ppo-directive", "evaluation", "evaluation-interval"]),
    Field(EvaluationDuration, ["ppo-directive", "evaluation", "evaluation-duration"])
  ]

  /** Every directive `commit` reads, in reading order. */
  const CommitFields: seq<Field<Kwarg>> :=
    EnvFields + FrameworkFields + RolloutsFields + TrainingFields + ResourcesFields + EvaluationFields

  function EnvConfig(t: Node): Result<ParamSpace> { ResolveFields(t, EnvFields) }
  function FrameworkConfig(t: Node): Result<ParamSpace> { ResolveFields(t, FrameworkFields) }
  function RolloutsConfig(t: Node): Result<ParamSpace> { ResolveFields(t, RolloutsFields) }
  function TrainingConfig(t: Node): Result<ParamSpace> { ResolveFields(t, TrainingFields) }
  function ResourcesConfig(t: Node): Result<ParamSpace> { ResolveFields(t, ResourcesFields) }
  function EvaluationConfig(t: Node): Result<ParamSpace> { ResolveFields(t, EvaluationFields) }

  /** What `commit` returns for the loaded configuration `t`: the six sections,
      extracted in order, each handed to the builder. */
  function Committed(t: Node): Result<ParamSpace> {
    var env :- EnvConfig(t);
    var framework :- FrameworkConfig(t);
    var rollouts :- RolloutsConfig(t);
    var training :- TrainingConfig(t);
    var resources :- ResourcesConfig(t);
    var evaluation :- EvaluationConfig(t);
    Success(env + framework + rollouts + training + resources + evaluation)
  }

  /** `_env_config` succeeds exactly when `env-directive/prefix/choice` exists, and is then the
      one-entry dict binding `env` to it. */
  lemma EnvConfigSpec(t: Node)
    ensures EnvConfig(t).Success? <==> Unwrap(t, ["env-directive", "prefix"]).Success?
    ensures EnvConfig(t).Success? ==>
              EnvConfig(t).value == map[Env := Unwrap(t, ["env-directive", "prefix"]).value]
    ensures EnvConfig(t).Failure? ==> EnvConfig(t).error == Unwrap(t, ["env-directive", "prefix"]).error
  {
    ResolveFieldsSucceedsIff(t, EnvFields);
  }

  /** `_framework_config` succeeds exactly when `ppo-directive/framework/choice` exists, and is
      then the one-entry dict binding `framework` to it. */
  lemma FrameworkConfigSpec(t: Node)
    ensures FrameworkConfig(t).Success? <==> Unwrap(t, ["ppo-directive", "framework"]).Success?
    ensures FrameworkConfig(t).Success? ==>
              FrameworkConfig(t).value == map[Framework := Unwrap(t, ["ppo-directive", "framework"]).value]
    ensures FrameworkConfig(t).Failure? ==>
              FrameworkConfig(t).error == Unwrap(t, ["ppo-directive", "framework"]).error
  {
    ResolveFieldsSucceedsIff(t, FrameworkFields);
  }

  /** `_resources_config` succeeds exactly when `ppo-directive/resources/num_gpus/choice` exists,
      and is then the one-entry dict binding `num_gpus` to it. */
  lemma ResourcesConfigSpec(t: Node)
    ensures ResourcesConfig(t).Success? <==> Unwrap(t, ["ppo-directive", "resources", "num_gpus"]).Success?
    ensures ResourcesConfig(t).Success? ==>
              ResourcesConfig(t).value == map[NumGpus := Unwrap(t, ["ppo-directive", "resources", "num_gpus"]).value]
    ensures ResourcesConfig(t).Failure? ==>
              ResourcesConfig(t).error == Unwrap(t, ["ppo-directive", "resources", "num_gpus"]).error
  {
    ResolveFieldsSucceedsIff(t, ResourcesFields);
  }

  /** `_evaluation_config` succeeds exactly when both evaluation directives exist, and is then
      the two-entry dict of their choices; otherwise it fails with the error of the first that
      does not unwrap. */
  lemma EvaluationConfigSpec(t: Node)
    ensures EvaluationConfig(t).Success? <==>
              && Unwrap(t, ["ppo-directive", "evaluation", "evaluation-interval"]).Success?
              && Unwrap(t, ["ppo-directive", "evaluation", "evaluation-duration"]).Success?
    ensures EvaluationConfig(t).Success? ==> EvaluationConfig(t).value == map[
              EvaluationInterval := Unwrap(t, ["ppo-directive", "evaluation", "evaluation-interval"]).value,
              EvaluationDuration := Unwrap(t, ["ppo-directive", "evaluation", "evaluation-duration"]).value]
    ensures Unwrap(t, ["ppo-directive", "evaluation", "evaluation-interval"]).Failure? ==>
              EvaluationConfig(t) == Failure(Unwrap(t, ["ppo-directive", "evaluation", "evaluation-interval"]).error)
    ensures Unwrap(t, ["ppo-directive", "evaluation", "evaluation-interval"]).Success? &&
            Unwrap(t, ["ppo-directive", "evaluation", "evaluation-duration"]).Failure? ==>
              EvaluationConfig(t) == Failure(Unwrap(t, ["ppo-directive", "evaluation", "evaluation-duration"]).error)
  {
    ResolveFieldsSucceedsIff(t, EvaluationFields);
    if EvaluationConfig(t).Success? {
      var r := EvaluationConfig(t).value;
      forall i | 0 <= i < 2 ensures r[EvaluationFields[i].key] == Unwrap(t, EvaluationFields[i].directive).value {
        ResolveFieldsValue(t, EvaluationFields, i);
      }
    }
  }

  /** `_rollouts_config` holds exactly its three keys, each the unwrapped choice of its directive. */
  lemma RolloutsConfigSpec(t: Node)
    ensures RolloutsConfig(t).Success? <==>
              && Unwrap(t, ["ppo-directive", "rollouts", "num-workers"]).Success?
              && Unwrap(t, ["ppo-directive", "rollouts", "num-envs-per-worker"]).Success?
              && Unwrap(t, ["ppo-directive", "rollouts", "rollout_fragment_length"]).Success?
    ensures RolloutsConfig(t).Success? ==> RolloutsConfig(t).value == map[
              NumRolloutWorkers := Unwrap(t, ["ppo-directive", "rollouts", "num-workers"]).value,
              NumEnvsPerWorker := Unwrap(t, ["ppo-directive", "rollouts", "num-envs-per-worker"]).value,
              RolloutFragmentLength := Unwrap(t, ["ppo-directive", "rollouts", "rollout_fragment_length"]).value]
  {
    ResolveFieldsSucceedsIff(t, RolloutsFields);
    if RolloutsConfig(t).Success? {
      var r := RolloutsConfig(t).value;
      forall i | 0 <= i < 3 ensures r[RolloutsFields[i].key] == Unwrap(t, RolloutsFields[i].directive).value {
        ResolveFieldsValue(t, RolloutsFields, i);
      }
    }
  }

  /** `_training_config` holds exactly its nine keys, each the unwrapped choice of its directive;
      in particular the model spec is passed through as is. */
  lemma TrainingConfigSpec(t: Node)
    ensures TrainingConfig(t).Success? <==>
              forall i :: 0 <= i < |TrainingFields| ==> Unwrap(t, TrainingFields[i].directive).Success?
    ensures TrainingConfig(t).Success? ==>
              && |TrainingConfig(t).value| == 9
              && HoldsAsListed(t, TrainingFields, TrainingConfig(t).value)
              && Unwrap(t, ["ppo-directive", "training", "model"]).Success?
              && Model in TrainingConfig(t).value
              && TrainingConfig(t).value[Model] == Unwrap(t, ["ppo-directive", "training", "model"]).value
  {
    ResolveFieldsSucceedsIff(t, TrainingFields);
    if TrainingConfig(t).Success? {
      SectionsAscending();
      AscendingDistinct(TrainingFields, KwargOrder);
      ResolveFieldsContents(t, TrainingFields);
      assert TrainingFields[8] == Field(Model, ["ppo-directive", "training", "model"]);
    }
  }

  /** Within each section the keys follow the keyword order, and each section starts after
      the previous one ends. */
  lemma SectionsAscending()
    ensures Ascending(EnvFields, KwargOrder) && Ascending(FrameworkFields, KwargOrder)
    ensures Ascending(RolloutsFields, KwargOrder) && Ascending(TrainingFields, KwargOrder)
    ensures Ascending(ResourcesFields, KwargOrder) && Ascending(EvaluationFields, KwargOrder)
  {
  }

  /** The seventeen keys of a commit are pairwise distinct. */
  lemma CommitFieldsDistinct()
    ensures DistinctKeys(CommitFields)
    ensures |KeysOf(CommitFields)| == 17
  {
    SectionsAscending();
    SixSectionsAscending(EnvFields, FrameworkFields, RolloutsFields, TrainingFields, ResourcesFields,
                         EvaluationFields, KwargOrder);
    AscendingDistinct(CommitFields, KwargOrder);
  }

  /** The six-step commit is one dict literal over all seventeen directives. */
  lemma CommittedIsFlat(t: Node)
    ensures Committed(t) == ResolveFields(t, CommitFields)
  {
    ResolveSixSections(t, EnvFields, FrameworkFields, RolloutsFields, TrainingFields, ResourcesFields, EvaluationFields);
  }

  /** `commit` succeeds exactly when all seventeen directives it reads exist as envelopes. */
  lemma CommitSucceedsIff(t: Node)
    ensures Committed(t).Success? <==>
              forall i :: 0 <= i < |CommitFields| ==> Unwrap(t, CommitFields[i].directive).Success?
  {
    CommittedIsFlat(t);
    ResolveFieldsSucceedsIff(t, CommitFields);
  }

  /** A successful commit holds exactly the seventeen builder arguments, each the unwrapped
      choice of its own directive. */
  lemma CommitContents(t: Node)
    ensures Committed(t).Success? ==> |Committed(t).value| == 17
    ensures Committed(t).Success? ==> HoldsAsListed(t, CommitFields, Committed(t).value)
  {
    if Committed(t).Success? {
      CommittedIsFlat(t);
      CommitFieldsDistinct();
      ResolveFieldsContents(t, CommitFields);
    }
  }

  /** Sections are resolved in the order env, framework, rollouts, training, resources,
      evaluation, each in its own field order: a failing commit reports exactly the error of
      the first directive in that order that does not unwrap. */
  lemma CommitFailsAtFirstMissing(t: Node, e: Error)
    ensures Committed(t) == Failure(e) <==> exists i: nat :: FirstFailure(t, CommitFields, i, e)
  {
    CommittedIsFlat(t);
    ResolveFieldsFailsAtFirst(t, CommitFields, e);
  }

  /** A tree whose `ppo-directive` has no `training` section, but whose env, framework and
      rollouts directives are all there, fails to commit with the KeyError naming `training`. */
  lemma CommitNamesMissingTraining(t: Node)
    requires Get(t, ["ppo-directive"]).Success? && Get(t, ["ppo-directive"]).value.Mapping?
    requires "training" !in Get(t, ["ppo-directive"]).value.entries
    requires forall j :: 0 <= j < 5 ==> Unwrap(t, CommitFields[j].directive).Success?
    ensures Committed(t) == Failure(KeyMissing("training"))
  {
    assert CommitFields[5].directive + [ChoiceKey] == ["ppo-directive"] + (["training"] + ["lr", ChoiceKey]);
    GetMissingKey(t, ["ppo-directive"], "training", ["lr", ChoiceKey]);
    assert FirstFailure(t, CommitFields, 5, KeyMissing("training"));
    CommitFailsAtFirstMissing(t, KeyMissing("training"));
  }

  /** Directives after the first failing one are never read: a tree that agrees up to and
      including it commits to the same failure. */
  lemma CommitIgnoresLaterDirectives(t1: Node, t2: Node, i: nat)
    requires i < |CommitFields|
    requires forall j :: 0 <= j <= i ==> Unwrap(t1, CommitFields[j].directive) == Unwrap(t2, CommitFields[j].directive)
    requires Unwrap(t1, CommitFields[i].directive).Failure?
    ensures Committed(t1).Failure? && Committed(t1) == Committed(t2)
  {
    CommittedIsFlat(t1);
    CommittedIsFlat(t2);
    ResolveFieldsStopsAtFailure(t1, t2, CommitFields, i);
  }

  /** A construct whose configuration was never loaded is `None`, and its commit raises the
      TypeError of subscripting `None` with the first section name. */
  lemma CommitUnloadedFails()
    ensures Committed(NoneNode) == Failure(NotSubscriptable("env-directive", Null))
  {
    assert Unwrap(NoneNode, ["env-directive", "prefix"]) == Failure(NotSubscriptable("env-directive", Null));
  }

  /** What `from_construct_registry_directive` loads: the registry directive's
      `path_to_construct_file` (read with `.get`, so None when absent) must be a string, and
      `load` is given that string as it stands and gives None for a missing file. */
  function LoadedConfiguration(directive: Node, load: string -> Option<Node>): Result<Node> {
    match directive
    case Atom(_) => Failure(NoSuchAttribute("get"))
    case Mapping(m) =>
      if "path_to_construct_file" !in m then Failure(BadPathOperand)
      else match m["path_to_construct_file"]
        case Atom(Str(path)) =>
          (match load(path)
           case None => Failure(FileNotFound(path))
           case Some(tree) => Success(tree))
        case _ => Failure(BadPathOperand)
  }

  /** The configuration is loaded from the file the directive names, and from nowhere else. */
  lemma LoadedConfigurationSpec(directive: Node, load: string -> Option<Node>)
    ensures LoadedConfiguration(directive, load).Success? <==>
              && directive.Mapping?
              && "path_to_construct_file" in directive.entries
              && directive.entries["path_to_construct_file"].Atom?
              && directive.entries["path_to_construct_file"].value.Str?
              && load(directive.entries["path_to_construct_file"].value.s).Some?
    ensures LoadedConfiguration(directive, load).Success? ==>
              LoadedConfiguration(directive, load).value ==
                load(directive.entries["path_to_construct_file"].value.s).value
  {
  }

  class PPOConstruct {
    var constructRegistryDirective: Node
    var constructConfiguration: Node

    /** `PPOConstruct(directive)`: stores the directive; nothing is loaded yet. */
    constructor (directive: Node)
      ensures constructRegistryDirective == directive
      ensures constructConfiguration == NoneNode
    {
      constructRegistryDirective := directive;
      constructConfiguration := NoneNode;
    }

    /** Builds an instance and loads its configuration from the file the directive names. */
    static method FromConstructRegistryDirective(directive: Node, load: string -> Option<Node>)
      returns (r: Result<PPOConstruct>)
      ensures r.Success? <==> LoadedConfiguration(directive, load).Success?
      ensures r.Failure? ==> r.error == LoadedConfiguration(directive, load).error
      ensures r.Success? ==> fresh(r.value)
      ensures r.Success? ==> r.value.constructRegistryDirective == directive
      ensures r.Success? ==> r.value.constructConfiguration == LoadedConfiguration(directive, load).value
    {
      var instance := new PPOConstruct(directive);
      if !directive.Mapping? {
        return Failure(NoSuchAttribute("get"));
      }
      var pathToConstructFile := if "path_to_construct_file" in directive.entries
                                 then Some(directive.entries["path_to_construct_file"]) else None;
      if !(pathToConstructFile.Some? && pathToConstructFile.value.Atom? && pathToConstructFile.value.value.Str?) {
        return Failure(BadPathOperand);
      }
      var path := pathToConstructFile.value.value.s;
      var loaded := load(path);
      if loaded.None? {
        return Failure(FileNotFound(path));
      }
      instance.constructConfiguration := loaded.value;
      return Success(instance);
    }

    /** Builds the PPO config section by section from the loaded configuration. It reads
        the configuration only; the instance is left as it was. */
    method Commit() returns (r: Result<ParamSpace>)
      ensures r == Committed(constructConfiguration)
    {
      var construct := new AlgorithmConfig();

      var env :- EnvConfig(constructConfiguration);
      construct.Apply(env);
      assert construct.settings == env;

      var framework :- FrameworkConfig(constructConfiguration);
      construct.Apply(framework);

      var rollouts :- RolloutsConfig(constructConfiguration);
      construct.Apply(rollouts);

      var training :- TrainingConfig(constructConfiguration);
      construct.Apply(training);

      var resources :- ResourcesConfig(constructConfiguration);
      construct.Apply(resources);

      var evaluation :- EvaluationConfig(constructConfiguration);
      construct.Apply(evaluation);

      r := Success(construct.ToDict());
    }

    /** Committing twice on one instance gives equal results. */
    method CommitTwice() returns (first: Result<ParamSpace>, second: Result<ParamSpace>)
      ensures first == second
      ensures first == Committed(constructConfiguration)
    {
      first := Commit();
      second := Commit();
    }
  }
}
