/** Plain stand-ins for the objects of the external tuning library that the
configuration code fills in: the algorithm-config builder, the run and
checkpoint configurations, and the tuner job. Only the values the code passes
to them are kept; the library's own defaults and behaviour are not modelled. */
module RayRecords {
  import opened Directives

  /** The keyword arguments of the algorithm-config builder's section calls that the
      configuration code fills in. */
  datatype Kwarg =
    | Env | Framework
    | NumRolloutWorkers | NumEnvsPerWorker | RolloutFragmentLength
    | Lr | Lambda | Gamma | SgdMinibatchSize | UseGae | TrainBatchSize | NumSgdIter | ClipParam | Model
    | NumGpus
    | EvaluationInterval | EvaluationDuration

  /** The keyword's spelling in the library. */
  function KwargName(k: Kwarg): string {
    match k
    case Env => "env"
    case Framework => "framework"
    case NumRolloutWorkers => "num_rollout_workers"
    case NumEnvsPerWorker => "num_envs_per_worker"
    case RolloutFragmentLength => "rollout_fragment_length"
    case Lr => "lr"
    case Lambda => "lambda_"
    case Gamma => "gamma"
    case SgdMinibatchSize => "sgd_minibatch_size"
    case UseGae => "use_gae"
    case TrainBatchSize => "train_batch_size"
    case NumSgdIter => "num_sgd_iter"
    case ClipParam => "clip_param"
    case Model => "model"
    case NumGpus => "num_gpus"
    case EvaluationInterval => "evaluation_interval"
    case EvaluationDuration => "evaluation_duration"
  }

  /** The keyword spelled `name`, if any: the inverse of `KwargName`. */
  function KwargNamed(name: string): (k: Option<Kwarg>)
    ensures k.Some? ==> KwargName(k.value) == name
  {
    // Grouped by length, so that only spellings of equal length are ever compared.
    match |name|
    case 2 => if name == "lr" then Some(Lr) else None
    case 3 => if name == "env" then Some(Env) else None
    case 5 => if name == "gamma" then Some(Gamma) else if name == "model" then Some(Model) else None
    case 7 => if name == "lambda_" then Some(Lambda) else if name == "use_gae" then Some(UseGae) else None
    case 8 => if name == "num_gpus" then Some(NumGpus) else None
    case 9 => if name == "framework" then Some(Framework) else None
    case 10 => if name == "clip_param" then Some(ClipParam) else None
    case 12 => if name == "num_sgd_iter" then Some(NumSgdIter) else None
    case 16 => if name == "train_batch_size" then Some(TrainBatchSize) else None
    case 18 => if name == "sgd_minibatch_size" then Some(SgdMinibatchSize) else None
    case 19 =>
      if name == "num_rollout_workers" then Some(NumRolloutWorkers)
      else if name == "num_envs_per_worker" then Some(NumEnvsPerWorker)
      else if name == "evaluation_interval" then Some(EvaluationInterval)
      else if name == "evaluation_duration" then Some(EvaluationDuration)
      else None
    case 23 => if name == "rollout_fragment_length" then Some(RolloutFragmentLength) else None
    case _ => None
  }

  /** Every keyword is found again from its spelling. */
  lemma KwargNameRoundTrip(k: Kwarg)
    ensures KwargNamed(KwargName(k)) == Some(k)
  {
    match k
    case Env =>
    case Framework =>
    case NumRolloutWorkers =>
    case NumEnvsPerWorker =>
    case RolloutFragmentLength =>
    case Lr =>
    case Lambda =>
    case Gamma =>
    case SgdMinibatchSize =>
    case UseGae =>
    case TrainBatchSize =>
    case NumSgdIter =>
    case ClipParam =>
    case Model =>
    case NumGpus =>
    case EvaluationInterval =>
    case EvaluationDuration =>
  }

  /** Distinct keywords have distinct spellings, so distinct keys of a parameter space are
      distinct Python keyword arguments. */
  lemma KwargNameInjective(a: Kwarg, b: Kwarg)
    ensures KwargName(a) == KwargName(b) ==> a == b
  {
    KwargNameRoundTrip(a);
    KwargNameRoundTrip(b);
  }

  /** The keyword's position in the declaration above, which is also the order in which the
      section calls pass them. */
  function KwargOrder(k: Kwarg): nat {
    match k
    case Env => 0
    case Framework => 1
    case NumRolloutWorkers => 2
    case NumEnvsPerWorker => 3
    case RolloutFragmentLength => 4
    case Lr => 5
    case Lambda => 6
    case Gamma => 7
    case SgdMinibatchSize => 8
    case UseGae => 9
    case TrainBatchSize => 10
    case NumSgdIter => 11
    case ClipParam => 12
    case Model => 13
    case NumGpus => 14
    case EvaluationInterval => 15
    case EvaluationDuration => 16
  }

  /** The resolved keyword arguments handed to an algorithm-config builder. */
  type ParamSpace = map<Kwarg, Node>

  /** The keys of the stop-condition dict. */
  datatype StopMetric = TrainingIteration | TimestepsTotal | EpisodeRewardMean

  function StopMetricName(m: StopMetric): string {
    match m
    case TrainingIteration => "training_iteration"
    case TimestepsTotal => "timesteps_total"
    case EpisodeRewardMean => "episode_reward_mean"
  }

  /** Distinct stop metrics have distinct spellings. */
  lemma StopMetricNameInjective(a: StopMetric, b: StopMetric)
    ensures StopMetricName(a) == StopMetricName(b) ==> a == b
  {
  }

  /** `air.CheckpointConfig(checkpoint_frequency=..., checkpoint_at_end=...)`. */
  datatype CheckpointConfig = CheckpointConfig(checkpointFrequency: Node, checkpointAtEnd: Node)

  /** `air.RunConfig(stop=..., checkpoint_config=..., verbose=...)`. */
  datatype RunConfig = RunConfig(stop: map<StopMetric, Node>, checkpointConfig: CheckpointConfig, verbose: Node)

  /** `tune.Tuner(trainable=..., param_space=..., run_config=...)`, each argument possibly None. */
  datatype Tuner = Tuner(trainable: Option<string>, paramSpace: Option<ParamSpace>, runConfig: Option<RunConfig>)

  /** The algorithm-config builder: each section call records its keyword
      arguments, later calls overriding earlier ones. */
  class AlgorithmConfig {
    var settings: ParamSpace

    constructor ()
      ensures settings == map[]
    {
      settings := map[];
    }

    /** One section call such as `.environment(env=...)` or `.training(lr=..., ...)`. */
    method Apply(section: ParamSpace)
      modifies this
      ensures settings == old(settings) + section
    {
      settings := settings + section;
    }

    /** The recorded arguments. */
    function ToDict(): ParamSpace
      reads this
    {
      settings
    }
  }
}
