# Configuration directive resolution for a PPO tuning job

This project models the part of `ray-rllib-proto` that turns YAML directive trees into the
arguments of a reinforcement-learning tuning job. A directive tree is a nested mapping.
Each leaf is an envelope `{"choice": v}`, and the code unwraps it to `v`. Three objects
take part:

- **`PPOConstruct`** (module `PPO`, `ppo.dfy`) loads a construct file named by its
  registry directive. `commit` then reads six sections (env, framework, rollouts, training,
  resources, evaluation) from `env-directive/...` and `ppo-directive/...`. It hands each
  section to the PPO config builder and returns the builder's recorded arguments.
- **`Engine`** (module `Engine`, `engine.dfy`) looks up seven sub-sections of its
  configuration. It then sets three fields in turn: the trainable, the PPO parameter space
  (its own schema, with the environment id at `environment/env_name`) and the run-time
  conditions (stop dict, checkpoint settings, verbosity).
- **`TunerDelegator`** (module `Tuner`, `tuner.dfy`) gets a trainable construct delegator
  for its construct directive. It takes that delegator's parameter space and prefix, and
  builds the tuner job from its own fields.

The shared machinery is in module `Directives` (`directives.dfy`):

- the tree `Node`;
- the path lookup `Get`, which is Python's chained subscription;
- the envelope unwrap `Unwrap`;
- `ResolveFields`, a dict literal whose entries are `key: tree[...]["choice"]`.

Its generic lemmas relate a dict literal to the directives it reads: when it succeeds, the
first one that fails, what it holds, how two literals concatenate, and lookups below a
prefix. The builder and job records of the external tuning library are plain values in
module `RayRecords` (`ray_records.dfy`). Builder keyword names form the enumeration
`Kwarg`, and stop-metric names form `StopMetric`. Their Python spellings are given by
`KwargName` and `StopMetricName`.

Python exceptions become `Failure` values:

| Python exception | `Failure` value |
|---|---|
| `KeyError` for a missing key | `KeyMissing(key)` |
| `TypeError` from subscripting a scalar (including `None`) | `NotSubscriptable(key, operand)`, which records the key and the scalar |
| `AttributeError` | `NoSuchAttribute(name)` |
| `TypeError` from joining a directory with a non-string | `BadPathOperand` |
| the loader's missing-file error | `FileNotFound(path)` |

A Python `None` leaf is the atom `NoneNode`.

## Model

| member | source | states |
|---|---|---|
| Directives.Get | basic_project/delegator/construct/ppo.py:21 | A chained subscription fails only on a non-empty path, with a KeyError or a TypeError raised at one of the path's keys; which error, and its payload, `Directives.GetMissingKey` and `Directives.GetScalar` state |
| Directives.GetMissingKey | basic_project/delegator/construct/ppo.py:21 | A walk that reaches a mapping lacking key k fails there with the KeyError naming k, whatever the rest of the path is |
| Directives.GetScalar | basic_project/delegator/construct/ppo.py:21 | A walk that reaches a scalar before its last key fails at the next key k with the TypeError carrying k and that scalar, whatever the rest of the path is |
| Directives.Unwrap | basic-project/engine.py:33 | The reference definition of `x[...]["choice"]`; its meaning is stated by `Directives.UnwrapMeans` |
| Directives.UnwrapMeans | basic-project/engine.py:33 | `x[...]["choice"]` succeeds iff the node exists and is a dict holding `choice`, and yields that entry; each way it can fail gives its own error |
| Directives.UnwrapUnder | basic-project/engine.py:93-101 | Reading a directive below a looked-up section is the same as reading it from the root with the section's path prepended |
| Directives.ResolveFields | basic_project/delegator/construct/ppo.py:29-34 | A successful dict literal has exactly the keys it lists |
| Directives.ResolveFieldsSucceedsIff | basic_project/delegator/construct/ppo.py:29-34 | A dict literal of directives evaluates iff every one of its directives unwraps |
| Directives.ResolveFieldsFailsAtFirst | basic_project/delegator/construct/ppo.py:29-34 | A dict literal fails with error e iff some directive fails with e and every earlier one in source order unwraps |
| Directives.ResolveFieldsValue | basic_project/delegator/construct/ppo.py:29-34 | With distinct keys, each listed key maps to the unwrapped choice of its own directive |
| Directives.ResolveFieldsContents | basic_project/delegator/construct/ppo.py:36-47 | With distinct keys, all listed keys map to their own directive's unwrapped choice |
| Directives.ResolveFieldsAppend | basic_project/delegator/construct/ppo.py:60-81 | Evaluating two literals one after the other and merging them equals evaluating their concatenation; the first failure wins |
| Directives.ResolveSixSections | basic_project/delegator/construct/ppo.py:60-81 | Six section literals evaluated in order and merged equal one literal over all their directives |
| Directives.ResolveFieldsStopsAtFailure | basic_project/delegator/construct/ppo.py:60-81 | Directives after the first failing one are never read: two trees that agree up to it give the same failure |
| Directives.ResolveFieldsUnder | basic-project/engine.py:93-104 | Every directive of a literal, read from the root below a prefix, unwraps iff the prefix section exists and the literal resolves within it |
| RayRecords.KwargNamed | basic_project/delegator/construct/ppo.py:19-58 | Looking up a keyword by its spelling: whatever keyword it finds is spelled as asked |
| RayRecords.KwargNameRoundTrip | basic_project/delegator/construct/ppo.py:19-58 | Every builder keyword is found again from its Python spelling |
| RayRecords.KwargNameInjective | basic_project/delegator/construct/ppo.py:19-58 | Distinct keywords have distinct Python spellings, so distinct keys are distinct keyword arguments |
| RayRecords.StopMetricNameInjective | basic-project/engine.py:66-70 | Distinct stop metrics have distinct Python spellings |
| RayRecords.AlgorithmConfig.constructor | basic_project/delegator/construct/ppo.py:61 | A new builder has recorded no arguments |
| RayRecords.AlgorithmConfig.Apply | basic_project/delegator/construct/ppo.py:63-79 | A section call records its keyword arguments, and later ones override earlier ones |
| RayRecords.AlgorithmConfig.ToDict | basic_project/delegator/construct/ppo.py:81 | The recorded arguments; the library's full dict is not modelled |
| PPO.EnvConfigSpec | basic_project/delegator/construct/ppo.py:19-22 | `_env_config` succeeds iff `env-directive/prefix/choice` exists; it is then `{env: that value}`, and otherwise it fails with that lookup's error |
| PPO.FrameworkConfigSpec | basic_project/delegator/construct/ppo.py:24-27 | `_framework_config` succeeds iff `ppo-directive/framework/choice` exists; it is then `{framework: that value}`, and otherwise it fails with that lookup's error |
| PPO.ResourcesConfigSpec | basic_project/delegator/construct/ppo.py:49-52 | `_resources_config` succeeds iff `ppo-directive/resources/num_gpus/choice` exists; it is then `{num_gpus: that value}`, and otherwise it fails with that lookup's error |
| PPO.EvaluationConfigSpec | basic_project/delegator/construct/ppo.py:54-58 | `_evaluation_config` succeeds iff both evaluation directives unwrap; it is then exactly the two-key map of their choices, and otherwise the error is the interval's if it does not unwrap, else the duration's |
| PPO.EnvConfig | basic_project/delegator/construct/ppo.py:19-22 | Reference definition of `_env_config`; stated by `PPO.EnvConfigSpec` |
| PPO.FrameworkConfig | basic_project/delegator/construct/ppo.py:24-27 | Reference definition of `_framework_config`; stated by `PPO.FrameworkConfigSpec` |
| PPO.RolloutsConfig | basic_project/delegator/construct/ppo.py:29-34 | Reference definition of `_rollouts_config`; stated by `PPO.RolloutsConfigSpec` |
| PPO.TrainingConfig | basic_project/delegator/construct/ppo.py:36-47 | Reference definition of `_training_config`; stated by `PPO.TrainingConfigSpec` |
| PPO.ResourcesConfig | basic_project/delegator/construct/ppo.py:49-52 | Reference definition of `_resources_config`; stated by `PPO.ResourcesConfigSpec` |
| PPO.EvaluationConfig | basic_project/delegator/construct/ppo.py:54-58 | Reference definition of `_evaluation_config`; stated by `PPO.EvaluationConfigSpec` |
| PPO.Committed | basic_project/delegator/construct/ppo.py:60-81 | Reference definition of what `commit` returns; stated by `PPO.CommittedIsFlat`, `PPO.CommitSucceedsIff`, `PPO.CommitContents` and `PPO.CommitFailsAtFirstMissing` |
| PPO.LoadedConfiguration | basic_project/delegator/construct/ppo.py:12-16 | Reference definition of the loaded configuration; stated by `PPO.LoadedConfigurationSpec` |
| PPO.RolloutsConfigSpec | basic_project/delegator/construct/ppo.py:29-34 | `_rollouts_config` succeeds iff its three directives unwrap, and is then exactly the three-key map of their values |
| PPO.TrainingConfigSpec | basic_project/delegator/construct/ppo.py:36-47 | `_training_config` succeeds iff its nine directives unwrap; it then has exactly nine keys, each its directive's value, and `model` is `training/model/choice` unchanged |
| PPO.CommitFieldsDistinct | basic_project/delegator/construct/ppo.py:19-58 | The seventeen keyword arguments of the six sections are pairwise distinct |
| PPO.CommittedIsFlat | basic_project/delegator/construct/ppo.py:60-81 | The six-step commit equals one dict literal over all seventeen directives in section order |
| PPO.CommitSucceedsIff | basic_project/delegator/construct/ppo.py:19-81 | `commit` succeeds iff all seventeen directives it reads unwrap, so any missing section or choice makes it fail |
| PPO.CommitContents | basic_project/delegator/construct/ppo.py:19-81 | A successful commit has exactly seventeen keys, each the unwrapped choice of its own directive |
| PPO.CommitFailsAtFirstMissing | basic_project/delegator/construct/ppo.py:60-81 | A failing commit reports the error of the first directive, in the order env, framework, rollouts, training, resources, evaluation, that does not unwrap: the KeyError of the missing key, or the TypeError at the scalar |
| PPO.CommitNamesMissingTraining | basic_project/delegator/construct/ppo.py:36-38 | A tree whose `ppo-directive` lacks the `training` section, with env, framework and rollouts present, fails to commit with the KeyError naming `training` |
| PPO.CommitIgnoresLaterDirectives | basic_project/delegator/construct/ppo.py:60-81 | Once a directive fails, later ones are never read: trees agreeing on the directives up to it fail to commit with the same exception |
| PPO.CommitUnloadedFails | basic_project/delegator/construct/ppo.py:7-21 | On an instance whose configuration is still `None`, commit fails with the TypeError of subscripting `None` by `env-directive` |
| PPO.LoadedConfigurationSpec | basic_project/delegator/construct/ppo.py:12-17 | The loaded configuration exists iff the directive is a dict whose `path_to_construct_file` is a string naming a file the loader finds; it is that file's tree |
| PPO.PPOConstruct.constructor | basic_project/delegator/construct/ppo.py:7-9 | Stores the registry directive; the configuration is `None` |
| PPO.PPOConstruct.FromConstructRegistryDirective | basic_project/delegator/construct/ppo.py:11-17 | Succeeds iff the named file loads; a new instance then holds the directive unchanged and the loaded tree as configuration |
| PPO.PPOConstruct.Commit | basic_project/delegator/construct/ppo.py:60-81 | Builds the config through six builder calls; the result is the specified commit of the current configuration, and no field changes |
| PPO.PPOConstruct.CommitTwice | basic_project/delegator/construct/ppo.py:60-81 | Two commits on one instance give equal results |
| Engine.ParamSpaceOf | basic-project/engine.py:35-62 | Reference definition of the parameter space the builder chain records; stated by `Engine.ParamSpaceOfSpec` |
| Engine.RuntimeOf | basic-project/engine.py:64-81 | Reference definition of the run config; stated by `Engine.RuntimeOfSpec` and `Engine.RuntimeOfFailsAtFirst` |
| Engine.SubSections | basic-project/engine.py:93-101 | Reference definition of the seven sub-section lookups; stated by `Engine.SubSectionsSpec` and `Engine.SubSectionsFailsAtFirst` |
| Engine.LoadOutcome | basic-project/engine.py:91-105 | Reference definition of the load's status and resulting fields; stated by `Engine.LoadSucceedsIff`, `Engine.LoadSetsFieldsInOrder` and `Engine.LoadFromUnset` |
| Engine.ParamSpaceFieldsDistinct | basic-project/engine.py:37-62 | The seventeen builder arguments of the engine's parameter space are pairwise distinct |
| Engine.ParamSpaceIsFlat | basic-project/engine.py:37-62 | The builder chain equals one dict literal over its seventeen directives in reading order |
| Engine.ParamSpaceOfSpec | basic-project/engine.py:35-62 | The parameter space fails iff one of its directives is missing, with the first such error in reading order; otherwise it has exactly those seventeen values |
| Engine.RuntimeOfSpec | basic-project/engine.py:64-81 | The run config exists iff its six directives unwrap; the stop dict then has exactly its three metrics, and checkpoint frequency, checkpoint-at-end and verbosity are the unwrapped choices |
| Engine.SubSectionsSpec | basic-project/engine.py:93-101 | The seven lookups succeed iff the five sections exist at their root paths, and they hand on exactly those sections |
| Engine.RuntimeOfFailsAtFirst | basic-project/engine.py:66-76 | A failing run config raises the error of its first failing read, in the order training_iteration, timesteps_total, episode_reward_mean, checkpoint_frequency, checkpoint_at_end, verbose |
| Engine.SubSectionsFailsAtFirst | basic-project/engine.py:93-101 | A failing load raises the error of the first of the seven sub-section lookups that fails, in source order, each stated on its root path |
| Engine.LoadStatus | basic-project/engine.py:91-105 | Loading succeeds iff the lookups and then each of the three setters succeed |
| Engine.ParamSpaceUnder | basic-project/engine.py:93-104 | The seventeen parameter-space directives read from the root all unwrap iff `param-space` exists and its parameter space resolves |
| Engine.RuntimeUnder | basic-project/engine.py:93-105 | The six run-time directives read from the root all unwrap iff the three run-time sections exist and the run config resolves |
| Engine.TrainableUnder | basic-project/engine.py:97-103 | The trainable unwraps from the root iff `tuner-space/trainable` exists and unwraps there, with the same value |
| Engine.LoadSucceedsIff | basic-project/engine.py:91-105 | Loading succeeds iff every one of its 24 leaf directives, read from the root, unwraps |
| Engine.LoadSetsFieldsInOrder | basic-project/engine.py:93-105 | A missing sub-section changes no field. A failing trainable changes nothing. A failing parameter space leaves the new trainable in place and nothing else changed. A failing run config leaves the new trainable and parameter space in place and the run-time field as it was. Success sets all three. Any failure leaves the run-time field as it was |
| Engine.LoadFromUnset | basic-project/engine.py:24-105 | From a fresh engine, a successful load sets all three fields to the values at their root paths, and a failed one leaves the run-time config unset |
| Engine.Engine.constructor | basic-project/engine.py:24-29 | Stores the configuration; trainable, parameter space and run-time config are unset |
| Engine.Engine.SetTrainable | basic-project/engine.py:31-33 | Sets only the trainable, to the envelope's choice; on failure nothing changes |
| Engine.Engine.SetParamSpaceConfig | basic-project/engine.py:35-62 | Sets only the parameter-space field, to the specified parameter space; on failure the field keeps its old value |
| Engine.Engine.SetAiRuntimeConfig | basic-project/engine.py:64-81 | Sets only the run-time field, to the specified run config; on failure the field keeps its old value |
| Engine.Engine.LoadConfigurationAndSetParameters | basic-project/engine.py:91-105 | The status and the three fields are those of the specified load applied to the fields before the call; the configuration is unchanged |
| Tuner.Delegated | basic_project/delegator/tuner.py:35-47 | Reference definition of the tuner `delegate_tuner_entity` returns; stated by `Tuner.DelegatedSpec` |
| Tuner.DelegatedSpec | basic_project/delegator/tuner.py:35-47 | The tuner exists iff a construct delegator is set and delegates successfully; it then carries that delegator's prefix and parameter space and the given run config, and otherwise the missing attribute or delegation error |
| Tuner.TunerDelegator.constructor | basic_project/delegator/tuner.py:7-22 | Stores both directives; the construct delegator, prefix, parameter space, run config and tune config are unset |
| Tuner.TunerDelegator.FromTrialDirective | basic_project/delegator/tuner.py:24-30 | Succeeds iff the construct delegator can be built from the construct directive; the new instance holds both directives and that delegator, and every other field is unset |
| Tuner.TunerDelegator.SetupRunConfig | basic_project/delegator/tuner.py:32-33 | Changes no field (only the ghost step trace grows) |
| Tuner.TunerDelegator.SetupTrainablePrefixAndParamSpace | basic_project/delegator/tuner.py:35-37 | On success the parameter space is the delegator's `delegate()` result and the prefix its `target_trainable_ray_prefix`; without a delegator, or when delegation fails, neither field changes |
| Tuner.TunerDelegator.DelegateTunerEntity | basic_project/delegator/tuner.py:39-48 | Runs the run-config step before the param-space step; the tuner is built from the current prefix, param space and run config; run and tune config are never assigned |
| Tuner.TunerDelegator.DelegateFromTrialDirective | basic_project/delegator/tuner.py:24-48 | From a fresh delegator the tuner exists iff the construct delegator is built and delegates; it carries its prefix and parameter space, and has no run config |

## Left out

- The tuning library's builders and jobs. `PPOConfig` is the class `AlgorithmConfig`, which
  only records the keyword arguments of its section calls. Its `to_dict()` is those
  arguments; the library's defaults and the full shape of its dict are not modelled.
  `air.CheckpointConfig`, `air.RunConfig` and `tune.Tuner` are plain records of the values
  passed to them.
- File loading. `load_yaml` is a parameter `load` from a path to an optional tree, where
  no tree means the file is missing. The join with the trainable-config directory is not
  modelled: the loader receives the path string as written in the directive.
- `Engine.start_rollout_and_learn` and `Engine._instantiate_tuner_entity`
  (`basic-project/engine.py:83-114`) are left out. They start the distributed runtime,
  fit and shut it down, which is execution, not configuration.
- The script block at the end of `basic-project/engine.py`, which loads the default
  configuration file and runs the engine, is left out (I/O).
- `TrainableConstructDelegator` is not part of this model. `TunerDelegator` sees it as a
  `TrainableSupplier` value: its `delegate()` outcome and its prefix. `from_construct_directive`
  is a function parameter that may fail.
- YAML sequences and other node kinds. A tree node is a mapping or an opaque scalar.
  Subscripting a list by a string key raises TypeError in Python, as subscripting an atom
  does here.
- The numeric meaning of hyperparameters. Leaf values are passed through untouched.
- Keyword and stop-metric names are enumerations rather than strings. `KwargName` and
  `StopMetricName` give their spellings.
- Dedicated error classes. The code has none: a missing key raises `KeyError`, and
  subscripting `None` or another scalar raises `TypeError`. A `commit` before loading fails
  with the TypeError of subscripting `None` (`PPO.CommitUnloadedFails`).
- Directives.Get: the payload of a TypeError is not modelled exactly. Python's message names
  only the type of the subscripted value (for a string, it says string indices must be
  integers). `NotSubscriptable` records the key and the scalar itself. So two failures the
  model calls equal raise the same Python exception, but the model can tell apart some
  failures whose Python messages are the same.
- `ray.init` and `ray.shutdown` are left out together with `start_rollout_and_learn`.
- Tuner.TunerDelegator.SetupRunConfig: the call order inside `delegate_tuner_entity` is
  observable only through a ghost trace of steps, because the run-config step is an empty
  placeholder.
