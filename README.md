# kedro-kubeflow: configuration resolution and client decision logic

This project models two parts of the kedro-kubeflow plugin and proves properties of the model:

- **The configuration layer** (`kedro_kubeflow/config.py`). This is a set of read-only views over the raw dictionary loaded from `kubeflow.yaml`:
  - `PluginConfig`, `RunConfig` and `VolumeConfig`;
  - the per-node policy resolvers `NodeResources` and `RetryPolicy`.

  Each property is either a required key, a key with a default, or a coercion through Python's `int`, `float`, `str` or `bool`. The resolvers merge a `__default__` entry with a node's own entry. `RetryPolicy` then normalises the merged retry values.
- **The decision logic of `KubeflowClient`** (`kedro_kubeflow/kfpclient.py`). This covers:
  - which pipeline generator the merge strategy selects;
  - the bounded name a pipeline is uploaded under;
  - the choice between uploading a new pipeline and adding a version to an existing one;
  - the read-through creation of experiments, with its error classification;
  - the scheduling rule: delete the recurring runs that carry the run name, then create one;
  - the wait branch of `run_once`.

The model has five modules:

- `Wrappers` holds `Option` and `Result`.
- `PyValue` holds:
  - the dynamically typed values YAML loads into (`None`, bool, int, float, str, list, dict);
  - the exceptions the code raises (`MissingConfigException`, `ValueError`, `TypeError`, `AttributeError`, `Exception`), each with its message;
  - the Python conversions the accessors apply.
- `Configuration` holds one datatype per configuration class. Each property is a member function returning `Result<_, Error>`, so a raised exception is a `Failure`.
- `KfpService` is an abstract Kubeflow Pipelines service (class `RemoteService`). It holds experiments, pipelines with versions, recurring runs ("jobs") and one-off runs, and offers the calls the client makes. Every new object gets a fresh id from one counter. Its invariant `Valid()` keeps experiment, pipeline, version, job and run ids below the counter, and pipeline ids and job ids distinct.
- `KfpClient` holds the pure decisions as functions. `KubeflowClient` is a class over a `RemoteService`, and its methods change the service's state. Each method's postcondition gives the new state in terms of the old one. Lemmas connect the postconditions to the properties the source promises.

## Model

| member | source | states |
|---|---|---|
| Configuration.GetOrDefault | kedro_kubeflow/config.py:138-139 | a dict section yields the value under the key when present and the default otherwise; a non-dict section raises AttributeError from `.get` |
| Configuration.GetOrFail | kedro_kubeflow/config.py:141-147 | a present key yields its value; a missing key fails with MissingConfig naming prefix+key; a non-dict section raises AttributeError from `.keys()` |
| Configuration.RequiredKeys | kedro_kubeflow/config.py:141-150 | host, run_config, project_id and region fail under their bare names, and image, root, experiment_name and run_name under `run_config.`; present keys are returned |
| Configuration.RunConfigDefaults | kedro_kubeflow/config.py:224-286 | each absent optional `run_config` key defaults: pull policy IfNotPresent, ttl 604800, wait_for_completion False, store_kedro_outputs_as_kfp_artifacts True, description/on_exit_pipeline None, volume None, max_cache_staleness "None", strategy "none", an empty resources and retry_policy section |
| Configuration.VolumeDefaults | kedro_kubeflow/config.py:157-179 | each absent volume key defaults: storageclass None, size 1Gi, access_modes [ReadWriteOnce], skip_init/keep False, owner 0 |
| Configuration.OptionalKeysPresent | kedro_kubeflow/config.py:224-286 | every present optional `run_config` key is returned as configured: image_pull_policy, description and on_exit_pipeline; ttl goes through int, wait_for_completion and store_kedro_outputs_as_kfp_artifacts through bool, max_cache_staleness through str; a present volume, resources or retry_policy section becomes the view over it |
| Configuration.VolumeKeysPresent | kedro_kubeflow/config.py:157-179 | every present volume key (storageclass, size, access_modes, skip_init, keep, owner) is returned as configured |
| Configuration.NonMappingSectionRaises | kedro_kubeflow/config.py:138-143 | when a section is not a dict, required and optional reads and both resolvers raise AttributeError |
| Configuration.RunConfig.NodeMergeStrategy | kedro_kubeflow/config.py:288-296 | succeeds iff the section is a dict and str of the value (default "none") is "none" or "full", and then returns one of those two |
| Configuration.NodeMergeStrategyValidated | kedro_kubeflow/config.py:288-296 | absent gives "none"; a present value is accepted iff it is the string "none" or "full", and then returned as is; any other value fails with the ValueError "Invalid run_config.node_merge_strategy: <value>" |
| Configuration.ScheduledRunNameFallsBack | kedro_kubeflow/config.py:240-244 | a missing run_name fails even when scheduled_run_name is set, because the fallback is evaluated first; otherwise scheduled_run_name, or run_name when it is absent |
| Configuration.ResolvePolicy | kedro_kubeflow/config.py:189-192 | succeeds iff the section and both entries are dicts; the result's keys are the union of the two entries' keys, the node's value wins on shared keys and the default's value is kept elsewhere; a non-dict section raises AttributeError from `.get`; a non-dict `__default__` entry, or else a non-dict node entry, raises TypeError "'<type>' object is not a mapping" naming that entry |
| Configuration.OverrideIsUnique | kedro_kubeflow/config.py:192 | the default-then-override merge determines its result |
| Configuration.OverrideIsIdempotent | kedro_kubeflow/config.py:192 | merging the same node entry over a merged policy again changes nothing |
| Configuration.UnlistedNameResolvesToDefault | kedro_kubeflow/config.py:189-192 | a name without an own entry, such as a pipeline name, resolves to exactly the `__default__` entry |
| Configuration.NodeResources.IsSetFor | kedro_kubeflow/config.py:186-187 | fails exactly when get_for fails, with get_for's error; true iff the `__default__` entry or the node's entry is non-empty |
| Configuration.NoEntriesMeansUnset | kedro_kubeflow/config.py:186-187 | with neither a `__default__` nor an own entry, neither resources nor a retry policy is set |
| Configuration.DefaultSetsEveryName | kedro_kubeflow/config.py:186-197 | a non-empty `__default__` sets resources for every name whose own entry is absent or a mapping, and a retry policy for every such name unless conversion fails |
| Configuration.RetryPolicy.GetFor | kedro_kubeflow/config.py:199-216 | an empty merge gives {}; otherwise it succeeds iff int(num_retries, default 0) and float(backoff_factor) succeed; on failure it raises int()'s error when int fails, and float()'s only when int succeeded; and the result is the merged map with num_retries an int, backoff_factor a float or None, backoff_duration a str or None, and every other key unchanged |
| Configuration.RetryPolicy.IsSetFor | kedro_kubeflow/config.py:196-197 | fails exactly when get_for fails, with get_for's error; true iff the merged entries are non-empty |
| Configuration.RetryEmptyIffUnset | kedro_kubeflow/config.py:203-204 | the normalised retry policy is {} exactly when the merged entries are |
| Configuration.RetryValueKinds | kedro_kubeflow/config.py:205-215 | a non-empty retry policy has an int num_retries, a float-or-None backoff_factor and a str-or-None backoff_duration |
| Configuration.MissingRetryCountIsZero | kedro_kubeflow/config.py:205 | an absent num_retries becomes 0 |
| Configuration.ResourcesDefaultAndNodeSpecific | kedro_kubeflow/config.py:189-192 | the default entry is merged under node2's own entry; node3 gets the default alone and is set |
| Configuration.RetryPolicyNodeSpecific | kedro_kubeflow/config.py:199-216 | a node entry with "100", "5m" and 1 normalises to 100, "5m" and 1.0 |
| PyValue.IntOf | kedro_kubeflow/config.py:205 | Python's int(): bool, int and float always convert, an int to itself, True to 1 and False to 0, a float truncated toward zero; a str converts iff it is a signed decimal literal; any other value raises TypeError and a bad str raises ValueError |
| PyValue.FloatOf | kedro_kubeflow/config.py:206-210 | Python's float(): int and float convert exactly; a str converts iff it is a signed decimal literal; any other value raises TypeError and a bad str raises ValueError |
| PyValue.StrOf | kedro_kubeflow/config.py:289-291 | Python's str(): a string is returned unchanged, None becomes "None", and only the strings "none" and "full" render as "none" and "full" (so no int, bool or None passes the strategy check); see IntRoundTrip and FloatRoundTripIntegral for ints and whole floats |
| PyValue.Truth | kedro_kubeflow/config.py:267-274 | Python's bool(): false exactly for None, False, 0, 0.0 and the empty string, list and dict |
| PyValue.IntRoundTrip | kedro_kubeflow/config.py:205 | int(str(n)) == n for every int, so a count written as a string reads back as that count |
| PyValue.FloatRoundTripIntegral | kedro_kubeflow/config.py:206-210 | float(str(x)) == x for every float holding a whole number |
| KfpClient.SelectGenerator | kedro_kubeflow/kfpclient.py:43-54 | "none" selects the pod-per-node generator, "full" the one-pod generator, anything else raises Exception naming the strategy |
| KfpClient.Setup | kedro_kubeflow/kfpclient.py:38-54 | the client is set up iff host, run_config, its description and its merge strategy can all be read; otherwise the error is that of the first read that fails, in that order; it keeps the host, project name and description and the generator the strategy selects |
| KfpClient.ValidatedStrategySelects | kedro_kubeflow/kfpclient.py:51-54 | setup never fails with the client's own Exception for the strategy, because every strategy the configuration accepts selects a generator |
| KfpClient.FullPipelineName | kedro_kubeflow/kfpclient.py:97-98 | exactly min(100, length of the full name) characters; a prefix of "[project] pipeline (env: env)"; equal to it iff that string has at most 100 characters |
| KfpClient.LongProjectNameHidesPipeline | kedro_kubeflow/kfpclient.py:97-98 | with a project name of 99 or more characters, every pipeline and environment gets the same uploaded name |
| KfpClient.KubeflowClient.PipelineExists | kedro_kubeflow/kfpclient.py:122-123 | true iff the service holds a pipeline with exactly this name |
| KfpClient.KubeflowClient.Upload | kedro_kubeflow/kfpclient.py:100-123 | a pipeline already found under the full name gets exactly one new version holding the package, and every other pipeline is unchanged (pipeline ids are distinct); otherwise exactly one pipeline is created under that name, with the description and the package as its version; one fresh id, unused by any earlier version, is used for a version, two for a new pipeline; either way the name then resolves to a pipeline whose latest version is the package |
| KfpClient.NewPipelineIsNamed | kedro_kubeflow/kfpclient.py:111-113 | a pipeline created under a name no pipeline had is the one that name resolves to |
| KfpClient.VersionAddedToNamed | kedro_kubeflow/kfpclient.py:106-108 | adding a version under the id a name resolves to makes the name resolve to the same pipeline with the version appended |
| KfpClient.KubeflowClient.EnsureExperimentExists | kedro_kubeflow/kfpclient.py:147-163 | a found experiment's id is returned with no creation; a ValueError starting "No experiment is found" leads to exactly one creation, whose id is returned; any other error is returned unchanged with no creation; a later lookup finds the returned id |
| KfpClient.NoExperimentFoundIsNotFound | kedro_kubeflow/kfpclient.py:154-156 | the service's error for a missing experiment is classified as "not found" |
| KfpClient.CreatedExperimentIsFound | kedro_kubeflow/kfpclient.py:158-163 | an experiment created after a lookup found none is what the next lookup finds |
| KfpClient.KubeflowClient.DisableRuns | kedro_kubeflow/kfpclient.py:192-200 | the remaining jobs are the old jobs minus those of the experiment with the run name, in order; delete_job is called once for each such job, in order; nothing is deleted when the experiment lists no job |
| KfpClient.KubeflowClient.DeleteJobs | kedro_kubeflow/kfpclient.py:198-200 | deleting each listed job's id in turn leaves the jobs whose ids were not listed and logs those ids in order |
| KfpClient.Named | kedro_kubeflow/kfpclient.py:197 | the comprehension keeps exactly the listed jobs with the run name |
| KfpClient.NamedInExperiment | kedro_kubeflow/kfpclient.py:193-197 | filtering the experiment's listed jobs by name gives exactly the jobs of that experiment with that name |
| KfpClient.DeletingMatchingIds | kedro_kubeflow/kfpclient.py:197-200 | because job ids are distinct, deleting the ids of the matching jobs removes exactly the matching jobs |
| KfpClient.UnlistedExperimentRemovesNothing | kedro_kubeflow/kfpclient.py:194-195 | when the experiment has no jobs, no job matches and every job remains |
| KfpClient.KubeflowClient.Schedule | kedro_kubeflow/kfpclient.py:165-189 | the experiment is ensured as in EnsureExperimentExists: found, or created once with the next id, and a lookup error other than "not found" is returned before any job or id changes; otherwise the same-named jobs of that experiment are deleted and one recurring run is created in that very experiment, with a fresh id, the run name, cron expression, parameters and the pipeline id found under the full name; afterwards it is the only job of the experiment with that name |
| KfpClient.KubeflowClient.ReplaceRecurringRun | kedro_kubeflow/kfpclient.py:181-189 | after the experiment is known: the same-named jobs of the experiment are deleted in order and one recurring run is appended with the next id, which no earlier job has; it is then the only job of the experiment with that name |
| KfpClient.OnlyNewJobMatches | kedro_kubeflow/kfpclient.py:182-189 | after removing the same-named jobs and adding one, that job is the only one of the experiment with the name |
| KfpClient.KubeflowClient.RunOnce | kedro_kubeflow/kfpclient.py:73-84 | one run is created, with a fresh id, from the generated pipeline with the given name, experiment, namespace and arguments; wait_for_run_completion is called with a one-day timeout iff wait is true |

## Left out

- The pipeline generators (`one_pod_pipeline_generator`, `pod_per_node_pipeline_generator`) are not part of this model. A generated pipeline is represented only by the call that produced it: generator, pipeline name, image and pull policy.
- `Compiler().compile`, the temporary YAML files, authentication (`AuthHandler`, tokens, cookies) and the construction of `kfp.Client` are not modelled. These are library, file and network calls. `KubeflowClient.constructor` takes the settings `Setup` reads, together with the service.
- `compile` and `list_pipelines` are not modelled. They only compile to a file, or format a table with `tabulate`.
- Logging, and the pipeline link printed by `upload`, are not modelled.
- `run_name.format(**parameters)` is not modelled. `RunOnce` and `Schedule` take the formatted name.
- `_upload_pipeline_version`'s version name (`clean_name` plus `uuid4`) is not modelled. A version is known by its id and package.
- KfpClient.KubeflowClient.RunOnce: `run_once`'s default arguments (`image_pull_policy="IfNotPresent"`, `parameters={}`, kedro_kubeflow/kfpclient.py:70-71) are not modelled. Dafny methods have no default arguments, so callers pass both.
- `wait_for_run_completion` is recorded as a call with its timeout, not awaited.
- `PluginConfig.sample_config`, `DEFAULT_CONFIG_TEMPLATE` and `initialize_github_actions` are not modelled. They are a large `str.format` template and file I/O.
- YAML parsing is not modelled. Dict keys are strings.
- Python floats are exact reals: no rounding, no inf or nan.
- `VolumeConfig` has no required keys, so its prefix `run_config.volume.` (kedro_kubeflow/config.py:181-182) never appears in an error. The model declares it (`Configuration.VolumeConfig.Prefix`) but the prefix has no observable effect.
- `Config.__eq__` is not modelled. Datatype equality compares the raw values directly.
- PyValue.StrOf: exact for None, bool, int, str and whole floats below 10^16 in magnitude. From 10^16 on, Python writes a whole float in exponent form (`1e+16`); the model still writes its digits followed by `.0`. A non-integral float, a list or a dict gives a fixed placeholder (`<float>`, `<list>`, `<dict>`). So `max_cache_staleness` and `backoff_duration` of such values are not modelled exactly.
- PyValue.IntOf: a string is accepted as an optional sign and ASCII digits. Surrounding whitespace, underscores and non-ASCII digits are left out.
- PyValue.FloatOf: a string is accepted as an optional sign, ASCII digits and an optional decimal fraction. Surrounding whitespace, underscores between digits (`float("1_0.5")`), exponents and `inf`/`nan` are left out.
- KfpClient.KubeflowClient.DisableRuns: one `list_recurring_runs` call is taken to list every job of the experiment. The service's paging is not modelled, and neither is paging in `get_pipeline_id` or `get_experiment`.
- KfpClient.KubeflowClient.Schedule: "the only job of the experiment with that name" rests on the same unpaged listing as DisableRuns. With paging, same-named jobs beyond the first page would survive.
- KfpClient.KubeflowClient.EnsureExperimentExists: the lookup fails either with the service's "No experiment is found" ValueError or with an arbitrary `lookupFault`. Other service errors, such as a failing `create_experiment`, are not modelled.
- KfpClient.KubeflowClient.Upload: the service's check that pipeline names are unique is not modelled.
