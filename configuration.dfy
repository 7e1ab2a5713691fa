/**
 * The plugin's configuration objects (kedro_kubeflow/config.py): typed,
 * read-only views of the raw dictionary loaded from the project's YAML file.
 * Each view holds its raw section unchanged; every property is a lookup that
 * either fails with a dotted-key error, falls back to a fixed default, or
 * (for resources and retry policies) merges a `__default__` entry with a
 * per-name entry.
 */
module Configuration {
  import opened Wrappers
  import opened PyValue

  /** The entry every node falls back on in `resources` and `retry_policy`. */
  const DEFAULT_ENTRY := "__default__"

  /** The prefix each view puts before a missing key in its error message. */
  const PLUGIN_PREFIX := ""
  const RUN_PREFIX := "run_config."
  const VOLUME_PREFIX := "run_config.volume."

  /** One week, in seconds: the default lifetime of a finished workflow. */
  const DEFAULT_TTL := 3600 * 24 * 7

  const NUM_RETRIES := "num_retries"
  const BACKOFF_FACTOR := "backoff_factor"
  const BACKOFF_DURATION := "backoff_duration"

  // ---------------------------------------------------------------------------
  // Lookups shared by all views

  /** `entries.get(key, default)`. */
  function Lookup(entries: map<string, Value>, key: string, default: Value): Value {
    if key in entries then entries[key] else default
  }

  /** `self._raw.get(prop, default)`: a raw section that is not a dict has no `get`. */
  function GetOrDefault(raw: Value, prop: string, default: Value): (r: Result<Value, Error>)
    ensures r.Success? <==> raw.PyDict?
    ensures raw.PyDict? && prop in raw.entries ==> r.value == raw.entries[prop]
    ensures raw.PyDict? && prop !in raw.entries ==> r.value == default
    ensures !raw.PyDict? ==> r == Failure(NoAttribute(raw, "get"))
  {
    if raw.PyDict? then Success(Lookup(raw.entries, prop, default)) else Failure(NoAttribute(raw, "get"))
  }

  /** `self._get_or_fail(prop)`: the raw value, or a MissingConfigException naming `prefix + prop`. */
  function GetOrFail(raw: Value, prefix: string, prop: string): (r: Result<Value, Error>)
    ensures r.Success? <==> raw.PyDict? && prop in raw.entries
    ensures r.Success? ==> r.value == raw.entries[prop]
    ensures raw.PyDict? && prop !in raw.entries ==> r == Failure(MissingConfig(prefix + prop))
    ensures !raw.PyDict? ==> r == Failure(NoAttribute(raw, "keys"))
  {
    if !raw.PyDict? then Failure(NoAttribute(raw, "keys"))
    else if prop in raw.entries then Success(raw.entries[prop])
    else Failure(MissingConfig(prefix + prop))
  }

  /** The raw entry for `name` in a policy section, `{}` when there is none. */
  function EntryOf(entries: map<string, Value>, name: string): Value {
    Lookup(entries, name, PyDict(map[]))
  }

  /** `**v` inside a dict display: only a mapping can be unpacked. */
  function AsMapping(v: Value): Result<map<string, Value>, Error> {
    if v.PyDict? then Success(v.entries) else Failure(NotAMapping(v))
  }

  function NotAMapping(v: Value): Error {
    TypeError("'" + TypeName(v) + "' object is not a mapping")
  }

  /** The ValueError raised for a merge strategy outside `none` and `full`. */
  function InvalidStrategy(prefix: string, strategy: string): Error {
    ValueError("Invalid " + prefix + "node_merge_strategy: " + strategy)
  }

  // ---------------------------------------------------------------------------
  // The policy resolver

  /**
   * `merged` is `defaults` overridden by `specific`: it has the keys of both,
   * the specific value wherever there is one, and the default value elsewhere.
   */
  ghost predicate IsOverride(defaults: map<string, Value>, specific: map<string, Value>, merged: map<string, Value>) {
    && merged.Keys == defaults.Keys + specific.Keys
    && (forall k :: k in specific ==> merged[k] == specific[k])
    && (forall k :: k in defaults && k !in specific ==> merged[k] == defaults[k])
  }

  /** The default-then-override merge of `get_for`: `{**defaults, **node_specific}`. */
  function ResolvePolicy(raw: Value, nodeName: string): (r: Result<map<string, Value>, Error>)
    ensures r.Success? <==>
      raw.PyDict? && EntryOf(raw.entries, DEFAULT_ENTRY).PyDict? && EntryOf(raw.entries, nodeName).PyDict?
    ensures r.Success? ==>
      IsOverride(EntryOf(raw.entries, DEFAULT_ENTRY).entries, EntryOf(raw.entries, nodeName).entries, r.value)
    ensures !raw.PyDict? ==> r == Failure(NoAttribute(raw, "get"))
    ensures raw.PyDict? && !EntryOf(raw.entries, DEFAULT_ENTRY).PyDict? ==>
      r == Failure(NotAMapping(EntryOf(raw.entries, DEFAULT_ENTRY)))
    ensures raw.PyDict? && EntryOf(raw.entries, DEFAULT_ENTRY).PyDict? && !EntryOf(raw.entries, nodeName).PyDict? ==>
      r == Failure(NotAMapping(EntryOf(raw.entries, nodeName)))
  {
    if !raw.PyDict? then
      Failure(NoAttribute(raw, "get"))
    else
      var defaults :- AsMapping(EntryOf(raw.entries, DEFAULT_ENTRY));
      var nodeSpecific :- AsMapping(EntryOf(raw.entries, nodeName));
      Success(defaults + nodeSpecific)
  }

  /** `backoff_factor` on read: `float(...)` when present, `None` otherwise. */
  function OptionalFloat(values: map<string, Value>, key: string): Result<Value, Error> {
    if key !in values then Success(PyNone)
    else match FloatOf(values[key])
         case Success(x) => Success(PyFloat(x))
         case Failure(e) => Failure(e)
  }

  /** Every retry value is normalised: an int count, a float or None, a string or None, the rest as merged. */
  ghost predicate IsNormalisedRetry(merged: map<string, Value>, result: map<string, Value>) {
    && result.Keys == merged.Keys + {NUM_RETRIES, BACKOFF_FACTOR, BACKOFF_DURATION}
    && result[NUM_RETRIES].PyInt?
    && IntOf(Lookup(merged, NUM_RETRIES, PyInt(0))) == Success(result[NUM_RETRIES].i)
    && (BACKOFF_FACTOR in merged ==>
          result[BACKOFF_FACTOR].PyFloat? && FloatOf(merged[BACKOFF_FACTOR]) == Success(result[BACKOFF_FACTOR].r))
    && (BACKOFF_FACTOR !in merged ==> result[BACKOFF_FACTOR] == PyNone)
    && (BACKOFF_DURATION in merged ==> result[BACKOFF_DURATION] == PyStr(StrOf(merged[BACKOFF_DURATION])))
    && (BACKOFF_DURATION !in merged ==> result[BACKOFF_DURATION] == PyNone)
    && (forall k :: k in merged && k != NUM_RETRIES && k != BACKOFF_FACTOR && k != BACKOFF_DURATION ==>
          result[k] == merged[k])
  }

  // ---------------------------------------------------------------------------
  // The views

  /** `VolumeConfig`: the optional shared data volume. */
  datatype VolumeConfig = VolumeConfig(raw: Value) {
    function Prefix(): string {
      VOLUME_PREFIX
    }

    function Storageclass(): Result<Value, Error> {
      GetOrDefault(raw, "storageclass", PyNone)
    }

    function Size(): Result<Value, Error> {
      GetOrDefault(raw, "size", PyStr("1Gi"))
    }

    function AccessModes(): Result<Value, Error> {
      GetOrDefault(raw, "access_modes", PyList([PyStr("ReadWriteOnce")]))
    }

    function SkipInit(): Result<Value, Error> {
      GetOrDefault(raw, "skip_init", PyBool(false))
    }

    function Keep(): Result<Value, Error> {
      GetOrDefault(raw, "keep", PyBool(false))
    }

    function Owner(): Result<Value, Error> {
      GetOrDefault(raw, "owner", PyInt(0))
    }
  }

  /** `NodeResources`: resource reservations per node, resolved against `__default__`. */
  datatype NodeResources = NodeResources(raw: Value) {
    function GetFor(nodeName: string): Result<map<string, Value>, Error> {
      ResolvePolicy(raw, nodeName)
    }

    /** Whether any resource is configured for the node. */
    function IsSetFor(nodeName: string): (r: Result<bool, Error>)
      ensures r.Success? <==> GetFor(nodeName).Success?
      ensures GetFor(nodeName).Failure? ==> r == Failure(GetFor(nodeName).error)
      ensures r.Success? ==>
        (r.value <==> EntryOf(raw.entries, DEFAULT_ENTRY).entries != map[]
                      || EntryOf(raw.entries, nodeName).entries != map[])
    {
      var values :- GetFor(nodeName);
      var defaults := EntryOf(raw.entries, DEFAULT_ENTRY).entries;
      var specific := EntryOf(raw.entries, nodeName).entries;
      assert values != map[] <==> defaults != map[] || specific != map[] by {
        if defaults != map[] {
          var k :| k in defaults;
          assert k in values;
        }
        if specific != map[] {
          var k :| k in specific;
          assert k in values;
        }
      }
      Success(values != map[])
    }
  }

  /** `RetryPolicy`: retry settings per node, resolved against `__default__` and normalised. */
  datatype RetryPolicy = RetryPolicy(raw: Value) {
    function GetFor(nodeName: string): (r: Result<map<string, Value>, Error>)
      ensures ResolvePolicy(raw, nodeName).Failure? ==> r == ResolvePolicy(raw, nodeName)
      ensures ResolvePolicy(raw, nodeName).Success? ==>
        var merged := ResolvePolicy(raw, nodeName).value;
        && (merged == map[] ==> r == Success(map[]))
        && (merged != map[] ==>
              (r.Success? <==>
                 IntOf(Lookup(merged, NUM_RETRIES, PyInt(0))).Success?
                 && OptionalFloat(merged, BACKOFF_FACTOR).Success?))
        && (merged != map[] && r.Success? ==> IsNormalisedRetry(merged, r.value))
        && (merged != map[] && IntOf(Lookup(merged, NUM_RETRIES, PyInt(0))).Failure? ==>
              r == Failure(IntOf(Lookup(merged, NUM_RETRIES, PyInt(0))).error))
        && (merged != map[] && IntOf(Lookup(merged, NUM_RETRIES, PyInt(0))).Success?
            && OptionalFloat(merged, BACKOFF_FACTOR).Failure? ==>
              r == Failure(OptionalFloat(merged, BACKOFF_FACTOR).error))
    {
      var values :- ResolvePolicy(raw, nodeName);
      if values == map[] then
        Success(map[])
      else
        var retries :- IntOf(Lookup(values, NUM_RETRIES, PyInt(0)));
        var factor :- OptionalFloat(values, BACKOFF_FACTOR);
        var duration := if BACKOFF_DURATION in values then PyStr(StrOf(values[BACKOFF_DURATION])) else PyNone;
        Success(values[NUM_RETRIES := PyInt(retries)][BACKOFF_FACTOR := factor][BACKOFF_DURATION := duration])
    }

    /** Whether any retry setting is configured for the node. */
    function IsSetFor(nodeName: string): (r: Result<bool, Error>)
      ensures r.Success? <==> GetFor(nodeName).Success?
      ensures GetFor(nodeName).Failure? ==> r == Failure(GetFor(nodeName).error)
      ensures r.Success? ==> (r.value <==> ResolvePolicy(raw, nodeName).value != map[])
    {
      var values :- GetFor(nodeName);
      Success(values != map[])
    }
  }

  /** `RunConfig`: the `run_config` section. */
  datatype RunConfig = RunConfig(raw: Value) {
    function Prefix(): string {
      RUN_PREFIX
    }

    function Image(): Result<Value, Error> {
      GetOrFail(raw, Prefix(), "image")
    }

    function ImagePullPolicy(): Result<Value, Error> {
      GetOrDefault(raw, "image_pull_policy", PyStr("IfNotPresent"))
    }

    function Root(): Result<Value, Error> {
      GetOrFail(raw, Prefix(), "root")
    }

    function ExperimentName(): Result<Value, Error> {
      GetOrFail(raw, Prefix(), "experiment_name")
    }

    function RunName(): Result<Value, Error> {
      GetOrFail(raw, Prefix(), "run_name")
    }

    /** The fallback `run_name` is looked up first, so it is required even when unused. */
    function ScheduledRunName(): Result<Value, Error> {
      var runName :- GetOrFail(raw, Prefix(), "run_name");
      GetOrDefault(raw, "scheduled_run_name", runName)
    }

    function Description(): Result<Value, Error> {
      GetOrDefault(raw, "description", PyNone)
    }

    function Resources(): Result<NodeResources, Error> {
      var section :- GetOrDefault(raw, "resources", PyDict(map[]));
      Success(NodeResources(section))
    }

    function RetryPolicySection(): Result<RetryPolicy, Error> {
      var section :- GetOrDefault(raw, "retry_policy", PyDict(map[]));
      Success(RetryPolicy(section))
    }

    function Volume(): Result<Option<VolumeConfig>, Error> {
      if !raw.PyDict? then
        Failure(NoAttribute(raw, "keys"))
      else if "volume" in raw.entries then
        Success(Some(VolumeConfig(raw.entries["volume"])))
      else
        Success(None)
    }

    function WaitForCompletion(): Result<bool, Error> {
      var v :- GetOrDefault(raw, "wait_for_completion", PyBool(false));
      Success(Truth(v))
    }

    function StoreKedroOutputsAsKfpArtifacts(): Result<bool, Error> {
      var v :- GetOrDefault(raw, "store_kedro_outputs_as_kfp_artifacts", PyBool(true));
      Success(Truth(v))
    }

    /** `str(...)` of the setting, so an absent setting reads as the string "None". */
    function MaxCacheStaleness(): Result<string, Error> {
      var v :- GetOrDefault(raw, "max_cache_staleness", PyNone);
      Success(StrOf(v))
    }

    function Ttl(): Result<int, Error> {
      var v :- GetOrDefault(raw, "ttl", PyInt(DEFAULT_TTL));
      IntOf(v)
    }

    function OnExitPipeline(): Result<Value, Error> {
      GetOrDefault(raw, "on_exit_pipeline", PyNone)
    }

    /** The strategy, which is always one of `none` and `full` when it is returned. */
    function NodeMergeStrategy(): (r: Result<string, Error>)
      ensures r.Success? ==> r.value == "none" || r.value == "full"
      ensures r.Success? <==>
        raw.PyDict? && StrOf(Lookup(raw.entries, "node_merge_strategy", PyStr("none"))) in ["none", "full"]
    {
      var v :- GetOrDefault(raw, "node_merge_strategy", PyStr("none"));
      var strategy := StrOf(v);
      if strategy !in ["none", "full"] then Failure(InvalidStrategy(Prefix(), strategy)) else Success(strategy)
    }
  }

  /** `PluginConfig`: the whole file. */
  datatype PluginConfig = PluginConfig(raw: Value) {
    function Prefix(): string {
      PLUGIN_PREFIX
    }

    function Host(): Result<Value, Error> {
      GetOrFail(raw, Prefix(), "host")
    }

    function RunConfigSection(): Result<RunConfig, Error> {
      var section :- GetOrFail(raw, Prefix(), "run_config");
      Success(RunConfig(section))
    }

    function ProjectId(): Result<Value, Error> {
      GetOrFail(raw, Prefix(), "project_id")
    }

    function Region(): Result<Value, Error> {
      GetOrFail(raw, Prefix(), "region")
    }
  }

  // ---------------------------------------------------------------------------
  // Properties of the views

  /** Each required key is returned when present and otherwise reported under its dotted name. */
  lemma RequiredKeys(m: map<string, Value>)
    ensures "host" in m ==> PluginConfig(PyDict(m)).Host() == Success(m["host"])
    ensures "host" !in m ==> PluginConfig(PyDict(m)).Host() == Failure(MissingConfig("host"))
    ensures "run_config" in m ==> PluginConfig(PyDict(m)).RunConfigSection() == Success(RunConfig(m["run_config"]))
    ensures "run_config" !in m ==> PluginConfig(PyDict(m)).RunConfigSection() == Failure(MissingConfig("run_config"))
    ensures "project_id" !in m ==> PluginConfig(PyDict(m)).ProjectId() == Failure(MissingConfig("project_id"))
    ensures "region" !in m ==> PluginConfig(PyDict(m)).Region() == Failure(MissingConfig("region"))
    ensures "image" in m ==> RunConfig(PyDict(m)).Image() == Success(m["image"])
    ensures "image" !in m ==> RunConfig(PyDict(m)).Image() == Failure(MissingConfig("run_config.image"))
    ensures "root" !in m ==> RunConfig(PyDict(m)).Root() == Failure(MissingConfig("run_config.root"))
    ensures "experiment_name" !in m ==>
      RunConfig(PyDict(m)).ExperimentName() == Failure(MissingConfig("run_config.experiment_name"))
    ensures "run_name" !in m ==> RunConfig(PyDict(m)).RunName() == Failure(MissingConfig("run_config.run_name"))
  {
    assert PLUGIN_PREFIX + "host" == "host" && PLUGIN_PREFIX + "run_config" == "run_config";
    assert PLUGIN_PREFIX + "project_id" == "project_id" && PLUGIN_PREFIX + "region" == "region";
    assert RUN_PREFIX + "image" == "run_config.image" && RUN_PREFIX + "root" == "run_config.root";
    assert RUN_PREFIX + "experiment_name" == "run_config.experiment_name";
    assert RUN_PREFIX + "run_name" == "run_config.run_name";
  }

  /** Every optional `run_config` key that is absent reads as its documented default. */
  lemma RunConfigDefaults(m: map<string, Value>)
    ensures "image_pull_policy" !in m ==> RunConfig(PyDict(m)).ImagePullPolicy() == Success(PyStr("IfNotPresent"))
    ensures "description" !in m ==> RunConfig(PyDict(m)).Description() == Success(PyNone)
    ensures "on_exit_pipeline" !in m ==> RunConfig(PyDict(m)).OnExitPipeline() == Success(PyNone)
    ensures "volume" !in m ==> RunConfig(PyDict(m)).Volume() == Success(None)
    ensures "ttl" !in m ==> RunConfig(PyDict(m)).Ttl() == Success(604800)
    ensures "wait_for_completion" !in m ==> RunConfig(PyDict(m)).WaitForCompletion() == Success(false)
    ensures "store_kedro_outputs_as_kfp_artifacts" !in m ==>
      RunConfig(PyDict(m)).StoreKedroOutputsAsKfpArtifacts() == Success(true)
    ensures "max_cache_staleness" !in m ==> RunConfig(PyDict(m)).MaxCacheStaleness() == Success("None")
    ensures "node_merge_strategy" !in m ==> RunConfig(PyDict(m)).NodeMergeStrategy() == Success("none")
    ensures "resources" !in m ==> RunConfig(PyDict(m)).Resources() == Success(NodeResources(PyDict(map[])))
    ensures "retry_policy" !in m ==> RunConfig(PyDict(m)).RetryPolicySection() == Success(RetryPolicy(PyDict(map[])))
  {
  }

  /** Every `volume` key that is absent reads as its documented default. */
  lemma VolumeDefaults(m: map<string, Value>)
    ensures "storageclass" !in m ==> VolumeConfig(PyDict(m)).Storageclass() == Success(PyNone)
    ensures "size" !in m ==> VolumeConfig(PyDict(m)).Size() == Success(PyStr("1Gi"))
    ensures "access_modes" !in m ==> VolumeConfig(PyDict(m)).AccessModes() == Success(PyList([PyStr("ReadWriteOnce")]))
    ensures "skip_init" !in m ==> VolumeConfig(PyDict(m)).SkipInit() == Success(PyBool(false))
    ensures "keep" !in m ==> VolumeConfig(PyDict(m)).Keep() == Success(PyBool(false))
    ensures "owner" !in m ==> VolumeConfig(PyDict(m)).Owner() == Success(PyInt(0))
  {
  }

  /** A present optional key is returned as configured, converted where the property converts. */
  lemma OptionalKeysPresent(m: map<string, Value>)
    ensures "image_pull_policy" in m ==> RunConfig(PyDict(m)).ImagePullPolicy() == Success(m["image_pull_policy"])
    ensures "volume" in m ==> RunConfig(PyDict(m)).Volume() == Success(Some(VolumeConfig(m["volume"])))
    ensures "ttl" in m ==> RunConfig(PyDict(m)).Ttl() == IntOf(m["ttl"])
    ensures "wait_for_completion" in m ==> RunConfig(PyDict(m)).WaitForCompletion() == Success(Truth(m["wait_for_completion"]))
    ensures "description" in m ==> RunConfig(PyDict(m)).Description() == Success(m["description"])
    ensures "on_exit_pipeline" in m ==> RunConfig(PyDict(m)).OnExitPipeline() == Success(m["on_exit_pipeline"])
    ensures "store_kedro_outputs_as_kfp_artifacts" in m ==>
      RunConfig(PyDict(m)).StoreKedroOutputsAsKfpArtifacts() == Success(Truth(m["store_kedro_outputs_as_kfp_artifacts"]))
    ensures "max_cache_staleness" in m ==>
      RunConfig(PyDict(m)).MaxCacheStaleness() == Success(StrOf(m["max_cache_staleness"]))
    ensures "resources" in m ==> RunConfig(PyDict(m)).Resources() == Success(NodeResources(m["resources"]))
    ensures "retry_policy" in m ==> RunConfig(PyDict(m)).RetryPolicySection() == Success(RetryPolicy(m["retry_policy"]))
  {
  }

  /** A present `volume` key is returned as configured. */
  lemma VolumeKeysPresent(m: map<string, Value>)
    ensures "storageclass" in m ==> VolumeConfig(PyDict(m)).Storageclass() == Success(m["storageclass"])
    ensures "size" in m ==> VolumeConfig(PyDict(m)).Size() == Success(m["size"])
    ensures "access_modes" in m ==> VolumeConfig(PyDict(m)).AccessModes() == Success(m["access_modes"])
    ensures "skip_init" in m ==> VolumeConfig(PyDict(m)).SkipInit() == Success(m["skip_init"])
    ensures "keep" in m ==> VolumeConfig(PyDict(m)).Keep() == Success(m["keep"])
    ensures "owner" in m ==> VolumeConfig(PyDict(m)).Owner() == Success(m["owner"])
  {
  }

  /** Reading any property of a section that is not a mapping raises AttributeError. */
  lemma NonMappingSectionRaises(raw: Value, nodeName: string)
    requires !raw.PyDict?
    ensures RunConfig(raw).Image().Failure? && RunConfig(raw).Image().error.AttributeError?
    ensures RunConfig(raw).ImagePullPolicy().Failure? && RunConfig(raw).ImagePullPolicy().error.AttributeError?
    ensures NodeResources(raw).GetFor(nodeName) == Failure(NoAttribute(raw, "get"))
    ensures RetryPolicy(raw).GetFor(nodeName) == Failure(NoAttribute(raw, "get"))
  {
  }

  /** The merge strategy is `none` by default, is returned when it is `none` or `full`, and is refused otherwise. */
  lemma NodeMergeStrategyValidated(m: map<string, Value>)
    ensures "node_merge_strategy" !in m ==> RunConfig(PyDict(m)).NodeMergeStrategy() == Success("none")
    ensures "node_merge_strategy" in m && m["node_merge_strategy"] in {PyStr("none"), PyStr("full")} ==>
      RunConfig(PyDict(m)).NodeMergeStrategy() == Success(m["node_merge_strategy"].s)
    ensures "node_merge_strategy" in m ==>
      (RunConfig(PyDict(m)).NodeMergeStrategy().Success? <==> m["node_merge_strategy"] in {PyStr("none"), PyStr("full")})
    ensures "node_merge_strategy" in m && StrOf(m["node_merge_strategy"]) !in ["none", "full"] ==>
      RunConfig(PyDict(m)).NodeMergeStrategy()
        == Failure(InvalidStrategy("run_config.", StrOf(m["node_merge_strategy"])))
  {
  }

  /** `scheduled_run_name` falls back on `run_name`, which it always requires. */
  lemma ScheduledRunNameFallsBack(m: map<string, Value>)
    ensures "run_name" !in m ==> RunConfig(PyDict(m)).ScheduledRunName() == Failure(MissingConfig("run_config.run_name"))
    ensures "run_name" in m && "scheduled_run_name" in m ==>
      RunConfig(PyDict(m)).ScheduledRunName() == Success(m["scheduled_run_name"])
    ensures "run_name" in m && "scheduled_run_name" !in m ==>
      RunConfig(PyDict(m)).ScheduledRunName() == Success(m["run_name"])
  {
    assert RUN_PREFIX + "run_name" == "run_config.run_name";
  }

  // ---------------------------------------------------------------------------
  // Properties of the policy resolver

  /** The override merge has exactly one result. */
  lemma OverrideIsUnique(defaults: map<string, Value>, specific: map<string, Value>, m1: map<string, Value>, m2: map<string, Value>)
    requires IsOverride(defaults, specific, m1) && IsOverride(defaults, specific, m2)
    ensures m1 == m2
  {
  }

  /** Overriding a merged policy with the same override again changes nothing. */
  lemma OverrideIsIdempotent(defaults: map<string, Value>, specific: map<string, Value>, merged: map<string, Value>)
    requires IsOverride(defaults, specific, merged)
    ensures IsOverride(merged, specific, merged)
  {
  }

  /** A name without its own entry resolves to exactly the `__default__` entry. */
  lemma UnlistedNameResolvesToDefault(raw: Value, nodeName: string)
    requires raw.PyDict? && nodeName !in raw.entries && EntryOf(raw.entries, DEFAULT_ENTRY).PyDict?
    ensures NodeResources(raw).GetFor(nodeName) == Success(EntryOf(raw.entries, DEFAULT_ENTRY).entries)
  {
    var defaults := EntryOf(raw.entries, DEFAULT_ENTRY).entries;
    assert defaults + map[] == defaults;
  }

  /** With neither a `__default__` nor an own entry, no resource and no retry policy is set. */
  lemma NoEntriesMeansUnset(raw: Value, nodeName: string)
    requires raw.PyDict? && DEFAULT_ENTRY !in raw.entries && nodeName !in raw.entries
    ensures NodeResources(raw).IsSetFor(nodeName) == Success(false)
    ensures RetryPolicy(raw).IsSetFor(nodeName) == Success(false)
  {
  }

  /** A non-empty `__default__` sets resources for every name (and a retry policy, unless a value fails to convert). */
  lemma DefaultSetsEveryName(raw: Value, nodeName: string)
    requires raw.PyDict? && EntryOf(raw.entries, DEFAULT_ENTRY).PyDict? && EntryOf(raw.entries, nodeName).PyDict?
    requires EntryOf(raw.entries, DEFAULT_ENTRY).entries != map[]
    ensures NodeResources(raw).IsSetFor(nodeName) == Success(true)
    ensures RetryPolicy(raw).IsSetFor(nodeName) != Success(false)
  {
  }

  /** A retry policy is empty exactly when the merged entries are. */
  lemma RetryEmptyIffUnset(raw: Value, nodeName: string)
    requires ResolvePolicy(raw, nodeName).Success?
    requires RetryPolicy(raw).GetFor(nodeName).Success?
    ensures RetryPolicy(raw).GetFor(nodeName).value == map[] <==> ResolvePolicy(raw, nodeName).value == map[]
  {
    var merged := ResolvePolicy(raw, nodeName).value;
    if merged != map[] {
      assert NUM_RETRIES in RetryPolicy(raw).GetFor(nodeName).value;
    }
  }

  /** A non-empty retry policy carries an int count, a float or None factor and a string or None duration. */
  lemma RetryValueKinds(raw: Value, nodeName: string)
    requires RetryPolicy(raw).GetFor(nodeName).Success?
    requires RetryPolicy(raw).GetFor(nodeName).value != map[]
    ensures var v := RetryPolicy(raw).GetFor(nodeName).value;
      && NUM_RETRIES in v && v[NUM_RETRIES].PyInt?
      && BACKOFF_FACTOR in v && (v[BACKOFF_FACTOR].PyFloat? || v[BACKOFF_FACTOR] == PyNone)
      && BACKOFF_DURATION in v && (v[BACKOFF_DURATION].PyStr? || v[BACKOFF_DURATION] == PyNone)
  {
  }

  /** A non-empty policy without `num_retries` gets a count of 0. */
  lemma MissingRetryCountIsZero(raw: Value, nodeName: string)
    requires RetryPolicy(raw).GetFor(nodeName).Success?
    requires RetryPolicy(raw).GetFor(nodeName).value != map[]
    requires NUM_RETRIES !in ResolvePolicy(raw, nodeName).value
    ensures RetryPolicy(raw).GetFor(nodeName).value[NUM_RETRIES] == PyInt(0)
  {
  }

  // ---------------------------------------------------------------------------
  // Worked examples

  /** A `__default__` resource entry merged under a node's own entry, and used alone for other nodes. */
  lemma ResourcesDefaultAndNodeSpecific()
    ensures var r := NodeResources(PyDict(map[
              DEFAULT_ENTRY := PyDict(map["cpu" := PyStr("200m"), "memory" := PyStr("64Mi")]),
              "node2" := PyDict(map["cpu" := PyStr("100m")])]));
      && r.GetFor("node2") == Success(map["cpu" := PyStr("100m"), "memory" := PyStr("64Mi")])
      && r.GetFor("node3") == Success(map["cpu" := PyStr("200m"), "memory" := PyStr("64Mi")])
      && r.IsSetFor("node3") == Success(true)
  {
    var defaults := map["cpu" := PyStr("200m"), "memory" := PyStr("64Mi")];
    assert defaults + map["cpu" := PyStr("100m")] == map["cpu" := PyStr("100m"), "memory" := PyStr("64Mi")];
    assert defaults + map[] == defaults;
    assert "cpu" in defaults;
  }

  lemma HundredParses()
    ensures IntOf(PyStr("100")) == Success(100)
  {
    assert "100"[..2] == "10" && "10"[..1] == "1" && "1"[..0] == "";
    assert DigitsValue("1") == 1;
    assert DigitsValue("10") == 10;
    assert DigitsValue("100") == 100;
    assert SplitSign("100") == (false, "100");
  }

  /** The retry policy of a non-empty merge whose values convert, written out. */
  lemma NormalisedRetry(raw: Value, nodeName: string)
    requires ResolvePolicy(raw, nodeName).Success? && ResolvePolicy(raw, nodeName).value != map[]
    requires IntOf(Lookup(ResolvePolicy(raw, nodeName).value, NUM_RETRIES, PyInt(0))).Success?
    requires OptionalFloat(ResolvePolicy(raw, nodeName).value, BACKOFF_FACTOR).Success?
    ensures var merged := ResolvePolicy(raw, nodeName).value;
      RetryPolicy(raw).GetFor(nodeName) == Success(merged
        [NUM_RETRIES := PyInt(IntOf(Lookup(merged, NUM_RETRIES, PyInt(0))).value)]
        [BACKOFF_FACTOR := OptionalFloat(merged, BACKOFF_FACTOR).value]
        [BACKOFF_DURATION := if BACKOFF_DURATION in merged then PyStr(StrOf(merged[BACKOFF_DURATION])) else PyNone])
  {
  }

  /** A string retry count is converted to an int and an int factor to a float. */
  lemma RetryPolicyNodeSpecific()
    ensures RetryPolicy(PyDict(map[
              "node3" := PyDict(map[NUM_RETRIES := PyStr("100"), BACKOFF_DURATION := PyStr("5m"),
                                    BACKOFF_FACTOR := PyInt(1)])])).GetFor("node3")
      == Success(map[NUM_RETRIES := PyInt(100), BACKOFF_DURATION := PyStr("5m"), BACKOFF_FACTOR := PyFloat(1.0)])
  {
    var specific := map[NUM_RETRIES := PyStr("100"), BACKOFF_DURATION := PyStr("5m"), BACKOFF_FACTOR := PyInt(1)];
    var raw := PyDict(map["node3" := PyDict(specific)]);
    assert map[] + specific == specific;
    assert ResolvePolicy(raw, "node3") == Success(specific);
    HundredParses();
    assert Lookup(specific, NUM_RETRIES, PyInt(0)) == PyStr("100");
    assert OptionalFloat(specific, BACKOFF_FACTOR) == Success(PyFloat(1.0));
    NormalisedRetry(raw, "node3");
    assert specific[NUM_RETRIES := PyInt(100)][BACKOFF_FACTOR := PyFloat(1.0)][BACKOFF_DURATION := PyStr("5m")]
        == map[NUM_RETRIES := PyInt(100), BACKOFF_DURATION := PyStr("5m"), BACKOFF_FACTOR := PyFloat(1.0)];
  }
}
