/**
 * The decision logic of `KubeflowClient`: which generator a configuration
 * selects, the bounded name a pipeline is uploaded under, the choice between a
 * new pipeline and a new version, the read-through creation of experiments,
 * and the "delete the same-named recurring runs, then create one" rule of
 * scheduling. The Kubeflow service is the abstract `KfpService.RemoteService`.
 */
module KfpClient {
  import opened Wrappers
  import opened PyValue
  import Configuration
  import opened KfpService

  /** How long `run_once` waits for the run to finish: one day, in seconds. */
  const WAIT_TIMEOUT: nat := 24 * 60 * 60

  /** The longest name a pipeline is uploaded under. */
  const MAX_PIPELINE_NAME: nat := 100

  /** How the service's "no such experiment" ValueError begins. */
  const NOT_FOUND_PREFIX := "No experiment is found"

  // ---------------------------------------------------------------------------
  // Generator selection

  function InvalidStrategyError(strategy: string): Error {
    Exception("Invalid `node_merge_strategy`: " + strategy)
  }

  /** `none` compiles one pod per node, `full` one pod for the whole pipeline; anything else raises. */
  function SelectGenerator(strategy: string): (r: Result<Generator, Error>)
    ensures r == Success(PodPerNode) <==> strategy == "none"
    ensures r == Success(OnePod) <==> strategy == "full"
    ensures r.Failure? ==> r.error == InvalidStrategyError(strategy)
  {
    if strategy == "none" then Success(PodPerNode)
    else if strategy == "full" then Success(OnePod)
    else Failure(InvalidStrategyError(strategy))
  }

  /** What the client keeps from its configuration. */
  datatype ClientSettings = ClientSettings(
    host: Value, projectName: string, pipelineDescription: Value, generator: Generator)

  /**
   * The configuration reads of `KubeflowClient.__init__`, in order: the host,
   * the run description, then the merge strategy that picks the generator.
   */
  function Setup(config: Configuration.PluginConfig, projectName: string): (r: Result<ClientSettings, Error>)
    ensures r.Success? <==>
      && config.Host().Success?
      && config.RunConfigSection().Success?
      && config.RunConfigSection().value.Description().Success?
      && config.RunConfigSection().value.NodeMergeStrategy().Success?
    ensures r.Success? ==>
      && r.value.host == config.Host().value
      && r.value.projectName == projectName
      && r.value.pipelineDescription == config.RunConfigSection().value.Description().value
      && SelectGenerator(config.RunConfigSection().value.NodeMergeStrategy().value) == Success(r.value.generator)
    ensures r.Failure? ==>
      r.error == (if config.Host().Failure? then config.Host().error
                  else if config.RunConfigSection().Failure? then config.RunConfigSection().error
                  else if config.RunConfigSection().value.Description().Failure? then config.RunConfigSection().value.Description().error
                  else config.RunConfigSection().value.NodeMergeStrategy().error)
  {
    var host :- config.Host();
    var runConfig :- config.RunConfigSection();
    var description :- runConfig.Description();
    var strategy :- runConfig.NodeMergeStrategy();
    match SelectGenerator(strategy)
    case Success(generator) => Success(ClientSettings(host, projectName, description, generator))
    case Failure(e) => Failure(e)
  }

  /** Every strategy the configuration accepts selects a generator, so the client's own `raise` is unreachable. */
  lemma ValidatedStrategySelects(config: Configuration.PluginConfig, projectName: string)
    ensures Setup(config, projectName).Failure? ==> !Setup(config, projectName).error.Exception?
  {
    var r := Setup(config, projectName);
    if config.Host().Success? && config.RunConfigSection().Success? {
      var runConfig := config.RunConfigSection().value;
      if runConfig.Description().Success? && runConfig.NodeMergeStrategy().Failure? {
        assert r.error == runConfig.NodeMergeStrategy().error;
      }
    }
  }

  // ---------------------------------------------------------------------------
  // Pipeline names

  /** The pipeline's name before truncation. */
  function FullName(projectName: string, pipelineName: string, env: string): string {
    "[" + projectName + "] " + pipelineName + " (env: " + env + ")"
  }

  /** Python's `s[:n]`. */
  function Truncated(s: string, n: nat): (r: string)
    ensures |r| == if |s| <= n then |s| else n
    ensures r <= s
  {
    if |s| <= n then s else s[..n]
  }

  /** `get_full_pipeline_name`: the full name, cut to at most 100 characters. */
  function FullPipelineName(projectName: string, pipelineName: string, env: string): (r: string)
    ensures |r| <= MAX_PIPELINE_NAME
    ensures |r| == if |FullName(projectName, pipelineName, env)| <= MAX_PIPELINE_NAME
                   then |FullName(projectName, pipelineName, env)| else MAX_PIPELINE_NAME
    ensures r <= FullName(projectName, pipelineName, env)
    ensures r == FullName(projectName, pipelineName, env) <==> |FullName(projectName, pipelineName, env)| <= MAX_PIPELINE_NAME
  {
    Truncated(FullName(projectName, pipelineName, env), MAX_PIPELINE_NAME)
  }

  /** With a project name of 99 characters or more, every pipeline and environment gets the same name. */
  lemma LongProjectNameHidesPipeline(projectName: string, pipeline1: string, env1: string, pipeline2: string, env2: string)
    requires |projectName| >= MAX_PIPELINE_NAME - 1
    ensures FullPipelineName(projectName, pipeline1, env1) == FullPipelineName(projectName, pipeline2, env2)
  {
    var head := "[" + projectName;
    forall pipeline, env ensures FullPipelineName(projectName, pipeline, env) == head[..MAX_PIPELINE_NAME] {
      var full := FullName(projectName, pipeline, env);
      assert full == head + ("] " + pipeline + " (env: " + env + ")");
      assert full[..MAX_PIPELINE_NAME] == head[..MAX_PIPELINE_NAME];
    }
  }

  // ---------------------------------------------------------------------------
  // Experiments

  /** `str(e).startswith("No experiment is found")` for a ValueError `e`. */
  predicate IsNotFound(e: Error) {
    e.ValueError? && NOT_FOUND_PREFIX <= Message(e)
  }

  /** The service's answer for a missing experiment is recognised as such. */
  lemma NoExperimentFoundIsNotFound(name: string)
    ensures IsNotFound(NoExperimentFound(name))
  {
    var message := "No experiment is found with name " + name + ".";
    assert message == NOT_FOUND_PREFIX + (" with name " + name + ".");
  }

  /** An experiment appended after a lookup found none is the one the next lookup finds. */
  lemma {:induction false} CreatedExperimentIsFound(experiments: seq<Experiment>, e: Experiment)
    requires FirstExperiment(experiments, e.name, e.namespace).None?
    ensures FirstExperiment(experiments + [e], e.name, e.namespace) == Some(e)
  {
    if experiments != [] {
      assert (experiments + [e])[1..] == experiments[1..] + [e];
      CreatedExperimentIsFound(experiments[1..], e);
    }
  }

  // ---------------------------------------------------------------------------
  // Recurring runs

  /** A job of this experiment carrying this name. */
  predicate Matches(job: Job, experimentId: nat, name: string) {
    job.experimentId == experimentId && job.name == name
  }

  /** The jobs `_disable_runs` deletes. */
  function Matching(jobs: seq<Job>, experimentId: nat, name: string): (r: seq<Job>)
    ensures forall j :: j in r <==> j in jobs && Matches(j, experimentId, name)
  {
    if jobs == [] then []
    else if Matches(jobs[0], experimentId, name) then [jobs[0]] + Matching(jobs[1..], experimentId, name)
    else Matching(jobs[1..], experimentId, name)
  }

  /** The jobs `_disable_runs` leaves: every job but the matching ones, in order. */
  function RemoveMatching(jobs: seq<Job>, experimentId: nat, name: string): (r: seq<Job>)
    ensures forall j :: j in r <==> j in jobs && !Matches(j, experimentId, name)
  {
    if jobs == [] then []
    else if Matches(jobs[0], experimentId, name) then RemoveMatching(jobs[1..], experimentId, name)
    else [jobs[0]] + RemoveMatching(jobs[1..], experimentId, name)
  }

  /** `[job for job in jobs if job.name == name]`. */
  function Named(jobs: seq<Job>, name: string): (r: seq<Job>)
    ensures forall j :: j in r <==> j in jobs && j.name == name
  {
    if jobs == [] then []
    else if jobs[0].name == name then [jobs[0]] + Named(jobs[1..], name)
    else Named(jobs[1..], name)
  }

  function Ids(jobs: seq<Job>): (r: seq<nat>)
    ensures |r| == |jobs| && forall i :: 0 <= i < |jobs| ==> r[i] == jobs[i].id
  {
    seq(|jobs|, i requires 0 <= i < |jobs| => jobs[i].id)
  }

  function IdSet(jobs: seq<Job>): set<nat> {
    set j | j in jobs :: j.id
  }

  /** Filtering the listed jobs by name keeps exactly the matching jobs, in order. */
  lemma {:induction false} NamedInExperiment(jobs: seq<Job>, experimentId: nat, name: string)
    ensures Named(InExperiment(jobs, experimentId), name) == Matching(jobs, experimentId, name)
  {
    if jobs != [] {
      NamedInExperiment(jobs[1..], experimentId, name);
      if jobs[0].experimentId == experimentId {
        assert ([jobs[0]] + InExperiment(jobs[1..], experimentId))[1..] == InExperiment(jobs[1..], experimentId);
      }
    }
  }

  lemma {:induction false} NoIdsRemoveNothing(jobs: seq<Job>)
    ensures WithoutIds(jobs, {}) == jobs
  {
    if jobs != [] {
      NoIdsRemoveNothing(jobs[1..]);
    }
  }

  /** Extending a prefix of `jobs` by one job extends its ids and id set by that job's id. */
  lemma PrefixStep(jobs: seq<Job>, i: nat)
    requires i < |jobs|
    ensures Ids(jobs[..i + 1]) == Ids(jobs[..i]) + [jobs[i].id]
    ensures IdSet(jobs[..i + 1]) == IdSet(jobs[..i]) + {jobs[i].id}
  {
    assert jobs[..i + 1] == jobs[..i] + [jobs[i]];
  }

  /** Deleting one more id is filtering by the larger id set. */
  lemma {:induction false} WithoutIdsStep(jobs: seq<Job>, ids: set<nat>, id: nat)
    ensures WithoutIds(WithoutIds(jobs, ids), {id}) == WithoutIds(jobs, ids + {id})
  {
    if jobs != [] {
      WithoutIdsStep(jobs[1..], ids, id);
      if jobs[0].id !in ids {
        assert ([jobs[0]] + WithoutIds(jobs[1..], ids))[1..] == WithoutIds(jobs[1..], ids);
      }
    }
  }

  /** Filtering by a set of ids that picks out exactly the matching jobs removes exactly those. */
  lemma {:induction false} WithoutMatchingIds(jobs: seq<Job>, ids: set<nat>, experimentId: nat, name: string)
    requires forall j :: j in jobs ==> (j.id in ids <==> Matches(j, experimentId, name))
    ensures WithoutIds(jobs, ids) == RemoveMatching(jobs, experimentId, name)
  {
    if jobs != [] {
      WithoutMatchingIds(jobs[1..], ids, experimentId, name);
    }
  }

  /** Under distinct ids, a job's id is among the matching jobs' ids exactly when the job matches. */
  lemma MatchingIdsPickMatching(jobs: seq<Job>, experimentId: nat, name: string)
    requires DistinctIds(jobs)
    ensures forall j :: j in jobs ==> (j.id in IdSet(Matching(jobs, experimentId, name)) <==> Matches(j, experimentId, name))
  {
    var matching := Matching(jobs, experimentId, name);
    forall j | j in jobs && j.id in IdSet(matching)
      ensures Matches(j, experimentId, name)
    {
      var m :| m in matching && m.id == j.id;
      DistinctIdsIdentify(jobs, j, m);
    }
  }

  /** Under distinct ids, deleting the ids of the matching jobs removes exactly the matching jobs. */
  lemma DeletingMatchingIds(jobs: seq<Job>, experimentId: nat, name: string)
    requires DistinctIds(jobs)
    ensures WithoutIds(jobs, IdSet(Matching(jobs, experimentId, name))) == RemoveMatching(jobs, experimentId, name)
  {
    MatchingIdsPickMatching(jobs, experimentId, name);
    WithoutMatchingIds(jobs, IdSet(Matching(jobs, experimentId, name)), experimentId, name);
  }

  /** When the experiment lists no job, nothing matches and nothing is removed. */
  lemma {:induction false} UnlistedExperimentRemovesNothing(jobs: seq<Job>, experimentId: nat, name: string)
    requires forall j :: j in jobs ==> j.experimentId != experimentId
    ensures Matching(jobs, experimentId, name) == []
    ensures RemoveMatching(jobs, experimentId, name) == jobs
  {
    if jobs != [] {
      UnlistedExperimentRemovesNothing(jobs[1..], experimentId, name);
    }
  }

  /** After the same-named jobs are removed and one job is added, it is the only one with that name. */
  lemma {:induction false} OnlyNewJobMatches(jobs: seq<Job>, job: Job, experimentId: nat, name: string)
    requires Matches(job, experimentId, name)
    ensures Matching(RemoveMatching(jobs, experimentId, name) + [job], experimentId, name) == [job]
  {
    if jobs == [] {
      assert [job][1..] == [];
    } else {
      var rest := RemoveMatching(jobs[1..], experimentId, name);
      OnlyNewJobMatches(jobs[1..], job, experimentId, name);
      if !Matches(jobs[0], experimentId, name) {
        assert ([jobs[0]] + rest + [job])[1..] == rest + [job];
      }
    }
  }

  // ---------------------------------------------------------------------------
  // The client

  class KubeflowClient {
    const host: Value
    const projectName: string
    const pipelineDescription: Value
    const generator: Generator
    const client: RemoteService

    /** The client over `service`, with the settings `Setup` read from the configuration. */
    constructor (settings: ClientSettings, service: RemoteService)
      ensures host == settings.host && projectName == settings.projectName
      ensures pipelineDescription == settings.pipelineDescription && generator == settings.generator
      ensures client == service
    {
      host := settings.host;
      projectName := settings.projectName;
      pipelineDescription := settings.pipelineDescription;
      generator := settings.generator;
      client := service;
    }

    /** `generator.generate_pipeline(pipelineName, image, imagePullPolicy)`. */
    function GeneratePipeline(pipelineName: string, image: string, imagePullPolicy: string): GeneratedPipeline {
      GeneratedPipeline(generator, pipelineName, image, imagePullPolicy)
    }

    /** `run_once`: start one run, and wait for it (one day at most) exactly when asked to. */
    method RunOnce(
      pipeline: string, image: string, experimentName: string, experimentNamespace: Option<string>,
      runName: string, wait: bool, imagePullPolicy: string, parameters: map<string, Value>)
      returns (run: Run)
      requires client.Valid()
      modifies client`runs, client`nextId, client`waits
      ensures client.Valid()
      ensures run == Run(old(client.nextId), runName, experimentName, experimentNamespace,
                         GeneratePipeline(pipeline, image, imagePullPolicy), parameters)
      ensures client.runs == old(client.runs) + [run] && client.nextId == old(client.nextId) + 1
      ensures forall x :: x in old(client.runs) ==> x.id != run.id
      ensures client.waits == old(client.waits) + (if wait then [(run.id, WAIT_TIMEOUT)] else [])
    {
      run := client.CreateRunFromPipelineFunc(
        GeneratePipeline(pipeline, image, imagePullPolicy), parameters, experimentName, experimentNamespace, runName);
      if wait {
        client.WaitForRunCompletion(run.id, WAIT_TIMEOUT);
      }
    }

    /**
     * `upload`: a pipeline already known under the full name gets a new
     * version; otherwise a new pipeline is created under that name. Either way
     * the name then resolves to a pipeline whose latest version is the package.
     */
    method Upload(pipelineName: string, image: string, imagePullPolicy: string, env: string)
      requires client.Valid()
      modifies client`pipelines, client`nextId
      ensures client.Valid()
      ensures forall p, v :: p in old(client.pipelines) && v in p.versions ==>
        v.id != old(client.nextId) && v.id != old(client.nextId) + 1
      ensures var fullName := FullPipelineName(projectName, pipelineName, env);
        var package := GeneratePipeline(pipelineName, image, imagePullPolicy);
        match old(PipelineNamed(client.pipelines, fullName))
        case Some(existing) =>
          && client.nextId == old(client.nextId) + 1
          && client.pipelines == AddVersion(old(client.pipelines), existing.id, PipelineVersion(old(client.nextId), package))
          && (forall i :: 0 <= i < |old(client.pipelines)| && old(client.pipelines)[i] != existing ==>
                client.pipelines[i] == old(client.pipelines)[i])
          && PipelineNamed(client.pipelines, fullName)
             == Some(existing.(versions := existing.versions + [PipelineVersion(old(client.nextId), package)]))
        case None =>
          && client.nextId == old(client.nextId) + 2
          && client.pipelines == old(client.pipelines)
             + [Pipeline(old(client.nextId), fullName, pipelineDescription, [PipelineVersion(old(client.nextId) + 1, package)])]
          && PipelineNamed(client.pipelines, fullName)
             == Some(Pipeline(old(client.nextId), fullName, pipelineDescription, [PipelineVersion(old(client.nextId) + 1, package)]))
    {
      var package := GeneratePipeline(pipelineName, image, imagePullPolicy);
      var fullName := FullPipelineName(projectName, pipelineName, env);
      if PipelineExists(fullName) {
        var pipelineId := client.PipelineIdOf(fullName).value;
        var existing := PipelineNamed(client.pipelines, fullName).value;
        var version := PipelineVersion(client.nextId, package);
        VersionAddedToNamed(client.pipelines, fullName, existing, version);
        OnlyNamedPipelineChanges(client.pipelines, existing, version);
        var versionId := client.UploadPipelineVersion(package, pipelineId);
      } else {
        NewPipelineIsNamed(client.pipelines, Pipeline(client.nextId, fullName, pipelineDescription, [PipelineVersion(client.nextId + 1, package)]));
        var pipelineId, versionId := client.UploadPipeline(package, fullName, pipelineDescription);
      }
    }

    /** `_pipeline_exists`: whether the service knows a pipeline by this name. */
    predicate PipelineExists(pipelineName: string): (r: bool)
      reads client
      ensures r <==> exists p :: p in client.pipelines && p.name == pipelineName
    {
      client.PipelineIdOf(pipelineName).Some?
    }

    /**
     * `_ensure_experiment_exists`: a found experiment is returned as is; a
     * "No experiment is found" ValueError leads to exactly one creation; any
     * other error is raised unchanged.
     */
    method EnsureExperimentExists(experimentName: string, experimentNamespace: Option<string>)
      returns (r: Result<nat, Error>)
      requires client.Valid()
      modifies client`experiments, client`nextId
      ensures client.Valid()
      ensures var lookup := old(client.ExperimentLookup(experimentName, experimentNamespace));
        && (lookup.Success? ==>
              r == Success(lookup.value.id) && client.experiments == old(client.experiments)
              && client.nextId == old(client.nextId))
        && (lookup.Failure? && IsNotFound(lookup.error) ==>
              r == Success(old(client.nextId))
              && client.experiments == old(client.experiments) + [Experiment(old(client.nextId), experimentName, experimentNamespace)]
              && client.nextId == old(client.nextId) + 1)
        && (lookup.Failure? && !IsNotFound(lookup.error) ==>
              r == Failure(lookup.error) && client.experiments == old(client.experiments)
              && client.nextId == old(client.nextId))
      ensures r.Success? && client.lookupFault.None? ==>
        client.ExperimentLookup(experimentName, experimentNamespace).Success?
        && client.ExperimentLookup(experimentName, experimentNamespace).value.id == r.value
    {
      var lookup := client.ExperimentLookup(experimentName, experimentNamespace);
      if lookup.Success? {
        r := Success(lookup.value.id);
      } else if !IsNotFound(lookup.error) {
        r := Failure(lookup.error);
      } else {
        ghost var before := client.experiments;
        var experiment := client.CreateExperiment(experimentName, experimentNamespace);
        if client.lookupFault.None? {
          CreatedExperimentIsFound(before, experiment);
        }
        r := Success(experiment.id);
      }
    }

    /**
     * `_disable_runs`: nothing is deleted when the experiment lists no job;
     * otherwise each job of the experiment with this name is deleted once, and
     * every other job remains.
     */
    method DisableRuns(experimentId: nat, runName: string)
      requires client.Valid()
      modifies client`jobs, client`deletedJobIds
      ensures client.Valid()
      ensures client.jobs == RemoveMatching(old(client.jobs), experimentId, runName)
      ensures client.deletedJobIds == old(client.deletedJobIds) + Ids(Matching(old(client.jobs), experimentId, runName))
    {
      var runs := client.RecurringRunsOf(experimentId);
      if runs.None? {
        UnlistedExperimentRemovesNothing(client.jobs, experimentId, runName);
        return;
      }
      ghost var original := client.jobs;
      var myRuns := Named(runs.value, runName);
      NamedInExperiment(original, experimentId, runName);
      DeleteJobs(myRuns);
      DeletingMatchingIds(original, experimentId, runName);
    }

    /** The loop of `_disable_runs`: `delete_job` for each of `myRuns`, in order. */
    method DeleteJobs(myRuns: seq<Job>)
      requires client.Valid()
      modifies client`jobs, client`deletedJobIds
      ensures client.Valid()
      ensures client.jobs == WithoutIds(old(client.jobs), IdSet(myRuns))
      ensures client.deletedJobIds == old(client.deletedJobIds) + Ids(myRuns)
    {
      ghost var original := client.jobs;
      NoIdsRemoveNothing(original);
      assert IdSet(myRuns[..0]) == {};
      for i := 0 to |myRuns|
        invariant client.Valid()
        invariant client.jobs == WithoutIds(original, IdSet(myRuns[..i]))
        invariant client.deletedJobIds == old(client.deletedJobIds) + Ids(myRuns[..i])
      {
        WithoutIdsStep(original, IdSet(myRuns[..i]), myRuns[i].id);
        client.DeleteJob(myRuns[i].id);
        PrefixStep(myRuns, i);
      }
      assert myRuns[..|myRuns|] == myRuns;
    }

    /**
     * `schedule`: ensure the experiment, delete the jobs that carry the run
     * name in it, then create one recurring run under that name; afterwards it
     * is the only job of the experiment with that name.
     */
    method Schedule(
      pipeline: string, experimentName: string, experimentNamespace: Option<string>,
      cronExpression: string, runName: string, parameters: map<string, Value>, env: string)
      returns (r: Result<Job, Error>)
      requires client.Valid()
      modifies client`experiments, client`nextId, client`jobs, client`deletedJobIds
      ensures client.Valid()
      ensures var lookup := old(client.ExperimentLookup(experimentName, experimentNamespace));
        var created := lookup.Failure? && IsNotFound(lookup.error);
        && (r.Failure? <==> lookup.Failure? && !IsNotFound(lookup.error))
        && client.experiments == old(client.experiments)
           + (if created then [Experiment(old(client.nextId), experimentName, experimentNamespace)] else [])
        && (r.Failure? ==>
              && r.error == lookup.error && client.nextId == old(client.nextId)
              && client.jobs == old(client.jobs) && client.deletedJobIds == old(client.deletedJobIds))
        && (r.Success? ==>
              && r.value.experimentId == (if created then old(client.nextId) else lookup.value.id)
              && r.value.id == (if created then old(client.nextId) + 1 else old(client.nextId))
              && client.nextId == r.value.id + 1)
      ensures r.Success? ==>
        var job := r.value;
        && (forall j :: j in old(client.jobs) ==> j.id != job.id)
        && job.name == runName && job.cronExpression == cronExpression && job.parameters == parameters
        && job.pipelineId == old(client.PipelineIdOf(FullPipelineName(projectName, pipeline, env)))
        && client.jobs == RemoveMatching(old(client.jobs), job.experimentId, runName) + [job]
        && client.deletedJobIds == old(client.deletedJobIds) + Ids(Matching(old(client.jobs), job.experimentId, runName))
        && Matching(client.jobs, job.experimentId, runName) == [job]
    {
      var experimentId := EnsureExperimentExists(experimentName, experimentNamespace);
      if experimentId.Failure? {
        return Failure(experimentId.error);
      }
      var pipelineId := client.PipelineIdOf(FullPipelineName(projectName, pipeline, env));
      var job := ReplaceRecurringRun(experimentId.value, runName, cronExpression, pipelineId, parameters);
      r := Success(job);
    }

    /**
     * The second half of `schedule`: `_disable_runs`, then `create_recurring_run`;
     * afterwards the new job is the only one of the experiment with that name.
     */
    method ReplaceRecurringRun(
      experimentId: nat, runName: string, cronExpression: string, pipelineId: Option<nat>,
      parameters: map<string, Value>)
      returns (job: Job)
      requires client.Valid()
      modifies client`nextId, client`jobs, client`deletedJobIds
      ensures client.Valid()
      ensures job == Job(old(client.nextId), runName, experimentId, pipelineId, cronExpression, parameters)
      ensures forall j :: j in old(client.jobs) ==> j.id != job.id
      ensures client.nextId == old(client.nextId) + 1
      ensures client.jobs == RemoveMatching(old(client.jobs), experimentId, runName) + [job]
      ensures client.deletedJobIds == old(client.deletedJobIds) + Ids(Matching(old(client.jobs), experimentId, runName))
      ensures Matching(client.jobs, experimentId, runName) == [job]
    {
      DisableRuns(experimentId, runName);
      job := client.CreateRecurringRun(experimentId, runName, cronExpression, pipelineId, parameters);
      OnlyNewJobMatches(old(client.jobs), job, experimentId, runName);
    }
  }

  /** Adding a version under the pipeline a name resolves to makes the name resolve to the extended pipeline. */
  lemma {:induction false} VersionAddedToNamed(pipelines: seq<Pipeline>, name: string, existing: Pipeline, version: PipelineVersion)
    requires PipelineNamed(pipelines, name) == Some(existing)
    ensures PipelineNamed(AddVersion(pipelines, existing.id, version), name)
            == Some(existing.(versions := existing.versions + [version]))
  {
    if pipelines[0].name != name {
      VersionAddedToNamed(pipelines[1..], name, existing, version);
    }
  }

  /** Under distinct pipeline ids, adding a version under one pipeline's id leaves every other pipeline as it was. */
  lemma OnlyNamedPipelineChanges(pipelines: seq<Pipeline>, existing: Pipeline, version: PipelineVersion)
    requires DistinctPipelineIds(pipelines) && existing in pipelines
    ensures forall i :: 0 <= i < |pipelines| && pipelines[i] != existing ==>
      AddVersion(pipelines, existing.id, version)[i] == pipelines[i]
  {
    var k :| 0 <= k < |pipelines| && pipelines[k] == existing;
    forall i | 0 <= i < |pipelines| && pipelines[i] != existing
      ensures pipelines[i].id != existing.id
    {
      assert i != k;
    }
  }

  /** A pipeline appended under a name nothing had resolves that name. */
  lemma {:induction false} NewPipelineIsNamed(pipelines: seq<Pipeline>, p: Pipeline)
    requires PipelineNamed(pipelines, p.name).None?
    ensures PipelineNamed(pipelines + [p], p.name) == Some(p)
  {
    if pipelines != [] {
      assert (pipelines + [p])[1..] == pipelines[1..] + [p];
      NewPipelineIsNamed(pipelines[1..], p);
    }
  }
}
