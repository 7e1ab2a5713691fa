/**
 * An abstract Kubeflow Pipelines service, standing for the `kfp.Client` the
 * plugin talks to. It holds experiments, uploaded pipelines with versions,
 * recurring runs ("jobs") and one-off runs, and offers the calls the client
 * makes. Identifiers come from one counter, so every new object gets a fresh
 * id.
 */
module KfpService {
  import opened Wrappers
  import opened PyValue

  /** Which pipeline generator compiled a pipeline. */
  datatype Generator = PodPerNode | OnePod

  /**
   * What `generator.generate_pipeline(name, image, image_pull_policy)` hands
   * to the service. The generators are not part of this model, so a compiled
   * pipeline is known only by the call that produced it.
   */
  datatype GeneratedPipeline = GeneratedPipeline(
    generator: Generator, pipelineName: string, image: string, imagePullPolicy: string)

  datatype Experiment = Experiment(id: nat, name: string, namespace: Option<string>)

  datatype PipelineVersion = PipelineVersion(id: nat, package: GeneratedPipeline)

  datatype Pipeline = Pipeline(id: nat, name: string, description: Value, versions: seq<PipelineVersion>)

  /** A recurring run. */
  datatype Job = Job(
    id: nat, name: string, experimentId: nat, pipelineId: Option<nat>,
    cronExpression: string, parameters: map<string, Value>)

  /** A one-off run. */
  datatype Run = Run(
    id: nat, name: string, experimentName: string, namespace: Option<string>,
    package: GeneratedPipeline, arguments: map<string, Value>)

  /** The ValueError the service raises when no experiment has the requested name. */
  function NoExperimentFound(name: string): Error {
    ValueError("No experiment is found with name " + name + ".")
  }

  /** The first experiment with this name in this namespace. */
  function FirstExperiment(experiments: seq<Experiment>, name: string, namespace: Option<string>): (r: Option<Experiment>)
    ensures r.Some? ==> r.value in experiments && r.value.name == name && r.value.namespace == namespace
    ensures r.None? ==> forall e :: e in experiments ==> !(e.name == name && e.namespace == namespace)
  {
    if experiments == [] then None
    else if experiments[0].name == name && experiments[0].namespace == namespace then Some(experiments[0])
    else FirstExperiment(experiments[1..], name, namespace)
  }

  /** The first pipeline with this name. */
  function PipelineNamed(pipelines: seq<Pipeline>, name: string): (r: Option<Pipeline>)
    ensures r.Some? ==> r.value in pipelines && r.value.name == name
    ensures r.None? ==> forall p :: p in pipelines ==> p.name != name
  {
    if pipelines == [] then None
    else if pipelines[0].name == name then Some(pipelines[0])
    else PipelineNamed(pipelines[1..], name)
  }

  /** The pipelines after `version` is added under the pipeline `pipelineId`. */
  function AddVersion(pipelines: seq<Pipeline>, pipelineId: nat, version: PipelineVersion): (r: seq<Pipeline>)
    ensures |r| == |pipelines|
    ensures forall i :: 0 <= i < |r| ==> r[i].id == pipelines[i].id && r[i].name == pipelines[i].name
    ensures forall i :: 0 <= i < |r| && pipelines[i].id != pipelineId ==> r[i] == pipelines[i]
    ensures forall i :: 0 <= i < |r| && pipelines[i].id == pipelineId ==>
      r[i] == pipelines[i].(versions := pipelines[i].versions + [version])
  {
    if pipelines == [] then []
    else
      var p := pipelines[0];
      [if p.id == pipelineId then p.(versions := p.versions + [version]) else p] + AddVersion(pipelines[1..], pipelineId, version)
  }

  /** Adding a version whose id is below `n` keeps every version id below `n`. */
  lemma {:induction false} AddVersionKeepsIdsBelow(pipelines: seq<Pipeline>, pipelineId: nat, version: PipelineVersion, n: nat)
    requires forall p, v :: p in pipelines && v in p.versions ==> v.id < n
    requires version.id < n
    ensures forall p, v :: p in AddVersion(pipelines, pipelineId, version) && v in p.versions ==> v.id < n
  {
    if pipelines != [] {
      AddVersionKeepsIdsBelow(pipelines[1..], pipelineId, version, n);
    }
  }

  /** The jobs of one experiment, in order: what `list_recurring_runs(experiment_id=...)` lists. */
  function InExperiment(jobs: seq<Job>, experimentId: nat): (r: seq<Job>)
    ensures forall j :: j in r <==> j in jobs && j.experimentId == experimentId
  {
    if jobs == [] then []
    else if jobs[0].experimentId == experimentId then [jobs[0]] + InExperiment(jobs[1..], experimentId)
    else InExperiment(jobs[1..], experimentId)
  }

  /** The jobs whose id is not in `ids`, in order: `delete_job(id)` leaves `WithoutIds(jobs, {id})`. */
  function WithoutIds(jobs: seq<Job>, ids: set<nat>): (r: seq<Job>)
    ensures forall j :: j in r <==> j in jobs && j.id !in ids
  {
    if jobs == [] then []
    else if jobs[0].id in ids then WithoutIds(jobs[1..], ids)
    else [jobs[0]] + WithoutIds(jobs[1..], ids)
  }

  /** No two pipelines, at different positions, share an id. */
  ghost predicate DistinctPipelineIds(pipelines: seq<Pipeline>) {
    forall i, k :: 0 <= i < k < |pipelines| ==> pipelines[i].id != pipelines[k].id
  }

  /** No two jobs, at different positions, share an id. */
  ghost predicate DistinctIds(jobs: seq<Job>) {
    jobs == [] || ((forall j :: j in jobs[1..] ==> j.id != jobs[0].id) && DistinctIds(jobs[1..]))
  }

  lemma {:induction false} WithoutIdsKeepDistinct(jobs: seq<Job>, ids: set<nat>)
    requires DistinctIds(jobs)
    ensures DistinctIds(WithoutIds(jobs, ids))
  {
    if jobs != [] {
      WithoutIdsKeepDistinct(jobs[1..], ids);
      var rest := WithoutIds(jobs[1..], ids);
      if jobs[0].id !in ids {
        assert ([jobs[0]] + rest)[1..] == rest;
      }
    }
  }

  lemma {:induction false} AppendKeepsDistinct(jobs: seq<Job>, job: Job)
    requires DistinctIds(jobs)
    requires forall j :: j in jobs ==> j.id != job.id
    ensures DistinctIds(jobs + [job])
  {
    if jobs == [] {
      assert ([job])[1..] == [];
    } else {
      AppendKeepsDistinct(jobs[1..], job);
      assert (jobs + [job])[1..] == jobs[1..] + [job];
    }
  }

  /** Under distinct ids, an id names at most one job. */
  lemma {:induction false} DistinctIdsIdentify(jobs: seq<Job>, a: Job, b: Job)
    requires DistinctIds(jobs) && a in jobs && b in jobs && a.id == b.id
    ensures a == b
  {
    if a != jobs[0] && b != jobs[0] {
      DistinctIdsIdentify(jobs[1..], a, b);
    }
  }

  /** The service's state, changed in place by each call. */
  class RemoteService {
    var experiments: seq<Experiment>
    var pipelines: seq<Pipeline>
    var jobs: seq<Job>
    var runs: seq<Run>
    /** An error every experiment lookup raises instead of answering (a server or auth failure), if any. */
    var lookupFault: Option<Error>
    /** The ids passed to `delete_job`, in call order. */
    var deletedJobIds: seq<nat>
    /** The (run id, timeout) of every `wait_for_run_completion`, in call order. */
    var waits: seq<(nat, nat)>
    var nextId: nat

    ghost predicate Valid()
      reads this
    {
      && (forall e :: e in experiments ==> e.id < nextId)
      && (forall p :: p in pipelines ==> p.id < nextId)
      && DistinctPipelineIds(pipelines)
      && (forall p, v :: p in pipelines && v in p.versions ==> v.id < nextId)
      && (forall j :: j in jobs ==> j.id < nextId)
      && DistinctIds(jobs)
      && (forall r :: r in runs ==> r.id < nextId)
    }

    constructor (fault: Option<Error>)
      ensures Valid()
      ensures experiments == [] && pipelines == [] && jobs == [] && runs == []
      ensures lookupFault == fault && deletedJobIds == [] && waits == [] && nextId == 0
    {
      experiments, pipelines, jobs, runs := [], [], [], [];
      lookupFault, deletedJobIds, waits, nextId := fault, [], [], 0;
    }

    /** `get_experiment(experiment_name=name, namespace=namespace)`. */
    function ExperimentLookup(name: string, namespace: Option<string>): (r: Result<Experiment, Error>)
      reads this
      ensures lookupFault.Some? ==> r == Failure(lookupFault.value)
      ensures lookupFault.None? && r.Success? ==>
        r.value in experiments && r.value.name == name && r.value.namespace == namespace
      ensures lookupFault.None? && r.Failure? ==>
        r.error == NoExperimentFound(name)
        && forall e :: e in experiments ==> !(e.name == name && e.namespace == namespace)
    {
      if lookupFault.Some? then Failure(lookupFault.value)
      else match FirstExperiment(experiments, name, namespace)
           case None => Failure(NoExperimentFound(name))
           case Some(e) => Success(e)
    }

    /** `get_pipeline_id(name)`. */
    function PipelineIdOf(name: string): (r: Option<nat>)
      reads this
      ensures r.None? <==> forall p :: p in pipelines ==> p.name != name
    {
      match PipelineNamed(pipelines, name)
      case None => None
      case Some(p) => Some(p.id)
    }

    /** `list_recurring_runs(experiment_id=...).jobs`: None when the experiment has no job. */
    function RecurringRunsOf(experimentId: nat): (r: Option<seq<Job>>)
      reads this
      ensures r.None? <==> forall j :: j in jobs ==> j.experimentId != experimentId
      ensures r.Some? ==> r.value == InExperiment(jobs, experimentId)
    {
      var listed := InExperiment(jobs, experimentId);
      if listed == [] then None else assert listed[0] in listed; Some(listed)
    }

    /** `create_experiment(name, namespace=namespace)`. */
    method CreateExperiment(name: string, namespace: Option<string>) returns (e: Experiment)
      requires Valid()
      modifies this`experiments, this`nextId
      ensures Valid()
      ensures e == Experiment(old(nextId), name, namespace)
      ensures experiments == old(experiments) + [e] && nextId == old(nextId) + 1
    {
      e := Experiment(nextId, name, namespace);
      experiments := experiments + [e];
      nextId := nextId + 1;
    }

    /** `pipeline_uploads.upload_pipeline(...)`: a new pipeline whose default version is the package. */
    method UploadPipeline(package: GeneratedPipeline, name: string, description: Value)
      returns (pipelineId: nat, versionId: nat)
      requires Valid()
      modifies this`pipelines, this`nextId
      ensures Valid()
      ensures pipelineId == old(nextId) && versionId == old(nextId) + 1 && nextId == old(nextId) + 2
      ensures pipelines == old(pipelines) + [Pipeline(pipelineId, name, description, [PipelineVersion(versionId, package)])]
    {
      pipelineId, versionId := nextId, nextId + 1;
      pipelines := pipelines + [Pipeline(pipelineId, name, description, [PipelineVersion(versionId, package)])];
      nextId := nextId + 2;
    }

    /** `pipeline_uploads.upload_pipeline_version(..., pipelineid=pipelineId)`. */
    method UploadPipelineVersion(package: GeneratedPipeline, pipelineId: nat) returns (versionId: nat)
      requires Valid()
      modifies this`pipelines, this`nextId
      ensures Valid()
      ensures versionId == old(nextId) && nextId == old(nextId) + 1
      ensures pipelines == AddVersion(old(pipelines), pipelineId, PipelineVersion(versionId, package))
    {
      versionId := nextId;
      AddVersionKeepsIdsBelow(pipelines, pipelineId, PipelineVersion(versionId, package), nextId + 1);
      pipelines := AddVersion(pipelines, pipelineId, PipelineVersion(versionId, package));
      nextId := nextId + 1;
    }

    /** `jobs.delete_job(id)`. */
    method DeleteJob(id: nat)
      requires Valid()
      modifies this`jobs, this`deletedJobIds
      ensures Valid()
      ensures jobs == WithoutIds(old(jobs), {id})
      ensures deletedJobIds == old(deletedJobIds) + [id]
    {
      WithoutIdsKeepDistinct(jobs, {id});
      jobs := WithoutIds(jobs, {id});
      deletedJobIds := deletedJobIds + [id];
    }

    /** `create_recurring_run(experimentId, name, cron_expression=..., pipeline_id=..., params=...)`. */
    method CreateRecurringRun(
      experimentId: nat, name: string, cronExpression: string, pipelineId: Option<nat>,
      parameters: map<string, Value>)
      returns (job: Job)
      requires Valid()
      modifies this`jobs, this`nextId
      ensures Valid()
      ensures job == Job(old(nextId), name, experimentId, pipelineId, cronExpression, parameters)
      ensures jobs == old(jobs) + [job] && nextId == old(nextId) + 1
    {
      job := Job(nextId, name, experimentId, pipelineId, cronExpression, parameters);
      AppendKeepsDistinct(jobs, job);
      jobs := jobs + [job];
      nextId := nextId + 1;
    }

    /** `create_run_from_pipeline_func(package, arguments=..., experiment_name=..., namespace=..., run_name=...)`. */
    method CreateRunFromPipelineFunc(
      package: GeneratedPipeline, arguments: map<string, Value>, experimentName: string,
      namespace: Option<string>, runName: string)
      returns (run: Run)
      requires Valid()
      modifies this`runs, this`nextId
      ensures Valid()
      ensures run == Run(old(nextId), runName, experimentName, namespace, package, arguments)
      ensures runs == old(runs) + [run] && nextId == old(nextId) + 1
    {
      run := Run(nextId, runName, experimentName, namespace, package, arguments);
      runs := runs + [run];
      nextId := nextId + 1;
    }

    /** `run.wait_for_run_completion(timeout=...)`, recorded rather than awaited. */
    method WaitForRunCompletion(runId: nat, timeout: nat)
      modifies this`waits
      ensures waits == old(waits) + [(runId, timeout)]
    {
      waits := waits + [(runId, timeout)];
    }
  }
}
