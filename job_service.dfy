/** The job registry of the job service: jobs discovered as decorated methods and
    as decorated classes, listed by metadata and executed by name. */
module JobService {
  import opened Common

  datatype JobMetadata = JobMetadata(name: string, description: string)

  /** A discovered provider class (and its instance). */
  datatype ClassRef = ClassRef(name: string)

  /** What running a job calls: a decorated method, or a class instance's `execute()`. */
  datatype Handler = MethodHandler(parentClass: ClassRef, methodName: string) | ExecuteOf(instance: ClassRef)

  datatype DiscoveredMethod = DiscoveredMethod(handler: Handler, methodName: string, parentClass: ClassRef)

  /** One registry entry: a discovered method with its job metadata. */
  datatype Job = Job(meta: JobMetadata, discoveredMethod: DiscoveredMethod)

  /** A discovered class with its job metadata. */
  datatype ClassWithMeta = ClassWithMeta(meta: JobMetadata, discoveredClass: ClassRef)

  /** The registry entry made for a job class. */
  function JobFromClass(provider: ClassWithMeta): Job
  {
    Job(provider.meta, DiscoveredMethod(ExecuteOf(provider.discoveredClass), "execute", provider.discoveredClass))
  }

  /** `classesWithMeta.map(...)`: each class keeps its metadata and runs `execute` on its own instance. */
  function JobsFromClasses(providers: seq<ClassWithMeta>): (jobs: seq<Job>)
    ensures |jobs| == |providers|
    ensures forall i :: 0 <= i < |jobs| ==>
      && jobs[i].meta == providers[i].meta
      && jobs[i].discoveredMethod.methodName == "execute"
      && jobs[i].discoveredMethod.parentClass == providers[i].discoveredClass
      && jobs[i].discoveredMethod.handler == ExecuteOf(providers[i].discoveredClass)
  {
    if providers == [] then [] else [JobFromClass(providers[0])] + JobsFromClasses(providers[1..])
  }

  /** `jobs.map(job => job.meta)` */
  function Metas(jobs: seq<Job>): (metas: seq<JobMetadata>)
    ensures |metas| == |jobs|
    ensures forall i :: 0 <= i < |jobs| ==> metas[i] == jobs[i].meta
  {
    if jobs == [] then [] else [jobs[0].meta] + Metas(jobs[1..])
  }

  /** `jobs.find(job => job.meta.name === name)`, as the index of the first match. */
  function FindJob(jobs: seq<Job>, name: string): (r: Option<nat>)
    ensures r.Some? ==> r.value < |jobs| && jobs[r.value].meta.name == name
    ensures r.Some? ==> forall k :: 0 <= k < r.value ==> jobs[k].meta.name != name
    ensures r.None? <==> forall k :: 0 <= k < |jobs| ==> jobs[k].meta.name != name
  {
    if jobs == [] then None
    else if jobs[0].meta.name == name then Some(0)
    else match FindJob(jobs[1..], name)
      case None => None
      case Some(i) => Some(i + 1)
  }

  function NotFound(name: string): HttpError
  {
    BadRequest("Job " + name + " not found")
  }

  /** The handlers run so far: the effect of executing jobs. */
  class HandlerLog {
    var runs: seq<Handler>

    constructor ()
      ensures runs == []
    {
      runs := [];
    }

    /** Runs `handler`; `outcome` says whether it rejects, and with which error. */
    method Run(handler: Handler, outcome: Handler -> Option<string>) returns (failure: Option<string>)
      modifies this
      ensures runs == old(runs) + [handler]
      ensures failure == outcome(handler)
    {
      runs := runs + [handler];
      failure := outcome(handler);
    }
  }

  class JobService {
    var jobs: seq<Job>

    constructor ()
      ensures jobs == []
    {
      jobs := [];
    }

    /** `onModuleInit`: the two discovery results, each a list or the error the scan
        rejected with. The registry is replaced by method jobs then class jobs; if a
        scan fails the error propagates and the registry is left as it was. */
    method OnModuleInit(methodsWithMeta: Result<seq<Job>, string>, classesWithMeta: Result<seq<ClassWithMeta>, string>)
      returns (r: Outcome<string>)
      modifies this
      ensures methodsWithMeta.Err? ==> r == Fail(methodsWithMeta.error) && jobs == old(jobs)
      ensures methodsWithMeta.Ok? && classesWithMeta.Err? ==> r == Fail(classesWithMeta.error) && jobs == old(jobs)
      ensures methodsWithMeta.Ok? && classesWithMeta.Ok? ==>
        r == Pass && jobs == methodsWithMeta.value + JobsFromClasses(classesWithMeta.value)
    {
      if methodsWithMeta.Err? {
        return Fail(methodsWithMeta.error);
      }
      if classesWithMeta.Err? {
        return Fail(classesWithMeta.error);
      }
      var jobsFromClasses := JobsFromClasses(classesWithMeta.value);
      jobs := methodsWithMeta.value + jobsFromClasses;
      r := Pass;
    }

    /** `getJobsMetadata()`: the metadata of every registered job, in registry order. */
    function GetJobsMetadata(): (metas: seq<JobMetadata>)
      reads this
      ensures |metas| == |jobs|
      ensures forall i :: 0 <= i < |jobs| ==> metas[i] == jobs[i].meta
    {
      Metas(jobs)
    }

    /** `executeJob(name)`: runs the first job with that name exactly once and returns its
        metadata, or propagates the handler's error; with no such job nothing runs. */
    method ExecuteJob(name: string, log: HandlerLog, outcome: Handler -> Option<string>)
      returns (r: Result<JobMetadata, HttpError>)
      modifies log
      ensures FindJob(jobs, name).None? ==> r == Err(NotFound(name)) && log.runs == old(log.runs)
      ensures FindJob(jobs, name).Some? ==>
        var job := jobs[FindJob(jobs, name).value];
        && log.runs == old(log.runs) + [job.discoveredMethod.handler]
        && (outcome(job.discoveredMethod.handler).None? ==> r == Ok(job.meta))
        && (outcome(job.discoveredMethod.handler).Some? ==> r == Err(Thrown(outcome(job.discoveredMethod.handler).value)))
    {
      var found := FindJob(jobs, name);
      if found.None? {
        return Err(NotFound(name));
      }
      var job := jobs[found.value];
      var failure := log.Run(job.discoveredMethod.handler, outcome);
      if failure.Some? {
        return Err(Thrown(failure.value));
      }
      r := Ok(job.meta);
    }
  }

  /** Lookup in a concatenation searches the first part, then the second. */
  lemma {:induction false} FindJobAppend(a: seq<Job>, b: seq<Job>, name: string)
    ensures FindJob(a + b, name) ==
      if FindJob(a, name).Some? then FindJob(a, name)
      else match FindJob(b, name)
        case None => None
        case Some(j) => Some(|a| + j)
  {
    if a == [] {
      assert a + b == b;
    } else if a[0].meta.name != name {
      assert (a + b)[0] == a[0];
      assert (a + b)[1..] == a[1..] + b;
      FindJobAppend(a[1..], b, name);
    } else {
      assert (a + b)[0] == a[0];
    }
  }

  /** In the registry init builds (method jobs, then the jobs made from classes), a
      method job shadows a class job of the same name, and a class job is found at its
      position behind all method jobs. */
  lemma MethodJobsFirst(methods: seq<Job>, fromClasses: seq<Job>, name: string)
    ensures FindJob(methods, name).Some? ==> FindJob(methods + fromClasses, name) == FindJob(methods, name)
    ensures FindJob(methods, name).None? && FindJob(fromClasses, name).Some? ==>
      FindJob(methods + fromClasses, name) == Some(|methods| + FindJob(fromClasses, name).value)
  {
    FindJobAppend(methods, fromClasses, name);
  }

  /** The listed metadata after init: method jobs' metadata, then the classes'. */
  lemma MetadataAfterInit(methods: seq<Job>, classes: seq<ClassWithMeta>)
    ensures var metas := Metas(methods + JobsFromClasses(classes));
      && |metas| == |methods| + |classes|
      && (forall i :: 0 <= i < |methods| ==> metas[i] == methods[i].meta)
      && (forall i :: 0 <= i < |classes| ==> metas[|methods| + i] == classes[i].meta)
  {
    var jobs := methods + JobsFromClasses(classes);
    forall i | 0 <= i < |classes| ensures Metas(jobs)[|methods| + i] == classes[i].meta {
      assert jobs[|methods| + i] == JobsFromClasses(classes)[i];
    }
  }
}
