/** Job records and the service that updates them (pkg/types/job.go,
    internal/application/services/job_service.go,
    internal/infrastructure/filesystem/repository.go). */
module Jobs {
  import opened Options

  datatype JobStatus = Queued | Running | Completed | PartialSuccess | FailedJob | Interrupted

  /** The code constants of internal/core/domain/errors.go that the retry table or the
      classification names, and the one finalization uses; NoCode is the empty string. */
  datatype ErrorCode =
    | FFmpegFailed | Encoding240p | Encoding360p | Encoding480p | Encoding720p
    | Encoding1080p | Encoding1440p | Encoding4K | IOError
    | InvalidVideo | UnsupportedFormat | CorruptedFile | NoVideoStream
    | ResolutionTooHigh | DurationTooShort | ResolutionDetectFailed
    | DiskFull | JobSizeExceeded
    | PermissionDenied | PartialEncoding | NoCode

  datatype JobError = JobError(code: ErrorCode, stage: string)

  /** The fields of a job that a transcode run changes; `completed` says whether
      Meta.CompletedAt is set, an empty `hash` that none was computed. */
  datatype JobRecord = JobRecord(status: JobStatus, hash: string, completed: bool,
                                 retries: int, error: Option<JobError>, described: bool)

  function WithStatus(r: JobRecord, status: JobStatus): JobRecord
  {
    r.(status := status, completed := r.completed || status == Completed || status == FailedJob)
  }

  function WithError(r: JobRecord, error: JobError): JobRecord
  {
    r.(error := Some(error), status := FailedJob, completed := true)
  }

  /** The repository hands out this shared object, so an update needs no store. */
  class Job {
    const id: string
    var status: JobStatus
    var hash: string
    var completed: bool
    var retries: int
    var error: Option<JobError>
    var described: bool  // Input and Output are set

    function Record(): (r: JobRecord)
      reads this
      ensures r.status == status && r.hash == hash && r.completed == completed
      ensures r.retries == retries && r.error == error && r.described == described
    {
      JobRecord(status, hash, completed, retries, error, described)
    }

    constructor (id: string)
      ensures this.id == id && Record() == JobRecord(Queued, "", false, 0, None, false)
    {
      this.id := id;
      status, hash, completed, retries, error, described := Queued, "", false, 0, None, false;
    }
  }

  class JobService {
    var jobs: map<string, Job>

    /** Different jobs are different objects, filed under their own IDs. */
    ghost predicate Valid()
      reads this, jobs.Values
    {
      forall id :: id in jobs ==> jobs[id].id == id
    }

    function Target(id: string): set<Job>
      reads this
    {
      if id in jobs then {jobs[id]} else {}
    }

    constructor ()
      ensures Valid() && jobs == map[]
    {
      jobs := map[];
    }

    method Create(id: string) returns (ok: bool)
      requires Valid()
      modifies this
      ensures Valid() && (ok <==> id !in old(jobs))
      ensures jobs.Keys == old(jobs).Keys + {id}
      ensures forall other :: other in old(jobs) ==> jobs[other] == old(jobs)[other]
      ensures ok ==> fresh(jobs[id]) && jobs[id].Record() == JobRecord(Queued, "", false, 0, None, false)
    {
      ok := id !in jobs;
      if ok {
        var job := new Job(id);
        jobs := jobs[id := job];
      }
    }

    method UpdateStatus(id: string, status: JobStatus) returns (ok: bool)
      requires Valid()
      modifies Target(id)
      ensures Valid() && (ok <==> id in jobs)
      ensures ok ==> jobs[id].Record() == WithStatus(old(jobs[id].Record()), status)
      ensures ok ==> var was, now := old(jobs[id].Record()), jobs[id].Record();
                     && now.status == status && now.retries == was.retries && now.hash == was.hash
                     && now.error == was.error && now.described == was.described
                     && (now.completed <==> was.completed || status == Completed || status == FailedJob)
    {
      if id !in jobs {
        return false;
      }
      var job := jobs[id];
      job.status := status;
      if status == Completed || status == FailedJob {
        job.completed := true;
      }
      ok := true;
    }

    method SetError(id: string, error: JobError) returns (ok: bool)
      requires Valid()
      modifies Target(id)
      ensures Valid() && (ok <==> id in jobs)
      ensures ok ==> jobs[id].Record() == WithError(old(jobs[id].Record()), error)
      ensures ok ==> var was, now := old(jobs[id].Record()), jobs[id].Record();
                     && now.error == Some(error) && now.status == FailedJob && now.completed
                     && now.retries == was.retries && now.hash == was.hash && now.described == was.described
    {
      if id !in jobs {
        return false;
      }
      var job := jobs[id];
      job.error := Some(error);
      job.status := FailedJob;
      job.completed := true;
      ok := true;
    }

    method SetMetadata(id: string) returns (ok: bool)
      requires Valid()
      modifies Target(id)
      ensures Valid() && (ok <==> id in jobs)
      ensures ok ==> jobs[id].Record() == old(jobs[id].Record()).(described := true)
    {
      if id !in jobs {
        return false;
      }
      jobs[id].described := true;
      ok := true;
    }

    method SetHash(id: string, hash: string) returns (ok: bool)
      requires Valid()
      modifies Target(id)
      ensures Valid() && (ok <==> id in jobs)
      ensures ok ==> jobs[id].Record() == old(jobs[id].Record()).(hash := hash)
    {
      if id !in jobs {
        return false;
      }
      jobs[id].hash := hash;
      ok := true;
    }

    method IncrementRetry(id: string) returns (ok: bool)
      requires Valid()
      modifies Target(id)
      ensures Valid() && (ok <==> id in jobs)
      ensures ok ==> var was := old(jobs[id].Record()); jobs[id].Record() == was.(retries := was.retries + 1)
    {
      if id !in jobs {
        return false;
      }
      jobs[id].retries := jobs[id].retries + 1;
      ok := true;
    }
  }
}
