/** The job record of a queued summary, and the updates made to it. */
module SummaryJobs {
  import opened Domain
  import opened Ratings

  datatype JobStatus = JobQueued | JobProcessing | JobCompleted | JobFailed

  datatype JobError = ProviderNotFound | NotAProvider | Raised

  datatype Record = Record(provider: Id, status: JobStatus, result: Option<Report>, error: Option<JobError>)

  /** An item of the Redis list. */
  datatype Task = Task(job: Id, provider: Id)

  function NewRecord(provider: Id): Record {
    Record(provider, JobQueued, None, None)
  }

  /** The record a worker takes up: the stored one, or a new one when it has expired. */
  function Started(found: Option<Record>, provider: Id): Record {
    var data := if found.Some? then found.value else Record(provider, JobProcessing, None, None);
    data.(status := JobProcessing)
  }

  /** The computation ran to an answer: a summary, or a provider that is missing or not one. */
  predicate Computed(answer: Result<Report>) {
    answer.Success? || answer == Failure(NotFound) || answer == Failure(BadRequest)
  }

  /** The record after the computation answered. */
  function Finished(data: Record, answer: Result<Report>): Record {
    match answer
    case Success(report) => data.(status := JobCompleted, result := Some(report), error := None)
    case Failure(NotFound) => data.(status := JobFailed, error := Some(ProviderNotFound))
    case Failure(_) => data.(status := JobFailed, error := Some(NotAProvider))
  }

  /** The record after an exception: whatever was already filled in stays. */
  function Aborted(data: Record): Record {
    data.(status := JobFailed, error := Some(Raised))
  }

  function Stage(s: JobStatus): nat {
    match s
    case JobQueued => 0
    case JobProcessing => 1
    case _ => 2
  }

  /** What a record's status says about its result and error. A failed record may hold a result. */
  predicate WellFormed(r: Record) {
    match r.status
    case JobQueued => r.result.None? && r.error.None?
    case JobProcessing => r.result.None? && r.error.None?
    case JobCompleted => r.result.Some? && r.error.None?
    case JobFailed => r.error.Some?
  }

  /** A failed record keeps a result exactly when the write of the completed record was the one that
      failed. */
  lemma FailedRecordKeepsResult(data: Record, answer: Result<Report>)
    requires data.status == JobProcessing && WellFormed(data)
    ensures WellFormed(Finished(data, answer)) && WellFormed(Aborted(data))
          && WellFormed(Aborted(Finished(data, answer)))
    ensures Aborted(data).result.None?
    ensures Aborted(Finished(data, answer)).result.Some? <==> answer.Success?
  {
  }
}
