/** Everything the system holds about one job id, and the invariant of that view. */
module JobView {
  import opened Prelude
  import opened Domain
  import opened Ports
  import opened Protocol
  import W = WorkerSteps
  import Media

  // What a claimed run in phase `p` has committed, attempted to publish and produced so far.

  function CommittedAt(p: W.Phase): seq<JobStatus> {
    match p
    case NotifyingDone(_) => [Pending, Processing, Completed]
    case ReportingDone(_) => [Pending, Processing, Completed]
    case NotifyingFailure(_, recorded) => if recorded then [Pending, Processing, Failed] else [Pending, Processing]
    case ReportingFailure(_, recorded) => if recorded then [Pending, Processing, Failed] else [Pending, Processing]
    case Finished(Succeeded(_)) => [Pending, Processing, Completed]
    case Finished(Errored(_, recorded)) => if recorded then [Pending, Processing, Failed] else [Pending, Processing]
    case _ => [Pending, Processing]
  }

  function ErrorAt(p: W.Phase): Option<string> {
    match p
    case NotifyingFailure(reason, recorded) => if recorded then Some(reason.Text()) else None
    case ReportingFailure(reason, recorded) => if recorded then Some(reason.Text()) else None
    case Finished(Errored(reason, recorded)) => if recorded then Some(reason.Text()) else None
    case _ => None
  }

  /** The publishes on the status subject attempted before phase `p`. */
  function AttemptsAt(p: W.Phase): seq<StatusEvent> {
    match p
    case Progressing(_, _) => [Progress(10)]
    case Opening(_, _) => [Progress(10), Progress(50)]
    case Saving(_, _, _) => [Progress(10), Progress(50)]
    case Persisting(_, _) => [Progress(10), Progress(50)]
    case Completing(_) => [Progress(10), Progress(50)]
    case NotifyingDone(_) => [Progress(10), Progress(50)]
    case ReportingDone(result) => [Progress(10), Progress(50)] + [JobCompleted(result)]
    case RecordingFailure(_) => [Progress(10), Progress(50)]
    case NotifyingFailure(_, _) => [Progress(10), Progress(50)]
    case ReportingFailure(reason, _) => [Progress(10), Progress(50)] + [JobFailed(reason.Text())]
    case Finished(Succeeded(result)) => [Progress(10), Progress(50)] + [JobCompleted(result)]
    case Finished(CompletionLost(_, _)) => [Progress(10), Progress(50)]
    case Finished(Errored(reason, _)) => [Progress(10), Progress(50)] + [JobFailed(reason.Text())]
    case _ => []
  }

  /** The publishes on jobs.completed and jobs.failed attempted before phase `p`. */
  function ReportsAt(p: W.Phase): seq<StatusEvent> {
    match p
    case Finished(Succeeded(result)) => [JobCompleted(result)]
    case Finished(Errored(reason, _)) => [JobFailed(reason.Text())]
    case _ => []
  }

  /** The artifacts whose insertion was attempted before phase `p`. */
  function InsertedAt(p: W.Phase): seq<Artifact> {
    if p.Persisting? && p.next <= |p.result| then p.result[..p.next] else p.ResultOf()
  }

  function BegunAt(p: W.Phase): nat {
    if p.Announcing? || p.Progressing? then 0 else 1
  }

  /** The processor the dispatch loop picks for the job. */
  predicate Chosen(job: Job, proc: Media.Processor) {
    Media.FirstMatch(Media.PROCESSORS, job.mediaType) == Some(proc)
  }

  /** `result` is what the chosen processor returns for the job. */
  predicate FromProcess(result: seq<Artifact>, id: JobId, job: Job) {
    match Media.FirstMatch(Media.PROCESSORS, job.mediaType)
    case None => false
    case Some(proc) => result == proc.Produced(id, job.uid, |proc.Plan()|)
  }

  /** The data a phase carries belongs to job `job` with id `id`. */
  predicate Carries(p: W.Phase, id: JobId, job: Job) {
    match p
    case Claiming(j) => j == job
    case Announcing(j) => j == job
    case Progressing(j, proc) => j == job && Chosen(job, proc)
    case Opening(j, proc) => j == job && Chosen(job, proc)
    case Saving(j, proc, done) => j == job && Chosen(job, proc) && done <= |proc.Plan()|
    case Persisting(result, next) => next < |result| && FromProcess(result, id, job)
    case Completing(result) => FromProcess(result, id, job)
    case NotifyingDone(result) => FromProcess(result, id, job)
    case ReportingDone(result) => FromProcess(result, id, job)
    case RecordingFailure(reason) => !reason.Unsupported?
    case NotifyingFailure(reason, _) => !reason.Unsupported?
    case ReportingFailure(reason, _) => !reason.Unsupported?
    case Finished(Succeeded(result)) => FromProcess(result, id, job)
    case Finished(CompletionLost(result, _)) => FromProcess(result, id, job)
    case Finished(Errored(reason, _)) => !reason.Unsupported?
    case _ => true
  }

  /** The upload's phase against what has been inserted and announced. */
  predicate UploadFits(u: Upload, p: Past) {
    && (match u.phase
        case Storing(m, size, ttl) =>
          p.born.None? && p.statuses == [] && !p.announced && IsAccepted(m) && size > 0 && ttl > 0
        case Registering(job) => p.born == Some(job) && p.statuses == [] && !p.announced
        case Announcing(job) => p.born == Some(job) && p.statuses != [] && !p.announced
        case Unregistering(job) => p.born == Some(job) && p.statuses != [] && !p.announced
        case Unstoring(_) => p.born.Some? && !p.announced
        case Finished(Accepted(job)) => p.born == Some(job) && p.statuses != [] && p.announced
        case Finished(Rejected(_)) => !p.announced)
    && (p.born.Some? ==> IsBirth(p.born.value, u.uid))
    && (p.born.None? ==> p.statuses == [])
    && (!p.announced ==> p.claimant.None?)
  }

  predicate IsAccepted(mediaType: string) {
    Media.IsSupportedMediaType(mediaType) && Media.Normalize(mediaType) == mediaType
  }

  predicate IsBirth(job: Job, uid: Uid) {
    job.uid == uid && job.createdAt < job.expiresAt && IsAccepted(job.mediaType)
  }

  /** The row against the committed history. */
  predicate RowFits(rec: Record, p: Past) {
    && (p.statuses == [] ==> rec.row.None?)
    && (rec.row.Some? ==>
          p.born == Some(rec.row.value.job) && rec.row.value.status == p.statuses[|p.statuses| - 1])
    && (rec.row.None? ==> rec.arts == [])
  }

  /** Before any run has claimed the job. */
  predicate UnclaimedFits(rec: Record, p: Past) {
    && (p.statuses == [] || p.statuses == [Pending])
    && rec.log == [] && rec.reports == [] && rec.arts == [] && p.begun == 0
    && (rec.row.Some? ==> rec.row.value.error == None)
  }

  /** Once a run has claimed the job: everything follows from that run's phase. */
  predicate ClaimedFits(id: JobId, phase: W.Phase, rec: Record, p: Past) {
    && W.Claimed(phase)
    && p.born.Some? && Carries(phase, id, p.born.value)
    && p.statuses == CommittedAt(phase)
    && Subseq(rec.log, AttemptsAt(phase))
    && Subseq(rec.reports, ReportsAt(phase))
    && Subseq(rec.arts, InsertedAt(phase))
    && p.begun == BegunAt(phase)
    && (rec.row.Some? ==> rec.row.value.error == ErrorAt(phase))
  }

  predicate Fits(id: JobId, u: Upload, rec: Record, p: Past, claim: Option<W.Phase>) {
    && UploadFits(u, p)
    && RowFits(rec, p)
    && (match claim
        case None => UnclaimedFits(rec, p)
        case Some(phase) => ClaimedFits(id, phase, rec, p))
  }
}
