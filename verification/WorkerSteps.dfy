/** HandleJobCreated as a process: one phase per port call, and one for the return of Process. */
module WorkerSteps {
  import opened Prelude
  import opened Domain
  import opened Ports
  import opened Media

  datatype Phase =
    | Fetching
    | Claiming(job: Job)
    | Announcing(job: Job)
    | Progressing(job: Job, proc: Processor)
    | Opening(job: Job, proc: Processor)
    | Saving(job: Job, proc: Processor, done: nat)
    | Persisting(result: seq<Artifact>, next: nat)
    | Completing(result: seq<Artifact>)
    | NotifyingDone(result: seq<Artifact>)
    | ReportingDone(result: seq<Artifact>)
    | RecordingFailure(reason: Reason)
    | NotifyingFailure(reason: Reason, recorded: bool)
    | ReportingFailure(reason: Reason, recorded: bool)
    | Finished(outcome: Outcome)
  {
    /** The result of Process, in the phases that have one. */
    function ResultOf(): seq<Artifact> {
      match this
      case Persisting(result, _) => result
      case Completing(result) => result
      case NotifyingDone(result) => result
      case ReportingDone(result) => result
      case Finished(Succeeded(result)) => result
      case Finished(CompletionLost(result, _)) => result
      case _ => []
    }
  }

  datatype Outcome =
    | Unclaimed(error: RepoError)
    | Succeeded(result: seq<Artifact>)
    | CompletionLost(result: seq<Artifact>, error: RepoError)
    | Errored(reason: Reason, recorded: bool)

  const OPEN_FAILED := "failed to open source file"
  const SAVE_FAILED := "failed to save artifact"

  /** The run is past its update to processing. */
  predicate Claimed(p: Phase) {
    !p.Fetching? && !p.Claiming? && !(p.Finished? && p.outcome.Unclaimed?)
  }

  /** What Process returns when it gives up at a call that ended with `c`. */
  function GivesUp(c: Choice, text: string): Phase
    requires !c.Success?
  {
    match c
    case Fault => RecordingFailure(ProcFailed(text))
    case ProcError(t) => RecordingFailure(ProcFailed(t))
    case Panic(v) => RecordingFailure(Panicked(v))
  }

  /** Process gives up: a save fails, or, with every file saved, the rest of it panics. */
  predicate Fails(p: Phase, c: Choice)
    requires p.Saving?
  {
    if p.done < |p.proc.Plan()| then !c.Success? else c.Panic?
  }

  function AfterPersist(result: seq<Artifact>, next: nat): Phase {
    if next < |result| then Persisting(result, next) else Completing(result)
  }

  function PublishIf(rec: Record, e: StatusEvent, c: Choice): Record {
    if c.Success? then Publish(rec, e) else rec
  }

  /** The effect of the call of phase `p` on the job's record, and the phase that follows. */
  function Next(rec: Record, files: set<Path>, id: JobId, p: Phase, c: Choice): (Record, Phase) {
    match p
    case Fetching =>
      (rec, if !c.Success? then Finished(Unclaimed(Unavailable))
            else if rec.row.None? then Finished(Unclaimed(NotFound))
            else Claiming(rec.row.value.job))
    case Claiming(job) =>
      (match Unless(c, UpdateRow(rec, Processing, None))
       case Err(e) => (rec, Finished(Unclaimed(e)))
       case Ok(rec') => (rec', Announcing(job)))
    case Announcing(job) =>
      (PublishIf(rec, Progress(10), c),
       match FirstMatch(PROCESSORS, job.mediaType)
       case None => RecordingFailure(Unsupported)
       case Some(proc) => Progressing(job, proc))
    case Progressing(job, proc) =>
      (PublishIf(rec, Progress(50), c), Opening(job, proc))
    case Opening(job, proc) =>
      (rec, if !c.Success? then GivesUp(c, OPEN_FAILED)
            else if job.FilePath() !in files then RecordingFailure(ProcFailed(OPEN_FAILED))
            else Saving(job, proc, 0))
    case Saving(job, proc, done) =>
      (rec, if Fails(p, c) then GivesUp(c, SAVE_FAILED)
            else if done < |proc.Plan()| then Saving(job, proc, done + 1)
            else AfterPersist(proc.Produced(id, job.uid, |proc.Plan()|), 0))
    case Persisting(result, next) =>
      (match if next < |result| then Unless(c, InsertArtifact(rec, result[next])) else Err(MissingJob)
       case Err(_) => (rec, AfterPersist(result, next + 1))
       case Ok(rec') => (rec', AfterPersist(result, next + 1)))
    case Completing(result) =>
      (match Unless(c, UpdateRow(rec, Completed, None))
       case Err(e) => (rec, Finished(CompletionLost(result, e)))
       case Ok(rec') => (rec', NotifyingDone(result)))
    case NotifyingDone(result) =>
      (PublishIf(rec, JobCompleted(result), c), ReportingDone(result))
    case ReportingDone(result) =>
      (if c.Success? then Report(rec, JobCompleted(result)) else rec, Finished(Succeeded(result)))
    case RecordingFailure(reason) =>
      (match Unless(c, UpdateRow(rec, Failed, Some(reason.Text())))
       case Err(_) => (rec, NotifyingFailure(reason, false))
       case Ok(rec') => (rec', NotifyingFailure(reason, true)))
    case NotifyingFailure(reason, recorded) =>
      (PublishIf(rec, JobFailed(reason.Text()), c), ReportingFailure(reason, recorded))
    case ReportingFailure(reason, recorded) =>
      (if c.Success? then Report(rec, JobFailed(reason.Text())) else rec, Finished(Errored(reason, recorded)))
    case Finished(_) => (rec, p)
  }

  /** The file the call of phase `p` stores, if it succeeds. */
  function Saved(p: Phase, c: Choice): set<Path> {
    if p.Saving? && c.Success? && p.done < |p.proc.Plan()| then {Product(p.job.uid, p.proc.Plan()[p.done])} else {}
  }
}
