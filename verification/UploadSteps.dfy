/** ProcessUpload as a process: validation, then one phase per port call, with its rollbacks. */
module UploadSteps {
  import opened Prelude
  import opened Domain
  import opened Ports
  import Media

  datatype Request = Request(filename: string, mediaType: string, hasReader: bool, size: int, ttl: int)

  datatype UploadError = Invalid | UnsupportedType | SaveFailed | CreateFailed | PublishFailed

  datatype Phase =
    | Storing(mediaType: string, size: int, ttl: int)
    | Registering(job: Job)
    | Announcing(job: Job)
    | Unregistering(job: Job)
    | Unstoring(cause: UploadError)
    | Finished(outcome: Outcome)

  datatype Outcome = Accepted(job: Job) | Rejected(error: UploadError)

  /** The checks before the first port call. */
  function Intake(req: Request, defaultTtl: int): Phase {
    if req.size <= 0 || !req.hasReader then Finished(Rejected(Invalid))
    else if !Media.IsSupportedMediaType(Media.Normalize(req.mediaType)) then Finished(Rejected(UnsupportedType))
    else Storing(Media.Normalize(req.mediaType), req.size, if req.ttl <= 0 then defaultTtl else req.ttl)
  }

  /** The effect of the call of phase `p` on the job's record, and the phase that follows. */
  function Next(rec: Record, now: Time, uid: Uid, p: Phase, c: Choice): (Record, Phase) {
    match p
    case Storing(mediaType, size, ttl) =>
      (rec, if !c.Success? then Finished(Rejected(SaveFailed))
            else match NewJob(mediaType, Some(uid), size, ttl, now)
              case Err(_) => Unstoring(Invalid)
              case Ok(job) => Registering(job))
    case Registering(job) =>
      (match Unless(c, InsertRow(rec, Row(job, Pending, None)))
       case Err(_) => (rec, Unstoring(CreateFailed))
       case Ok(rec') => (rec', Announcing(job)))
    case Announcing(job) =>
      (rec, if c.Success? then Finished(Accepted(job)) else Unregistering(job))
    case Unregistering(job) =>
      (if c.Success? then DeleteJob(rec) else rec, Unstoring(PublishFailed))
    case Unstoring(cause) => (rec, Finished(Rejected(cause)))
    case Finished(_) => (rec, p)
  }

  /** The effect of the call of phase `p` on the stored files. */
  function Files(files: set<Path>, uid: Uid, p: Phase, c: Choice): set<Path> {
    if p.Storing? && c.Success? then files + {Source(uid)}
    else if p.Unstoring? && c.Success? then files - {Source(uid)}
    else files
  }
}
