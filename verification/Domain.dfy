/** Job lifecycle entities: statuses and their transition relation, jobs, artifacts and rows. */
module Domain {
  import opened Prelude

  datatype JobStatus = Pending | Processing | Completed | Failed {
    predicate IsTerminal() {
      this == Completed || this == Failed
    }

    predicate CanTransitionTo(next: JobStatus) {
      if IsTerminal() then false
      else match this
        case Pending => next == Processing || next == Failed
        case Processing => next == Completed || next == Failed
        case _ => false
    }

    /** Position in the order pending, processing, terminal. */
    function Rank(): nat {
      match this
      case Pending => 0
      case Processing => 1
      case _ => 2
    }
  }

  /** Exactly which transitions are permitted; the terminal statuses are those without one; and ranks order
      the statuses by what can follow what. */
  lemma TransitionTable(s: JobStatus, t: JobStatus)
    ensures s.CanTransitionTo(t) <==>
              (s, t) in {(Pending, Processing), (Pending, Failed), (Processing, Completed), (Processing, Failed)}
    ensures s.IsTerminal() <==> forall next: JobStatus :: !s.CanTransitionTo(next)
    ensures s.IsTerminal() <==> s in {Completed, Failed}
    ensures s.Rank() < t.Rank() <==> s.CanTransitionTo(t) || (s == Pending && t == Completed)
  {
    if !s.IsTerminal() {
      assert s.CanTransitionTo(Failed);
    }
  }

  type JobId = string

  /** The identifier an upload draws for its stored file name; distinct from the job's id. */
  type Uid = string

  type Time = int

  /** What a processor derives from a source file. */
  datatype Kind = Thumb | Medium | Optimized | ExtractedText | Cover

  /** A stored file: the source of an upload, or something derived from that source. */
  datatype Path = Source(uid: Uid) | Product(uid: Uid, kind: Kind)

  /** The part of a job that never changes after NewJob. */
  datatype Job = Job(uid: Uid, mediaType: string, size: int, createdAt: Time, expiresAt: Time) {
    function FilePath(): Path { Source(uid) }

    predicate IsExpired(at: Time): (r: bool)
      ensures r <==> expiresAt <= at
    {
      !(expiresAt > at)
    }
  }

  datatype Artifact = Artifact(jobId: JobId, path: Path)

  datatype Row = Row(job: Job, status: JobStatus, error: Option<string>)

  /** Why a claimed run failed. */
  datatype Reason = Unsupported | ProcFailed(text: string) | Panicked(value: string) {
    function Text(): string {
      match this
      case Unsupported => "unsupported media type"
      case ProcFailed(t) => t
      case Panicked(v) => "panic during media processing: " + v
    }
  }

  /** Events on a job's status subject and on the broadcast subjects. */
  datatype StatusEvent =
    | Progress(percent: nat)
    | JobCompleted(artifacts: seq<Artifact>)
    | JobFailed(error: string)
  {
    predicate IsTerminal() { !Progress? }
  }

  datatype JobError = InvalidJob | UnsupportedMediaType | InvalidStateTransition | JobNotFound | MismatchedArtifact

  /** `source` is the stored file the path names, or None for an empty path. */
  function NewJob(mediaType: string, source: Option<Uid>, size: int, ttl: int, now: Time): (r: Result<Job, JobError>)
    ensures r.Ok? <==> mediaType != "" && source.Some? && size > 0 && ttl > 0
    ensures r.Ok? ==>
              && r.value.FilePath() == Source(source.value) && r.value.mediaType == mediaType && r.value.size == size
              && r.value.createdAt == now && r.value.expiresAt == now + ttl
    ensures r.Err? ==> r.error == InvalidJob
  {
    if mediaType == "" then Err(InvalidJob)
    else if source.None? then Err(InvalidJob)
    else if size <= 0 then Err(InvalidJob)
    else if ttl <= 0 then Err(InvalidJob)
    else Ok(Job(source.value, mediaType, size, now, now + ttl))
  }
}
