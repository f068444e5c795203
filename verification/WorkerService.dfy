/** internal/core/worker.go over the ports: HandleJobCreated does, call by call, what the protocol's worker
    run does. */
module Worker {
  import opened Prelude
  import opened Domain
  import opened Ports
  import opened Media
  import opened Adapters
  import opened SoloRuns
  import W = WorkerSteps
  import Strings

  /** A jobs.created event: its JobID field, and the job_id of its payload if that is a string. */
  datatype Event = Event(jobId: JobId, payloadId: Option<JobId>)

  datatype WorkerError =
    | MissingId
    | NotClaimed(error: RepoError)
    | CompleteFailed(error: RepoError)
    | ProcessFailed(reason: Reason)

  /** How Process ends: its artifacts, its error, or a panic. */
  datatype ProcResult = Artifacts(list: seq<Artifact>) | Failure(reason: Reason)

  function PathsOf(arts: seq<Artifact>): set<Path> {
    set a | a in arts :: a.path
  }

  lemma PathsNone()
    ensures forall files: set<Path> :: files + PathsOf([]) == files
  {
  }

  lemma PathsAppend(arts: seq<Artifact>, a: Artifact)
    ensures forall files: set<Path> :: files + PathsOf(arts + [a]) == files + PathsOf(arts) + {a.path}
  {
    assert PathsOf(arts + [a]) == PathsOf(arts) + {a.path} by {
      assert a in arts + [a] && forall b :: b in arts ==> b in arts + [a];
    }
  }

  lemma PathsMade(id: JobId, uid: Uid)
    ensures PathsOf([Artifact(id, Product(uid, Thumb)), Artifact(id, Product(uid, Medium)),
                     Artifact(id, Product(uid, Optimized))]) ==
            {Product(uid, Thumb), Product(uid, Medium), Product(uid, Optimized)}
    ensures PathsOf([Artifact(id, Product(uid, ExtractedText)), Artifact(id, Product(uid, Cover))]) ==
            {Product(uid, ExtractedText), Product(uid, Cover)}
  {
    PathsOfThree(Artifact(id, Product(uid, Thumb)), Artifact(id, Product(uid, Medium)),
                 Artifact(id, Product(uid, Optimized)));
    PathsOfTwo(Artifact(id, Product(uid, ExtractedText)), Artifact(id, Product(uid, Cover)));
  }

  lemma PathsOfTwo(a: Artifact, b: Artifact)
    ensures PathsOf([a, b]) == {a.path, b.path}
  {
    assert a in [a, b] && b in [a, b];
  }

  lemma PathsOfThree(a: Artifact, b: Artifact, c: Artifact)
    ensures PathsOf([a, b, c]) == {a.path, b.path, c.path}
  {
    assert a in [a, b, c] && b in [a, b, c] && c in [a, b, c];
  }

  function AfterProcess(r: ProcResult): W.Phase {
    match r
    case Artifacts(list) => W.AfterPersist(list, 0)
    case Failure(reason) => W.RecordingFailure(reason)
  }

  class WorkerService {
    const repo: JobRepository
    const store: FileStore
    const bus: EventBus

    constructor (repo: JobRepository, store: FileStore, bus: EventBus)
      ensures this.repo == repo && this.store == store && this.bus == bus
    {
      this.repo, this.store, this.bus := repo, store, bus;
    }

    /** What is left of a run that stands at phase `p`. */
    ghost function Rest(id: JobId, p: W.Phase, fate: Fates, k: nat): Ending
      reads repo, bus, store
    {
      RunFrom(RecordAt(repo, bus, id), store.files, id, p, fate, k)
    }

    /** Job `id` has been handled and `err` returned. */
    twostate predicate Handled(id: JobId, fate: Fates, new err: Option<WorkerError>)
      reads repo, bus, store
    {
      var ending := RunFrom(old(RecordAt(repo, bus, id)), old(store.files), id, W.Fetching, fate, 0);
      && OthersKept(repo, bus, id) && RecordAt(repo, bus, id) == ending.rec && store.files == ending.files
      && (err.None? <==> ending.outcome.Succeeded?)
      && (forall error :: err == Some(NotClaimed(error)) <==> ending.outcome == W.Unclaimed(error))
      && (forall error :: err == Some(CompleteFailed(error)) <==>
                          ending.outcome.CompletionLost? && ending.outcome.error == error)
      && (forall reason :: err == Some(ProcessFailed(reason)) <==>
                           ending.outcome.Errored? && ending.outcome.reason == reason)
    }

    method Process(id: JobId, job: Job, proc: Processor, fate: Fates, k: nat) returns (r: ProcResult, next: nat)
      modifies store
      ensures Rest(id, AfterProcess(r), fate, next) == old(Rest(id, W.Opening(job, proc), fate, k))
      ensures r.Artifacts? ==> forall a :: a in r.list ==> a.jobId == id
      ensures r.Artifacts? ==>
                match proc
                case ImageProcessor =>
                  && r.list == [Artifact(id, Product(job.uid, Thumb)), Artifact(id, Product(job.uid, Medium)),
                                Artifact(id, Product(job.uid, Optimized))]
                  && store.files == old(store.files) + {Product(job.uid, Thumb), Product(job.uid, Medium),
                                                        Product(job.uid, Optimized)}
                case PdfProcessor =>
                  && r.list == [Artifact(id, Product(job.uid, ExtractedText)), Artifact(id, Product(job.uid, Cover))]
                  && store.files == old(store.files) + {Product(job.uid, ExtractedText), Product(job.uid, Cover)}
    {
      hide RunFrom, PathsOf, RecordAt;
      Unroll(RecordAt(repo, bus, id), store.files, id, W.Opening(job, proc), fate, k);
      PathsNone();
      next := k + 1;
      var c := fate(k);
      var found := store.Open(job.FilePath(), c);
      if !found {
        r := Failure(match c
                     case Success => ProcFailed(W.OPEN_FAILED)
                     case Fault => ProcFailed(W.OPEN_FAILED)
                     case ProcError(text) => ProcFailed(text)
                     case Panic(value) => Panicked(value));
        return;
      }
      var artifacts: seq<Artifact> := [];
      var plan := proc.Plan();
      for i := 0 to |plan|
        invariant artifacts == proc.Produced(id, job.uid, i)
        invariant store.files == old(store.files) + PathsOf(artifacts)
        invariant Rest(id, W.Saving(job, proc, i), fate, next) == old(Rest(id, W.Opening(job, proc), fate, k))
      {
        Unroll(RecordAt(repo, bus, id), store.files, id, W.Saving(job, proc, i), fate, next);
        c := fate(next);
        next := next + 1;
        var saved := store.Save(Product(job.uid, plan[i]), c);
        if !saved {
          r := Failure(match c
                       case ProcError(text) => ProcFailed(text)
                       case Panic(value) => Panicked(value)
                       case _ => ProcFailed(W.SAVE_FAILED));
          return;
        }
        PathsAppend(artifacts, Artifact(id, Product(job.uid, plan[i])));
        artifacts := artifacts + [Artifact(id, Product(job.uid, plan[i]))];
      }
      MakesExactly(proc, id, job.uid);
      PathsMade(id, job.uid);
      // the last artifact's id, or anything before the return, may panic
      Unroll(RecordAt(repo, bus, id), store.files, id, W.Saving(job, proc, |plan|), fate, next);
      c := fate(next);
      next := next + 1;
      r := match c
           case Panic(value) => Failure(Panicked(value))
           case _ => Artifacts(artifacts);
    }

    // ---- one port call, seen through the job's record ----

    method SetStatus(id: JobId, status: JobStatus, error: Option<string>, c: Choice) returns (err: Option<RepoError>)
      requires repo.Valid()
      modifies repo
      ensures repo.Valid() && OthersKept(repo, bus, id)
      ensures match Unless(c, UpdateRow(old(RecordAt(repo, bus, id)), status, error))
              case Ok(rec) => err.None? && RecordAt(repo, bus, id) == rec
              case Err(e) => err == Some(e) && RecordAt(repo, bus, id) == old(RecordAt(repo, bus, id))
    {
      err := repo.UpdateJobStatus(id, status, error, c);
    }

    method Insert(id: JobId, a: Artifact, c: Choice)
      requires repo.Valid() && a.jobId == id
      modifies repo
      ensures repo.Valid() && OthersKept(repo, bus, id)
      ensures RecordAt(repo, bus, id) == match Unless(c, InsertArtifact(old(RecordAt(repo, bus, id)), a))
                          case Ok(rec) => rec
                          case Err(_) => old(RecordAt(repo, bus, id))
    {
      forall other {
        ArtifactsAppend(repo.artifacts, a, other);
      }
      var err := repo.AddArtifact(a, c);
    }

    method PublishStatusEvent(id: JobId, e: StatusEvent, c: Choice)
      modifies bus
      ensures bus.created == old(bus.created)
      ensures OthersKept(repo, bus, id) && RecordAt(repo, bus, id) == W.PublishIf(old(RecordAt(repo, bus, id)), e, c)
    {
      var ok := bus.PublishStatus(id, e, c);
    }

    method PublishReportEvent(id: JobId, e: StatusEvent, c: Choice)
      modifies bus
      ensures bus.created == old(bus.created)
      ensures OthersKept(repo, bus, id)
      ensures RecordAt(repo, bus, id) ==
              if c.Success? then Report(old(RecordAt(repo, bus, id)), e) else old(RecordAt(repo, bus, id))
    {
      var ok := bus.PublishReport(id, e, c);
    }

    method PublishFailureEvent(id: JobId, reason: Reason, ghost recorded: bool, fate: Fates, k: nat)
      modifies bus
      ensures bus.created == old(bus.created)
      ensures OthersKept(repo, bus, id)
      ensures Ending(RecordAt(repo, bus, id), store.files, W.Errored(reason, recorded)) ==
              old(Rest(id, W.NotifyingFailure(reason, recorded), fate, k))
    {
      hide RunFrom, RecordAt;
      Unroll(RecordAt(repo, bus, id), store.files, id, W.NotifyingFailure(reason, recorded), fate, k);
      PublishStatusEvent(id, JobFailed(reason.Text()), fate(k));
      Unroll(RecordAt(repo, bus, id), store.files, id, W.ReportingFailure(reason, recorded), fate, k + 1);
      PublishReportEvent(id, JobFailed(reason.Text()), fate(k + 1));
      Ended(RecordAt(repo, bus, id), store.files, id, W.Errored(reason, recorded), fate, k + 2);
    }

    method PublishSuccessEvent(id: JobId, result: seq<Artifact>, fate: Fates, k: nat)
      modifies bus
      ensures bus.created == old(bus.created)
      ensures OthersKept(repo, bus, id)
      ensures Ending(RecordAt(repo, bus, id), store.files, W.Succeeded(result)) ==
              old(Rest(id, W.NotifyingDone(result), fate, k))
    {
      hide RunFrom, RecordAt;
      Unroll(RecordAt(repo, bus, id), store.files, id, W.NotifyingDone(result), fate, k);
      PublishStatusEvent(id, JobCompleted(result), fate(k));
      Unroll(RecordAt(repo, bus, id), store.files, id, W.ReportingDone(result), fate, k + 1);
      PublishReportEvent(id, JobCompleted(result), fate(k + 1));
      Ended(RecordAt(repo, bus, id), store.files, id, W.Succeeded(result), fate, k + 2);
    }

    /** The failure path: the update and both publishes, their errors swallowed. */
    method Fail(id: JobId, reason: Reason, fate: Fates, k: nat) returns (ghost recorded: bool)
      requires repo.Valid()
      modifies repo, bus
      ensures bus.created == old(bus.created)
      ensures repo.Valid() && OthersKept(repo, bus, id)
      ensures Ending(RecordAt(repo, bus, id), store.files, W.Errored(reason, recorded)) ==
              old(Rest(id, W.RecordingFailure(reason), fate, k))
    {
      hide RunFrom, RecordAt;
      Unroll(RecordAt(repo, bus, id), store.files, id, W.RecordingFailure(reason), fate, k);
      var err := SetStatus(id, Failed, Some(reason.Text()), fate(k));
      recorded := err.None?;
      PublishFailureEvent(id, reason, recorded, fate, k + 1);
    }

    /** Inserts every artifact; an error is logged and the loop goes on. */
    method Persist(id: JobId, result: seq<Artifact>, fate: Fates, k: nat)
      requires repo.Valid() && forall a :: a in result ==> a.jobId == id
      modifies repo
      ensures repo.Valid() && OthersKept(repo, bus, id)
      ensures Rest(id, W.Completing(result), fate, k + |result|) == old(Rest(id, W.AfterPersist(result, 0), fate, k))
    {
      hide RunFrom, RecordAt;
      for i := 0 to |result|
        invariant repo.Valid() && OthersKept(repo, bus, id)
        invariant Rest(id, W.AfterPersist(result, i), fate, k + i) == old(Rest(id, W.AfterPersist(result, 0), fate, k))
      {
        Unroll(RecordAt(repo, bus, id), store.files, id, W.Persisting(result, i), fate, k + i);
        assert result[i] in result;
        Insert(id, result[i], fate(k + i));
      }
    }

    /** From the update to processing on; the deferred recovery turns a panic into a failure. */
    method Work(id: JobId, job: Job, fate: Fates) returns (err: Option<WorkerError>, ghost outcome: W.Outcome)
      requires repo.Valid()
      modifies repo, store, bus
      ensures bus.created == old(bus.created)
      ensures repo.Valid() && OthersKept(repo, bus, id)
      ensures Ending(RecordAt(repo, bus, id), store.files, outcome) == old(Rest(id, W.Claiming(job), fate, 1))
      ensures err == ErrorOf(outcome)
    {
      hide RunFrom, RecordAt, FirstMatch;
      Unroll(RecordAt(repo, bus, id), store.files, id, W.Claiming(job), fate, 1);
      var claim := SetStatus(id, Processing, None, fate(1));
      if claim.Some? {
        Ended(RecordAt(repo, bus, id), store.files, id, W.Unclaimed(claim.value), fate, 2);
        return Some(NotClaimed(claim.value)), W.Unclaimed(claim.value);
      }
      Unroll(RecordAt(repo, bus, id), store.files, id, W.Announcing(job), fate, 2);
      PublishStatusEvent(id, Progress(10), fate(2));
      var matched := FindProcessor(job.mediaType);
      if matched.None? {
        ghost var recorded := Fail(id, Unsupported, fate, 3);
        return Some(ProcessFailed(Unsupported)), W.Errored(Unsupported, recorded);
      }
      Unroll(RecordAt(repo, bus, id), store.files, id, W.Progressing(job, matched.value), fate, 3);
      PublishStatusEvent(id, Progress(50), fate(3));
      err, outcome := Finish(id, job, matched.value, fate);
    }

    /** The dispatch loop: the first processor that claims the media type. */
    method FindProcessor(mediaType: string) returns (matched: Option<Processor>)
      ensures matched == FirstMatch(PROCESSORS, mediaType)
      ensures matched == if |mediaType| >= 6 && Strings.Spells(mediaType[..6], "image/") then Some(ImageProcessor)
                         else if NamesPdf(mediaType) then Some(PdfProcessor)
                         else None
    {
      DispatchExactly(mediaType);
      matched := None;
      for i := 0 to |PROCESSORS|
        invariant matched.None? && FirstMatch(PROCESSORS[i..], mediaType) == FirstMatch(PROCESSORS, mediaType)
      {
        assert PROCESSORS[i..][1..] == PROCESSORS[i + 1..];
        if PROCESSORS[i].CanProcess(mediaType) {
          return Some(PROCESSORS[i]);
        }
      }
    }

    method Finish(id: JobId, job: Job, proc: Processor, fate: Fates)
      returns (err: Option<WorkerError>, ghost outcome: W.Outcome)
      requires repo.Valid()
      modifies repo, store, bus
      ensures bus.created == old(bus.created)
      ensures repo.Valid() && OthersKept(repo, bus, id)
      ensures Ending(RecordAt(repo, bus, id), store.files, outcome) == old(Rest(id, W.Opening(job, proc), fate, 4))
      ensures err == ErrorOf(outcome)
    {
      hide RunFrom, RecordAt;
      var result, k := Process(id, job, proc, fate, 4);
      if result.Failure? {
        ghost var recorded := Fail(id, result.reason, fate, k);
        return Some(ProcessFailed(result.reason)), W.Errored(result.reason, recorded);
      }
      Persist(id, result.list, fate, k);
      k := k + |result.list|;
      Unroll(RecordAt(repo, bus, id), store.files, id, W.Completing(result.list), fate, k);
      var done := SetStatus(id, Completed, None, fate(k));
      if done.Some? {
        Ended(RecordAt(repo, bus, id), store.files, id, W.CompletionLost(result.list, done.value), fate, k + 1);
        return Some(CompleteFailed(done.value)), W.CompletionLost(result.list, done.value);
      }
      PublishSuccessEvent(id, result.list, fate, k + 1);
      return None, W.Succeeded(result.list);
    }

    /** The handler works on the job the event's JobID field names, or, if that is empty, on the one its payload
        names; if neither names one it fails and changes nothing. It leaves tables, files and bus as the protocol's
        worker run does for that job, call by call with the same failures, and every other job alone; and it returns
        an error exactly unless the run succeeded, the one that ended the run. */
    method HandleJobCreated(event: Event, fate: Fates) returns (err: Option<WorkerError>)
      requires repo.Valid()
      modifies repo, store, bus
      ensures repo.Valid() && bus.created == old(bus.created)
      ensures err == Some(MissingId) <==> event.jobId == "" && event.payloadId in {None, Some("")}
      ensures err == Some(MissingId) ==>
                && repo.rows == old(repo.rows) && repo.artifacts == old(repo.artifacts)
                && bus.subjects == old(bus.subjects) && bus.reports == old(bus.reports)
                && store.files == old(store.files)
      ensures event.jobId != "" ==> Handled(event.jobId, fate, err)
      ensures event.jobId == "" && event.payloadId.Some? && event.payloadId.value != "" ==>
                Handled(event.payloadId.value, fate, err)
    {
      hide RunFrom;
      var id := event.jobId;
      if id == "" {
        if event.payloadId.Some? {
          id := event.payloadId.value;
        }
      }
      if id == "" {
        return Some(MissingId);
      }
      Unroll(RecordAt(repo, bus, id), store.files, id, W.Fetching, fate, 0);
      var fetched := repo.GetJobByID(id, fate(0), fate(0));
      if fetched.Err? {
        Ended(RecordAt(repo, bus, id), store.files, id, W.Unclaimed(fetched.error), fate, 1);
        return Some(NotClaimed(fetched.error));
      }
      ghost var outcome;
      err, outcome := Work(id, fetched.value.0.job, fate);
    }
  }

  /** The error HandleJobCreated returns for an outcome of the run. */
  function ErrorOf(outcome: W.Outcome): Option<WorkerError> {
    match outcome
    case Unclaimed(error) => Some(NotClaimed(error))
    case Succeeded(_) => None
    case CompletionLost(_, error) => Some(CompleteFailed(error))
    case Errored(reason, _) => Some(ProcessFailed(reason))
  }
}
