/** internal/core/upload.go over the ports: ProcessUpload is all or nothing when its rollback calls succeed. */
module Uploads {
  import opened Prelude
  import opened Domain
  import opened Ports
  import opened Adapters
  import opened SoloRuns
  import U = UploadSteps
  import Media
  import Strings

  // ---- the specification ----

  /** What an accepted upload leaves for its job: one pending row naming the stored source. */
  function Registered(rec: Record, job: Job): Record {
    rec.(row := Some(Row(job, Pending, None)))
  }

  ghost predicate PassesChecks(req: U.Request) {
    req.size > 0 && req.hasReader && NamesSupported(req.mediaType)
  }

  /** For every request, clock and pattern of failures, with a fresh job id and file identifier: which error an
      upload is rejected with, if any. */
  lemma RejectedWith(rec: Record, files: set<Path>, now: Time, uid: Uid, req: U.Request, defaultTtl: int, fate: Fates)
    requires rec.row.None? && rec.arts == [] && Source(uid) !in files
    ensures var e := UploadFrom(rec, files, now, uid, U.Intake(req, defaultTtl), fate, 0);
            var ttl := if req.ttl <= 0 then defaultTtl else req.ttl;
            var error :=
              if req.size <= 0 || !req.hasReader then Some(U.Invalid)
              else if !NamesSupported(req.mediaType) then Some(U.UnsupportedType)
              else if fate(0) != Success then Some(U.SaveFailed)
              else if ttl <= 0 then Some(U.Invalid)
              else if fate(1) != Success then Some(U.CreateFailed)
              else if fate(2) != Success then Some(U.PublishFailed)
              else None;
            if error.Some? then e.outcome == U.Rejected(error.value) else e.outcome.Accepted?
  {
    hide Media.IsSupportedMediaType, Media.Normalize, NamesSupported;
    SupportedByName(req.mediaType);
    var phase := U.Intake(req, defaultTtl);
    if phase.Storing? {
      AcceptedType(req.mediaType);
      StoredRejectedWith(rec, files, now, uid, phase, fate);
    }
  }

  /** One of the six words, in any letter case and with any space around it. */
  ghost predicate NamesSupported(mediaType: string) {
    exists t | t in {"image/png", "image/jpeg", "image/jpg", "image/webp", "image/gif", "application/pdf"} ::
      Strings.NamesWord(mediaType, t)
  }

  lemma SupportedByName(mediaType: string)
    ensures Media.IsSupportedMediaType(Media.Normalize(mediaType)) <==> NamesSupported(mediaType)
    ensures NamesSupported(mediaType) ==>
              Strings.NamesWord(mediaType, Media.Normalize(mediaType))
  {
    Media.AcceptedSpellings(mediaType);
    hide Strings.NamesWord, Media.Normalize;
  }

  lemma StoredRejectedWith(rec: Record, files: set<Path>, now: Time, uid: Uid, p: U.Phase, fate: Fates)
    requires rec.row.None? && rec.arts == [] && Source(uid) !in files
    requires p.Storing? && p.mediaType != "" && p.size > 0
    ensures var e := UploadFrom(rec, files, now, uid, p, fate, 0);
            if fate(0) != Success then e.outcome == U.Rejected(U.SaveFailed)
            else if p.ttl <= 0 then e.outcome == U.Rejected(U.Invalid)
            else if fate(1) != Success then e.outcome == U.Rejected(U.CreateFailed)
            else if fate(2) != Success then e.outcome == U.Rejected(U.PublishFailed)
            else e.outcome.Accepted?
  {
    hide UploadFrom;
    UnrollUpload(rec, files, now, uid, p, fate, 0);
    if fate(0) != Success {
      UnrollUpload(rec, files, now, uid, U.Finished(U.Rejected(U.SaveFailed)), fate, 1);
    } else {
      var stored, job := files + {Source(uid)}, Job(uid, p.mediaType, p.size, now, now + p.ttl);
      if p.ttl <= 0 {
        UnstoreEnds(rec, stored, now, uid, U.Invalid, fate, 1);
      } else {
        UnrollUpload(rec, stored, now, uid, U.Registering(job), fate, 1);
        if fate(1) != Success {
          UnstoreEnds(rec, stored, now, uid, U.CreateFailed, fate, 2);
        } else {
          AnnouncedRejectedWith(Registered(rec, job), stored, now, uid, job, fate);
        }
      }
    }
  }

  lemma AnnouncedRejectedWith(rec: Record, files: set<Path>, now: Time, uid: Uid, job: Job, fate: Fates)
    ensures UploadFrom(rec, files, now, uid, U.Announcing(job), fate, 2).outcome ==
            if fate(2) == Success then U.Accepted(job) else U.Rejected(U.PublishFailed)
  {
    hide UploadFrom;
    UnrollUpload(rec, files, now, uid, U.Announcing(job), fate, 2);
    if fate(2) == Success {
      UnrollUpload(rec, files, now, uid, U.Finished(U.Accepted(job)), fate, 3);
    } else {
      var rec' := if fate(3).Success? then DeleteJob(rec) else rec;
      UnrollUpload(rec, files, now, uid, U.Unregistering(job), fate, 3);
      UnstoreEnds(rec', files, now, uid, U.PublishFailed, fate, 4);
    }
  }

  /** With a fresh job id and file identifier: an upload is accepted exactly when its size is positive, there is a
      reader, its media type is one of the six, its time to live is positive and none of its first three calls fails;
      it then adds exactly its source, one pending row naming it and one created event. A rejected upload announces
      nothing. Each thing it had written stays exactly if the rollback call for it fails, so rows and files are as they
      were exactly when none of its rollback calls failed. */
  lemma AllOrNothing(rec: Record, files: set<Path>, now: Time, uid: Uid, req: U.Request, defaultTtl: int, fate: Fates)
    requires rec.row.None? && rec.arts == [] && Source(uid) !in files
    ensures var e := UploadFrom(rec, files, now, uid, U.Intake(req, defaultTtl), fate, 0);
            var ttl := if req.ttl <= 0 then defaultTtl else req.ttl;
            && (e.outcome.Accepted? <==>
                  && req.size > 0 && req.hasReader && NamesSupported(req.mediaType) && ttl > 0
                  && fate(0) == fate(1) == fate(2) == Success)
            && (e.outcome.Accepted? ==>
                  var job := e.outcome.job;
                  && Strings.NamesWord(req.mediaType, job.mediaType)
                  && job.mediaType in
                     {"image/png", "image/jpeg", "image/jpg", "image/webp", "image/gif", "application/pdf"}
                  && job.FilePath() == Source(uid) && job.size == req.size
                  && job.createdAt == now && job.expiresAt == now + ttl
                  && e.rec == rec.(row := Some(Row(job, Pending, None))) && e.files == files + {Source(uid)}
                  && e.announced)
            && (e.outcome.Rejected? ==> !e.announced)
            && (e.outcome.Rejected? ==> (e.clean <==> e.rec == rec && e.files == files))
  {
    hide Media.IsSupportedMediaType, Media.Normalize, NamesSupported, Strings.NamesWord;
    SupportedByName(req.mediaType);
    SupportedTypes(req.mediaType);
    var phase := U.Intake(req, defaultTtl);
    if phase.Storing? {
      AcceptedType(req.mediaType);
      StoredAllOrNothing(rec, files, now, uid, phase, fate);
    }
  }

  lemma SupportedTypes(mediaType: string)
    ensures Media.IsSupportedMediaType(Media.Normalize(mediaType)) ==>
              Media.Normalize(mediaType) in
              {"image/png", "image/jpeg", "image/jpg", "image/webp", "image/gif", "application/pdf"}
  {
    Media.NormalizeIdempotent(mediaType);
    hide Media.Normalize;
  }

  /** What is left behind by an upload that fails after its file was saved, and which rollback calls it made: its file
      stays exactly if the last of them fails, its row exactly if there was one and the call before fails. */
  lemma LeftBehind(rec: Record, files: set<Path>, now: Time, uid: Uid, req: U.Request, defaultTtl: int, fate: Fates)
    requires rec.row.None? && rec.arts == [] && Source(uid) !in files
    requires req.size > 0 && req.hasReader && NamesSupported(req.mediaType) && fate(0) == Success
    ensures var e := UploadFrom(rec, files, now, uid, U.Intake(req, defaultTtl), fate, 0);
            var ttl := if req.ttl <= 0 then defaultTtl else req.ttl;
            && (ttl <= 0 ==>
                  e.rec == rec && (Source(uid) in e.files <==> fate(1) != Success))
            && (ttl > 0 && fate(1) != Success ==>
                  e.rec == rec && (Source(uid) in e.files <==> fate(2) != Success))
            && (ttl > 0 && fate(1) == Success && fate(2) != Success ==>
                  (e.rec.row.Some? <==> fate(3) != Success) && (Source(uid) in e.files <==> fate(4) != Success))
            && (forall x :: x != Source(uid) ==> (x in e.files <==> x in files))
  {
    hide Media.IsSupportedMediaType, Media.Normalize, NamesSupported, UploadFrom;
    SupportedByName(req.mediaType);
    AcceptedType(req.mediaType);
    var p := U.Intake(req, defaultTtl);
    var stored, job := files + {Source(uid)}, Job(uid, p.mediaType, p.size, now, now + p.ttl);
    UnrollUpload(rec, files, now, uid, p, fate, 0);
    if p.ttl <= 0 {
      UnstoreEnds(rec, stored, now, uid, U.Invalid, fate, 1);
    } else {
      var rec1 := Registered(rec, job);
      UnrollUpload(rec, stored, now, uid, U.Registering(job), fate, 1);
      if fate(1) != Success {
        UnstoreEnds(rec, stored, now, uid, U.CreateFailed, fate, 2);
      } else {
        UnrollUpload(rec1, stored, now, uid, U.Announcing(job), fate, 2);
        if fate(2) != Success {
          UnrollUpload(rec1, stored, now, uid, U.Unregistering(job), fate, 3);
          UnstoreEnds(if fate(3).Success? then DeleteJob(rec1) else rec1, stored, now, uid, U.PublishFailed, fate, 4);
        } else {
          UnrollUpload(rec1, stored, now, uid, U.Finished(U.Accepted(job)), fate, 3);
        }
      }
    }
  }

  lemma AcceptedType(mediaType: string)
    requires Media.IsSupportedMediaType(Media.Normalize(mediaType))
    ensures Media.Normalize(mediaType) != ""
  {
    Media.NormalizeIdempotent(mediaType);
    hide Media.Normalize;
  }

  lemma StoredAllOrNothing(rec: Record, files: set<Path>, now: Time, uid: Uid, p: U.Phase, fate: Fates)
    requires rec.row.None? && rec.arts == [] && Source(uid) !in files
    requires p.Storing? && p.mediaType != "" && p.size > 0
    ensures var e := UploadFrom(rec, files, now, uid, p, fate, 0);
            && (e.outcome.Accepted? <==> p.ttl > 0 && fate(0) == fate(1) == fate(2) == Success)
            && (e.outcome.Accepted? ==>
                  var job := Job(uid, p.mediaType, p.size, now, now + p.ttl);
                  && e.outcome.job == job && e.rec == Registered(rec, job)
                  && e.files == files + {Source(uid)} && e.announced)
            && (e.outcome.Rejected? ==> !e.announced)
            && (e.outcome.Rejected? ==> (e.clean <==> e.rec == rec && e.files == files))
  {
    hide UploadFrom;
    UnrollUpload(rec, files, now, uid, p, fate, 0);
    var stored := files + {Source(uid)};
    assert stored - {Source(uid)} == files;
    if !fate(0).Success? {
      UnrollUpload(rec, files, now, uid, U.Finished(U.Rejected(U.SaveFailed)), fate, 1);
    } else if p.ttl > 0 {
      RegisteredAllOrNothing(rec, files, now, uid, Job(uid, p.mediaType, p.size, now, now + p.ttl), fate);
    } else {
      UnstoreEnds(rec, stored, now, uid, U.Invalid, fate, 1);
    }
  }

  lemma RegisteredAllOrNothing(rec: Record, files: set<Path>, now: Time, uid: Uid, job: Job, fate: Fates)
    requires rec.row.None? && rec.arts == [] && Source(uid) !in files
    ensures var e := UploadFrom(rec, files + {Source(uid)}, now, uid, U.Registering(job), fate, 1);
            && (e.outcome.Accepted? <==> fate(1) == fate(2) == Success)
            && (e.outcome.Accepted? ==>
                  && e.outcome.job == job && e.rec == Registered(rec, job)
                  && e.files == files + {Source(uid)} && e.announced)
            && (e.outcome.Rejected? ==> !e.announced)
            && (e.outcome.Rejected? ==> (e.clean <==> e.rec == rec && e.files == files))
  {
    hide UploadFrom;
    var stored, rec1 := files + {Source(uid)}, Registered(rec, job);
    assert stored - {Source(uid)} == files && DeleteJob(rec1) == rec;
    UnrollUpload(rec, stored, now, uid, U.Registering(job), fate, 1);
    if !fate(1).Success? {
      UnstoreEnds(rec, stored, now, uid, U.CreateFailed, fate, 2);
    } else {
      UnrollUpload(rec1, stored, now, uid, U.Announcing(job), fate, 2);
      if fate(2).Success? {
        UnrollUpload(rec1, stored, now, uid, U.Finished(U.Accepted(job)), fate, 3);
      } else {
        UnrollUpload(rec1, stored, now, uid, U.Unregistering(job), fate, 3);
        UnstoreEnds(if fate(3).Success? then rec else rec1, stored, now, uid, U.PublishFailed, fate, 4);
      }
    }
  }

  lemma UnstoreEnds(rec: Record, files: set<Path>, now: Time, uid: Uid, cause: U.UploadError, fate: Fates, k: nat)
    ensures UploadFrom(rec, files, now, uid, U.Unstoring(cause), fate, k) ==
            UploadEnding(rec, if fate(k).Success? then files - {Source(uid)} else files, false, fate(k).Success?,
                         U.Rejected(cause))
  {
  }

  // ---- the service ----

  class UploadService {
    const repo: JobRepository
    const store: FileStore
    const bus: EventBus
    const defaultTtl: int

    /** A default time to live that is not positive becomes one hour; times are in nanoseconds. */
    constructor (repo: JobRepository, store: FileStore, bus: EventBus, defaultTtl: int)
      ensures this.repo == repo && this.store == store && this.bus == bus
      ensures this.defaultTtl == if defaultTtl > 0 then defaultTtl else 60 * 60 * 1_000_000_000
    {
      var ttl := defaultTtl;
      if ttl <= 0 {
        ttl := 3_600_000_000_000;
      }
      this.repo, this.store, this.bus, this.defaultTtl := repo, store, bus, ttl;
    }

    /** From the old state, the protocol's upload at phase `p` ends in the new state with result `r`. */
    twostate predicate Follows(id: JobId, uid: Uid, now: Time, p: U.Phase, fate: Fates, k: nat,
                              new r: Result<Job, U.UploadError>)
      reads repo, bus, store
    {
      var e := UploadFrom(old(RecordAt(repo, bus, id)), old(store.files), now, uid, p, fate, k);
      && RecordAt(repo, bus, id) == e.rec && store.files == e.files
      && bus.created == old(bus.created) + (if e.announced then multiset{id} else multiset{})
      && r == match e.outcome case Accepted(job) => Ok(job) case Rejected(error) => Err(error)
    }

    /** The last rollback. */
    method Unstore(id: JobId, uid: Uid, now: Time, cause: U.UploadError, fate: Fates, k: nat)
      returns (r: Result<Job, U.UploadError>)
      modifies store
      ensures Follows(id, uid, now, U.Unstoring(cause), fate, k, r)
    {
      hide UploadFrom, RecordAt;
      UnstoreEnds(RecordAt(repo, bus, id), store.files, now, uid, cause, fate, k);
      var undone := store.Delete(Source(uid), fate(k));
      return Err(cause);
    }

    method Unregister(id: JobId, c: Choice)
      requires repo.Valid()
      modifies repo
      ensures repo.Valid() && OthersKept(repo, bus, id)
      ensures RecordAt(repo, bus, id) ==
              if c.Success? then DeleteJob(old(RecordAt(repo, bus, id))) else old(RecordAt(repo, bus, id))
    {
      forall other {
        ArtifactsWithout(repo.artifacts, id, other);
      }
      var err := repo.DeleteJob(id, c);
    }

    method Insert(id: JobId, job: Job, c: Choice) returns (err: Option<RepoError>)
      requires repo.Valid()
      modifies repo
      ensures repo.Valid() && OthersKept(repo, bus, id)
      ensures match Unless(c, InsertRow(old(RecordAt(repo, bus, id)), Row(job, Pending, None)))
              case Ok(rec) => err.None? && RecordAt(repo, bus, id) == rec
              case Err(e) => err == Some(e) && RecordAt(repo, bus, id) == old(RecordAt(repo, bus, id))
    {
      err := repo.CreateJob(id, job, c);
    }

    method Tell(id: JobId, c: Choice) returns (ok: bool)
      modifies bus
      ensures OthersKept(repo, bus, id) && RecordAt(repo, bus, id) == old(RecordAt(repo, bus, id)) && ok == c.Success?
      ensures bus.created == old(bus.created) + if ok then multiset{id} else multiset{}
    {
      ok := bus.PublishCreated(id, c);
    }

    /** Publish on jobs.created; on failure delete the row, then the file. */
    method Announce(id: JobId, uid: Uid, now: Time, job: Job, fate: Fates) returns (r: Result<Job, U.UploadError>)
      requires repo.Valid()
      modifies repo, store, bus
      ensures repo.Valid() && OthersKept(repo, bus, id) && Follows(id, uid, now, U.Announcing(job), fate, 2, r)
    {
      hide UploadFrom, RecordAt;
      UnrollUpload(RecordAt(repo, bus, id), store.files, now, uid, U.Announcing(job), fate, 2);
      var told := Tell(id, fate(2));
      if told {
        UnrollUpload(RecordAt(repo, bus, id), store.files, now, uid, U.Finished(U.Accepted(job)), fate, 3);
        return Ok(job);
      }
      UnrollUpload(RecordAt(repo, bus, id), store.files, now, uid, U.Unregistering(job), fate, 3);
      Unregister(id, fate(3));
      r := Unstore(id, uid, now, U.PublishFailed, fate, 4);
    }

    method Register(id: JobId, uid: Uid, now: Time, job: Job, fate: Fates) returns (r: Result<Job, U.UploadError>)
      requires repo.Valid()
      modifies repo, store, bus
      ensures repo.Valid() && OthersKept(repo, bus, id) && Follows(id, uid, now, U.Registering(job), fate, 1, r)
    {
      hide UploadFrom, RecordAt;
      UnrollUpload(RecordAt(repo, bus, id), store.files, now, uid, U.Registering(job), fate, 1);
      var err := Insert(id, job, fate(1));
      if err.Some? {
        r := Unstore(id, uid, now, U.CreateFailed, fate, 2);
      } else {
        r := Announce(id, uid, now, job, fate);
      }
    }

    /** `id` and `uid` are the identifiers the call draws, `now` the time it reads. What it leaves for its job,
        on disk and on the bus is what the protocol's upload leaves with the same failures; other jobs are left
        alone. */
    method ProcessUpload(req: U.Request, id: JobId, uid: Uid, now: Time, fate: Fates) returns (r: Result<Job,
                         U.UploadError>)
      requires repo.Valid()
      modifies repo, store, bus
      ensures repo.Valid() && OthersKept(repo, bus, id)
      ensures Follows(id, uid, now, U.Intake(req, defaultTtl), fate, 0, r)
    {
      hide UploadFrom, RecordAt, Media.Normalize, Media.IsSupportedMediaType;
      UnrollUpload(RecordAt(repo, bus, id), store.files, now, uid, U.Intake(req, defaultTtl), fate, 0);
      if req.size <= 0 || !req.hasReader {
        return Err(U.Invalid);
      }
      var mediaType := Media.Normalize(req.mediaType);
      if !Media.IsSupportedMediaType(mediaType) {
        return Err(U.UnsupportedType);
      }
      var ttl := req.ttl;
      if ttl <= 0 {
        ttl := defaultTtl;
      }
      r := Store(id, uid, now, mediaType, req.size, ttl, fate);
    }

    /** Save, then build the job; on failure delete the file. */
    method Store(id: JobId, uid: Uid, now: Time, mediaType: string, size: int, ttl: int, fate: Fates)
      returns (r: Result<Job, U.UploadError>)
      requires repo.Valid()
      modifies repo, store, bus
      ensures repo.Valid() && OthersKept(repo, bus, id)
      ensures Follows(id, uid, now, U.Storing(mediaType, size, ttl), fate, 0, r)
    {
      hide UploadFrom, RecordAt;
      UnrollUpload(RecordAt(repo, bus, id), store.files, now, uid, U.Storing(mediaType, size, ttl), fate, 0);
      var saved := store.Save(Source(uid), fate(0));
      if !saved {
        UnrollUpload(RecordAt(repo, bus, id), store.files, now, uid, U.Finished(U.Rejected(U.SaveFailed)), fate, 1);
        return Err(U.SaveFailed);
      }
      var job := NewJob(mediaType, Some(uid), size, ttl, now);
      if job.Err? {
        r := Unstore(id, uid, now, U.Invalid, fate, 1);
      } else {
        r := Register(id, uid, now, job.value, fate);
      }
    }
  }
}
