/** An upload whose rollback fails can leave a row without its source: the hypothesis on rollbacks in the
    theorem on dangling references is needed. */
module RollbackFailure {
  import opened Domain
  import opened Ports
  import opened Protocol
  import opened SoloRuns
  import opened Uploads
  import U = UploadSteps
  import Media

  /** Publishing fails, and so does the rollback that deletes the row; the one that deletes the file works. */
  const ROW_STAYS: Fates := k => if k == 2 || k == 3 then Fault else Success

  lemma RowStays(now: Time, uid: Uid, p: U.Phase)
    requires p.Storing? && p.mediaType != "" && p.size > 0 && p.ttl > 0
    ensures var job := Job(uid, p.mediaType, p.size, now, now + p.ttl);
            UploadFrom(BLANK, {}, now, uid, p, ROW_STAYS, 0) ==
            UploadEnding(Registered(BLANK, job), {}, false, false, U.Rejected(U.PublishFailed))
  {
    hide UploadFrom;
    var job := Job(uid, p.mediaType, p.size, now, now + p.ttl);
    var stored, rec := {} + {Source(uid)}, Registered(BLANK, job);
    UnrollUpload(BLANK, {}, now, uid, p, ROW_STAYS, 0);
    UnrollUpload(BLANK, stored, now, uid, U.Registering(job), ROW_STAYS, 1);
    UnrollUpload(rec, stored, now, uid, U.Announcing(job), ROW_STAYS, 2);
    UnrollUpload(rec, stored, now, uid, U.Unregistering(job), ROW_STAYS, 3);
    UnstoreEnds(rec, stored, now, uid, U.PublishFailed, ROW_STAYS, 4);
    assert stored - {Source(uid)} == {};
  }

  /** For every request that passes validation there is a run that leaves its row, fresh and not expired,
      without its source. */
  lemma FailedRollbackDangles(clock: Time, id: JobId, uid: Uid, req: U.Request, ttl: int)
    returns (a: State, steps: seq<Step>, s: State)
    requires PassesChecks(req) && ttl > 0
    ensures Init(a) && a.clock == clock && Leads(a, steps, s)
    ensures id in s.jobs && s.jobs[id].row.Some? && s.jobs[id].row.value.job.expiresAt > s.clock
    ensures s.jobs[id].row.value.job.FilePath() == Source(uid) && Source(uid) !in s.files
  {
    hide Enabled, Next, Leads, UploadFrom, Media.IsSupportedMediaType, Media.Normalize;
    var s1;
    a, s1 := Started(clock, id, uid, req, ttl);
    SupportedByName(req.mediaType);
    AcceptedType(req.mediaType);
    RowStays(clock, uid, U.Intake(req, ttl));
    var more;
    more, s := UploadIsProtocolRun(s1, id, ROW_STAYS, 0);
    Joined(a, [StartUpload(id, uid, req, ttl)], s1, more, s);
    steps := [StartUpload(id, uid, req, ttl)] + more;
  }
}
