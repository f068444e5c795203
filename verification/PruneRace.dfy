/** A sweep that lists a job still being processed leaves the files of that run behind, though no call
    fails: the hypothesis on listings in the theorems on leaked files is needed. */
module PruneRace {
  import opened Prelude
  import opened Domain
  import opened Ports
  import opened Protocol
  import opened JobView
  import opened JobInvariant
  import opened Lifecycle
  import opened References
  import opened Leaks
  import opened SoloRuns
  import opened Uploads
  import opened Janitor
  import J = JanitorSteps
  import U = UploadSteps
  import W = WorkerSteps
  import Media
  import Strings

  lemma {:induction false} NonePersisted(rec: Record, files: set<Path>, id: JobId, result: seq<Artifact>, next: nat,
                                         k: nat)
    requires next <= |result| && rec.row.None?
    ensures RunFrom(rec, files, id, W.AfterPersist(result, next), ALWAYS, k) ==
            Ending(rec, files, W.CompletionLost(result, NotFound))
    decreases |result| - next
  {
    hide RunFrom;
    if next == |result| {
      Unroll(rec, files, id, W.Completing(result), ALWAYS, k);
      Ended(rec, files, id, W.CompletionLost(result, NotFound), ALWAYS, k + 1);
    } else {
      Unroll(rec, files, id, W.Persisting(result, next), ALWAYS, k);
      NonePersisted(rec, files, id, result, next + 1, k + 1);
    }
  }

  /** Wherever a run has files to save and its row is gone, it can go on to store the rest of its files and
      finish, and nothing ever names them. */
  lemma OrphanedRunLeaks(a: State, before: seq<Step>, s: State, r: nat) returns (steps: seq<Step>, s': State)
    requires Reaches(a, before, s) && r in s.runs && s.runs[r].phase.Saving?
    requires s.runs[r].phase.done < |s.runs[r].phase.proc.Plan()|
    requires s.runs[r].id in s.jobs && s.jobs[s.runs[r].id].row.None?
    ensures Leads(s, steps, s') && steps == Script(ByRun(r), ALWAYS, 0, |steps|)
    ensures r in s'.runs && s'.runs == s.runs[r := s'.runs[r]] && s'.runs[r].phase.Finished?
    ensures s'.uploads == s.uploads && s'.sweeps == s.sweeps
    ensures var phase := s.runs[r].phase;
            var x := Product(phase.job.uid, phase.proc.Plan()[phase.done]);
               x in s'.files && !Referenced(s', x)
  {
    hide Inv, Leads, RunFrom, W.Next, Enabled, Next, UploadFits, RowFits, UnclaimedFits;
    var id, phase := s.runs[r].id, s.runs[r].phase;
    var rec, job, proc := s.jobs[id], phase.job, phase.proc;
    ReachesInv(a, before, s);
    RunFactsAt(s, r);
    FactsAt(s, id);
    ClaimedCarries(id, phase, rec, s.past[id]);
    SavedUpTo(rec, s.files, id, job, proc, phase.done, |proc.Plan()|, ALWAYS, 0);
    var result := proc.Produced(id, job.uid, |proc.Plan()|);
    var files', n := s.files + Products(job, proc, phase.done, |proc.Plan()|), |proc.Plan()| - phase.done;
    Returned(rec, files', id, job, proc, ALWAYS, n);
    NonePersisted(rec, files', id, result, 0, n + 1);
    steps, s' := RunIsProtocolRun(s, r, ALWAYS, 0);
    var x := Product(job.uid, proc.Plan()[phase.done]);
    assert x in Products(job, proc, phase.done, |proc.Plan()|);
    LeadsKeeps(s, steps, s');
    UploadUid(s.uploads[id], s.past[id]);
    if Referenced(s', x) {
      var other :| other in s'.jobs && Names(s'.jobs[other], x);
      NamedOwn(s', other, x);
      if other != id {
        UidsDiffer(s', other, id);
      }
    }
  }

  // ---- a run that gets there ----

  /** The run with id `id` is at phase `p`; everything but the job's record is as in `s`. */
  ghost predicate At(s: State, s': State, r: nat, id: JobId, p: W.Phase) {
    && id in s'.jobs && id in s'.past && s'.jobs == s.jobs[id := s'.jobs[id]] && s'.files == s.files
    && s'.runs == s.runs[r := Run(id, p)]
    && s'.uploads == s.uploads && s'.queue == s.queue && s'.clock == s.clock && s'.sweeps == s.sweeps
  }

  lemma Advance(s: State, steps: seq<Step>, m: State, r: nat, id: JobId, p: W.Phase) returns (s': State)
    requires At(s, m, r, id, p) && Leads(s, steps, m) && !p.Finished? && W.Saved(p, Success) == {}
    ensures var (rec', p') := W.Next(m.jobs[id], s.files, id, p, Success);
            At(s, s', r, id, p') && s'.jobs[id] == rec'
    ensures Leads(s, steps + [WorkerCall(r, Success)], s')
  {
    hide Enabled, Next, W.Next, W.Saved, Leads;
    s' := RunStep(m, r, Success);
    Append(s, steps, m, WorkerCall(r, Success));
    assert m.files + {} == m.files;
    assert s'.jobs == s.jobs[id := s'.jobs[id]];
  }

  /** A delivered event of a pending job takes its run to its first save. */
  lemma ToSaving(s: State, r: nat, id: JobId, job: Job, proc: Media.Processor) returns (steps: seq<Step>, s': State)
    requires r in s.runs && s.runs[r] == Run(id, W.Fetching) && id in s.jobs && id in s.past
    requires s.jobs[id] == BLANK.(row := Some(Row(job, Pending, None))) && job.FilePath() in s.files
    requires Media.FirstMatch(Media.PROCESSORS, job.mediaType) == Some(proc)
    ensures Leads(s, steps, s') && At(s, s', r, id, W.Saving(job, proc, 0))
    ensures forall step :: step in steps ==> step == WorkerCall(r, Success)
    ensures s'.jobs[id].row == Some(Row(job, Processing, None)) && s'.jobs[id].arts == []
  {
    hide Enabled, Next, Leads, At, Media.FirstMatch;
    var none, m0 := Idle(s);
    Stands(s, r, id);
    var m1 := Advance(s, none, m0, r, id, W.Fetching);
    var t1 := none + [WorkerCall(r, Success)];
    var m2 := Advance(s, t1, m1, r, id, W.Claiming(job));
    var t2 := t1 + [WorkerCall(r, Success)];
    var m3 := Advance(s, t2, m2, r, id, W.Announcing(job));
    var t3 := t2 + [WorkerCall(r, Success)];
    var m4 := Advance(s, t3, m3, r, id, W.Progressing(job, proc));
    var t4 := t3 + [WorkerCall(r, Success)];
    s' := Advance(s, t4, m4, r, id, W.Opening(job, proc));
    steps := t4 + [WorkerCall(r, Success)];
  }

  lemma Stands(s: State, r: nat, id: JobId)
    requires r in s.runs && s.runs[r] == Run(id, W.Fetching) && id in s.jobs && id in s.past
    ensures At(s, s, r, id, W.Fetching)
  {
    assert s.jobs == s.jobs[id := s.jobs[id]] && s.runs == s.runs[r := s.runs[r]];
  }

  /** The step is no failing call, and no loss of an event. */
  predicate Succeeds(step: Step) {
    match step
    case Lose(_) => false
    case StreamMove(_, Read(c, _)) => c.Success?
    case StreamMove(_, Subscribe(c)) => c.Success?
    case StreamMove(_, Loss) => false
    case UploadCall(_, c) => c.Success?
    case WorkerCall(_, c) => c.Success?
    case SweepCall(_, c) => c.Success?
    case List(_, _, c) => c.Success?
    case Fetch(_, c) => c.Success?
    case _ => true
  }

  ghost predicate AllSucceed(steps: seq<Step>) {
    forall step :: step in steps ==> Succeeds(step)
  }

  lemma ScriptSucceeds(m: Mover, n: nat)
    ensures AllSucceed(Script(m, ALWAYS, 0, n))
  {
    var script := Script(m, ALWAYS, 0, n);
    forall step | step in script
      ensures Succeeds(step)
    {
      var i :| 0 <= i < |script| && script[i] == step;
      assert step == m.Call(ALWAYS(i));
    }
  }

  lemma BothSucceed(steps: seq<Step>, more: seq<Step>)
    requires AllSucceed(steps) && AllSucceed(more)
    ensures AllSucceed(steps + more)
  {
  }

  /** A system with this one accepted upload, and its event under way. */
  lemma Uploaded(clock: Time, id: JobId, uid: Uid, req: U.Request, ttl: int)
    returns (a: State, steps: seq<Step>, s: State, job: Job)
    requires PassesChecks(req) && ttl > 0
    ensures Reaches(a, steps, s) && AllSucceed(steps)
    ensures job.FilePath() == Source(uid) && job.mediaType == Media.Normalize(req.mediaType)
    ensures s.clock == clock && s.runs == map[] && s.sweeps == map[] && s.queue == multiset{id}
    ensures s.streams == map[] && s.files == {Source(uid)}
    ensures s.jobs == map[id := Registered(BLANK, job)]
    ensures s.uploads == map[id := Upload(uid, U.Finished(U.Accepted(job)))]
  {
    hide Enabled, Next, Leads, U.Intake, UploadFrom, AllSucceed, Media.IsSupportedMediaType, Media.Normalize;
    hide Strings.NamesWord;
    var s1;
    a, s1 := Started(clock, id, uid, req, ttl);
    AllOrNothing(BLANK, {}, clock, uid, req, ttl, ALWAYS);
    Media.AcceptedSpellings(req.mediaType);
    var more;
    more, s := UploadIsProtocolRun(s1, id, ALWAYS, 0);
    StartSucceeds(id, uid, req, ttl);
    ScriptSucceeds(ByUpload(id), |more|);
    BothSucceed([StartUpload(id, uid, req, ttl)], more);
    Joined(a, [StartUpload(id, uid, req, ttl)], s1, more, s);
    steps := [StartUpload(id, uid, req, ttl)] + more;
    job := s.uploads[id].phase.outcome.job;
    assert {} + {Source(uid)} == {Source(uid)};
  }

  lemma StartSucceeds(id: JobId, uid: Uid, req: U.Request, ttl: int)
    ensures AllSucceed([StartUpload(id, uid, req, ttl)])
  {
  }

  /** The event is delivered and processing has begun. */
  lemma Begun(a: State, before: seq<Step>, s: State, id: JobId, uid: Uid, job: Job)
    returns (steps: seq<Step>, s': State, proc: Media.Processor)
    requires Reaches(a, before, s) && AllSucceed(before)
    requires job.FilePath() == Source(uid) && IsAccepted(job.mediaType)
    requires s.runs == map[] && s.sweeps == map[] && s.queue == multiset{id} && s.files == {Source(uid)}
    requires s.jobs == map[id := Registered(BLANK, job)]
    ensures Reaches(a, steps, s') && AllSucceed(steps)
    ensures s'.runs == map[0 := Run(id, W.Saving(job, proc, 0))] && s'.sweeps == map[] && s'.clock == s.clock
    ensures s'.uploads == s.uploads
    ensures s'.jobs.Keys == {id} && s'.jobs[id].row == Some(Row(job, Processing, None)) && s'.jobs[id].arts == []
  {
    hide Enabled, Next, Leads, Inv, Media.FirstMatch, IsAccepted, AllSucceed, At;
    ReachesInv(a, before, s);
    KeysAt(s);
    JobLocal.AcceptedIsChosen(job.mediaType);
    proc := Media.FirstMatch(Media.PROCESSORS, job.mediaType).value;
    var s1 := Delivered(s, id);
    var more;
    more, s' := ToSaving(s1, 0, id, job, proc);
    Joined(s, [Deliver(0, id)], s1, more, s');
    Joined(a, before, s, [Deliver(0, id)] + more, s');
    steps := before + ([Deliver(0, id)] + more);
    DeliverSucceeds(id, more);
    BothSucceed(before, [Deliver(0, id)] + more);
    AtOnly(s1, s', id, W.Saving(job, proc, 0));
  }

  lemma Delivered(s: State, id: JobId) returns (s': State)
    requires s.runs == map[] && id in s.queue
    ensures s' == s.(queue := s.queue - multiset{id}, runs := map[0 := Run(id, W.Fetching)])
    ensures Leads(s, [Deliver(0, id)], s')
  {
    s' := Single(s, Deliver(0, id));
  }

  lemma DeliverSucceeds(id: JobId, more: seq<Step>)
    requires forall step :: step in more ==> step == WorkerCall(0, Success)
    ensures AllSucceed([Deliver(0, id)] + more)
  {
  }

  lemma AtOnly(s: State, s': State, id: JobId, p: W.Phase)
    requires At(s, s', 0, id, p) && s.jobs.Keys == {id} && s.runs.Keys == {0}
    ensures s'.jobs.Keys == {id} && s'.runs == map[0 := Run(id, p)] && s'.sweeps == s.sweeps && s'.clock == s.clock
    ensures s'.uploads == s.uploads
  {
  }

  /** The job expires and a sweep lists and deletes it. */
  lemma Swept(a: State, before: seq<Step>, s: State, id: JobId, job: Job)
    returns (steps: seq<Step>, s': State)
    requires Reaches(a, before, s) && AllSucceed(before)
    requires s.sweeps == map[] && s.jobs.Keys == {id}
    requires s.jobs[id].row == Some(Row(job, Processing, None)) && s.jobs[id].arts == []
    ensures Reaches(a, steps, s') && AllSucceed(steps)
    ensures s'.runs == s.runs && s'.uploads == s.uploads && s'.sweeps == map[0 := J.Finished(1)]
    ensures s'.jobs.Keys == {id} && s'.jobs[id].row == None
  {
    hide Enabled, Next, Leads, AllSucceed, WithoutRows;
    var d := if job.expiresAt > s.clock then job.expiresAt - s.clock else 0;
    var page := [J.Snapshot(id, s.jobs[id].row.value, [])];
    var s1, listing := Listed(s, id, job, d, page);
    var cleared;
    cleared, s' := SweepIsProtocolRun(s1, 0, page, 0, ALWAYS, 0);
    GoneOne(page, 0);
    DeletedOne(s1.jobs, id);
    Joined(s, listing, s1, cleared, s');
    Joined(a, before, s, listing + cleared, s');
    steps := before + (listing + cleared);
    ScriptSucceeds(BySweep(0), |cleared|);
    BothSucceed(listing, cleared);
    BothSucceed(before, listing + cleared);
    assert s1.sweeps[0 := J.Finished(1)] == map[0 := J.Finished(1)];
  }

  lemma DeletedOne(jobs: J.Jobs, id: JobId)
    requires jobs.Keys == {id}
    ensures WithoutRows(jobs, {id}).Keys == {id} && WithoutRows(jobs, {id})[id].row == None
  {
  }

  lemma Listed(s: State, id: JobId, job: Job, d: nat, page: seq<J.Snapshot>) returns (s': State, steps: seq<Step>)
    requires s.sweeps == map[] && s.jobs.Keys == {id} && s.clock + d >= job.expiresAt
    requires s.jobs[id].row == Some(Row(job, Processing, None)) && s.jobs[id].arts == []
    requires page == [J.Snapshot(id, s.jobs[id].row.value, [])]
    ensures Leads(s, steps, s') && AllSucceed(steps)
    ensures s' == s.(clock := s.clock + d, sweeps := map[0 := J.Clearing(page, 0, 0)])
  {
    hide Leads;
    var s1 := Single(s, Tick(d));
    var s2 := Single(s1, StartSweep(0, 1));
    PageOfOne(s2.jobs, s2.clock, id, page);
    hide Enabled, Next;
    var queries;
    queries, s' := ListingIsProtocolRun(s2, 0, page);
    assert s2.sweeps[0 := J.Clearing(page, 0, 0)] == map[0 := J.Clearing(page, 0, 0)];
    Joined(s1, [StartSweep(0, 1)], s2, queries, s');
    Joined(s, [Tick(d)], s1, [StartSweep(0, 1)] + queries, s');
    steps := [Tick(d)] + ([StartSweep(0, 1)] + queries);
  }

  lemma PageOfOne(jobs: J.Jobs, now: Time, id: JobId, page: seq<J.Snapshot>)
    requires jobs.Keys == {id} && J.Expired(jobs, now, id) && page == [J.SnapshotOf(jobs, id)]
    ensures J.IsExpiredPage(jobs, now, 1, page)
  {
    assert page[0].id == id;
    assert J.Listed(page, id);
  }

  lemma GoneOne(page: seq<J.Snapshot>, k: nat)
    requires |page| == 1
    ensures GoneIds(page, ALWAYS, k) == {page[0].id} && Deletions(page, ALWAYS, k) == 1
  {
    assert page[1..] == [];
  }

  /** For every request that passes validation there is a run in which no call fails and which comes to rest
      with a stored file that no row names: the sweep listed the job while it was being processed. */
  lemma PruneRaceLeaks(clock: Time, id: JobId, uid: Uid, req: U.Request, ttl: int)
    returns (a: State, steps: seq<Step>, s: State, x: Path)
    requires PassesChecks(req) && ttl > 0
    ensures Reaches(a, steps, s) && AllSucceed(steps) && AtRest(s)
    ensures x in s.files && !Referenced(s, x)
  {
    hide Leads, AllSucceed, Inv, Referenced, IsAccepted;
    var t1, s1, job;
    a, t1, s1, job := Uploaded(clock, id, uid, req, ttl);
    AcceptedForm(req);
    var t2, s2, proc := Begun(a, t1, s1, id, uid, job);
    var t3, s3 := Swept(a, t2, s2, id, job);
    var more;
    more, s := OrphanedRunLeaks(a, t3, s3, 0);
    x := Product(job.uid, proc.Plan()[0]);
    steps := t3 + more;
    Joined(a, t3, s3, more, s);
    ScriptSucceeds(ByRun(0), |more|);
    BothSucceed(t3, more);
  }

  lemma AcceptedForm(req: U.Request)
    requires PassesChecks(req)
    ensures IsAccepted(Media.Normalize(req.mediaType))
  {
    SupportedByName(req.mediaType);
    Media.NormalizeIdempotent(req.mediaType);
    hide Media.Normalize, NamesSupported;
  }
}
