/** Streams that can no longer end, as StreamEnds says, are reachable: one that reads the row before its job is
    processed and subscribes afterwards, though no call fails; and one whose job's final update fails. */
module MissedEvents {
  import opened Prelude
  import opened Domain
  import opened Ports
  import opened Protocol
  import opened JobInvariant
  import opened Lifecycle
  import opened SoloRuns
  import opened Uploads
  import opened PruneRace
  import opened StreamEnds
  import S = StreamSteps
  import U = UploadSteps
  import W = WorkerSteps
  import JobLocal
  import JobView
  import Media

  /** A stream opens on a pending job and shows it; then the job's event is delivered. */
  lemma Shown(s: State, id: JobId, job: Job) returns (steps: seq<Step>, s': State)
    requires s.streams == map[] && s.runs == map[] && id in s.queue
    requires s.jobs == map[id := Registered(BLANK, job)]
    ensures Leads(s, steps, s') && AllSucceed(steps)
    ensures s'.runs == map[0 := Run(id, W.Fetching)] && s'.streams == map[0 := AboutToSubscribe(id)]
    ensures s'.jobs == s.jobs && s'.files == s.files && s'.past == s.past
  {
    hide Leads;
    var s1 := Single(s, OpenStream(0, id));
    var s2 := Single(s1, StreamMove(0, S.Read(Success, true)));
    assert [] + [Pending] == [Pending];
    assert s2.streams == map[0 := AboutToSubscribe(id)];
    s' := Single(s2, Deliver(0, id));
    Joined(s1, [StreamMove(0, S.Read(Success, true))], s2, [Deliver(0, id)], s');
    Joined(s, [OpenStream(0, id)], s1, [StreamMove(0, S.Read(Success, true))] + [Deliver(0, id)], s');
    steps := [OpenStream(0, id)] + ([StreamMove(0, S.Read(Success, true))] + [Deliver(0, id)]);
  }

  /** The stream has shown the pending job and is about to subscribe. */
  function AboutToSubscribe(id: JobId): S.Stream {
    S.Opened(id).(shown := [Pending], phase := S.Subscribing)
  }

  /** The stream subscribes; nothing published before is on its way to it. */
  lemma Subscribing(s: State, id: JobId) returns (s': State)
    requires s.streams == map[0 := AboutToSubscribe(id)] && id in s.jobs
    ensures Leads(s, [StreamMove(0, S.Subscribe(Success))], s')
    ensures s' == s.(streams := s'.streams) && 0 in s'.streams && s'.streams[0].id == id
    ensures S.Subscribed(s'.streams[0]) && !Awaiting(s', 0) && s'.streams[0].cursor == |s.jobs[id].log|
  {
    s' := Single(s, StreamMove(0, S.Subscribe(Success)));
  }

  lemma RunsToEnd(s: State, id: JobId, uid: Uid, job: Job) returns (steps: seq<Step>, s': State)
    requires job.FilePath() == Source(uid) && JobView.IsAccepted(job.mediaType)
    requires s.runs == map[0 := Run(id, W.Fetching)] && id in s.past
    requires s.jobs == map[id := Registered(BLANK, job)] && Source(uid) in s.files
    ensures Leads(s, steps, s') && AllSucceed(steps)
    ensures id in s'.jobs && Concluded(s'.jobs[id]) && s'.streams == s.streams
    ensures 0 in s'.runs && s'.runs[0].id == id && s'.runs[0].phase.Finished? && s'.runs[0].phase.outcome.Succeeded?
  {
    hide Leads, RunFrom, AllSucceed, JobView.IsAccepted, Media.FirstMatch;
    JobLocal.AcceptedIsChosen(job.mediaType);
    var proc := Media.FirstMatch(Media.PROCESSORS, job.mediaType).value;
    NothingFails(s.jobs[id], s.files, id, job, proc, ALWAYS);
    steps, s' := RunIsProtocolRun(s, 0, ALWAYS, 0);
    ScriptSucceeds(ByRun(0), |steps|);
  }

  /** A run that finished past its claim is the one that claimed the job. */
  lemma FinishedIsOver(s: State, r: nat)
    requires Inv(s) && r in s.runs && s.runs[r].phase.Finished? && !s.runs[r].phase.outcome.Unclaimed?
    ensures Over(s, s.runs[r].id)
  {
    hide Inv;
    RunFactsAt(s, r);
  }

  /** For every request that passes validation there is a run in which no call fails, which comes to a completed
      job and a subscribed stream that can no longer end unless its client disconnects. */
  lemma StreamMissesEvents(clock: Time, id: JobId, uid: Uid, req: U.Request, ttl: int)
    returns (a: State, steps: seq<Step>, s: State)
    requires PassesChecks(req) && ttl > 0
    ensures Reaches(a, steps, s) && AllSucceed(steps)
    ensures 0 in s.streams && s.streams[0].id == id && S.Subscribed(s.streams[0]) && !Awaiting(s, 0)
    ensures Over(s, id) && Concluded(s.jobs[id]) && !CanEnd(s, 0)
  {
    hide Leads, AllSucceed, Inv, JobView.IsAccepted, Over, CanEnd, Awaiting, Concluded;
    var t1, s1, job;
    a, t1, s1, job := Uploaded(clock, id, uid, req, ttl);
    AcceptedForm(req);
    ReachesInv(a, t1, s1);
    KeysAt(s1);
    var t2, s2 := Shown(s1, id, job);
    var t3, s3 := RunsToEnd(s2, id, uid, job);
    Joined(s1, t2, s2, t3, s3);
    Joined(a, t1, s1, t2 + t3, s3);
    var t := t1 + (t2 + t3);
    s := Subscribing(s3, id);
    var late := [StreamMove(0, S.Subscribe(Success))];
    Joined(a, t, s3, late, s);
    steps := t + late;
    SubscribingSucceeds();
    BothSucceed(t2, t3);
    BothSucceed(t1, t2 + t3);
    BothSucceed(t, late);
    ReachesInv(a, steps, s);
    FinishedIsOver(s, 0);
    EndsIffAwaiting(a, steps, s, 0);
  }

  // ---- a lost final update ----

  lemma RunsUntilUpdate(s: State, id: JobId, uid: Uid, job: Job) returns (steps: seq<Step>, s': State)
    requires job.FilePath() == Source(uid) && JobView.IsAccepted(job.mediaType)
    requires s.runs == map[0 := Run(id, W.Fetching)] && id in s.past
    requires s.jobs == map[id := Registered(BLANK, job)] && Source(uid) in s.files
    ensures Leads(s, steps, s') && s'.streams == s.streams
    ensures id in s'.jobs && s'.jobs[id].row == Some(Row(job, Processing, None)) && s'.jobs[id].log == HALFWAY
    ensures 0 in s'.runs && s'.runs[0].id == id && s'.runs[0].phase.Finished?
    ensures s'.runs[0].phase.outcome.CompletionLost?
  {
    hide Leads, RunFrom, JobView.IsAccepted, Media.FirstMatch;
    JobLocal.AcceptedIsChosen(job.mediaType);
    var proc := Media.FirstMatch(Media.PROCESSORS, job.mediaType).value;
    var fate: Fates := k => if k == 6 + 2 * |proc.Plan()| then Fault else Success;
    CompletionFails(s.jobs[id], s.files, id, job, proc, fate);
    steps, s' := RunIsProtocolRun(s, 0, fate, 0);
  }

  /** For every request that passes validation there is a run that comes to a stream with events on their way to
      it which can no longer end unless its client disconnects: the job's run is over, and its row stays
      processing, since the update to completed failed. */
  lemma LostUpdateStrands(clock: Time, id: JobId, uid: Uid, req: U.Request, ttl: int)
    returns (a: State, steps: seq<Step>, s: State)
    requires PassesChecks(req) && ttl > 0
    ensures Reaches(a, steps, s)
    ensures 0 in s.streams && s.streams[0].id == id && S.Subscribed(s.streams[0]) && Awaiting(s, 0)
    ensures Over(s, id) && s.jobs[id].row.Some? && s.jobs[id].row.value.status == Processing && !CanEnd(s, 0)
  {
    hide Leads, AllSucceed, Inv, JobView.IsAccepted, Over, CanEnd;
    var t1, s1, job;
    a, t1, s1, job := Uploaded(clock, id, uid, req, ttl);
    AcceptedForm(req);
    ReachesInv(a, t1, s1);
    KeysAt(s1);
    var t2, s2 := Shown(s1, id, job);
    var s3 := Subscribing(s2, id);
    var t3;
    t3, s := RunsUntilUpdate(s3, id, uid, job);
    var subscribe := [StreamMove(0, S.Subscribe(Success))];
    Joined(s2, subscribe, s3, t3, s);
    Joined(s1, t2, s2, subscribe + t3, s);
    Joined(a, t1, s1, t2 + (subscribe + t3), s);
    steps := t1 + (t2 + (subscribe + t3));
    ReachesInv(a, steps, s);
    FinishedIsOver(s, 0);
    EndsIffAwaiting(a, steps, s, 0);
  }

  lemma SubscribingSucceeds()
    ensures AllSucceed([StreamMove(0, S.Subscribe(Success))])
  {
  }
}
