/** The inductive invariant of the protocol, whatever calls fail and however processes interleave. */
module JobInvariant {
  import opened Prelude
  import opened Domain
  import opened Ports
  import opened Protocol
  import opened JobView
  import opened JobLocal
  import U = UploadSteps
  import W = WorkerSteps
  import J = JanitorSteps
  import S = StreamSteps
  import Media

  /** Ids and file identifiers are drawn once, by one upload. */
  ghost predicate Identities(ids: set<JobId>, past: set<JobId>, uploads: map<JobId, Upload>, owner: map<Uid, JobId>) {
    && ids == uploads.Keys && past == uploads.Keys
    && (forall id :: id in uploads ==> uploads[id].uid in owner && owner[uploads[id].uid] == id)
    && (forall u :: u in owner ==> owner[u] in uploads && uploads[owner[u]].uid == u)
  }

  ghost predicate QueueFits(queue: multiset<JobId>, past: map<JobId, Past>) {
    forall id :: id in queue ==> id in past && past[id].announced
  }

  /** A run works on an announced job; it is past its claim exactly when it is the claimant. */
  predicate RunFits(past: map<JobId, Past>, r: nat, run: Run) {
    && run.id in past && past[run.id].announced
    && (W.Claimed(run.phase) <==> past[run.id].claimant == Some(r))
    && (run.phase.Claiming? ==> past[run.id].born == Some(run.phase.job))
  }

  predicate ClaimantRuns(runs: map<nat, Run>, id: JobId, p: Past) {
    p.claimant.Some? ==> p.claimant.value in runs && runs[p.claimant.value].id == id
  }

  ghost predicate RunsFit(runs: map<nat, Run>, past: map<JobId, Past>) {
    && (forall r :: r in runs ==> RunFits(past, r, runs[r]))
    && (forall id :: id in past ==> ClaimantRuns(runs, id, past[id]))
  }

  /** A sweep lists only ids somebody drew. */
  ghost predicate TodoKnown(ids: set<JobId>, todo: seq<J.Snapshot>) {
    forall i :: 0 <= i < |todo| ==> todo[i].id in ids
  }

  ghost predicate SweepKnown(ids: set<JobId>, sweep: J.Sweep) {
    && TodoKnown(ids, sweep.Todo()) && (sweep.Fetching? ==> sweep.fetched < |sweep.todo|)
    && (sweep.Clearing? || sweep.Dropping? ==> J.Working(sweep))
  }

  ghost predicate SweepsKnown(ids: set<JobId>, sweeps: map<nat, J.Sweep>) {
    forall k :: k in sweeps ==> SweepKnown(ids, sweeps[k])
  }

  /** The phase of the run that claimed a job. */
  function ClaimOf(runs: map<nat, Run>, p: Past): Option<W.Phase> {
    if p.claimant.Some? && p.claimant.value in runs then Some(runs[p.claimant.value].phase) else None
  }

  ghost predicate FitsAt(s: State, id: JobId)
    requires id in s.uploads && id in s.jobs && id in s.past
  {
    Fits(id, s.uploads[id], s.jobs[id], s.past[id], ClaimOf(s.runs, s.past[id]))
  }

  ghost predicate Shape(s: State) {
    && Identities(s.jobs.Keys, s.past.Keys, s.uploads, s.owner)
    && QueueFits(s.queue, s.past)
    && RunsFit(s.runs, s.past)
    && SweepsKnown(s.jobs.Keys, s.sweeps)
  }

  ghost predicate AllFit(s: State)
    requires Shape(s)
  {
    forall id :: id in s.uploads ==> FitsAt(s, id)
  }

  ghost predicate Inv(s: State) {
    Shape(s) && AllFit(s)
  }

  lemma InitInv(s: State)
    requires Init(s)
    ensures Inv(s)
  {
  }

  lemma QueueKeeps(queue: multiset<JobId>, past: map<JobId, Past>, id: JobId, p': Past)
    requires QueueFits(queue, past) && id in past && PastGrows(past[id], p')
    ensures QueueFits(queue, past[id := p'])
  {
  }

  lemma RunsKeep(runs: map<nat, Run>, past: map<JobId, Past>, id: JobId, p': Past)
    requires RunsFit(runs, past) && id in past && PastGrows(past[id], p') && p'.claimant == past[id].claimant
    ensures RunsFit(runs, past[id := p'])
  {
  }

  lemma RunsKeepCall(runs: map<nat, Run>, past: map<JobId, Past>, r: nat, run': Run, p': Past)
    requires RunsFit(runs, past) && r in runs && run'.id == runs[r].id && run'.id in past
    requires PastGrows(past[run'.id], p') && p'.claimant in {past[run'.id].claimant, Some(r)}
    requires RunFits(past[run'.id := p'], r, run')
    ensures RunsFit(runs[r := run'], past[run'.id := p'])
  {
  }

  // ---- a new upload ----

  lemma RunsKeepNew(runs: map<nat, Run>, past: map<JobId, Past>, id: JobId)
    requires RunsFit(runs, past) && id !in past
    ensures RunsFit(runs, past[id := NO_PAST])
  {
    assert forall r :: r in runs ==> RunFits(past, r, runs[r]);
  }

  lemma IdentitiesNew(uploads: map<JobId, Upload>, owner: map<Uid, JobId>, id: JobId, u: Upload)
    requires Identities(uploads.Keys, uploads.Keys, uploads, owner) && id !in uploads && u.uid !in owner
    ensures var uploads' := uploads[id := u];
            Identities(uploads'.Keys, uploads'.Keys, uploads', owner[u.uid := id])
  {
  }

  lemma IdentitiesKeep(uploads: map<JobId, Upload>, owner: map<Uid, JobId>, id: JobId, u: Upload)
    requires Identities(uploads.Keys, uploads.Keys, uploads, owner) && id in uploads && u.uid == uploads[id].uid
    ensures var uploads' := uploads[id := u];
            uploads'.Keys == uploads.Keys && Identities(uploads'.Keys, uploads'.Keys, uploads', owner)
  {
  }

  lemma SweepsKnownGrow(ids: set<JobId>, ids': set<JobId>, sweeps: map<nat, J.Sweep>)
    requires SweepsKnown(ids, sweeps) && ids <= ids'
    ensures SweepsKnown(ids', sweeps)
  {
    assert forall k :: k in sweeps ==> SweepKnown(ids, sweeps[k]);
  }

  lemma IdentityKeys(s: State)
    requires Shape(s)
    ensures s.jobs.Keys == s.uploads.Keys && s.past.Keys == s.uploads.Keys
  {
  }

  lemma StartUploadShape(s: State, step: Step, s': State)
    requires Shape(s) && Enabled(s, step) && step.StartUpload? && s' == Next(s, step)
    ensures Shape(s')
  {
    hide RunsFit, SweepsKnown, Identities, U.Intake;
    IdentityKeys(s);
    IdentitiesNew(s.uploads, s.owner, step.id, s'.uploads[step.id]);
    assert s'.jobs.Keys == s'.uploads.Keys && s'.past.Keys == s'.uploads.Keys;
    RunsKeepNew(s.runs, s.past, step.id);
    SweepsKnownGrow(s.jobs.Keys, s'.jobs.Keys, s.sweeps);
  }

  lemma IntakeFits(req: U.Request, defaultTtl: int, uid: Uid)
    requires defaultTtl > 0
    ensures UploadFits(Upload(uid, U.Intake(req, defaultTtl)), NO_PAST)
  {
    Media.NormalizeIdempotent(req.mediaType);
    hide Media.Normalize, Media.IsSupportedMediaType;
  }

  lemma StartUploadAt(s: State, step: Step, s': State, id: JobId)
    requires Shape(s) && Enabled(s, step) && step.StartUpload? && s' == Next(s, step)
    requires Shape(s') && id in s'.uploads && (id != step.id ==> FitsAt(s, id))
    ensures FitsAt(s', id)
  {
    if id == step.id {
      IntakeFits(step.req, step.defaultTtl, step.uid);
      hide UploadFits, U.Intake;
    } else {
      hide Fits, U.Intake;
    }
  }

  lemma StartUploadKeeps(s: State, step: Step, s': State)
    requires Inv(s) && Enabled(s, step) && step.StartUpload? && s' == Next(s, step)
    ensures Inv(s')
  {
    StartUploadShape(s, step, s');
    hide Fits;
    forall id | id in s'.uploads
      ensures FitsAt(s', id)
    {
      StartUploadAt(s, step, s', id);
    }
  }

  // ---- a port call of an upload ----

  ghost predicate UploadCalled(s: State, id: JobId, c: Choice, s': State) {
    && id in s.uploads && id in s.jobs && id in s.past
    && !s.uploads[id].phase.Finished? && s' == AfterUploadCall(s, id, c)
  }

  lemma UploadCallOwn(s: State, id: JobId, c: Choice, s': State)
    requires Shape(s) && UploadCalled(s, id, c, s') && FitsAt(s, id)
    ensures id in s'.uploads && id in s'.jobs && id in s'.past && FitsAt(s', id)
    ensures PastGrows(s.past[id], s'.past[id]) && s'.past[id].claimant == s.past[id].claimant
    ensures s'.queue == s.queue || (s'.queue == s.queue + multiset{id} && s'.past[id].announced)
  {
    var u := s.uploads[id];
    UploadCallFits(id, u, s.jobs[id], s.past[id], ClaimOf(s.runs, s.past[id]), s.clock, c);
  }

  lemma UploadCallShape(s: State, id: JobId, c: Choice, s': State)
    requires Shape(s) && UploadCalled(s, id, c, s')
    requires PastGrows(s.past[id], s'.past[id]) && s'.past[id].claimant == s.past[id].claimant
    requires s'.queue == s.queue || (s'.queue == s.queue + multiset{id} && s'.past[id].announced)
    ensures Shape(s')
  {
    hide U.Next, UploadPast, RunsFit, SweepsKnown, Identities;
    IdentityKeys(s);
    IdentitiesKeep(s.uploads, s.owner, id, s'.uploads[id]);
    QueueKeeps(s.queue, s.past, id, s'.past[id]);
    RunsKeep(s.runs, s.past, id, s'.past[id]);
    assert s'.jobs.Keys == s.jobs.Keys && s'.past.Keys == s.past.Keys;
  }

  lemma UploadCallOther(s: State, id: JobId, c: Choice, s': State, other: JobId)
    requires UploadCalled(s, id, c, s') && other != id
    requires Shape(s) && Shape(s') && other in s.uploads && FitsAt(s, other)
    ensures FitsAt(s', other)
  {
    hide Fits, U.Next, UploadPast;
  }

  lemma UploadCallKeeps(s: State, id: JobId, c: Choice, s': State)
    requires Inv(s) && UploadCalled(s, id, c, s')
    ensures Inv(s')
  {
    hide Fits, U.Next, UploadPast;
    UploadCallOwn(s, id, c, s');
    UploadCallShape(s, id, c, s');
    forall other | other in s'.uploads
      ensures FitsAt(s', other)
    {
      if other != id {
        UploadCallOther(s, id, c, s', other);
      }
    }
  }

  // ---- a port call of a worker run ----

  ghost predicate WorkerCalled(s: State, r: nat, c: Choice, s': State) {
    && r in s.runs && s.runs[r].id in s.jobs && s.runs[r].id in s.past
    && !s.runs[r].phase.Finished? && s' == AfterWorkerCall(s, r, c)
  }

  lemma WorkerCallOwn(s: State, r: nat, c: Choice, s': State)
    requires Shape(s) && WorkerCalled(s, r, c, s') && FitsAt(s, s.runs[r].id)
    ensures var id := s.runs[r].id;
            && id in s'.uploads && id in s'.jobs && id in s'.past && FitsAt(s', id)
            && PastGrows(s.past[id], s'.past[id]) && s'.past[id].claimant in {s.past[id].claimant, Some(r)}
            && RunFits(s'.past, r, s'.runs[r])
  {
    hide Fits, W.Next, WorkerPast, Identities, QueueFits, SweepsKnown;
    var run := s.runs[r];
    var id := run.id;
    IdentityKeys(s);
    assert RunFits(s.past, r, run) && ClaimantRuns(s.runs, id, s.past[id]);
    if W.Claimed(run.phase) {
      ClaimedCallFits(id, s.uploads[id], s.jobs[id], s.past[id], s.files, r, run.phase, c);
    } else {
      UnclaimedCallFits(id, s.uploads[id], s.jobs[id], s.past[id], ClaimOf(s.runs, s.past[id]), s.files, r, run.phase,
                        c);
    }
  }

  lemma WorkerCallShape(s: State, r: nat, c: Choice, s': State)
    requires Shape(s) && WorkerCalled(s, r, c, s')
    requires var id := s.runs[r].id;
             && PastGrows(s.past[id], s'.past[id]) && s'.past[id].claimant in {s.past[id].claimant, Some(r)}
             && RunFits(s'.past, r, s'.runs[r])
    ensures Shape(s')
  {
    hide W.Next, WorkerPast, RunsFit, SweepsKnown;
    var id := s.runs[r].id;
    QueueKeeps(s.queue, s.past, id, s'.past[id]);
    RunsKeepCall(s.runs, s.past, r, s'.runs[r], s'.past[id]);
    assert s'.jobs.Keys == s.jobs.Keys;
  }

  lemma WorkerCallOther(s: State, r: nat, c: Choice, s': State, other: JobId)
    requires WorkerCalled(s, r, c, s') && other != s.runs[r].id
    requires Shape(s) && Shape(s') && other in s.uploads && FitsAt(s, other)
    ensures FitsAt(s', other)
  {
    hide Fits, W.Next, WorkerPast;
    assert ClaimantRuns(s.runs, other, s.past[other]);
  }

  lemma WorkerCallKeeps(s: State, r: nat, c: Choice, s': State)
    requires Inv(s) && WorkerCalled(s, r, c, s')
    ensures Inv(s')
  {
    hide Fits, W.Next, WorkerPast;
    WorkerCallOwn(s, r, c, s');
    WorkerCallShape(s, r, c, s');
    forall other | other in s'.uploads
      ensures FitsAt(s', other)
    {
      if other != s.runs[r].id {
        WorkerCallOther(s, r, c, s', other);
      }
    }
  }

  // ---- a port call of a sweep ----

  ghost predicate SweepCalled(s: State, k: nat, c: Choice, s': State) {
    && k in s.sweeps && J.Working(s.sweeps[k]) && J.Current(s.sweeps[k]).id in s.jobs
    && s' == AfterSweepCall(s, k, c)
  }

  lemma SweepCallShape(s: State, k: nat, c: Choice, s': State)
    requires Shape(s) && SweepCalled(s, k, c, s')
    ensures Shape(s')
  {
    hide Identities, QueueFits, RunsFit, J.Deleted, J.Dropped;
    assert s'.jobs.Keys == s.jobs.Keys;
    assert SweepKnown(s.jobs.Keys, s.sweeps[k]);
    NextKnown(s.jobs.Keys, s.sweeps[k], c);
    hide J.Next, SweepKnown;
    assert forall j :: j in s.sweeps ==> SweepKnown(s.jobs.Keys, s.sweeps[j]);
  }

  lemma NextKnown(ids: set<JobId>, sweep: J.Sweep, c: Choice)
    requires SweepKnown(ids, sweep) && J.Working(sweep)
    ensures SweepKnown(ids, J.Next(sweep, c))
  {
  }

  lemma FetchedKnown(ids: set<JobId>, todo: seq<J.Snapshot>, fetched: nat, arts: seq<Artifact>)
    requires TodoKnown(ids, todo) && fetched < |todo|
    ensures SweepKnown(ids, J.AfterFetch(todo, fetched, arts))
  {
  }

  lemma SweepCallAt(s: State, k: nat, c: Choice, s': State, id: JobId)
    requires SweepCalled(s, k, c, s')
    requires Shape(s) && Shape(s') && id in s.uploads && FitsAt(s, id)
    ensures FitsAt(s', id)
  {
    if id != J.Current(s.sweeps[k]).id {
      hide Fits;
    }
  }

  lemma SweepCallKeeps(s: State, k: nat, c: Choice, s': State)
    requires Inv(s) && SweepCalled(s, k, c, s')
    ensures Inv(s')
  {
    SweepCallShape(s, k, c, s');
    hide Fits;
    forall id | id in s'.uploads
      ensures FitsAt(s', id)
    {
      SweepCallAt(s, k, c, s', id);
    }
  }

  // ---- steps that leave the records alone ----

  lemma UnchangedFit(s: State, s': State)
    requires Inv(s) && Shape(s')
    requires s'.jobs == s.jobs && s'.uploads == s.uploads && s'.past == s.past
    requires forall id :: id in s.past ==> ClaimOf(s'.runs, s.past[id]) == ClaimOf(s.runs, s.past[id])
    ensures Inv(s')
  {
    hide Fits;
    forall id | id in s'.uploads
      ensures FitsAt(s', id)
    {
      assert FitsAt(s, id);
    }
  }

  lemma DeliverKeeps(s: State, r: nat, id: JobId, s': State)
    requires Inv(s) && r !in s.runs && id in s.queue
    requires s' == s.(queue := s.queue - multiset{id}, runs := s.runs[r := Run(id, W.Fetching)])
    ensures Inv(s')
  {
    hide AllFit, Identities, SweepsKnown;
    forall id | id in s.past
      ensures ClaimOf(s'.runs, s.past[id]) == ClaimOf(s.runs, s.past[id]) && ClaimantRuns(s'.runs, id, s.past[id])
    {
      assert ClaimantRuns(s.runs, id, s.past[id]);
    }
    assert s.past[id].claimant != Some(r) by {
      assert ClaimantRuns(s.runs, id, s.past[id]);
    }
    UnchangedFit(s, s');
  }

  lemma ListKeeps(s: State, k: nat, page: seq<J.Snapshot>, c: Choice, s': State)
    requires Inv(s) && Enabled(s, List(k, page, c)) && s' == Next(s, List(k, page, c))
    ensures Inv(s')
  {
    hide AllFit;
    assert SweepKnown(s.jobs.Keys, s'.sweeps[k]);
    UnchangedFit(s, s');
  }

  lemma FetchKeeps(s: State, k: nat, c: Choice, s': State)
    requires Inv(s) && Enabled(s, Fetch(k, c)) && s' == Next(s, Fetch(k, c))
    ensures Inv(s')
  {
    hide AllFit, Identities, QueueFits, RunsFit;
    var sweep := s.sweeps[k];
    assert SweepKnown(s.jobs.Keys, sweep);
    FetchedKnown(s.jobs.Keys, sweep.todo, sweep.fetched, s.jobs[sweep.todo[sweep.fetched].id].arts);
    hide J.AfterFetch;
    assert SweepKnown(s.jobs.Keys, s'.sweeps[k]);
    UnchangedFit(s, s');
  }

  lemma StreamsKeep(s: State, streams: map<nat, S.Stream>)
    requires Inv(s)
    ensures Inv(s.(streams := streams))
  {
    hide AllFit, Identities, QueueFits, RunsFit, SweepsKnown;
    UnchangedFit(s, s.(streams := streams));
  }

  lemma QueueStepKeeps(s: State, queue: multiset<JobId>)
    requires Inv(s) && forall id :: id in queue ==> id in s.queue
    ensures Inv(s.(queue := queue))
  {
    hide AllFit, Identities, RunsFit, SweepsKnown;
    UnchangedFit(s, s.(queue := queue));
  }

  lemma StartSweepKeeps(s: State, k: nat, limit: int)
    requires Inv(s)
    ensures Inv(s.(sweeps := s.sweeps[k := J.Listing(limit)]))
  {
    hide AllFit, Identities, QueueFits, RunsFit;
    UnchangedFit(s, s.(sweeps := s.sweeps[k := J.Listing(limit)]));
  }

  lemma ClockKeeps(s: State, clock: Time)
    requires Inv(s)
    ensures Inv(s.(clock := clock))
  {
    hide AllFit, Identities, QueueFits, RunsFit, SweepsKnown;
    UnchangedFit(s, s.(clock := clock));
  }

  /** Each kind of step in the form the lemmas about it use. */
  lemma StepForm(s: State, step: Step)
    requires Enabled(s, step)
    ensures var s' := Next(s, step);
            && (step.UploadCall? ==> UploadCalled(s, step.id, step.c, s'))
            && (step.WorkerCall? ==> WorkerCalled(s, step.r, step.c, s'))
            && (step.SweepCall? ==> SweepCalled(s, step.k, step.c, s'))
            && (!step.StartUpload? && !step.UploadCall? && !step.WorkerCall? && !step.SweepCall? ==>
                  s'.jobs == s.jobs && s'.past == s.past && s'.uploads == s.uploads && s'.files == s.files)
  {
    hide J.IsExpiredPage, S.Next, S.CanMove, AfterUploadCall, AfterWorkerCall, AfterSweepCall, U.Intake;
  }

  /** The other steps leave every run alone. */
  lemma QuietForm(s: State, step: Step)
    requires Enabled(s, step)
    requires !step.StartUpload? && !step.UploadCall? && !step.WorkerCall? && !step.SweepCall?
    ensures var s' := Next(s, step);
            && s.clock <= s'.clock
            && forall r :: r in s.runs ==> r in s'.runs && s'.runs[r] == s.runs[r]
  {
    hide J.IsExpiredPage, S.Next, S.CanMove;
  }

  lemma StepKeeps(s: State, step: Step)
    requires Inv(s) && Enabled(s, step)
    ensures Inv(Next(s, step))
  {
    hide Inv, J.IsExpiredPage, S.Next, S.CanMove, AfterUploadCall, AfterWorkerCall, AfterSweepCall, U.Intake;
    var s' := Next(s, step);
    match step
    case StartUpload(_, _, _, _) => StartUploadKeeps(s, step, s');
    case UploadCall(id, c) => UploadCallKeeps(s, id, c, s');
    case WorkerCall(r, c) => WorkerCallKeeps(s, r, c, s');
    case SweepCall(k, c) => SweepCallKeeps(s, k, c, s');
    case Deliver(r, id) => DeliverKeeps(s, r, id, s');
    case List(k, page, c) => ListKeeps(s, k, page, c, s');
    case Fetch(k, c) => FetchKeeps(s, k, c, s');
    case Duplicate(id) => QueueStepKeeps(s, s'.queue);
    case Lose(id) => QueueStepKeeps(s, s'.queue);
    case StartSweep(k, limit) => StartSweepKeeps(s, k, limit);
    case OpenStream(t, id) => StreamsKeep(s, s'.streams);
    case StreamMove(t, move) => StreamsKeep(s, s'.streams);
    case Tick(d) => ClockKeeps(s, s'.clock);
  }

  lemma {:induction false} LeadsKeeps(a: State, steps: seq<Step>, b: State)
    requires Inv(a) && Leads(a, steps, b)
    ensures Inv(b)
    decreases |steps|
  {
    hide Inv, Enabled, Next;
    if steps != [] {
      StepKeeps(a, steps[0]);
      LeadsKeeps(Next(a, steps[0]), steps[1..], b);
    }
  }

  /** What the invariant says about one job, without its global part. */
  lemma FactsAt(s: State, id: JobId)
    requires Inv(s) && id in s.uploads
    ensures id in s.jobs && id in s.past
    ensures UploadFits(s.uploads[id], s.past[id]) && RowFits(s.jobs[id], s.past[id])
    ensures s.past[id].claimant.None? ==> UnclaimedFits(s.jobs[id], s.past[id])
    ensures s.past[id].claimant.Some? ==>
              var r := s.past[id].claimant.value;
              r in s.runs && s.runs[r].id == id && ClaimedFits(id, s.runs[r].phase, s.jobs[id], s.past[id])
  {
    assert FitsAt(s, id) && ClaimantRuns(s.runs, id, s.past[id]);
    hide UploadFits, RowFits, UnclaimedFits, ClaimedFits;
  }

  lemma RunFactsAt(s: State, r: nat)
    requires Inv(s) && r in s.runs
    ensures s.runs[r].id in s.uploads && s.runs[r].id in s.jobs && s.runs[r].id in s.past
    ensures RunFits(s.past, r, s.runs[r])
  {
    hide AllFit;
  }

  lemma KeysAt(s: State)
    requires Inv(s)
    ensures s.jobs.Keys == s.uploads.Keys && s.past.Keys == s.uploads.Keys
  {
    hide AllFit;
  }
}
