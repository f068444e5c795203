/** What a sweep's snapshot, however stale, still says truly about its job. */
module Snapshots {
  import opened Prelude
  import opened Domain
  import opened Ports
  import opened Protocol
  import opened JobView
  import opened JobInvariant
  import opened Growth
  import J = JanitorSteps
  import S = StreamSteps
  import W = WorkerSteps
  import U = UploadSteps
  import Media

  predicate OwnPaths(arts: seq<Artifact>, uid: Uid) {
    forall a :: a in arts ==> a.path.Product? && a.path.uid == uid
  }

  /** The snapshot is of a job that was inserted and had expired, and names only that job's files. */
  predicate SnapFits(snap: J.Snapshot, p: Past, clock: Time) {
    && p.born == Some(snap.row.job) && p.statuses != []
    && snap.row.job.IsExpired(clock)
    && OwnPaths(snap.arts, snap.row.job.uid)
  }

  ghost predicate TodoFits(todo: seq<J.Snapshot>, past: map<JobId, Past>, clock: Time) {
    forall i :: 0 <= i < |todo| ==> todo[i].id in past && SnapFits(todo[i], past[todo[i].id], clock)
  }

  ghost predicate SweepsFit(s: State) {
    forall k :: k in s.sweeps ==> TodoFits(s.sweeps[k].Todo(), s.past, s.clock)
  }

  lemma ProducedOwn(result: seq<Artifact>, id: JobId, job: Job)
    requires FromProcess(result, id, job)
    ensures OwnPaths(result, job.uid) && forall a :: a in result ==> a.jobId == id
  {
    hide Media.FirstMatch;
  }

  lemma ArtsOwn(id: JobId, phase: W.Phase, rec: Record, p: Past)
    requires ClaimedFits(id, phase, rec, p)
    ensures OwnPaths(rec.arts, p.born.value.uid)
  {
    hide Chosen, AttemptsAt, ReportsAt, CommittedAt, ErrorAt, FromProcess;
    SubseqMembers(rec.arts, InsertedAt(phase));
    if InsertedAt(phase) != [] {
      ProducedOwn(phase.ResultOf(), id, p.born.value);
    }
  }

  lemma RowArtsOwn(s: State, id: JobId)
    requires Inv(s) && id in s.jobs && s.jobs[id].row.Some?
    ensures id in s.past && s.past[id].statuses != [] && s.past[id].born == Some(s.jobs[id].row.value.job)
    ensures OwnPaths(s.jobs[id].arts, s.jobs[id].row.value.job.uid)
  {
    hide Inv, ClaimedFits, UploadFits;
    KeysAt(s);
    FactsAt(s, id);
    if s.past[id].claimant.Some? {
      ArtsOwn(id, s.runs[s.past[id].claimant.value].phase, s.jobs[id], s.past[id]);
    }
  }

  lemma PageFits(s: State, size: nat, page: seq<J.Snapshot>)
    requires Inv(s) && J.IsExpiredPage(s.jobs, s.clock, size, page)
    ensures TodoFits(J.Bare(page), s.past, s.clock)
  {
    hide Inv;
    var bare := J.Bare(page);
    forall i | 0 <= i < |bare|
      ensures bare[i].id in s.past && SnapFits(bare[i], s.past[bare[i].id], s.clock)
    {
      assert J.Expired(s.jobs, s.clock, page[i].id) && page[i] == J.SnapshotOf(s.jobs, page[i].id);
      RowArtsOwn(s, page[i].id);
    }
  }

  /** What the query answers for a job names only that job's files, also if the row is gone by now. */
  lemma FetchFits(s: State, sweep: J.Sweep, todo': seq<J.Snapshot>)
    requires Inv(s) && sweep.Fetching? && TodoFits(sweep.todo, s.past, s.clock) && FetchedInto(s, sweep, todo')
    ensures TodoFits(todo', s.past, s.clock)
  {
    hide Inv, ClaimedFits, UnclaimedFits, UploadFits;
    var snap := sweep.todo[sweep.fetched];
    KeysAt(s);
    FactsAt(s, snap.id);
    if s.jobs[snap.id].row.Some? {
      RowArtsOwn(s, snap.id);
    }
  }

  /** Snapshots stay true as histories grow and time passes. */
  lemma TodoGrows(todo: seq<J.Snapshot>, s: State, s': State)
    requires TodoFits(todo, s.past, s.clock) && AllGrow(s, s') && s.clock <= s'.clock && s.jobs.Keys == s.past.Keys
    ensures TodoFits(todo, s'.past, s'.clock)
  {
    forall i | 0 <= i < |todo|
      ensures todo[i].id in s'.past && SnapFits(todo[i], s'.past[todo[i].id], s'.clock)
    {
      assert todo[i].id in s.past && SnapFits(todo[i], s.past[todo[i].id], s.clock);
      assert JobGrows(s.jobs[todo[i].id], s.past[todo[i].id], s'.jobs[todo[i].id], s'.past[todo[i].id]);
    }
  }

  /** The sweep's work with the artifacts of one more job. */
  predicate FetchedInto(s: State, sweep: J.Sweep, todo': seq<J.Snapshot>)
    requires sweep.Fetching?
  {
    var i := sweep.fetched;
    && i < |sweep.todo| && sweep.todo[i].id in s.jobs
    && todo' == sweep.todo[i := sweep.todo[i].(arts := s.jobs[sweep.todo[i].id].arts)]
  }

  /** A step leaves each sweep's work as it was, shortens it, or is a query of that sweep. */
  lemma SweepsForm(s: State, step: Step, k: nat)
    requires Enabled(s, step) && k in Next(s, step).sweeps
    ensures s.clock <= Next(s, step).clock
    ensures var todo' := Next(s, step).sweeps[k].Todo();
            || todo' == []
            || (k in s.sweeps && todo' == s.sweeps[k].Todo())
            || (k in s.sweeps && s.sweeps[k].Todo() != [] && todo' == s.sweeps[k].Todo()[1..])
            || (step.List? && step.k == k && todo' == J.Bare(step.page))
            || (step.Fetch? && step.k == k && k in s.sweeps && s.sweeps[k].Fetching?
                && FetchedInto(s, s.sweeps[k], todo'))
  {
    hide J.IsExpiredPage, S.Next, S.CanMove, U.Next, W.Next, UploadPast, WorkerPast, U.Intake, J.Deleted, J.Dropped;
  }

  lemma SweepsFitStep(s: State, step: Step)
    requires Inv(s) && SweepsFit(s) && Enabled(s, step)
    ensures SweepsFit(Next(s, step))
  {
    hide Inv, Next, AllGrow, TodoFits;
    var s' := Next(s, step);
    StepGrows(s, step);
    KeysAt(s);
    forall k | k in s'.sweeps
      ensures TodoFits(s'.sweeps[k].Todo(), s'.past, s'.clock)
    {
      SweepsForm(s, step, k);
      var todo' := s'.sweeps[k].Todo();
      if step.List? && step.k == k && todo' == J.Bare(step.page) {
        PageFits(s, J.PageSize(s.sweeps[k].limit), step.page);
        TodoGrows(todo', s, s');
      } else if step.Fetch? && step.k == k && s.sweeps[k].Fetching? && FetchedInto(s, s.sweeps[k], todo') {
        FetchFits(s, s.sweeps[k], todo');
        TodoGrows(todo', s, s');
      } else if todo' == [] {
        EmptyFits(s'.past, s'.clock);
      } else {
        TodoGrows(s.sweeps[k].Todo(), s, s');
        TailFits(s.sweeps[k].Todo(), s'.past, s'.clock);
      }
    }
  }

  lemma EmptyFits(past: map<JobId, Past>, clock: Time)
    ensures TodoFits([], past, clock)
  {
  }

  lemma TailFits(todo: seq<J.Snapshot>, past: map<JobId, Past>, clock: Time)
    requires TodoFits(todo, past, clock)
    ensures todo != [] ==> TodoFits(todo[1..], past, clock)
  {
  }
}
