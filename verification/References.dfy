/** No dangling references: in every interleaving of uploads, worker runs and sweeps, with any call
    failing, a row that has not expired has its files, unless its upload was rejected and the rollback
    failed to delete the row. */
module References {
  import opened Prelude
  import opened Domain
  import opened Ports
  import opened Protocol
  import opened JobView
  import opened JobInvariant
  import opened Growth
  import opened Lifecycle
  import opened Snapshots
  import J = JanitorSteps
  import W = WorkerSteps
  import U = UploadSteps
  import Media

  /** The step is not a failing rollback DeleteJob of an upload. */
  predicate RollbackSucceeds(s: State, step: Step) {
    step.UploadCall? && step.id in s.uploads && s.uploads[step.id].phase.Unregistering? ==> step.c.Success?
  }

  /** The files a claimed run has saved, or whose artifacts it holds, are stored. */
  predicate HeldIn(p: W.Phase, files: set<Path>) {
    && (p.Saving? ==>
          forall i :: 0 <= i < p.done && i < |p.proc.Plan()| ==> Product(p.job.uid, p.proc.Plan()[i]) in files)
    && (forall a :: a in p.ResultOf() ==> a.path in files)
  }

  predicate IsRejected(p: U.Phase) {
    p.Finished? && p.outcome.Rejected?
  }

  predicate Backed(u: Upload, rec: Record, p: Past, claim: Option<W.Phase>, files: set<Path>, clock: Time) {
    && (u.phase.Registering? ==> Source(u.uid) in files)
    && (p.born.Some? && !p.born.value.IsExpired(clock) ==>
          && (rec.row.Some? && !IsRejected(u.phase) ==> Source(u.uid) in files)
          && (claim.Some? ==> HeldIn(claim.value, files)))
  }

  ghost predicate BackedAt(s: State, id: JobId)
    requires id in s.uploads && id in s.jobs && id in s.past
  {
    Backed(s.uploads[id], s.jobs[id], s.past[id], ClaimOf(s.runs, s.past[id]), s.files, s.clock)
  }

  ghost predicate AllBacked(s: State) {
    forall id :: id in s.uploads && id in s.jobs && id in s.past ==> BackedAt(s, id)
  }

  // ---- one call, one job ----

  lemma UploadCallBacked(u: Upload, rec: Record, p: Past, files: set<Path>, clock: Time, c: Choice)
    requires UploadFits(u, p) && RowFits(rec, p) && Backed(u, rec, p, None, files, clock)
    ensures var (rec', phase') := U.Next(rec, clock, u.uid, u.phase, c);
            Backed(u.(phase := phase'), rec', UploadPast(p, u.phase, phase'), None, U.Files(files, u.uid, u.phase, c),
                   clock)
  {
    hide IsAccepted;
  }

  lemma ClaimedHoldsProducts(id: JobId, phase: W.Phase, rec: Record, p: Past)
    requires ClaimedFits(id, phase, rec, p)
    ensures OwnPaths(phase.ResultOf(), p.born.value.uid)
  {
    hide Chosen, AttemptsAt, ReportsAt, CommittedAt, ErrorAt, FromProcess, InsertedAt;
    if phase.ResultOf() != [] {
      ProducedOwn(phase.ResultOf(), id, p.born.value);
    }
  }

  /** After the call of a run, what it holds is stored. */
  lemma CallHolds(id: JobId, phase: W.Phase, rec: Record, files: set<Path>, job: Job, c: Choice)
    requires Carries(phase, id, job) && W.Claimed(phase) && HeldIn(phase, files)
    ensures HeldIn(W.Next(rec, files, id, phase, c).1, files + W.Saved(phase, c))
  {
    hide Media.FirstMatch, FromProcess;
    if phase.Saving? && !W.Fails(phase, c) && phase.done == |phase.proc.Plan()| {
      var produced := phase.proc.Produced(id, phase.job.uid, |phase.proc.Plan()|);
      forall a | a in produced
        ensures a.path in files + W.Saved(phase, c)
      {
        var i :| 0 <= i < |produced| && produced[i] == a;
      }
    }
  }

  lemma HeldInGrows(p: W.Phase, files: set<Path>, files': set<Path>)
    requires HeldIn(p, files) && files <= files'
    ensures HeldIn(p, files')
  {
  }

  // ---- every job ----

  /** Files of other uploads do not matter, and time only helps. */
  lemma BackedFrame(s: State, id: JobId, files': set<Path>, clock': Time)
    requires Inv(s) && id in s.uploads && id in s.jobs && id in s.past && BackedAt(s, id)
    requires s.clock <= clock'
    requires forall x :: x in s.files && x.uid == s.uploads[id].uid ==> x in files'
    ensures Backed(s.uploads[id], s.jobs[id], s.past[id], ClaimOf(s.runs, s.past[id]), files', clock')
  {
    hide Inv, RowFits, UnclaimedFits, ClaimedFits;
    FactsAt(s, id);
    if s.past[id].claimant.Some? {
      var phase := s.runs[s.past[id].claimant.value].phase;
      ClaimedHoldsProducts(id, phase, s.jobs[id], s.past[id]);
      ClaimedCarries(id, phase, s.jobs[id], s.past[id]);
    }
  }

  lemma ClaimedCarries(id: JobId, phase: W.Phase, rec: Record, p: Past)
    requires ClaimedFits(id, phase, rec, p)
    ensures p.born.Some? && Carries(phase, id, p.born.value) && W.Claimed(phase)
    ensures phase.Saving? ==> phase.job == p.born.value
  {
  }

  lemma UploadBacked(s: State, id: JobId, c: Choice, s': State)
    requires Inv(s) && AllBacked(s) && UploadCalled(s, id, c, s')
    ensures AllBacked(s')
  {
    hide Inv, U.Next, U.Files, UploadPast, Backed, UploadFits, RowFits, UnclaimedFits, ClaimedFits;
    KeysAt(s);
    forall other | other in s'.uploads && other in s'.jobs && other in s'.past
      ensures BackedAt(s', other)
    {
      assert BackedAt(s, other);
      FactsAt(s, other);
      if other == id {
        UploadBackedOwn(s, id, c, s');
      } else {
        UploadBackedOther(s, id, c, s', other);
      }
    }
  }

  lemma UploadBackedOwn(s: State, id: JobId, c: Choice, s': State)
    requires Inv(s) && UploadCalled(s, id, c, s') && BackedAt(s, id)
    ensures BackedAt(s', id)
  {
    hide Inv, U.Next, U.Files, UploadPast, Backed, RowFits, UnclaimedFits, ClaimedFits;
    FactsAt(s, id);
    var u, rec, p := s.uploads[id], s.jobs[id], s.past[id];
    Unfinished(u, p);
    UploadCallBacked(u, rec, p, s.files, s.clock, c);
    ClaimantKept(p, u.phase, U.Next(rec, s.clock, u.uid, u.phase, c).1);
  }

  lemma Unfinished(u: Upload, p: Past)
    requires UploadFits(u, p) && !u.phase.Finished?
    ensures p.claimant.None?
  {
  }

  lemma ClaimantKept(p: Past, phase: U.Phase, phase': U.Phase)
    ensures UploadPast(p, phase, phase').claimant == p.claimant
  {
  }

  lemma UidsDiffer(s: State, id: JobId, other: JobId)
    requires Inv(s) && id in s.uploads && other in s.uploads && id != other
    ensures s.uploads[id].uid != s.uploads[other].uid
  {
    hide AllFit, RunsFit, QueueFits, SweepsKnown;
  }

  lemma UploadBackedOther(s: State, id: JobId, c: Choice, s': State, other: JobId)
    requires Inv(s) && UploadCalled(s, id, c, s') && other != id
    requires other in s.uploads && other in s.jobs && other in s.past && BackedAt(s, other)
    ensures BackedAt(s', other)
  {
    hide Inv, U.Next, UploadPast, Backed;
    UidsDiffer(s, id, other);
    BackedFrame(s, other, s'.files, s'.clock);
  }

  lemma WorkerBacked(s: State, r: nat, c: Choice, s': State)
    requires Inv(s) && Inv(s') && AllBacked(s) && AllGrow(s, s') && WorkerCalled(s, r, c, s')
    ensures AllBacked(s')
  {
    hide Inv, W.Next, W.Saved, WorkerPast, Backed, UploadFits, RowFits, UnclaimedFits, ClaimedFits;
    KeysAt(s);
    forall other | other in s'.uploads && other in s'.jobs && other in s'.past
      ensures BackedAt(s', other)
    {
      assert BackedAt(s, other);
      if other == s.runs[r].id {
        WorkerBackedOwn(s, r, c, s');
      } else {
        FactsAt(s, other);
        BackedFrame(s, other, s'.files, s'.clock);
      }
    }
  }

  lemma WorkerBackedOwn(s: State, r: nat, c: Choice, s': State)
    requires Inv(s) && Inv(s') && AllGrow(s, s') && WorkerCalled(s, r, c, s')
    requires s.runs[r].id in s.uploads && BackedAt(s, s.runs[r].id)
    ensures s.runs[r].id in s'.uploads && BackedAt(s', s.runs[r].id)
  {
    hide Inv, W.Next, W.Saved, WorkerPast, HeldIn, UploadFits, RowFits, UnclaimedFits, ClaimedFits, W.Claimed;
    var id, phase := s.runs[r].id, s.runs[r].phase;
    var rec, p := s.jobs[id], s.past[id];
    KeysAt(s');
    RunFactsAt(s, r);
    FactsAt(s, id);
    FactsAt(s', id);
    assert JobGrows(rec, p, s'.jobs[id], s'.past[id]);
    RowNeverInserted(rec, s.files, id, phase, c);
    WorkerPastForm(p, r, phase, W.Next(rec, s.files, id, phase, c).1, rec, W.Next(rec, s.files, id, phase, c).0);
    if p.claimant.Some? && HeldIn(s.runs[p.claimant.value].phase, s.files) {
      ClaimedCarries(id, s.runs[p.claimant.value].phase, rec, p);
      if p.claimant == Some(r) {
        CallHolds(id, phase, rec, s.files, p.born.value, c);
      } else {
        HeldInGrows(s.runs[p.claimant.value].phase, s.files, s'.files);
      }
    }
    if p.claimant.None? {
      FreshHolds(rec, s.files, id, phase, c);
    }
  }

  lemma RowNeverInserted(rec: Record, files: set<Path>, id: JobId, phase: W.Phase, c: Choice)
    ensures W.Next(rec, files, id, phase, c).0.row.Some? <==> rec.row.Some?
  {
  }

  lemma WorkerPastForm(p: Past, r: nat, phase: W.Phase, phase': W.Phase, rec: Record, rec': Record)
    ensures var p' := WorkerPast(p, r, phase, phase', rec, rec');
            p'.born == p.born && (p'.claimant == p.claimant || (p'.claimant == Some(r) && phase.Claiming?))
  {
  }

  lemma FreshHolds(rec: Record, files: set<Path>, id: JobId, phase: W.Phase, c: Choice)
    requires !W.Claimed(phase)
    ensures HeldIn(W.Next(rec, files, id, phase, c).1, files + W.Saved(phase, c))
  {
  }

  lemma SweepBacked(s: State, k: nat, c: Choice, s': State)
    requires Inv(s) && AllBacked(s) && SweepsFit(s) && SweepCalled(s, k, c, s')
    ensures AllBacked(s')
  {
    hide Inv, J.Next, J.Dropped, J.Deleted, Backed, UploadFits, RowFits, UnclaimedFits, ClaimedFits;
    KeysAt(s);
    var snap := J.Current(s.sweeps[k]);
    assert TodoFits(s.sweeps[k].Todo(), s.past, s.clock);
    assert SnapFits(snap, s.past[snap.id], s.clock);
    DeletedOwn(s.sweeps[k], c, s.past[snap.id], s.clock);
    forall id | id in s'.uploads && id in s'.jobs && id in s'.past
      ensures BackedAt(s', id)
    {
      assert BackedAt(s, id);
      FactsAt(s, id);
      FactsAt(s, snap.id);
      UploadUid(s.uploads[snap.id], s.past[snap.id]);
      if id == snap.id {
        PrunedBacked(s.uploads[id], s.jobs[id], s.past[id], ClaimOf(s.runs, s.past[id]), s.files, s'.files, s.clock,
                     s.sweeps[k], c);
      } else {
        UidsDiffer(s, id, snap.id);
        BackedFrame(s, id, s'.files, s'.clock);
      }
    }
  }

  lemma UploadUid(u: Upload, p: Past)
    requires UploadFits(u, p)
    ensures p.born.Some? ==> p.born.value.uid == u.uid
  {
  }

  /** A sweep deletes only files of the job it is at. */
  lemma DeletedOwn(sweep: J.Sweep, c: Choice, p: Past, clock: Time)
    requires J.Working(sweep) && SnapFits(J.Current(sweep), p, clock)
    ensures forall x :: x in J.Deleted(sweep, c) ==> x.uid == J.Current(sweep).row.job.uid
  {
    var snap := J.Current(sweep);
    if sweep.Clearing? && sweep.at > 0 {
      assert snap.arts[sweep.at - 1] in snap.arts;
    }
  }

  lemma PrunedBacked(u: Upload, rec: Record, p: Past, claim: Option<W.Phase>, files: set<Path>, files': set<Path>,
                     clock: Time, sweep: J.Sweep, c: Choice)
    requires Backed(u, rec, p, claim, files, clock) && UploadFits(u, p)
    requires J.Working(sweep) && SnapFits(J.Current(sweep), p, clock)
    ensures Backed(u, J.Dropped(rec, sweep, c), p, claim, files', clock)
  {
    hide IsBirth, IsAccepted;
  }

  lemma StartBacked(s: State, step: Step, s': State)
    requires Inv(s) && AllBacked(s) && Enabled(s, step) && step.StartUpload? && s' == Next(s, step)
    ensures AllBacked(s')
  {
    hide Inv, U.Intake, Backed;
    KeysAt(s);
    IntakeBacked(step.req, step.defaultTtl, step.uid, s.files, s.clock);
    forall id | id in s'.uploads && id in s'.jobs && id in s'.past
      ensures BackedAt(s', id)
    {
      if id != step.id {
        assert BackedAt(s, id);
      }
    }
  }

  lemma IntakeBacked(req: U.Request, ttl: int, uid: Uid, files: set<Path>, clock: Time)
    ensures Backed(Upload(uid, U.Intake(req, ttl)), BLANK, NO_PAST, None, files, clock)
  {
    hide Media.IsSupportedMediaType, Media.Normalize;
  }

  lemma OtherBacked(s: State, step: Step, s': State)
    requires Inv(s) && AllBacked(s) && Enabled(s, step) && s' == Next(s, step)
    requires !step.StartUpload? && !step.UploadCall? && !step.WorkerCall? && !step.SweepCall?
    ensures AllBacked(s')
  {
    hide Inv, Enabled, Next, Backed, ClaimOf;
    KeysAt(s);
    StepForm(s, step);
    QuietForm(s, step);
    forall id | id in s'.uploads && id in s'.jobs && id in s'.past
      ensures BackedAt(s', id)
    {
      assert BackedAt(s, id);
      ClaimKept(s, s', id);
      BackedFrame(s, id, s'.files, s'.clock);
    }
  }

  lemma ClaimKept(s: State, s': State, id: JobId)
    requires Inv(s) && id in s.uploads && id in s.past
    requires forall r :: r in s.runs ==> r in s'.runs && s'.runs[r] == s.runs[r]
    ensures ClaimOf(s'.runs, s.past[id]) == ClaimOf(s.runs, s.past[id])
  {
    hide Inv, UploadFits, RowFits, UnclaimedFits, ClaimedFits;
    FactsAt(s, id);
  }

  lemma StepBacked(s: State, step: Step)
    requires Inv(s) && AllBacked(s) && SweepsFit(s) && Enabled(s, step)
    ensures Inv(Next(s, step)) && AllBacked(Next(s, step))
  {
    hide Inv, Enabled, Next, AllBacked, SweepsFit, AllGrow, UploadCalled, WorkerCalled, SweepCalled;
    var s' := Next(s, step);
    StepGrows(s, step);
    StepForm(s, step);
    match step
    case StartUpload(_, _, _, _) => StartBacked(s, step, s');
    case UploadCall(id, c) => UploadBacked(s, id, c, s');
    case WorkerCall(r, c) => WorkerBacked(s, r, c, s');
    case SweepCall(k, c) => SweepBacked(s, k, c, s');
    case _ => OtherBacked(s, step, s');
  }

  lemma {:induction false} LeadsBacked(a: State, steps: seq<Step>, s: State)
    requires Inv(a) && AllBacked(a) && SweepsFit(a) && Leads(a, steps, s)
    ensures Inv(s) && AllBacked(s) && SweepsFit(s)
    decreases |steps|
  {
    hide Inv, Enabled, Next, AllBacked, SweepsFit;
    if steps != [] {
      StepBacked(a, steps[0]);
      SweepsFitStep(a, steps[0]);
      LeadsBacked(Next(a, steps[0]), steps[1..], s);
    }
  }

  /** Whatever fails: a row that has not expired has all its artifacts stored, and its source too unless
      the upload that wrote the row was rejected. */
  lemma DanglingOnlyWhenRejected(a: State, steps: seq<Step>, s: State, id: JobId)
    requires Reaches(a, steps, s)
    requires id in s.jobs && s.jobs[id].row.Some? && s.jobs[id].row.value.job.expiresAt > s.clock
    ensures forall art :: art in s.jobs[id].arts ==> art.path in s.files
    ensures id in s.uploads
    ensures s.jobs[id].row.value.job.FilePath() !in s.files ==> IsRejected(s.uploads[id].phase)
  {
    hide Inv, Leads, UploadFits, UnclaimedFits, ClaimedFits, HeldIn;
    InitInv(a);
    LeadsBacked(a, steps, s);
    KeysAt(s);
    FactsAt(s, id);
    assert BackedAt(s, id);
    UploadUid(s.uploads[id], s.past[id]);
    if s.past[id].claimant.Some? {
      var phase := s.runs[s.past[id].claimant.value].phase;
      ArtsHeld(id, phase, s.jobs[id], s.past[id], s.files);
    } else {
      UnclaimedArts(s.jobs[id], s.past[id]);
    }
  }

  lemma ArtsHeld(id: JobId, phase: W.Phase, rec: Record, p: Past, files: set<Path>)
    requires ClaimedFits(id, phase, rec, p) && HeldIn(phase, files)
    ensures forall a :: a in rec.arts ==> a.path in files
  {
    hide Carries, AttemptsAt, ReportsAt, CommittedAt, ErrorAt;
    SubseqMembers(rec.arts, InsertedAt(phase));
  }

  lemma UnclaimedArts(rec: Record, p: Past)
    requires UnclaimedFits(rec, p)
    ensures rec.arts == []
  {
  }

  // ---- the rollback that deletes the row ----

  /** An upload past its row's rollback has no row. */
  predicate RolledBack(p: U.Phase, rec: Record) {
    p.Unstoring? || IsRejected(p) ==> rec.row.None?
  }

  ghost predicate AllRolledBack(s: State) {
    forall id :: id in s.uploads && id in s.jobs ==> RolledBack(s.uploads[id].phase, s.jobs[id])
  }

  lemma UploadCallRollsBack(u: Upload, rec: Record, p: Past, now: Time, c: Choice)
    requires UploadFits(u, p) && RowFits(rec, p) && RolledBack(u.phase, rec)
    requires u.phase.Unregistering? ==> c.Success?
    ensures var (rec', phase') := U.Next(rec, now, u.uid, u.phase, c); RolledBack(phase', rec')
  {
    hide IsAccepted, IsBirth;
  }

  lemma UploadRollsBack(s: State, id: JobId, c: Choice, s': State)
    requires Inv(s) && AllRolledBack(s) && UploadCalled(s, id, c, s') && RollbackSucceeds(s, UploadCall(id, c))
    ensures AllRolledBack(s')
  {
    hide Inv, U.Next, UploadPast, U.Files, RolledBack, UploadFits, RowFits, UnclaimedFits, ClaimedFits;
    FactsAt(s, id);
    assert RolledBack(s.uploads[id].phase, s.jobs[id]);
    UploadCallRollsBack(s.uploads[id], s.jobs[id], s.past[id], s.clock, c);
  }

  lemma StepRollsBack(s: State, step: Step)
    requires Inv(s) && AllRolledBack(s) && Enabled(s, step) && RollbackSucceeds(s, step)
    ensures Inv(Next(s, step)) && AllRolledBack(Next(s, step))
  {
    hide Inv, Enabled, Next, UploadCalled, AllGrow, U.Next, W.Next;
    var s' := Next(s, step);
    StepKeeps(s, step);
    StepForm(s, step);
    match step
    case StartUpload(_, _, _, _) => StartRollsBack(s, step, s');
    case UploadCall(id, c) => UploadRollsBack(s, id, c, s');
    case WorkerCall(r, c) => WorkerRollsBack(s, r, c, s');
    case SweepCall(k, c) =>
    case _ =>
  }

  lemma StartRollsBack(s: State, step: Step, s': State)
    requires AllRolledBack(s) && Enabled(s, step) && step.StartUpload? && s' == Next(s, step)
    ensures AllRolledBack(s')
  {
    hide U.Intake;
  }

  lemma WorkerRollsBack(s: State, r: nat, c: Choice, s': State)
    requires AllRolledBack(s) && WorkerCalled(s, r, c, s')
    ensures AllRolledBack(s')
  {
    hide W.Next, W.Saved, WorkerPast;
    RowNeverInserted(s.jobs[s.runs[r].id], s.files, s.runs[r].id, s.runs[r].phase, c);
  }

  lemma {:induction false} LeadsRolledBack(a: State, steps: seq<Step>, s: State)
    requires Inv(a) && AllRolledBack(a) && LeadsIf(a, steps, s, RollbackSucceeds)
    ensures AllRolledBack(s)
    decreases |steps|
  {
    hide Inv, Enabled, Next, AllRolledBack, RollbackSucceeds;
    if steps != [] {
      StepRollsBack(a, steps[0]);
      LeadsRolledBack(Next(a, steps[0]), steps[1..], s);
    }
  }

  /** If no rollback fails to delete its row, every row that has not expired has its source and all its
      artifacts stored. */
  lemma NoDanglingReferences(a: State, steps: seq<Step>, s: State, id: JobId)
    requires Init(a) && LeadsIf(a, steps, s, RollbackSucceeds)
    requires id in s.jobs && s.jobs[id].row.Some? && s.jobs[id].row.value.job.expiresAt > s.clock
    ensures s.jobs[id].row.value.job.FilePath() in s.files
    ensures forall art :: art in s.jobs[id].arts ==> art.path in s.files
  {
    hide Inv, LeadsIf, Leads, AllRolledBack, RollbackSucceeds;
    InitInv(a);
    LeadsIfLeads(a, steps, s, RollbackSucceeds);
    DanglingOnlyWhenRejected(a, steps, s, id);
    InitRolledBack(a);
    LeadsRolledBack(a, steps, s);
    RolledBackAt(s, id);
  }

  lemma InitRolledBack(a: State)
    requires Init(a)
    ensures AllRolledBack(a)
  {
  }

  lemma RolledBackAt(s: State, id: JobId)
    requires AllRolledBack(s) && id in s.uploads && id in s.jobs && s.jobs[id].row.Some?
    ensures !IsRejected(s.uploads[id].phase)
  {
  }
}
