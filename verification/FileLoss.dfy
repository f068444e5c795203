/** Exactly which calls make a stored file that nothing names or holds, step by step and over whole runs,
    with no hypothesis on what fails. */
module FileLoss {
  import opened Prelude
  import opened Domain
  import opened Ports
  import opened Protocol
  import opened JobView
  import opened JobInvariant
  import opened Growth
  import opened Lifecycle
  import opened Snapshots
  import opened References
  import opened Leaks
  import J = JanitorSteps
  import U = UploadSteps
  import W = WorkerSteps

  /** A row names the file, or a process in flight holds it. */
  ghost predicate Accounted(s: State, x: Path) {
    Referenced(s, x) || HeldInFlight(s, x)
  }

  // ---- one job ----

  predicate UploadHolds(u: Upload, x: Path) {
    x == Source(u.uid) && (u.phase.Registering? || u.phase.Unstoring?)
  }

  predicate RunHolds(rec: Record, claim: Option<W.Phase>, x: Path) {
    rec.row.Some? && claim.Some? && (claim.value.Saving? || claim.value.Persisting?) && Owns(claim.value, x)
  }

  predicate AccountedBy(u: Upload, rec: Record, claim: Option<W.Phase>, x: Path) {
    Names(rec, x) || UploadHolds(u, x) || RunHolds(rec, claim, x)
  }

  /** The file comes out stored and unaccounted for, and was not so before. */
  predicate LosesJob(u: Upload, rec: Record, claim: Option<W.Phase>, files: set<Path>,
                     u': Upload, rec': Record, claim': Option<W.Phase>, files': set<Path>, x: Path)
  {
    x in files' && !AccountedBy(u', rec', claim', x) && (x in files ==> AccountedBy(u, rec, claim, x))
  }

  /** A failing last rollback of a job without row. */
  predicate UploadLeaks(u: Upload, rec: Record, files: set<Path>, c: Choice, x: Path) {
    u.phase.Unstoring? && !c.Success? && rec.row.None? && x == Source(u.uid) && x in files
  }

  /** Process saves the file when the row is gone; or gives up with it saved; or the last insert is over and no
      row names the file. */
  predicate RunLeaks(rec: Record, files: set<Path>, phase: W.Phase, c: Choice, x: Path) {
    match phase
    case Saving(_, _, _) =>
      if W.Fails(phase, c) then rec.row.Some? && Owns(phase, x) && x in files
      else rec.row.None? && x in W.Saved(phase, c) && x !in files
    case Persisting(result, next) =>
      && rec.row.Some? && Owns(phase, x) && x in files && !Names(rec, x)
      && next + 1 >= |result| && !(c.Success? && next < |result| && result[next].path == x)
    case _ => false
  }

  lemma UploadCallLoses(u: Upload, rec: Record, p: Past, files: set<Path>, now: Time, c: Choice, x: Path)
    requires UploadFits(u, p) && RowFits(rec, p) && UnclaimedFits(rec, p) && x.uid == u.uid
    ensures var (rec', phase') := U.Next(rec, now, u.uid, u.phase, c);
            LosesJob(u, rec, None, files, u.(phase := phase'), rec', None, U.Files(files, u.uid, u.phase, c), x) <==>
            UploadLeaks(u, rec, files, c, x)
  {
    hide IsAccepted;
  }

  lemma ClaimedUpload(u: Upload, p: Past, x: Path)
    requires UploadFits(u, p) && p.claimant.Some?
    ensures u.phase.Finished? && !UploadHolds(u, x)
  {
    hide IsAccepted, IsBirth;
  }

  /** A file that a run owns is a product of its job. */
  lemma OwnsOwn(id: JobId, phase: W.Phase, rec: Record, p: Past, x: Path)
    requires ClaimedFits(id, phase, rec, p) && Owns(phase, x)
    ensures x.Product? && x.uid == p.born.value.uid
  {
    hide Owns;
    ClaimedHoldsProducts(id, phase, rec, p);
    ClaimedCarries(id, phase, rec, p);
    OwnedPath(phase, x);
  }

  lemma OwnedPath(phase: W.Phase, x: Path)
    requires Owns(phase, x)
    ensures (phase.Saving? && x.Product? && x.uid == phase.job.uid) || exists a :: a in phase.ResultOf() && a.path == x
  {
  }

  lemma NothingInserted(id: JobId, phase: W.Phase, rec: Record, p: Past)
    requires ClaimedFits(id, phase, rec, p) && phase.Saving?
    ensures rec.arts == [] && phase.done <= |phase.proc.Plan()|
  {
  }

  lemma SavingCallLoses(id: JobId, u: Upload, rec: Record, p: Past, files: set<Path>, phase: W.Phase, c: Choice,
                        x: Path)
    requires UploadFits(u, p) && RowFits(rec, p) && ClaimedFits(id, phase, rec, p) && p.claimant.Some? && x.uid == u.uid
    requires phase.Saving?
    ensures var (rec', phase') := W.Next(rec, files, id, phase, c);
            LosesJob(u, rec, Some(phase), files, u, rec', Some(phase'), files + W.Saved(phase, c), x) <==>
            RunLeaks(rec, files, phase, c, x)
  {
    NothingInserted(id, phase, rec, p);
    ClaimedUpload(u, p, x);
    if Owns(phase, x) {
      OwnsOwn(id, phase, rec, p, x);
    }
    UploadUid(u, p);
    if !W.Fails(phase, c) && (Owns(phase, x) || x in W.Saved(phase, c)) {
      SavedOwned(rec, files, id, phase, c, x);
    }
    hide UploadFits, ClaimedFits, Owns;
    SavingOn(rec, files, id, phase, c);
  }

  lemma SavingOn(rec: Record, files: set<Path>, id: JobId, phase: W.Phase, c: Choice)
    requires phase.Saving? && phase.done <= |phase.proc.Plan()|
    ensures var (rec', phase') := W.Next(rec, files, id, phase, c);
            rec' == rec && if W.Fails(phase, c) then phase'.RecordingFailure? else phase'.Saving? || phase'.Persisting?
  {
  }

  lemma PersistCallLoses(id: JobId, u: Upload, rec: Record, p: Past, files: set<Path>, phase: W.Phase, c: Choice,
                         x: Path)
    requires UploadFits(u, p) && RowFits(rec, p) && ClaimedFits(id, phase, rec, p) && p.claimant.Some? && x.uid == u.uid
    requires phase.Persisting?
    ensures var (rec', phase') := W.Next(rec, files, id, phase, c);
            LosesJob(u, rec, Some(phase), files, u, rec', Some(phase'), files + W.Saved(phase, c), x) <==>
            RunLeaks(rec, files, phase, c, x)
  {
    ClaimedUpload(u, p, x);
    PersistingForm(id, phase, rec, p);
    hide UploadFits, RowFits, ClaimedFits;
  }

  lemma PersistingForm(id: JobId, phase: W.Phase, rec: Record, p: Past)
    requires ClaimedFits(id, phase, rec, p) && phase.Persisting?
    ensures phase.next < |phase.result|
  {
    hide Subseq;
  }

  lemma OtherCallLoses(id: JobId, u: Upload, rec: Record, p: Past, files: set<Path>, phase: W.Phase, c: Choice, x: Path)
    requires ClaimedFits(id, phase, rec, p) && !phase.Saving? && !phase.Persisting?
    ensures var (rec', phase') := W.Next(rec, files, id, phase, c);
            && W.Saved(phase, c) == {}
            && !LosesJob(u, rec, Some(phase), files, u, rec', Some(phase'), files, x)
  {
    hide Subseq, AttemptsAt, ReportsAt, InsertedAt, UploadHolds;
  }

  /** A run that has not claimed its job loses nothing, whether or not this call claims it. */
  lemma UnclaimedCallLoses(id: JobId, u: Upload, rec: Record, files: set<Path>, phase: W.Phase, c: Choice, x: Path)
    requires !W.Claimed(phase)
    ensures var (rec', phase') := W.Next(rec, files, id, phase, c);
            && W.Saved(phase, c) == {}
            && !LosesJob(u, rec, None, files, u, rec', if W.Claimed(phase') then Some(phase') else None, files, x)
  {
    hide UploadHolds;
  }

  /** A sweep deletes the row of the job, and nothing else holds the file. */
  predicate SweepLeaks(u: Upload, rec: Record, claim: Option<W.Phase>, files: set<Path>, sweep: J.Sweep, c: Choice,
                       x: Path) {
    sweep.Dropping? && c.Success? && x in files && AccountedBy(u, rec, claim, x) && !UploadHolds(u, x)
  }

  lemma SweepCallLoses(u: Upload, rec: Record, claim: Option<W.Phase>, files: set<Path>, sweep: J.Sweep, c: Choice,
                       x: Path)
    requires J.Working(sweep)
    ensures LosesJob(u, rec, claim, files, u, J.Dropped(rec, sweep, c), claim, files - J.Deleted(sweep, c), x) <==>
            SweepLeaks(u, rec, claim, files, sweep, c, x)
  {
    hide UploadHolds, Owns;
  }

  // ---- the whole state ----

  predicate AccountedAt(s: State, id: JobId, x: Path)
    requires id in s.uploads && id in s.jobs && id in s.past
  {
    AccountedBy(s.uploads[id], s.jobs[id], ClaimOf(s.runs, s.past[id]), x)
  }

  /** A file is accounted for by the job whose upload drew its identifier, or by none. */
  lemma AccountedByOwner(s: State, id: JobId, x: Path)
    requires Inv(s) && id in s.uploads && s.uploads[id].uid == x.uid
    ensures id in s.jobs && id in s.past && (Accounted(s, x) <==> AccountedAt(s, id, x))
  {
    hide Inv, Names, Owns, ClaimedFits, UnclaimedFits, RowFits, UploadFits;
    KeysAt(s);
    FactsAt(s, id);
    if AccountedAt(s, id, x) {
      assert Names(s.jobs[id], x) ==> Referenced(s, x);
    } else if Referenced(s, x) {
      var other :| other in s.jobs && Names(s.jobs[other], x);
      NamedOwn(s, other, x);
      SameOwner(s, id, other);
    } else if HeldInFlight(s, x) {
      if other :| other in s.uploads && UploadHolds(s.uploads[other], x) {
        SameOwner(s, id, other);
      } else {
        var r :| r in s.runs && s.runs[r].id in s.jobs && s.jobs[s.runs[r].id].row.Some?
                 && (s.runs[r].phase.Saving? || s.runs[r].phase.Persisting?) && Owns(s.runs[r].phase, x);
        RunOwner(s, r, x);
        SameOwner(s, id, s.runs[r].id);
      }
    }
  }

  lemma SameOwner(s: State, id: JobId, other: JobId)
    requires Inv(s) && id in s.uploads && other in s.uploads && s.uploads[id].uid == s.uploads[other].uid
    ensures id == other
  {
    hide Inv;
    if id != other {
      UidsDiffer(s, id, other);
    }
  }

  lemma RunOwner(s: State, r: nat, x: Path)
    requires Inv(s) && r in s.runs && W.Claimed(s.runs[r].phase) && Owns(s.runs[r].phase, x)
    ensures s.runs[r].id in s.uploads && s.uploads[s.runs[r].id].uid == x.uid
    ensures s.runs[r].id in s.past && ClaimOf(s.runs, s.past[s.runs[r].id]) == Some(s.runs[r].phase)
  {
    hide Inv, Owns, ClaimedFits, RowFits, UnclaimedFits, UploadFits;
    var id := s.runs[r].id;
    ClaimantIs(s, r);
    RunFactsAt(s, r);
    FactsAt(s, id);
    OwnsOwn(id, s.runs[r].phase, s.jobs[id], s.past[id], x);
    ClaimedCarries(id, s.runs[r].phase, s.jobs[id], s.past[id]);
    UploadUid(s.uploads[id], s.past[id]);
  }

  /** The step loses the file: it leaves it stored and unaccounted for, and did not find it so. */
  ghost predicate Loses(s: State, s': State, x: Path) {
    x in s'.files && !Accounted(s', x) && (x in s.files ==> Accounted(s, x))
  }

  /** The calls that lose a file. */
  predicate LosingCall(s: State, step: Step, x: Path) {
    match step
    case UploadCall(id, c) => id in s.uploads && id in s.jobs && UploadLeaks(s.uploads[id], s.jobs[id], s.files, c, x)
    case WorkerCall(r, c) =>
      r in s.runs && s.runs[r].id in s.jobs && RunLeaks(s.jobs[s.runs[r].id], s.files, s.runs[r].phase, c, x)
    case SweepCall(k, c) =>
      && k in s.sweeps && J.Working(s.sweeps[k])
      && var id := J.Current(s.sweeps[k]).id;
      && id in s.uploads && id in s.jobs && id in s.past && s.uploads[id].uid == x.uid
      && SweepLeaks(s.uploads[id], s.jobs[id], ClaimOf(s.runs, s.past[id]), s.files, s.sweeps[k], c, x)
    case _ => false
  }

  lemma UploadLoses(s: State, u: JobId, c: Choice, s': State, id: JobId, x: Path)
    requires Inv(s) && Inv(s') && UploadCalled(s, u, c, s') && id in s.uploads && s.uploads[id].uid == x.uid
    ensures Loses(s, s', x) <==> LosingCall(s, UploadCall(u, c), x)
  {
    hide Inv, Accounted, U.Next, U.Files, UploadPast, AccountedBy, UploadFits, RowFits, UnclaimedFits, ClaimedFits;
    AccountedByOwner(s, id, x);
    AccountedByOwner(s', id, x);
    FactsAt(s, id);
    if u == id {
      var up, rec, p := s.uploads[id], s.jobs[id], s.past[id];
      Unfinished(up, p);
      ClaimantKept(p, up.phase, U.Next(rec, s.clock, up.uid, up.phase, c).1);
      UploadCallLoses(up, rec, p, s.files, s.clock, c, x);
    } else {
      UidsDiffer(s, u, id);
      OtherFiles(s.files, s.uploads[u].uid, s.uploads[u].phase, c, x);
    }
  }

  lemma OtherFiles(files: set<Path>, uid: Uid, p: U.Phase, c: Choice, x: Path)
    requires x.uid != uid
    ensures x in U.Files(files, uid, p, c) <==> x in files
  {
  }

  lemma WorkerLoses(s: State, r: nat, c: Choice, s': State, id: JobId, x: Path)
    requires Inv(s) && Inv(s') && AllGrow(s, s') && WorkerCalled(s, r, c, s') && id in s.uploads
    requires s.uploads[id].uid == x.uid
    ensures Loses(s, s', x) <==> LosingCall(s, WorkerCall(r, c), x)
  {
    hide Inv, AllGrow, Accounted, WorkerCalled, ClaimOf, AccountedBy, RunLeaks;
    KeysAt(s);
    KeysAt(s');
    CalledRun(s, r, c, s');
    AccountedByOwner(s, id, x);
    AccountedByOwner(s', id, x);
    if s.runs[r].id == id {
      WorkerLosesOwn(s, r, c, s', x);
    } else {
      WorkerLosesOther(s, r, c, s', id, x);
    }
  }

  lemma CalledRun(s: State, r: nat, c: Choice, s': State)
    requires WorkerCalled(s, r, c, s')
    ensures s'.uploads == s.uploads && r in s.runs && s.runs[r].id in s.jobs
  {
    hide W.Next, W.Saved, WorkerPast;
  }

  lemma WorkerLosesOther(s: State, r: nat, c: Choice, s': State, id: JobId, x: Path)
    requires Inv(s) && WorkerCalled(s, r, c, s') && id in s.uploads && id in s.jobs && id in s.past
    requires s.uploads[id].uid == x.uid && s.runs[r].id != id
    ensures s'.uploads == s.uploads && id in s'.jobs && id in s'.past && (x in s'.files <==> x in s.files)
    ensures AccountedAt(s', id, x) <==> AccountedAt(s, id, x)
    ensures !RunLeaks(s.jobs[s.runs[r].id], s.files, s.runs[r].phase, c, x)
  {
    hide Inv, W.Next, WorkerPast, Owns, AccountedBy, UploadFits, RowFits, UnclaimedFits, ClaimedFits, W.Saved;
    SavedUid(s, r, c);
    UidsDiffer(s, s.runs[r].id, id);
    FactsAt(s, id);
    if (s.runs[r].phase.Saving? || s.runs[r].phase.Persisting?) && Owns(s.runs[r].phase, x) {
      RunOwner(s, r, x);
    }
  }

  lemma WorkerLosesOwn(s: State, r: nat, c: Choice, s': State, x: Path)
    requires Inv(s) && Inv(s') && AllGrow(s, s') && WorkerCalled(s, r, c, s')
    requires var id := s.runs[r].id;
             && id in s.uploads && id in s'.uploads && id in s'.jobs && id in s'.past
             && s.uploads[id].uid == x.uid
    ensures var id, rec := s.runs[r].id, s.jobs[s.runs[r].id];
            LosesJob(s.uploads[id], rec, ClaimOf(s.runs, s.past[id]), s.files,
                     s'.uploads[id], s'.jobs[id], ClaimOf(s'.runs, s'.past[id]), s'.files, x) <==>
            RunLeaks(rec, s.files, s.runs[r].phase, c, x)
  {
    hide Inv, W.Next, W.Saved, WorkerPast, LosesJob, RunLeaks, UploadFits, RowFits, UnclaimedFits, ClaimedFits;
    var id, phase := s.runs[r].id, s.runs[r].phase;
    var u, rec, p := s.uploads[id], s.jobs[id], s.past[id];
    RunFactsAt(s, r);
    RunFactsAt(s', r);
    FactsAt(s, id);
    FactsAt(s', id);
    assert JobGrows(rec, p, s'.jobs[id], s'.past[id]);
    WorkerPastForm(p, r, phase, W.Next(rec, s.files, id, phase, c).1, rec, W.Next(rec, s.files, id, phase, c).0);
    if p.claimant == Some(r) {
      if phase.Saving? {
        SavingCallLoses(id, u, rec, p, s.files, phase, c, x);
      } else if phase.Persisting? {
        PersistCallLoses(id, u, rec, p, s.files, phase, c, x);
      } else {
        OtherCallLoses(id, u, rec, p, s.files, phase, c, x);
        LeaksOnlyThere(rec, s.files, phase, c, x);
        assert s'.files == s.files;
      }
    } else if p.claimant.Some? {
      SecondRunQuiet(s, r, c, s');
      LeaksOnlyThere(rec, s.files, phase, c, x);
      SameLosesNothing(u, rec, ClaimOf(s.runs, p), s.files, x);
    } else {
      UnclaimedCallLoses(id, u, rec, s.files, phase, c, x);
      LeaksOnlyThere(rec, s.files, phase, c, x);
      assert s'.files == s.files;
    }
  }

  lemma LeaksOnlyThere(rec: Record, files: set<Path>, phase: W.Phase, c: Choice, x: Path)
    ensures RunLeaks(rec, files, phase, c, x) ==> phase.Saving? || phase.Persisting?
  {
  }

  lemma SameLosesNothing(u: Upload, rec: Record, claim: Option<W.Phase>, files: set<Path>, x: Path)
    ensures !LosesJob(u, rec, claim, files, u, rec, claim, files, x)
  {
  }

  lemma SweepLoses(s: State, k: nat, c: Choice, s': State, id: JobId, x: Path)
    requires Inv(s) && Inv(s') && SweepsFit(s) && SweepCalled(s, k, c, s') && id in s.uploads
    requires s.uploads[id].uid == x.uid
    ensures Loses(s, s', x) <==> LosingCall(s, SweepCall(k, c), x)
  {
    hide Inv, Accounted, J.Next, J.Dropped, J.Deleted, AccountedBy, SweepLeaks, SnapFits, UploadFits, RowFits;
    hide UnclaimedFits, ClaimedFits;
    KeysAt(s);
    AccountedByOwner(s, id, x);
    AccountedByOwner(s', id, x);
    var snap := J.Current(s.sweeps[k]);
    assert TodoFits(s.sweeps[k].Todo(), s.past, s.clock);
    if snap.id == id {
      SweepCallLoses(s.uploads[id], s.jobs[id], ClaimOf(s.runs, s.past[id]), s.files, s.sweeps[k], c, x);
    } else {
      FactsAt(s, snap.id);
      SnapUploadUid(snap, s.uploads[snap.id], s.past[snap.id], s.clock);
      DeletedOwn(s.sweeps[k], c, s.past[snap.id], s.clock);
      UidsDiffer(s, id, snap.id);
    }
  }

  lemma StartLoses(s: State, step: Step, s': State, id: JobId, x: Path)
    requires Inv(s) && Inv(s') && Enabled(s, step) && step.StartUpload? && s' == Next(s, step)
    requires id in s.uploads && s.uploads[id].uid == x.uid
    ensures !Loses(s, s', x)
  {
    hide Inv, Accounted, U.Intake, AccountedBy;
    KeysAt(s);
    AccountedByOwner(s, id, x);
    AccountedByOwner(s', id, x);
  }

  lemma QuietLoses(s: State, step: Step, s': State, id: JobId, x: Path)
    requires Inv(s) && Inv(s') && Enabled(s, step) && s' == Next(s, step)
    requires !step.StartUpload? && !step.UploadCall? && !step.WorkerCall? && !step.SweepCall?
    requires id in s.uploads && s.uploads[id].uid == x.uid
    ensures !Loses(s, s', x)
  {
    hide Inv, Enabled, Next, Accounted, AccountedBy, ClaimOf;
    KeysAt(s);
    StepForm(s, step);
    QuietForm(s, step);
    AccountedByOwner(s, id, x);
    AccountedByOwner(s', id, x);
    ClaimKept(s, s', id);
  }

  lemma StepLoses(s: State, step: Step, x: Path)
    requires Inv(s) && SweepsFit(s) && FilesKnown(s) && Enabled(s, step)
    ensures Loses(s, Next(s, step), x) <==> LosingCall(s, step, x)
  {
    hide Inv, SweepsFit, FilesKnown, Enabled, Next, Loses, LosingCall, AllGrow, UploadCalled, WorkerCalled, SweepCalled;
    var s' := Next(s, step);
    StepGrows(s, step);
    StepForm(s, step);
    if Loses(s, s', x) || LosingCall(s, step, x) {
      var id := Owner(s, step, x);
      match step
      case StartUpload(_, _, _, _) => StartLoses(s, step, s', id, x); NotLosing(s, step, x);
      case UploadCall(u, c) => UploadLoses(s, u, c, s', id, x);
      case WorkerCall(r, c) => WorkerLoses(s, r, c, s', id, x);
      case SweepCall(k, c) => SweepLoses(s, k, c, s', id, x);
      case _ => QuietLoses(s, step, s', id, x); NotLosing(s, step, x);
    }
  }

  lemma NotLosing(s: State, step: Step, x: Path)
    requires !step.UploadCall? && !step.WorkerCall? && !step.SweepCall?
    ensures !LosingCall(s, step, x)
  {
  }

  /** A file that is stored, or about to be, carries the identifier of an upload. */
  lemma Owner(s: State, step: Step, x: Path) returns (id: JobId)
    requires Inv(s) && FilesKnown(s) && Enabled(s, step)
    requires Loses(s, Next(s, step), x) || LosingCall(s, step, x)
    ensures id in s.uploads && s.uploads[id].uid == x.uid
  {
    hide Inv, Enabled, Next, Accounted, AccountedBy, Owns, RunLeaks, UploadHolds;
    if x in s.files {
      id := OwnerOf(s, x);
    } else if x in Next(s, step).files {
      id := AddedBy(s, step, x);
    } else {
      id := LosingSave(s, step, x);
    }
  }

  lemma LosingSave(s: State, step: Step, x: Path) returns (id: JobId)
    requires Inv(s) && LosingCall(s, step, x) && x !in s.files
    ensures id in s.uploads && s.uploads[id].uid == x.uid
  {
    hide Inv, Owns, W.Saved, AccountedBy;
    SavedUid(s, step.r, step.c);
    id := s.runs[step.r].id;
  }

  // ---- the theorems ----

  lemma {:induction false} LeadsKnown(a: State, steps: seq<Step>, s: State)
    requires Inv(a) && SweepsFit(a) && FilesKnown(a) && Leads(a, steps, s)
    ensures Inv(s) && SweepsFit(s) && FilesKnown(s)
    decreases |steps|
  {
    hide Inv, SweepsFit, FilesKnown, Enabled, Next;
    if steps != [] {
      StepKeeps(a, steps[0]);
      SweepsFitStep(a, steps[0]);
      FilesKnownStep(a, steps[0]);
      LeadsKnown(Next(a, steps[0]), steps[1..], s);
    }
  }

  /** In every reachable state, whatever has failed: a step loses a file exactly when it is one of the losing
      calls. */
  lemma LostExactly(a: State, steps: seq<Step>, s: State, step: Step, x: Path)
    requires Reaches(a, steps, s) && Enabled(s, step)
    ensures Loses(s, Next(s, step), x) <==> LosingCall(s, step, x)
  {
    hide Inv, Enabled, Next, Leads, Loses, LosingCall;
    InitInv(a);
    LeadsKnown(a, steps, s);
    StepLoses(s, step, x);
  }

  ghost predicate AllAccounted(s: State) {
    forall x :: x in s.files ==> Accounted(s, x)
  }

  /** In every state of the run every stored file is accounted for. */
  ghost predicate AccountedAlong(a: State, steps: seq<Step>, b: State)
    requires Leads(a, steps, b)
    decreases |steps|
  {
    AllAccounted(a) && (steps != [] ==> AccountedAlong(Next(a, steps[0]), steps[1..], b))
  }

  ghost function LosesSome(): (State, Step) -> bool {
    (s, step) => exists x :: LosingCall(s, step, x)
  }

  lemma {:induction false} AccountedFrom(m: State, steps: seq<Step>, s: State)
    requires Inv(m) && SweepsFit(m) && FilesKnown(m) && AllAccounted(m) && Leads(m, steps, s)
    ensures AccountedAlong(m, steps, s) <==> !Happens(m, steps, s, LosesSome())
    decreases |steps|
  {
    hide Inv, SweepsFit, FilesKnown, Enabled, Next, LosingCall, Accounted;
    if steps != [] {
      var step, n := steps[0], Next(m, steps[0]);
      StepKeeps(m, step);
      SweepsFitStep(m, step);
      FilesKnownStep(m, step);
      forall x
        ensures Loses(m, n, x) <==> LosingCall(m, step, x)
      {
        StepLoses(m, step, x);
      }
      if AllAccounted(n) {
        AccountedFrom(n, steps[1..], s);
      } else {
        var x :| x in n.files && !Accounted(n, x);
        assert Loses(m, n, x);
      }
    }
  }

  /** Over every run from the empty system, whatever fails: every stored file is accounted for in every state
      exactly when the run contains no losing call. */
  lemma AccountedIffNothingLost(a: State, steps: seq<Step>, s: State)
    requires Reaches(a, steps, s)
    ensures AccountedAlong(a, steps, s) <==> !Happens(a, steps, s, LosesSome())
  {
    hide Inv;
    InitInv(a);
    AccountedFrom(a, steps, s);
  }

  /** Once a job's row is gone, no later state has a row that names one of its files, whatever happens. */
  lemma NeverNamedAgain(a: State, before: seq<Step>, s: State, steps: seq<Step>, t: State, id: JobId, x: Path)
    requires Reaches(a, before, s) && Leads(s, steps, t)
    requires id in s.uploads && s.uploads[id].uid == x.uid
    requires id in s.jobs && s.jobs[id].row.None? && id in s.past && s.past[id].statuses != []
    ensures !Referenced(t, x)
  {
    hide Inv, Leads, Names;
    ReachesInv(a, before, s);
    LeadsGrows(s, steps, t, id);
    SameUid(s, steps, t, id);
    if Referenced(t, x) {
      var other :| other in t.jobs && Names(t.jobs[other], x);
      NamedOwn(t, other, x);
      SameOwner(t, id, other);
      NoRowNoNames(t.jobs[id], x);
    }
  }

  lemma NoRowNoNames(rec: Record, x: Path)
    requires rec.row.None?
    ensures !Names(rec, x)
  {
  }

  lemma {:induction false} SameUid(s: State, steps: seq<Step>, t: State, id: JobId)
    requires Leads(s, steps, t) && id in s.uploads
    ensures id in t.uploads && t.uploads[id].uid == s.uploads[id].uid
    decreases |steps|
  {
    hide Enabled, Next;
    if steps != [] {
      UidStays(s, steps[0], id);
      SameUid(Next(s, steps[0]), steps[1..], t, id);
    }
  }

  lemma UidStays(s: State, step: Step, id: JobId)
    requires Enabled(s, step) && id in s.uploads
    ensures id in Next(s, step).uploads && Next(s, step).uploads[id].uid == s.uploads[id].uid
  {
    hide J.IsExpiredPage, U.Next, W.Next, UploadPast, WorkerPast, U.Intake, J.Deleted, J.Dropped, J.Next;
  }
}
