/** Exactly when a row that has not expired loses its source: step by step, and over whole runs. */
module Dangling {
  import opened Prelude
  import opened Domain
  import opened Ports
  import opened Protocol
  import opened JobView
  import opened JobInvariant
  import opened Growth
  import opened Lifecycle
  import opened Snapshots
  import opened References
  import J = JanitorSteps
  import U = UploadSteps
  import W = WorkerSteps

  /** The job's row exists and has not expired. */
  predicate Live(s: State, id: JobId) {
    id in s.jobs && s.jobs[id].row.Some? && s.jobs[id].row.value.job.expiresAt > s.clock
  }

  function SourceOf(s: State, id: JobId): Path
    requires Live(s, id)
  {
    s.jobs[id].row.value.job.FilePath()
  }

  /** The last rollback of the job's upload deletes its source. */
  predicate Unstores(s: State, step: Step, id: JobId) {
    step.UploadCall? && step.id == id && id in s.uploads && s.uploads[id].phase.Unstoring? && step.c.Success?
  }

  /** The rollback of the job's upload that deletes its row fails. */
  predicate KeepsRow(s: State, step: Step, id: JobId) {
    step.UploadCall? && step.id == id && id in s.uploads && s.uploads[id].phase.Unregistering? && !step.c.Success?
  }

  /** The rollback of the job's upload that deletes its row succeeds. */
  predicate Unregisters(s: State, step: Step, id: JobId) {
    step.UploadCall? && step.id == id && id in s.uploads && s.uploads[id].phase.Unregistering? && step.c.Success?
  }

  // ---- one step ----

  lemma LiveFacts(s: State, id: JobId)
    requires Inv(s) && Live(s, id)
    ensures id in s.uploads && id in s.past && s.past[id].statuses != []
    ensures SourceOf(s, id) == Source(s.uploads[id].uid)
    ensures s.past[id].born == Some(s.jobs[id].row.value.job)
    ensures !s.uploads[id].phase.Storing? && !s.uploads[id].phase.Registering?
  {
    hide Inv, UnclaimedFits, ClaimedFits, IsAccepted;
    KeysAt(s);
    FactsAt(s, id);
  }

  /** A sweep never works on a job that has not expired. */
  lemma SweptHasExpired(s: State, k: nat, id: JobId)
    requires Inv(s) && SweepsFit(s) && Live(s, id) && k in s.sweeps && J.Working(s.sweeps[k])
    ensures J.Current(s.sweeps[k]).id != id
  {
    hide Inv;
    LiveFacts(s, id);
    assert TodoFits(s.sweeps[k].Todo(), s.past, s.clock);
  }

  lemma SweepLeavesLive(s: State, k: nat, c: Choice, s': State, id: JobId)
    requires Inv(s) && SweepsFit(s) && Live(s, id) && SweepCalled(s, k, c, s')
    ensures id in s'.jobs && s'.jobs[id] == s.jobs[id]
    ensures SourceOf(s, id) in s'.files <==> SourceOf(s, id) in s.files
  {
    hide Inv, J.Deleted, J.Dropped, J.Next, UploadFits, RowFits, UnclaimedFits, ClaimedFits;
    SweptHasExpired(s, k, id);
    LiveFacts(s, id);
    KeysAt(s);
    var snap := J.Current(s.sweeps[k]);
    assert TodoFits(s.sweeps[k].Todo(), s.past, s.clock);
    FactsAt(s, snap.id);
    UploadUid(s.uploads[snap.id], s.past[snap.id]);
    DeletedOwn(s.sweeps[k], c, s.past[snap.id], s.clock);
    UidsDiffer(s, id, snap.id);
  }

  lemma UploadOnLive(s: State, u: JobId, c: Choice, s': State, id: JobId)
    requires Inv(s) && Live(s, id) && UploadCalled(s, u, c, s')
    ensures id in s'.jobs && (s'.jobs[id].row.None? <==> Unregisters(s, UploadCall(u, c), id))
    ensures SourceOf(s, id) in s'.files <==> SourceOf(s, id) in s.files && !Unstores(s, UploadCall(u, c), id)
  {
    hide Inv, UploadPast;
    LiveFacts(s, id);
    if u != id {
      UidsDiffer(s, u, id);
    }
  }

  lemma WorkerOnLive(s: State, r: nat, c: Choice, s': State, id: JobId)
    requires Inv(s) && Live(s, id) && WorkerCalled(s, r, c, s')
    ensures id in s'.jobs && s'.jobs[id].row.Some?
    ensures SourceOf(s, id) in s'.files <==> SourceOf(s, id) in s.files
  {
    hide Inv, W.Next, WorkerPast;
    LiveFacts(s, id);
    RowNeverInserted(s.jobs[s.runs[r].id], s.files, s.runs[r].id, s.runs[r].phase, c);
  }

  lemma StartOnLive(s: State, step: Step, id: JobId)
    requires Live(s, id) && id in s.uploads && Enabled(s, step) && step.StartUpload?
    ensures id in Next(s, step).jobs && Next(s, step).jobs[id] == s.jobs[id] && Next(s, step).files == s.files
  {
    hide U.Intake;
  }

  lemma LiveStep(s: State, step: Step, id: JobId)
    requires Inv(s) && SweepsFit(s) && Live(s, id) && Enabled(s, step)
    ensures id in Next(s, step).jobs
    ensures Next(s, step).jobs[id].row.None? <==> Unregisters(s, step, id)
    ensures SourceOf(s, id) in Next(s, step).files <==> SourceOf(s, id) in s.files && !Unstores(s, step, id)
  {
    hide Inv, SweepsFit, Enabled, Next, UploadCalled, WorkerCalled, SweepCalled;
    StepForm(s, step);
    LiveFacts(s, id);
    match step
    case StartUpload(_, _, _, _) => StartOnLive(s, step, id);
    case UploadCall(u, c) => UploadOnLive(s, u, c, Next(s, step), id);
    case WorkerCall(r, c) => WorkerOnLive(s, r, c, Next(s, step), id);
    case SweepCall(k, c) => SweepLeavesLive(s, k, c, Next(s, step), id);
    case _ =>
  }

  /** In every reachable state, a step takes the stored source of a row that has not expired exactly when it
      is the last rollback of that job's own upload, and takes the row exactly when it is the rollback before. */
  lemma SourceLostExactly(a: State, steps: seq<Step>, s: State, step: Step, id: JobId)
    requires Reaches(a, steps, s) && Enabled(s, step) && Live(s, id) && SourceOf(s, id) in s.files
    ensures SourceOf(s, id) !in Next(s, step).files <==> Unstores(s, step, id)
    ensures id in Next(s, step).jobs && (Next(s, step).jobs[id].row.None? <==> Unregisters(s, step, id))
  {
    hide Inv, Enabled, Next, Leads;
    InitInv(a);
    LeadsBacked(a, steps, s);
    LiveStep(s, step, id);
  }

  // ---- whole runs ----

  /** The rollback takes the source of a row that is still there. */
  function RobsRow(id: JobId): (State, Step) -> bool {
    (s, step) => Live(s, id) && Unstores(s, step, id)
  }

  function RowStays(id: JobId): (State, Step) -> bool {
    (s, step) => KeepsRow(s, step, id)
  }

  lemma ClockForward(s: State, step: Step)
    requires Enabled(s, step)
    ensures s.clock <= Next(s, step).clock
  {
    hide J.IsExpiredPage, U.Next, W.Next, UploadPast, WorkerPast, U.Intake, J.Deleted, J.Dropped, J.Next;
  }

  lemma {:induction false} ClockForwardAll(a: State, steps: seq<Step>, b: State)
    requires Leads(a, steps, b)
    ensures a.clock <= b.clock
    decreases |steps|
  {
    hide Enabled, Next;
    if steps != [] {
      ClockForward(a, steps[0]);
      ClockForwardAll(Next(a, steps[0]), steps[1..], b);
    }
  }

  /** A row appears only when its upload registers it; its upload is then about to announce it. */
  lemma RowAppears(s: State, step: Step, id: JobId)
    requires Inv(s) && Enabled(s, step)
    requires id in Next(s, step).jobs && Next(s, step).jobs[id].row.Some?
    requires id in s.jobs ==> s.jobs[id].row.None?
    ensures id in s.uploads && step == UploadCall(id, Success) && s.uploads[id].phase.Registering?
    ensures id in Next(s, step).uploads && Next(s, step).uploads[id].phase.Announcing?
  {
    hide Inv, Enabled, Next, UploadCalled, WorkerCalled, SweepCalled;
    KeysAt(s);
    StepForm(s, step);
    match step
    case StartUpload(_, _, _, _) => NoRowAtStart(s, step, id);
    case UploadCall(u, c) => RowByUpload(s, u, c, Next(s, step), id);
    case WorkerCall(r, c) => NoRowByWorker(s, r, c, Next(s, step), id);
    case SweepCall(k, c) => NoRowBySweep(s, k, c, Next(s, step), id);
    case _ =>
  }

  lemma NoRowAtStart(s: State, step: Step, id: JobId)
    requires Enabled(s, step) && step.StartUpload? && (id in s.jobs ==> s.jobs[id].row.None?)
    ensures id in Next(s, step).jobs ==> Next(s, step).jobs[id].row.None?
  {
    hide U.Intake;
  }

  lemma RowByUpload(s: State, u: JobId, c: Choice, s': State, id: JobId)
    requires UploadCalled(s, u, c, s') && (id in s.jobs ==> s.jobs[id].row.None?)
    requires id in s'.jobs && s'.jobs[id].row.Some?
    ensures u == id && c == Success && id in s.uploads && s.uploads[id].phase.Registering?
    ensures id in s'.uploads && s'.uploads[id].phase.Announcing?
  {
    hide UploadPast, U.Files;
  }

  lemma NoRowByWorker(s: State, r: nat, c: Choice, s': State, id: JobId)
    requires WorkerCalled(s, r, c, s') && (id in s.jobs ==> s.jobs[id].row.None?)
    ensures id in s'.jobs ==> s'.jobs[id].row.None?
  {
    hide W.Next, W.Saved, WorkerPast;
    RowNeverInserted(s.jobs[s.runs[r].id], s.files, s.runs[r].id, s.runs[r].phase, c);
  }

  lemma NoRowBySweep(s: State, k: nat, c: Choice, s': State, id: JobId)
    requires SweepCalled(s, k, c, s') && (id in s.jobs ==> s.jobs[id].row.None?)
    ensures id in s'.jobs ==> s'.jobs[id].row.None?
  {
    hide J.Next, J.Deleted;
  }

  /** A row that is live at the end of a run was live ever since it appeared. */
  lemma LiveBefore(m: State, steps: seq<Step>, s: State, id: JobId)
    requires Inv(m) && Leads(m, steps, s) && Live(s, id) && id in m.jobs && m.jobs[id].row.Some?
    ensures Live(m, id) && SourceOf(m, id) == SourceOf(s, id)
  {
    hide Inv, Leads, UnclaimedFits, ClaimedFits, UploadFits;
    KeysAt(m);
    FactsAt(m, id);
    LeadsGrows(m, steps, s, id);
    ClockForwardAll(m, steps, s);
    KeysAt(s);
    FactsAt(s, id);
  }

  /** A row that is gone does not come back. */
  lemma GoneForGood(m: State, steps: seq<Step>, s: State, id: JobId)
    requires Inv(m) && Leads(m, steps, s) && Live(s, id)
    requires id in m.jobs && id in m.past && m.past[id].statuses != []
    ensures m.jobs[id].row.Some?
  {
    hide Inv, Leads;
    LeadsGrows(m, steps, s, id);
  }

  lemma AppearsWithSource(m: State, step: Step, n: State, id: JobId)
    requires Inv(m) && Inv(n) && AllBacked(n) && Enabled(m, step) && n == Next(m, step) && Live(n, id)
    requires id in m.jobs ==> m.jobs[id].row.None?
    ensures SourceOf(n, id) in n.files
  {
    hide Inv, Enabled, Next, UploadFits, RowFits, UnclaimedFits, ClaimedFits;
    RowAppears(m, step, id);
    LiveFacts(n, id);
    KeysAt(n);
    FactsAt(n, id);
    assert BackedAt(n, id);
  }

  lemma {:induction false} DanglesFrom(m: State, steps: seq<Step>, s: State, id: JobId)
    requires Inv(m) && AllBacked(m) && SweepsFit(m) && Leads(m, steps, s) && Live(s, id)
    ensures SourceOf(s, id) in s.files <==>
              (Live(m, id) ==> SourceOf(m, id) in m.files) && !Happens(m, steps, s, RobsRow(id))
    decreases |steps|
  {
    hide Inv, AllBacked, SweepsFit, Enabled, Next, Live;
    if steps != [] {
      var step, n, rest := steps[0], Next(m, steps[0]), steps[1..];
      StepBacked(m, step);
      SweepsFitStep(m, step);
      DanglesFrom(n, rest, s, id);
      if Live(m, id) {
        StillLive(m, step, n, rest, s, id);
      } else if Live(n, id) {
        NotLiveYet(m, step, n, rest, s, id);
        AppearsWithSource(m, step, n, id);
      }
    }
  }

  lemma StillLive(m: State, step: Step, n: State, rest: seq<Step>, s: State, id: JobId)
    requires Inv(m) && Inv(n) && SweepsFit(m) && Live(m, id) && Enabled(m, step) && n == Next(m, step)
    requires Leads(n, rest, s) && Live(s, id)
    ensures Live(n, id) && SourceOf(n, id) == SourceOf(m, id)
    ensures SourceOf(m, id) in n.files <==> SourceOf(m, id) in m.files && !Unstores(m, step, id)
  {
    hide Inv, SweepsFit, Enabled, Next, Leads, Unstores, Unregisters;
    LiveStep(m, step, id);
    LiveFacts(m, id);
    StepGrows(m, step);
    KeysAt(m);
    assert JobGrows(m.jobs[id], m.past[id], n.jobs[id], n.past[id]);
    GoneForGood(n, rest, s, id);
    LiveBefore(n, rest, s, id);
    LiveFacts(n, id);
  }

  lemma NotLiveYet(m: State, step: Step, n: State, rest: seq<Step>, s: State, id: JobId)
    requires Inv(m) && !Live(m, id) && Enabled(m, step) && n == Next(m, step)
    requires Leads(n, rest, s) && Live(s, id)
    ensures id in m.jobs ==> m.jobs[id].row.None?
  {
    hide Inv, Enabled, Next;
    if id in m.jobs && m.jobs[id].row.Some? {
      Prepend(m, step, rest, s);
      LiveBefore(m, [step] + rest, s, id);
    }
  }

  /** Whatever fails, a row that has not expired is without its source exactly when, somewhere in the run,
      the last rollback of its own upload deleted the source while the row was there. */
  lemma DanglesExactly(a: State, steps: seq<Step>, s: State, id: JobId)
    requires Reaches(a, steps, s)
    requires id in s.jobs && s.jobs[id].row.Some? && s.jobs[id].row.value.job.expiresAt > s.clock
    ensures s.jobs[id].row.value.job.FilePath() !in s.files <==> Happens(a, steps, s, RobsRow(id))
  {
    hide Inv;
    InitInv(a);
    DanglesFrom(a, steps, s, id);
  }

  // ---- the rollback of the row ----

  /** The upload stands at its last rollback for a job that has not expired. */
  predicate RollsBack(s: State, id: JobId) {
    && id in s.uploads && id in s.past && s.uploads[id].phase.Unstoring?
    && s.past[id].born.Some? && s.past[id].born.value.expiresAt > s.clock
  }

  predicate HasRow(s: State, id: JobId) {
    id in s.jobs && s.jobs[id].row.Some?
  }

  /** Announced or about to be rolled back, the job has its row. */
  predicate Held(s: State, id: JobId) {
    id in s.uploads && (s.uploads[id].phase.Announcing? || s.uploads[id].phase.Unregistering?) ==> HasRow(s, id)
  }

  predicate Outlived(s: State, id: JobId) {
    id in s.uploads && s.uploads[id].phase.Unstoring? && HasRow(s, id)
  }

  lemma {:induction false} FinishedStays(m: State, steps: seq<Step>, s: State, id: JobId)
    requires Leads(m, steps, s) && id in m.uploads && m.uploads[id].phase.Finished?
    ensures id in s.uploads && s.uploads[id].phase.Finished?
    decreases |steps|
  {
    hide Enabled, Next;
    if steps != [] {
      UploadPhases(m, steps[0], id);
      FinishedStays(Next(m, steps[0]), steps[1..], s, id);
    }
  }

  /** Only its own calls move an upload. */
  lemma UploadPhases(s: State, step: Step, id: JobId)
    requires Enabled(s, step) && id in s.uploads
    ensures id in Next(s, step).uploads
    ensures !(step.UploadCall? && step.id == id) ==> Next(s, step).uploads[id] == s.uploads[id]
    ensures step.UploadCall? && step.id == id ==>
              && id in s.jobs && !s.uploads[id].phase.Finished?
              && id in Next(s, step).jobs
              && var (rec', phase') := U.Next(s.jobs[id], s.clock, s.uploads[id].uid, s.uploads[id].phase, step.c);
                 Next(s, step).jobs[id] == rec' && Next(s, step).uploads[id].phase == phase'
  {
    hide J.IsExpiredPage, U.Next, W.Next, UploadPast, WorkerPast, U.Intake, J.Deleted, J.Dropped, J.Next;
  }

  /** A job whose upload is rolled back unexpired had not expired before either. */
  lemma BornBefore(m: State, steps: seq<Step>, s: State, id: JobId)
    requires Inv(m) && Leads(m, steps, s) && RollsBack(s, id) && HasRow(m, id)
    ensures Live(m, id)
  {
    hide Inv, Leads, UnclaimedFits, ClaimedFits, UploadFits;
    KeysAt(m);
    FactsAt(m, id);
    LeadsGrows(m, steps, s, id);
    ClockForwardAll(m, steps, s);
  }

  lemma {:induction false} RollbackFrom(m: State, steps: seq<Step>, s: State, id: JobId)
    requires Inv(m) && SweepsFit(m) && Leads(m, steps, s) && RollsBack(s, id) && Held(m, id)
    ensures HasRow(s, id) <==> Outlived(m, id) || Happens(m, steps, s, RowStays(id))
    decreases |steps|
  {
    hide Inv, SweepsFit, Enabled, Next, Held, Outlived, KeepsRow, HasRow;
    if steps == [] {
      AtRollback(s, id);
    } else {
      var step, n, rest := steps[0], Next(m, steps[0]), steps[1..];
      StepKeeps(m, step);
      SweepsFitStep(m, step);
      Prepend(m, step, rest, s);
      if HasRow(m, id) {
        BornBefore(m, [step] + rest, s, id);
      }
      if id in n.uploads && n.uploads[id].phase.Finished? {
        FinishedStays(n, rest, s, id);
      }
      RollbackStep(m, step, n, id);
      RollbackFrom(n, rest, s, id);
    }
  }

  lemma AtRollback(s: State, id: JobId)
    requires RollsBack(s, id)
    ensures HasRow(s, id) <==> Outlived(s, id)
  {
  }

  lemma RollbackStep(m: State, step: Step, n: State, id: JobId)
    requires Inv(m) && Inv(n) && SweepsFit(m) && Enabled(m, step) && n == Next(m, step) && Held(m, id)
    requires HasRow(m, id) ==> Live(m, id)
    requires id in n.uploads ==> !n.uploads[id].phase.Finished?
    ensures Held(n, id) && (Outlived(n, id) <==> Outlived(m, id) || KeepsRow(m, step, id))
  {
    hide Inv, SweepsFit, Enabled, Next, Live, UnclaimedFits, ClaimedFits, IsAccepted, IsBirth;
    KeysAt(m);
    KeysAt(n);
    if HasRow(m, id) {
      LiveStep(m, step, id);
    } else if HasRow(n, id) {
      RowAppears(m, step, id);
    }
    if id in m.uploads {
      UploadPhases(m, step, id);
      FactsAt(m, id);
    } else if id in n.uploads {
      NewUpload(m, step, id);
    }
  }

  lemma NewUpload(s: State, step: Step, id: JobId)
    requires Enabled(s, step) && id !in s.uploads && id in Next(s, step).uploads
    ensures Next(s, step).uploads[id].phase.Storing? || Next(s, step).uploads[id].phase.Finished?
  {
    hide J.IsExpiredPage, U.Next, W.Next, UploadPast, WorkerPast, J.Deleted, J.Dropped, J.Next;
  }

  /** An upload at its last rollback, for a job that has not expired, still has its row exactly when its
      rollback DeleteJob failed. */
  lemma RowOutlivesRollback(a: State, steps: seq<Step>, s: State, id: JobId)
    requires Reaches(a, steps, s) && RollsBack(s, id)
    ensures HasRow(s, id) <==> Happens(a, steps, s, RowStays(id))
  {
    hide Inv;
    InitInv(a);
    RollbackFrom(a, steps, s, id);
  }
}
