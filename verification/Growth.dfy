/** What every step, and hence every run, preserves of a job: histories only grow, a terminal row
    is frozen until it is deleted, and a deleted job never comes back. */
module Growth {
  import opened Prelude
  import opened Domain
  import opened Ports
  import opened Protocol
  import opened JobView
  import opened JobInvariant
  import U = UploadSteps
  import W = WorkerSteps
  import J = JanitorSteps

  predicate JobGrows(rec: Record, p: Past, rec': Record, p': Past) {
    && rec.log <= rec'.log && rec.reports <= rec'.reports
    && p.statuses <= p'.statuses
    && (p.born.Some? ==> p'.born == p.born)
    && (p.claimant.Some? ==> p'.claimant == p.claimant)
    && (rec.row.None? && p.statuses != [] ==> rec'.row.None?)
    && (rec.row.Some? && rec'.row.Some? && rec.row.value.status.IsTerminal() ==>
          rec'.row == rec.row && rec'.arts == rec.arts)
  }

  lemma GrowsTransitive(r1: Record, p1: Past, r2: Record, p2: Past, r3: Record, p3: Past)
    requires JobGrows(r1, p1, r2, p2) && JobGrows(r2, p2, r3, p3)
    requires RowFits(r1, p1)
    ensures JobGrows(r1, p1, r3, p3)
  {
  }

  lemma UploadCallGrows(rec: Record, u: Upload, p: Past, now: Time, c: Choice)
    requires UploadFits(u, p) && RowFits(rec, p)
    requires rec.row.Some? && !p.announced ==> rec.row.value.status == Pending
    ensures var (rec', phase') := U.Next(rec, now, u.uid, u.phase, c);
            JobGrows(rec, p, rec', UploadPast(p, u.phase, phase'))
  {
    hide IsAccepted, IsBirth;
  }

  lemma UnclaimedCallGrows(rec: Record, p: Past, files: set<Path>, id: JobId, r: nat, phase: W.Phase, c: Choice)
    requires RowFits(rec, p) && p.claimant != Some(r) && !W.Claimed(phase)
    requires p.claimant.Some? && rec.row.Some? ==> rec.row.value.status != Pending
    ensures var (rec', phase') := W.Next(rec, files, id, phase, c);
            JobGrows(rec, p, rec', WorkerPast(p, r, phase, phase', rec, rec'))
  {
  }

  lemma ClaimedCallGrows(rec: Record, p: Past, files: set<Path>, id: JobId, r: nat, phase: W.Phase, c: Choice)
    requires RowFits(rec, p) && p.claimant == Some(r) && W.Claimed(phase) && p.statuses == CommittedAt(phase)
    ensures var (rec', phase') := W.Next(rec, files, id, phase, c);
            JobGrows(rec, p, rec', WorkerPast(p, r, phase, phase', rec, rec'))
  {
  }

  ghost predicate AllGrow(s: State, s': State) {
    forall id :: id in s.jobs && id in s.past ==>
      id in s'.jobs && id in s'.past && JobGrows(s.jobs[id], s.past[id], s'.jobs[id], s'.past[id])
  }

  lemma SameGrow(rec: Record, p: Past)
    ensures JobGrows(rec, p, rec, p)
  {
  }

  /** A step that changes the record and history of one job only. */
  lemma OneGrows(s: State, s': State, id: JobId)
    requires id in s.jobs && id in s.past && id in s'.jobs && id in s'.past
    requires s'.jobs == s.jobs[id := s'.jobs[id]] && s'.past == s.past[id := s'.past[id]]
    requires JobGrows(s.jobs[id], s.past[id], s'.jobs[id], s'.past[id])
    ensures AllGrow(s, s')
  {
    hide JobGrows;
    forall other | other in s.jobs && other in s.past
      ensures JobGrows(s.jobs[other], s.past[other], s'.jobs[other], s'.past[other])
    {
      SameGrow(s.jobs[other], s.past[other]);
    }
  }

  lemma PendingUntilAnnounced(rec: Record, u: Upload, p: Past)
    requires UploadFits(u, p) && RowFits(rec, p) && (p.claimant.None? ==> UnclaimedFits(rec, p))
    ensures rec.row.Some? && !p.announced ==> rec.row.value.status == Pending
  {
  }

  lemma UploadStepGrows(s: State, id: JobId, c: Choice, s': State)
    requires Inv(s) && UploadCalled(s, id, c, s')
    ensures AllGrow(s, s')
  {
    hide Inv, JobGrows, Fits, U.Next, UploadPast, UploadFits, RowFits, UnclaimedFits, ClaimedFits;
    FactsAt(s, id);
    PendingUntilAnnounced(s.jobs[id], s.uploads[id], s.past[id]);
    UploadCallGrows(s.jobs[id], s.uploads[id], s.past[id], s.clock, c);
    OneGrows(s, s', id);
  }

  lemma ClaimedCommitted(id: JobId, phase: W.Phase, rec: Record, p: Past)
    requires ClaimedFits(id, phase, rec, p) && RowFits(rec, p)
    ensures p.statuses == CommittedAt(phase) && W.Claimed(phase)
    ensures rec.row.Some? ==> rec.row.value.status != Pending
  {
  }

  lemma WorkerStepGrows(s: State, r: nat, c: Choice, s': State)
    requires Inv(s) && WorkerCalled(s, r, c, s')
    ensures AllGrow(s, s')
  {
    hide Inv, JobGrows, W.Next, WorkerPast, UploadFits, RowFits, UnclaimedFits, ClaimedFits, W.Claimed, CommittedAt;
    var id, phase := s.runs[r].id, s.runs[r].phase;
    RunFactsAt(s, r);
    FactsAt(s, id);
    if s.past[id].claimant.Some? {
      ClaimedCommitted(id, s.runs[s.past[id].claimant.value].phase, s.jobs[id], s.past[id]);
    }
    if W.Claimed(phase) {
      ClaimedCallGrows(s.jobs[id], s.past[id], s.files, id, r, phase, c);
    } else {
      UnclaimedCallGrows(s.jobs[id], s.past[id], s.files, id, r, phase, c);
    }
    OneGrows(s, s', id);
  }

  lemma DroppedGrows(rec: Record, p: Past, sweep: J.Sweep, c: Choice)
    requires J.Working(sweep)
    ensures JobGrows(rec, p, J.Dropped(rec, sweep, c), p)
  {
  }

  lemma SweepStepGrows(s: State, k: nat, c: Choice, s': State)
    requires Inv(s) && SweepCalled(s, k, c, s')
    ensures AllGrow(s, s')
  {
    hide Inv, J.Next, J.Deleted, J.Dropped, JobGrows;
    KeysAt(s);
    var id := J.Current(s.sweeps[k]).id;
    DroppedGrows(s.jobs[id], s.past[id], s.sweeps[k], c);
    OneGrows(s, s', id);
  }

  lemma StartUploadGrows(s: State, step: Step, s': State)
    requires Inv(s) && Enabled(s, step) && step.StartUpload? && s' == Next(s, step)
    ensures AllGrow(s, s')
  {
    hide Inv, JobGrows, U.Intake;
    KeysAt(s);
    forall other | other in s.jobs && other in s.past
      ensures JobGrows(s.jobs[other], s.past[other], s'.jobs[other], s'.past[other])
    {
      SameGrow(s.jobs[other], s.past[other]);
    }
  }

  lemma QuietGrows(s: State, s': State)
    requires s'.jobs == s.jobs && s'.past == s.past
    ensures AllGrow(s, s')
  {
    hide JobGrows;
    forall other | other in s.jobs && other in s.past
      ensures JobGrows(s.jobs[other], s.past[other], s'.jobs[other], s'.past[other])
    {
      SameGrow(s.jobs[other], s.past[other]);
    }
  }

  lemma StepGrows(s: State, step: Step)
    requires Inv(s) && Enabled(s, step)
    ensures Inv(Next(s, step)) && AllGrow(s, Next(s, step))
  {
    hide Inv, AllGrow, Enabled, Next, UploadCalled, WorkerCalled, SweepCalled;
    StepKeeps(s, step);
    StepForm(s, step);
    var s' := Next(s, step);
    match step
    case StartUpload(_, _, _, _) => StartUploadGrows(s, step, s');
    case UploadCall(id, c) => UploadStepGrows(s, id, c, s');
    case WorkerCall(r, c) => WorkerStepGrows(s, r, c, s');
    case SweepCall(k, c) => SweepStepGrows(s, k, c, s');
    case _ => QuietGrows(s, s');
  }

  /** Along every run from a reachable state, every job only grows. */
  lemma {:induction false} LeadsGrows(a: State, steps: seq<Step>, b: State, id: JobId)
    requires Inv(a) && Leads(a, steps, b) && id in a.jobs && id in a.past
    ensures Inv(b) && id in b.jobs && id in b.past && JobGrows(a.jobs[id], a.past[id], b.jobs[id], b.past[id])
    decreases |steps|
  {
    hide Inv, Enabled, Next, JobGrows, RowFits, UploadFits, UnclaimedFits, ClaimedFits;
    if steps == [] {
      SameGrow(a.jobs[id], a.past[id]);
    } else {
      var m := Next(a, steps[0]);
      StepGrows(a, steps[0]);
      LeadsGrows(m, steps[1..], b, id);
      KeysAt(a);
      FactsAt(a, id);
      GrowsTransitive(a.jobs[id], a.past[id], m.jobs[id], m.past[id], b.jobs[id], b.past[id]);
    }
  }
}
