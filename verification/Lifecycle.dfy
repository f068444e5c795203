/** Properties of every job in every reachable state, whatever calls fail and however uploads,
    worker runs, sweeps and streams interleave. */
module Lifecycle {
  import opened Prelude
  import opened Domain
  import opened Ports
  import opened Protocol
  import opened JobView
  import opened JobInvariant
  import opened Growth
  import W = WorkerSteps
  import J = JanitorSteps
  import Media
  import JobLocal
  import Pages

  ghost predicate Reaches(a: State, steps: seq<Step>, s: State) {
    Init(a) && Leads(a, steps, s)
  }

  lemma ReachesInv(a: State, steps: seq<Step>, s: State)
    requires Reaches(a, steps, s)
    ensures Inv(s)
  {
    hide Inv;
    InitInv(a);
    LeadsKeeps(a, steps, s);
  }

  // ---- exclusive claim ----

  /** Two runs past the processing update of one job are one run, and Process was entered at most once. */
  lemma ExclusiveClaim(a: State, steps: seq<Step>, s: State)
    requires Reaches(a, steps, s)
    ensures forall r1, r2 ::
              (r1 in s.runs && r2 in s.runs && s.runs[r1].id == s.runs[r2].id &&
               W.Claimed(s.runs[r1].phase) && W.Claimed(s.runs[r2].phase)) ==> r1 == r2
    ensures forall id :: id in s.past ==> s.past[id].begun <= 1
  {
    hide Inv, RunFits;
    ReachesInv(a, steps, s);
    forall r1, r2 | r1 in s.runs && r2 in s.runs && s.runs[r1].id == s.runs[r2].id
                    && W.Claimed(s.runs[r1].phase) && W.Claimed(s.runs[r2].phase)
      ensures r1 == r2
    {
      ClaimantIs(s, r1);
      ClaimantIs(s, r2);
    }
    KeysAt(s);
    forall id | id in s.past
      ensures s.past[id].begun <= 1
    {
      BegunOnce(s, id);
    }
  }

  lemma ClaimantIs(s: State, r: nat)
    requires Inv(s) && r in s.runs && W.Claimed(s.runs[r].phase)
    ensures s.runs[r].id in s.past && s.past[s.runs[r].id].claimant == Some(r)
  {
    hide Inv;
    RunFactsAt(s, r);
  }

  lemma BegunOnce(s: State, id: JobId)
    requires Inv(s) && id in s.uploads
    ensures id in s.past && s.past[id].begun <= 1
  {
    hide Inv, Subseq, UploadFits, RowFits;
    FactsAt(s, id);
  }

  /** Once a row exists, only the run that claimed the job changes it or its artifacts, short of deletion. */
  lemma OnlyClaimantWrites(a: State, steps: seq<Step>, s: State, step: Step, id: JobId)
    requires Reaches(a, steps, s) && Enabled(s, step)
    requires id in s.jobs && s.jobs[id].row.Some?
    ensures var s' := Next(s, step);
            && id in s'.jobs
            && (s'.jobs[id].row.Some? && (s'.jobs[id].row != s.jobs[id].row || s'.jobs[id].arts != s.jobs[id].arts) ==>
                  && step.WorkerCall? && step.r in s.runs && s.runs[step.r].id == id
                  && s'.past[id].claimant == Some(step.r))
  {
    hide Inv, Next, Enabled, JobGrows;
    ReachesInv(a, steps, s);
    KeysAt(s);
    StepGrows(s, step);
    StepForm(s, step);
    var s' := Next(s, step);
    match step
    case WorkerCall(r, c) => WorkerWrites(s, r, c, s', id);
    case UploadCall(u, c) => UploadWrites(s, u, c, s', id);
    case SweepCall(k, c) =>
    case StartUpload(other, _, _, _) => StartWrites(s, step, id);
    case _ =>
  }

  lemma StartWrites(s: State, step: Step, id: JobId)
    requires Enabled(s, step) && step.StartUpload? && id in s.jobs && id in s.uploads
    ensures id in Next(s, step).jobs && Next(s, step).jobs[id] == s.jobs[id]
  {
  }

  lemma UploadWrites(s: State, u: JobId, c: Choice, s': State, id: JobId)
    requires Inv(s) && UploadCalled(s, u, c, s') && id in s.jobs && s.jobs[id].row.Some?
    ensures s'.jobs[id].row.Some? ==> s'.jobs[id].row == s.jobs[id].row && s'.jobs[id].arts == s.jobs[id].arts
  {
  }

  lemma WorkerWrites(s: State, r: nat, c: Choice, s': State, id: JobId)
    requires Inv(s) && WorkerCalled(s, r, c, s') && id in s.jobs && s.jobs[id].row.Some?
    ensures id in s'.jobs && id in s'.past
    ensures s'.jobs[id].row != s.jobs[id].row || s'.jobs[id].arts != s.jobs[id].arts ==>
              s.runs[r].id == id && s'.past[id].claimant == Some(r)
  {
    hide Inv;
    KeysAt(s);
    RunFactsAt(s, r);
  }

  // ---- events ----

  /** On a job's status subject and on the broadcast subjects together: progress first, at most one
      terminal event on each, never both outcomes, and completed only after the row was committed so. */
  predicate EventsTrue(rec: Record, p: Past) {
    && |rec.log| <= 3 && |rec.reports| <= 1
    && (forall i :: 0 <= i < |rec.log| && rec.log[i].IsTerminal() ==> i == |rec.log| - 1)
    && (forall e :: e in rec.log + rec.reports && e.JobCompleted? ==> Completed in p.statuses)
    && (forall e :: e in rec.log + rec.reports && e.JobFailed? ==> Completed !in p.statuses)
    && (forall e, f | e in rec.log + rec.reports && f in rec.log + rec.reports ::
          e.IsTerminal() && f.IsTerminal() ==> e == f)
  }

  /** The terminal event a phase has attempted, if any. */
  function TerminalAt(p: W.Phase): Option<StatusEvent> {
    match p
    case ReportingDone(result) => Some(JobCompleted(result))
    case ReportingFailure(reason, _) => Some(JobFailed(reason.Text()))
    case Finished(Succeeded(result)) => Some(JobCompleted(result))
    case Finished(Errored(reason, _)) => Some(JobFailed(reason.Text()))
    case _ => None
  }

  lemma AttemptsShape(p: W.Phase)
    ensures |AttemptsAt(p)| <= 3 && |ReportsAt(p)| <= 1
    ensures forall e :: e in AttemptsAt(p) + ReportsAt(p) && e.IsTerminal() ==> TerminalAt(p) == Some(e)
    ensures forall i :: 0 <= i < |AttemptsAt(p)| && AttemptsAt(p)[i].IsTerminal() ==> i == |AttemptsAt(p)| - 1
    ensures TerminalAt(p).Some? && TerminalAt(p).value.JobCompleted? <==>
              p.ReportingDone? || (p.Finished? && p.outcome.Succeeded?)
  {
  }

  lemma ClaimedEventsTrue(id: JobId, phase: W.Phase, rec: Record, p: Past)
    requires ClaimedFits(id, phase, rec, p)
    ensures EventsTrue(rec, p)
  {
    hide Subseq, Carries, AttemptsAt, ReportsAt, InsertedAt, ErrorAt;
    var attempts, reports := AttemptsAt(phase), ReportsAt(phase);
    AttemptsShape(phase);
    SubseqMembers(rec.log, attempts);
    SubseqMembers(rec.reports, reports);
    assert forall e :: e in rec.log + rec.reports ==> e in attempts + reports;
    assert forall i :: 0 <= i < |rec.log| ==> rec.log[i] in rec.log;
    forall i | 0 <= i < |rec.log| && rec.log[i].IsTerminal()
      ensures i == |rec.log| - 1
    {
      SubseqLast(rec.log, attempts, i);
    }
  }

  lemma EventTruth(a: State, steps: seq<Step>, s: State, id: JobId)
    requires Reaches(a, steps, s) && id in s.jobs
    ensures id in s.past && EventsTrue(s.jobs[id], s.past[id])
  {
    hide Inv, ClaimedFits, UploadFits, RowFits;
    ReachesInv(a, steps, s);
    KeysAt(s);
    FactsAt(s, id);
    if s.past[id].claimant.Some? {
      ClaimedEventsTrue(id, s.runs[s.past[id].claimant.value].phase, s.jobs[id], s.past[id]);
    }
  }

  // ---- rows ----

  /** A path of CanTransitionTo starting at pending. */
  predicate LegalPath(statuses: seq<JobStatus>) {
    && (statuses != [] ==> statuses[0] == Pending)
    && (forall i :: 0 < i < |statuses| ==> statuses[i - 1].CanTransitionTo(statuses[i]))
  }

  /** The error column is set exactly on failed rows; artifacts exist only for processing or completed
      rows, carry the job's id and come, in order and without repetition, from the one result of
      Process for that job; and the immutable part of the row is what NewJob built. */
  predicate RowSound(id: JobId, rec: Record, p: Past) {
    && LegalPath(p.statuses)
    && (rec.row.None? ==> rec.arts == [])
    && (rec.row.Some? ==>
          var row := rec.row.value;
          && p.statuses != [] && row.status == p.statuses[|p.statuses| - 1]
          && p.born == Some(row.job) && row.job.createdAt < row.job.expiresAt
          && (row.error.Some? <==> row.status == Failed)
          && (rec.arts != [] ==> row.status == Processing || row.status == Completed)
          && ArtifactsSound(id, row.job, rec.arts))
  }

  predicate ArtifactsSound(id: JobId, job: Job, arts: seq<Artifact>) {
    Subseq(arts, if job.mediaType == "application/pdf"
                 then [Artifact(id, Product(job.uid, ExtractedText)), Artifact(id, Product(job.uid, Cover))]
                 else [Artifact(id, Product(job.uid, Thumb)), Artifact(id, Product(job.uid, Medium)),
                       Artifact(id, Product(job.uid, Optimized))])
  }

  /** The artifacts of an accepted job, written out. */
  lemma ResultIs(id: JobId, job: Job, arts: seq<Artifact>, proc: Media.Processor)
    requires IsAccepted(job.mediaType) && Media.FirstMatch(Media.PROCESSORS, job.mediaType) == Some(proc)
    requires Subseq(arts, proc.Produced(id, job.uid, |proc.Plan()|))
    ensures ArtifactsSound(id, job, arts)
  {
    Media.AcceptedHasOneProcessor(job.mediaType);
    hide Media.FirstMatch, Media.Normalize, Subseq;
    Media.MakesExactly(proc, id, job.uid);
  }

  lemma SubseqPrefix<T>(a: seq<T>, b: seq<T>, n: nat)
    requires n <= |b| && Subseq(a, b[..n])
    ensures Subseq(a, b)
    decreases |b| - n
  {
    if n == |b| {
      assert b[..n] == b;
    } else {
      SubseqSkip(a, b[..n], b[n]);
      assert b[..n] + [b[n]] == b[..n + 1];
      SubseqPrefix(a, b, n + 1);
    }
  }

  lemma ClaimedArtifactsSound(id: JobId, phase: W.Phase, rec: Record, p: Past)
    requires ClaimedFits(id, phase, rec, p) && IsAccepted(p.born.value.mediaType)
    ensures ArtifactsSound(id, p.born.value, rec.arts)
  {
    hide Media.FirstMatch, IsAccepted, AttemptsAt, ReportsAt, ErrorAt, CommittedAt;
    JobLocal.AcceptedIsChosen(p.born.value.mediaType);
    if rec.arts == [] {
    } else {
      if phase.Persisting? {
        SubseqPrefix(rec.arts, phase.result, phase.next);
      }
      ResultIs(id, p.born.value, rec.arts, Media.FirstMatch(Media.PROCESSORS, p.born.value.mediaType).value);
    }
  }

  /** Artifacts were inserted only by runs whose committed history does not end in failure. */
  lemma ClaimedRowSound(id: JobId, phase: W.Phase, rec: Record, p: Past)
    requires ClaimedFits(id, phase, rec, p) && RowFits(rec, p)
    ensures LegalPath(p.statuses)
    ensures rec.row.Some? ==> (rec.row.value.error.Some? <==> rec.row.value.status == Failed)
    ensures rec.row.Some? && rec.arts != [] ==> rec.row.value.status != Failed && rec.row.value.status != Pending
  {
    hide Carries, AttemptsAt, ReportsAt;
  }

  lemma RowInvariant(a: State, steps: seq<Step>, s: State, id: JobId)
    requires Reaches(a, steps, s) && id in s.jobs
    ensures id in s.past && RowSound(id, s.jobs[id], s.past[id])
  {
    hide Inv, ClaimedFits, IsAccepted, Media.FirstMatch;
    ReachesInv(a, steps, s);
    KeysAt(s);
    FactsAt(s, id);
    var rec, p := s.jobs[id], s.past[id];
    if p.claimant.Some? {
      var phase := s.runs[p.claimant.value].phase;
      ClaimedRowSound(id, phase, rec, p);
      if rec.row.Some? {
        ClaimedArtifactsSound(id, phase, rec, p);
      }
    } else if rec.row.Some? {
      JobLocal.AcceptedIsChosen(p.born.value.mediaType);
    }
  }

  /** Along every run: the committed statuses only grow; a terminal row and its artifacts stay as they
      are while the row exists; a deleted row, and with it its artifacts, never comes back. */
  lemma FrozenTerminalRows(a: State, before: seq<Step>, s: State, steps: seq<Step>, t: State, id: JobId)
    requires Reaches(a, before, s) && Leads(s, steps, t) && id in s.jobs && id in s.past
    ensures id in t.jobs && id in t.past
    ensures s.past[id].statuses <= t.past[id].statuses && LegalPath(t.past[id].statuses)
    ensures s.jobs[id].row.Some? && s.jobs[id].row.value.status.IsTerminal() && t.jobs[id].row.Some? ==>
              t.jobs[id].row == s.jobs[id].row && t.jobs[id].arts == s.jobs[id].arts
    ensures s.jobs[id].row.None? && s.past[id].statuses != [] ==> t.jobs[id].row.None? && t.jobs[id].arts == []
    ensures s.jobs[id].row.Some? && t.jobs[id].row.Some? ==> t.jobs[id].row.value.job == s.jobs[id].row.value.job
  {
    hide Inv, Enabled, Next, ClaimedFits, UnclaimedFits, UploadFits;
    ReachesInv(a, before, s);
    LeadsGrows(s, steps, t, id);
    KeysAt(s);
    KeysAt(t);
    FactsAt(s, id);
    FactsAt(t, id);
    if t.past[id].claimant.Some? {
      ClaimedRowSound(id, t.runs[t.past[id].claimant.value].phase, t.jobs[id], t.past[id]);
    } else {
      UnclaimedPath(t.jobs[id], t.past[id]);
    }
  }

  lemma UnclaimedPath(rec: Record, p: Past)
    requires UnclaimedFits(rec, p)
    ensures LegalPath(p.statuses)
  {
  }

  // ---- outcomes ----

  /** A run that reached its update to completed or failed has it refused only by a failing call or
      because the row is gone. */
  lemma UpdatesAreLegal(a: State, steps: seq<Step>, s: State, r: nat, c: Choice)
    requires Reaches(a, steps, s) && r in s.runs && Enabled(s, WorkerCall(r, c)) && c.Success?
    requires s.runs[r].phase.Completing? || s.runs[r].phase.RecordingFailure?
    requires s.jobs[s.runs[r].id].row.Some?
    ensures var s' := Next(s, WorkerCall(r, c));
            var row := s'.jobs[s.runs[r].id].row;
            && row.Some?
            && (s.runs[r].phase.Completing? ==>
                  row.value.status == Completed && row.value.error == None && s'.runs[r].phase.NotifyingDone?)
            && (s.runs[r].phase.RecordingFailure? ==>
                  row.value.status == Failed && row.value.error == Some(s.runs[r].phase.reason.Text())
                  && s'.runs[r].phase == W.NotifyingFailure(s.runs[r].phase.reason, true))
  {
    hide Inv, Subseq, UploadFits, Carries;
    ReachesInv(a, steps, s);
    ClaimantIs(s, r);
    KeysAt(s);
    FactsAt(s, s.runs[r].id);
  }

  /** What a finished run has left in the table, as long as the row exists. */
  predicate OutcomeHolds(outcome: W.Outcome, row: Row) {
    match outcome
    case Unclaimed(_) => true
    case Succeeded(_) => row.status == Completed && row.error == None
    case CompletionLost(_, _) => row.status == Processing
    case Errored(reason, recorded) =>
      if recorded then row.status == Failed && row.error == Some(reason.Text()) else row.status == Processing
  }

  lemma OutcomeOfRun(a: State, steps: seq<Step>, s: State, r: nat)
    requires Reaches(a, steps, s) && r in s.runs && s.runs[r].phase.Finished?
    requires s.runs[r].id in s.jobs && s.jobs[s.runs[r].id].row.Some?
    ensures OutcomeHolds(s.runs[r].phase.outcome, s.jobs[s.runs[r].id].row.value)
  {
    hide Inv, Subseq, UploadFits, Carries;
    ReachesInv(a, steps, s);
    if W.Claimed(s.runs[r].phase) {
      ClaimantIs(s, r);
      KeysAt(s);
      FactsAt(s, s.runs[r].id);
    }
  }

  /** An uploaded job always finds its processor: the unsupported branch is never taken. */
  lemma AlwaysDispatched(a: State, steps: seq<Step>, s: State, r: nat)
    requires Reaches(a, steps, s) && r in s.runs
    ensures match s.runs[r].phase
            case RecordingFailure(reason) => !reason.Unsupported?
            case NotifyingFailure(reason, _) => !reason.Unsupported?
            case ReportingFailure(reason, _) => !reason.Unsupported?
            case Finished(Errored(reason, _)) => !reason.Unsupported?
            case _ => true
  {
    hide Inv, Subseq, UploadFits, RowFits, Chosen, FromProcess, CommittedAt, AttemptsAt, ReportsAt, InsertedAt;
    ReachesInv(a, steps, s);
    if W.Claimed(s.runs[r].phase) {
      ClaimantIs(s, r);
      KeysAt(s);
      FactsAt(s, s.runs[r].id);
    }
  }

  /** Nothing keeps the surroundings back: in every state an upload, a sweep or a stream can start, an event be
      delivered to a new run, whatever other runs there are, duplicated or lost, and time pass. */
  lemma SurroundingsFree(s: State)
    ensures forall id, uid, req, ttl :: id !in s.uploads && uid !in s.owner && ttl > 0 ==>
                                          Enabled(s, StartUpload(id, uid, req, ttl))
    ensures forall k, limit :: k !in s.sweeps ==> Enabled(s, StartSweep(k, limit))
    ensures forall t, id :: t !in s.streams ==> Enabled(s, OpenStream(t, id))
    ensures forall id :: id in s.queue ==> Enabled(s, Duplicate(id)) && Enabled(s, Lose(id))
    ensures forall id, r :: id in s.queue && r !in s.runs ==> Enabled(s, Deliver(r, id))
    ensures forall d :: Enabled(s, Tick(d))
  {
    hide J.IsExpiredPage;
  }

  /** No process is stuck: every unfinished upload, run and sweep has its next call enabled. */
  lemma CallsEnabled(a: State, steps: seq<Step>, s: State, c: Choice)
    requires Reaches(a, steps, s)
    ensures forall id :: id in s.uploads && !s.uploads[id].phase.Finished? ==> Enabled(s, UploadCall(id, c))
    ensures forall r :: r in s.runs && !s.runs[r].phase.Finished? ==> Enabled(s, WorkerCall(r, c))
    ensures forall k :: k in s.sweeps ==> SweepGoesOn(s, k, c)
  {
    hide Inv, J.IsExpiredPage;
    ReachesInv(a, steps, s);
    KeysAt(s);
    forall r | r in s.runs && !s.runs[r].phase.Finished?
      ensures Enabled(s, WorkerCall(r, c))
    {
      RunFactsAt(s, r);
    }
    forall k | k in s.sweeps
      ensures SweepGoesOn(s, k, c)
    {
      SweepEnabled(s, k, c);
    }
  }

  /** The next call of the sweep is enabled: its page query, for some answer; its artifact query; its next
      deletion. */
  ghost predicate SweepGoesOn(s: State, k: nat, c: Choice)
    requires k in s.sweeps
  {
    match s.sweeps[k]
    case Listing(_) => exists page :: Enabled(s, List(k, page, c))
    case Fetching(_, _) => Enabled(s, Fetch(k, c))
    case Clearing(_, _, _) => Enabled(s, SweepCall(k, c))
    case Dropping(_, _) => Enabled(s, SweepCall(k, c))
    case Finished(_) => true
    case Aborted => true
  }

  lemma SweepEnabled(s: State, k: nat, c: Choice)
    requires Inv(s) && k in s.sweeps
    ensures SweepGoesOn(s, k, c)
  {
    hide Inv, J.IsExpiredPage;
    match s.sweeps[k]
    case Listing(limit) =>
      var page := Pages.PageExists(s.jobs, s.clock, J.PageSize(limit));
      assert Enabled(s, List(k, page, c));
    case Fetching(_, _) => FetchIdKnown(s, k);
    case Clearing(_, _, _) => SweepIdKnown(s, k);
    case Dropping(_, _) => SweepIdKnown(s, k);
    case _ =>
  }

  lemma FetchIdKnown(s: State, k: nat)
    requires Inv(s) && k in s.sweeps && s.sweeps[k].Fetching?
    ensures s.sweeps[k].fetched < |s.sweeps[k].todo| && s.sweeps[k].todo[s.sweeps[k].fetched].id in s.jobs
  {
    hide AllFit, Identities, QueueFits, RunsFit;
    assert SweepKnown(s.jobs.Keys, s.sweeps[k]);
  }

  lemma SweepIdKnown(s: State, k: nat)
    requires Inv(s) && k in s.sweeps && (s.sweeps[k].Clearing? || s.sweeps[k].Dropping?)
    ensures J.Working(s.sweeps[k]) && J.Current(s.sweeps[k]).id in s.jobs
  {
    hide AllFit, Identities, QueueFits, RunsFit;
    assert SweepKnown(s.jobs.Keys, s.sweeps[k]);
  }
}
