/** What holds when no update of a job to its final status fails, and how streams end. */
module Settlement {
  import opened Prelude
  import opened Domain
  import opened Ports
  import opened Protocol
  import opened JobView
  import opened JobInvariant
  import opened Growth
  import opened Lifecycle
  import opened Streams
  import S = StreamSteps
  import W = WorkerSteps
  import U = UploadSteps

  /** The step is not a failing update of a row to completed or failed. */
  predicate UpdatesSucceed(s: State, step: Step) {
    (step.WorkerCall? && step.r in s.runs
     && (s.runs[step.r].phase.Completing? || s.runs[step.r].phase.RecordingFailure?)) ==> step.c.Success?
  }

  /** The run has made its update to a final status. */
  predicate PastUpdate(p: W.Phase) {
    p.NotifyingDone? || p.ReportingDone? || p.NotifyingFailure? || p.ReportingFailure?
    || (p.Finished? && !p.outcome.Unclaimed?)
  }

  predicate Settled(phase: W.Phase, rec: Record) {
    PastUpdate(phase) && rec.row.Some? ==> rec.row.value.status.IsTerminal()
  }

  predicate SettledAt(runs: map<nat, Run>, rec: Record, p: Past) {
    p.claimant.Some? && p.claimant.value in runs ==> Settled(runs[p.claimant.value].phase, rec)
  }

  ghost predicate AllSettled(s: State) {
    forall id :: id in s.jobs && id in s.past ==> SettledAt(s.runs, s.jobs[id], s.past[id])
  }

  lemma CallSettles(id: JobId, rec: Record, p: Past, files: set<Path>, phase: W.Phase, c: Choice)
    requires ClaimedFits(id, phase, rec, p) && RowFits(rec, p) && Settled(phase, rec)
    requires phase.Completing? || phase.RecordingFailure? ==> c.Success?
    ensures var (rec', phase') := W.Next(rec, files, id, phase, c);
            Settled(phase', rec')
  {
    hide Subseq, Carries, AttemptsAt, ReportsAt, InsertedAt;
  }

  lemma UnclaimedCallSettles(rec: Record, files: set<Path>, id: JobId, phase: W.Phase, c: Choice)
    requires !W.Claimed(phase)
    ensures var (rec', phase') := W.Next(rec, files, id, phase, c);
            && !PastUpdate(phase')
            && (rec.row.Some? && rec.row.value.status.IsTerminal() ==> rec' == rec)
            && (!phase'.Announcing? ==> rec' == rec)
  {
  }

  lemma WorkerSettles(s: State, r: nat, c: Choice, s': State)
    requires Inv(s) && AllSettled(s) && WorkerCalled(s, r, c, s') && UpdatesSucceed(s, WorkerCall(r, c))
    requires Inv(s')
    ensures AllSettled(s')
  {
    hide Inv, W.Next, Settled, ClaimedFits, UploadFits, RowFits, UnclaimedFits, WorkerPast, W.Claimed;
    var id, phase := s.runs[r].id, s.runs[r].phase;
    RunFactsAt(s, r);
    KeysAt(s);
    KeysAt(s');
    FactsAt(s, id);
    FactsAt(s', id);
    RunFactsAt(s', r);
    forall other | other in s'.jobs && other in s'.past
      ensures SettledAt(s'.runs, s'.jobs[other], s'.past[other])
    {
      if other != id {
        FactsAt(s, other);
        assert SettledAt(s.runs, s.jobs[other], s.past[other]);
      } else if W.Claimed(phase) {
        assert SettledAt(s.runs, s.jobs[id], s.past[id]);
        CallSettles(id, s.jobs[id], s.past[id], s.files, phase, c);
        ClaimantStays(s, r, c, s');
      } else {
        assert SettledAt(s.runs, s.jobs[id], s.past[id]);
        UnclaimedSettles(s, r, c, s');
      }
    }
  }

  lemma ClaimantStays(s: State, r: nat, c: Choice, s': State)
    requires WorkerCalled(s, r, c, s') && s.past[s.runs[r].id].claimant == Some(r) && W.Claimed(s.runs[r].phase)
    ensures s'.past[s.runs[r].id].claimant == Some(r)
  {
    hide W.Next;
  }

  lemma UnclaimedSettles(s: State, r: nat, c: Choice, s': State)
    requires WorkerCalled(s, r, c, s') && !W.Claimed(s.runs[r].phase)
    requires var id := s.runs[r].id;
             SettledAt(s.runs, s.jobs[id], s.past[id]) && s.past[id].claimant != Some(r)
    requires var id := s.runs[r].id;
             id in s'.past && (s'.past[id].claimant == Some(r) <==> W.Claimed(s'.runs[r].phase))
    ensures var id := s.runs[r].id; SettledAt(s'.runs, s'.jobs[id], s'.past[id])
  {
    var id := s.runs[r].id;
    UnclaimedCallSettles(s.jobs[id], s.files, id, s.runs[r].phase, c);
    hide W.Next, W.Claimed, PastUpdate;
  }

  lemma QuietSettled(s: State, s': State)
    requires AllSettled(s) && AllGrow(s, s') && Inv(s) && s'.past.Keys == s'.jobs.Keys
    requires forall id :: id in s.past ==> s'.past[id].claimant == s.past[id].claimant
    requires forall id :: id in s'.past && id !in s.past ==> s'.past[id].claimant.None?
    requires forall r :: r in s.runs ==> r in s'.runs && s'.runs[r] == s.runs[r]
    requires forall id :: id in s.past && s.past[id].claimant.Some? && s'.jobs[id].row.Some? ==>
                            s'.jobs[id].row == s.jobs[id].row
    ensures AllSettled(s')
  {
    hide Inv, ClaimedFits, UploadFits, RowFits, UnclaimedFits, AllGrow;
    KeysAt(s);
    forall id | id in s'.jobs && id in s'.past
      ensures SettledAt(s'.runs, s'.jobs[id], s'.past[id])
    {
      if id in s.past {
        FactsAt(s, id);
        assert SettledAt(s.runs, s.jobs[id], s.past[id]);
      }
    }
  }

  lemma RegisteringUnclaimed(id: JobId, u: Upload, rec: Record, p: Past, phase: W.Phase)
    requires UploadFits(u, p) && u.phase.Registering?
    ensures !ClaimedFits(id, phase, rec, p)
  {
  }

  lemma UploadSettles(s: State, id: JobId, c: Choice, s': State)
    requires Inv(s) && Inv(s') && AllSettled(s) && AllGrow(s, s') && UploadCalled(s, id, c, s')
    ensures AllSettled(s')
  {
    hide Inv, ClaimedFits, UploadFits, RowFits, UnclaimedFits, AllGrow, AllSettled;
    KeysAt(s);
    KeysAt(s');
    FactsAt(s, id);
    if s.uploads[id].phase.Registering? && s.past[id].claimant.Some? {
      RegisteringUnclaimed(id, s.uploads[id], s.jobs[id], s.past[id], s.runs[s.past[id].claimant.value].phase);
    }
    UploadRow(s.jobs[id], s.clock, s.uploads[id], s.past[id], c);
    UploadCalledForm(s, id, c, s');
    QuietSettled(s, s');
  }

  lemma UploadRow(rec: Record, now: Time, u: Upload, p: Past, c: Choice)
    ensures var (rec', phase') := U.Next(rec, now, u.uid, u.phase, c);
            && (rec'.row == rec.row || rec'.row.None? || u.phase.Registering?)
            && UploadPast(p, u.phase, phase').claimant == p.claimant
  {
  }

  lemma UploadCalledForm(s: State, id: JobId, c: Choice, s': State)
    requires UploadCalled(s, id, c, s')
    ensures s'.runs == s.runs
    ensures var (rec', phase') := U.Next(s.jobs[id], s.clock, s.uploads[id].uid, s.uploads[id].phase, c);
            && s'.jobs == s.jobs[id := rec']
            && s'.past == s.past[id := UploadPast(s.past[id], s.uploads[id].phase, phase')]
  {
    hide U.Next, UploadPast;
  }

  lemma SweepSettles(s: State, k: nat, c: Choice, s': State)
    requires Inv(s) && Inv(s') && AllSettled(s) && AllGrow(s, s') && SweepCalled(s, k, c, s')
    ensures AllSettled(s')
  {
    hide Inv, AllGrow, AllSettled;
    KeysAt(s);
    KeysAt(s');
    QuietSettled(s, s');
  }

  lemma StartSettles(s: State, step: Step, s': State)
    requires Inv(s) && Inv(s') && AllSettled(s) && AllGrow(s, s')
    requires Enabled(s, step) && step.StartUpload? && s' == Next(s, step)
    ensures AllSettled(s')
  {
    hide Inv, AllGrow, AllSettled, U.Intake;
    KeysAt(s);
    KeysAt(s');
    QuietSettled(s, s');
  }

  lemma OtherSettles(s: State, step: Step, s': State)
    requires Inv(s) && Inv(s') && AllSettled(s) && AllGrow(s, s') && Enabled(s, step) && s' == Next(s, step)
    requires !step.StartUpload? && !step.UploadCall? && !step.WorkerCall? && !step.SweepCall?
    ensures AllSettled(s')
  {
    hide Inv, AllGrow, AllSettled, Enabled, Next;
    KeysAt(s);
    KeysAt(s');
    StepForm(s, step);
    QuietForm(s, step);
    QuietSettled(s, s');
  }

  lemma StepSettles(s: State, step: Step)
    requires Inv(s) && AllSettled(s) && Enabled(s, step) && UpdatesSucceed(s, step)
    ensures Inv(Next(s, step)) && AllSettled(Next(s, step))
  {
    hide Inv, Enabled, Next, AllSettled, AllGrow, UploadCalled, WorkerCalled, SweepCalled, UpdatesSucceed;
    var s' := Next(s, step);
    StepGrows(s, step);
    StepForm(s, step);
    match step
    case StartUpload(_, _, _, _) => StartSettles(s, step, s');
    case UploadCall(id, c) => UploadSettles(s, id, c, s');
    case WorkerCall(r, c) => WorkerSettles(s, r, c, s');
    case SweepCall(k, c) => SweepSettles(s, k, c, s');
    case _ => OtherSettles(s, step, s');
  }

  ghost predicate ReachesSettling(a: State, steps: seq<Step>, s: State) {
    Init(a) && LeadsIf(a, steps, s, UpdatesSucceed)
  }

  lemma {:induction false} LeadsSettled(a: State, steps: seq<Step>, s: State)
    requires Inv(a) && AllSettled(a) && LeadsIf(a, steps, s, UpdatesSucceed)
    ensures Inv(s) && AllSettled(s)
    decreases |steps|
  {
    hide Inv, Enabled, Next, AllSettled, UpdatesSucceed;
    if steps != [] {
      StepSettles(a, steps[0]);
      LeadsSettled(Next(a, steps[0]), steps[1..], s);
    }
  }

  lemma ReachesSettled(a: State, steps: seq<Step>, s: State)
    requires ReachesSettling(a, steps, s)
    ensures Inv(s) && AllSettled(s) && Reaches(a, steps, s)
  {
    hide Inv, Enabled, Next, UpdatesSucceed;
    InitInv(a);
    LeadsSettled(a, steps, s);
    LeadsIfLeads(a, steps, s, UpdatesSucceed);
  }

  // ---- outcome of a claimed run ----

  /** When a claimed run returns, no update to a final status failed and the row was not deleted: the row
      is completed if Process returned normally, and failed with that text if it erred or panicked. */
  lemma SettledOutcome(a: State, steps: seq<Step>, s: State, r: nat)
    requires ReachesSettling(a, steps, s) && r in s.runs && s.runs[r].phase.Finished?
    requires !s.runs[r].phase.outcome.Unclaimed?
    requires s.runs[r].id in s.jobs && s.jobs[s.runs[r].id].row.Some?
    ensures var row := s.jobs[s.runs[r].id].row.value;
            match s.runs[r].phase.outcome
            case Succeeded(_) => row.status == Completed && row.error == None
            case Errored(reason, _) => row.status == Failed && row.error == Some(reason.Text()) && !reason.Unsupported?
            case _ => false
  {
    hide Inv, Leads, LeadsIf, AllSettled;
    ReachesSettled(a, steps, s);
    OutcomeOfRun(a, steps, s, r);
    AlwaysDispatched(a, steps, s, r);
    ClaimantIs(s, r);
    RowIsSettled(s, s.runs[r].id);
  }

  lemma RowIsSettled(s: State, id: JobId)
    requires AllSettled(s) && id in s.jobs && id in s.past
    ensures SettledAt(s.runs, s.jobs[id], s.past[id])
  {
  }

  // ---- stream end ----

  /** The claiming run recorded its final status. */
  predicate Recorded(p: W.Phase) {
    match p
    case NotifyingDone(_) => true
    case ReportingDone(_) => true
    case NotifyingFailure(_, recorded) => recorded
    case ReportingFailure(_, recorded) => recorded
    case Finished(Succeeded(_)) => true
    case Finished(Errored(_, recorded)) => recorded
    case _ => false
  }

  lemma TerminalInLog(id: JobId, phase: W.Phase, rec: Record, p: Past, e: StatusEvent)
    requires ClaimedFits(id, phase, rec, p) && RowFits(rec, p) && e in rec.log && e.IsTerminal()
    ensures PastUpdate(phase)
    ensures e.JobCompleted? ==> Recorded(phase)
    ensures rec.row.Some? ==> (rec.row.value.status.IsTerminal() <==> Recorded(phase))
  {
    hide Carries, InsertedAt;
    SubseqMembers(rec.log, AttemptsAt(phase));
    AttemptsShape(phase);
    assert e in AttemptsAt(phase) + ReportsAt(phase);
  }

  /** A stream that consumed a terminal event and re-reads an existing row ends exactly when the claiming
      run recorded its final status; it then shows that status last. */
  lemma ReadAfterTerminal(a: State, steps: seq<Step>, s: State, t: nat, rendered: bool)
    requires Reaches(a, steps, s) && t in s.streams
    requires s.streams[t].phase.Rereading? && s.streams[t].phase.trigger.IsTerminal()
    requires RecordOf(s, s.streams[t].id).row.Some?
    ensures var id := s.streams[t].id;
            && id in s.past && s.past[id].claimant.Some? && s.past[id].claimant.value in s.runs
            && var after := S.Next(s.streams[t], s.jobs[id], S.Read(Success, rendered));
            && (after.phase.Closed? <==> Recorded(s.runs[s.past[id].claimant.value].phase))
            && (s.streams[t].phase.trigger.JobCompleted? ==> after.phase.Closed?)
            && (after.phase.Closed? && rendered ==>
                  after.shown == s.streams[t].shown + [s.jobs[id].row.value.status]
                  && s.jobs[id].row.value.status.IsTerminal())
  {
    hide Inv, Reaches, ClaimedFits, UploadFits, RowFits, UnclaimedFits, Recorded;
    ReachesStreams(a, steps, s);
    var id := s.streams[t].id;
    KeysAt(s);
    FactsAt(s, id);
    assert s.streams[t].phase.trigger in s.jobs[id].log;
    if s.past[id].claimant.None? {
      NoLogUnclaimed(s.jobs[id], s.past[id]);
    } else {
      TerminalInLog(id, s.runs[s.past[id].claimant.value].phase, s.jobs[id], s.past[id], s.streams[t].phase.trigger);
    }
  }

  lemma NoLogUnclaimed(rec: Record, p: Past)
    requires UnclaimedFits(rec, p)
    ensures rec.log == []
  {
  }

  /** If no update to a final status fails and the row is not deleted, consuming a terminal event and a
      successful re-read end the stream with the terminal card. */
  lemma TerminalEventEndsStream(a: State, steps: seq<Step>, s: State, t: nat, rendered: bool)
    requires ReachesSettling(a, steps, s) && t in s.streams
    requires s.streams[t].phase.Rereading? && s.streams[t].phase.trigger.IsTerminal()
    requires RecordOf(s, s.streams[t].id).row.Some?
    ensures Enabled(s, StreamMove(t, S.Read(Success, rendered)))
    ensures var after := Next(s, StreamMove(t, S.Read(Success, rendered))).streams[t];
            && after.phase.Closed?
            && (rendered ==> after.shown != [] && after.shown[|after.shown| - 1].IsTerminal())
  {
    hide Inv, Reaches, ReachesSettling, AllSettled, ClaimedFits, UploadFits, RowFits, UnclaimedFits, Recorded;
    ReachesSettled(a, steps, s);
    ReadAfterTerminal(a, steps, s, t, rendered);
    var id := s.streams[t].id;
    KeysAt(s);
    FactsAt(s, id);
    ReachesStreams(a, steps, s);
    TerminalInLog(id, s.runs[s.past[id].claimant.value].phase, s.jobs[id], s.past[id], s.streams[t].phase.trigger);
    RowIsSettled(s, id);
  }

  /** A subscribed stream that still has an event to come, on a job whose row is terminal, ends with the
      terminal card by moves of its own, at most three, if the bus delivers and the read succeeds. */
  lemma StreamDrains(a: State, before: seq<Step>, s: State, t: nat) returns (moves: seq<Step>, s': State)
    requires Reaches(a, before, s) && t in s.streams && S.Subscribed(s.streams[t])
    requires s.streams[t].phase.Rereading? || s.streams[t].channel != []
             || s.streams[t].cursor < |RecordOf(s, s.streams[t].id).log|
    requires var row := RecordOf(s, s.streams[t].id).row; row.Some? && row.value.status.IsTerminal()
    ensures |moves| <= 3 && (forall m :: m in moves ==> m.StreamMove? && m.t == t && !m.move.Disconnect?)
    ensures Leads(s, moves, s') && t in s'.streams && s'.streams[t].phase.Closed?
    ensures s'.streams[t].shown == s.streams[t].shown + [RecordOf(s, s.streams[t].id).row.value.status]
  {
    hide Reaches;
    NoDroppedProgress(a, before, s, t);
    moves, s' := Drain(s, t);
  }

  /** Deliver if the channel is empty, receive, re-read. */
  lemma Drain(s: State, t: nat) returns (moves: seq<Step>, s': State)
    requires t in s.streams && S.Subscribed(s.streams[t])
    requires s.streams[t].channel != [] || s.streams[t].phase.Rereading?
             || s.streams[t].cursor < |RecordOf(s, s.streams[t].id).log|
    requires |s.streams[t].channel| < S.CHANNEL_CAPACITY
    requires var row := RecordOf(s, s.streams[t].id).row; row.Some? && row.value.status.IsTerminal()
    ensures |moves| <= if s.streams[t].phase.Rereading? then 1 else if s.streams[t].channel != [] then 2 else 3
    ensures forall m :: m in moves ==> m.StreamMove? && m.t == t && !m.move.Disconnect?
    ensures Leads(s, moves, s') && t in s'.streams && s'.streams[t].phase.Closed?
    ensures s'.streams[t].shown == s.streams[t].shown + [RecordOf(s, s.streams[t].id).row.value.status]
    decreases if s.streams[t].phase.Rereading? then 0 else if s.streams[t].channel != [] then 1 else 2
  {
    var move := if s.streams[t].phase.Rereading? then S.Read(Success, true)
                else if s.streams[t].channel != [] then S.Receive else S.Callback;
    var next := Next(s, StreamMove(t, move));
    var rest;
    if s.streams[t].phase.Rereading? {
      rest, s' := [], next;
    } else {
      rest, s' := Drain(next, t);
    }
    Prepend(s, StreamMove(t, move), rest, s');
    moves := [StreamMove(t, move)] + rest;
  }
}
