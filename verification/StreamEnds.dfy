/** Exactly when a subscribed stream on a settled job can still end by itself. */
module StreamEnds {
  import opened Domain
  import opened Ports
  import opened Protocol
  import opened JobView
  import opened JobInvariant
  import opened Lifecycle
  import opened Settlement
  import opened Leaks
  import S = StreamSteps
  import W = WorkerSteps
  import U = UploadSteps
  import J = JanitorSteps

  /** Something is on its way to the stream: an event in its channel or on the bus, or a re-read. */
  predicate Awaiting(s: State, t: nat)
    requires t in s.streams
  {
    s.streams[t].phase.Rereading? || s.streams[t].channel != []
    || s.streams[t].cursor < |RecordOf(s, s.streams[t].id).log|
  }

  /** The run that claimed the job has finished. */
  ghost predicate Over(s: State, id: JobId) {
    && id in s.jobs && id in s.past && s.past[id].claimant.Some?
    && s.past[id].claimant.value in s.runs && s.runs[s.past[id].claimant.value].phase.Finished?
  }

  /** The job's row is there and has its final status. */
  predicate Concluded(rec: Record) {
    rec.row.Some? && rec.row.value.status.IsTerminal()
  }

  /** Between the two nothing was published, and the row is the same or gone. */
  predicate Quiet(rec: Record, rec': Record) {
    rec'.log == rec.log && (rec'.row == rec.row || rec'.row.None?)
  }

  /** Once the claiming run has finished nothing more is published about the job, and its row stays as it is
      until it is deleted. */
  lemma SilentStep(s: State, step: Step, id: JobId)
    requires Inv(s) && Over(s, id) && Enabled(s, step)
    ensures Over(Next(s, step), id) && Quiet(s.jobs[id], Next(s, step).jobs[id])
  {
    hide Inv, Next, Enabled, UploadCalled, WorkerCalled, SweepCalled;
    KeysAt(s);
    StepForm(s, step);
    var s' := Next(s, step);
    match step
    case StartUpload(_, _, _, _) => StartSilent(s, step, id);
    case UploadCall(u, c) => UploadSilent(s, u, c, s', id);
    case WorkerCall(r, c) => WorkerSilent(s, r, c, s', id);
    case SweepCall(k, c) => SweepSilent(s, k, c, s', id);
    case _ => QuietForm(s, step);
  }

  lemma StartSilent(s: State, step: Step, id: JobId)
    requires step.StartUpload? && Over(s, id) && Enabled(s, step) && id in s.uploads
    ensures Over(Next(s, step), id) && Quiet(s.jobs[id], Next(s, step).jobs[id])
  {
    hide U.Intake;
  }

  lemma UploadSilent(s: State, u: JobId, c: Choice, s': State, id: JobId)
    requires Inv(s) && Over(s, id) && UploadCalled(s, u, c, s')
    ensures Over(s', id) && Quiet(s.jobs[id], s'.jobs[id])
  {
    hide Inv, U.Next, UploadPast, U.Files, UploadFits, RowFits, UnclaimedFits, ClaimedFits;
    UploadRow(s.jobs[u], s.clock, s.uploads[u], s.past[u], c);
    UploadLog(s.jobs[u], s.clock, s.uploads[u], c);
    if u == id {
      FactsAt(s, id);
      if s.uploads[id].phase.Registering? {
        RegisteringUnclaimed(id, s.uploads[id], s.jobs[id], s.past[id], s.runs[s.past[id].claimant.value].phase);
      }
    }
  }

  lemma UploadLog(rec: Record, now: Time, u: Upload, c: Choice)
    ensures U.Next(rec, now, u.uid, u.phase, c).0.log == rec.log
  {
  }

  lemma WorkerSilent(s: State, r: nat, c: Choice, s': State, id: JobId)
    requires Inv(s) && Over(s, id) && WorkerCalled(s, r, c, s')
    ensures Over(s', id) && Quiet(s.jobs[id], s'.jobs[id])
  {
    hide Inv, W.Next, W.Saved, WorkerPast;
    if s.runs[r].id == id {
      SecondRunQuiet(s, r, c, s');
    }
  }

  lemma SweepSilent(s: State, k: nat, c: Choice, s': State, id: JobId)
    requires Over(s, id) && SweepCalled(s, k, c, s')
    ensures Over(s', id) && Quiet(s.jobs[id], s'.jobs[id])
  {
    hide J.Next, J.Deleted;
  }

  /** A subscribed stream on a job that is over: the row has no final status to read, or the stream waits with
      nothing on its way. */
  ghost predicate Stuck(s: State, t: nat) {
    && t in s.streams && S.Subscribed(s.streams[t]) && Over(s, s.streams[t].id)
    && (Concluded(s.jobs[s.streams[t].id]) ==> !Awaiting(s, t))
  }

  /** A step of the stream itself; a row without final status does not end it. */
  lemma StreamStays(s: State, step: Step, t: nat)
    requires Stuck(s, t) && Enabled(s, step) && step != StreamMove(t, S.Disconnect)
    ensures t in Next(s, step).streams && Next(s, step).streams[t].id == s.streams[t].id
    ensures S.Subscribed(Next(s, step).streams[t])
    ensures Concluded(s.jobs[s.streams[t].id]) ==> Next(s, step).streams[t] == s.streams[t]
  {
    hide J.IsExpiredPage, U.Next, W.Next, UploadPast, WorkerPast, U.Intake, J.Deleted, J.Dropped, J.Next;
  }

  lemma {:induction false} StuckForever(s: State, steps: seq<Step>, s': State, t: nat)
    requires Inv(s) && Stuck(s, t) && Leads(s, steps, s') && StreamMove(t, S.Disconnect) !in steps
    ensures Inv(s') && Stuck(s', t)
    decreases |steps|
  {
    hide Inv, Enabled, Next, Over, S.Subscribed;
    if steps != [] {
      assert steps[0] in steps && forall step :: step in steps[1..] ==> step in steps;
      StreamStays(s, steps[0], t);
      SilentStep(s, steps[0], s.streams[t].id);
      StepKeeps(s, steps[0]);
      OverHasRecord(s, s.streams[t].id);
      OverHasRecord(Next(s, steps[0]), s.streams[t].id);
      StuckForever(Next(s, steps[0]), steps[1..], s', t);
    }
  }

  lemma OverHasRecord(s: State, id: JobId)
    requires Over(s, id)
    ensures id in s.jobs && RecordOf(s, id) == s.jobs[id]
  {
  }

  /** Some continuation closes the stream other than by a disconnect of its client. */
  ghost predicate CanEnd(s: State, t: nat) {
    exists steps, s' :: EndsBy(s, steps, s', t)
  }

  ghost predicate EndsBy(s: State, steps: seq<Step>, s': State, t: nat) {
    Leads(s, steps, s') && StreamMove(t, S.Disconnect) !in steps && t in s'.streams && s'.streams[t].phase.Closed?
  }

  /** On a job whose claiming run is over, a subscribed stream can still end exactly when something is on its
      way to it and the row is there with its final status. Otherwise it stays until its client disconnects:
      because it missed the last event, by subscribing after it was published or by a loss on the bus; because
      the final update of the row was lost; or because the row was deleted. */
  lemma EndsIffAwaiting(a: State, before: seq<Step>, s: State, t: nat)
    requires Reaches(a, before, s) && t in s.streams && S.Subscribed(s.streams[t])
    requires Over(s, s.streams[t].id)
    ensures CanEnd(s, t) <==> Awaiting(s, t) && Concluded(RecordOf(s, s.streams[t].id))
  {
    hide Inv, Reaches, Over, Leads;
    OverHasRecord(s, s.streams[t].id);
    if Awaiting(s, t) && Concluded(RecordOf(s, s.streams[t].id)) {
      var moves, s' := StreamDrains(a, before, s, t);
      NoDisconnect(moves, t);
      assert EndsBy(s, moves, s', t);
    } else if CanEnd(s, t) {
      var steps, s' :| EndsBy(s, steps, s', t);
      ReachesInv(a, before, s);
      StuckForever(s, steps, s', t);
    }
  }

  lemma NoDisconnect(moves: seq<Step>, t: nat)
    requires forall m :: m in moves ==> m.StreamMove? && m.t == t && !m.move.Disconnect?
    ensures StreamMove(t, S.Disconnect) !in moves
  {
  }
}
