/** No leaked files: under the stated hypotheses every stored file is named by a row or held by a
    process in flight, and at rest the stored files are exactly the referenced ones. */
module Leaks {
  import opened Prelude
  import opened Domain
  import opened Ports
  import opened Protocol
  import opened JobView
  import opened JobLocal
  import opened JobInvariant
  import opened Growth
  import opened Lifecycle
  import opened Snapshots
  import opened References
  import J = JanitorSteps
  import S = StreamSteps
  import W = WorkerSteps
  import U = UploadSteps
  import Media

  /** Clean-up and artifact inserts succeed, Process fails only before its first Save has succeeded, and a
      listing returns terminal jobs only. */
  predicate Careful(s: State, step: Step) {
    match step
    case UploadCall(id, c) =>
      id in s.uploads && (s.uploads[id].phase.Unregistering? || s.uploads[id].phase.Unstoring?) ==> c.Success?
    case WorkerCall(r, c) =>
      r in s.runs ==>
        && (s.runs[r].phase.Persisting? ==> c.Success?)
        && (s.runs[r].phase.Saving? && s.runs[r].phase.done > 0 ==> !W.Fails(s.runs[r].phase, c))
    case SweepCall(_, c) => c.Success?
    case List(_, page, _) => forall i :: 0 <= i < |page| ==> page[i].row.status.IsTerminal()
    case _ => true
  }

  /** The run has saved the file and its artifact may still be on its way to the table. */
  predicate Owns(p: W.Phase, x: Path) {
    || (p.Saving? && exists i :: 0 <= i < p.done && i < |p.proc.Plan()| && x == Product(p.job.uid, p.proc.Plan()[i]))
    || (exists a :: a in p.ResultOf() && a.path == x)
  }

  predicate IsTerminalPath(statuses: seq<JobStatus>) {
    statuses != [] && statuses[|statuses| - 1].IsTerminal()
  }

  /** `cleaning`: some sweep has started to delete the job's files and not yet its row. */
  predicate Tidy(u: Upload, rec: Record, p: Past, claim: Option<W.Phase>, files: set<Path>, cleaning: bool) {
    && (Source(u.uid) in files ==> rec.row.Some? || u.phase.Registering? || u.phase.Unstoring?)
    && (forall kind :: Product(u.uid, kind) in files ==>
          rec.row.Some? && claim.Some? && Owns(claim.value, Product(u.uid, kind)))
    && (rec.row.Some? && claim.Some? ==> rec.arts == InsertedAt(claim.value))
    && (u.phase.Registering? ==> Source(u.uid) in files)
    && (u.phase.Unstoring? ==> rec.row.None?)
    && (rec.row.Some? && !cleaning ==> Source(u.uid) in files && (claim.Some? ==> HeldIn(claim.value, files)))
    && (u.phase.Announcing? || u.phase.Unregistering? ==> rec.row.Some?)
    && (p.announced && rec.row.None? ==> IsTerminalPath(p.statuses))
  }

  lemma UploadCallTidy(u: Upload, rec: Record, p: Past, files: set<Path>, cleaning: bool, now: Time, c: Choice)
    requires UploadFits(u, p) && RowFits(rec, p) && Tidy(u, rec, p, None, files, cleaning)
    requires u.phase.Unregistering? || u.phase.Unstoring? ==> c.Success?
    ensures var (rec', phase') := U.Next(rec, now, u.uid, u.phase, c);
            Tidy(u.(phase := phase'), rec', UploadPast(p, u.phase, phase'), None, U.Files(files, u.uid, u.phase, c),
                 cleaning)
  {
    hide IsBirth, IsAccepted;
  }

  lemma UnclaimedCallTidy(id: JobId, u: Upload, rec: Record, p: Past, files: set<Path>, cleaning: bool,
                          phase: W.Phase, c: Choice, p': Past)
    requires Tidy(u, rec, p, None, files, cleaning) && UnclaimedFits(rec, p) && RowFits(rec, p)
    requires !W.Claimed(phase)
    requires p'.announced == p.announced
    requires p'.statuses == p.statuses || W.Next(rec, files, id, phase, c).0.row.Some?
    ensures var (rec', phase') := W.Next(rec, files, id, phase, c);
            && W.Saved(phase, c) == {}
            && Tidy(u, rec', p', if W.Claimed(phase') then Some(phase') else None, files, cleaning)
  {
  }

  /** A claimed run that has not recorded a final status still has its row. */
  lemma ActiveRow(id: JobId, phase: W.Phase, u: Upload, rec: Record, p: Past, files: set<Path>, cleaning: bool)
    requires ClaimedFits(id, phase, rec, p) && p.announced && Tidy(u, rec, p, Some(phase), files, cleaning)
    requires phase.Announcing? || phase.Progressing? || phase.Opening? || phase.Saving? || phase.Persisting?
             || phase.Completing? || phase.RecordingFailure?
    ensures rec.row.Some?
  {
    hide Carries, AttemptsAt, ReportsAt, InsertedAt, HeldIn, Owns;
  }

  lemma SavingCallTidy(id: JobId, u: Upload, rec: Record, p: Past, files: set<Path>, cleaning: bool,
                       phase: W.Phase, c: Choice)
    requires Tidy(u, rec, p, Some(phase), files, cleaning) && ClaimedFits(id, phase, rec, p) && p.announced
    requires phase.Saving? && phase.job.uid == u.uid && (phase.done > 0 ==> !W.Fails(phase, c))
    ensures var (rec', phase') := W.Next(rec, files, id, phase, c);
            Tidy(u, rec', p, Some(phase'), files + W.Saved(phase, c), cleaning)
  {
    hide HeldIn, Chosen, FromProcess, AttemptsAt, ReportsAt, Subseq;
    ActiveRow(id, phase, u, rec, p, files, cleaning);
    var phase' := W.Next(rec, files, id, phase, c).1;
    var files' := files + W.Saved(phase, c);
    if HeldIn(phase, files) {
      CallHolds(id, phase, rec, files, p.born.value, c);
    }
    forall kind | Product(u.uid, kind) in files'
      ensures Owns(phase', Product(u.uid, kind))
    {
      SavedOwned(rec, files, id, phase, c, Product(u.uid, kind));
    }
  }

  /** A save moves on to a phase that owns what was owned and what was saved. */
  lemma SavedOwned(rec: Record, files: set<Path>, id: JobId, phase: W.Phase, c: Choice, x: Path)
    requires phase.Saving? && phase.done <= |phase.proc.Plan()|
    requires Owns(phase, x) || x in W.Saved(phase, c)
    requires !W.Fails(phase, c)
    ensures Owns(W.Next(rec, files, id, phase, c).1, x)
  {
    var plan := phase.proc.Plan();
    var i :| 0 <= i <= phase.done && i < |plan| && x == Product(phase.job.uid, plan[i]);
    var produced := phase.proc.Produced(id, phase.job.uid, |plan|);
    assert produced[i] in produced && produced[i].path == x;
  }

  lemma OtherCallTidy(id: JobId, u: Upload, rec: Record, p: Past, files: set<Path>, cleaning: bool,
                      phase: W.Phase, c: Choice, p': Past)
    requires Tidy(u, rec, p, Some(phase), files, cleaning) && ClaimedFits(id, phase, rec, p) && RowFits(rec, p)
    requires p.announced
    requires !phase.Saving? && !phase.Persisting?
    requires p'.announced && (p'.statuses == p.statuses || W.Next(rec, files, id, phase, c).0.row.Some?)
    ensures var (rec', phase') := W.Next(rec, files, id, phase, c);
            && W.Saved(phase, c) == {}
            && Tidy(u, rec', p', Some(phase'), files, cleaning)
  {
    hide Chosen, FromProcess, AttemptsAt, ReportsAt, Subseq, CommittedAt, Media.FirstMatch;
  }

  lemma PersistCallTidy(id: JobId, u: Upload, rec: Record, p: Past, files: set<Path>, cleaning: bool,
                        phase: W.Phase, c: Choice)
    requires Tidy(u, rec, p, Some(phase), files, cleaning) && ClaimedFits(id, phase, rec, p) && p.announced
    requires phase.Persisting? && c.Success?
    ensures var (rec', phase') := W.Next(rec, files, id, phase, c);
            && W.Saved(phase, c) == {} && Tidy(u, rec', p, Some(phase'), files, cleaning)
  {
    hide Chosen, FromProcess, AttemptsAt, ReportsAt, Subseq, InsertedAt;
    ActiveRow(id, phase, u, rec, p, files, cleaning);
    InsertedNext(phase, W.Next(rec, files, id, phase, c).1);
  }

  // ---- sweeps ----

  /** Some sweep is past its first deletion for the job. */
  predicate Touching(sweep: J.Sweep, id: JobId) {
    J.Working(sweep) && J.Current(sweep).id == id && (sweep.Dropping? || sweep.at > 0)
  }

  ghost predicate Cleaning(sweeps: map<nat, J.Sweep>, id: JobId) {
    exists k :: k in sweeps && Touching(sweeps[k], id)
  }

  /** The snapshot is of a terminal job, and still shows the job's artifacts if the row exists. */
  predicate SnapCurrent(snap: J.Snapshot, rec: Record, p: Past) {
    IsTerminalPath(p.statuses) && (rec.row.Some? ==> rec.arts == snap.arts)
  }

  /** What the sweep has deleted of its current job stays deleted. */
  predicate Gone(sweep: J.Sweep, files: set<Path>) {
    J.Working(sweep) ==>
      forall i :: 0 <= i < |J.Current(sweep).Files()| && (sweep.Dropping? || i < sweep.at) ==>
        J.Current(sweep).Files()[i] !in files
  }

  /** The listed jobs are terminal, and the first `known` snapshots still show their artifacts. */
  ghost predicate TodoCurrent(todo: seq<J.Snapshot>, known: nat, s: State) {
    forall i :: 0 <= i < |todo| ==>
      && todo[i].id in s.jobs && todo[i].id in s.past && IsTerminalPath(s.past[todo[i].id].statuses)
      && (i < known ==> SnapCurrent(todo[i], s.jobs[todo[i].id], s.past[todo[i].id]))
  }

  ghost predicate SweepsTidy(s: State) {
    forall k :: k in s.sweeps ==> TodoCurrent(s.sweeps[k].Todo(), s.sweeps[k].Known(), s) && Gone(s.sweeps[k], s.files)
  }

  ghost predicate TidyAt(s: State, id: JobId)
    requires id in s.uploads && id in s.jobs && id in s.past
  {
    Tidy(s.uploads[id], s.jobs[id], s.past[id], ClaimOf(s.runs, s.past[id]), s.files, Cleaning(s.sweeps, id))
  }

  ghost predicate AllTidy(s: State) {
    forall id :: id in s.uploads && id in s.jobs && id in s.past ==> TidyAt(s, id)
  }

  /** Every stored file carries an identifier some upload drew. */
  ghost predicate FilesKnown(s: State) {
    forall x :: x in s.files ==> x.uid in s.owner
  }

  ghost predicate LeakInv(s: State) {
    AllTidy(s) && SweepsTidy(s) && SweepsFit(s) && FilesKnown(s)
  }

  // ---- frames ----

  /** A step that leaves a job, its claim and its files alone, and starts no cleaning of it. */
  lemma TidyFrame(s: State, id: JobId, files': set<Path>, cleaning': bool)
    requires Inv(s) && id in s.uploads && id in s.jobs && id in s.past && TidyAt(s, id)
    requires forall x: Path :: x.uid == s.uploads[id].uid ==> (x in files' <==> x in s.files)
    requires Cleaning(s.sweeps, id) ==> cleaning'
    ensures Tidy(s.uploads[id], s.jobs[id], s.past[id], ClaimOf(s.runs, s.past[id]), files', cleaning')
  {
    hide Inv, RowFits, UnclaimedFits, ClaimedFits, Owns;
    FactsAt(s, id);
    if s.past[id].claimant.Some? {
      var phase := s.runs[s.past[id].claimant.value].phase;
      ClaimedHoldsProducts(id, phase, s.jobs[id], s.past[id]);
      ClaimedCarries(id, phase, s.jobs[id], s.past[id]);
    }
  }

  lemma {:induction false} TerminalIsLast(statuses: seq<JobStatus>, statuses': seq<JobStatus>)
    requires IsTerminalPath(statuses) && statuses <= statuses' && LegalPath(statuses')
    ensures statuses' == statuses
  {
    assert |statuses'| > |statuses| ==> statuses'[|statuses| - 1].CanTransitionTo(statuses'[|statuses|]);
  }

  /** A snapshot of a terminal job stays current, and its history stays as it is. */
  lemma SnapStays(s: State, s': State, snap: J.Snapshot)
    requires Inv(s) && Inv(s') && AllGrow(s, s')
    requires snap.id in s.jobs && snap.id in s.past && IsTerminalPath(s.past[snap.id].statuses)
    ensures snap.id in s'.jobs && snap.id in s'.past && IsTerminalPath(s'.past[snap.id].statuses)
    ensures SnapCurrent(snap, s.jobs[snap.id], s.past[snap.id]) ==>
              SnapCurrent(snap, s'.jobs[snap.id], s'.past[snap.id])
  {
    hide Inv, ClaimedFits, UnclaimedFits, UploadFits;
    var id := snap.id;
    KeysAt(s);
    KeysAt(s');
    FactsAt(s, id);
    FactsAt(s', id);
    assert JobGrows(s.jobs[id], s.past[id], s'.jobs[id], s'.past[id]);
    if s'.past[id].claimant.Some? {
      ClaimedRowSound(id, s'.runs[s'.past[id].claimant.value].phase, s'.jobs[id], s'.past[id]);
    } else {
      UnclaimedPath(s'.jobs[id], s'.past[id]);
    }
    TerminalIsLast(s.past[id].statuses, s'.past[id].statuses);
  }

  lemma TodoStays(s: State, s': State, todo: seq<J.Snapshot>, known: nat)
    requires Inv(s) && Inv(s') && AllGrow(s, s') && TodoCurrent(todo, known, s)
    ensures TodoCurrent(todo, known, s')
  {
    hide Inv, AllGrow, SnapCurrent;
    forall i | 0 <= i < |todo|
      ensures todo[i].id in s'.jobs && todo[i].id in s'.past && IsTerminalPath(s'.past[todo[i].id].statuses)
      ensures i < known ==> SnapCurrent(todo[i], s'.jobs[todo[i].id], s'.past[todo[i].id])
    {
      SnapStays(s, s', todo[i]);
    }
  }

  lemma PageCurrent(s: State, size: nat, page: seq<J.Snapshot>)
    requires Inv(s) && J.IsExpiredPage(s.jobs, s.clock, size, page)
    requires forall i :: 0 <= i < |page| ==> page[i].row.status.IsTerminal()
    ensures TodoCurrent(J.Bare(page), 0, s)
  {
    hide Inv, ClaimedFits, UploadFits, UnclaimedFits;
    KeysAt(s);
    var bare := J.Bare(page);
    forall i | 0 <= i < |bare|
      ensures bare[i].id in s.jobs && bare[i].id in s.past && IsTerminalPath(s.past[bare[i].id].statuses)
    {
      assert J.Expired(s.jobs, s.clock, page[i].id) && page[i] == J.SnapshotOf(s.jobs, page[i].id);
      FactsAt(s, bare[i].id);
    }
  }

  /** The artifacts fetched are those of the row, if it is still there. */
  lemma FetchCurrent(s: State, sweep: J.Sweep, todo': seq<J.Snapshot>)
    requires sweep.Fetching? && TodoCurrent(sweep.todo, sweep.fetched, s) && FetchedInto(s, sweep, todo')
    ensures TodoCurrent(todo', sweep.fetched + 1, s)
  {
  }

  /** The files a step adds are not files of a job that is being swept. */
  lemma AddedNotSwept(s: State, snap: J.Snapshot, id: JobId, x: Path)
    requires Inv(s) && snap.id in s.jobs && snap.id in s.past
    requires SnapFits(snap, s.past[snap.id], s.clock) && SnapCurrent(snap, s.jobs[snap.id], s.past[snap.id])
    requires id in s.uploads && x.uid == s.uploads[id].uid
    requires s.uploads[id].phase.Storing?
             || (s.past[id].claimant.Some? && s.past[id].claimant.value in s.runs
                 && s.runs[s.past[id].claimant.value].phase.Saving?)
    ensures x !in snap.Files()
  {
    hide Inv, Carries, AttemptsAt, ReportsAt, InsertedAt, Subseq, RowFits, UnclaimedFits, IsAccepted;
    KeysAt(s);
    FactsAt(s, id);
    FactsAt(s, snap.id);
    UploadUid(s.uploads[snap.id], s.past[snap.id]);
    if id != snap.id {
      UidsDiffer(s, id, snap.id);
      SnapUids(snap, s.past[snap.id], s.clock);
    }
  }

  lemma SnapUids(snap: J.Snapshot, p: Past, clock: Time)
    requires SnapFits(snap, p, clock)
    ensures forall x :: x in snap.Files() ==> x.uid == snap.row.job.uid
  {
    forall x | x in snap.Files()
      ensures x.uid == snap.row.job.uid
    {
      var i :| 0 <= i < |snap.Files()| && snap.Files()[i] == x;
      if i > 0 {
        assert snap.arts[i - 1] in snap.arts;
      }
    }
  }

  lemma GoneStays(sweep: J.Sweep, files: set<Path>, files': set<Path>)
    requires Gone(sweep, files)
    requires J.Working(sweep) ==> forall x :: x in files' && x !in files ==> x !in J.Current(sweep).Files()
    ensures Gone(sweep, files')
  {
  }

  // ---- steps ----

  lemma UploadTidy(s: State, id: JobId, c: Choice, s': State)
    requires Inv(s) && Inv(s') && AllTidy(s) && UploadCalled(s, id, c, s') && Careful(s, UploadCall(id, c))
    ensures AllTidy(s')
  {
    hide Inv, Tidy, U.Next, U.Files, UploadPast, UploadFits, RowFits, UnclaimedFits, ClaimedFits, Cleaning;
    KeysAt(s);
    forall other | other in s'.uploads && other in s'.jobs && other in s'.past
      ensures TidyAt(s', other)
    {
      assert TidyAt(s, other);
      if other == id {
        UploadTidyOwn(s, id, c, s');
      } else {
        UploadTidyOther(s, id, c, s', other);
      }
    }
  }

  lemma UploadTidyOwn(s: State, id: JobId, c: Choice, s': State)
    requires Inv(s) && UploadCalled(s, id, c, s') && TidyAt(s, id) && Careful(s, UploadCall(id, c))
    ensures TidyAt(s', id)
  {
    hide Inv, Tidy, U.Next, U.Files, UploadPast, RowFits, UnclaimedFits, ClaimedFits, Cleaning;
    FactsAt(s, id);
    var u, rec, p := s.uploads[id], s.jobs[id], s.past[id];
    Unfinished(u, p);
    UploadCallTidy(u, rec, p, s.files, Cleaning(s.sweeps, id), s.clock, c);
    ClaimantKept(p, u.phase, U.Next(rec, s.clock, u.uid, u.phase, c).1);
  }

  lemma UploadTidyOther(s: State, id: JobId, c: Choice, s': State, other: JobId)
    requires Inv(s) && UploadCalled(s, id, c, s') && other != id
    requires other in s.uploads && other in s.jobs && other in s.past && TidyAt(s, other)
    ensures TidyAt(s', other)
  {
    hide Inv, Tidy, U.Next, UploadPast, Cleaning;
    UidsDiffer(s, id, other);
    TidyFrame(s, other, s'.files, Cleaning(s.sweeps, other));
  }

  lemma WorkerTidy(s: State, r: nat, c: Choice, s': State)
    requires Inv(s) && Inv(s') && AllTidy(s) && AllGrow(s, s') && WorkerCalled(s, r, c, s')
    requires Careful(s, WorkerCall(r, c))
    ensures AllTidy(s')
  {
    hide Inv, W.Next, W.Saved, WorkerPast, Tidy, UploadFits, RowFits, UnclaimedFits, ClaimedFits, Cleaning;
    hide Careful, AllGrow;
    KeysAt(s);
    forall other | other in s'.uploads && other in s'.jobs && other in s'.past
      ensures TidyAt(s', other)
    {
      assert TidyAt(s, other);
      if other == s.runs[r].id {
        WorkerTidyOwn(s, r, c, s');
      } else {
        WorkerTidyOther(s, r, c, s', other);
      }
    }
  }

  lemma SavedUid(s: State, r: nat, c: Choice)
    requires Inv(s) && r in s.runs
    ensures s.runs[r].id in s.uploads && s.runs[r].id in s.past
    ensures forall x :: x in W.Saved(s.runs[r].phase, c) ==>
              x.uid == s.uploads[s.runs[r].id].uid && x.Product? && s.past[s.runs[r].id].claimant == Some(r)
  {
    hide Inv, RowFits, UnclaimedFits, ClaimedFits, IsAccepted;
    RunFactsAt(s, r);
    if s.runs[r].phase.Saving? {
      var id := s.runs[r].id;
      FactsAt(s, id);
      ClaimedCarries(id, s.runs[r].phase, s.jobs[id], s.past[id]);
    }
  }

  lemma WorkerTidyOther(s: State, r: nat, c: Choice, s': State, other: JobId)
    requires Inv(s) && Inv(s') && WorkerCalled(s, r, c, s') && other != s.runs[r].id
    requires other in s.uploads && other in s.jobs && other in s.past && TidyAt(s, other)
    ensures other in s'.uploads && other in s'.jobs && other in s'.past && TidyAt(s', other)
  {
    hide Inv, W.Next, W.Saved, WorkerPast, Tidy, Cleaning, UploadFits, RowFits, UnclaimedFits, ClaimedFits;
    SavedUid(s, r, c);
    UidsDiffer(s, s.runs[r].id, other);
    FactsAt(s, other);
    TidyFrame(s, other, s'.files, Cleaning(s.sweeps, other));
  }

  lemma WorkerTidyOwn(s: State, r: nat, c: Choice, s': State)
    requires Inv(s) && Inv(s') && AllGrow(s, s') && WorkerCalled(s, r, c, s') && Careful(s, WorkerCall(r, c))
    requires s.runs[r].id in s.uploads && TidyAt(s, s.runs[r].id)
    ensures s.runs[r].id in s'.uploads && TidyAt(s', s.runs[r].id)
  {
    hide Inv, W.Next, W.Saved, WorkerPast, Tidy, Cleaning, UploadFits, RowFits, UnclaimedFits, ClaimedFits;
    var id, phase := s.runs[r].id, s.runs[r].phase;
    var rec, p := s.jobs[id], s.past[id];
    KeysAt(s');
    RunFactsAt(s, r);
    RunFactsAt(s', r);
    FactsAt(s, id);
    FactsAt(s', id);
    UploadUid(s.uploads[id], p);
    assert JobGrows(rec, p, s'.jobs[id], s'.past[id]);
    var cleaning := Cleaning(s.sweeps, id);
    StatusesForm(p, r, phase, W.Next(rec, s.files, id, phase, c).1, rec, W.Next(rec, s.files, id, phase, c).0);
    if p.claimant == Some(r) {
      ClaimedCarries(id, phase, rec, p);
      if phase.Saving? {
        SavingCallTidy(id, s.uploads[id], rec, p, s.files, cleaning, phase, c);
        SavingQuiet(rec, s.files, id, phase, c, p, r);
      } else if phase.Persisting? {
        PersistCallTidy(id, s.uploads[id], rec, p, s.files, cleaning, phase, c);
        PersistQuiet(rec, s.files, id, phase, c, p, r);
        assert s'.files == s.files;
      } else {
        OtherCallTidy(id, s.uploads[id], rec, p, s.files, cleaning, phase, c, s'.past[id]);
        assert s'.files == s.files;
      }
    } else if p.claimant.Some? {
      SecondRunQuiet(s, r, c, s');
    } else {
      UnclaimedCallTidy(id, s.uploads[id], rec, p, s.files, cleaning, phase, c, s'.past[id]);
      WorkerPastForm(p, r, phase, W.Next(rec, s.files, id, phase, c).1, rec, W.Next(rec, s.files, id, phase, c).0);
      assert s'.files == s.files;
    }
  }

  lemma StatusesForm(p: Past, r: nat, phase: W.Phase, phase': W.Phase, rec: Record, rec': Record)
    ensures var p' := WorkerPast(p, r, phase, phase', rec, rec');
            p'.announced == p.announced && (p'.statuses == p.statuses || rec'.row.Some?)
  {
  }

  lemma SavingQuiet(rec: Record, files: set<Path>, id: JobId, phase: W.Phase, c: Choice, p: Past, r: nat)
    requires phase.Saving?
    ensures var (rec', phase') := W.Next(rec, files, id, phase, c);
            rec' == rec && WorkerPast(p, r, phase, phase', rec, rec') == p
  {
  }

  lemma PersistQuiet(rec: Record, files: set<Path>, id: JobId, phase: W.Phase, c: Choice, p: Past, r: nat)
    requires phase.Persisting?
    ensures var (rec', phase') := W.Next(rec, files, id, phase, c);
            WorkerPast(p, r, phase, phase', rec, rec') == p
  {
  }

  /** A run that finds the job claimed by another one changes nothing. */
  lemma SecondRunQuiet(s: State, r: nat, c: Choice, s': State)
    requires Inv(s) && WorkerCalled(s, r, c, s')
    requires s.past[s.runs[r].id].claimant.Some? && s.past[s.runs[r].id].claimant != Some(r)
    ensures s'.jobs == s.jobs && s'.past == s.past && s'.files == s.files
  {
    hide Inv, UploadFits, UnclaimedFits, ClaimedFits;
    var id := s.runs[r].id;
    RunFactsAt(s, r);
    FactsAt(s, id);
    ClaimedCommitted(id, s.runs[s.past[id].claimant.value].phase, s.jobs[id], s.past[id]);
    SecondCallQuiet(s.jobs[id], s.files, id, s.runs[r].phase, c, s.past[id], r);
    hide W.Next, W.Saved, WorkerPast;
  }

  lemma SecondCallQuiet(rec: Record, files: set<Path>, id: JobId, phase: W.Phase, c: Choice, p: Past, r: nat)
    requires !W.Claimed(phase) && (rec.row.Some? ==> rec.row.value.status != Pending)
    ensures var (rec', phase') := W.Next(rec, files, id, phase, c);
            rec' == rec && WorkerPast(p, r, phase, phase', rec, rec') == p && W.Saved(phase, c) == {}
  {
  }

  /** The job a sweep is at: deleting a file marks it as being cleaned, and its row goes only when nothing
      of it is left. */
  lemma SweepTidyOwn(u: Upload, rec: Record, p: Past, claim: Option<W.Phase>, files: set<Path>, clock: Time,
                     sweep: J.Sweep, c: Choice, before: bool, after: bool)
    requires Tidy(u, rec, p, claim, files, before) && UploadFits(u, p) && c.Success? && J.Working(sweep)
    requires SnapFits(J.Current(sweep), p, clock) && SnapCurrent(J.Current(sweep), rec, p) && Gone(sweep, files)
    requires claim.Some? <==> p.claimant.Some?
    requires claim.Some? ==> ClaimedFits(J.Current(sweep).id, claim.value, rec, p)
    requires claim.None? ==> UnclaimedFits(rec, p)
    requires sweep.Clearing? ==> after
    ensures Tidy(u, J.Dropped(rec, sweep, c), p, claim, files - J.Deleted(sweep, c), after)
  {
    hide Carries, AttemptsAt, ReportsAt, Subseq, HeldIn, IsAccepted, Owns;
    if sweep.Dropping? {
      NothingLeft(u, rec, p, claim, files, before, sweep, clock);
    }
  }

  lemma NothingLeft(u: Upload, rec: Record, p: Past, claim: Option<W.Phase>, files: set<Path>, cleaning: bool,
                    sweep: J.Sweep, clock: Time)
    requires Tidy(u, rec, p, claim, files, cleaning) && UploadFits(u, p) && J.Working(sweep) && sweep.Dropping?
    requires SnapFits(J.Current(sweep), p, clock) && SnapCurrent(J.Current(sweep), rec, p) && Gone(sweep, files)
    requires claim.Some? <==> p.claimant.Some?
    requires claim.Some? ==> ClaimedFits(J.Current(sweep).id, claim.value, rec, p)
    requires claim.None? ==> UnclaimedFits(rec, p)
    ensures Source(u.uid) !in files && forall kind :: Product(u.uid, kind) !in files
    ensures !u.phase.Registering? && !u.phase.Announcing? && !u.phase.Unregistering?
  {
    hide Carries, AttemptsAt, ReportsAt, Subseq, HeldIn, IsAccepted, InsertedAt;
    var snap := J.Current(sweep);
    assert snap.Files()[0] == Source(u.uid);
    forall kind
      ensures Product(u.uid, kind) !in files
    {
      if Product(u.uid, kind) in files {
        OwnedIsListed(snap, claim.value, rec, p, Product(u.uid, kind));
      }
    }
  }

  lemma OwnedIsListed(snap: J.Snapshot, phase: W.Phase, rec: Record, p: Past, x: Path)
    requires ClaimedFits(snap.id, phase, rec, p) && Owns(phase, x) && rec.row.Some?
    requires SnapCurrent(snap, rec, p) && rec.arts == InsertedAt(phase)
    ensures exists i :: 0 <= i < |snap.Files()| && snap.Files()[i] == x
  {
    hide Carries, AttemptsAt, ReportsAt, Subseq;
    assert phase.ResultOf() == snap.arts;
    var a :| a in phase.ResultOf() && a.path == x;
    var j :| 0 <= j < |snap.arts| && snap.arts[j] == a;
    assert snap.Files()[j + 1] == x;
  }

  lemma SweepTidy(s: State, k: nat, c: Choice, s': State)
    requires Inv(s) && LeakInv(s) && SweepCalled(s, k, c, s') && c.Success?
    ensures AllTidy(s')
  {
    hide Inv, Tidy, J.Next, J.Dropped, J.Deleted, UploadFits, RowFits, UnclaimedFits, ClaimedFits;
    hide Cleaning, SnapFits, SnapCurrent, Gone;
    KeysAt(s);
    var snap := J.Current(s.sweeps[k]);
    var sweep := s.sweeps[k];
    assert TodoFits(sweep.Todo(), s.past, s.clock) && Gone(sweep, s.files);
    assert TodoCurrent(sweep.Todo(), sweep.Known(), s);
    DeletedOwn(s.sweeps[k], c, s.past[snap.id], s.clock);
    FactsAt(s, snap.id);
    SnapUploadUid(snap, s.uploads[snap.id], s.past[snap.id], s.clock);
    forall id | id in s'.uploads && id in s'.jobs && id in s'.past
      ensures TidyAt(s', id)
    {
      assert TidyAt(s, id);
      FactsAt(s, id);
      CleaningForm(s, k, c, s', id);
      if id == snap.id {
        SweepTidyOwn(s.uploads[id], s.jobs[id], s.past[id], ClaimOf(s.runs, s.past[id]), s.files, s.clock,
                     s.sweeps[k], c, Cleaning(s.sweeps, id), Cleaning(s'.sweeps, id));
      } else {
        UidsDiffer(s, id, snap.id);
        TidyFrame(s, id, s'.files, Cleaning(s'.sweeps, id));
      }
    }
  }

  lemma SnapUploadUid(snap: J.Snapshot, u: Upload, p: Past, clock: Time)
    requires SnapFits(snap, p, clock) && UploadFits(u, p)
    ensures snap.row.job.uid == u.uid
  {
  }

  lemma CleaningForm(s: State, k: nat, c: Choice, s': State, id: JobId)
    requires SweepCalled(s, k, c, s')
    ensures id == J.Current(s.sweeps[k]).id && s.sweeps[k].Clearing? ==> Cleaning(s'.sweeps, id)
    ensures id != J.Current(s.sweeps[k]).id && Cleaning(s.sweeps, id) ==> Cleaning(s'.sweeps, id)
  {
    hide J.Dropped, J.Deleted;
    if id == J.Current(s.sweeps[k]).id && s.sweeps[k].Clearing? {
      assert Touching(s'.sweeps[k], id);
    } else if id != J.Current(s.sweeps[k]).id && Cleaning(s.sweeps, id) {
      var j :| j in s.sweeps && Touching(s.sweeps[j], id);
      assert Touching(s'.sweeps[j], id);
    }
  }

  /** Listing and the other steps start no cleaning and end none. */
  lemma QuietTidy(s: State, step: Step, s': State)
    requires Inv(s) && AllTidy(s) && Enabled(s, step) && s' == Next(s, step)
    requires !step.StartUpload? && !step.UploadCall? && !step.WorkerCall? && !step.SweepCall?
    ensures AllTidy(s')
  {
    hide Inv, Enabled, Next, Tidy, ClaimOf, Cleaning;
    KeysAt(s);
    StepForm(s, step);
    QuietForm(s, step);
    forall id | id in s'.uploads && id in s'.jobs && id in s'.past
      ensures TidyAt(s', id)
    {
      assert TidyAt(s, id);
      ClaimKept(s, s', id);
      CleaningKept(s, step, id);
      TidyFrame(s, id, s'.files, Cleaning(s'.sweeps, id));
    }
  }

  /** Such a step leaves every sweep that is at work alone. */
  lemma QuietSweep(s: State, step: Step, k: nat)
    requires Enabled(s, step)
    requires !step.StartUpload? && !step.UploadCall? && !step.WorkerCall? && !step.SweepCall?
    requires k in s.sweeps && J.Working(s.sweeps[k])
    ensures k in Next(s, step).sweeps && Next(s, step).sweeps[k] == s.sweeps[k]
  {
    hide J.IsExpiredPage, S.Next, S.CanMove;
  }

  lemma CleaningKept(s: State, step: Step, id: JobId)
    requires Enabled(s, step)
    requires !step.StartUpload? && !step.UploadCall? && !step.WorkerCall? && !step.SweepCall?
    ensures Cleaning(s.sweeps, id) ==> Cleaning(Next(s, step).sweeps, id)
  {
    hide Enabled, Next;
    if Cleaning(s.sweeps, id) {
      var j :| j in s.sweeps && Touching(s.sweeps[j], id);
      QuietSweep(s, step, j);
      assert Touching(Next(s, step).sweeps[j], id);
    }
  }

  lemma StartTidy(s: State, step: Step, s': State)
    requires Inv(s) && AllTidy(s) && FilesKnown(s) && Enabled(s, step) && step.StartUpload? && s' == Next(s, step)
    ensures AllTidy(s')
  {
    hide Inv, U.Intake, Tidy, Cleaning;
    KeysAt(s);
    IntakeTidy(step.req, step.defaultTtl, step.uid, s.files, Cleaning(s.sweeps, step.id));
    forall id | id in s'.uploads && id in s'.jobs && id in s'.past
      ensures TidyAt(s', id)
    {
      if id != step.id {
        assert TidyAt(s, id);
      }
    }
  }

  lemma IntakeTidy(req: U.Request, ttl: int, uid: Uid, files: set<Path>, cleaning: bool)
    requires forall x :: x in files ==> x.uid != uid
    ensures Tidy(Upload(uid, U.Intake(req, ttl)), BLANK, NO_PAST, None, files, cleaning)
  {
    hide Media.IsSupportedMediaType, Media.Normalize;
  }

  // ---- what sweeps have deleted ----

  /** A step leaves a sweep as it was, is a call of that sweep, or leaves it before its first deletion. */
  lemma SweepForm(s: State, step: Step, k: nat)
    requires Enabled(s, step) && k in Next(s, step).sweeps
    ensures var sweep' := Next(s, step).sweeps[k];
            || (k in s.sweeps && sweep' == s.sweeps[k])
            || (step.SweepCall? && step.k == k)
            || !J.Working(sweep') || (sweep'.Clearing? && sweep'.at == 0)
  {
    hide J.IsExpiredPage, S.Next, S.CanMove, U.Next, W.Next, UploadPast, WorkerPast, U.Intake, J.Deleted;
    hide J.Dropped, J.Next;
  }

  /** The files a step may add. */
  lemma AddedForm(s: State, step: Step, x: Path)
    requires Enabled(s, step) && x in Next(s, step).files && x !in s.files
    ensures || (step.UploadCall? && step.id in s.uploads && s.uploads[step.id].phase.Storing?
                && x == Source(s.uploads[step.id].uid))
            || (step.WorkerCall? && step.r in s.runs && s.runs[step.r].phase.Saving?
                && x in W.Saved(s.runs[step.r].phase, step.c))
  {
    hide J.IsExpiredPage, S.Next, S.CanMove, U.Next, W.Next, UploadPast, WorkerPast, U.Intake, J.Deleted;
    hide J.Dropped, J.Next;
  }

  /** A file that a step adds belongs to a job in a phase in which no sweep works on it. */
  lemma AddedBy(s: State, step: Step, x: Path) returns (id: JobId)
    requires Inv(s) && Enabled(s, step) && x in Next(s, step).files && x !in s.files
    ensures id in s.uploads && id in s.past && x.uid == s.uploads[id].uid
    ensures s.uploads[id].phase.Storing?
            || (s.past[id].claimant.Some? && s.past[id].claimant.value in s.runs
                && s.runs[s.past[id].claimant.value].phase.Saving?)
  {
    hide Inv, Enabled, Next;
    AddedForm(s, step, x);
    KeysAt(s);
    if step.UploadCall? {
      id := step.id;
    } else {
      SavedUid(s, step.r, step.c);
      id := s.runs[step.r].id;
    }
  }

  lemma GoneAfterCall(sweep: J.Sweep, files: set<Path>)
    requires J.Working(sweep) && Gone(sweep, files)
    ensures Gone(J.Next(sweep, Success), files - J.Deleted(sweep, Success))
  {
    if sweep.Clearing? {
      var all := J.Current(sweep).Files();
      assert forall i :: 0 <= i < sweep.at ==> all[i] !in files;
      assert J.Deleted(sweep, Success) == {all[sweep.at]};
    } else {
      assert J.Next(sweep, Success).Clearing? ==> J.Next(sweep, Success).at == 0;
    }
  }

  lemma GoneStep(s: State, step: Step, k: nat)
    requires Inv(s) && SweepsTidy(s) && SweepsFit(s) && Enabled(s, step) && Careful(s, step)
    requires k in Next(s, step).sweeps
    ensures Gone(Next(s, step).sweeps[k], Next(s, step).files)
  {
    hide Inv, Enabled, Next, SnapCurrent, SnapFits, J.Next, J.Deleted;
    var s' := Next(s, step);
    SweepForm(s, step, k);
    StepForm(s, step);
    if step.SweepCall? && step.k == k {
      hide Gone, J.Dropped, J.Working;
      GoneAfterCall(s.sweeps[k], s.files);
    } else if k in s.sweeps && s'.sweeps[k] == s.sweeps[k] && J.Working(s.sweeps[k]) {
      assert TodoFits(s.sweeps[k].Todo(), s.past, s.clock) && TodoCurrent(s.sweeps[k].Todo(), s.sweeps[k].Known(), s);
      forall x | x in s'.files && x !in s.files
        ensures x !in J.Current(s.sweeps[k]).Files()
      {
        var id := AddedBy(s, step, x);
        AddedNotSwept(s, J.Current(s.sweeps[k]), id, x);
      }
      GoneStays(s.sweeps[k], s.files, s'.files);
    }
  }

  /** How a step changes what a sweep has to do and how much of it has its artifacts. */
  lemma KnownForm(s: State, step: Step, k: nat)
    requires Enabled(s, step) && k in Next(s, step).sweeps
    ensures var sweep' := Next(s, step).sweeps[k];
            || sweep'.Todo() == []
            || (k in s.sweeps && sweep' == s.sweeps[k])
            || (step.SweepCall? && k in s.sweeps && !s.sweeps[k].Fetching? && s.sweeps[k].Todo() != []
                && (sweep'.Todo() == s.sweeps[k].Todo() || sweep'.Todo() == s.sweeps[k].Todo()[1..])
                && sweep'.Known() == |sweep'.Todo()|)
            || (step.List? && step.k == k && sweep'.Todo() == J.Bare(step.page) && sweep'.Known() == 0)
            || (step.Fetch? && step.k == k && k in s.sweeps && s.sweeps[k].Fetching?
                && FetchedInto(s, s.sweeps[k], sweep'.Todo()) && sweep'.Known() == s.sweeps[k].fetched + 1)
  {
    hide J.IsExpiredPage, S.Next, S.CanMove, U.Next, W.Next, UploadPast, WorkerPast, U.Intake, J.Deleted, J.Dropped;
  }

  lemma TodoTail(todo: seq<J.Snapshot>, known: nat, s: State)
    requires TodoCurrent(todo, known, s) && todo != [] && known == |todo|
    ensures TodoCurrent(todo[1..], |todo[1..]|, s)
  {
  }

  lemma TodoStep(s: State, step: Step, k: nat)
    requires Inv(s) && SweepsTidy(s) && Enabled(s, step) && Careful(s, step) && k in Next(s, step).sweeps
    ensures TodoCurrent(Next(s, step).sweeps[k].Todo(), Next(s, step).sweeps[k].Known(), Next(s, step))
  {
    hide Inv, Next, AllGrow, SnapCurrent, Gone, J.IsExpiredPage, TodoCurrent, FetchedInto;
    var s' := Next(s, step);
    StepGrows(s, step);
    KnownForm(s, step, k);
    var todo', known' := s'.sweeps[k].Todo(), s'.sweeps[k].Known();
    if todo' == [] {
      NothingCurrent(known', s');
    } else if step.List? && step.k == k && todo' == J.Bare(step.page) && known' == 0 {
      PageCurrent(s, J.PageSize(s.sweeps[k].limit), step.page);
      TodoStays(s, s', todo', 0);
    } else {
      var todo, known := s.sweeps[k].Todo(), s.sweeps[k].Known();
      assert TodoCurrent(todo, known, s);
      if step.Fetch? && step.k == k && s'.sweeps[k] != s.sweeps[k] {
        FetchCurrent(s, s.sweeps[k], todo');
        TodoStays(s, s', todo', known');
      } else {
        TodoStays(s, s', todo, known);
        if step.SweepCall? && todo' != todo {
          TodoTail(todo, known, s');
        }
      }
    }
  }

  lemma NothingCurrent(known: nat, s: State)
    ensures TodoCurrent([], known, s)
  {
  }

  lemma SweepsTidyStep(s: State, step: Step)
    requires Inv(s) && SweepsTidy(s) && SweepsFit(s) && Enabled(s, step) && Careful(s, step)
    ensures SweepsTidy(Next(s, step))
  {
    hide Inv, Enabled, Next, Careful, Gone, TodoCurrent, SweepsFit;
    forall k | k in Next(s, step).sweeps
      ensures TodoCurrent(Next(s, step).sweeps[k].Todo(), Next(s, step).sweeps[k].Known(), Next(s, step))
      ensures Gone(Next(s, step).sweeps[k], Next(s, step).files)
    {
      GoneStep(s, step, k);
      TodoStep(s, step, k);
    }
  }

  lemma OwnersKept(s: State, step: Step)
    requires Inv(s) && Enabled(s, step)
    ensures forall u :: u in s.owner ==> u in Next(s, step).owner
    ensures forall id :: id in s.uploads ==> s.uploads[id].uid in s.owner
  {
    hide Inv;
    hide J.IsExpiredPage, S.Next, S.CanMove, U.Next, W.Next, UploadPast, WorkerPast, U.Intake, J.Deleted;
    hide J.Dropped, J.Next;
    UidsOwned(s);
  }

  lemma UidsOwned(s: State)
    requires Inv(s)
    ensures forall id :: id in s.uploads ==> s.uploads[id].uid in s.owner
  {
    hide AllFit, QueueFits, RunsFit, SweepsKnown;
  }

  lemma FilesKnownStep(s: State, step: Step)
    requires Inv(s) && FilesKnown(s) && Enabled(s, step)
    ensures FilesKnown(Next(s, step))
  {
    hide Inv, Enabled, Next;
    OwnersKept(s, step);
    forall x | x in Next(s, step).files
      ensures x.uid in Next(s, step).owner
    {
      if x !in s.files {
        var id := AddedBy(s, step, x);
      }
    }
  }

  lemma StepTidy(s: State, step: Step)
    requires Inv(s) && LeakInv(s) && Enabled(s, step) && Careful(s, step)
    ensures AllTidy(Next(s, step))
  {
    hide Inv, Enabled, Next, AllTidy, SweepsTidy, SweepsFit, FilesKnown, AllGrow, UploadCalled, WorkerCalled;
    hide SweepCalled;
    var s' := Next(s, step);
    StepGrows(s, step);
    StepForm(s, step);
    match step
    case StartUpload(_, _, _, _) => StartTidy(s, step, s');
    case UploadCall(id, c) => UploadTidy(s, id, c, s');
    case WorkerCall(r, c) => WorkerTidy(s, r, c, s');
    case SweepCall(k, c) => SweepTidy(s, k, c, s');
    case _ => QuietTidy(s, step, s');
  }

  lemma {:induction false} LeadsTidy(a: State, steps: seq<Step>, s: State)
    requires Inv(a) && LeakInv(a) && LeadsIf(a, steps, s, Careful)
    ensures Inv(s) && LeakInv(s)
    decreases |steps|
  {
    hide Inv, Enabled, Next, AllTidy, SweepsTidy, SweepsFit, FilesKnown, Careful;
    if steps != [] {
      StepKeeps(a, steps[0]);
      StepTidy(a, steps[0]);
      SweepsTidyStep(a, steps[0]);
      SweepsFitStep(a, steps[0]);
      FilesKnownStep(a, steps[0]);
      LeadsTidy(Next(a, steps[0]), steps[1..], s);
    }
  }

  // ---- the theorems ----

  /** Some row names the stored file as its source or as one of its artifacts. */
  ghost predicate Referenced(s: State, x: Path) {
    exists id :: id in s.jobs && Names(s.jobs[id], x)
  }

  predicate Names(rec: Record, x: Path) {
    rec.row.Some? && (rec.row.value.job.FilePath() == x || exists a :: a in rec.arts && a.path == x)
  }

  /** An upload before its row, or in its last rollback, holds its source; a claimed run before the end of
      its inserts holds what it has saved, and the job's row exists. */
  ghost predicate HeldInFlight(s: State, x: Path) {
    || (exists id :: id in s.uploads && x == Source(s.uploads[id].uid)
                     && (s.uploads[id].phase.Registering? || s.uploads[id].phase.Unstoring?))
    || (exists r :: r in s.runs && s.runs[r].id in s.jobs && s.jobs[s.runs[r].id].row.Some?
                    && (s.runs[r].phase.Saving? || s.runs[r].phase.Persisting?) && Owns(s.runs[r].phase, x))
  }

  ghost predicate AtRest(s: State) {
    && (forall id :: id in s.uploads ==> s.uploads[id].phase.Finished?)
    && (forall r :: r in s.runs ==> s.runs[r].phase.Finished?)
    && (forall k :: k in s.sweeps ==> !J.Working(s.sweeps[k]))
  }

  lemma OwnedIsInserted(phase: W.Phase, x: Path)
    requires Owns(phase, x) && !phase.Saving? && !phase.Persisting?
    ensures exists a :: a in InsertedAt(phase) && a.path == x
  {
  }

  lemma OwnerOf(s: State, x: Path) returns (id: JobId)
    requires Inv(s) && FilesKnown(s) && x in s.files
    ensures id in s.uploads && id in s.jobs && id in s.past && s.uploads[id].uid == x.uid
  {
    hide AllFit, QueueFits, RunsFit, SweepsKnown;
    id := s.owner[x.uid];
  }

  lemma RowNamesSource(u: Upload, rec: Record, p: Past)
    requires UploadFits(u, p) && RowFits(rec, p) && rec.row.Some?
    ensures rec.row.value.job.FilePath() == Source(u.uid)
  {
  }

  /** Under the stated hypotheses, every stored file is named by a row or held by a process in flight. */
  lemma NoLeakedFiles(a: State, steps: seq<Step>, s: State, x: Path)
    requires Init(a) && LeadsIf(a, steps, s, Careful) && x in s.files
    ensures Referenced(s, x) || HeldInFlight(s, x)
  {
    hide Inv, LeadsIf, Careful, SweepsTidy, SweepsFit;
    InitLeak(a);
    LeadsTidy(a, steps, s);
    StoredIsAccounted(s, x);
  }

  lemma InitLeak(a: State)
    requires Init(a)
    ensures Inv(a) && LeakInv(a)
  {
    InitInv(a);
    hide Inv;
  }

  lemma StoredIsAccounted(s: State, x: Path)
    requires Inv(s) && AllTidy(s) && FilesKnown(s) && x in s.files
    ensures Referenced(s, x) || HeldInFlight(s, x)
  {
    hide Inv, UploadFits, RowFits, UnclaimedFits, ClaimedFits, HeldIn, Owns, InsertedAt, FilesKnown, Cleaning;
    var id := OwnerOf(s, x);
    assert TidyAt(s, id);
    FactsAt(s, id);
    if s.jobs[id].row.Some? {
      RowNamesSource(s.uploads[id], s.jobs[id], s.past[id]);
    }
    match x
    case Source(uid) =>
      if s.jobs[id].row.Some? {
        assert Names(s.jobs[id], x);
      }
    case Product(uid, kind) =>
      var r := s.past[id].claimant.value;
      if !s.runs[r].phase.Saving? && !s.runs[r].phase.Persisting? {
        OwnedIsInserted(s.runs[r].phase, x);
        assert Names(s.jobs[id], x);
      }
  }

  /** At rest the stored files are exactly the referenced ones. */
  lemma StoredIffReferenced(a: State, steps: seq<Step>, s: State, x: Path)
    requires Init(a) && LeadsIf(a, steps, s, Careful) && AtRest(s)
    ensures x in s.files <==> Referenced(s, x)
  {
    hide Inv, LeadsIf, Careful, SweepsTidy, SweepsFit, FilesKnown, AllTidy;
    InitLeak(a);
    LeadsTidy(a, steps, s);
    if x in s.files {
      StoredIsAccounted(s, x);
    } else if Referenced(s, x) {
      var id :| id in s.jobs && Names(s.jobs[id], x);
      NamedIsStored(s, id, x);
    }
  }

  lemma NamedIsStored(s: State, id: JobId, x: Path)
    requires Inv(s) && AllTidy(s) && AtRest(s) && id in s.jobs && Names(s.jobs[id], x)
    ensures x in s.files
  {
    hide Inv, UploadFits, UnclaimedFits, ClaimedFits, Owns, Carries;
    KeysAt(s);
    FactsAt(s, id);
    assert TidyAt(s, id);
    assert !Cleaning(s.sweeps, id);
    RowNamesSource(s.uploads[id], s.jobs[id], s.past[id]);
    if s.past[id].claimant.None? {
      UnclaimedArts(s.jobs[id], s.past[id]);
    }
  }

  lemma NamedOwn(s: State, id: JobId, x: Path)
    requires Inv(s) && id in s.jobs && Names(s.jobs[id], x)
    ensures id in s.uploads && x.uid == s.uploads[id].uid
  {
    hide Inv, ClaimedFits, UnclaimedFits;
    KeysAt(s);
    FactsAt(s, id);
    RowArtsOwn(s, id);
  }

  /** Deleting from a snapshot, however stale, a sweep takes away no file that another job's row names, and
      leaves the other job's row and artifacts alone. */
  lemma SweepSparesOthers(a: State, steps: seq<Step>, s: State, k: nat, c: Choice, id: JobId, x: Path)
    requires Reaches(a, steps, s) && Enabled(s, SweepCall(k, c))
    requires id in s.jobs && id != J.Current(s.sweeps[k]).id && Names(s.jobs[id], x)
    ensures var s' := Next(s, SweepCall(k, c));
            id in s'.jobs && s'.jobs[id] == s.jobs[id] && (x in s.files <==> x in s'.files)
  {
    hide Inv, Leads, J.Deleted, J.Next, J.Dropped, UploadFits, RowFits, UnclaimedFits, ClaimedFits, SnapFits;
    InitInv(a);
    LeadsBacked(a, steps, s);
    NamedOwn(s, id, x);
    var snap := J.Current(s.sweeps[k]);
    assert TodoFits(s.sweeps[k].Todo(), s.past, s.clock);
    KeysAt(s);
    FactsAt(s, snap.id);
    SnapUploadUid(snap, s.uploads[snap.id], s.past[snap.id], s.clock);
    DeletedOwn(s.sweeps[k], c, s.past[snap.id], s.clock);
    UidsDiffer(s, id, snap.id);
  }
}
