/** Runs without interleaving: one process makes all its calls, the k-th ending as `fate(k)` says. */
module SoloRuns {
  import opened Prelude
  import opened Domain
  import opened Ports
  import opened Protocol
  import U = UploadSteps
  import W = WorkerSteps
  import Media

  type Fates = nat -> Choice

  const ALWAYS: Fates := k => Success

  /** The process that makes the calls. */
  datatype Mover = ByRun(r: nat) | ByUpload(id: JobId) | BySweep(j: nat) {
    function Call(c: Choice): Step {
      match this
      case ByRun(r) => WorkerCall(r, c)
      case ByUpload(id) => UploadCall(id, c)
      case BySweep(j) => SweepCall(j, c)
    }
  }

  /** The next `n` calls of the process, from call `k` on. */
  function Script(m: Mover, fate: Fates, k: nat, n: nat): (r: seq<Step>)
    ensures |r| == n
  {
    seq(n, i requires 0 <= i < n => m.Call(fate(k + i)))
  }

  lemma ScriptNone(m: Mover, fate: Fates, k: nat)
    ensures Script(m, fate, k, 0) == []
  {
  }

  lemma ScriptCons(m: Mover, fate: Fates, k: nat, n: nat)
    ensures Script(m, fate, k, n + 1) == [m.Call(fate(k))] + Script(m, fate, k + 1, n)
  {
  }

  lemma ScriptAppend(m: Mover, fate: Fates, k: nat, n: nat, l: nat)
    ensures Script(m, fate, k, n + l) == Script(m, fate, k, n) + Script(m, fate, k + n, l)
  {
  }

  // ---- worker runs ----

  /** How many calls are left at most. */
  function Calls(p: W.Phase): nat {
    match p
    case Fetching => 17
    case Claiming(_) => 16
    case Announcing(_) => 15
    case Progressing(_, _) => 14
    case Opening(_, _) => 13
    case Saving(_, proc, done) => 9 + if done < |proc.Plan()| then |proc.Plan()| - done else 0
    case Persisting(result, next) => 4 + if next < |result| then |result| - next else 0
    case Completing(_) => 3
    case NotifyingDone(_) => 2
    case ReportingDone(_) => 1
    case RecordingFailure(_) => 3
    case NotifyingFailure(_, _) => 2
    case ReportingFailure(_, _) => 1
    case Finished(_) => 0
  }

  lemma CallsDecrease(rec: Record, files: set<Path>, id: JobId, p: W.Phase, c: Choice)
    requires !p.Finished?
    ensures Calls(W.Next(rec, files, id, p, c).1) < Calls(p)
  {
  }

  datatype Ending = Ending(rec: Record, files: set<Path>, outcome: W.Outcome)

  /** From phase `p` to the end. */
  function RunFrom(rec: Record, files: set<Path>, id: JobId, p: W.Phase, fate: Fates, k: nat): Ending
    decreases Calls(p)
  {
    if p.Finished? then Ending(rec, files, p.outcome)
    else
      CallsDecrease(rec, files, id, p, fate(k));
      var (rec', p') := W.Next(rec, files, id, p, fate(k));
      RunFrom(rec', files + W.Saved(p, fate(k)), id, p', fate, k + 1)
  }

  /** One call of a run, and all it changes besides the history. */
  lemma RunStep(s: State, r: nat, c: Choice) returns (s': State)
    requires r in s.runs && s.runs[r].id in s.jobs && s.runs[r].id in s.past && !s.runs[r].phase.Finished?
    ensures Enabled(s, WorkerCall(r, c)) && s' == Next(s, WorkerCall(r, c))
    ensures var id, phase := s.runs[r].id, s.runs[r].phase;
            var (rec', phase') := W.Next(s.jobs[id], s.files, id, phase, c);
            && id in s'.past
            && s'.jobs == s.jobs[id := rec'] && s'.files == s.files + W.Saved(phase, c)
            && s'.runs == s.runs[r := Run(id, phase')]
            && s'.uploads == s.uploads && s'.queue == s.queue && s'.clock == s.clock && s'.sweeps == s.sweeps
            && s'.streams == s.streams
  {
    hide W.Next, W.Saved, WorkerPast;
    s' := Next(s, WorkerCall(r, c));
    assert s' == AfterWorkerCall(s, r, c);
  }

  /** The run that RunFrom computes is a run of the protocol in which only this process moves. */
  lemma {:induction false} RunIsProtocolRun(s: State, r: nat, fate: Fates, k: nat) returns (steps: seq<Step>, s': State)
    requires r in s.runs && s.runs[r].id in s.jobs && s.runs[r].id in s.past
    ensures Leads(s, steps, s') && steps == Script(ByRun(r), fate, k, |steps|)
    ensures var id := s.runs[r].id;
            var ending := RunFrom(s.jobs[id], s.files, id, s.runs[r].phase, fate, k);
            && id in s'.jobs && s'.jobs == s.jobs[id := ending.rec] && s'.files == ending.files
            && s'.runs == s.runs[r := Run(id, W.Finished(ending.outcome))]
            && s'.uploads == s.uploads && s'.queue == s.queue && s'.clock == s.clock && s'.sweeps == s.sweeps
            && s'.streams == s.streams
    decreases Calls(s.runs[r].phase)
  {
    hide Enabled, Next, W.Next, W.Saved, RunFrom, Calls, Script, Leads;
    var id, phase := s.runs[r].id, s.runs[r].phase;
    if phase.Finished? {
      steps, s' := Idle(s);
      Ended(s.jobs[id], s.files, id, phase.outcome, fate, k);
      ScriptNone(ByRun(r), fate, k);
      assert s.jobs == s.jobs[id := s.jobs[id]] && s.runs == s.runs[r := s.runs[r]];
    } else {
      var next := RunStep(s, r, fate(k));
      CallsDecrease(s.jobs[id], s.files, id, phase, fate(k));
      Unroll(s.jobs[id], s.files, id, phase, fate, k);
      var rest;
      rest, s' := RunIsProtocolRun(next, r, fate, k + 1);
      Prepend(s, WorkerCall(r, fate(k)), rest, s');
      ScriptCons(ByRun(r), fate, k, |rest|);
      steps := [WorkerCall(r, fate(k))] + rest;
      assert s'.jobs == s.jobs[id := s'.jobs[id]];
      assert s'.runs == s.runs[r := s'.runs[r]];
    }
  }

  lemma Idle(s: State) returns (steps: seq<Step>, s': State)
    ensures steps == [] && s' == s && Leads(s, steps, s')
  {
    steps, s' := [], s;
  }

  lemma Unroll(rec: Record, files: set<Path>, id: JobId, p: W.Phase, fate: Fates, k: nat)
    requires !p.Finished?
    ensures var (rec', p') := W.Next(rec, files, id, p, fate(k));
            && RunFrom(rec, files, id, p, fate, k) == RunFrom(rec', files + W.Saved(p, fate(k)), id, p', fate, k + 1)
            && (W.Saved(p, fate(k)) == {} ==>
                  RunFrom(rec, files, id, p, fate, k) == RunFrom(rec', files, id, p', fate, k + 1))
  {
    hide W.Next;
    assert files + {} == files;
  }

  lemma Ended(rec: Record, files: set<Path>, id: JobId, outcome: W.Outcome, fate: Fates, k: nat)
    ensures RunFrom(rec, files, id, W.Finished(outcome), fate, k) == Ending(rec, files, outcome)
  {
  }

  // ---- runs with at most one failing call ----

  /** The files of the saves from number `from` up to but not including number `to`. */
  function Products(job: Job, proc: Media.Processor, from: nat, to: nat): set<Path> {
    set i | from <= i < to && i < |proc.Plan()| :: Product(job.uid, proc.Plan()[i])
  }

  lemma {:induction false} SavedUpTo(rec: Record, files: set<Path>, id: JobId, job: Job, proc: Media.Processor,
                                     from: nat, to: nat, fate: Fates, k: nat)
    requires from <= to <= |proc.Plan()| && forall i :: k <= i < k + to - from ==> fate(i) == Success
    ensures RunFrom(rec, files, id, W.Saving(job, proc, from), fate, k) ==
            RunFrom(rec, files + Products(job, proc, from, to), id, W.Saving(job, proc, to), fate, k + to - from)
    decreases |proc.Plan()| - from
  {
    hide RunFrom;
    if from == to {
      assert files + Products(job, proc, from, to) == files;
    } else {
      Unroll(rec, files, id, W.Saving(job, proc, from), fate, k);
      var files' := files + {Product(job.uid, proc.Plan()[from])};
      SavedUpTo(rec, files', id, job, proc, from + 1, to, fate, k + 1);
      assert files' + Products(job, proc, from + 1, to) == files + Products(job, proc, from, to);
    }
  }

  /** With every file saved, Process returns its artifacts unless it panics. */
  lemma Returned(rec: Record, files: set<Path>, id: JobId, job: Job, proc: Media.Processor, fate: Fates, k: nat)
    requires !fate(k).Panic?
    ensures RunFrom(rec, files, id, W.Saving(job, proc, |proc.Plan()|), fate, k) ==
            RunFrom(rec, files, id, W.AfterPersist(proc.Produced(id, job.uid, |proc.Plan()|), 0), fate, k + 1)
  {
    hide RunFrom, W.AfterPersist;
    Unroll(rec, files, id, W.Saving(job, proc, |proc.Plan()|), fate, k);
  }

  lemma {:induction false} AllPersisted(rec: Record, files: set<Path>, id: JobId, result: seq<Artifact>, next: nat,
                                        fate: Fates, k: nat)
    requires next <= |result| && rec.row.Some? && forall i :: k <= i < k + |result| - next ==> fate(i) == Success
    ensures RunFrom(rec, files, id, W.AfterPersist(result, next), fate, k) ==
            RunFrom(rec.(arts := rec.arts + result[next..]), files, id, W.Completing(result), fate, k + |result| - next)
    decreases |result| - next
  {
    hide RunFrom;
    if next == |result| {
      assert rec.arts + result[next..] == rec.arts;
    } else {
      Unroll(rec, files, id, W.Persisting(result, next), fate, k);
      var rec' := rec.(arts := rec.arts + [result[next]]);
      AllPersisted(rec', files, id, result, next + 1, fate, k + 1);
      assert rec'.arts + result[next + 1..] == rec.arts + result[next..];
    }
  }

  lemma Concludes(rec: Record, files: set<Path>, id: JobId, result: seq<Artifact>, fate: Fates, k: nat)
    requires (forall i :: fate(i) == Success) && rec.row.Some? && rec.row.value.status == Processing
    ensures RunFrom(rec, files, id, W.Completing(result), fate, k) ==
            Ending(rec.(row := Some(rec.row.value.(status := Completed, error := None)),
                        log := rec.log + [JobCompleted(result)],
                        reports := rec.reports + [JobCompleted(result)]),
                   files, W.Succeeded(result))
  {
    hide RunFrom;
    Unroll(rec, files, id, W.Completing(result), fate, k);
    var rec1 := rec.(row := Some(rec.row.value.(status := Completed, error := None)));
    Unroll(rec1, files, id, W.NotifyingDone(result), fate, k + 1);
    var rec2 := Publish(rec1, JobCompleted(result));
    Unroll(rec2, files, id, W.ReportingDone(result), fate, k + 2);
    Ended(Report(rec2, JobCompleted(result)), files, id, W.Succeeded(result), fate, k + 3);
  }

  /** A pending job, its source stored, and the processor its media type selects. */
  predicate IsReady(rec: Record, files: set<Path>, job: Job, proc: Media.Processor) {
    && rec == BLANK.(row := Some(Row(job, Pending, None))) && job.FilePath() in files
    && Media.FirstMatch(Media.PROCESSORS, job.mediaType) == Some(proc)
  }

  const HALFWAY: seq<StatusEvent> := [Progress(10), Progress(50)]

  /** The calls before Process. */
  lemma Starts(rec: Record, files: set<Path>, id: JobId, job: Job, proc: Media.Processor, fate: Fates)
    requires IsReady(rec, files, job, proc) && fate(0) == fate(1) == fate(2) == fate(3) == Success
    ensures RunFrom(rec, files, id, W.Fetching, fate, 0) ==
            RunFrom(Record(Some(Row(job, Processing, None)), [], HALFWAY, []), files, id, W.Opening(job, proc), fate, 4)
  {
    hide RunFrom, Media.FirstMatch;
    Unroll(rec, files, id, W.Fetching, fate, 0);
    Unroll(rec, files, id, W.Claiming(job), fate, 1);
    var rec1 := rec.(row := Some(Row(job, Processing, None)));
    Unroll(rec1, files, id, W.Announcing(job), fate, 2);
    var rec2 := rec1.(log := [Progress(10)]);
    assert rec1.log + [Progress(10)] == rec2.log;
    Unroll(rec2, files, id, W.Progressing(job, proc), fate, 3);
    assert rec2.log + [Progress(50)] == HALFWAY;
  }

  /** If nothing fails, a pending job with its source stored ends completed, with exactly the artifacts of
      its processor stored and recorded, in order, and three events on its subject. */
  lemma NothingFails(rec: Record, files: set<Path>, id: JobId, job: Job, proc: Media.Processor, fate: Fates)
    requires IsReady(rec, files, job, proc) && forall i :: fate(i) == Success
    ensures var result := proc.Produced(id, job.uid, |proc.Plan()|);
            RunFrom(rec, files, id, W.Fetching, fate, 0) ==
            Ending(Record(Some(Row(job, Completed, None)), result,
                          [Progress(10), Progress(50), JobCompleted(result)], [JobCompleted(result)]),
                   files + Products(job, proc, 0, |proc.Plan()|), W.Succeeded(result))
  {
    hide RunFrom, Media.FirstMatch, W.AfterPersist, Products;
    var result, n := proc.Produced(id, job.uid, |proc.Plan()|), |proc.Plan()|;
    var begun := Record(Some(Row(job, Processing, None)), [], HALFWAY, []);
    var files' := files + Products(job, proc, 0, n);
    Starts(rec, files, id, job, proc, fate);
    Unroll(begun, files, id, W.Opening(job, proc), fate, 4);
    SavedUpTo(begun, files, id, job, proc, 0, n, fate, 5);
    Returned(begun, files', id, job, proc, fate, 5 + n);
    AllPersisted(begun, files', id, result, 0, fate, 6 + n);
    var inserted := begun.(arts := begun.arts + result[0..]);
    Concludes(inserted, files', id, result, fate, 6 + n + n);
    assert inserted.arts == result;
    assert inserted.log + [JobCompleted(result)] == [Progress(10), Progress(50), JobCompleted(result)];
    assert inserted.reports + [JobCompleted(result)] == [JobCompleted(result)];
  }

  /** If only the update to completed fails, the job stays processing with its artifacts inserted, and nothing
      more is told. */
  lemma CompletionFails(rec: Record, files: set<Path>, id: JobId, job: Job, proc: Media.Processor, fate: Fates)
    requires IsReady(rec, files, job, proc)
    requires forall i :: fate(i) == Success <==> i != 6 + 2 * |proc.Plan()|
    ensures var result := proc.Produced(id, job.uid, |proc.Plan()|);
            RunFrom(rec, files, id, W.Fetching, fate, 0) ==
            Ending(Record(Some(Row(job, Processing, None)), result, HALFWAY, []),
                   files + Products(job, proc, 0, |proc.Plan()|), W.CompletionLost(result, Unavailable))
  {
    hide RunFrom, Media.FirstMatch, W.AfterPersist, Products;
    var result, n := proc.Produced(id, job.uid, |proc.Plan()|), |proc.Plan()|;
    var begun := Record(Some(Row(job, Processing, None)), [], HALFWAY, []);
    var files' := files + Products(job, proc, 0, n);
    Starts(rec, files, id, job, proc, fate);
    Unroll(begun, files, id, W.Opening(job, proc), fate, 4);
    SavedUpTo(begun, files, id, job, proc, 0, n, fate, 5);
    Returned(begun, files', id, job, proc, fate, 5 + n);
    AllPersisted(begun, files', id, result, 0, fate, 6 + n);
    var inserted := begun.(arts := begun.arts + result[0..]);
    assert inserted.arts == result;
    Unroll(inserted, files', id, W.Completing(result), fate, 6 + n + n);
    Ended(inserted, files', id, W.CompletionLost(result, Unavailable), fate, 7 + n + n);
  }

  /** The failure path when none of its calls fails. */
  lemma FailureIsTold(rec: Record, files: set<Path>, id: JobId, reason: Reason, fate: Fates, k: nat)
    requires rec.row.Some? && rec.row.value.status == Processing
    requires fate(k) == fate(k + 1) == fate(k + 2) == Success
    ensures RunFrom(rec, files, id, W.RecordingFailure(reason), fate, k) ==
            Ending(rec.(row := Some(rec.row.value.(status := Failed, error := Some(reason.Text()))),
                        log := rec.log + [JobFailed(reason.Text())],
                        reports := rec.reports + [JobFailed(reason.Text())]),
                   files, W.Errored(reason, true))
  {
    hide RunFrom;
    Unroll(rec, files, id, W.RecordingFailure(reason), fate, k);
    var rec1 := rec.(row := Some(rec.row.value.(status := Failed, error := Some(reason.Text()))));
    Unroll(rec1, files, id, W.NotifyingFailure(reason, true), fate, k + 1);
    var rec2 := Publish(rec1, JobFailed(reason.Text()));
    Unroll(rec2, files, id, W.ReportingFailure(reason, true), fate, k + 2);
    Ended(Report(rec2, JobFailed(reason.Text())), files, id, W.Errored(reason, true), fate, k + 3);
  }

  /** Why a run gives up when the call with number `j`, the open, a save or the return, ends as `c`. */
  function GaveUp(c: Choice, j: nat): Reason {
    match c
    case ProcError(text) => ProcFailed(text)
    case Panic(value) => Panicked(value)
    case _ => ProcFailed(if j == 4 then W.OPEN_FAILED else W.SAVE_FAILED)
  }

  /** If one call of Process fails, errs or panics, or it panics with every file saved, and nothing else fails,
      the job ends failed with that error's text, nothing is inserted, the failure is told after the progress,
      and the files saved before stay behind. */
  lemma ProcessGivesUp(rec: Record, files: set<Path>, id: JobId, job: Job, proc: Media.Processor, fate: Fates, j: nat)
    requires IsReady(rec, files, job, proc) && 4 <= j <= 5 + |proc.Plan()|
    requires if j == 5 + |proc.Plan()| then fate(j).Panic? else fate(j) != Success
    requires forall i :: i != j ==> fate(i) == Success
    ensures var reason := GaveUp(fate(j), j);
            var event := JobFailed(reason.Text());
            RunFrom(rec, files, id, W.Fetching, fate, 0) ==
            Ending(Record(Some(Row(job, Failed, Some(reason.Text()))), [],
                          [Progress(10), Progress(50), event], [event]),
                   if j == 4 then files else files + Products(job, proc, 0, j - 5), W.Errored(reason, true))
  {
    hide RunFrom, Media.FirstMatch, Products;
    var begun := Record(Some(Row(job, Processing, None)), [], HALFWAY, []);
    var reason := GaveUp(fate(j), j);
    var event := JobFailed(reason.Text());
    Starts(rec, files, id, job, proc, fate);
    Unroll(begun, files, id, W.Opening(job, proc), fate, 4);
    if j == 4 {
      FailureIsTold(begun, files, id, reason, fate, 5);
    } else {
      var files' := files + Products(job, proc, 0, j - 5);
      SavedUpTo(begun, files, id, job, proc, 0, j - 5, fate, 5);
      Unroll(begun, files', id, W.Saving(job, proc, j - 5), fate, j);
      FailureIsTold(begun, files', id, reason, fate, j + 1);
    }
    assert HALFWAY + [event] == [Progress(10), Progress(50), event] && [] + [event] == [event];
  }

  // ---- uploads ----

  function UploadCalls(p: U.Phase): nat {
    match p
    case Storing(_, _, _) => 5
    case Registering(_) => 4
    case Announcing(_) => 3
    case Unregistering(_) => 2
    case Unstoring(_) => 1
    case Finished(_) => 0
  }

  /** `announced`: the bus took the jobs.created event; `clean`: no rollback call failed. */
  datatype UploadEnding = UploadEnding(rec: Record, files: set<Path>, announced: bool, clean: bool, outcome: U.Outcome)

  function UploadFrom(rec: Record, files: set<Path>, now: Time, uid: Uid, p: U.Phase, fate: Fates, k: nat): UploadEnding
    decreases UploadCalls(p)
  {
    if p.Finished? then UploadEnding(rec, files, false, true, p.outcome)
    else
      var c := fate(k);
      var (rec', p') := U.Next(rec, now, uid, p, c);
      var rest := UploadFrom(rec', U.Files(files, uid, p, c), now, uid, p', fate, k + 1);
      rest.(announced := rest.announced || (p.Announcing? && c.Success?),
            clean := rest.clean && (p.Unregistering? || p.Unstoring? ==> c.Success?))
  }

  /** One call of an upload, and all it changes besides the history. */
  lemma UploadStep(s: State, id: JobId, c: Choice) returns (s': State)
    requires id in s.uploads && id in s.jobs && id in s.past && !s.uploads[id].phase.Finished?
    ensures Enabled(s, UploadCall(id, c)) && s' == Next(s, UploadCall(id, c))
    ensures var u := s.uploads[id];
            var (rec', phase') := U.Next(s.jobs[id], s.clock, u.uid, u.phase, c);
            && id in s'.past
            && s'.jobs == s.jobs[id := rec'] && s'.files == U.Files(s.files, u.uid, u.phase, c)
            && s'.uploads == s.uploads[id := Upload(u.uid, phase')]
            && s'.queue == s.queue + (if u.phase.Announcing? && c.Success? then multiset{id} else multiset{})
            && s'.runs == s.runs && s'.clock == s.clock && s'.sweeps == s.sweeps && s'.streams == s.streams
  {
    hide U.Next, U.Files, UploadPast;
    s' := Next(s, UploadCall(id, c));
    assert s' == AfterUploadCall(s, id, c);
  }

  lemma UnrollUpload(rec: Record, files: set<Path>, now: Time, uid: Uid, p: U.Phase, fate: Fates, k: nat)
    ensures UploadFrom(rec, files, now, uid, p, fate, k) ==
            if p.Finished? then UploadEnding(rec, files, false, true, p.outcome)
            else
              var (rec', p') := U.Next(rec, now, uid, p, fate(k));
              var rest := UploadFrom(rec', U.Files(files, uid, p, fate(k)), now, uid, p', fate, k + 1);
              rest.(announced := rest.announced || (p.Announcing? && fate(k).Success?),
                    clean := rest.clean && (p.Unregistering? || p.Unstoring? ==> fate(k).Success?))
    ensures p.Finished? ==> !UploadFrom(rec, files, now, uid, p, fate, k).announced
  {
  }

  /** The upload that UploadFrom computes is a run of the protocol in which only this upload moves. */
  lemma {:induction false} UploadIsProtocolRun(s: State, id: JobId, fate: Fates, k: nat) returns (steps: seq<Step>,
                                               s': State)
    requires id in s.uploads && id in s.jobs && id in s.past
    ensures Leads(s, steps, s') && steps == Script(ByUpload(id), fate, k, |steps|)
    ensures var u := s.uploads[id];
            var ending := UploadFrom(s.jobs[id], s.files, s.clock, u.uid, u.phase, fate, k);
            && s'.jobs == s.jobs[id := ending.rec] && s'.files == ending.files
            && s'.uploads == s.uploads[id := Upload(u.uid, U.Finished(ending.outcome))]
            && s'.queue == s.queue + (if ending.announced then multiset{id} else multiset{})
            && s'.runs == s.runs && s'.clock == s.clock && s'.sweeps == s.sweeps && s'.streams == s.streams
    decreases UploadCalls(s.uploads[id].phase)
  {
    hide Enabled, Next, U.Next, U.Files, UploadFrom, UploadCalls, Script, Leads;
    var u := s.uploads[id];
    UnrollUpload(s.jobs[id], s.files, s.clock, u.uid, u.phase, fate, k);
    if u.phase.Finished? {
      steps, s' := Idle(s);
      ScriptNone(ByUpload(id), fate, k);
      assert s.jobs == s.jobs[id := s.jobs[id]] && s.uploads == s.uploads[id := s.uploads[id]];
    } else {
      var next := UploadStep(s, id, fate(k));
      UploadCallsDecrease(s.jobs[id], s.clock, u.uid, u.phase, fate(k));
      UnrollUpload(next.jobs[id], next.files, s.clock, u.uid, next.uploads[id].phase, fate, k + 1);
      var rest;
      rest, s' := UploadIsProtocolRun(next, id, fate, k + 1);
      Prepend(s, UploadCall(id, fate(k)), rest, s');
      ScriptCons(ByUpload(id), fate, k, |rest|);
      steps := [UploadCall(id, fate(k))] + rest;
      assert s'.jobs == s.jobs[id := s'.jobs[id]];
      assert s'.uploads == s.uploads[id := s'.uploads[id]];
    }
  }

  lemma UploadCallsDecrease(rec: Record, now: Time, uid: Uid, p: U.Phase, c: Choice)
    requires !p.Finished?
    ensures UploadCalls(U.Next(rec, now, uid, p, c).1) < UploadCalls(p)
    ensures p.Announcing? && c.Success? ==> U.Next(rec, now, uid, p, c).1.Finished?
  {
  }

  /** The first upload of an empty system. */
  lemma Started(clock: Time, id: JobId, uid: Uid, req: U.Request, ttl: int) returns (a: State, s: State)
    requires ttl > 0
    ensures Init(a) && a.clock == clock && Leads(a, [StartUpload(id, uid, req, ttl)], s)
    ensures s.jobs == map[id := BLANK] && s.uploads == map[id := Upload(uid, U.Intake(req, ttl))] && id in s.past
    ensures s.files == {} && s.clock == clock && s.runs == map[] && s.sweeps == map[] && s.queue == multiset{}
    ensures s.streams == map[]
  {
    hide U.Intake, Leads;
    a := State(clock, map[], {}, multiset{}, map[], map[], map[], map[], map[], map[]);
    s := Single(a, StartUpload(id, uid, req, ttl));
  }
}
