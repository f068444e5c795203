/** One call by one process keeps the view of the job it works on. */
module JobLocal {
  import opened Prelude
  import opened Domain
  import opened Ports
  import opened Protocol
  import opened JobView
  import U = UploadSteps
  import W = WorkerSteps
  import Media

  /** What a call may change in the history of the job it works on. */
  predicate PastGrows(p: Past, p': Past) {
    && (p.announced ==> p'.announced && p'.born == p.born)
    && (p.claimant.Some? ==> p'.claimant == p.claimant)
  }

  lemma UploadCallFits(id: JobId, u: Upload, rec: Record, p: Past, claim: Option<W.Phase>, now: Time, c: Choice)
    requires Fits(id, u, rec, p, claim) && (claim.Some? <==> p.claimant.Some?)
    ensures var (rec', phase') := U.Next(rec, now, u.uid, u.phase, c);
            Fits(id, u.(phase := phase'), rec', UploadPast(p, u.phase, phase'), claim)
  {
    hide ClaimedFits;
    UploadNextFits(u, rec, p, now, c);
    UploadNextRow(u, rec, p, now, c);
    if claim.Some? {
      hide UnclaimedFits, RowFits;
    } else {
      hide UploadFits, RowFits;
      UploadNextUnclaimed(u, rec, p, now, c);
    }
  }

  lemma UploadNextFits(u: Upload, rec: Record, p: Past, now: Time, c: Choice)
    requires UploadFits(u, p)
    ensures var phase' := U.Next(rec, now, u.uid, u.phase, c).1;
            UploadFits(u.(phase := phase'), UploadPast(p, u.phase, phase'))
  {
    hide IsAccepted;
    if u.phase.Storing? {
      AcceptedIsNamed(u.phase.mediaType);
    }
  }

  lemma AcceptedIsNamed(mediaType: string)
    requires IsAccepted(mediaType)
    ensures mediaType != ""
  {
    hide Media.Normalize;
  }

  lemma UploadNextRow(u: Upload, rec: Record, p: Past, now: Time, c: Choice)
    requires UploadFits(u, p) && RowFits(rec, p) && (p.statuses == [] || p.statuses == [Pending] || u.phase.Finished?)
    ensures var (rec', phase') := U.Next(rec, now, u.uid, u.phase, c);
            RowFits(rec', UploadPast(p, u.phase, phase'))
  {
    hide IsAccepted, IsBirth;
  }

  lemma UploadNextUnclaimed(u: Upload, rec: Record, p: Past, now: Time, c: Choice)
    requires UnclaimedFits(rec, p)
    ensures var (rec', phase') := U.Next(rec, now, u.uid, u.phase, c);
            UnclaimedFits(rec', UploadPast(p, u.phase, phase'))
  {
  }

  /** A run that has not claimed changes nothing unless it claims, and then the row was pending. */
  lemma UnclaimedCallFits(id: JobId, u: Upload, rec: Record, p: Past, claim: Option<W.Phase>, files: set<Path>,
                          r: nat, phase: W.Phase, c: Choice)
    requires Fits(id, u, rec, p, claim) && (claim.Some? <==> p.claimant.Some?) && p.announced
    requires !W.Claimed(phase) && (phase.Claiming? ==> p.born == Some(phase.job))
    ensures var (rec', phase') := W.Next(rec, files, id, phase, c);
            var p' := WorkerPast(p, r, phase, phase', rec, rec');
            && PastGrows(p, p')
            && (W.Claimed(phase') ==> claim.None? && p'.claimant == Some(r)
                                      && Fits(id, u, rec', p', Some(phase')))
            && (!W.Claimed(phase') ==> rec' == rec && p' == p && (phase'.Claiming? ==> p.born == Some(phase'.job)))
  {
    hide IsAccepted, IsBirth, Chosen;
  }

  /** Publishing one more event, or failing to, keeps the log a subsequence of the attempts. */
  lemma Attempted<T>(a: seq<T>, b: seq<T>, x: T)
    requires Subseq(a, b)
    ensures Subseq(a, b + [x]) && Subseq(a + [x], b + [x])
  {
    SubseqSkip(a, b, x);
    SubseqTake(a, b, x);
  }

  lemma AcceptedIsChosen(mediaType: string)
    requires IsAccepted(mediaType)
    ensures Media.FirstMatch(Media.PROCESSORS, mediaType).Some?
  {
    Media.AcceptedHasOneProcessor(mediaType);
  }

  lemma ProgressCallFits(id: JobId, u: Upload, rec: Record, p: Past, files: set<Path>,
                         r: nat, phase: W.Phase, c: Choice)
    requires Fits(id, u, rec, p, Some(phase)) && p.announced
    requires phase.Announcing? || phase.Progressing?
    ensures var (rec', phase') := W.Next(rec, files, id, phase, c);
            Fits(id, u, rec', WorkerPast(p, r, phase, phase', rec, rec'), Some(phase'))
  {
    hide Media.FirstMatch, IsAccepted;
    AcceptedIsChosen(phase.job.mediaType);
    var e := if phase.Announcing? then Progress(10) else Progress(50);
    Attempted(rec.log, AttemptsAt(phase), e);
    assert [] + [Progress(10)] == [Progress(10)];
    assert [Progress(10)] + [Progress(50)] == [Progress(10), Progress(50)];
  }

  lemma ProcessCallFits(id: JobId, u: Upload, rec: Record, p: Past, files: set<Path>,
                        r: nat, phase: W.Phase, c: Choice)
    requires Fits(id, u, rec, p, Some(phase)) && p.announced
    requires phase.Opening? || phase.Saving?
    ensures var (rec', phase') := W.Next(rec, files, id, phase, c);
            Fits(id, u, rec', WorkerPast(p, r, phase, phase', rec, rec'), Some(phase'))
  {
    hide Media.FirstMatch, Subseq, IsAccepted;
  }

  lemma PersistCallFits(id: JobId, u: Upload, rec: Record, p: Past, files: set<Path>,
                        r: nat, phase: W.Phase, c: Choice)
    requires Fits(id, u, rec, p, Some(phase)) && p.announced
    requires phase.Persisting?
    ensures var (rec', phase') := W.Next(rec, files, id, phase, c);
            Fits(id, u, rec', WorkerPast(p, r, phase, phase', rec, rec'), Some(phase'))
  {
    hide Subseq, Chosen, FromProcess, InsertedAt;
    var result, next := phase.result, phase.next;
    var phase' := W.Next(rec, files, id, phase, c).1;
    InsertedNext(phase, phase');
    Attempted(rec.arts, InsertedAt(phase), result[next]);
  }

  lemma InsertedNext(phase: W.Phase, phase': W.Phase)
    requires phase.Persisting? && phase.next < |phase.result| && phase' == W.AfterPersist(phase.result, phase.next + 1)
    ensures InsertedAt(phase') == InsertedAt(phase) + [phase.result[phase.next]]
  {
    var result, next := phase.result, phase.next;
    assert result[..next] + [result[next]] == result[..next + 1];
    assert result[..|result|] == result;
  }

  lemma CompleteCallFits(id: JobId, u: Upload, rec: Record, p: Past, files: set<Path>,
                        r: nat, phase: W.Phase, c: Choice)
    requires Fits(id, u, rec, p, Some(phase)) && p.announced
    requires phase.Completing?
    ensures var (rec', phase') := W.Next(rec, files, id, phase, c);
            Fits(id, u, rec', WorkerPast(p, r, phase, phase', rec, rec'), Some(phase'))
  {
    hide Subseq, FromProcess, IsAccepted, IsBirth;
  }

  /** A publish changes neither the row nor the artifacts, nor the history. */
  lemma SamePast(rec: Record, p: Past, files: set<Path>, id: JobId, r: nat, phase: W.Phase, c: Choice)
    requires phase.NotifyingDone? || phase.ReportingDone? || phase.NotifyingFailure? || phase.ReportingFailure?
    ensures var (rec', phase') := W.Next(rec, files, id, phase, c);
            rec'.row == rec.row && rec'.arts == rec.arts && WorkerPast(p, r, phase, phase', rec, rec') == p
  {
  }

  /** What is attempted on the status subject counts whether or not the call succeeds. */
  lemma NotifyClaimed(id: JobId, rec: Record, p: Past, files: set<Path>, phase: W.Phase, c: Choice)
    requires ClaimedFits(id, phase, rec, p) && (phase.NotifyingDone? || phase.NotifyingFailure?)
    ensures var (rec', phase') := W.Next(rec, files, id, phase, c);
            ClaimedFits(id, phase', rec', p)
  {
    hide Subseq, FromProcess;
    var e := if phase.NotifyingDone? then JobCompleted(phase.result) else JobFailed(phase.reason.Text());
    Attempted(rec.log, AttemptsAt(phase), e);
  }

  /** The same for the broadcast subjects. */
  lemma ReportClaimed(id: JobId, rec: Record, p: Past, files: set<Path>, phase: W.Phase, c: Choice)
    requires ClaimedFits(id, phase, rec, p) && (phase.ReportingDone? || phase.ReportingFailure?)
    ensures var (rec', phase') := W.Next(rec, files, id, phase, c);
            ClaimedFits(id, phase', rec', p)
  {
    var (rec', phase') := W.Next(rec, files, id, phase, c);
    var e := if phase.ReportingDone? then JobCompleted(phase.result) else JobFailed(phase.reason.Text());
    Reports(id, rec, files, phase, c, p.born.value, e);
    NothingReported(id, phase, rec, p);
    hide Subseq, FromProcess, Carries, AttemptsAt, ReportsAt, InsertedAt, CommittedAt, ErrorAt, BegunAt, W.Next;
    Attempted(rec.reports, [], e);
    Appended(e);
  }

  lemma Appended(e: StatusEvent)
    ensures [] + [e] == [e]
  {
  }

  /** The last publish of a run changes its record's reports only, and what its phase stands for only there. */
  lemma Reports(id: JobId, rec: Record, files: set<Path>, phase: W.Phase, c: Choice, job: Job, e: StatusEvent)
    requires phase.ReportingDone? || phase.ReportingFailure?
    requires e == if phase.ReportingDone? then JobCompleted(phase.result) else JobFailed(phase.reason.Text())
    ensures var (rec', phase') := W.Next(rec, files, id, phase, c);
            && rec' == rec.(reports := if c.Success? then rec.reports + [e] else rec.reports)
            && AttemptsAt(phase') == AttemptsAt(phase) && InsertedAt(phase') == InsertedAt(phase)
            && CommittedAt(phase') == CommittedAt(phase) && ErrorAt(phase') == ErrorAt(phase)
            && BegunAt(phase') == BegunAt(phase) && ReportsAt(phase') == [e]
            && W.Claimed(phase') && (Carries(phase, id, job) ==> Carries(phase', id, job))
  {
    hide FromProcess;
  }

  lemma NothingReported(id: JobId, phase: W.Phase, rec: Record, p: Past)
    requires ClaimedFits(id, phase, rec, p) && (phase.ReportingDone? || phase.ReportingFailure?)
    ensures Subseq(rec.reports, [])
  {
    hide Carries, AttemptsAt, InsertedAt;
  }

  lemma PublishFits(id: JobId, u: Upload, rec: Record, p: Past, files: set<Path>, r: nat, phase: W.Phase, c: Choice)
    requires Fits(id, u, rec, p, Some(phase))
    requires phase.NotifyingDone? || phase.ReportingDone? || phase.NotifyingFailure? || phase.ReportingFailure?
    ensures var (rec', phase') := W.Next(rec, files, id, phase, c);
            Fits(id, u, rec', WorkerPast(p, r, phase, phase', rec, rec'), Some(phase'))
  {
    hide ClaimedFits, UploadFits;
    SamePast(rec, p, files, id, r, phase, c);
    if phase.NotifyingDone? || phase.NotifyingFailure? {
      NotifyClaimed(id, rec, p, files, phase, c);
    } else {
      ReportClaimed(id, rec, p, files, phase, c);
    }
    hide W.Next, WorkerPast;
  }

  lemma RecordFailureFits(id: JobId, u: Upload, rec: Record, p: Past, files: set<Path>,
                        r: nat, phase: W.Phase, c: Choice)
    requires Fits(id, u, rec, p, Some(phase)) && p.announced
    requires phase.RecordingFailure?
    ensures var (rec', phase') := W.Next(rec, files, id, phase, c);
            Fits(id, u, rec', WorkerPast(p, r, phase, phase', rec, rec'), Some(phase'))
  {
    hide Subseq, IsAccepted, IsBirth;
  }

  lemma ClaimedCallFits(id: JobId, u: Upload, rec: Record, p: Past, files: set<Path>,
                        r: nat, phase: W.Phase, c: Choice)
    requires Fits(id, u, rec, p, Some(phase)) && p.announced
    ensures var (rec', phase') := W.Next(rec, files, id, phase, c);
            var p' := WorkerPast(p, r, phase, phase', rec, rec');
            && W.Claimed(phase') && PastGrows(p, p') && p'.claimant == p.claimant
            && Fits(id, u, rec', p', Some(phase'))
  {
    match phase
    case Announcing(_) => ProgressCallFits(id, u, rec, p, files, r, phase, c);
    case Progressing(_, _) => ProgressCallFits(id, u, rec, p, files, r, phase, c);
    case Opening(_, _) => ProcessCallFits(id, u, rec, p, files, r, phase, c);
    case Saving(_, _, _) => ProcessCallFits(id, u, rec, p, files, r, phase, c);
    case Persisting(_, _) => PersistCallFits(id, u, rec, p, files, r, phase, c);
    case Completing(_) => CompleteCallFits(id, u, rec, p, files, r, phase, c);
    case NotifyingDone(_) => PublishFits(id, u, rec, p, files, r, phase, c);
    case ReportingDone(_) => PublishFits(id, u, rec, p, files, r, phase, c);
    case RecordingFailure(_) => RecordFailureFits(id, u, rec, p, files, r, phase, c);
    case NotifyingFailure(_, _) => PublishFits(id, u, rec, p, files, r, phase, c);
    case ReportingFailure(_, _) => PublishFits(id, u, rec, p, files, r, phase, c);
    case Finished(_) =>
  }
}
