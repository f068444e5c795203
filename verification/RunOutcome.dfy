/** What a run without interleaving leaves, call by call and for every pattern of failures: which files a
    processor makes, which rows, artifacts and events remain. The k-th call ends as `fate(k)` says. */
module RunOutcome {
  import opened Prelude
  import opened Domain
  import opened Ports
  import opened SoloRuns
  import W = WorkerSteps
  import Media
  import Strings

  /** What a call adds if it succeeds. */
  function If<T>(c: Choice, x: T): seq<T> {
    if c.Success? then [x] else []
  }

  /** The media type starts with image/ in any letter case. */
  predicate IsImageType(mediaType: string) {
    |mediaType| >= 6 && Strings.Spells(mediaType[..6], "image/")
  }

  /** The files that are made of the job's source, in order: three for an image, two for a PDF. */
  predicate Makes(mediaType: string, kinds: seq<Kind>) {
    if IsImageType(mediaType) then kinds == [Thumb, Medium, Optimized] else kinds == [ExtractedText, Cover]
  }

  lemma Dispatch(mediaType: string, kinds: seq<Kind>) returns (proc: Media.Processor)
    requires (IsImageType(mediaType) || Media.NamesPdf(mediaType)) && Makes(mediaType, kinds)
    ensures Media.FirstMatch(Media.PROCESSORS, mediaType) == Some(proc) && proc.Plan() == kinds
  {
    hide Media.NamesPdf, Strings.Spells;
    Media.DispatchExactly(mediaType);
    proc := Media.FirstMatch(Media.PROCESSORS, mediaType).value;
  }

  /** A run that does not claim the job changes nothing. */
  lemma RunRefused(rec: Record, files: set<Path>, id: JobId, fate: Fates)
    requires fate(0) != Success || fate(1) != Success || rec.row.None? || rec.row.value.status != Pending
    ensures RunFrom(rec, files, id, W.Fetching, fate, 0) ==
            Ending(rec, files, W.Unclaimed(if fate(0) != Success then Unavailable
                                           else if rec.row.None? then NotFound
                                           else if fate(1) != Success then Unavailable
                                           else InvalidTransition))
  {
    hide RunFrom;
    Unroll(rec, files, id, W.Fetching, fate, 0);
    if fate(0) != Success {
      Ended(rec, files, id, W.Unclaimed(Unavailable), fate, 1);
    } else if rec.row.None? {
      Ended(rec, files, id, W.Unclaimed(NotFound), fate, 1);
    } else {
      Unroll(rec, files, id, W.Claiming(rec.row.value.job), fate, 1);
      Ended(rec, files, id, W.Unclaimed(if fate(1) != Success then Unavailable else InvalidTransition), fate, 2);
    }
  }

  /** The failure path: the update, then the two publishes, each counting only if its call succeeds. */
  lemma Failing(rec: Record, files: set<Path>, id: JobId, job: Job, reason: Reason, fate: Fates, k: nat)
    requires rec.row == Some(Row(job, Processing, None))
    ensures var told := JobFailed(reason.Text());
            RunFrom(rec, files, id, W.RecordingFailure(reason), fate, k) ==
            Ending(Record(Some(if fate(k) == Success then Row(job, Failed, Some(reason.Text()))
                               else Row(job, Processing, None)),
                          rec.arts, rec.log + If(fate(k + 1), told), rec.reports + If(fate(k + 2), told)),
                   files, W.Errored(reason, fate(k) == Success))
  {
    hide RunFrom, If;
    var recorded := fate(k) == Success;
    Unroll(rec, files, id, W.RecordingFailure(reason), fate, k);
    Telling(rec.(row := Some(if recorded then Row(job, Failed, Some(reason.Text())) else rec.row.value)), files, id,
            reason, recorded, fate, k + 1);
  }

  lemma Telling(rec: Record, files: set<Path>, id: JobId, reason: Reason, recorded: bool, fate: Fates, k: nat)
    ensures var told := JobFailed(reason.Text());
            RunFrom(rec, files, id, W.NotifyingFailure(reason, recorded), fate, k) ==
            Ending(rec.(log := rec.log + If(fate(k), told), reports := rec.reports + If(fate(k + 1), told)), files,
                   W.Errored(reason, recorded))
  {
    hide RunFrom;
    var told := JobFailed(reason.Text());
    assert rec.log + [] == rec.log && rec.reports + [] == rec.reports;
    Unroll(rec, files, id, W.NotifyingFailure(reason, recorded), fate, k);
    var rec1 := rec.(log := rec.log + If(fate(k), told));
    Unroll(rec1, files, id, W.ReportingFailure(reason, recorded), fate, k + 1);
    Ended(rec1.(reports := rec1.reports + If(fate(k + 1), told)), files, id, W.Errored(reason, recorded), fate, k + 2);
  }

  /** The claim and the first progress event. */
  lemma Claims(rec: Record, files: set<Path>, id: JobId, job: Job, error: Option<string>, fate: Fates)
    requires rec.row == Some(Row(job, Pending, error)) && fate(0) == fate(1) == Success
    ensures var rec1 := rec.(row := Some(Row(job, Processing, None)));
            var rec2 := rec1.(log := rec.log + If(fate(2), Progress(10)));
            && RunFrom(rec, files, id, W.Fetching, fate, 0) == RunFrom(rec1, files, id, W.Announcing(job), fate, 2)
            && W.Next(rec1, files, id, W.Announcing(job), fate(2)).0 == rec2
  {
    hide RunFrom, Media.FirstMatch;
    Unroll(rec, files, id, W.Fetching, fate, 0);
    Unroll(rec, files, id, W.Claiming(job), fate, 1);
  }

  /** A pending job of a media type that no processor claims fails as unsupported. */
  lemma RunUnsupported(rec: Record, files: set<Path>, id: JobId, job: Job, error: Option<string>, fate: Fates)
    requires rec.row == Some(Row(job, Pending, error)) && fate(0) == fate(1) == Success
    requires !IsImageType(job.mediaType) && !Media.NamesPdf(job.mediaType)
    ensures var told := JobFailed("unsupported media type");
            RunFrom(rec, files, id, W.Fetching, fate, 0) ==
            Ending(Record(Some(if fate(3) == Success then Row(job, Failed, Some("unsupported media type"))
                               else Row(job, Processing, None)),
                          rec.arts, rec.log + If(fate(2), Progress(10)) + If(fate(4), told),
                          rec.reports + If(fate(5), told)),
                   files, W.Errored(Unsupported, fate(3) == Success))
  {
    hide RunFrom, Media.FirstMatch, Media.NamesPdf, IsImageType;
    Claims(rec, files, id, job, error, fate);
    Undispatched(job.mediaType);
    var rec1 := rec.(row := Some(Row(job, Processing, None)));
    Unroll(rec1, files, id, W.Announcing(job), fate, 2);
    Failing(rec1.(log := rec.log + If(fate(2), Progress(10))), files, id, job, Unsupported, fate, 3);
  }

  lemma Undispatched(mediaType: string)
    requires !IsImageType(mediaType) && !Media.NamesPdf(mediaType)
    ensures Media.FirstMatch(Media.PROCESSORS, mediaType) == None
  {
    hide Media.NamesPdf, Strings.Spells, Media.FirstMatch;
    Media.DispatchExactly(mediaType);
  }

  /** What the job's record is when Process is entered. */
  function Begun(rec: Record, job: Job, fate: Fates): Record {
    Record(Some(Row(job, Processing, None)), rec.arts,
           rec.log + If(fate(2), Progress(10)) + If(fate(3), Progress(50)), rec.reports)
  }

  lemma Begins(rec: Record, files: set<Path>, id: JobId, job: Job, error: Option<string>, proc: Media.Processor,
               fate: Fates)
    requires rec.row == Some(Row(job, Pending, error)) && fate(0) == fate(1) == Success
    requires Media.FirstMatch(Media.PROCESSORS, job.mediaType) == Some(proc)
    ensures RunFrom(rec, files, id, W.Fetching, fate, 0) ==
            RunFrom(Begun(rec, job, fate), files, id, W.Opening(job, proc), fate, 4)
  {
    hide RunFrom, Media.FirstMatch;
    Claims(rec, files, id, job, error, fate);
    var rec1 := rec.(row := Some(Row(job, Processing, None)));
    Unroll(rec1, files, id, W.Announcing(job), fate, 2);
    var rec2 := rec1.(log := rec.log + If(fate(2), Progress(10)));
    assert rec2.log + [] == rec2.log;
    Unroll(rec2, files, id, W.Progressing(job, proc), fate, 3);
    assert Begun(rec, job, fate) == rec2.(log := rec2.log + If(fate(3), Progress(50)));
  }

  /** The first `n` files. */
  function Made(uid: Uid, kinds: seq<Kind>, n: nat): set<Path> {
    set i | 0 <= i < n && i < |kinds| :: Product(uid, kinds[i])
  }

  /** A claimed run gives up at call `j`: its open, a save, or, with every file saved, a panic. What was saved stays;
      nothing is inserted; the error's text goes to the row and into the events, as far as those calls succeed. */
  lemma RunGivesUp(rec: Record, files: set<Path>, id: JobId, job: Job, error: Option<string>, kinds: seq<Kind>,
                   fate: Fates, j: nat)
    requires rec.row == Some(Row(job, Pending, error)) && fate(0) == fate(1) == Success
    requires (IsImageType(job.mediaType) || Media.NamesPdf(job.mediaType)) && Makes(job.mediaType, kinds)
    requires 4 <= j <= 5 + |kinds| && (forall i :: 4 <= i < j ==> fate(i) == Success)
    requires if j == 4 then fate(4) != Success || Source(job.uid) !in files
             else Source(job.uid) in files && if j == 5 + |kinds| then fate(j).Panic? else fate(j) != Success
    ensures var text := match fate(j)
                        case ProcError(text) => text
                        case Panic(value) => "panic during media processing: " + value
                        case _ => if j == 4 then "failed to open source file" else "failed to save artifact";
            var told := JobFailed(text);
            var e := RunFrom(rec, files, id, W.Fetching, fate, 0);
            && e.rec == Record(Some(if fate(j + 1) == Success then Row(job, Failed, Some(text))
                                    else Row(job, Processing, None)),
                               rec.arts,
                               rec.log + If(fate(2), Progress(10)) + If(fate(3), Progress(50)) + If(fate(j + 2), told),
                               rec.reports + If(fate(j + 3), told))
            && e.files == files + Made(job.uid, kinds, if j == 4 then 0 else j - 5)
            && e.outcome.Errored? && e.outcome.reason.Text() == text && e.outcome.recorded == (fate(j + 1) == Success)
  {
    hide RunFrom, Media.FirstMatch, Media.NamesPdf, IsImageType, Made;
    var proc := Dispatch(job.mediaType, kinds);
    Begins(rec, files, id, job, error, proc, fate);
    GivesUpAt(Begun(rec, job, fate), files, id, job, proc, fate, j);
    Failing(Begun(rec, job, fate), files + Made(job.uid, kinds, if j == 4 then 0 else j - 5), id, job,
            GaveUp(fate(j), j), fate, j + 1);
  }

  /** From its open to the failure path. */
  lemma GivesUpAt(begun: Record, files: set<Path>, id: JobId, job: Job, proc: Media.Processor, fate: Fates, j: nat)
    requires 4 <= j <= 5 + |proc.Plan()| && (forall i :: 4 <= i < j ==> fate(i) == Success)
    requires if j == 4 then fate(4) != Success || Source(job.uid) !in files
             else Source(job.uid) in files && if j == 5 + |proc.Plan()| then fate(j).Panic? else fate(j) != Success
    ensures RunFrom(begun, files, id, W.Opening(job, proc), fate, 4) ==
            RunFrom(begun, files + Made(job.uid, proc.Plan(), if j == 4 then 0 else j - 5), id,
                    W.RecordingFailure(GaveUp(fate(j), j)), fate, j + 1)
  {
    hide RunFrom;
    Unroll(begun, files, id, W.Opening(job, proc), fate, 4);
    if j == 4 {
      assert files + Made(job.uid, proc.Plan(), 0) == files;
    } else {
      var n := j - 5;
      SavedUpTo(begun, files, id, job, proc, 0, n, fate, 5);
      assert Made(job.uid, proc.Plan(), n) == Products(job, proc, 0, n);
      Unroll(begun, files + Products(job, proc, 0, n), id, W.Saving(job, proc, n), fate, j);
    }
  }

  /** The insert with number `next`, and what it leaves. */
  lemma Inserts(rec: Record, files: set<Path>, id: JobId, result: seq<Artifact>, next: nat, fate: Fates, k: nat)
    requires next < |result| && rec.row.Some?
    ensures RunFrom(rec, files, id, W.AfterPersist(result, next), fate, k) ==
            RunFrom(rec.(arts := rec.arts + If(fate(k), result[next])), files, id, W.AfterPersist(result, next + 1),
                    fate, k + 1)
  {
    hide RunFrom;
    Unroll(rec, files, id, W.Persisting(result, next), fate, k);
    assert rec.arts + [] == rec.arts;
  }

  /** The end of a run whose inserts are over. */
  lemma Completes(rec: Record, files: set<Path>, id: JobId, job: Job, result: seq<Artifact>, fate: Fates, k: nat)
    requires rec.row == Some(Row(job, Processing, None))
    ensures var told := JobCompleted(result);
            RunFrom(rec, files, id, W.Completing(result), fate, k) ==
            if fate(k) == Success
            then Ending(Record(Some(Row(job, Completed, None)), rec.arts, rec.log + If(fate(k + 1), told),
                               rec.reports + If(fate(k + 2), told)), files, W.Succeeded(result))
            else Ending(rec, files, W.CompletionLost(result, Unavailable))
  {
    hide RunFrom;
    var told := JobCompleted(result);
    assert rec.log + [] == rec.log && rec.reports + [] == rec.reports;
    Unroll(rec, files, id, W.Completing(result), fate, k);
    if fate(k) == Success {
      var rec1 := rec.(row := Some(Row(job, Completed, None)));
      Unroll(rec1, files, id, W.NotifyingDone(result), fate, k + 1);
      var rec2 := rec1.(log := rec1.log + If(fate(k + 1), told));
      Unroll(rec2, files, id, W.ReportingDone(result), fate, k + 2);
      Ended(rec2.(reports := rec2.reports + If(fate(k + 2), told)), files, id, W.Succeeded(result), fate, k + 3);
    } else {
      Ended(rec, files, id, W.CompletionLost(result, Unavailable), fate, k + 1);
    }
  }

  /** Up to its inserts, a run whose open and saves succeed and which does not panic. */
  lemma Saves(rec: Record, files: set<Path>, id: JobId, job: Job, error: Option<string>, kinds: seq<Kind>, fate: Fates)
    returns (result: seq<Artifact>)
    requires rec.row == Some(Row(job, Pending, error)) && fate(0) == fate(1) == Success && Source(job.uid) in files
    requires (IsImageType(job.mediaType) || Media.NamesPdf(job.mediaType)) && Makes(job.mediaType, kinds)
    requires (forall i :: 4 <= i < 5 + |kinds| ==> fate(i) == Success) && !fate(5 + |kinds|).Panic?
    ensures |result| == |kinds|
    ensures forall i :: 0 <= i < |kinds| ==> result[i] == Artifact(id, Product(job.uid, kinds[i]))
    ensures RunFrom(rec, files, id, W.Fetching, fate, 0) ==
            RunFrom(Begun(rec, job, fate), files + Made(job.uid, kinds, |kinds|), id, W.AfterPersist(result, 0), fate,
                    6 + |kinds|)
  {
    hide RunFrom, Media.FirstMatch, Media.NamesPdf, IsImageType, W.AfterPersist;
    var proc := Dispatch(job.mediaType, kinds);
    var begun, n := Begun(rec, job, fate), |kinds|;
    Begins(rec, files, id, job, error, proc, fate);
    Unroll(begun, files, id, W.Opening(job, proc), fate, 4);
    SavedUpTo(begun, files, id, job, proc, 0, n, fate, 5);
    var files' := files + Products(job, proc, 0, n);
    assert files' == files + Made(job.uid, kinds, n);
    Returned(begun, files', id, job, proc, fate, 5 + n);
    result := proc.Produced(id, job.uid, n);
  }

  /** A pending image whose source is stored, whose open and three saves succeed and whose Process does not panic:
      the thumbnail, the medium and the optimized version are stored, and recorded in this order as far as the
      inserts succeed; if the update succeeds too the job is completed and told so. */
  lemma ImageIsProcessed(rec: Record, files: set<Path>, id: JobId, job: Job, error: Option<string>, fate: Fates)
    requires rec.row == Some(Row(job, Pending, error)) && Source(job.uid) in files && IsImageType(job.mediaType)
    requires fate(0) == fate(1) == fate(4) == fate(5) == fate(6) == fate(7) == Success && !fate(8).Panic?
    ensures var thumb := Artifact(id, Product(job.uid, Thumb));
            var medium := Artifact(id, Product(job.uid, Medium));
            var optimized := Artifact(id, Product(job.uid, Optimized));
            var result, done := [thumb, medium, optimized], JobCompleted([thumb, medium, optimized]);
            var arts := rec.arts + If(fate(9), thumb) + If(fate(10), medium) + If(fate(11), optimized);
            var log := rec.log + If(fate(2), Progress(10)) + If(fate(3), Progress(50));
            RunFrom(rec, files, id, W.Fetching, fate, 0) ==
            (var files' := files + {Product(job.uid, Thumb), Product(job.uid, Medium), Product(job.uid, Optimized)};
             if fate(12) == Success
             then Ending(Record(Some(Row(job, Completed, None)), arts, log + If(fate(13), done),
                                rec.reports + If(fate(14), done)), files', W.Succeeded(result))
             else Ending(Record(Some(Row(job, Processing, None)), arts, log, rec.reports), files',
                         W.CompletionLost(result, Unavailable)))
  {
    hide RunFrom, Media.NamesPdf, Strings.Spells, IsImageType;
    var kinds := [Thumb, Medium, Optimized];
    var result := Saves(rec, files, id, job, error, kinds, fate);
    var files' := files + Made(job.uid, kinds, 3);
    assert result == [result[0], result[1], result[2]];
    assert Made(job.uid, kinds, 3) ==
           {Product(job.uid, kinds[0]), Product(job.uid, kinds[1]), Product(job.uid, kinds[2])};
    var rec0 := Begun(rec, job, fate);
    Inserts(rec0, files', id, result, 0, fate, 9);
    var rec1 := rec0.(arts := rec0.arts + If(fate(9), result[0]));
    Inserts(rec1, files', id, result, 1, fate, 10);
    var rec2 := rec1.(arts := rec1.arts + If(fate(10), result[1]));
    Inserts(rec2, files', id, result, 2, fate, 11);
    var rec3 := rec2.(arts := rec2.arts + If(fate(11), result[2]));
    Completes(rec3, files', id, job, result, fate, 12);
  }

  /** The same for a PDF: the extracted text and the cover. */
  lemma PdfIsProcessed(rec: Record, files: set<Path>, id: JobId, job: Job, error: Option<string>, fate: Fates)
    requires rec.row == Some(Row(job, Pending, error)) && Source(job.uid) in files
    requires !IsImageType(job.mediaType) && Media.NamesPdf(job.mediaType)
    requires fate(0) == fate(1) == fate(4) == fate(5) == fate(6) == Success && !fate(7).Panic?
    ensures var text := Artifact(id, Product(job.uid, ExtractedText));
            var cover := Artifact(id, Product(job.uid, Cover));
            var result, done := [text, cover], JobCompleted([text, cover]);
            var arts := rec.arts + If(fate(8), text) + If(fate(9), cover);
            var log := rec.log + If(fate(2), Progress(10)) + If(fate(3), Progress(50));
            RunFrom(rec, files, id, W.Fetching, fate, 0) ==
            (var files' := files + {Product(job.uid, ExtractedText), Product(job.uid, Cover)};
             if fate(10) == Success
             then Ending(Record(Some(Row(job, Completed, None)), arts, log + If(fate(11), done),
                                rec.reports + If(fate(12), done)), files', W.Succeeded(result))
             else Ending(Record(Some(Row(job, Processing, None)), arts, log, rec.reports), files',
                         W.CompletionLost(result, Unavailable)))
  {
    hide RunFrom, Media.NamesPdf, Strings.Spells, IsImageType;
    var kinds := [ExtractedText, Cover];
    var result := Saves(rec, files, id, job, error, kinds, fate);
    var files' := files + Made(job.uid, kinds, 2);
    assert result == [result[0], result[1]];
    assert Made(job.uid, kinds, 2) == {Product(job.uid, kinds[0]), Product(job.uid, kinds[1])};
    var rec0 := Begun(rec, job, fate);
    Inserts(rec0, files', id, result, 0, fate, 8);
    var rec1 := rec0.(arts := rec0.arts + If(fate(8), result[0]));
    Inserts(rec1, files', id, result, 1, fate, 9);
    var rec2 := rec1.(arts := rec1.arts + If(fate(9), result[1]));
    Completes(rec2, files', id, job, result, fate, 10);
  }
}
