/** SSE streams: no progress event is dropped, and what a stream shows never moves backwards. */
module Streams {
  import opened Prelude
  import opened Domain
  import opened Ports
  import opened Protocol
  import opened JobView
  import opened JobInvariant
  import opened Growth
  import opened Lifecycle
  import S = StreamSteps
  import W = WorkerSteps
  import U = UploadSteps
  import J = JanitorSteps

  function PastOf(s: State, id: JobId): Past {
    if id in s.past then s.past[id] else NO_PAST
  }

  /** The shown statuses were committed, in this order, and a terminal one closed the stream. */
  predicate ShownFits(shown: seq<JobStatus>, closed: bool, statuses: seq<JobStatus>) {
    && (forall i :: 0 <= i < |shown| ==> shown[i] in statuses)
    && (forall i, j :: 0 <= i < j < |shown| ==> shown[i].Rank() <= shown[j].Rank())
    && (forall i :: 0 <= i < |shown| && shown[i].IsTerminal() ==> i == |shown| - 1 && closed)
  }

  /** The events the stream is at or has in its channel, in the order it takes them. */
  function InHand(stream: S.Stream): seq<StatusEvent> {
    if stream.phase.Rereading? then [stream.phase.trigger] + stream.channel else stream.channel
  }

  /** The channel holds events of the subject, no more than the bus has passed on. */
  predicate StreamFits(stream: S.Stream, log: seq<StatusEvent>, statuses: seq<JobStatus>) {
    && |stream.channel| <= stream.cursor <= |log|
    && stream.dropped == 0
    && (!stream.phase.Closed? ==> Subseq(InHand(stream), log[..stream.cursor]))
    && (forall e :: e in stream.channel ==> e in log)
    && (stream.phase.Rereading? ==> stream.phase.trigger in log)
    && ((stream.phase.Reading? || stream.phase.Subscribing?) ==> stream.channel == [] && stream.cursor == 0)
    && ShownFits(stream.shown, stream.phase.Closed?, statuses)
  }

  ghost predicate StreamsFit(s: State) {
    forall t :: t in s.streams ==>
      StreamFits(s.streams[t], RecordOf(s, s.streams[t].id).log, PastOf(s, s.streams[t].id).statuses)
  }

  lemma StreamFitsGrows(stream: S.Stream, log: seq<StatusEvent>, statuses: seq<JobStatus>,
                        log': seq<StatusEvent>, statuses': seq<JobStatus>)
    requires StreamFits(stream, log, statuses) && log <= log' && statuses <= statuses'
    ensures StreamFits(stream, log', statuses')
  {
    assert log[..stream.cursor] == log'[..stream.cursor];
  }

  lemma {:induction false} LastRanksHighest(statuses: seq<JobStatus>, i: nat)
    requires LegalPath(statuses) && i < |statuses|
    ensures statuses[i].Rank() <= statuses[|statuses| - 1].Rank()
    decreases |statuses| - i
  {
    if i < |statuses| - 1 {
      assert statuses[i].CanTransitionTo(statuses[i + 1]);
      LastRanksHighest(statuses, i + 1);
    }
  }

  /** A read shows the latest committed status. */
  lemma ReadFits(stream: S.Stream, rec: Record, p: Past, c: Choice, rendered: bool)
    requires StreamFits(stream, rec.log, p.statuses) && RowFits(rec, p) && LegalPath(p.statuses)
    requires stream.phase.Reading? || stream.phase.Rereading?
    ensures StreamFits(S.Next(stream, rec, S.Read(c, rendered)), rec.log, p.statuses)
  {
    if stream.phase.Rereading? {
      SubseqTail(InHand(stream), rec.log[..stream.cursor]);
      assert InHand(stream)[1..] == stream.channel;
    }
    hide Subseq;
    if rec.row.Some? {
      var status := rec.row.value.status;
      assert status in p.statuses;
      forall i | 0 <= i < |stream.shown|
        ensures stream.shown[i].Rank() <= status.Rank()
      {
        var k :| 0 <= k < |p.statuses| && p.statuses[k] == stream.shown[i];
        LastRanksHighest(p.statuses, k);
      }
    }
  }

  lemma MoveFits(stream: S.Stream, rec: Record, p: Past, move: S.Move)
    requires StreamFits(stream, rec.log, p.statuses) && RowFits(rec, p) && LegalPath(p.statuses) && |rec.log| <= 3
    requires S.CanMove(stream, rec, move)
    ensures StreamFits(S.Next(stream, rec, move), rec.log, p.statuses)
  {
    match move
    case Read(c, rendered) =>
      hide RowFits, ShownFits, LegalPath, Subseq;
      ReadFits(stream, rec, p, c, rendered);
    case Receive =>
      assert stream.channel[0] in stream.channel;
      assert stream.channel == [stream.channel[0]] + stream.channel[1..];
    case Callback =>
      hide RowFits, ShownFits, LegalPath;
      PassedOn(stream, rec.log);
      hide Subseq;
    case Loss =>
      hide RowFits, ShownFits, LegalPath;
      PassedOn(stream, rec.log);
      hide Subseq;
    case Subscribe(_) =>
      assert Subseq(stream.channel, rec.log[..|rec.log|]);
    case _ =>
  }

  /** The bus passes on the next event, or loses it. */
  lemma PassedOn(stream: S.Stream, log: seq<StatusEvent>)
    requires stream.cursor < |log| && Subseq(InHand(stream), log[..stream.cursor])
    ensures Subseq(InHand(stream), log[..stream.cursor + 1])
    ensures Subseq(InHand(stream.(channel := stream.channel + [log[stream.cursor]])), log[..stream.cursor + 1])
  {
    var e, before := log[stream.cursor], log[..stream.cursor];
    assert log[..stream.cursor + 1] == before + [e];
    SubseqSkip(InHand(stream), before, e);
    SubseqTake(InHand(stream), before, e);
    hide Subseq;
    assert InHand(stream.(channel := stream.channel + [e])) == InHand(stream) + [e];
  }

  /** What the streams need to know about a job. */
  lemma JobFacts(s: State, id: JobId)
    requires Inv(s)
    ensures RowFits(RecordOf(s, id), PastOf(s, id)) && LegalPath(PastOf(s, id).statuses)
    ensures EventsTrue(RecordOf(s, id), PastOf(s, id))
  {
    hide Inv, ClaimedFits, UploadFits, RowFits, UnclaimedFits, EventsTrue;
    KeysAt(s);
    if id in s.uploads {
      FactsAt(s, id);
      if s.past[id].claimant.Some? {
        ClaimedRowSound(id, s.runs[s.past[id].claimant.value].phase, s.jobs[id], s.past[id]);
        ClaimedEventsTrue(id, s.runs[s.past[id].claimant.value].phase, s.jobs[id], s.past[id]);
      } else {
        UnclaimedPath(s.jobs[id], s.past[id]);
        UnclaimedEvents(s.jobs[id], s.past[id]);
      }
    } else {
      BlankFacts();
    }
  }

  lemma BlankFacts()
    ensures RowFits(BLANK, NO_PAST) && EventsTrue(BLANK, NO_PAST)
  {
  }

  lemma UnclaimedEvents(rec: Record, p: Past)
    requires UnclaimedFits(rec, p)
    ensures EventsTrue(rec, p)
  {
  }

  lemma MoveKeeps(s: State, step: Step, s': State)
    requires Inv(s) && StreamsFit(s) && Enabled(s, step) && s' == Next(s, step) && step.StreamMove?
    ensures StreamsFit(s')
  {
    hide Inv, S.Next, S.CanMove, StreamFits, RowFits;
    var stream := s.streams[step.t];
    JobFacts(s, stream.id);
    MoveFits(stream, RecordOf(s, stream.id), PastOf(s, stream.id), step.move);
    MoveKeepsId(stream, RecordOf(s, stream.id), step.move);
  }

  lemma MoveKeepsId(stream: S.Stream, rec: Record, move: S.Move)
    requires S.CanMove(stream, rec, move)
    ensures S.Next(stream, rec, move).id == stream.id
  {
  }

  lemma OthersKeep(s: State, step: Step, s': State)
    requires Inv(s) && StreamsFit(s) && Enabled(s, step) && s' == Next(s, step) && AllGrow(s, s')
    requires s'.streams == s.streams && Inv(s')
    ensures StreamsFit(s')
  {
    hide Inv, Enabled, Next, StreamFits, AllGrow;
    KeysAt(s);
    KeysAt(s');
    forall t | t in s'.streams
      ensures StreamFits(s'.streams[t], RecordOf(s', s'.streams[t].id).log, PastOf(s', s'.streams[t].id).statuses)
    {
      var id := s.streams[t].id;
      GrowsAt(s, s', id);
      StreamFitsGrows(s.streams[t], RecordOf(s, id).log, PastOf(s, id).statuses,
                      RecordOf(s', id).log, PastOf(s', id).statuses);
    }
  }

  lemma GrowsAt(s: State, s': State, id: JobId)
    requires AllGrow(s, s') && s.jobs.Keys == s.past.Keys && s'.jobs.Keys == s'.past.Keys
    ensures RecordOf(s, id).log <= RecordOf(s', id).log && PastOf(s, id).statuses <= PastOf(s', id).statuses
  {
  }

  lemma StreamsForm(s: State, step: Step)
    requires Enabled(s, step) && !step.StreamMove? && !step.OpenStream?
    ensures Next(s, step).streams == s.streams
  {
    hide J.IsExpiredPage, U.Next, W.Next, UploadPast, WorkerPast, J.Next;
  }

  lemma StreamStepKeeps(s: State, step: Step)
    requires Inv(s) && StreamsFit(s) && Enabled(s, step)
    ensures StreamsFit(Next(s, step))
  {
    hide Inv, Enabled, Next, AllGrow, StreamsFit;
    var s' := Next(s, step);
    StepGrows(s, step);
    match step
    case StreamMove(_, _) => MoveKeeps(s, step, s');
    case OpenStream(_, _) => OpenKeeps(s, step, s');
    case _ =>
      StreamsForm(s, step);
      OthersKeep(s, step, s');
  }

  lemma OpenKeeps(s: State, step: Step, s': State)
    requires StreamsFit(s) && Enabled(s, step) && s' == Next(s, step) && step.OpenStream?
    ensures StreamsFit(s')
  {
    hide StreamFits;
    OpenedFits(step.id, RecordOf(s, step.id).log, PastOf(s, step.id).statuses);
  }

  lemma OpenedFits(id: JobId, log: seq<StatusEvent>, statuses: seq<JobStatus>)
    ensures StreamFits(S.Opened(id), log, statuses)
  {
  }

  lemma {:induction false} LeadsStreams(a: State, steps: seq<Step>, b: State)
    requires Inv(a) && StreamsFit(a) && Leads(a, steps, b)
    ensures StreamsFit(b)
    decreases |steps|
  {
    hide Inv, Enabled, Next, StreamsFit;
    if steps != [] {
      StepKeeps(a, steps[0]);
      StreamStepKeeps(a, steps[0]);
      LeadsStreams(Next(a, steps[0]), steps[1..], b);
    }
  }

  lemma ReachesStreams(a: State, steps: seq<Step>, s: State)
    requires Reaches(a, steps, s)
    ensures Inv(s) && StreamsFit(s)
  {
    hide Inv;
    InitInv(a);
    ReachesInv(a, steps, s);
    LeadsStreams(a, steps, s);
  }

  /** The callback's default branch is never taken: a channel never holds more than three events. */
  lemma NoDroppedProgress(a: State, steps: seq<Step>, s: State, t: nat)
    requires Reaches(a, steps, s) && t in s.streams
    ensures s.streams[t].dropped == 0 && |s.streams[t].channel| <= 3 < S.CHANNEL_CAPACITY
  {
    hide Inv, Leads, Init, EventsTrue;
    ReachesStreams(a, steps, s);
    JobFacts(s, s.streams[t].id);
    EventsFew(RecordOf(s, s.streams[t].id), PastOf(s, s.streams[t].id));
  }

  lemma EventsFew(rec: Record, p: Past)
    requires EventsTrue(rec, p)
    ensures |rec.log| <= 3
  {
  }

  /** A stream takes its events in the order they were published: what it is at, then what waits in its channel. */
  lemma EventsInOrder(a: State, steps: seq<Step>, s: State, t: nat)
    requires Reaches(a, steps, s) && t in s.streams && S.Subscribed(s.streams[t])
    ensures var stream, log := s.streams[t], RecordOf(s, s.streams[t].id).log;
            && stream.cursor <= |log|
            && Subseq((if stream.phase.Rereading? then [stream.phase.trigger] else []) + stream.channel,
                      log[..stream.cursor])
  {
    hide Inv, Leads, Init, Subseq;
    ReachesStreams(a, steps, s);
    assert [] + s.streams[t].channel == s.streams[t].channel;
  }

  /** The rendered statuses never move backwards; a terminal card is rendered at most once, last,
      and only on a stream that has ended. */
  lemma RenderedHistory(a: State, steps: seq<Step>, s: State, t: nat)
    requires Reaches(a, steps, s) && t in s.streams
    ensures var shown := s.streams[t].shown;
            && (forall i, j :: 0 <= i < j < |shown| ==>
                                 shown[i] == shown[j] || shown[i] == Pending
                                 || (shown[i] == Processing && shown[j] in {Completed, Failed}))
            && (forall i :: 0 <= i < |shown| && shown[i] in {Completed, Failed} ==>
                              i == |shown| - 1 && s.streams[t].phase.Closed?)
            && (forall i :: 0 <= i < |shown| ==> shown[i] in PastOf(s, s.streams[t].id).statuses)
  {
    hide Inv, Leads, Init;
    ReachesStreams(a, steps, s);
  }
}
