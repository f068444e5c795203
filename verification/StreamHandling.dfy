/** The handler of a stream and the stream process of the protocol show the same: the moves of every
    reachable stream are signals to the handler. */
module StreamHandling {
  import opened Prelude
  import opened Domain
  import opened Ports
  import opened Protocol
  import opened JobView
  import opened JobInvariant
  import opened Growth
  import opened Lifecycle
  import opened Streams
  import opened SseHandler
  import J = JanitorSteps
  import S = StreamSteps
  import U = UploadSteps
  import W = WorkerSteps

  /** What GetJobByID answers in that state. */
  function ReadOf(s: State, id: JobId, c: Choice): Result<Row, RepoError> {
    if !c.Success? then Err(Unavailable)
    else match RecordOf(s, id).row
      case Some(row) => Ok(row)
      case None => Err(NotFound)
  }

  /** The signal that the loop of stream `t` receives from the step, if any. */
  function SignalOf(s: State, step: Step, t: nat): seq<Signal> {
    if step.StreamMove? && step.t == t && t in s.streams then
      match step.move
      case Read(c, rendered) =>
        if s.streams[t].phase.Rereading?
        then [Arrived(s.streams[t].phase.trigger, ReadOf(s, s.streams[t].id, c), rendered)]
        else []
      case Disconnect => [Done]
      case _ => []
    else []
  }

  ghost function Heard(a: State, steps: seq<Step>, b: State, t: nat): seq<Signal>
    requires Leads(a, steps, b)
    decreases |steps|
  {
    if steps == [] then [] else SignalOf(a, steps[0], t) + Heard(Next(a, steps[0]), steps[1..], b, t)
  }

  /** Both show the same and are closed or not alike; the handler's side rests between signals. */
  predicate Alike(process: S.Stream, handler: S.Stream) {
    && process.shown == handler.shown
    && (process.phase.Closed? <==> handler.phase.Closed?)
    && (handler.phase.Waiting? || handler.phase.Closed?)
  }

  predicate InLoop(stream: S.Stream) {
    stream.phase.Waiting? || stream.phase.Rereading? || stream.phase.Closed?
  }

  /** A step leaves an open stream as it was, or moves it. */
  lemma StreamAfter(s: State, step: Step, t: nat)
    requires Enabled(s, step) && t in s.streams
    ensures t in Next(s, step).streams
    ensures if step.StreamMove? && step.t == t
            then S.CanMove(s.streams[t], RecordOf(s, s.streams[t].id), step.move)
                 && Next(s, step).streams[t] == S.Next(s.streams[t], RecordOf(s, s.streams[t].id), step.move)
            else Next(s, step).streams[t] == s.streams[t]
  {
    hide J.IsExpiredPage, U.Next, W.Next, UploadPast, WorkerPast, U.Intake, J.Deleted, J.Dropped, J.Next;
  }

  /** One move of a stream in its loop, and the signal it is to the handler. */
  lemma MoveHeard(stream: S.Stream, rec: Record, move: S.Move, handler: S.Stream, signal: seq<Signal>,
                  rest: seq<Signal>)
    returns (handler': S.Stream)
    requires InLoop(stream) && S.CanMove(stream, rec, move) && Alike(stream, handler)
    requires signal == match move
                       case Read(c, rendered) =>
                         [Arrived(stream.phase.trigger,
                                  if !c.Success? then Err(Unavailable)
                                  else if rec.row.Some? then Ok(rec.row.value) else Err(NotFound), rendered)]
                       case Disconnect => [Done]
                       case _ => []
    ensures InLoop(S.Next(stream, rec, move)) && Alike(S.Next(stream, rec, move), handler')
    ensures Fed(handler, signal + rest) == Fed(handler', rest)
  {
    if signal == [] {
      handler' := handler;
      assert signal + rest == rest;
    } else {
      assert (signal + rest)[1..] == rest;
      match signal[0]
      case Done => handler' := handler.(phase := S.Closed);
      case Arrived(event, read, rendered) =>
        handler' := S.AfterRead(handler.(phase := S.Rereading(event)), RowOf(read), rendered);
    }
  }

  lemma {:induction false} FollowsFrom(m: State, steps: seq<Step>, s: State, t: nat, handler: S.Stream)
    requires Leads(m, steps, s) && t in m.streams && InLoop(m.streams[t]) && Alike(m.streams[t], handler)
    ensures t in s.streams && Alike(s.streams[t], Fed(handler, Heard(m, steps, s, t)))
    decreases |steps|
  {
    hide Enabled, Next, S.Next, S.CanMove, InLoop, Alike, Fed;
    if steps == [] {
      FedNothing(handler);
    } else {
      var step, n := steps[0], Next(m, steps[0]);
      StreamAfter(m, step, t);
      var rest := Heard(n, steps[1..], s, t);
      if step.StreamMove? && step.t == t {
        MovesInLoop(m.streams[t], RecordOf(m, m.streams[t].id), step.move);
        var handler' := MoveHeard(m.streams[t], RecordOf(m, m.streams[t].id), step.move, handler,
                                  SignalOf(m, step, t), rest);
        FollowsFrom(n, steps[1..], s, t, handler');
      } else {
        assert SignalOf(m, step, t) + rest == rest;
        FollowsFrom(n, steps[1..], s, t, handler);
      }
    }
  }

  lemma FedNothing(handler: S.Stream)
    ensures Fed(handler, []) == handler
  {
  }

  lemma MovesInLoop(stream: S.Stream, rec: Record, move: S.Move)
    requires InLoop(stream) && S.CanMove(stream, rec, move)
    ensures move.Read? ==> stream.phase.Rereading?
  {
  }

  // ---- the reads ascend ----

  function RankNow(s: State, id: JobId): nat {
    var statuses := PastOf(s, id).statuses;
    if statuses == [] then 0 else statuses[|statuses| - 1].Rank()
  }

  lemma PathIsLegal(s: State, id: JobId)
    requires Inv(s)
    ensures LegalPath(PastOf(s, id).statuses)
  {
    hide Inv, ClaimedFits, UnclaimedFits, UploadFits, RowFits;
    KeysAt(s);
    if id in s.past {
      FactsAt(s, id);
      if s.past[id].claimant.Some? {
        ClaimedRowSound(id, s.runs[s.past[id].claimant.value].phase, s.jobs[id], s.past[id]);
      } else {
        UnclaimedPath(s.jobs[id], s.past[id]);
      }
    }
  }

  lemma RankGrows(s: State, step: Step, id: JobId)
    requires Inv(s) && Enabled(s, step)
    ensures Inv(Next(s, step)) && RankNow(s, id) <= RankNow(Next(s, step), id)
  {
    hide Inv, Enabled, Next, LegalPath;
    StepGrows(s, step);
    KeysAt(s);
    PathIsLegal(Next(s, step), id);
    var before, after := PastOf(s, id).statuses, PastOf(Next(s, step), id).statuses;
    assert before <= after by {
      if id in s.past {
        assert JobGrows(s.jobs[id], s.past[id], Next(s, step).jobs[id], Next(s, step).past[id]);
      }
    }
    if before != [] {
      LastRanksHighest(after, |before| - 1);
    }
  }

  lemma ReadRank(s: State, id: JobId)
    requires Inv(s) && RecordOf(s, id).row.Some?
    ensures RecordOf(s, id).row.value.status.Rank() == RankNow(s, id)
  {
    hide Inv, ClaimedFits, UnclaimedFits, UploadFits;
    KeysAt(s);
    FactsAt(s, id);
  }

  lemma {:induction false} HeardAscends(m: State, steps: seq<Step>, s: State, t: nat, floor: nat)
    requires Inv(m) && Leads(m, steps, s) && t in m.streams && floor <= RankNow(m, m.streams[t].id)
    ensures Ascending(Heard(m, steps, s, t), floor)
    decreases |steps|
  {
    hide Inv, Enabled, Next, S.Next, S.CanMove, RankNow;
    if steps != [] {
      var step, n, id := steps[0], Next(m, steps[0]), m.streams[t].id;
      StreamAfter(m, step, t);
      RankGrows(m, step, id);
      SameId(m, step, t);
      var rest := Heard(n, steps[1..], s, t);
      var signal := SignalOf(m, step, t);
      if signal != [] && signal[0].Arrived? && signal[0].read.Ok? {
        ReadRank(m, id);
        HeardAscends(n, steps[1..], s, t, RankNow(m, id));
      } else {
        HeardAscends(n, steps[1..], s, t, floor);
      }
      assert signal == [] ==> signal + rest == rest;
      assert signal != [] ==> (signal + rest)[0] == signal[0] && (signal + rest)[1..] == rest;
    }
  }

  lemma SameId(s: State, step: Step, t: nat)
    requires Enabled(s, step) && t in s.streams
    ensures t in Next(s, step).streams && Next(s, step).streams[t].id == s.streams[t].id
  {
    hide Enabled, Next;
    StreamAfter(s, step, t);
  }

  // ---- the whole stream ----

  /** What the first read of stream `t` answers in the run, and whether its card rendered. */
  ghost function FirstRead(a: State, steps: seq<Step>, b: State, t: nat): Option<(Result<Row, RepoError>, bool)>
    requires Leads(a, steps, b)
    decreases |steps|
  {
    if steps == [] then None
    else if steps[0].StreamMove? && steps[0].t == t && steps[0].move.Read? then
      Some((ReadOf(a, a.streams[t].id, steps[0].move.c), steps[0].move.rendered))
    else FirstRead(Next(a, steps[0]), steps[1..], b, t)
  }

  /** Stream `t` subscribes in the run, and the call succeeds. */
  ghost predicate Subscribes(a: State, steps: seq<Step>, b: State, t: nat)
    requires Leads(a, steps, b)
    decreases |steps|
  {
    steps != [] &&
    if steps[0].StreamMove? && steps[0].t == t && steps[0].move.Subscribe? then steps[0].move.c.Success?
    else Subscribes(Next(a, steps[0]), steps[1..], b, t)
  }

  /** The handler that was given these answers shows what the process shows. */
  predicate ShownBy(stream: S.Stream, first: Result<Row, RepoError>, rendered: bool, subscribed: bool,
                    signals: seq<Signal>) {
    && Alike(stream, Fed(Started(stream.id, first, rendered, subscribed), signals))
    && (first.Ok? ==> Ascending(signals, first.value.status.Rank()))
    && (first.Err? ==> stream.shown == [] && stream.phase.Closed?)
  }

  lemma {:induction false} FromSubscribing(m: State, steps: seq<Step>, s: State, t: nat, first: Result<Row, RepoError>)
    returns (subscribed: bool)
    requires Inv(m) && Leads(m, steps, s) && t in m.streams && m.streams[t].phase.Subscribing? && first.Ok?
    requires m.streams[t].shown == [first.value.status] && !first.value.status.IsTerminal()
    requires first.value.status.Rank() <= RankNow(m, m.streams[t].id)
    requires t in s.streams && InLoop(s.streams[t])
    ensures s.streams[t].id == m.streams[t].id
    ensures ShownBy(s.streams[t], first, true, subscribed, Heard(m, steps, s, t))
    ensures subscribed == Subscribes(m, steps, s, t)
    decreases |steps|
  {
    hide Inv, Enabled, Next, RankNow, Ascending, Fed;
    HeardAscends(m, steps, s, t, first.value.status.Rank());
    SameIdAll(m, steps, s, t);
    var step, n := steps[0], Next(m, steps[0]);
    StreamAfter(m, step, t);
    RankGrows(m, step, m.streams[t].id);
    var rest := Heard(n, steps[1..], s, t);
    assert SignalOf(m, step, t) + rest == rest;
    if step.StreamMove? && step.t == t {
      subscribed := step.move.c.Success?;
      FollowsFrom(n, steps[1..], s, t, Started(m.streams[t].id, first, true, subscribed));
    } else {
      subscribed := FromSubscribing(n, steps[1..], s, t, first);
    }
  }

  lemma {:induction false} SameIdAll(m: State, steps: seq<Step>, s: State, t: nat)
    requires Leads(m, steps, s) && t in m.streams
    ensures t in s.streams && s.streams[t].id == m.streams[t].id
    decreases |steps|
  {
    hide Enabled, Next;
    if steps != [] {
      SameId(m, steps[0], t);
      SameIdAll(Next(m, steps[0]), steps[1..], s, t);
    }
  }

  lemma {:induction false} FromReading(m: State, steps: seq<Step>, s: State, t: nat)
    returns (first: Result<Row, RepoError>, rendered: bool, subscribed: bool)
    requires Inv(m) && Leads(m, steps, s) && t in m.streams && m.streams[t] == S.Opened(m.streams[t].id)
    requires t in s.streams && InLoop(s.streams[t])
    ensures s.streams[t].id == m.streams[t].id
    ensures ShownBy(s.streams[t], first, rendered, subscribed, Heard(m, steps, s, t))
    ensures FirstRead(m, steps, s, t) == Some((first, rendered)) && subscribed == Subscribes(m, steps, s, t)
    decreases |steps|
  {
    hide Inv, Enabled, Next, RankNow, Ascending, Fed;
    SameIdAll(m, steps, s, t);
    var step, n, id := steps[0], Next(m, steps[0]), m.streams[t].id;
    StreamAfter(m, step, t);
    RankGrows(m, step, id);
    var rest := Heard(n, steps[1..], s, t);
    assert SignalOf(m, step, t) + rest == rest;
    if step.StreamMove? && step.t == t {
      first, rendered := ReadOf(m, id, step.move.c), step.move.rendered;
      subscribed := Subscribes(n, steps[1..], s, t);
      if n.streams[t].phase.Subscribing? {
        ReadRank(m, id);
        subscribed := FromSubscribing(n, steps[1..], s, t, first);
      } else {
        FollowsFrom(n, steps[1..], s, t, Started(id, first, rendered, subscribed));
        FedClosed(Started(id, first, rendered, subscribed), rest);
        if first.Ok? {
          ReadRank(m, id);
          HeardAscends(n, steps[1..], s, t, first.value.status.Rank());
        }
      }
    } else {
      first, rendered, subscribed := FromReading(n, steps[1..], s, t);
    }
  }

  lemma FedClosed(handler: S.Stream, signals: seq<Signal>)
    requires handler.phase.Closed?
    ensures Fed(handler, signals) == handler
  {
  }

  /** Where the stream was opened. */
  lemma {:induction false} OpenedAt(a: State, steps: seq<Step>, s: State, t: nat)
    returns (before: seq<Step>, m: State, after: seq<Step>)
    requires Leads(a, steps, s) && t !in a.streams && t in s.streams
    ensures steps == before + after && Leads(a, before, m) && Leads(m, after, s)
    ensures t in m.streams && m.streams[t] == S.Opened(s.streams[t].id)
    decreases |steps|
  {
    hide Enabled, Next;
    var step, n := steps[0], Next(a, steps[0]);
    if t in n.streams {
      Opens(a, step, t);
      m := Single(a, step);
      before, after := [step], steps[1..];
      SameIdAll(m, after, s, t);
    } else {
      before, m, after := OpenedAt(n, steps[1..], s, t);
      Prepend(a, step, before, m);
      before := [step] + before;
    }
  }

  lemma Opens(s: State, step: Step, t: nat)
    requires Enabled(s, step) && t !in s.streams && t in Next(s, step).streams
    ensures Next(s, step).streams[t] == S.Opened(Next(s, step).streams[t].id)
  {
    hide J.IsExpiredPage, U.Next, W.Next, UploadPast, WorkerPast, U.Intake, J.Deleted, J.Dropped, J.Next;
  }

  lemma ShownAsRead(stream: S.Stream, first: Result<Row, RepoError>, rendered: bool, subscribed: bool,
                    signals: seq<Signal>)
    requires ShownBy(stream, first, rendered, subscribed, signals)
    ensures match first
            case Ok(row) => Shows(row, rendered, subscribed, signals, stream.shown, stream.phase.Closed?)
            case Err(_) => stream.shown == [] && stream.phase.Closed?
  {
    hide Shows, Fed, Started, Ascending;
    match first
    case Ok(row) => FeedingShows(stream.id, row, rendered, subscribed, signals);
    case Err(_) =>
  }

  /** For every reachable stream past its subscription: from the state in which it was opened on, its moves are
      signals to the handler. Given what its own first read and its subscription were answered, and those
      signals, the handler writes the cards the stream process shows and ends when it ends, and these are the cards
      of the reads, as Shows says; and the reads it is given never go backwards. */
  lemma HandlerShowsProcess(a: State, steps: seq<Step>, s: State, t: nat)
    returns (before: seq<Step>, m: State, after: seq<Step>)
    requires Reaches(a, steps, s) && t in s.streams && InLoop(s.streams[t])
    ensures steps == before + after && Reaches(a, before, m) && Leads(m, after, s)
    ensures t in m.streams && m.streams[t] == S.Opened(s.streams[t].id)
    ensures match FirstRead(m, after, s, t)
            case Some((first, rendered)) =>
              && ShownBy(s.streams[t], first, rendered, Subscribes(m, after, s, t), Heard(m, after, s, t))
              && (match first
                  case Ok(row) => Shows(row, rendered, Subscribes(m, after, s, t), Heard(m, after, s, t),
                                        s.streams[t].shown, s.streams[t].phase.Closed?)
                  case Err(_) => s.streams[t].shown == [] && s.streams[t].phase.Closed?)
            case None => false
  {
    hide Shows;
    hide Inv, Leads, ShownBy, InLoop, Heard, FirstRead, Subscribes;
    before, m, after := OpenedAt(a, steps, s, t);
    ReachesInv(a, before, m);
    var first, rendered, subscribed := FromReading(m, after, s, t);
    ShownAsRead(s.streams[t], first, rendered, subscribed, Heard(m, after, s, t));
  }
}
