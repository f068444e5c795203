/** handleSSEEvents of internal/handlers/http/handler.go: what the handler writes for what it reads. */
module SseHandler {
  import opened Prelude
  import opened Domain
  import opened Ports
  import S = StreamSteps

  /** What the select of the loop yields: the request's context is done, or an event arrived on the channel,
      whose content is ignored, and the re-read it triggers answers `read`; `rendered` says whether the card
      template succeeds. */
  datatype Signal = Done | Arrived(event: StatusEvent, read: Result<Row, RepoError>, rendered: bool)

  datatype Response = BadRequest | ServerError | NotFoundPage | Cards(shown: seq<JobStatus>, ended: bool)

  function RowOf(read: Result<Row, RepoError>): Option<Row> {
    match read
    case Ok(row) => Some(row)
    case Err(_) => None
  }

  /** The stream process fed with the same signals. */
  function Fed(s: S.Stream, signals: seq<Signal>): S.Stream
    decreases |signals|
  {
    if signals == [] || s.phase.Closed? then s
    else match signals[0]
      case Done => s.(phase := S.Closed)
      case Arrived(event, read, rendered) =>
        Fed(S.AfterRead(s.(phase := S.Rereading(event)), RowOf(read), rendered), signals[1..])
  }

  function Started(id: JobId, first: Result<Row, RepoError>, rendered: bool, subscribed: bool): S.Stream {
    var s := S.AfterRead(S.Opened(id), RowOf(first), rendered);
    if s.phase.Subscribing? then s.(phase := if subscribed then S.Waiting else S.Closed) else s
  }

  /** The card of a signal: the status a successful re-read found, if its card renders. */
  function CardOf(signal: Signal): seq<JobStatus> {
    match signal
    case Arrived(_, Ok(row), true) => [row.status]
    case _ => []
  }

  function CardsOf(signals: seq<Signal>): seq<JobStatus> {
    if signals == [] then [] else CardOf(signals[0]) + CardsOf(signals[1..])
  }

  /** The client is gone, or a successful re-read found a final status. */
  predicate EndsLoop(signal: Signal) {
    match signal
    case Done => true
    case Arrived(_, Ok(row), _) => row.status in {Completed, Failed}
    case _ => false
  }

  /** The signal with number `n` is the first that ends the loop; there is none if `n` is past the last. */
  predicate LoopEndsAt(signals: seq<Signal>, n: nat) {
    n <= |signals| && (forall i :: 0 <= i < n ==> !EndsLoop(signals[i])) && (n < |signals| ==> EndsLoop(signals[n]))
  }

  /** What is shown for a first row that was read: nothing if its card does not render; its own status; and, if that is
      not final and the subscription works, the cards of the re-reads up to the first signal that ends the loop, that
      one included. */
  ghost predicate Shows(first: Row, rendered: bool, subscribed: bool, signals: seq<Signal>, shown: seq<JobStatus>,
                        ended: bool) {
    if !rendered then shown == [] && ended
    else if first.status in {Completed, Failed} || !subscribed then shown == [first.status] && ended
    else
      exists n: nat :: LoopEndsAt(signals, n) && (ended <==> n < |signals|)
                       && shown == [first.status] + CardsOf(signals[..if n < |signals| then n + 1 else n])
  }

  /** One signal that does not end the loop. */
  lemma OneSignal(s: S.Stream, signal: Signal) returns (next: S.Stream)
    requires s.phase.Waiting? && !EndsLoop(signal)
    ensures next.phase.Waiting? && next.shown == s.shown + CardOf(signal)
    ensures forall rest :: Fed(s, [signal] + rest) == Fed(next, rest)
  {
    next := S.AfterRead(s.(phase := S.Rereading(signal.event)), RowOf(signal.read), signal.rendered);
    forall rest
      ensures Fed(s, [signal] + rest) == Fed(next, rest)
    {
      assert ([signal] + rest)[1..] == rest;
    }
  }

  /** The signal that ends the loop. */
  lemma LastSignal(s: S.Stream, signals: seq<Signal>)
    requires s.phase.Waiting? && signals != [] && EndsLoop(signals[0])
    ensures Fed(s, signals).phase.Closed? && Fed(s, signals).shown == s.shown + CardOf(signals[0])
  {
  }

  lemma CardsHead(signal: Signal, rest: seq<Signal>)
    ensures CardsOf([signal] + rest) == CardOf(signal) + CardsOf(rest)
  {
    assert ([signal] + rest)[1..] == rest;
  }

  lemma {:induction false} FedShows(s: S.Stream, signals: seq<Signal>) returns (n: nat)
    requires s.phase.Waiting?
    ensures LoopEndsAt(signals, n)
    ensures var t := Fed(s, signals);
            && t.shown == s.shown + CardsOf(signals[..if n < |signals| then n + 1 else n])
            && (t.phase.Closed? <==> n < |signals|)
    decreases |signals|
  {
    hide EndsLoop, CardOf, S.AfterRead;
    if signals == [] {
      n := 0;
    } else {
      var tail := signals[1..];
      assert signals == [signals[0]] + tail;
      if EndsLoop(signals[0]) {
        n := 0;
        LastSignal(s, signals);
        CardsHead(signals[0], []);
        assert signals[..1] == [signals[0]] + [];
      } else {
        hide Fed, CardsOf;
        var next := OneSignal(s, signals[0]);
        var rest := FedShows(next, tail);
        n := rest + 1;
        var k := if n < |signals| then n + 1 else n;
        assert signals[..k] == [signals[0]] + tail[..k - 1];
        CardsHead(signals[0], tail[..k - 1]);
      }
    }
  }

  /** The stream process fed with the signals shows what Shows says. */
  lemma FeedingShows(id: JobId, first: Row, rendered: bool, subscribed: bool, signals: seq<Signal>)
    ensures var t := Fed(Started(id, Ok(first), rendered, subscribed), signals);
            Shows(first, rendered, subscribed, signals, t.shown, t.phase.Closed?)
  {
    var s := Started(id, Ok(first), rendered, subscribed);
    assert [] + [first.status] == [first.status];
    if s.phase.Waiting? {
      var n := FedShows(s, signals);
    }
  }

  method HandleSSEEvents(id: JobId, canFlush: bool, first: Result<Row, RepoError>, rendered: bool,
                         subscribed: bool, signals: seq<Signal>) returns (r: Response)
    ensures id == "" ==> r == BadRequest
    ensures id != "" && !canFlush ==> r == ServerError
    ensures id != "" && canFlush && first.Err? ==> r == if first.error == NotFound then NotFoundPage else ServerError
    ensures id != "" && canFlush && first.Ok? ==>
              r.Cards? && Shows(first.value, rendered, subscribed, signals, r.shown, r.ended)
    ensures id != "" && canFlush && first.Ok? ==>
              var s := Fed(Started(id, first, rendered, subscribed), signals);
              r == Cards(s.shown, s.phase.Closed?)
  {
    if id == "" {
      return BadRequest;
    }
    if !canFlush {
      return ServerError;
    }
    if first.Ok? {
      FeedingShows(id, first.value, rendered, subscribed, signals);
    }
    hide Shows;
    if first.Err? {
      return if first.error == NotFound then NotFoundPage else ServerError;
    }
    if !rendered {
      return Cards([], true);
    }
    var shown := [first.value.status];
    if first.value.status == Completed || first.value.status == Failed {
      return Cards(shown, true);
    }
    if !subscribed {
      return Cards(shown, true);
    }
    ghost var s := Started(id, first, rendered, subscribed);
    assert signals[0..] == signals;
    for i := 0 to |signals|
      invariant s.phase == S.Waiting && s.shown == shown
      invariant Fed(s, signals[i..]) == Fed(Started(id, first, rendered, subscribed), signals)
    {
      assert signals[i..][0] == signals[i] && signals[i..][1..] == signals[i + 1..];
      match signals[i]
      case Done =>
        return Cards(shown, true);
      case Arrived(event, read, ok) =>
        s := S.AfterRead(s.(phase := S.Rereading(event)), RowOf(read), ok);
        if read.Err? {
          continue;
        }
        if ok {
          shown := shown + [read.value.status];
        }
        if read.value.status == Completed || read.value.status == Failed {
          return Cards(shown, true);
        }
    }
    return Cards(shown, false);
  }

  /** If the reads never go backwards, neither do the cards; a terminal card ends the stream, so it is the
      last one, and the handler stops at the first terminal status it reads whether or not its card renders. */
  lemma {:induction false} CardsFollowReads(s: S.Stream, signals: seq<Signal>, floor: nat)
    requires s.phase.Waiting? || s.phase.Closed?
    requires forall i :: 0 <= i < |s.shown| ==> s.shown[i].Rank() <= floor
    requires forall i, j :: 0 <= i < j < |s.shown| ==> s.shown[i].Rank() <= s.shown[j].Rank()
    requires forall i :: 0 <= i < |s.shown| && s.shown[i].IsTerminal() ==> i == |s.shown| - 1 && s.phase.Closed?
    requires Ascending(signals, floor)
    ensures var t := Fed(s, signals);
            && s.shown <= t.shown
            && (forall i, j :: 0 <= i < j < |t.shown| ==> t.shown[i].Rank() <= t.shown[j].Rank())
            && (forall i :: 0 <= i < |t.shown| && t.shown[i].IsTerminal() ==> i == |t.shown| - 1 && t.phase.Closed?)
    decreases |signals|
  {
    if signals != [] && !s.phase.Closed? && signals[0].Arrived? {
      var next := S.AfterRead(s.(phase := S.Rereading(signals[0].event)), RowOf(signals[0].read), signals[0].rendered);
      var floor' := if signals[0].read.Ok? then signals[0].read.value.status.Rank() else floor;
      CardsFollowReads(next, signals[1..], floor');
    }
  }

  /** Successive successful reads see statuses that do not go backwards from `floor`. */
  predicate Ascending(signals: seq<Signal>, floor: nat)
    decreases |signals|
  {
    signals == [] ||
    (match signals[0]
     case Arrived(_, Ok(row), _) => floor <= row.status.Rank() && Ascending(signals[1..], row.status.Rank())
     case _ => Ascending(signals[1..], floor))
  }
}
