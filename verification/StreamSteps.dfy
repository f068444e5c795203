/** handleSSEEvents as a process: first read, subscribe, then re-read on every event received. */
module StreamSteps {
  import opened Prelude
  import opened Domain
  import opened Ports

  const CHANNEL_CAPACITY: nat := 10

  datatype Phase =
    | Reading
    | Subscribing
    | Waiting
    | Rereading(trigger: StatusEvent)
    | Closed

  /** `cursor` counts the events of the job's status subject that the bus has passed on or lost
      for this subscriber; `shown` is the history of rendered statuses; `dropped` counts
      executions of the callback's default branch. */
  datatype Stream = Stream(
    id: JobId, phase: Phase, shown: seq<JobStatus>, cursor: nat, channel: seq<StatusEvent>, dropped: nat)

  function Opened(id: JobId): Stream {
    Stream(id, Reading, [], 0, [], 0)
  }

  predicate Subscribed(s: Stream) {
    s.phase.Waiting? || s.phase.Rereading?
  }

  /** What can happen to a stream: its own calls, a delivery or a loss by the bus, a disconnect. */
  datatype Move =
    | Read(c: Choice, rendered: bool)
    | Subscribe(c: Choice)
    | Callback
    | Loss
    | Receive
    | Disconnect

  predicate CanMove(s: Stream, rec: Record, move: Move) {
    match move
    case Read(_, _) => s.phase.Reading? || s.phase.Rereading?
    case Subscribe(_) => s.phase.Subscribing?
    case Callback => Subscribed(s) && s.cursor < |rec.log|
    case Loss => Subscribed(s) && s.cursor < |rec.log|
    case Receive => s.phase.Waiting? && s.channel != []
    case Disconnect => s.phase.Waiting?
  }

  /** `rec` is what the tables and the bus hold for the stream's job at that moment. */
  function Next(s: Stream, rec: Record, move: Move): Stream
    requires CanMove(s, rec, move)
  {
    match move
    case Read(c, rendered) => AfterRead(s, if c.Success? then rec.row else None, rendered)
    case Subscribe(c) =>
      // a subscription sees what is published from now on
      if c.Success? then s.(phase := Waiting, cursor := |rec.log|) else s.(phase := Closed)
    case Callback => Delivered(s, rec.log[s.cursor]).(cursor := s.cursor + 1)
    case Loss => s.(cursor := s.cursor + 1)
    case Receive => s.(channel := s.channel[1..], phase := Rereading(s.channel[0]))
    case Disconnect => s.(phase := Closed)
  }

  /** GetJobByID answered with `row`, or not; `rendered` says whether the card template succeeded. */
  function AfterRead(s: Stream, row: Option<Row>, rendered: bool): Stream {
    match (s.phase, row)
    case (Reading, Some(r)) =>
      if !rendered then s.(phase := Closed)
      else s.(shown := s.shown + [r.status], phase := if r.status.IsTerminal() then Closed else Subscribing)
    case (Reading, None) => s.(phase := Closed)
    case (Rereading(_), Some(r)) =>
      s.(shown := if rendered then s.shown + [r.status] else s.shown,
         phase := if r.status.IsTerminal() then Closed else Waiting)
    case (Rereading(_), None) => s.(phase := Waiting)
    case _ => s
  }

  /** The subscription callback: a send on the buffered channel, or the default branch. */
  function Delivered(s: Stream, e: StatusEvent): Stream {
    if |s.channel| < CHANNEL_CAPACITY then s.(channel := s.channel + [e])
    else s.(dropped := s.dropped + 1)
  }
}
