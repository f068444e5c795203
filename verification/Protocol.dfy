/** The job lifecycle protocol: any number of uploads, worker runs, janitor sweeps and SSE
    streams interleave, one port call at a time, over the shared records, files and queue. */
module Protocol {
  import opened Prelude
  import opened Domain
  import opened Ports
  import U = UploadSteps
  import W = WorkerSteps
  import J = JanitorSteps
  import S = StreamSteps

  /** What has happened to a job id so far; nothing in the system reads it. */
  datatype Past = Past(
    born: Option<Job>,            // the job NewJob built
    statuses: seq<JobStatus>,     // the statuses committed to its row, in order
    announced: bool,              // the bus accepted its jobs.created event
    claimant: Option<nat>,        // the run that committed processing
    begun: nat)                   // how often Process was entered

  const NO_PAST := Past(None, [], false, None, 0)

  /** An upload is identified by the job id it draws; `uid` names its stored file. */
  datatype Upload = Upload(uid: Uid, phase: U.Phase)

  datatype Run = Run(id: JobId, phase: W.Phase)

  datatype State = State(
    clock: Time,
    jobs: map<JobId, Record>,
    files: set<Path>,
    queue: multiset<JobId>,
    uploads: map<JobId, Upload>,
    runs: map<nat, Run>,
    sweeps: map<nat, J.Sweep>,
    streams: map<nat, S.Stream>,
    past: map<JobId, Past>,
    owner: map<Uid, JobId>)

  ghost predicate Init(s: State) {
    s == State(s.clock, map[], {}, multiset{}, map[], map[], map[], map[], map[], map[])
  }

  datatype Step =
    | StartUpload(id: JobId, uid: Uid, req: U.Request, defaultTtl: int)
    | UploadCall(id: JobId, c: Choice)
    | Duplicate(id: JobId)
    | Lose(id: JobId)
    | Deliver(r: nat, id: JobId)
    | WorkerCall(r: nat, c: Choice)
    | StartSweep(k: nat, limit: int)
    | List(k: nat, page: seq<J.Snapshot>, c: Choice)
    | Fetch(k: nat, c: Choice)
    | SweepCall(k: nat, c: Choice)
    | OpenStream(t: nat, id: JobId)
    | StreamMove(t: nat, move: S.Move)
    | Tick(d: nat)

  function RecordOf(s: State, id: JobId): Record {
    if id in s.jobs then s.jobs[id] else BLANK
  }

  ghost predicate Enabled(s: State, step: Step) {
    match step
    case StartUpload(id, uid, req, ttl) => id !in s.uploads && uid !in s.owner && ttl > 0
    case UploadCall(id, c) => id in s.uploads && id in s.jobs && id in s.past && !s.uploads[id].phase.Finished?
    case Duplicate(id) => id in s.queue
    case Lose(id) => id in s.queue
    case Deliver(r, id) => r !in s.runs && id in s.queue
    case WorkerCall(r, c) =>
      r in s.runs && s.runs[r].id in s.jobs && s.runs[r].id in s.past && !s.runs[r].phase.Finished?
    case StartSweep(k, limit) => k !in s.sweeps
    case List(k, page, c) =>
      && k in s.sweeps && s.sweeps[k].Listing?
      && J.IsExpiredPage(s.jobs, s.clock, J.PageSize(s.sweeps[k].limit), page)
    case Fetch(k, c) =>
      && k in s.sweeps && s.sweeps[k].Fetching? && s.sweeps[k].fetched < |s.sweeps[k].todo|
      && s.sweeps[k].todo[s.sweeps[k].fetched].id in s.jobs
    case SweepCall(k, c) =>
      k in s.sweeps && J.Working(s.sweeps[k]) && J.Current(s.sweeps[k]).id in s.jobs
    case OpenStream(t, id) => t !in s.streams
    case StreamMove(t, move) => t in s.streams && S.CanMove(s.streams[t], RecordOf(s, s.streams[t].id), move)
    case Tick(d) => true
  }

  function AfterUploadCall(s: State, id: JobId, c: Choice): State
    requires id in s.uploads && id in s.jobs && id in s.past
  {
    var u := s.uploads[id];
    var (rec', phase') := U.Next(s.jobs[id], s.clock, u.uid, u.phase, c);
    var past := s.past[id];
    s.(jobs := s.jobs[id := rec'],
       files := U.Files(s.files, u.uid, u.phase, c),
       queue := if u.phase.Announcing? && c.Success? then s.queue + multiset{id} else s.queue,
       uploads := s.uploads[id := u.(phase := phase')],
       past := s.past[id := UploadPast(past, u.phase, phase')])
  }

  function UploadPast(past: Past, p: U.Phase, p': U.Phase): Past {
    match p
    case Storing(_, _, _) => if p'.Registering? then past.(born := Some(p'.job)) else past
    case Registering(_) => if p'.Announcing? then past.(statuses := [Pending]) else past
    case Announcing(_) => if p'.Finished? then past.(announced := true) else past
    case _ => past
  }

  function AfterWorkerCall(s: State, r: nat, c: Choice): State
    requires r in s.runs && s.runs[r].id in s.jobs && s.runs[r].id in s.past
  {
    var run := s.runs[r];
    var rec := s.jobs[run.id];
    var (rec', phase') := W.Next(rec, s.files, run.id, run.phase, c);
    s.(jobs := s.jobs[run.id := rec'],
       files := s.files + W.Saved(run.phase, c),
       runs := s.runs[r := run.(phase := phase')],
       past := s.past[run.id := WorkerPast(s.past[run.id], r, run.phase, phase', rec, rec')])
  }

  function WorkerPast(past: Past, r: nat, p: W.Phase, p': W.Phase, rec: Record, rec': Record): Past {
    past.(
    statuses := if rec'.row != rec.row && rec'.row.Some? then past.statuses + [rec'.row.value.status]
                else past.statuses,
    claimant := if p.Claiming? && p'.Announcing? then Some(r) else past.claimant,
    begun := if p.Progressing? then past.begun + 1 else past.begun)
  }

  function AfterSweepCall(s: State, k: nat, c: Choice): State
    requires k in s.sweeps && J.Working(s.sweeps[k]) && J.Current(s.sweeps[k]).id in s.jobs
  {
    var sweep := s.sweeps[k];
    var id := J.Current(sweep).id;
    s.(jobs := s.jobs[id := J.Dropped(s.jobs[id], sweep, c)],
       files := s.files - J.Deleted(sweep, c),
       sweeps := s.sweeps[k := J.Next(sweep, c)])
  }

  ghost function Next(s: State, step: Step): State
    requires Enabled(s, step)
  {
    match step
    case StartUpload(id, uid, req, ttl) =>
      s.(jobs := s.jobs[id := BLANK],
         uploads := s.uploads[id := Upload(uid, U.Intake(req, ttl))],
         past := s.past[id := NO_PAST],
         owner := s.owner[uid := id])
    case UploadCall(id, c) => AfterUploadCall(s, id, c)
    case Duplicate(id) => s.(queue := s.queue + multiset{id})
    case Lose(id) => s.(queue := s.queue - multiset{id})
    case Deliver(r, id) => s.(queue := s.queue - multiset{id}, runs := s.runs[r := Run(id, W.Fetching)])
    case WorkerCall(r, c) => AfterWorkerCall(s, r, c)
    case StartSweep(k, limit) => s.(sweeps := s.sweeps[k := J.Listing(limit)])
    case List(k, page, c) =>
      s.(sweeps := s.sweeps[k := if c.Success? then J.AfterList(page) else J.Aborted])
    case Fetch(k, c) =>
      var sweep := s.sweeps[k];
      var arts := s.jobs[sweep.todo[sweep.fetched].id].arts;
      s.(sweeps := s.sweeps[k := if c.Success? then J.AfterFetch(sweep.todo, sweep.fetched, arts) else J.Aborted])
    case SweepCall(k, c) => AfterSweepCall(s, k, c)
    case OpenStream(t, id) => s.(streams := s.streams[t := S.Opened(id)])
    case StreamMove(t, move) =>
      s.(streams := s.streams[t := S.Next(s.streams[t], RecordOf(s, s.streams[t].id), move)])
    case Tick(d) => s.(clock := s.clock + d)
  }

  /** `steps` leads from `a` to `b`, every step enabled where it is taken. */
  ghost predicate Leads(a: State, steps: seq<Step>, b: State)
    decreases |steps|
  {
    if steps == [] then a == b
    else Enabled(a, steps[0]) && Leads(Next(a, steps[0]), steps[1..], b)
  }

  /** A run all of whose steps satisfy `ok` in the state they are taken in. */
  ghost predicate LeadsIf(a: State, steps: seq<Step>, b: State, ok: (State, Step) -> bool)
    decreases |steps|
  {
    if steps == [] then a == b
    else Enabled(a, steps[0]) && ok(a, steps[0]) && LeadsIf(Next(a, steps[0]), steps[1..], b, ok)
  }

  /** Some step of the run satisfies `event` in the state it is taken in. */
  ghost predicate Happens(a: State, steps: seq<Step>, b: State, event: (State, Step) -> bool)
    requires Leads(a, steps, b)
    decreases |steps|
  {
    steps != [] && (event(a, steps[0]) || Happens(Next(a, steps[0]), steps[1..], b, event))
  }

  lemma {:induction false} LeadsIfLeads(a: State, steps: seq<Step>, b: State, ok: (State, Step) -> bool)
    requires LeadsIf(a, steps, b, ok)
    ensures Leads(a, steps, b)
    decreases |steps|
  {
    hide Enabled, Next;
    if steps != [] {
      LeadsIfLeads(Next(a, steps[0]), steps[1..], b, ok);
    }
  }

  lemma Prepend(a: State, step: Step, steps: seq<Step>, b: State)
    requires Enabled(a, step) && Leads(Next(a, step), steps, b)
    ensures Leads(a, [step] + steps, b)
  {
    hide Enabled, Next;
    assert ([step] + steps)[1..] == steps;
  }

  lemma {:induction false} Append(a: State, steps: seq<Step>, b: State, step: Step)
    requires Leads(a, steps, b) && Enabled(b, step)
    ensures Leads(a, steps + [step], Next(b, step))
    decreases |steps|
  {
    hide Enabled, Next;
    if steps == [] {
      assert ([step])[1..] == [];
      assert Leads(Next(b, step), [], Next(b, step));
      assert Leads(a, [step], Next(b, step));
      assert [] + [step] == [step];
    } else {
      Append(Next(a, steps[0]), steps[1..], b, step);
      assert (steps + [step])[1..] == steps[1..] + [step];
    }
  }

  lemma {:induction false} Joined(a: State, steps: seq<Step>, b: State, more: seq<Step>, c: State)
    requires Leads(a, steps, b) && Leads(b, more, c)
    ensures Leads(a, steps + more, c)
    decreases |steps|
  {
    hide Enabled, Next;
    if steps == [] {
      assert steps + more == more;
    } else {
      Joined(Next(a, steps[0]), steps[1..], b, more, c);
      assert (steps + more)[1..] == steps[1..] + more;
    }
  }

  lemma Single(s: State, step: Step) returns (s': State)
    requires Enabled(s, step)
    ensures s' == Next(s, step) && Leads(s, [step], s')
  {
    hide Enabled, Next;
    s' := Next(s, step);
    assert ([step])[1..] == [];
    assert Leads(s', [], s');
  }
}
