/** PruneExpired as a process: query the page once, fetch the artifacts of each job on it, then delete files
    and row of each. */
module JanitorSteps {
  import opened Domain
  import opened Ports

  /** A listed job as it was read: its row by the page query, its artifacts by a query of their own. */
  datatype Snapshot = Snapshot(id: JobId, row: Row, arts: seq<Artifact>) {
    /** What the sweep deletes for this job, in order. */
    function Files(): (r: seq<Path>)
      ensures |r| == 1 + |arts|
    {
      [row.job.FilePath()] + seq(|arts|, i requires 0 <= i < |arts| => arts[i].path)
    }
  }

  datatype Sweep =
    | Listing(limit: int)
    | Fetching(todo: seq<Snapshot>, fetched: nat)
    | Clearing(todo: seq<Snapshot>, at: nat, pruned: nat)
    | Dropping(todo: seq<Snapshot>, pruned: nat)
    | Finished(pruned: nat)
    | Aborted
  {
    function Todo(): seq<Snapshot> {
      match this
      case Fetching(todo, _) => todo
      case Clearing(todo, _, _) => todo
      case Dropping(todo, _) => todo
      case _ => []
    }

    /** How many of the snapshots have their artifacts. */
    function Known(): nat {
      if Fetching? then fetched else |Todo()|
    }
  }

  function PageSize(limit: int): nat {
    if limit <= 0 then 100 else limit
  }

  type Jobs = map<JobId, Record>

  predicate Expired(jobs: Jobs, now: Time, id: JobId) {
    id in jobs && jobs[id].row.Some? && jobs[id].row.value.job.expiresAt <= now
  }

  function SnapshotOf(jobs: Jobs, id: JobId): Snapshot
    requires id in jobs && jobs[id].row.Some?
  {
    Snapshot(id, jobs[id].row.value, jobs[id].arts)
  }

  function Due(s: Snapshot): Time { s.row.job.expiresAt }

  predicate Listed(page: seq<Snapshot>, id: JobId) {
    exists i :: 0 <= i < |page| && page[i].id == id
  }

  /** `page` answers SELECT ... WHERE expires_at <= now ORDER BY expires_at LIMIT size. */
  ghost predicate IsExpiredPage(jobs: Jobs, now: Time, size: nat, page: seq<Snapshot>) {
    && |page| <= size
    && (forall i :: 0 <= i < |page| ==>
          Expired(jobs, now, page[i].id) && page[i] == SnapshotOf(jobs, page[i].id))
    && (forall i, j :: 0 <= i < j < |page| ==> page[i].id != page[j].id && Due(page[i]) <= Due(page[j]))
    && (forall id :: Expired(jobs, now, id) && !Listed(page, id) ==>
          |page| == size && forall i :: 0 <= i < |page| ==> Due(page[i]) <= jobs[id].row.value.job.expiresAt)
  }

  /** The rows of the page query, whose artifacts are yet to be fetched. */
  function Bare(page: seq<Snapshot>): (r: seq<Snapshot>)
    ensures |r| == |page|
  {
    seq(|page|, i requires 0 <= i < |page| => page[i].(arts := []))
  }

  function AfterList(page: seq<Snapshot>): Sweep {
    if page == [] then Finished(0) else Fetching(Bare(page), 0)
  }

  /** One job's artifacts have been fetched. */
  function AfterFetch(todo: seq<Snapshot>, fetched: nat, arts: seq<Artifact>): Sweep
    requires fetched < |todo|
  {
    var todo' := todo[fetched := todo[fetched].(arts := arts)];
    if fetched + 1 < |todo| then Fetching(todo', fetched + 1) else NextItem(todo', 0)
  }

  function NextItem(todo: seq<Snapshot>, pruned: nat): Sweep {
    if todo == [] then Finished(pruned) else Clearing(todo, 0, pruned)
  }

  /** The sweep is between calls on the files or the row of `Current(s)`. */
  predicate Working(s: Sweep) {
    (s.Clearing? && s.todo != [] && s.at < |s.todo[0].Files()|) || (s.Dropping? && s.todo != [])
  }

  function Current(s: Sweep): Snapshot
    requires Working(s)
  {
    s.todo[0]
  }

  function Next(s: Sweep, c: Choice): Sweep
    requires Working(s)
  {
    match s
    case Clearing(todo, at, pruned) =>
      if at + 1 < |todo[0].Files()| then Clearing(todo, at + 1, pruned) else Dropping(todo, pruned)
    case Dropping(todo, pruned) => NextItem(todo[1..], if c.Success? then pruned + 1 else pruned)
  }

  /** The file the current call deletes, if it succeeds. */
  function Deleted(s: Sweep, c: Choice): set<Path>
    requires Working(s)
  {
    if s.Clearing? && c.Success? then {s.todo[0].Files()[s.at]} else {}
  }

  /** The effect of the current call on the record of the current job. */
  function Dropped(rec: Record, s: Sweep, c: Choice): Record
    requires Working(s)
  {
    if s.Dropping? && c.Success? then DeleteJob(rec) else rec
  }
}
