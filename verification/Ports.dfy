/** The shared state behind the ports, grouped by job, and what each port call does to it. */
module Ports {
  import opened Prelude
  import opened Domain

  datatype RepoError = NotFound | InvalidTransition | DuplicateKey | MissingJob | Unavailable

  /** What the tables and the bus hold for one job id: its row in jobs, its rows in
      job_artifacts in insertion order, and what was published on jobs.status.<id> and, about
      this job, on jobs.completed and jobs.failed. */
  datatype Record = Record(
    row: Option<Row>,
    arts: seq<Artifact>,
    log: seq<StatusEvent>,
    reports: seq<StatusEvent>)

  const BLANK := Record(None, [], [], [])

  /** INSERT INTO jobs: the primary key refuses an id that is present. */
  function InsertRow(rec: Record, row: Row): Result<Record, RepoError> {
    if rec.row.Some? then Err(DuplicateKey) else Ok(rec.(row := Some(row)))
  }

  /** The locked check and write of UpdateJobStatus; the error column is overwritten. */
  function UpdateRow(rec: Record, next: JobStatus, error: Option<string>): Result<Record, RepoError> {
    if rec.row.None? then Err(NotFound)
    else if !rec.row.value.status.CanTransitionTo(next) then Err(InvalidTransition)
    else Ok(rec.(row := Some(rec.row.value.(status := next, error := error))))
  }

  /** INSERT INTO job_artifacts: the foreign key refuses an artifact without its job. */
  function InsertArtifact(rec: Record, a: Artifact): Result<Record, RepoError> {
    if rec.row.None? then Err(MissingJob) else Ok(rec.(arts := rec.arts + [a]))
  }

  /** DELETE FROM jobs with its cascade; a missing row is no error. */
  function DeleteJob(rec: Record): Record {
    rec.(row := None, arts := [])
  }

  function Publish(rec: Record, e: StatusEvent): Record {
    rec.(log := rec.log + [e])
  }

  function Report(rec: Record, e: StatusEvent): Record {
    rec.(reports := rec.reports + [e])
  }

  /** How a port call ends, or, inside Process, how the processor gives up. */
  datatype Choice = Success | Fault | ProcError(text: string) | Panic(value: string)

  /** A call that fails has no effect. */
  function Unless(c: Choice, r: Result<Record, RepoError>): Result<Record, RepoError> {
    if c.Success? then r else Err(Unavailable)
  }
}
