/** internal/domain/job.go: the Job entity, whose methods update its fields, against the repository's own
    update of the row. */
module JobEntity {
  import opened Prelude
  import opened Domain
  import opened Ports

  class JobObject {
    const id: JobId
    const job: Job
    var status: JobStatus
    var error: Option<string>
    var artifacts: seq<Artifact>
    var updatedAt: Time

    constructor (id: JobId, job: Job)
      ensures this.id == id && this.job == job
      ensures status == Pending && error == None && artifacts == [] && updatedAt == job.createdAt
    {
      this.id, this.job := id, job;
      status, error, artifacts, updatedAt := Pending, None, [], job.createdAt;
    }

    method TransitionTo(next: JobStatus, messages: seq<string>, now: Time) returns (err: Option<JobError>)
      modifies this
      ensures artifacts == old(artifacts)
      ensures err == if old(status).CanTransitionTo(next) then None else Some(InvalidStateTransition)
      ensures err.None? <==>
                (old(status), next) in
                {(Pending, Processing), (Pending, Failed), (Processing, Completed), (Processing, Failed)}
      ensures err.None? ==> status == next && updatedAt == now
      ensures err.None? ==>
                error == if next == Failed && messages != [] && messages[0] != "" then Some(messages[0]) else old(error)
      ensures err.Some? ==> status == old(status) && updatedAt == old(updatedAt) && error == old(error)
    {
      if !status.CanTransitionTo(next) {
        return Some(InvalidStateTransition);
      }
      status := next;
      updatedAt := now;
      if next == Failed && |messages| > 0 && messages[0] != "" {
        error := Some(messages[0]);
      }
      return None;
    }

    method AddArtifact(a: Artifact, now: Time) returns (err: Option<JobError>)
      modifies this
      ensures status == old(status) && error == old(error)
      ensures err == if a.jobId == id then None else Some(MismatchedArtifact)
      ensures artifacts == if err.None? then old(artifacts) + [a] else old(artifacts)
      ensures updatedAt == if err.None? then now else old(updatedAt)
    {
      if a.jobId != id {
        return Some(MismatchedArtifact);
      }
      artifacts := artifacts + [a];
      updatedAt := now;
      return None;
    }
  }

  /** Entity and repository admit the same transitions. Where they do, they leave the same row exactly when
      the transition is to failed with a message that is not empty, or the message is the one the row already
      had: the repository overwrites the error column, the entity keeps it. */
  lemma EntityAgreesWithRepository(rec: Record, next: JobStatus, error: Option<string>)
    requires rec.row.Some?
    ensures UpdateRow(rec, next, error).Ok? <==>
              (rec.row.value.status, next) in
              {(Pending, Processing), (Pending, Failed), (Processing, Completed), (Processing, Failed)}
    ensures UpdateRow(rec, next, error).Ok? ==>
              (UpdateRow(rec, next, error).value.row ==
               Some(rec.row.value.(status := next,
                                   error := if next == Failed && error.Some? && error.value != "" then error
                                            else rec.row.value.error)) <==>
               (next == Failed && error.Some? && error.value != "") || error == rec.row.value.error)
  {
  }
}
