/** The ports as objects: the repository over its two tables, the bus and the file store, each call ending
    as the given choice says. A call that fails has no effect. */
module Adapters {
  import opened Prelude
  import opened Domain
  import opened Ports
  import opened Pages
  import J = JanitorSteps

  /** The artifacts of one job, in insertion order. */
  function ArtifactsOf(table: seq<Artifact>, id: JobId): seq<Artifact> {
    if table == [] then []
    else
      var rest := ArtifactsOf(table[..|table| - 1], id);
      if table[|table| - 1].jobId == id then rest + [table[|table| - 1]] else rest
  }

  /** `mine` are the rows of the table with that job id, all of them and in the table's order. */
  ghost predicate Selects(table: seq<Artifact>, id: JobId, mine: seq<Artifact>) {
    exists at: seq<nat> :: SelectsAt(table, id, mine, at)
  }

  /** Row `k` of the selection is row at[k] of the table. */
  ghost predicate SelectsAt(table: seq<Artifact>, id: JobId, mine: seq<Artifact>, at: seq<nat>) {
    && |at| == |mine|
    && (forall k :: 0 <= k < |at| ==> at[k] < |table| && table[at[k]] == mine[k] && mine[k].jobId == id)
    && (forall k, l :: 0 <= k < l < |at| ==> at[k] < at[l])
    && (forall i :: 0 <= i < |table| && table[i].jobId == id ==> i in at)
  }

  lemma {:induction false} SelectedRows(table: seq<Artifact>, id: JobId) returns (at: seq<nat>)
    ensures SelectsAt(table, id, ArtifactsOf(table, id), at)
  {
    if table == [] {
      at := [];
    } else {
      var init, last := table[..|table| - 1], table[|table| - 1];
      at := SelectedRows(init, id);
      if last.jobId == id {
        var rows := at;
        at := rows + [|init|];
        assert at[|rows|] == |init|;
        assert forall i :: i in rows ==> i in at;
      }
    }
  }

  lemma SelectsExactly(table: seq<Artifact>, id: JobId)
    ensures Selects(table, id, ArtifactsOf(table, id))
  {
    var at := SelectedRows(table, id);
  }

  /** ON DELETE CASCADE. */
  function WithoutJob(table: seq<Artifact>, id: JobId): seq<Artifact> {
    if table == [] then []
    else
      var rest := WithoutJob(table[..|table| - 1], id);
      if table[|table| - 1].jobId == id then rest else rest + [table[|table| - 1]]
  }

  lemma ArtifactsAppend(table: seq<Artifact>, a: Artifact, id: JobId)
    ensures ArtifactsOf(table + [a], id) ==
            if a.jobId == id then ArtifactsOf(table, id) + [a] else ArtifactsOf(table, id)
  {
    assert (table + [a])[..|table|] == table;
  }

  lemma {:induction false} ArtifactsWithout(table: seq<Artifact>, gone: JobId, id: JobId)
    ensures ArtifactsOf(WithoutJob(table, gone), id) == if id == gone then [] else ArtifactsOf(table, id)
    ensures forall a :: a in WithoutJob(table, gone) <==> a in table && a.jobId != gone
  {
    if table != [] {
      var init, last := table[..|table| - 1], table[|table| - 1];
      assert table == init + [last];
      ArtifactsWithout(init, gone, id);
      if last.jobId != gone {
        ArtifactsAppend(WithoutJob(init, gone), last, id);
      }
    }
  }

  /** None of the first `n` calls fails. */
  ghost predicate Succeed(fate: nat -> Choice, n: nat) {
    forall i :: 0 <= i < n ==> fate(i).Success?
  }

  /** The tables jobs and job_artifacts. */
  class JobRepository {
    var rows: map<JobId, Row>
    var artifacts: seq<Artifact>

    /** The foreign key. */
    ghost predicate Valid()
      reads this
    {
      forall a :: a in artifacts ==> a.jobId in rows
    }

    ghost function RowOf(id: JobId): Option<Row>
      reads this
    {
      if id in rows then Some(rows[id]) else None
    }

    constructor ()
      ensures Valid() && rows == map[] && artifacts == []
    {
      rows, artifacts := map[], [];
    }

    method CreateJob(id: JobId, job: Job, c: Choice) returns (err: Option<RepoError>)
      requires Valid()
      modifies this
      ensures Valid() && artifacts == old(artifacts)
      ensures err == if !c.Success? then Some(Unavailable) else if id in old(rows) then Some(DuplicateKey) else None
      ensures rows == if err.None? then old(rows)[id := Row(job, Pending, None)] else old(rows)
    {
      if !c.Success? {
        return Some(Unavailable);
      }
      if id in rows {
        return Some(DuplicateKey);
      }
      rows := rows[id := Row(job, Pending, None)];
      return None;
    }

    /** fetchArtifactsByJobID: the artifacts of one job, row by row. */
    method FetchArtifacts(id: JobId, c: Choice) returns (r: Result<seq<Artifact>, RepoError>)
      ensures r == if c.Success? then Ok(ArtifactsOf(artifacts, id)) else Err(Unavailable)
      ensures r.Ok? ==> Selects(artifacts, id, r.value)
    {
      SelectsExactly(artifacts, id);
      hide Selects;
      if !c.Success? {
        return Err(Unavailable);
      }
      var mine: seq<Artifact> := [];
      for i := 0 to |artifacts|
        invariant mine == ArtifactsOf(artifacts[..i], id)
      {
        assert artifacts[..i + 1] == artifacts[..i] + [artifacts[i]];
        ArtifactsAppend(artifacts[..i], artifacts[i], id);
        if artifacts[i].jobId == id {
          mine := mine + [artifacts[i]];
        }
      }
      assert artifacts[..|artifacts|] == artifacts;
      return Ok(mine);
    }

    /** The query for the row ends as `c`, the one for its artifacts, made only if there is a row, as `d`. */
    method GetJobByID(id: JobId, c: Choice, d: Choice) returns (r: Result<(Row, seq<Artifact>), RepoError>)
      ensures r == if !c.Success? then Err(Unavailable)
                   else if id !in rows then Err(NotFound)
                   else if !d.Success? then Err(Unavailable)
                   else Ok((rows[id], ArtifactsOf(artifacts, id)))
    {
      if !c.Success? {
        return Err(Unavailable);
      }
      if id !in rows {
        return Err(NotFound);
      }
      var mine := FetchArtifacts(id, d);
      if mine.Err? {
        return Err(mine.error);
      }
      return Ok((rows[id], mine.value));
    }

    method UpdateJobStatus(id: JobId, next: JobStatus, error: Option<string>,
                           c: Choice) returns (err: Option<RepoError>)
      requires Valid()
      modifies this
      ensures Valid() && artifacts == old(artifacts)
      ensures err == if !c.Success? then Some(Unavailable)
                     else if id !in old(rows) then Some(NotFound)
                     else if !old(rows)[id].status.CanTransitionTo(next) then Some(InvalidTransition)
                     else None
      ensures err.None? <==>
                && c == Success && id in old(rows)
                && (old(rows)[id].status, next) in
                   {(Pending, Processing), (Pending, Failed), (Processing, Completed), (Processing, Failed)}
      ensures rows == if err.None? then old(rows)[id := old(rows)[id].(status := next, error := error)] else old(rows)
    {
      if !c.Success? {
        return Some(Unavailable);
      }
      if id !in rows {
        return Some(NotFound);
      }
      var current := rows[id].status;
      if !current.CanTransitionTo(next) {
        return Some(InvalidTransition);
      }
      rows := rows[id := rows[id].(status := next, error := error)];
      return None;
    }

    method AddArtifact(a: Artifact, c: Choice) returns (err: Option<RepoError>)
      requires Valid()
      modifies this
      ensures Valid() && rows == old(rows)
      ensures err == if !c.Success? then Some(Unavailable) else if a.jobId !in rows then Some(MissingJob) else None
      ensures artifacts == if err.None? then old(artifacts) + [a] else old(artifacts)
    {
      if !c.Success? {
        return Some(Unavailable);
      }
      if a.jobId !in rows {
        return Some(MissingJob);
      }
      artifacts := artifacts + [a];
      return None;
    }

    method DeleteJob(id: JobId, c: Choice) returns (err: Option<RepoError>)
      requires Valid()
      modifies this
      ensures Valid()
      ensures err == if c.Success? then None else Some(Unavailable)
      ensures rows == if c.Success? then old(rows) - {id} else old(rows)
      ensures artifacts == if c.Success? then WithoutJob(old(artifacts), id) else old(artifacts)
    {
      if !c.Success? {
        return Some(Unavailable);
      }
      ArtifactsWithout(artifacts, id, id);
      rows := rows - {id};
      artifacts := WithoutJob(artifacts, id);
      return None;
    }

    /** The record of every job that has a row, as the page query sees it. */
    ghost function Jobs(): map<JobId, Record>
      reads this
    {
      map id | id in rows :: Record(Some(rows[id]), ArtifactsOf(artifacts, id), [], [])
    }

    /** The page holds rows of the table that are due at `now`, each with its artifacts, earliest first, at most `size`
        of them and none twice; a row that is due is left out only if the page is full of rows due no later. */
    ghost predicate IsAnswer(now: Time, size: int, page: seq<J.Snapshot>)
      reads this
    {
      && |page| <= size
      && (forall i :: 0 <= i < |page| ==>
            && page[i].id in rows && rows[page[i].id] == page[i].row && page[i].row.job.expiresAt <= now
            && page[i].arts == ArtifactsOf(artifacts, page[i].id))
      && (forall i, j :: 0 <= i < j < |page| ==>
            page[i].id != page[j].id && page[i].row.job.expiresAt <= page[j].row.job.expiresAt)
      && (forall id ::
            id in rows && rows[id].job.expiresAt <= now && (forall i :: 0 <= i < |page| ==> page[i].id != id) ==>
              |page| == size && forall i :: 0 <= i < |page| ==> page[i].row.job.expiresAt <= rows[id].job.expiresAt)
    }

    lemma PageIsAnswer(now: Time, size: nat, page: seq<J.Snapshot>)
      requires J.IsExpiredPage(Jobs(), now, size, page)
      ensures IsAnswer(now, size, page)
    {
      forall i | 0 <= i < |page|
        ensures page[i].id in rows
        ensures page[i] == J.Snapshot(page[i].id, rows[page[i].id], ArtifactsOf(artifacts, page[i].id))
        ensures rows[page[i].id].job.expiresAt <= now
      {
        assert J.Expired(Jobs(), now, page[i].id);
      }
      forall id | id in rows && rows[id].job.expiresAt <= now && (forall i :: 0 <= i < |page| ==> page[i].id != id)
        ensures |page| == size && forall i :: 0 <= i < |page| ==> page[i].row.job.expiresAt <= rows[id].job.expiresAt
      {
        assert J.Expired(Jobs(), now, id) && !J.Listed(page, id);
        assert forall i :: 0 <= i < |page| ==> J.Due(page[i]) == page[i].row.job.expiresAt;
      }
    }

    /** The page query, then one query for the artifacts of each job on the page; the page query ends as
        fate(0), the others as fate(1) and on. The first that fails fails the call. */
    method ListExpiredJobs(now: Time, limit: int, fate: nat -> Choice)
      returns (r: Result<seq<J.Snapshot>, RepoError>, ghost page: seq<J.Snapshot>)
      ensures J.IsExpiredPage(Jobs(), now, J.PageSize(limit), page)
      ensures IsAnswer(now, if limit <= 0 then 100 else limit, page)
      ensures r.Ok? ==> IsAnswer(now, if limit <= 0 then 100 else limit, r.value)
      ensures r.Ok? <==> forall i :: 0 <= i <= |page| ==> fate(i) == Success
      ensures r == if Succeed(fate, 1 + |page|) then Ok(page) else Err(Unavailable)
    {
      hide IsAnswer, J.IsExpiredPage, ArtifactsOf;
      var found := SelectPage(now, limit);
      page := found;
      PageIsAnswer(now, J.PageSize(limit), page);
      if !fate(0).Success? {
        return Err(Unavailable), page;
      }
      var jobs: seq<J.Snapshot> := [];
      for i := 0 to |found|
        invariant jobs == found[..i] && Succeed(fate, 1 + i)
      {
        var arts := FetchArtifacts(found[i].id, fate(1 + i));
        if arts.Err? {
          return Err(Unavailable), page;
        }
        PageHas(Jobs(), now, J.PageSize(limit), found, i);
        jobs := jobs + [J.Snapshot(found[i].id, found[i].row, arts.value)];
        assert found[..i + 1] == found[..i] + [found[i]];
      }
      assert found[..|found|] == found;
      return Ok(jobs), page;
    }

    /** Answers the page query by selecting the earliest remaining job again and again; what it says of
        artifacts is for the specification only. */
    method SelectPage(now: Time, limit: int) returns (page: seq<J.Snapshot>)
      ensures J.IsExpiredPage(Jobs(), now, J.PageSize(limit), page)
    {
      var size := if limit <= 0 then 100 else limit;
      var left := set id | id in rows && rows[id].job.expiresAt <= now;
      page := [];
      PageStarts(Jobs(), now, size, left);
      hide IsStartOfPage, J.IsExpiredPage;
      while left != {} && |page| < size
        invariant |page| <= size && IsStartOfPage(Jobs(), now, size, page, left)
        decreases left
      {
        LeftHaveRows(Jobs(), now, size, page, left);
        var first := Earliest(left);
        PageGrows(Jobs(), now, size, page, left, first);
        page := page + [J.Snapshot(first, rows[first], ArtifactsOf(artifacts, first))];
        left := left - {first};
      }
      PageDone(Jobs(), now, size, page, left);
    }

    method Earliest(ids: set<JobId>) returns (first: JobId)
      requires ids != {} && forall id :: id in ids ==> id in rows
      ensures first in ids && forall id :: id in ids ==> rows[first].job.expiresAt <= rows[id].job.expiresAt
    {
      first :| first in ids;
      var left := ids - {first};
      while left != {}
        invariant first in ids && left <= ids
        invariant forall id :: id in ids && id !in left ==> rows[first].job.expiresAt <= rows[id].job.expiresAt
        decreases left
      {
        var id :| id in left;
        if rows[id].job.expiresAt < rows[first].job.expiresAt {
          first := id;
        }
        left := left - {id};
      }
    }
  }

  /** The subjects of the bus that concern jobs. */
  class EventBus {
    var subjects: map<JobId, seq<StatusEvent>>
    var reports: map<JobId, seq<StatusEvent>>
    var created: multiset<JobId>

    ghost function LogOf(id: JobId): seq<StatusEvent>
      reads this
    {
      if id in subjects then subjects[id] else []
    }

    ghost function ReportsOf(id: JobId): seq<StatusEvent>
      reads this
    {
      if id in reports then reports[id] else []
    }

    constructor ()
      ensures subjects == map[] && reports == map[] && created == multiset{}
    {
      subjects, reports, created := map[], map[], multiset{};
    }

    /** Publish on jobs.status.<id>. */
    method PublishStatus(id: JobId, e: StatusEvent, c: Choice) returns (ok: bool)
      modifies this
      ensures ok == c.Success? && created == old(created)
      ensures forall any :: ReportsOf(any) == old(ReportsOf(any))
      ensures LogOf(id) == if ok then old(LogOf(id)) + [e] else old(LogOf(id))
      ensures forall other :: other != id ==> LogOf(other) == old(LogOf(other))
    {
      ok := c.Success?;
      if ok {
        var so_far := if id in subjects then subjects[id] else [];
        subjects := subjects[id := so_far + [e]];
      }
    }

    /** Publish on jobs.completed or jobs.failed. */
    method PublishReport(id: JobId, e: StatusEvent, c: Choice) returns (ok: bool)
      modifies this
      ensures ok == c.Success? && created == old(created)
      ensures forall any :: LogOf(any) == old(LogOf(any))
      ensures ReportsOf(id) == if ok then old(ReportsOf(id)) + [e] else old(ReportsOf(id))
      ensures forall other :: other != id ==> ReportsOf(other) == old(ReportsOf(other))
    {
      ok := c.Success?;
      if ok {
        var so_far := if id in reports then reports[id] else [];
        reports := reports[id := so_far + [e]];
      }
    }

    /** Publish on jobs.created. */
    method PublishCreated(id: JobId, c: Choice) returns (ok: bool)
      modifies this
      ensures ok == c.Success? && subjects == old(subjects) && reports == old(reports)
      ensures created == if ok then old(created) + multiset{id} else old(created)
    {
      ok := c.Success?;
      if ok {
        created := created + multiset{id};
      }
    }
  }

  /** The file store as the services see it: a set of stored paths. */
  class FileStore {
    var files: set<Path>

    constructor ()
      ensures files == {}
    {
      files := {};
    }

    method Save(p: Path, c: Choice) returns (ok: bool)
      modifies this
      ensures ok == c.Success? && files == if ok then old(files) + {p} else old(files)
    {
      ok := c.Success?;
      if ok {
        files := files + {p};
      }
    }

    method Open(p: Path, c: Choice) returns (ok: bool)
      ensures ok == (c.Success? && p in files)
    {
      ok := c.Success? && p in files;
    }

    method Delete(p: Path, c: Choice) returns (ok: bool)
      modifies this
      ensures ok == c.Success? && files == if ok then old(files) - {p} else old(files)
    {
      ok := c.Success?;
      if ok {
        files := files - {p};
      }
    }
  }

  /** What the tables and the bus hold for a job. */
  ghost function RecordAt(repo: JobRepository, bus: EventBus, id: JobId): Record
    reads repo, bus
  {
    Record(repo.RowOf(id), ArtifactsOf(repo.artifacts, id), bus.LogOf(id), bus.ReportsOf(id))
  }

  /** Every other job keeps its row, its artifacts and its events. */
  twostate predicate OthersKept(repo: JobRepository, bus: EventBus, id: JobId)
    reads repo, bus
  {
    forall other :: other != id ==> RecordAt(repo, bus, other) == old(RecordAt(repo, bus, other))
  }
}
