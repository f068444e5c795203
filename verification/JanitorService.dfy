/** internal/core/janitor.go over the ports: what a sweep removes, exactly, and how many sweeps empty the
    expired backlog. */
module Janitor {
  import opened Prelude
  import opened Domain
  import opened Ports
  import opened Adapters
  import opened Protocol
  import opened SoloRuns
  import Pages
  import J = JanitorSteps

  // ---- the specification ----

  /** The files that are gone after trying to delete `files` in order, the first call ending as fate(k). */
  function Unlinked(files: seq<Path>, fate: Fates, k: nat): set<Path> {
    set i | 0 <= i < |files| && fate(k + i).Success? :: files[i]
  }

  /** The jobs whose row a sweep over `todo` deletes: those whose DeleteJob does not fail. */
  function GoneIds(todo: seq<J.Snapshot>, fate: Fates, k: nat): set<JobId>
    decreases |todo|
  {
    if todo == [] then {}
    else
      var n := |todo[0].Files()|;
      (if fate(k + n).Success? then {todo[0].id} else {}) + GoneIds(todo[1..], fate, k + n + 1)
  }

  /** The files such a sweep deletes: those of every listed job whose Delete does not fail. */
  function GoneFiles(todo: seq<J.Snapshot>, fate: Fates, k: nat): set<Path>
    decreases |todo|
  {
    if todo == [] then {}
    else
      var n := |todo[0].Files()|;
      Unlinked(todo[0].Files(), fate, k) + GoneFiles(todo[1..], fate, k + n + 1)
  }

  /** The call that deletes the source of item `i`, if the sweep's first call is `k`: each item takes one call for its
      source, one for each artifact and one for its row. */
  function FirstCall(todo: seq<J.Snapshot>, k: nat, i: nat): nat
    requires i < |todo|
  {
    if i == 0 then k else FirstCall(todo[1..], k + |todo[0].arts| + 2, i - 1)
  }

  /** The call for the row of item `i` succeeds, and the item is job `id`. */
  predicate DropsRow(todo: seq<J.Snapshot>, fate: Fates, k: nat, i: nat, id: JobId) {
    i < |todo| && todo[i].id == id && fate(FirstCall(todo, k, i) + 1 + |todo[i].arts|) == Success
  }

  /** A call for a file of the listed job succeeds, the first of them being call `first`, and the file is `x`. */
  predicate Clears(snap: J.Snapshot, fate: Fates, first: nat, x: Path) {
    || (x == snap.row.job.FilePath() && fate(first) == Success)
    || exists j :: 0 <= j < |snap.arts| && x == snap.arts[j].path && fate(first + 1 + j) == Success
  }

  predicate DropsFile(todo: seq<J.Snapshot>, fate: Fates, k: nat, i: nat, x: Path) {
    i < |todo| && Clears(todo[i], fate, FirstCall(todo, k, i), x)
  }

  ghost predicate RowGoes(todo: seq<J.Snapshot>, fate: Fates, k: nat, id: JobId) {
    exists i: nat :: DropsRow(todo, fate, k, i, id)
  }

  ghost predicate FileGoes(todo: seq<J.Snapshot>, fate: Fates, k: nat, x: Path) {
    exists i: nat :: DropsFile(todo, fate, k, i, x)
  }

  lemma FilesAre(snap: J.Snapshot)
    ensures var files := snap.Files();
            && |files| == 1 + |snap.arts| && files[0] == snap.row.job.FilePath()
            && forall j :: 0 <= j < |snap.arts| ==> files[1 + j] == snap.arts[j].path
  {
  }

  lemma UnlinkedClears(snap: J.Snapshot, fate: Fates, k: nat, x: Path)
    requires x in Unlinked(snap.Files(), fate, k)
    ensures Clears(snap, fate, k, x)
  {
    var files := snap.Files();
    FilesAre(snap);
    var i :| 0 <= i < |files| && fate(k + i).Success? && files[i] == x;
    if i > 0 {
      assert files[1 + (i - 1)] == snap.arts[i - 1].path && fate(k + 1 + (i - 1)) == Success;
    }
  }

  lemma ClearsUnlinked(snap: J.Snapshot, fate: Fates, k: nat, x: Path)
    requires Clears(snap, fate, k, x)
    ensures x in Unlinked(snap.Files(), fate, k)
  {
    var files := snap.Files();
    FilesAre(snap);
    if x == snap.row.job.FilePath() && fate(k) == Success {
      assert fate(k + 0).Success? && files[0] == x;
    } else {
      var j :| 0 <= j < |snap.arts| && x == snap.arts[j].path && fate(k + 1 + j) == Success;
      assert fate(k + (1 + j)).Success? && files[1 + j] == x;
    }
  }

  /** GoneIds and GoneFiles, call by call. */
  lemma {:induction false} GoneExactly(todo: seq<J.Snapshot>, fate: Fates, k: nat)
    ensures forall id :: id in GoneIds(todo, fate, k) <==> RowGoes(todo, fate, k, id)
    ensures forall x :: x in GoneFiles(todo, fate, k) <==> FileGoes(todo, fate, k, x)
    decreases |todo|
  {
    if todo != [] {
      var tail, k' := todo[1..], k + |todo[0].arts| + 2;
      GoneExactly(tail, fate, k');
      GoneHead(todo, fate, k);
      hide GoneIds, GoneFiles, Unlinked;
      forall i | 0 < i < |todo|
        ensures FirstCall(todo, k, i) == FirstCall(tail, k', i - 1) && todo[i] == tail[i - 1]
      {
      }
      forall id
        ensures id in GoneIds(todo, fate, k) <==> RowGoes(todo, fate, k, id)
      {
        RowShift(todo, fate, k, id);
      }
      forall x
        ensures x in GoneFiles(todo, fate, k) <==> FileGoes(todo, fate, k, x)
      {
        if x in Unlinked(todo[0].Files(), fate, k) {
          UnlinkedClears(todo[0], fate, k, x);
        }
        if Clears(todo[0], fate, k, x) {
          ClearsUnlinked(todo[0], fate, k, x);
        }
        FileShift(todo, fate, k, x);
      }
    } else {
      GoneNone(fate, k);
    }
  }

  lemma RowShift(todo: seq<J.Snapshot>, fate: Fates, k: nat, id: JobId)
    requires todo != []
    ensures RowGoes(todo, fate, k, id) <==>
              || (todo[0].id == id && fate(k + 1 + |todo[0].arts|) == Success)
              || RowGoes(todo[1..], fate, k + |todo[0].arts| + 2, id)
  {
    var tail, k' := todo[1..], k + |todo[0].arts| + 2;
    if i: nat :| DropsRow(todo, fate, k, i, id) {
      assert i > 0 ==> DropsRow(tail, fate, k', i - 1, id);
    }
    if i: nat :| DropsRow(tail, fate, k', i, id) {
      assert DropsRow(todo, fate, k, i + 1, id);
    }
    if todo[0].id == id && fate(k + 1 + |todo[0].arts|) == Success {
      assert DropsRow(todo, fate, k, 0, id);
    }
  }

  lemma FileShift(todo: seq<J.Snapshot>, fate: Fates, k: nat, x: Path)
    requires todo != []
    ensures FileGoes(todo, fate, k, x) <==>
              Clears(todo[0], fate, k, x)
              || FileGoes(todo[1..], fate, k + |todo[0].arts| + 2, x)
  {
    var tail, k' := todo[1..], k + |todo[0].arts| + 2;
    if i: nat :| DropsFile(todo, fate, k, i, x) {
      if i > 0 {
        assert DropsFile(tail, fate, k', i - 1, x);
      }
    }
    if i: nat :| DropsFile(tail, fate, k', i, x) {
      assert DropsFile(todo, fate, k, i + 1, x);
    }
    if Clears(todo[0], fate, k, x) {
      assert DropsFile(todo, fate, k, 0, x);
    }
  }

  ghost predicate Distinct(todo: seq<J.Snapshot>) {
    forall i, j :: 0 <= i < j < |todo| ==> todo[i].id != todo[j].id
  }

  lemma {:induction false} GoneAreListed(todo: seq<J.Snapshot>, fate: Fates, k: nat)
    ensures forall id :: id in GoneIds(todo, fate, k) ==> J.Listed(todo, id)
    decreases |todo|
  {
    if todo != [] {
      var n := |todo[0].Files()|;
      GoneAreListed(todo[1..], fate, k + n + 1);
      forall id | id in GoneIds(todo, fate, k)
        ensures J.Listed(todo, id)
      {
        if id != todo[0].id {
          assert J.Listed(todo[1..], id);
          var i :| 0 <= i < |todo[1..]| && todo[1..][i].id == id;
          assert todo[i + 1].id == id;
        }
      }
    }
  }

  // ---- the service ----

  class JanitorService {
    const repo: JobRepository
    const store: FileStore

    constructor (repo: JobRepository, store: FileStore)
      ensures this.repo == repo && this.store == store
    {
      this.repo, this.store := repo, store;
    }

    /** Deletes the files of one listed job; a failing delete is logged and the loop goes on. */
    method Clear(snap: J.Snapshot, fate: Fates, k: nat)
      modifies store
      ensures store.files == old(store.files) - Unlinked(snap.Files(), fate, k)
    {
      hide Unlinked;
      ghost var files := snap.Files();
      UnlinkedPrefix(files, 0, fate, k);
      var ok := store.Delete(snap.row.job.FilePath(), fate(k));
      for i := 0 to |snap.arts|
        invariant store.files == old(store.files) - Unlinked(files[..i + 1], fate, k)
      {
        UnlinkedPrefix(files, i + 1, fate, k);
        ok := store.Delete(snap.arts[i].path, fate(k + 1 + i));
      }
      assert files[..|files|] == files;
    }

    /** The page is what the listing answers; if one of its queries fails nothing changes. Otherwise each row on the
        page goes exactly if the call that deletes it succeeds, and each file of a listed job exactly if a call that
        deletes it does. A row that is not due keeps its place, and so do its artifacts. */
    method PruneExpired(limit: int, now: Time, fate: Fates)
      returns (count: nat, err: Option<RepoError>, ghost page: seq<J.Snapshot>)
      requires repo.Valid()
      modifies repo, store
      ensures repo.Valid()
      ensures old(repo.IsAnswer(now, if limit <= 0 then 100 else limit, page))
      ensures err.None? <==> forall i :: 0 <= i <= |page| ==> fate(i) == Success
      ensures err.None? ==>
                && (forall id :: id in repo.rows <==>
                                 id in old(repo.rows) && !RowGoes(page, fate, 1 + |page|, id))
                && (forall x :: x in store.files <==>
                                x in old(store.files) && !FileGoes(page, fate, 1 + |page|, x))
      ensures forall id :: id in repo.rows ==>
                             && id in old(repo.rows) && repo.rows[id] == old(repo.rows)[id]
                             && ArtifactsOf(repo.artifacts, id) == old(ArtifactsOf(repo.artifacts, id))
      ensures forall id :: id in old(repo.rows) && old(repo.rows)[id].job.expiresAt > now ==> id in repo.rows
      ensures J.IsExpiredPage(old(repo.Jobs()), now, J.PageSize(limit), page)
      ensures err.None? <==> Succeed(fate, 1 + |page|)
      ensures err.Some? ==> count == 0 && repo.rows == old(repo.rows) && store.files == old(store.files)
                            && repo.artifacts == old(repo.artifacts)
      ensures err.None? ==>
                && repo.rows == old(repo.rows) - GoneIds(page, fate, 1 + |page|)
                && store.files == old(store.files) - GoneFiles(page, fate, 1 + |page|)
                && count == |GoneIds(page, fate, 1 + |page|)| == |old(repo.rows)| - |repo.rows|
                && (forall id :: ArtifactsOf(repo.artifacts, id) ==
                                 if id in GoneIds(page, fate, 1 + |page|) then []
                                 else old(ArtifactsOf(repo.artifacts, id)))
    {
      hide GoneIds, GoneFiles, RowGoes, FileGoes, J.IsExpiredPage, ArtifactsOf, JobRepository.IsAnswer;
      hide JobRepository.Jobs, Distinct;
      var bound := limit;
      if bound <= 0 {
        bound := 100;
      }
      var listed;
      listed, page := repo.ListExpiredJobs(now, bound, fate);
      if listed.Err? {
        return 0, Some(listed.error), page;
      }
      err := None;
      Pruned(repo, store.files, now, J.PageSize(limit), page, fate);
      count := Sweep(listed.value, fate, 1 + |listed.value|);
    }

    /** Sweeps one after the other at a fixed time, none of their calls failing and no job arriving: n expired
        jobs become max(0, n - m * limit), so none is left after ceil(n / limit) sweeps. */
    method PruneRepeatedly(limit: int, now: Time, m: nat)
      requires repo.Valid()
      modifies repo, store
      ensures repo.Valid()
      ensures var rows, rows' := old(repo.rows), repo.rows;
              var n := |set id | id in rows && rows[id].job.expiresAt <= now|;
              var size := if limit <= 0 then 100 else limit;
              |set id | id in rows' && rows'[id].job.expiresAt <= now| == if n <= m * size then 0 else n - m * size
    {
      hide *;
      BacklogIs(repo, now);
      ghost var n, size := |Backlog(repo.Jobs(), now)|, J.PageSize(limit);
      for i := 0 to m
        invariant repo.Valid()
        invariant |Backlog(repo.Jobs(), now)| == if n <= i * size then 0 else n - i * size
      {
        ghost var before := repo.Jobs();
        ghost var page := PruneCleanly(limit, now);
        OneSweep(before, now, size, page);
        assert (i + 1) * size == i * size + size;
      }
      BacklogIs(repo, now);
      PageSizeIs(limit);
    }

    /** One such sweep takes exactly its page off the tables. */
    method PruneCleanly(limit: int, now: Time) returns (ghost page: seq<J.Snapshot>)
      requires repo.Valid()
      modifies repo, store
      ensures repo.Valid() && J.IsExpiredPage(old(repo.Jobs()), now, J.PageSize(limit), page)
      ensures repo.Jobs() == old(repo.Jobs()) - PageIds(page)
    {
      hide PageIds, GoneIds, GoneFiles, RowGoes, FileGoes, J.IsExpiredPage, ArtifactsOf, JobRepository.IsAnswer;
      var count, err;
      count, err, page := PruneExpired(limit, now, ALWAYS);
      GoneIsPage(page, ALWAYS, 1 + |page|);
    }

    /** One iteration of the loop: the job's files, then its row, which takes its artifacts along. */
    method PruneOne(snap: J.Snapshot, fate: Fates, k: nat) returns (deleted: bool)
      requires repo.Valid()
      modifies repo, store
      ensures repo.Valid() && deleted == fate(k + |snap.Files()|).Success?
      ensures store.files == old(store.files) - Unlinked(snap.Files(), fate, k)
      ensures repo.rows == if deleted then old(repo.rows) - {snap.id} else old(repo.rows)
      ensures forall id :: ArtifactsOf(repo.artifacts, id) ==
                           if deleted && id == snap.id then [] else old(ArtifactsOf(repo.artifacts, id))
    {
      hide Unlinked;
      Clear(snap, fate, k);
      forall other {
        ArtifactsWithout(repo.artifacts, snap.id, other);
      }
      var err := repo.DeleteJob(snap.id, fate(k + |snap.Files()|));
      deleted := err.None?;
    }

    method Sweep(todo: seq<J.Snapshot>, fate: Fates, start: nat) returns (count: nat)
      requires repo.Valid() && Distinct(todo)
      modifies repo, store
      ensures repo.Valid()
      ensures repo.rows == old(repo.rows) - GoneIds(todo, fate, start)
      ensures store.files == old(store.files) - GoneFiles(todo, fate, start)
      ensures count == |GoneIds(todo, fate, start)|
      ensures forall id :: ArtifactsOf(repo.artifacts, id) ==
                           if id in GoneIds(todo, fate, start) then [] else old(ArtifactsOf(repo.artifacts, id))
    {
      hide *;
      count := 0;
      var k: nat := start;
      ghost var ids: set<JobId>, files: set<Path> := {}, {};
      SweptNone(todo, fate, start);
      for i := 0 to |todo|
        invariant repo.Valid()
        invariant Swept(todo, fate, start, i, k, ids, files, count)
        invariant repo.rows == old(repo.rows) - ids && store.files == old(store.files) - files
        invariant forall id ::
                    ArtifactsOf(repo.artifacts, id) == if id in ids then [] else old(ArtifactsOf(repo.artifacts, id))
      {
        SweptOne(todo, fate, start, i, k, ids, files, count);
        var deleted := PruneOne(todo[i], fate, k);
        files := files + Unlinked(todo[i].Files(), fate, k);
        k := k + |todo[i].Files()| + 1;
        if !deleted {
          continue;
        }
        ids := ids + {todo[i].id};
        count := count + 1;
      }
      SweptAll(todo, fate, start, k, ids, files, count);
    }
  }

  /** From call `start` on, after `i` items and with call `k` next, `ids` and `files` are gone and `count` rows
      were deleted. */
  ghost predicate Swept(todo: seq<J.Snapshot>, fate: Fates, start: nat, i: nat, k: nat, ids: set<JobId>,
                        files: set<Path>, count: nat) {
    && i <= |todo|
    && GoneIds(todo, fate, start) == ids + GoneIds(todo[i..], fate, k)
    && GoneFiles(todo, fate, start) == files + GoneFiles(todo[i..], fate, k)
    && count == |ids| && forall id :: id in ids ==> J.Listed(todo[..i], id)
  }

  lemma SweptNone(todo: seq<J.Snapshot>, fate: Fates, start: nat)
    ensures Swept(todo, fate, start, 0, start, {}, {}, 0)
  {
    hide GoneIds, GoneFiles;
    assert todo[0..] == todo;
  }

  lemma SweptOne(todo: seq<J.Snapshot>, fate: Fates, start: nat, i: nat, k: nat, ids: set<JobId>, files: set<Path>,
                 count: nat)
    requires Swept(todo, fate, start, i, k, ids, files, count) && Distinct(todo) && i < |todo|
    ensures var n := |todo[i].Files()|;
            var files' := files + Unlinked(todo[i].Files(), fate, k);
            if fate(k + n).Success?
            then Swept(todo, fate, start, i + 1, k + n + 1, ids + {todo[i].id}, files', count + 1)
            else Swept(todo, fate, start, i + 1, k + n + 1, ids, files', count)
  {
    hide GoneIds, GoneFiles, Unlinked, Distinct, J.Listed;
    var n, unlinked := |todo[i].Files()|, Unlinked(todo[i].Files(), fate, k);
    var id := if fate(k + n).Success? then {todo[i].id} else {};
    assert todo[i..][0] == todo[i] && todo[i..][1..] == todo[i + 1..];
    GoneHead(todo[i..], fate, k);
    Regroup(GoneIds(todo, fate, start), ids, GoneIds(todo[i..], fate, k), id, GoneIds(todo[i + 1..], fate, k + n + 1));
    Regroup(GoneFiles(todo, fate, start), files, GoneFiles(todo[i..], fate, k), unlinked,
            GoneFiles(todo[i + 1..], fate, k + n + 1));
    assert todo[..i + 1] == todo[..i] + [todo[i]];
    Pages.ListedAppend(todo[..i], todo[i]);
    NotYetListed(todo, i);
    assert ids + {} == ids;
  }

  lemma Regroup<T>(all: set<T>, done: set<T>, rest: set<T>, first: set<T>, others: set<T>)
    requires all == done + rest && rest == first + others
    ensures all == done + first + others
  {
  }

  lemma SweptAll(todo: seq<J.Snapshot>, fate: Fates, start: nat, k: nat, ids: set<JobId>, files: set<Path>, count: nat)
    requires Swept(todo, fate, start, |todo|, k, ids, files, count)
    ensures GoneIds(todo, fate, start) == ids && GoneFiles(todo, fate, start) == files && count == |ids|
  {
    GoneNone(fate, k);
  }

  lemma GoneHead(todo: seq<J.Snapshot>, fate: Fates, k: nat)
    requires todo != []
    ensures var n := |todo[0].Files()|;
            && GoneIds(todo, fate, k) ==
               (if fate(k + n).Success? then {todo[0].id} else {}) + GoneIds(todo[1..], fate, k + n + 1)
            && GoneFiles(todo, fate, k) == Unlinked(todo[0].Files(), fate, k) + GoneFiles(todo[1..], fate, k + n + 1)
  {
  }

  lemma GoneNone(fate: Fates, k: nat)
    ensures GoneIds([], fate, k) == {} && GoneFiles([], fate, k) == {}
  {
  }

  lemma NotYetListed(todo: seq<J.Snapshot>, i: nat)
    requires Distinct(todo) && i < |todo|
    ensures !J.Listed(todo[..i], todo[i].id)
  {
  }

  lemma GoneAreDue(rows: map<JobId, Row>, jobs: J.Jobs, now: Time, size: nat, page: seq<J.Snapshot>, fate: Fates,
                   k: nat)
    requires J.IsExpiredPage(jobs, now, size, page)
    requires jobs.Keys == rows.Keys && forall id :: id in jobs ==> jobs[id].row == Some(rows[id])
    ensures forall id :: id in GoneIds(page, fate, k) ==> id in rows && rows[id].job.expiresAt <= now
  {
    GoneAreListed(page, fate, k);
    PageListed(jobs, now, size, page);
  }

  lemma Pruned(repo: JobRepository, files: set<Path>, now: Time, size: nat, page: seq<J.Snapshot>, fate: Fates)
    requires J.IsExpiredPage(repo.Jobs(), now, size, page)
    ensures Distinct(page)
    ensures forall id :: id in repo.rows - GoneIds(page, fate, 1 + |page|) <==>
                           id in repo.rows && !RowGoes(page, fate, 1 + |page|, id)
    ensures forall x :: x in files - GoneFiles(page, fate, 1 + |page|) <==>
                          x in files && !FileGoes(page, fate, 1 + |page|, x)
    ensures forall id :: id in GoneIds(page, fate, 1 + |page|) ==>
                           id in repo.rows && repo.rows[id].job.expiresAt <= now
    ensures |repo.rows - GoneIds(page, fate, 1 + |page|)| == |repo.rows| - |GoneIds(page, fate, 1 + |page|)|
  {
    hide GoneIds, GoneFiles, RowGoes, FileGoes, J.IsExpiredPage;
    var gone := GoneIds(page, fate, 1 + |page|);
    PageListed(repo.Jobs(), now, size, page);
    GoneExactly(page, fate, 1 + |page|);
    GoneAreDue(repo.rows, repo.Jobs(), now, size, page, fate, 1 + |page|);
    assert (repo.rows - gone).Keys == repo.rows.Keys - gone;
  }

  lemma PageListed(jobs: J.Jobs, now: Time, size: nat, page: seq<J.Snapshot>)
    requires J.IsExpiredPage(jobs, now, size, page)
    ensures Distinct(page) && forall id :: J.Listed(page, id) ==> J.Expired(jobs, now, id)
  {
  }

  lemma UnlinkedPrefix(files: seq<Path>, i: nat, fate: Fates, k: nat)
    requires i < |files|
    ensures Unlinked(files[..i + 1], fate, k) ==
            Unlinked(files[..i], fate, k) + if fate(k + i).Success? then {files[i]} else {}
    ensures i == 0 ==> Unlinked(files[..i], fate, k) == {}
  {
    assert files[..i + 1] == files[..i] + [files[i]];
    UnlinkedAppend(files[..i], files[i], fate, k);
  }

  lemma UnlinkedAppend(files: seq<Path>, x: Path, fate: Fates, k: nat)
    ensures Unlinked(files + [x], fate, k) == Unlinked(files, fate, k) + if fate(k + |files|).Success? then {x} else {}
  {
    var all := files + [x];
    forall p | p in Unlinked(files, fate, k)
      ensures p in Unlinked(all, fate, k)
    {
      var i :| 0 <= i < |files| && fate(k + i).Success? && files[i] == p;
      assert all[i] == p;
    }
    if fate(k + |files|).Success? {
      assert all[|files|] == x;
    }
  }

  // ---- draining the backlog ----

  function Backlog(jobs: J.Jobs, now: Time): set<JobId> {
    set id | id in jobs && J.Expired(jobs, now, id)
  }

  lemma PageSizeIs(limit: int)
    ensures J.PageSize(limit) == if limit <= 0 then 100 else limit
  {
  }

  /** The jobs that are due. */
  lemma BacklogIs(repo: JobRepository, now: Time)
    ensures Backlog(repo.Jobs(), now) == set id | id in repo.rows && repo.rows[id].job.expiresAt <= now
  {
  }

  function PageIds(page: seq<J.Snapshot>): set<JobId> {
    set i | 0 <= i < |page| :: page[i].id
  }

  /** If nothing fails a sweep deletes the whole page. */
  lemma {:induction false} GoneIsPage(page: seq<J.Snapshot>, fate: Fates, k: nat)
    requires forall i :: fate(i) == Success
    ensures GoneIds(page, fate, k) == PageIds(page)
    decreases |page|
  {
    if page != [] {
      GoneIsPage(page[1..], fate, k + |page[0].Files()| + 1);
      assert PageIds(page) == {page[0].id} + PageIds(page[1..]) by {
        forall id | id in PageIds(page)
          ensures id in {page[0].id} + PageIds(page[1..])
        {
          var i :| 0 <= i < |page| && page[i].id == id;
          assert i > 0 ==> page[1..][i - 1].id == id;
        }
        forall id | id in PageIds(page[1..])
          ensures id in PageIds(page)
        {
          var i :| 0 <= i < |page[1..]| && page[1..][i].id == id;
          assert page[i + 1].id == id;
        }
      }
    }
  }

  lemma {:induction false} PageCount(page: seq<J.Snapshot>)
    requires Distinct(page)
    ensures |PageIds(page)| == |page|
    decreases |page|
  {
    if page != [] {
      var init, last := page[..|page| - 1], page[|page| - 1];
      PageCount(init);
      assert last.id !in PageIds(init);
      assert PageIds(page) == PageIds(init) + {last.id} by {
        forall id | id in PageIds(page)
          ensures id in PageIds(init) + {last.id}
        {
          var i :| 0 <= i < |page| && page[i].id == id;
          assert i < |page| - 1 ==> init[i].id == id;
        }
        assert forall i :: 0 <= i < |init| ==> init[i].id == page[i].id;
      }
    }
  }

  /** A sweep in which nothing fails takes `size` jobs off the backlog, or all of it. */
  lemma OneSweep(jobs: J.Jobs, now: Time, size: nat, page: seq<J.Snapshot>)
    requires J.IsExpiredPage(jobs, now, size, page)
    ensures var n := |Backlog(jobs, now)|;
            |Backlog(jobs - PageIds(page), now)| == if n <= size then 0 else n - size
  {
    PageListed(jobs, now, size, page);
    PageCount(page);
    assert forall i :: 0 <= i < |page| ==> J.Listed(page, page[i].id);
    assert PageIds(page) <= Backlog(jobs, now);
    assert Backlog(jobs - PageIds(page), now) == Backlog(jobs, now) - PageIds(page);
    if |page| < size {
      assert forall id :: id in Backlog(jobs, now) ==> J.Listed(page, id);
      assert Backlog(jobs, now) <= PageIds(page);
    }
  }

  // ---- the sweep as a run of the protocol ----

  function Deletions(todo: seq<J.Snapshot>, fate: Fates, k: nat): nat
    decreases |todo|
  {
    if todo == [] then 0
    else
      var n := |todo[0].Files()|;
      (if fate(k + n).Success? then 1 else 0) + Deletions(todo[1..], fate, k + n + 1)
  }

  function WithoutRows(jobs: J.Jobs, ids: set<JobId>): J.Jobs {
    map id | id in jobs :: if id in ids then DeleteJob(jobs[id]) else jobs[id]
  }

  /** The calls on the files of the current item, from the one at `at`. */
  lemma {:induction false} ClearIsProtocolRun(s: State, j: nat, todo: seq<J.Snapshot>, at: nat, pruned: nat,
                                              fate: Fates, k: nat)
    returns (steps: seq<Step>, s': State)
    requires j in s.sweeps && todo != [] && todo[0].id in s.jobs && at < |todo[0].Files()|
    requires s.sweeps[j] == J.Clearing(todo, at, pruned)
    ensures Leads(s, steps, s') && |steps| == |todo[0].Files()| - at
    ensures steps == Script(BySweep(j), fate, k, |steps|)
    ensures s' == s.(files := s.files - Unlinked(todo[0].Files()[at..], fate, k),
                     sweeps := s.sweeps[j := J.Dropping(todo, pruned)])
    decreases |todo[0].Files()| - at
  {
    hide Enabled, Next, Unlinked, Script;
    var files := todo[0].Files();
    var step := SweepCall(j, fate(k));
    var deleted := if fate(k).Success? then {files[at]} else {};
    var sweep' := if at + 1 < |files| then J.Clearing(todo, at + 1, pruned) else J.Dropping(todo, pruned);
    var next := ClearStep(s, j, todo, at, pruned, fate(k), deleted, sweep');
    UnlinkedHead(files, at, fate, k);
    var rest;
    if at + 1 < |files| {
      rest, s' := ClearIsProtocolRun(next, j, todo, at + 1, pruned, fate, k + 1);
      assert s.sweeps[j := sweep'][j := J.Dropping(todo, pruned)] == s.sweeps[j := J.Dropping(todo, pruned)];
    } else {
      rest, s' := [], next;
      UnlinkedNone(fate, k + 1);
      ScriptNone(BySweep(j), fate, k + 1);
      assert files[at + 1..] == [];
    }
    ScriptCons(BySweep(j), fate, k, |rest|);
    assert s.files - deleted - Unlinked(files[at + 1..], fate, k + 1) == s.files - Unlinked(files[at..], fate, k);
    Prepend(s, step, rest, s');
    steps := [step] + rest;
  }

  lemma ClearStep(s: State, j: nat, todo: seq<J.Snapshot>, at: nat, pruned: nat, c: Choice,
                  deleted: set<Path>, sweep': J.Sweep)
    returns (next: State)
    requires j in s.sweeps && todo != [] && todo[0].id in s.jobs && at < |todo[0].Files()|
    requires s.sweeps[j] == J.Clearing(todo, at, pruned)
    requires deleted == if c.Success? then {todo[0].Files()[at]} else {}
    requires sweep' == if at + 1 < |todo[0].Files()| then J.Clearing(todo, at + 1, pruned) else J.Dropping(todo, pruned)
    ensures Enabled(s, SweepCall(j, c)) && next == Next(s, SweepCall(j, c))
    ensures next == s.(files := s.files - deleted, sweeps := s.sweeps[j := sweep'])
  {
    next := Next(s, SweepCall(j, c));
    assert s.jobs[todo[0].id := s.jobs[todo[0].id]] == s.jobs;
  }

  lemma UnlinkedNone(fate: Fates, k: nat)
    ensures Unlinked([], fate, k) == {}
  {
  }

  lemma UnlinkedHead(files: seq<Path>, at: nat, fate: Fates, k: nat)
    requires at < |files|
    ensures Unlinked(files[at..], fate, k) ==
            (if fate(k).Success? then {files[at]} else {}) + Unlinked(files[at + 1..], fate, k + 1)
  {
    var all, rest := files[at..], files[at + 1..];
    forall p | p in Unlinked(all, fate, k)
      ensures p in (if fate(k).Success? then {files[at]} else {}) + Unlinked(rest, fate, k + 1)
    {
      var i :| 0 <= i < |all| && fate(k + i).Success? && all[i] == p;
      if i > 0 {
        assert rest[i - 1] == p && fate(k + 1 + (i - 1)).Success?;
      }
    }
    forall p | p in Unlinked(rest, fate, k + 1)
      ensures p in Unlinked(all, fate, k)
    {
      var i :| 0 <= i < |rest| && fate(k + 1 + i).Success? && rest[i] == p;
      assert all[i + 1] == p && fate(k + (i + 1)).Success?;
    }
    if fate(k).Success? {
      assert all[0] == files[at] && fate(k + 0).Success?;
    }
  }

  lemma DropStep(s: State, j: nat, todo: seq<J.Snapshot>, pruned: nat, c: Choice,
                 gone: set<JobId>) returns (next: State)
    requires j in s.sweeps && todo != [] && todo[0].id in s.jobs && s.sweeps[j] == J.Dropping(todo, pruned)
    requires gone == if c.Success? then {todo[0].id} else {}
    ensures Enabled(s, SweepCall(j, c)) && next == Next(s, SweepCall(j, c))
    ensures next == s.(jobs := WithoutRows(s.jobs, gone),
                       sweeps := s.sweeps[j := J.NextItem(todo[1..], if c.Success? then pruned + 1 else pruned)])
  {
    next := Next(s, SweepCall(j, c));
    assert WithoutRows(s.jobs, gone) == s.jobs[todo[0].id := J.Dropped(s.jobs[todo[0].id], s.sweeps[j], c)];
    assert s.files - {} == s.files;
  }

  lemma WithoutBoth(jobs: J.Jobs, a: set<JobId>, b: set<JobId>)
    ensures WithoutRows(WithoutRows(jobs, a), b) == WithoutRows(jobs, a + b)
  {
  }

  /** The page with the artifacts of its first `n` jobs. */
  function Fetched(page: seq<J.Snapshot>, n: nat): (r: seq<J.Snapshot>)
    requires n <= |page|
    ensures |r| == |page|
  {
    page[..n] + J.Bare(page[n..])
  }

  lemma {:induction false} FetchesAreProtocolRun(s: State, j: nat, page: seq<J.Snapshot>,
                                                 n: nat) returns (steps: seq<Step>, s': State)
    requires j in s.sweeps && n < |page| && s.sweeps[j] == J.Fetching(Fetched(page, n), n)
    requires forall i :: 0 <= i < |page| ==> page[i].id in s.jobs && page[i].arts == s.jobs[page[i].id].arts
    ensures Leads(s, steps, s') && forall step :: step in steps ==> step == Fetch(j, Success)
    ensures s' == s.(sweeps := s.sweeps[j := J.NextItem(page, 0)])
    decreases |page| - n
  {
    hide Enabled, Next, Leads, Fetched;
    var sweep' := if n + 1 < |page| then J.Fetching(Fetched(page, n + 1), n + 1) else J.NextItem(page, 0);
    var next := FetchStep(s, j, page, n, sweep');
    if n + 1 < |page| {
      var rest;
      rest, s' := FetchesAreProtocolRun(next, j, page, n + 1);
      Prepend(s, Fetch(j, Success), rest, s');
      steps := [Fetch(j, Success)] + rest;
      assert s.sweeps[j := sweep'][j := J.NextItem(page, 0)] == s.sweeps[j := J.NextItem(page, 0)];
    } else {
      s' := Single(s, Fetch(j, Success));
      steps := [Fetch(j, Success)];
    }
  }

  lemma FetchStep(s: State, j: nat, page: seq<J.Snapshot>, n: nat, sweep': J.Sweep) returns (next: State)
    requires j in s.sweeps && n < |page| && s.sweeps[j] == J.Fetching(Fetched(page, n), n)
    requires forall i :: 0 <= i < |page| ==> page[i].id in s.jobs && page[i].arts == s.jobs[page[i].id].arts
    requires sweep' == if n + 1 < |page| then J.Fetching(Fetched(page, n + 1), n + 1) else J.NextItem(page, 0)
    ensures Enabled(s, Fetch(j, Success)) && next == Next(s, Fetch(j, Success))
    ensures next == s.(sweeps := s.sweeps[j := sweep'])
  {
    next := Next(s, Fetch(j, Success));
    var todo := Fetched(page, n);
    assert todo[n] == page[n].(arts := []);
    assert todo[n := page[n]] == Fetched(page, n + 1);
    assert n + 1 == |page| ==> Fetched(page, n + 1) == page;
  }

  /** The queries of a sweep, when nothing else moves, leave it with the page and all its artifacts. */
  lemma ListingIsProtocolRun(s: State, j: nat, page: seq<J.Snapshot>) returns (steps: seq<Step>, s': State)
    requires j in s.sweeps && s.sweeps[j].Listing?
    requires J.IsExpiredPage(s.jobs, s.clock, J.PageSize(s.sweeps[j].limit), page)
    ensures Leads(s, steps, s')
    ensures forall step :: step in steps ==> step == List(j, page, Success) || step == Fetch(j, Success)
    ensures s' == s.(sweeps := s.sweeps[j := J.NextItem(page, 0)])
  {
    hide Leads;
    var listed := Single(s, List(j, page, Success));
    steps, s' := [List(j, page, Success)], listed;
    if page != [] {
      assert page[..0] + J.Bare(page[0..]) == J.Bare(page);
      forall i | 0 <= i < |page|
        ensures page[i].id in s.jobs && page[i].arts == s.jobs[page[i].id].arts
      {
        assert J.Expired(s.jobs, s.clock, page[i].id) && page[i] == J.SnapshotOf(s.jobs, page[i].id);
      }
      hide Enabled, Next;
      var rest;
      rest, s' := FetchesAreProtocolRun(listed, j, page, 0);
      Joined(s, [List(j, page, Success)], listed, rest, s');
      steps := [List(j, page, Success)] + rest;
      assert s'.sweeps == s.sweeps[j := J.NextItem(page, 0)];
    }
  }

  /** What one item of the sweep leaves. */
  function AfterItem(s: State, j: nat, todo: seq<J.Snapshot>, pruned: nat, fate: Fates, k: nat): State
    requires todo != []
  {
    var c := fate(k + |todo[0].Files()|);
    s.(jobs := WithoutRows(s.jobs, if c.Success? then {todo[0].id} else {}),
       files := s.files - Unlinked(todo[0].Files(), fate, k),
       sweeps := s.sweeps[j := J.Dropping(todo, pruned)]
       [j := J.NextItem(todo[1..], if c.Success? then pruned + 1 else pruned)])
  }

  lemma ItemIsProtocolRun(s: State, j: nat, todo: seq<J.Snapshot>, pruned: nat, fate: Fates, k: nat)
    returns (steps: seq<Step>)
    requires j in s.sweeps && todo != [] && todo[0].id in s.jobs && s.sweeps[j] == J.Clearing(todo, 0, pruned)
    ensures |steps| == |todo[0].Files()| + 1 && steps == Script(BySweep(j), fate, k, |steps|)
    ensures Leads(s, steps, AfterItem(s, j, todo, pruned, fate, k))
  {
    hide Enabled, Next, Unlinked, Leads, WithoutRows, Script;
    var n := |todo[0].Files()|;
    var c := fate(k + n);
    assert todo[0].Files()[0..] == todo[0].Files();
    var cleared, s1 := ClearIsProtocolRun(s, j, todo, 0, pruned, fate, k);
    var s2 := DropStep(s1, j, todo, pruned, c, if c.Success? then {todo[0].id} else {});
    var none, same := Idle(s2);
    Prepend(s1, SweepCall(j, c), none, s2);
    Joined(s, cleared, s1, [SweepCall(j, c)] + none, s2);
    steps := cleared + ([SweepCall(j, c)] + none);
    ScriptNone(BySweep(j), fate, k + n + 1);
    ScriptCons(BySweep(j), fate, k + n, 0);
    ScriptAppend(BySweep(j), fate, k, n, 1);
  }

  /** The sweep over a page is a run of the protocol in which only this janitor moves. */
  lemma {:induction false} SweepIsProtocolRun(s: State, j: nat, todo: seq<J.Snapshot>, pruned: nat, fate: Fates, k: nat)
    returns (steps: seq<Step>, s': State)
    requires j in s.sweeps && s.sweeps[j] == J.NextItem(todo, pruned)
    requires forall i :: 0 <= i < |todo| ==> todo[i].id in s.jobs
    ensures Leads(s, steps, s') && steps == Script(BySweep(j), fate, k, |steps|)
    ensures s' == s.(jobs := WithoutRows(s.jobs, GoneIds(todo, fate, k)),
                     files := s.files - GoneFiles(todo, fate, k),
                     sweeps := s.sweeps[j := J.Finished(pruned + Deletions(todo, fate, k))])
    decreases |todo|
  {
    hide Enabled, Next, Unlinked, Leads, WithoutRows, Script;
    if todo == [] {
      steps, s' := Idle(s);
      SweepOfNothing(s, j, pruned);
      ScriptNone(BySweep(j), fate, k);
    } else {
      hide GoneIds, GoneFiles, Deletions;
      var n, c := |todo[0].Files()|, fate(k + |todo[0].Files()|);
      var first := ItemIsProtocolRun(s, j, todo, pruned, fate, k);
      var s2 := AfterItem(s, j, todo, pruned, fate, k);
      SameJobs(s.jobs, if c.Success? then {todo[0].id} else {});
      var rest;
      rest, s' := SweepIsProtocolRun(s2, j, todo[1..], if c.Success? then pruned + 1 else pruned, fate, k + n + 1);
      Joined(s, first, s2, rest, s');
      steps := first + rest;
      ScriptAppend(BySweep(j), fate, k, n + 1, |rest|);
      SweepComposes(s, j, todo, pruned, fate, k, s2, s');
    }
  }

  lemma SameJobs(jobs: J.Jobs, ids: set<JobId>)
    ensures WithoutRows(jobs, ids).Keys == jobs.Keys
  {
  }

  lemma SweepOfNothing(s: State, j: nat, pruned: nat)
    requires j in s.sweeps && s.sweeps[j] == J.Finished(pruned)
    ensures s == s.(jobs := WithoutRows(s.jobs, {}), files := s.files - {}, sweeps := s.sweeps[j := J.Finished(pruned)])
  {
    assert WithoutRows(s.jobs, {}) == s.jobs && s.files - {} == s.files && s.sweeps[j := s.sweeps[j]] == s.sweeps;
  }

  /** The first item and the rest of the sweep make up the whole sweep. */
  lemma SweepComposes(s: State, j: nat, todo: seq<J.Snapshot>, pruned: nat, fate: Fates, k: nat, s2: State, s': State)
    requires todo != []
    requires var n, tail := |todo[0].Files()|, todo[1..];
             var c := fate(k + n);
             var pruned2 := if c.Success? then pruned + 1 else pruned;
             && s2 == AfterItem(s, j, todo, pruned, fate, k)
             && s' == s2.(jobs := WithoutRows(s2.jobs, GoneIds(tail, fate, k + n + 1)),
                          files := s2.files - GoneFiles(tail, fate, k + n + 1),
                          sweeps := s2.sweeps[j := J.Finished(pruned2 + Deletions(tail, fate, k + n + 1))])
    ensures s' == s.(jobs := WithoutRows(s.jobs, GoneIds(todo, fate, k)),
                     files := s.files - GoneFiles(todo, fate, k),
                     sweeps := s.sweeps[j := J.Finished(pruned + Deletions(todo, fate, k))])
  {
    hide Unlinked, WithoutRows;
    var n, tail := |todo[0].Files()|, todo[1..];
    WithoutBoth(s.jobs, if fate(k + n).Success? then {todo[0].id} else {}, GoneIds(tail, fate, k + n + 1));
    assert s'.files == s.files - GoneFiles(todo, fate, k);
    assert s'.sweeps == s.sweeps[j := J.Finished(pruned + Deletions(todo, fate, k))];
  }
}
