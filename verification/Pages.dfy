/** Answering the page query: the earliest expired jobs, one after the other. */
module Pages {
  import opened Domain
  import J = JanitorSteps

  /** `page` begins the answer to the page query; the expired jobs in `left` are yet to come, and due no earlier. */
  ghost predicate IsStartOfPage(jobs: J.Jobs, now: Time, size: nat, page: seq<J.Snapshot>, left: set<JobId>) {
    && |page| <= size
    && (forall id :: id in left <==> J.Expired(jobs, now, id) && !J.Listed(page, id))
    && (forall i :: 0 <= i < |page| ==> J.Expired(jobs, now, page[i].id) && page[i] == J.SnapshotOf(jobs, page[i].id))
    && (forall i, j :: 0 <= i < j < |page| ==> page[i].id != page[j].id && J.Due(page[i]) <= J.Due(page[j]))
    && (forall i, id :: 0 <= i < |page| && id in left ==> J.Due(page[i]) <= J.Due(J.SnapshotOf(jobs, id)))
  }

  lemma PageHas(jobs: J.Jobs, now: Time, size: nat, page: seq<J.Snapshot>, i: nat)
    requires J.IsExpiredPage(jobs, now, size, page) && i < |page|
    ensures page[i].id in jobs && jobs[page[i].id].row.Some? && page[i] == J.SnapshotOf(jobs, page[i].id)
  {
    assert J.Expired(jobs, now, page[i].id);
  }

  lemma PageStarts(jobs: J.Jobs, now: Time, size: nat, left: set<JobId>)
    requires forall id :: id in left <==> J.Expired(jobs, now, id)
    ensures IsStartOfPage(jobs, now, size, [], left)
  {
  }

  lemma LeftHaveRows(jobs: J.Jobs, now: Time, size: nat, page: seq<J.Snapshot>, left: set<JobId>)
    requires IsStartOfPage(jobs, now, size, page, left)
    ensures forall id :: id in left ==> id in jobs && jobs[id].row.Some?
  {
  }

  lemma PageDone(jobs: J.Jobs, now: Time, size: nat, page: seq<J.Snapshot>, left: set<JobId>)
    requires IsStartOfPage(jobs, now, size, page, left) && (left == {} || |page| == size)
    ensures J.IsExpiredPage(jobs, now, size, page)
  {
  }

  lemma PageGrows(jobs: J.Jobs, now: Time, size: nat, page: seq<J.Snapshot>, left: set<JobId>, first: JobId)
    requires IsStartOfPage(jobs, now, size, page, left) && |page| < size && first in left
    requires forall id :: id in left ==> J.Due(J.SnapshotOf(jobs, first)) <= J.Due(J.SnapshotOf(jobs, id))
    ensures IsStartOfPage(jobs, now, size, page + [J.SnapshotOf(jobs, first)], left - {first})
  {
    var snap := J.SnapshotOf(jobs, first);
    assert !J.Listed(page, first);
    ListedAppend(page, snap);
  }

  lemma ListedAppend(page: seq<J.Snapshot>, snap: J.Snapshot)
    ensures forall id :: J.Listed(page + [snap], id) <==> J.Listed(page, id) || id == snap.id
  {
    forall id
      ensures J.Listed(page + [snap], id) <==> J.Listed(page, id) || id == snap.id
    {
      if J.Listed(page, id) {
        var i :| 0 <= i < |page| && page[i].id == id;
        assert (page + [snap])[i].id == id;
      }
      assert (page + [snap])[|page|] == snap;
    }
  }

  lemma {:induction false} EarliestOf(jobs: J.Jobs, ids: set<JobId>) returns (first: JobId)
    requires ids != {} && forall id :: id in ids ==> id in jobs && jobs[id].row.Some?
    ensures first in ids
    ensures forall id :: id in ids ==> J.Due(J.SnapshotOf(jobs, first)) <= J.Due(J.SnapshotOf(jobs, id))
    decreases ids
  {
    var one :| one in ids;
    first := one;
    if ids - {one} != {} {
      var rest := EarliestOf(jobs, ids - {one});
      if J.Due(J.SnapshotOf(jobs, rest)) < J.Due(J.SnapshotOf(jobs, one)) {
        first := rest;
      }
    }
    forall id | id in ids
      ensures J.Due(J.SnapshotOf(jobs, first)) <= J.Due(J.SnapshotOf(jobs, id))
    {
      assert id == one || id in ids - {one};
    }
  }

  /** Whatever rows there are, the page query has an answer. */
  lemma PageExists(jobs: J.Jobs, now: Time, size: nat) returns (page: seq<J.Snapshot>)
    ensures J.IsExpiredPage(jobs, now, size, page)
  {
    var left := set id | id in jobs && J.Expired(jobs, now, id);
    page := [];
    PageStarts(jobs, now, size, left);
    hide IsStartOfPage, J.IsExpiredPage;
    while left != {} && |page| < size
      invariant |page| <= size && IsStartOfPage(jobs, now, size, page, left)
      decreases left
    {
      LeftHaveRows(jobs, now, size, page, left);
      var first := EarliestOf(jobs, left);
      PageGrows(jobs, now, size, page, left, first);
      page := page + [J.SnapshotOf(jobs, first)];
      left := left - {first};
    }
    PageDone(jobs, now, size, page, left);
  }
}
