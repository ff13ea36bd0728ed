/** The download queue's order: priority ascending with nulls last, then id. */
module QueueOrder {
  import opened Domain

  type JobId = nat
  type VideoId = nat

  datatype Job = Job(jobType: JobType, status: JobStatus, priority: Option<int>, video: VideoId)

  type Table = map<JobId, Job>

  /** Rows that occupy the queue. */
  predicate Active(t: Table, i: JobId) {
    i in t && t[i].jobType == DOWNLOAD && IsActive(t[i].status)
  }

  predicate KeyBefore(p: Option<int>, i: JobId, q: Option<int>, j: JobId) {
    if p.None? then q.None? && i < j
    else q.None? || p.value < q.value || (p.value == q.value && i < j)
  }

  predicate Before(t: Table, i: JobId, j: JobId) {
    i in t && j in t && KeyBefore(t[i].priority, i, t[j].priority, j)
  }

  /** What SELECT ... ORDER BY priority ASC NULLS LAST, id ASC returns for the active rows. */
  ghost predicate IsQueueOrder(t: Table, o: seq<JobId>) {
    && (forall k | 0 <= k < |o| :: Active(t, o[k]))
    && (forall i | Active(t, i) :: i in o)
    && (forall a, b | 0 <= a < b < |o| :: Before(t, o[a], o[b]))
  }

  predicate NoDuplicates(o: seq<JobId>) {
    forall a, b | 0 <= a < b < |o| :: o[a] != o[b]
  }

  lemma OrderHasNoDuplicates(t: Table, o: seq<JobId>)
    requires IsQueueOrder(t, o)
    ensures NoDuplicates(o)
  {
    assert forall a, b | 0 <= a < b < |o| :: Before(t, o[a], o[b]);
  }

  function Cut(o: seq<JobId>, k: nat): seq<JobId>
    requires k < |o|
  {
    o[..k] + o[k + 1..]
  }

  /** Deleting a row leaves the others in order. */
  lemma DeletedAt(t: Table, o: seq<JobId>, k: nat)
    requires IsQueueOrder(t, o) && k < |o|
    ensures IsQueueOrder(t - {o[k]}, Cut(o, k))
  {
    var t', n := t - {o[k]}, Cut(o, k);
    OrderHasNoDuplicates(t, o);
    forall j | Active(t', j) ensures j in n {
      assert Active(t, j);
      var a :| 0 <= a < |o| && o[a] == j;
      assert n[if a < k then a else a - 1] == j;
    }
    forall a | 0 <= a < |n| ensures Active(t', n[a]) {
      assert Active(t, o[if a < k then a else a + 1]);
    }
    forall a, b | 0 <= a < b < |n| ensures Before(t', n[a], n[b]) {
      assert Before(t, o[if a < k then a else a + 1], o[if b < k then b else b + 1]);
    }
  }

  lemma NonEmptyHas(o: seq<JobId>)
    requires o != []
    ensures exists i :: i in o
  {
    assert o[0] in o;
  }

  /** The table determines the order. */
  lemma {:induction false} OrderIsUnique(t: Table, o: seq<JobId>, p: seq<JobId>)
    requires IsQueueOrder(t, o) && IsQueueOrder(t, p)
    ensures o == p
    decreases |o|
  {
    if o == [] && p == [] {
    } else if o == [] || p == [] {
      NonEmptyHas(o + p);
      assert false;
    } else {
      FirstAgrees(t, o, p);
      DeletedAt(t, o, 0);
      DeletedAt(t, p, 0);
      OrderIsUnique(t - {o[0]}, Cut(o, 0), Cut(p, 0));
      CutFirst(o);
      CutFirst(p);
    }
  }

  lemma CutFirst(o: seq<JobId>)
    requires o != []
    ensures o == [o[0]] + Cut(o, 0) && |Cut(o, 0)| == |o| - 1
  {}

  lemma FirstAgrees(t: Table, o: seq<JobId>, p: seq<JobId>)
    requires IsQueueOrder(t, o) && IsQueueOrder(t, p) && o != [] && p != []
    ensures o[0] == p[0]
  {
    var a :| 0 <= a < |p| && p[a] == o[0];
    var b :| 0 <= b < |o| && o[b] == p[0];
    assert a > 0 ==> Before(t, p[0], o[0]);
    assert b > 0 ==> Before(t, o[0], p[0]);
  }

  // ------------------------------------------------------------- positions --

  function Without(o: seq<JobId>, i: JobId): seq<JobId> {
    if o == [] then [] else if o[0] == i then Without(o[1..], i) else [o[0]] + Without(o[1..], i)
  }

  function IndexOf(o: seq<JobId>, i: JobId): Option<nat> {
    if o == [] then None
    else if o[0] == i then Some(0)
    else var k := IndexOf(o[1..], i); if k.Some? then Some(k.value + 1) else None
  }

  lemma {:induction false} IndexOfFinds(o: seq<JobId>, i: JobId)
    ensures IndexOf(o, i).Some? <==> i in o
    ensures IndexOf(o, i).Some? ==> IndexOf(o, i).value < |o| && o[IndexOf(o, i).value] == i
  {
    if o != [] { IndexOfFinds(o[1..], i); }
  }

  /** Removing a job closes the gap it leaves and moves nothing else. */
  lemma {:induction false} WithoutCuts(o: seq<JobId>, i: JobId, k: nat)
    requires NoDuplicates(o) && k < |o| && o[k] == i
    ensures Without(o, i) == Cut(o, k)
    decreases |o|
  {
    if k == 0 {
      WithoutAbsent(o[1..], i);
    } else {
      WithoutCuts(o[1..], i, k - 1);
      assert o[..k] == [o[0]] + o[1..][..k - 1];
    }
  }

  lemma {:induction false} WithoutAbsent(o: seq<JobId>, i: JobId)
    requires i !in o
    ensures Without(o, i) == o
  {
    if o != [] { WithoutAbsent(o[1..], i); }
  }

  // ----------------------------------------------------------- one insertion --

  /** Add a row whose key lies after rows[..k] and before rows[k..]: it is inserted at k. */
  lemma InsertedAt(t: Table, rows: seq<JobId>, i: JobId, k: nat)
    requires IsQueueOrder(t - {i}, rows) && Active(t, i) && k <= |rows|
    requires forall a | 0 <= a < k :: Before(t, rows[a], i)
    requires forall a | k <= a < |rows| :: Before(t, i, rows[a])
    ensures IsQueueOrder(t, rows[..k] + [i] + rows[k..])
  {
    var n := rows[..k] + [i] + rows[k..];
    assert n[k] == i;
    forall j | Active(t, j) ensures j in n {
      if j != i {
        assert Active(t - {i}, j);
        var a :| 0 <= a < |rows| && rows[a] == j;
        assert n[if a < k then a else a + 1] == j;
      }
    }
    forall a | 0 <= a < |n| ensures Active(t, n[a]) {
      if a != k { assert Active(t - {i}, rows[if a < k then a else a - 1]); }
    }
    forall a, b | 0 <= a < b < |n| ensures Before(t, n[a], n[b]) {
      if a != k && b != k {
        assert Before(t - {i}, rows[if a < k then a else a - 1], rows[if b < k then b else b - 1]);
      }
    }
  }

  /** A row that is not active does not show. */
  lemma InactiveIgnored(t: Table, rows: seq<JobId>, i: JobId)
    requires IsQueueOrder(t - {i}, rows) && !Active(t, i)
    ensures IsQueueOrder(t, rows)
  {
    assert forall j | Active(t, j) :: Active(t - {i}, j);
    assert forall a, b | 0 <= a < b < |rows| :: Before(t - {i}, rows[a], rows[b]);
  }

  // -------------------------------------------------------------- the query --

  predicate IsFirst(t: Table, ids: set<JobId>, i: JobId) {
    forall j | j in ids :: j == i || Before(t, i, j)
  }

  lemma {:induction false} FirstExists(t: Table, ids: set<JobId>)
    requires ids != {} && ids <= t.Keys
    ensures exists i :: i in ids && IsFirst(t, ids, i)
    decreases |ids|
  {
    var i :| i in ids;
    var rest := ids - {i};
    assert forall l | l in ids :: l == i || l in rest;
    if rest == {} {
      assert IsFirst(t, ids, i);
    } else {
      FirstExists(t, rest);
      var j :| j in rest && IsFirst(t, rest, j);
      if Before(t, i, j) {
        assert IsFirst(t, ids, i);
      } else {
        assert Before(t, j, i);
        assert IsFirst(t, ids, j);
      }
    }
  }

  function Sorted(t: Table, ids: set<JobId>): (o: seq<JobId>)
    requires ids <= t.Keys
    ensures forall i :: i in o <==> i in ids
    ensures forall a, b | 0 <= a < b < |o| :: Before(t, o[a], o[b])
    decreases |ids|
  {
    if ids == {} then []
    else
      FirstExists(t, ids);
      var i :| i in ids && IsFirst(t, ids, i);
      [i] + Sorted(t, ids - {i})
  }

  function OrderOf(t: Table): (o: seq<JobId>)
    ensures IsQueueOrder(t, o)
  {
    var o := Sorted(t, set i | i in t && Active(t, i));
    assert forall k | 0 <= k < |o| :: o[k] in o;
    o
  }
}
