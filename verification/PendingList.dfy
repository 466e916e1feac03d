/** `listPendingApprovals`: two queries, each limited to the newest rows of one pending
    status, are merged, sorted and cut to a list that is the newest rows of both. */
module PendingList {
  import opened Options
  import opened Approvals

  datatype Entity = Entity(key: Key, area: string, entityType: string, status: Option<string>, createdAt: int)

  /** The filters of a list query (`area` is the `module` column); an empty text filters
      nothing. */
  datatype Filters = Filters(area: Option<string>, entityType: Option<string>, status: Option<string>)

  const DEFAULT_LIMIT: nat := 50

  predicate Allows(filter: Option<string>, value: Option<string>) {
    filter == None || filter == Some("") || value == filter
  }

  predicate Matches(r: Entity, workspace: string, f: Filters) {
    && r.key.workspace == workspace
    && Allows(f.area, Some(r.area)) && Allows(f.entityType, Some(r.entityType)) && Allows(f.status, r.status)
  }

  function Matching(table: set<Entity>, workspace: string, f: Filters): set<Entity> {
    set r | r in table && Matches(r, workspace, f)
  }

  ghost predicate NewestFirst(rows: seq<Entity>) {
    forall i, j :: 0 <= i < j < |rows| ==> rows[i].createdAt >= rows[j].createdAt
  }

  ghost predicate NoRepeats(rows: seq<Entity>) {
    forall i, j :: 0 <= i < j < |rows| ==> rows[i] != rows[j]
  }

  function Min(a: nat, b: nat): nat { if a < b then a else b }

  /** `rows` is a possible answer to "the newest `limit` of `all`", whatever the order of
      ties: distinct members, newest first, as many as there are up to the limit, and no
      member left out is newer than one included. */
  ghost predicate IsTop(rows: seq<Entity>, all: set<Entity>, limit: nat) {
    && NoRepeats(rows)
    && NewestFirst(rows)
    && |rows| == Min(limit, |all|)
    && (forall r :: r in rows ==> r in all)
    && (forall r, x :: r in rows && x in all && x !in rows ==> x.createdAt <= r.createdAt)
  }

  function WithStatus(table: set<Entity>, workspace: string, status: string): set<Entity> {
    set r | r in table && r.key.workspace == workspace && r.status == Some(status)
  }

  function Pending(table: set<Entity>, workspace: string): set<Entity> {
    set r | r in table && r.key.workspace == workspace && IsPendingApproval(r.status)
  }

  /** A row passes when it is the workspace's and has the value of every filter that is given
      and not empty; with the status filter alone these are the rows of that status. */
  lemma FiltersMean(table: set<Entity>, workspace: string, f: Filters, r: Entity)
    ensures r in Matching(table, workspace, f) <==>
      && r in table && r.key.workspace == workspace
      && (f.area.Some? && f.area.value != "" ==> r.area == f.area.value)
      && (f.entityType.Some? && f.entityType.value != "" ==> r.entityType == f.entityType.value)
      && (f.status.Some? && f.status.value != "" ==> r.status.Some? && r.status.value == f.status.value)
    ensures r in Pending(table, workspace) <==>
      r in table && r.key.workspace == workspace
      && (r.status == Some("pending_approval") || r.status == Some("awaiting_approval"))
  {
  }

  // ---- Array.prototype.sort by createdAt, newest first; it is stable ----

  function Insert(r: Entity, rows: seq<Entity>): (out: seq<Entity>)
    ensures |out| == |rows| + 1
    ensures forall x :: x in out <==> x in rows || x == r
  {
    if rows == [] || r.createdAt >= rows[0].createdAt then [r] + rows
    else
      assert rows == [rows[0]] + rows[1..];
      [rows[0]] + Insert(r, rows[1..])
  }

  lemma {:induction false} InsertKeepsOrder(r: Entity, rows: seq<Entity>)
    requires NewestFirst(rows)
    ensures NewestFirst(Insert(r, rows))
  {
    if rows != [] && r.createdAt < rows[0].createdAt {
      InsertKeepsOrder(r, rows[1..]);
      forall x | x in Insert(r, rows[1..]) ensures x.createdAt <= rows[0].createdAt {
        assert x == r || x in rows[1..];
      }
    }
  }

  lemma {:induction false} InsertKeepsDistinct(r: Entity, rows: seq<Entity>)
    requires NoRepeats(rows) && r !in rows
    ensures NoRepeats(Insert(r, rows))
  {
    if rows != [] && r.createdAt < rows[0].createdAt {
      InsertKeepsDistinct(r, rows[1..]);
      assert rows[0] !in Insert(r, rows[1..]);
    }
  }

  function Sort(rows: seq<Entity>): (out: seq<Entity>)
    ensures |out| == |rows|
    ensures forall x :: x in out <==> x in rows
  {
    if rows == [] then []
    else
      assert rows == [rows[0]] + rows[1..];
      Insert(rows[0], Sort(rows[1..]))
  }

  lemma {:induction false} SortOrders(rows: seq<Entity>)
    ensures NewestFirst(Sort(rows))
    ensures NoRepeats(rows) ==> NoRepeats(Sort(rows))
  {
    if rows != [] {
      SortOrders(rows[1..]);
      InsertKeepsOrder(rows[0], Sort(rows[1..]));
      if NoRepeats(rows) { InsertKeepsDistinct(rows[0], Sort(rows[1..])); }
    }
  }

  /** The merge step, given the two query answers. */
  function ListPendingApprovals(first: seq<Entity>, second: seq<Entity>, limit: nat): seq<Entity> {
    var merged := Sort(first + second);
    merged[..Min(limit, |merged|)]
  }

  // ---- counting ----

  function SetOf(rows: seq<Entity>): set<Entity> {
    set r | r in rows
  }

  lemma {:induction false} NoRepeatsCounts(rows: seq<Entity>)
    requires NoRepeats(rows)
    ensures |SetOf(rows)| == |rows|
  {
    if rows != [] {
      var front, last := rows[..|rows| - 1], rows[|rows| - 1];
      NoRepeatsCounts(front);
      assert rows == front + [last];
      assert last !in front;
      assert SetOf(rows) == SetOf(front) + {last};
    }
  }

  lemma SubsetCounts(a: set<Entity>, b: set<Entity>)
    requires a <= b
    ensures |a| <= |b|
    ensures |a| == |b| ==> a == b
  {
    assert b == a + (b - a);
    assert |b| == |a| + |b - a|;
  }

  /** If a full query answer is entirely newer than a merged row, that row comes after
      `limit` others and is cut. */
  lemma NewerRowsComeFirst(merged: seq<Entity>, newer: seq<Entity>, i: nat)
    requires NoRepeats(merged) && NewestFirst(merged) && NoRepeats(newer) && i < |merged|
    requires forall r :: r in newer ==> r in merged && r.createdAt > merged[i].createdAt
    ensures |newer| <= i
  {
    NoRepeatsCounts(newer);
    NoRepeatsCounts(merged[..i]);
    forall r | r in SetOf(newer) ensures r in SetOf(merged[..i]) {
      var k :| 0 <= k < |merged| && merged[k] == r;
      assert k < i;
      assert merged[..i][k] == r;
    }
    SubsetCounts(SetOf(newer), SetOf(merged[..i]));
  }

  lemma MergedLists(table: set<Entity>, workspace: string, first: seq<Entity>, second: seq<Entity>, limit: nat)
    requires IsTop(first, WithStatus(table, workspace, PENDING_APPROVAL), limit)
    requires IsTop(second, WithStatus(table, workspace, AWAITING_APPROVAL), limit)
    ensures NoRepeats(first + second)
    ensures Min(limit, |first + second|) == Min(limit, |Pending(table, workspace)|)
  {
    var a, b := WithStatus(table, workspace, PENDING_APPROVAL), WithStatus(table, workspace, AWAITING_APPROVAL);
    assert Pending(table, workspace) == a + b;
    assert a !! b;
    var both := first + second;
    forall i, j | 0 <= i < j < |both| ensures both[i] != both[j] {
      if i < |first| && |first| <= j {
        assert both[i] in first && both[j] in second;
      }
    }
  }

  lemma LeavesOutOnlyWhenFull(part: set<Entity>, top: seq<Entity>, limit: nat, x: Entity)
    requires IsTop(top, part, limit) && x in part && x !in top
    ensures |top| == limit
  {
    NoRepeatsCounts(top);
    SubsetCounts(SetOf(top), part);
    assert x !in SetOf(top);
  }

  /** A pending row that is left out is no newer than any row included. */
  lemma LeftOutIsOlder(part: set<Entity>, top: seq<Entity>, merged: seq<Entity>, limit: nat, x: Entity, i: nat)
    requires IsTop(top, part, limit) && x in part
    requires NoRepeats(merged) && NewestFirst(merged) && forall r :: r in top ==> r in merged
    requires i < Min(limit, |merged|) && x !in merged[..Min(limit, |merged|)]
    ensures x.createdAt <= merged[i].createdAt
  {
    if x in merged {
      var n := Min(limit, |merged|);
      assert merged == merged[..n] + merged[n..];
      var k :| 0 <= k < |merged| - n && merged[n..][k] == x;
      assert merged[n + k] == x;
    } else if x.createdAt > merged[i].createdAt {
      LeavesOutOnlyWhenFull(part, top, limit, x);
      NewerRowsComeFirst(merged, top, i);
      assert false;
    }
  }

  /** Two limited queries give a true top-k, for any table and any order of ties. */
  lemma MergedIsTop(table: set<Entity>, workspace: string, first: seq<Entity>, second: seq<Entity>, limit: nat)
    requires IsTop(first, WithStatus(table, workspace, PENDING_APPROVAL), limit)
    requires IsTop(second, WithStatus(table, workspace, AWAITING_APPROVAL), limit)
    ensures IsTop(ListPendingApprovals(first, second, limit), Pending(table, workspace), limit)
  {
    var a, b := WithStatus(table, workspace, PENDING_APPROVAL), WithStatus(table, workspace, AWAITING_APPROVAL);
    MergedLists(table, workspace, first, second, limit);
    SortOrders(first + second);
    var merged := Sort(first + second);
    var out := ListPendingApprovals(first, second, limit);
    var all := Pending(table, workspace);
    forall r | r in out ensures r in all {
      assert r in merged;
      assert r in first || r in second;
    }
    forall r, x | r in out && x in all && x !in out ensures x.createdAt <= r.createdAt {
      var i :| 0 <= i < |out| && out[i] == r;
      if x in a {
        LeftOutIsOlder(a, first, merged, limit, x, i);
      } else {
        LeftOutIsOlder(b, second, merged, limit, x, i);
      }
    }
  }

  // ---- the queries ----

  lemma SortedPrefixIsTop(rows: seq<Entity>, all: set<Entity>, limit: nat)
    requires NoRepeats(rows) && SetOf(rows) == all
    ensures IsTop(Sort(rows)[..Min(limit, |rows|)], all, limit)
  {
    NoRepeatsCounts(rows);
    SortOrders(rows);
    var sorted, n := Sort(rows), Min(limit, |rows|);
    var top := sorted[..n];
    forall r | r in top ensures r in all {
      assert r in sorted;
      assert r in rows;
    }
    forall r, x | r in top && x in all && x !in top ensures x.createdAt <= r.createdAt {
      assert x in rows;
      CutIsNewest(sorted, n, r, x);
    }
  }

  lemma CutIsNewest(sorted: seq<Entity>, n: nat, r: Entity, x: Entity)
    requires NewestFirst(sorted) && n <= |sorted| && r in sorted[..n] && x in sorted && x !in sorted[..n]
    ensures x.createdAt <= r.createdAt
  {
    assert sorted == sorted[..n] + sorted[n..];
    var i :| 0 <= i < n && sorted[..n][i] == r;
    var k :| 0 <= k < |sorted| - n && sorted[n..][k] == x;
    assert sorted[i] == r && sorted[n + k] == x;
  }

  /** The query: the newest rows that pass every filter given. */
  method ListEntities(table: set<Entity>, workspace: string, f: Filters, limit: Option<nat>) returns (rows: seq<Entity>)
    ensures IsTop(rows, Matching(table, workspace, f), if limit.Some? then limit.value else 50)
  {
    hide IsTop, Sort, Matches;
    rows := [];
    var left := table;
    while left != {}
      invariant left <= table
      invariant NoRepeats(rows)
      invariant SetOf(rows) == Matching(table - left, workspace, f)
      decreases left
    {
      var r :| r in left;
      ghost var before := rows;
      assert table - (left - {r}) == (table - left) + {r};
      left := left - {r};
      if Matches(r, workspace, f) {
        assert r !in SetOf(rows);
        rows := rows + [r];
        assert SetOf(rows) == SetOf(before) + {r};
      }
    }
    assert table - left == table;
    var n := match limit case Some(n) => n case None => DEFAULT_LIMIT;
    SortedPrefixIsTop(rows, Matching(table, workspace, f), n);
    rows := Sort(rows)[..Min(n, |rows|)];
  }

  method QueryPendingApprovals(table: set<Entity>, workspace: string, limit: nat) returns (rows: seq<Entity>)
    ensures IsTop(rows, Pending(table, workspace), limit)
  {
    var first := ListEntities(table, workspace, Filters(None, None, Some(PENDING_APPROVAL)), Some(limit));
    var second := ListEntities(table, workspace, Filters(None, None, Some(AWAITING_APPROVAL)), Some(limit));
    assert Matching(table, workspace, Filters(None, None, Some(PENDING_APPROVAL)))
        == WithStatus(table, workspace, PENDING_APPROVAL);
    assert Matching(table, workspace, Filters(None, None, Some(AWAITING_APPROVAL)))
        == WithStatus(table, workspace, AWAITING_APPROVAL);
    MergedIsTop(table, workspace, first, second, limit);
    rows := ListPendingApprovals(first, second, limit);
  }
}
