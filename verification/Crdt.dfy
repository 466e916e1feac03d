/** The column last-writer-wins CRDT of one replica: the pure merge core, the
    replica's operations as functions on its state, and the `Replica` class whose
    methods are proved against those functions.

    A site id is a `nat`: the program only ever compares ids, so a finite family of
    string ids may be numbered in string order. */
module Crdt {
  import opened Options

  type SiteId = nat
  type Val = string

  /** One stored register with the stamp of the write that produced it. */
  datatype Cell = Cell(val: Val, colVersion: nat, siteId: SiteId, dbVersion: nat)

  /** One row of `crsql_changes`; also one entry of the append-only event log. */
  datatype Change = Change(pk: string, cid: string, cell: Cell)

  type Store = map<string, map<string, Cell>>
  type VersionVector = map<SiteId, nat>

  // ---- pure merge core ----

  predicate CellWins(incoming: Cell, local: Option<Cell>) {
    match local
    case None => true
    case Some(c) =>
      if incoming.colVersion != c.colVersion then incoming.colVersion > c.colVersion
      else incoming.siteId > c.siteId
  }

  /** The strict stamp order, independently of any store. */
  predicate Beats(a: Cell, b: Cell) {
    a.colVersion > b.colVersion || (a.colVersion == b.colVersion && a.siteId > b.siteId)
  }

  function Row(s: Store, pk: string): map<string, Cell> {
    if pk in s then s[pk] else map[]
  }

  function Get(s: Store, pk: string, cid: string): Option<Cell> {
    if cid in Row(s, pk) then Some(Row(s, pk)[cid]) else None
  }

  function ApplyChange(s: Store, c: Change): Store {
    if CellWins(c.cell, Get(s, c.pk, c.cid))
    then s[c.pk := Row(s, c.pk)[c.cid := c.cell]]
    else s
  }

  function ApplyAll(s: Store, cs: seq<Change>): Store {
    if cs == [] then s else ApplyChange(ApplyAll(s, cs[..|cs| - 1]), cs[|cs| - 1])
  }

  function Attrs(s: Store, pk: string): map<string, Val> {
    map cid | cid in Row(s, pk) :: Row(s, pk)[cid].val
  }

  /** What a store says about a key when two stores are merged cell by cell. */
  function JoinCell(a: Option<Cell>, b: Option<Cell>): Option<Cell> {
    match b
    case None => a
    case Some(c) => if CellWins(c, a) then b else a
  }

  // ---- what a store says about a set of writes ----

  predicate Held(s: Store, w: Change) {
    Get(s, w.pk, w.cid) == Some(w.cell)
  }

  /** The store holds write `w`, or a write to the same cell that beats it. */
  predicate Covers(s: Store, w: Change) {
    var held := Get(s, w.pk, w.cid);
    held.Some? && (held.value == w.cell || Beats(held.value, w.cell))
  }

  ghost predicate UniqueStamps(writes: set<Change>) {
    forall a, b {:trigger SameStamp(a, b)} :: a in writes && b in writes && SameStamp(a, b) ==> a == b
  }

  predicate SameStamp(a: Change, b: Change) {
    a.pk == b.pk && a.cid == b.cid && a.cell.colVersion == b.cell.colVersion && a.cell.siteId == b.cell.siteId
  }

  /** Every cell of the store is the greatest write of `writes` to that cell, and a
      cell is present exactly when `writes` has a write to it. */
  ghost predicate Reflects(s: Store, writes: set<Change>) {
    && (forall w {:trigger Covers(s, w)} :: w in writes ==> Covers(s, w))
    && (forall w {:trigger Held(s, w)} :: Held(s, w) ==> w in writes)
  }

  ghost predicate NoEmptyRows(s: Store) {
    forall pk :: pk in s ==> s[pk] != map[]
  }

  function Elements(cs: seq<Change>): set<Change> {
    set c | c in cs
  }

  // ---- lemmas about the merge core ----

  lemma CoversIsKept(s: Store, c: Change, w: Change)
    requires Covers(s, w)
    ensures Covers(ApplyChange(s, c), w)
  {
  }

  lemma CoversIsTransitive(s: Store, c: Change, w: Change)
    requires c.pk == w.pk && c.cid == w.cid && Covers(s, c) && (c.cell == w.cell || Beats(c.cell, w.cell))
    ensures Covers(s, w)
  {
  }

  lemma ApplyReflects(s: Store, writes: set<Change>, c: Change)
    requires Reflects(s, writes) && UniqueStamps(writes + {c})
    ensures Reflects(ApplyChange(s, c), writes + {c})
  {
    var t := ApplyChange(s, c);
    forall w | w in writes + {c} ensures Covers(t, w) {
      if w in writes {
        CoversIsKept(s, c, w);
      } else if !CellWins(c.cell, Get(s, c.pk, c.cid)) {
        var held := Change(c.pk, c.cid, Get(s, c.pk, c.cid).value);
        assert Held(s, held);
        assert SameStamp(held, c) ==> held == c;
      }
    }
    forall w | Held(t, w) ensures w in writes + {c} {
      assert Held(s, w) || w == c;
    }
  }

  /** Merging any sequence of changes, in any order and with any repetition, leaves
      the greatest write of each cell. */
  lemma {:induction false} ApplyAllReflects(s: Store, writes: set<Change>, cs: seq<Change>)
    requires Reflects(s, writes) && UniqueStamps(writes + Elements(cs))
    ensures Reflects(ApplyAll(s, cs), writes + Elements(cs))
  {
    if cs == [] {
      assert writes + Elements(cs) == writes;
    } else {
      var front, last := cs[..|cs| - 1], cs[|cs| - 1];
      assert cs == front + [last];
      assert writes + Elements(cs) == (writes + Elements(front)) + {last};
      ApplyAllReflects(s, writes, front);
      ApplyReflects(ApplyAll(s, front), writes + Elements(front), last);
    }
  }

  lemma {:induction false} ApplyAllKeeps(s: Store, cs: seq<Change>)
    ensures forall w :: Covers(s, w) ==> Covers(ApplyAll(s, cs), w)
    ensures NoEmptyRows(s) ==> NoEmptyRows(ApplyAll(s, cs))
  {
    if cs != [] {
      ApplyAllKeeps(s, cs[..|cs| - 1]);
      var t := ApplyAll(s, cs[..|cs| - 1]);
      forall w | Covers(s, w) ensures Covers(ApplyAll(s, cs), w) {
        CoversIsKept(t, cs[|cs| - 1], w);
      }
    }
  }

  /** The set of writes a store reflects determines it completely. */
  lemma ReflectsDetermines(s: Store, t: Store, writes: set<Change>)
    requires Reflects(s, writes) && Reflects(t, writes)
    requires NoEmptyRows(s) && NoEmptyRows(t)
    ensures s == t
  {
    forall pk, cid ensures Get(s, pk, cid) == Get(t, pk, cid) {
      SameCell(s, t, writes, pk, cid);
    }
    SameCellsSameStore(s, t);
  }

  lemma SameCell(s: Store, t: Store, writes: set<Change>, pk: string, cid: string)
    requires Reflects(s, writes) && Reflects(t, writes)
    ensures Get(s, pk, cid) == Get(t, pk, cid)
  {
    var a, b := Get(s, pk, cid), Get(t, pk, cid);
    if a.Some? { assert Held(s, Change(pk, cid, a.value)) && Covers(t, Change(pk, cid, a.value)); }
    if b.Some? { assert Held(t, Change(pk, cid, b.value)) && Covers(s, Change(pk, cid, b.value)); }
  }

  lemma SameCellsSameStore(s: Store, t: Store)
    requires NoEmptyRows(s) && NoEmptyRows(t)
    requires forall pk, cid :: Get(s, pk, cid) == Get(t, pk, cid)
    ensures s == t
  {
    forall pk ensures Row(s, pk) == Row(t, pk) {
      forall cid ensures cid in Row(s, pk) <==> cid in Row(t, pk) {
        assert Get(s, pk, cid) == Get(t, pk, cid);
      }
      forall cid | cid in Row(s, pk) ensures Row(s, pk)[cid] == Row(t, pk)[cid] {
        assert Get(s, pk, cid) == Get(t, pk, cid);
      }
    }
    forall pk ensures pk in s <==> pk in t {
      assert Row(s, pk) == Row(t, pk);
    }
    forall pk | pk in s ensures s[pk] == t[pk] {
      assert Row(s, pk) == Row(t, pk);
    }
  }

  // ---- a replica as a value ----

  datatype State = State(
    siteId: SiteId, dbVersion: nat, store: Store, events: seq<Change>, seen: VersionVector)

  function Init(siteId: SiteId): State {
    State(siteId, 0, map[], [], map[])
  }

  function SeenOf(vv: VersionVector, s: SiteId): nat {
    if s in vv then vv[s] else 0
  }

  function Max(a: nat, b: nat): nat { if a < b then b else a }

  function Track(vv: VersionVector, s: SiteId, dbVersion: nat): VersionVector {
    vv[s := Max(SeenOf(vv, s), dbVersion)]
  }

  function NextColVersion(s: Store, pk: string, cid: string): nat {
    match Get(s, pk, cid)
    case None => 1
    case Some(c) => c.colVersion + 1
  }

  function NewChange(r: State, pk: string, cid: string, val: Val): Change {
    Change(pk, cid, Cell(val, NextColVersion(r.store, pk, cid), r.siteId, r.dbVersion + 1))
  }

  function SetOp(r: State, pk: string, cid: string, val: Val): State {
    var c := NewChange(r, pk, cid, val);
    State(r.siteId, r.dbVersion + 1, ApplyChange(r.store, c), r.events + [c],
          Track(r.seen, r.siteId, r.dbVersion + 1))
  }

  function MergeOne(r: State, c: Change): State {
    State(r.siteId, Max(r.dbVersion, c.cell.dbVersion), ApplyChange(r.store, c), r.events + [c],
          Track(r.seen, c.cell.siteId, c.cell.dbVersion))
  }

  function MergeOp(r: State, cs: seq<Change>): State {
    if cs == [] then r else MergeOne(MergeOp(r, cs[..|cs| - 1]), cs[|cs| - 1])
  }

  ghost predicate SortedByDbVersion(cs: seq<Change>) {
    forall i, j :: 0 <= i < j < |cs| ==> cs[i].cell.dbVersion <= cs[j].cell.dbVersion
  }

  /** A change is owed to a peer when it is a live cell the peer's vector has not seen. */
  predicate Owed(s: Store, peer: VersionVector, c: Change) {
    Held(s, c) && c.cell.dbVersion > SeenOf(peer, c.cell.siteId)
  }

  /** A possible answer of `changesFor`: each owed change once, by db_version. Changes
      of equal db_version may come in any order. */
  ghost predicate IsDelta(s: Store, peer: VersionVector, cs: seq<Change>) {
    && (forall c :: c in cs <==> Owed(s, peer, c))
    && (forall i, j :: 0 <= i < j < |cs| ==> cs[i] != cs[j])
    && SortedByDbVersion(cs)
  }

  /** A merge absorbs the changes into store and log in turn. */
  lemma {:induction false} MergeStore(r: State, cs: seq<Change>)
    ensures var m := MergeOp(r, cs);
      m.siteId == r.siteId && m.store == ApplyAll(r.store, cs) && m.events == r.events + cs
  {
    hide ApplyChange;
    if cs == [] {
      assert r.events + cs == r.events;
    } else {
      var front, last := cs[..|cs| - 1], cs[|cs| - 1];
      MergeStore(r, front);
      assert r.events + cs == (r.events + front) + [last];
    }
  }

  /** The clock never goes back, passes every change absorbed, and rises only to a db_version
      absorbed. */
  lemma {:induction false} MergeClock(r: State, cs: seq<Change>)
    ensures var m := MergeOp(r, cs);
      && r.dbVersion <= m.dbVersion
      && (forall c :: c in cs ==> c.cell.dbVersion <= m.dbVersion)
      && (m.dbVersion == r.dbVersion || exists c :: c in cs && c.cell.dbVersion == m.dbVersion)
  {
    hide ApplyChange, Track;
    if cs != [] {
      var front, last := cs[..|cs| - 1], cs[|cs| - 1];
      assert cs == front + [last];
      MergeClock(r, front);
      assert last in cs;
    }
  }

  /** Each vector entry never goes back, passes every change absorbed of its site, and rises
      only to a db_version of that site absorbed. */
  lemma {:induction false} MergeVector(r: State, cs: seq<Change>, s: SiteId)
    ensures var m := MergeOp(r, cs);
      && SeenOf(r.seen, s) <= SeenOf(m.seen, s)
      && (forall c :: c in cs && c.cell.siteId == s ==> c.cell.dbVersion <= SeenOf(m.seen, s))
      && (SeenOf(m.seen, s) == SeenOf(r.seen, s)
           || exists c :: c in cs && c.cell.siteId == s && c.cell.dbVersion == SeenOf(m.seen, s))
  {
    hide ApplyChange;
    if cs != [] {
      var front, last := cs[..|cs| - 1], cs[|cs| - 1];
      assert cs == front + [last];
      MergeVector(r, front, s);
      assert last in cs;
    }
  }

  /** What a merge does to the clocks: they never go back, they pass everything absorbed,
      and a raised vector entry is some absorbed change's db_version. */
  lemma MergeClocks(r: State, cs: seq<Change>)
    ensures var m := MergeOp(r, cs);
      && m.siteId == r.siteId && m.store == ApplyAll(r.store, cs) && m.events == r.events + cs
      && r.dbVersion <= m.dbVersion
      && (forall s :: SeenOf(r.seen, s) <= SeenOf(m.seen, s))
      && (forall c :: c in cs ==> c.cell.dbVersion <= m.dbVersion && c.cell.dbVersion <= SeenOf(m.seen, c.cell.siteId))
      && (m.dbVersion == r.dbVersion || exists c :: c in cs && c.cell.dbVersion == m.dbVersion)
      && (forall s :: SeenOf(m.seen, s) == SeenOf(r.seen, s)
           || exists c :: c in cs && c.cell.siteId == s && c.cell.dbVersion == SeenOf(m.seen, s))
  {
    hide MergeOp, ApplyAll, SeenOf;
    MergeStore(r, cs);
    MergeClock(r, cs);
    forall s { MergeVector(r, cs, s); }
  }

  // ---- sorting the answer of changesFor ----

  function InsertChange(c: Change, cs: seq<Change>): (r: seq<Change>)
    ensures multiset(r) == multiset(cs) + multiset{c}
  {
    if cs == [] || c.cell.dbVersion <= cs[0].cell.dbVersion then
      [c] + cs
    else
      assert cs == [cs[0]] + cs[1..];
      [cs[0]] + InsertChange(c, cs[1..])
  }

  lemma {:induction false} InsertKeepsSorted(c: Change, cs: seq<Change>)
    requires SortedByDbVersion(cs)
    ensures SortedByDbVersion(InsertChange(c, cs))
  {
    if cs != [] && c.cell.dbVersion > cs[0].cell.dbVersion {
      InsertKeepsSorted(c, cs[1..]);
      InsertedElements(c, cs[1..]);
      var rest := InsertChange(c, cs[1..]);
      forall x | x in rest ensures cs[0].cell.dbVersion <= x.cell.dbVersion {
        if x in cs[1..] {
          var i :| 0 <= i < |cs[1..]| && cs[1..][i] == x;
          assert cs[0].cell.dbVersion <= cs[i + 1].cell.dbVersion;
        }
      }
    }
  }

  lemma InsertedElements(c: Change, cs: seq<Change>)
    ensures forall x :: x in InsertChange(c, cs) <==> x in cs || x == c
  {
    forall x ensures x in InsertChange(c, cs) <==> x in cs || x == c {
      assert x in InsertChange(c, cs) <==> x in multiset(InsertChange(c, cs));
    }
  }

  function SortChanges(cs: seq<Change>): (r: seq<Change>)
    ensures SortedByDbVersion(r) && multiset(r) == multiset(cs)
  {
    if cs == [] then []
    else
      assert cs == [cs[0]] + cs[1..];
      InsertKeepsSorted(cs[0], SortChanges(cs[1..]));
      InsertChange(cs[0], SortChanges(cs[1..]))
  }

  ghost predicate Distinct(cs: seq<Change>) {
    forall i, j :: 0 <= i < j < |cs| ==> cs[i] != cs[j]
  }

  lemma {:induction false} DistinctCounts(cs: seq<Change>)
    ensures Distinct(cs) <==> forall c :: c in cs ==> multiset(cs)[c] == 1
  {
    if cs != [] {
      var front, last := cs[..|cs| - 1], cs[|cs| - 1];
      assert cs == front + [last];
      DistinctCounts(front);
      if Distinct(cs) {
        assert last !in front;
      } else if Distinct(front) {
        assert last in front && multiset(cs)[last] == multiset(front)[last] + 1;
      } else {
        var c :| c in front && multiset(front)[c] != 1;
        assert c in cs;
      }
    }
  }

  lemma SortKeepsDistinct(cs: seq<Change>)
    requires Distinct(cs)
    ensures Distinct(SortChanges(cs)) && forall c :: c in SortChanges(cs) <==> c in cs
  {
    var r := SortChanges(cs);
    forall c ensures c in r <==> c in cs {
      assert c in r <==> c in multiset(r);
    }
    DistinctCounts(cs);
    DistinctCounts(r);
  }

  // ---- the replica object ----

  class Replica {
    const siteId: SiteId
    var dbVersion: nat
    var store: Store
    var events: seq<Change>
    var seen: VersionVector

    function Value(): State
      reads this
    {
      State(siteId, dbVersion, store, events, seen)
    }

    constructor (siteId: SiteId)
      ensures Value() == Init(siteId)
    {
      this.siteId := siteId;
      dbVersion := 0;
      store := map[];
      events := [];
      seen := map[];
    }

    method TrackPeer(s: SiteId, version: nat)
      modifies this`seen
      ensures seen == Track(old(seen), s, version)
    {
      var known := if s in seen then seen[s] else 0;
      seen := seen[s := if known < version then version else known];
    }

    method GetVersionVector() returns (vv: VersionVector)
      ensures vv == seen
    {
      vv := seen;
    }

    method Set(pk: string, cid: string, val: Val) returns (change: Change)
      modifies this
      ensures Value() == SetOp(old(Value()), pk, cid, val)
      ensures change == NewChange(old(Value()), pk, cid, val)
    {
      dbVersion := dbVersion + 1;
      var row := if pk in store then store[pk] else map[];
      var colVersion := (if cid in row then row[cid].colVersion else 0) + 1;
      change := Change(pk, cid, Cell(val, colVersion, siteId, dbVersion));
      store := ApplyChange(store, change);
      TrackPeer(siteId, dbVersion);
      events := events + [change];
    }

    method Merge(changeset: seq<Change>)
      modifies this
      ensures Value() == MergeOp(old(Value()), changeset)
    {
      var merged := store;
      ghost var before := Value();
      for i := 0 to |changeset|
        invariant State(siteId, dbVersion, merged, events, seen) == MergeOp(before, changeset[..i])
      {
        var c := changeset[i];
        assert changeset[..i + 1][..i] == changeset[..i];
        merged := ApplyChange(merged, c);
        if c.cell.dbVersion > dbVersion { dbVersion := c.cell.dbVersion; }
        TrackPeer(c.cell.siteId, c.cell.dbVersion);
        events := events + [c];
      }
      assert changeset[..|changeset|] == changeset;
      store := merged;
    }

    method ChangesFor(peer: VersionVector) returns (sorted: seq<Change>)
      ensures IsDelta(store, peer, sorted)
    {
      var out: seq<Change> := [];
      var pks := store.Keys;
      while pks != {}
        invariant pks <= store.Keys
        invariant forall c :: c in out <==> c.pk !in pks && Owed(store, peer, c)
        invariant Distinct(out)
        decreases pks
      {
        var pk :| pk in pks;
        var cids := store[pk].Keys;
        while cids != {}
          invariant cids <= store[pk].Keys
          invariant forall c :: c in out <==>
            (c.pk !in pks || (c.pk == pk && c.cid !in cids)) && Owed(store, peer, c)
          invariant Distinct(out)
          decreases cids
        {
          var cid :| cid in cids;
          var c := store[pk][cid];
          var change := Change(pk, cid, c);
          ghost var before := out;
          if c.dbVersion > SeenOf(peer, c.siteId) {
            out := out + [change];
          }
          cids := cids - {cid};
          forall d ensures d in out <==>
            (d.pk !in pks || (d.pk == pk && d.cid !in cids)) && Owed(store, peer, d)
          {
            assert d in out <==> d in before || (d == change && c.dbVersion > SeenOf(peer, c.siteId));
          }
        }
        pks := pks - {pk};
      }
      SortKeepsDistinct(out);
      sorted := SortChanges(out);
    }

    method GetAttrs(pk: string) returns (attrs: map<string, Val>)
      ensures attrs == Attrs(store, pk)
    {
      var row := if pk in store then store[pk] else map[];
      attrs := map cid | cid in row :: row[cid].val;
    }
  }

  // ---- replay of event logs ----

  function Concat(logs: seq<seq<Change>>): seq<Change> {
    if logs == [] then [] else Concat(logs[..|logs| - 1]) + logs[|logs| - 1]
  }

  function AllAttrs(s: Store): map<string, map<string, Val>> {
    map pk | pk in s :: Attrs(s, pk)
  }

  /** Replays the union of the logs and keeps the winning event of each cell. */
  method ReconcileFromEvents(logs: seq<seq<Change>>) returns (out: map<string, map<string, Val>>)
    ensures out == AllAttrs(ApplyAll(map[], Concat(logs)))
  {
    var all: seq<Change> := [];
    for i := 0 to |logs|
      invariant all == Concat(logs[..i])
    {
      assert logs[..i + 1][..i] == logs[..i];
      all := all + logs[i];
    }
    assert logs[..|logs|] == logs;
    var winners: Store := map[];
    for i := 0 to |all|
      invariant winners == ApplyAll(map[], all[..i])
    {
      assert all[..i + 1][..i] == all[..i];
      var e := all[i];
      var row := if e.pk in winners then winners[e.pk] else map[];
      var cur := if e.cid in row then Some(row[e.cid]) else None;
      if CellWins(e.cell, cur) {
        winners := winners[e.pk := row[e.cid := e.cell]];
      }
    }
    assert all[..|all|] == all;
    out := map pk | pk in winners :: Attrs(winners, pk);
  }
}
