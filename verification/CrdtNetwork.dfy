/** Any number of replicas exchanging deltas over a network that may delay, repeat,
    reorder or drop them. A delta is delivered only to the replica whose version vector
    it was computed from.

    `writes` (every write ever made) and `known` (the writes in a replica's causal past)
    are bookkeeping for the statements: no step reads them to decide anything. */
module CrdtNetwork {
  import opened Options
  import opened Crdt

  datatype Request = Request(asker: SiteId, vector: VersionVector)
  datatype Delta = Delta(dest: SiteId, changes: seq<Change>, known: set<Change>)

  datatype System = System(
    replicas: map<SiteId, State>,
    requests: set<Request>,
    deltas: set<Delta>,
    writes: set<Change>,
    known: map<SiteId, set<Change>>)

  datatype Step =
    | LocalSet(site: SiteId, pk: string, cid: string, val: Val)
    | TakeVector(site: SiteId)
    | Answer(site: SiteId, request: Request, changes: seq<Change>)
    | Deliver(delta: Delta)

  function Start(sites: set<SiteId>): System {
    System(map s | s in sites :: Init(s), {}, {}, {}, map s | s in sites :: {})
  }

  ghost predicate Enabled(y: System, step: Step) {
    match step
    case LocalSet(s, _, _, _) => s in y.replicas && s in y.known
    case TakeVector(s) => s in y.replicas
    case Answer(s, q, cs) =>
      s in y.replicas && s in y.known && q in y.requests && IsDelta(y.replicas[s].store, q.vector, cs)
    case Deliver(d) => d in y.deltas && d.dest in y.replicas && d.dest in y.known
  }

  function Next(y: System, step: Step): System
    requires Enabled(y, step)
  {
    match step
    case LocalSet(s, pk, cid, val) =>
      var w := NewChange(y.replicas[s], pk, cid, val);
      y.(replicas := y.replicas[s := SetOp(y.replicas[s], pk, cid, val)],
         writes := y.writes + {w},
         known := y.known[s := y.known[s] + {w}])
    case TakeVector(s) =>
      y.(requests := y.requests + {Request(s, y.replicas[s].seen)})
    case Answer(s, q, cs) =>
      y.(deltas := y.deltas + {Delta(q.asker, cs, y.known[s])})
    case Deliver(d) =>
      y.(replicas := y.replicas[d.dest := MergeOp(y.replicas[d.dest], d.changes)],
         known := y.known[d.dest := y.known[d.dest] + d.known])
  }

  /** `z` is reached from `y` by some finite sequence of steps. */
  ghost predicate Run(y: System, steps: seq<Step>, z: System)
    decreases |steps|
  {
    if steps == [] then y == z
    else Enabled(y, steps[0]) && Run(Next(y, steps[0]), steps[1..], z)
  }

  // ---- the invariant ----

  function Clock(y: System, s: SiteId): nat {
    if s in y.replicas then y.replicas[s].dbVersion else 0
  }

  /** The central claim: a write at or below a replica's vector entry for its site is
      held by the replica, or beaten by what the replica holds. */
  ghost predicate NeverHidden(r: State, writes: set<Change>) {
    forall w {:trigger Covers(r.store, w)} ::
      w in writes && w.cell.dbVersion <= SeenOf(r.seen, w.cell.siteId) ==> Covers(r.store, w)
  }

  ghost predicate ReplicaOk(y: System, s: SiteId)
    requires s in y.replicas && s in y.known
  {
    var r := y.replicas[s];
    && r.siteId == s
    && NoEmptyRows(r.store)
    && y.known[s] <= y.writes
    && Reflects(r.store, y.known[s])
    && Elements(r.events) <= y.writes
    && Reflects(r.store, Elements(r.events))
    && NeverHidden(r, y.writes)
    && (forall c :: c in r.events ==> c.cell.dbVersion <= SeenOf(r.seen, c.cell.siteId))
    && (forall t :: SeenOf(r.seen, t) <= r.dbVersion && SeenOf(r.seen, t) <= Clock(y, t))
  }

  /** A write by `s` is within the clock of `s` and already counted in its own vector. */
  ghost predicate WriteOk(y: System, w: Change) {
    var s := w.cell.siteId;
    && s in y.replicas
    && w.cell.dbVersion <= y.replicas[s].dbVersion
    && w.cell.dbVersion <= SeenOf(y.replicas[s].seen, s)
  }

  ghost predicate RequestOk(y: System, q: Request) {
    && q.asker in y.replicas
    && forall t :: SeenOf(q.vector, t) <= SeenOf(y.replicas[q.asker].seen, t)
  }

  /** The delta would raise the receiver's vector entry to or past write `w`. */
  ghost predicate Passes(cs: seq<Change>, w: Change) {
    exists c :: c in cs && c.cell.siteId == w.cell.siteId && w.cell.dbVersion <= c.cell.dbVersion
  }

  ghost predicate Carries(cs: seq<Change>, w: Change) {
    exists c :: c in cs && c.pk == w.pk && c.cid == w.cid && (c.cell == w.cell || Beats(c.cell, w.cell))
  }

  /** Whatever a delta passes over, or its sender knew, it carries — or its receiver
      already holds as much. */
  ghost predicate DeltaOk(y: System, d: Delta) {
    && d.dest in y.replicas
    && d.known <= y.writes
    && Elements(d.changes) <= d.known
    && (forall w {:trigger Carries(d.changes, w)} :: w in y.writes && (w in d.known || Passes(d.changes, w)) ==>
          Carries(d.changes, w) || Covers(y.replicas[d.dest].store, w))
  }

  ghost predicate Inv(y: System) {
    && y.known.Keys == y.replicas.Keys
    && UniqueStamps(y.writes)
    && (forall s {:trigger ReplicaOk(y, s)} :: s in y.replicas ==> ReplicaOk(y, s))
    && (forall w {:trigger WriteOk(y, w)} :: w in y.writes ==> WriteOk(y, w))
    && (forall q {:trigger RequestOk(y, q)} :: q in y.requests ==> RequestOk(y, q))
    && (forall d {:trigger DeltaOk(y, d)} :: d in y.deltas ==> DeltaOk(y, d))
  }

  lemma StartInv(sites: set<SiteId>)
    ensures Inv(Start(sites))
  {
  }

  // ---- a local write ----

  /** Stamps are unique and respect causality: the new write beats every write to its
      cell that its replica has absorbed, its db_version exceeds every one absorbed, and
      no earlier write shares its stamp. */
  lemma NewWriteStamp(y: System, s: SiteId, pk: string, cid: string, val: Val)
    requires Inv(y) && s in y.replicas
    ensures var w := NewChange(y.replicas[s], pk, cid, val);
      && (forall v :: v in y.known[s] && v.pk == pk && v.cid == cid ==> Beats(w.cell, v.cell))
      && (forall c :: c in y.replicas[s].events ==> c.cell.dbVersion < w.cell.dbVersion)
      && (forall v :: v in y.writes && v.cell.siteId == s ==> v.cell.dbVersion < w.cell.dbVersion)
      && (forall v :: v in y.writes ==> !SameStamp(v, w))
  {
    var r := y.replicas[s];
    var w := NewChange(r, pk, cid, val);
    assert ReplicaOk(y, s);
    forall v | v in y.known[s] && v.pk == pk && v.cid == cid ensures Beats(w.cell, v.cell) {
      assert Covers(r.store, v);
    }
    forall v | v in y.writes && v.cell.siteId == s ensures v.cell.dbVersion < w.cell.dbVersion && !SameStamp(v, w) {
      assert WriteOk(y, v);
      assert Covers(r.store, v);
    }
  }

  lemma WriterOk(y: System, s: SiteId, pk: string, cid: string, val: Val)
    requires Inv(y) && s in y.replicas
    ensures ReplicaOk(Next(y, LocalSet(s, pk, cid, val)), s)
  {
    var z := Next(y, LocalSet(s, pk, cid, val));
    var r, r' := y.replicas[s], z.replicas[s];
    var w := NewChange(r, pk, cid, val);
    NewWriteStamp(y, s, pk, cid, val);
    assert ReplicaOk(y, s);
    assert Elements(r'.events) == Elements(r.events) + {w};
    ApplyReflects(r.store, y.known[s], w);
    ApplyReflects(r.store, Elements(r.events), w);
    forall v | v in z.writes && v.cell.dbVersion <= SeenOf(r'.seen, v.cell.siteId)
      ensures Covers(r'.store, v)
    {
      if v == w {
        assert Held(r'.store, w);
      } else {
        assert WriteOk(y, v);
        assert Covers(r.store, v);
        CoversIsKept(r.store, w, v);
      }
    }
    forall t ensures SeenOf(r'.seen, t) <= r'.dbVersion && SeenOf(r'.seen, t) <= Clock(z, t) {
      assert SeenOf(r.seen, t) <= r.dbVersion && SeenOf(r.seen, t) <= Clock(y, t);
    }
  }

  lemma BystanderOk(y: System, s: SiteId, pk: string, cid: string, val: Val, t: SiteId)
    requires Inv(y) && s in y.replicas && t in y.replicas && t != s
    ensures ReplicaOk(Next(y, LocalSet(s, pk, cid, val)), t)
  {
    var z := Next(y, LocalSet(s, pk, cid, val));
    assert ReplicaOk(y, t) && ReplicaOk(y, s);
    forall v | v in z.writes && v.cell.dbVersion <= SeenOf(z.replicas[t].seen, v.cell.siteId)
      ensures Covers(z.replicas[t].store, v)
    {
      assert v in y.writes;
      assert Covers(y.replicas[t].store, v);
    }
  }

  lemma SetKeepsInv(y: System, s: SiteId, pk: string, cid: string, val: Val)
    requires Inv(y) && s in y.replicas
    ensures Inv(Next(y, LocalSet(s, pk, cid, val)))
  {
    var z := Next(y, LocalSet(s, pk, cid, val));
    var w := NewChange(y.replicas[s], pk, cid, val);
    NewWriteStamp(y, s, pk, cid, val);
    assert UniqueStamps(z.writes);
    assert ReplicaOk(y, s);
    forall t | t in z.replicas ensures ReplicaOk(z, t) {
      if t == s { WriterOk(y, s, pk, cid, val); } else { BystanderOk(y, s, pk, cid, val, t); }
    }
    forall v | v in z.writes ensures WriteOk(z, v) {
      assert v in y.writes ==> WriteOk(y, v);
    }
    forall q | q in z.requests ensures RequestOk(z, q) {
      assert RequestOk(y, q);
    }
    forall d | d in z.deltas ensures DeltaOk(z, d) {
      SetKeepsDelta(y, s, pk, cid, val, d);
    }
  }

  lemma SetKeepsDelta(y: System, s: SiteId, pk: string, cid: string, val: Val, d: Delta)
    requires Inv(y) && s in y.replicas && d in y.deltas
    ensures DeltaOk(Next(y, LocalSet(s, pk, cid, val)), d)
  {
    var z := Next(y, LocalSet(s, pk, cid, val));
    var w := NewChange(y.replicas[s], pk, cid, val);
    NewWriteStamp(y, s, pk, cid, val);
    assert DeltaOk(y, d) && ReplicaOk(y, s);
    forall c | c in d.changes ensures c in y.writes { assert c in Elements(d.changes); }
    assert w !in y.writes by { assert SameStamp(w, w); }
    assert !Passes(d.changes, w);
    forall v | v in z.writes && (v in d.known || Passes(d.changes, v))
      ensures Carries(d.changes, v) || Covers(z.replicas[d.dest].store, v)
    {
      assert v in y.writes;
      if !Carries(d.changes, v) { CoversIsKept(y.replicas[d.dest].store, w, v); }
    }
  }

  // ---- computing a delta ----

  /** A delta against a vector leaves out only what the asker already holds. */
  lemma AnsweredDeltaOk(y: System, s: SiteId, q: Request, cs: seq<Change>)
    requires Inv(y) && Enabled(y, Answer(s, q, cs))
    ensures DeltaOk(y, Delta(q.asker, cs, y.known[s]))
  {
    assert ReplicaOk(y, s) && RequestOk(y, q) && ReplicaOk(y, q.asker);
    var p, asker := y.replicas[s], y.replicas[q.asker];
    forall c | c in cs ensures c in y.known[s] && c in p.events {
      assert Held(p.store, c);
      assert c in Elements(p.events);
    }
    forall w | w in y.writes && (w in y.known[s] || Passes(cs, w))
      ensures Carries(cs, w) || Covers(asker.store, w)
    {
      assert Covers(p.store, w);
      var held := Change(w.pk, w.cid, Get(p.store, w.pk, w.cid).value);
      assert Held(p.store, held);
      if held.cell.dbVersion > SeenOf(q.vector, held.cell.siteId) {
        assert Owed(p.store, q.vector, held);
      } else {
        assert Covers(asker.store, held);
        CoversIsTransitive(asker.store, held, w);
      }
    }
  }

  lemma AnswerKeepsInv(y: System, s: SiteId, q: Request, cs: seq<Change>)
    requires Inv(y) && Enabled(y, Answer(s, q, cs))
    ensures Inv(Next(y, Answer(s, q, cs)))
  {
    var z := Next(y, Answer(s, q, cs));
    AnsweredDeltaOk(y, s, q, cs);
    forall t | t in z.replicas ensures ReplicaOk(z, t) { assert ReplicaOk(y, t); }
    forall v | v in z.writes ensures WriteOk(z, v) { assert WriteOk(y, v); }
    forall q' | q' in z.requests ensures RequestOk(z, q') { assert RequestOk(y, q'); }
    forall d' | d' in z.deltas ensures DeltaOk(z, d') { assert DeltaOk(y, d'); }
  }

  // ---- delivering a delta ----

  /** After the merge the receiver holds everything it held and everything the delta's
      sender knew. */
  lemma MergeAbsorbs(y: System, d: Delta)
    requires Inv(y) && d in y.deltas
    ensures d.dest in y.replicas
    ensures var r, r' := y.replicas[d.dest], MergeOp(y.replicas[d.dest], d.changes);
      && (forall w :: Covers(r.store, w) ==> Covers(r'.store, w))
      && (forall w :: w in y.writes && (w in d.known || Passes(d.changes, w)) ==> Covers(r'.store, w))
      && Reflects(r'.store, y.known[d.dest] + d.known)
      && Reflects(r'.store, Elements(r.events) + Elements(d.changes))
      && NoEmptyRows(r'.store)
  {
    assert DeltaOk(y, d) && ReplicaOk(y, d.dest);
    var r := y.replicas[d.dest];
    var cs := d.changes;
    var t := ApplyAll(r.store, cs);
    MergeClocks(r, cs);
    ApplyAllKeeps(r.store, cs);
    ApplyAllReflects(r.store, y.known[d.dest], cs);
    ApplyAllReflects(r.store, Elements(r.events), cs);
    forall w | w in y.writes && (w in d.known || Passes(cs, w)) ensures Covers(t, w) {
      if Carries(cs, w) {
        var c :| c in cs && c.pk == w.pk && c.cid == w.cid && (c.cell == w.cell || Beats(c.cell, w.cell));
        assert c in Elements(cs);
        CoversIsTransitive(t, c, w);
      }
    }
  }

  lemma DeliveredReplicaOk(y: System, d: Delta)
    requires Inv(y) && d in y.deltas
    ensures Enabled(y, Deliver(d)) && ReplicaOk(Next(y, Deliver(d)), d.dest)
    ensures y.replicas[d.dest].dbVersion <= Next(y, Deliver(d)).replicas[d.dest].dbVersion
    ensures forall t :: SeenOf(y.replicas[d.dest].seen, t) <= SeenOf(Next(y, Deliver(d)).replicas[d.dest].seen, t)
  {
    assert DeltaOk(y, d) && ReplicaOk(y, d.dest);
    var z := Next(y, Deliver(d));
    var r, r' := y.replicas[d.dest], z.replicas[d.dest];
    var cs := d.changes;
    MergeAbsorbs(y, d);
    MergeClocks(r, cs);
    forall c | c in cs ensures c in y.writes { assert c in Elements(cs); }
    assert Elements(r'.events) == Elements(r.events) + Elements(cs);
    forall w | w in y.writes && w.cell.dbVersion <= SeenOf(r'.seen, w.cell.siteId)
      ensures Covers(r'.store, w)
    {
      if w.cell.dbVersion <= SeenOf(r.seen, w.cell.siteId) {
        assert Covers(r.store, w);
      } else {
        assert Passes(cs, w);
      }
    }
    forall t ensures SeenOf(r'.seen, t) <= r'.dbVersion && SeenOf(r'.seen, t) <= Clock(z, t) {
      if SeenOf(r'.seen, t) != SeenOf(r.seen, t) {
        var c :| c in cs && c.cell.siteId == t && c.cell.dbVersion == SeenOf(r'.seen, t);
        assert WriteOk(y, c);
      }
    }
  }

  lemma DeliverKeepsInv(y: System, d: Delta)
    requires Inv(y) && d in y.deltas
    ensures Enabled(y, Deliver(d)) && Inv(Next(y, Deliver(d)))
  {
    DeliveredReplicaOk(y, d);
    var z := Next(y, Deliver(d));
    assert DeltaOk(y, d);
    forall t | t in z.replicas ensures ReplicaOk(z, t) { assert t != d.dest ==> ReplicaOk(y, t); }
    forall v | v in z.writes ensures WriteOk(z, v) { assert WriteOk(y, v); }
    forall q | q in z.requests ensures RequestOk(z, q) { assert RequestOk(y, q); }
    forall d' | d' in z.deltas ensures DeltaOk(z, d') { OtherDeltaOk(y, d, d'); }
  }

  lemma OtherDeltaOk(y: System, d: Delta, d': Delta)
    requires Inv(y) && d in y.deltas && d' in y.deltas
    ensures Enabled(y, Deliver(d)) && DeltaOk(Next(y, Deliver(d)), d')
  {
    assert DeltaOk(y, d) && DeltaOk(y, d');
    MergeAbsorbs(y, d);
  }

  // ---- whole runs ----

  lemma NextKeepsInv(y: System, step: Step)
    requires Inv(y) && Enabled(y, step)
    ensures Inv(Next(y, step))
  {
    match step
    case LocalSet(s, pk, cid, val) => SetKeepsInv(y, s, pk, cid, val);
    case Answer(s, q, cs) => AnswerKeepsInv(y, s, q, cs);
    case Deliver(d) => DeliverKeepsInv(y, d);
    case TakeVector(s) =>
      var z := Next(y, step);
      forall t | t in z.replicas ensures ReplicaOk(z, t) { assert ReplicaOk(y, t); }
      forall v | v in z.writes ensures WriteOk(z, v) { assert WriteOk(y, v); }
      forall q | q in z.requests ensures RequestOk(z, q) { assert q in y.requests ==> RequestOk(y, q); }
      forall d | d in z.deltas ensures DeltaOk(z, d) { assert DeltaOk(y, d); }
  }

  lemma {:induction false} RunKeepsInv(y: System, steps: seq<Step>, z: System)
    requires Inv(y) && Run(y, steps, z)
    ensures Inv(z)
    decreases |steps|
  {
    if steps != [] {
      NextKeepsInv(y, steps[0]);
      RunKeepsInv(Next(y, steps[0]), steps[1..], z);
    }
  }

  ghost predicate Reachable(z: System) {
    exists sites, steps :: Run(Start(sites), steps, z)
  }

  lemma ReachableInv(z: System)
    requires Reachable(z)
    ensures Inv(z)
  {
    var sites, steps :| Run(Start(sites), steps, z);
    StartInv(sites);
    RunKeepsInv(Start(sites), steps, z);
  }

  /** Version vectors never hide a write, in any reachable state. */
  lemma VectorsNeverHideWrites(z: System, s: SiteId, w: Change)
    requires Reachable(z) && s in z.replicas && w in z.writes
    requires w.cell.dbVersion <= SeenOf(z.replicas[s].seen, w.cell.siteId)
    ensures Covers(z.replicas[s].store, w)
  {
    ReachableInv(z);
    assert ReplicaOk(z, s);
  }

  /** Two different writes of one run never share a cell and a stamp. */
  lemma StampsAreUnique(z: System, v: Change, w: Change)
    requires Reachable(z) && v in z.writes && w in z.writes && SameStamp(v, w)
    ensures v == w
  {
    ReachableInv(z);
  }

  ghost predicate WritesTo(w: Change, pk: string, cid: string) { w.pk == pk && w.cid == cid }

  /** A step that makes a write in a reachable state: the write beats everything its
      replica had absorbed on that cell, and its db_version is new to the replica. */
  lemma WritesRespectCausality(y: System, s: SiteId, pk: string, cid: string, val: Val)
    requires Reachable(y) && s in y.replicas
    ensures Enabled(y, LocalSet(s, pk, cid, val))
    ensures var w := NewChange(y.replicas[s], pk, cid, val);
      var z := Next(y, LocalSet(s, pk, cid, val));
      && w in z.writes && w !in y.writes && Get(z.replicas[s].store, pk, cid) == Some(w.cell)
      && w.pk == pk && w.cid == cid && w.cell.siteId == s && w.cell.dbVersion == y.replicas[s].dbVersion + 1
      && (if exists v :: v in y.known[s] && WritesTo(v, pk, cid)
          then exists v :: v in y.known[s] && WritesTo(v, pk, cid) && w.cell.colVersion == v.cell.colVersion + 1
          else w.cell.colVersion == 1)
      && cid in Attrs(z.replicas[s].store, pk) && Attrs(z.replicas[s].store, pk)[cid] == val
      && (forall v :: v in y.known[s] && v.pk == pk && v.cid == cid ==> Beats(w.cell, v.cell))
      && (forall c :: c in y.replicas[s].events ==> c.cell.dbVersion < w.cell.dbVersion)
  {
    ReachableInv(y);
    NewWriteStamp(y, s, pk, cid, val);
    var w := NewChange(y.replicas[s], pk, cid, val);
    assert ReplicaOk(y, s);
    assert !SameStamp(w, w) || w !in y.writes;
    var store := y.replicas[s].store;
    forall v | v in y.known[s] && WritesTo(v, pk, cid) ensures Get(store, pk, cid).Some? { assert Covers(store, v); }
    if Get(store, pk, cid).Some? {
      var held := Change(pk, cid, Get(store, pk, cid).value);
      assert Held(store, held);
      assert held in y.known[s] && WritesTo(held, pk, cid);
    }
  }

  // ---- what a vector and an entity's attributes say ----

  /** The entry is the db_version of a change of that site in the log. */
  ghost predicate Backed(r: State, t: SiteId) {
    exists c :: c in r.events && c.cell.siteId == t && c.cell.dbVersion == SeenOf(r.seen, t)
  }

  ghost predicate AllBacked(y: System) {
    forall s, t :: s in y.replicas && SeenOf(y.replicas[s].seen, t) > 0 ==> Backed(y.replicas[s], t)
  }

  lemma SetKeepsBacked(r: State, pk: string, cid: string, val: Val, t: SiteId)
    requires SeenOf(r.seen, t) > 0 ==> Backed(r, t)
    requires SeenOf(r.seen, r.siteId) <= r.dbVersion
    ensures SeenOf(SetOp(r, pk, cid, val).seen, t) > 0 ==> Backed(SetOp(r, pk, cid, val), t)
  {
    var r', c := SetOp(r, pk, cid, val), NewChange(r, pk, cid, val);
    assert r'.events[|r.events|] == c;
    assert forall d :: d in r.events ==> d in r'.events;
  }

  lemma MergeKeepsBacked(r: State, cs: seq<Change>, t: SiteId)
    requires SeenOf(r.seen, t) > 0 ==> Backed(r, t)
    ensures SeenOf(MergeOp(r, cs).seen, t) > 0 ==> Backed(MergeOp(r, cs), t)
  {
    MergeVector(r, cs, t);
    MergeStore(r, cs);
    assert forall d :: d in r.events ==> d in MergeOp(r, cs).events;
  }

  lemma NextKeepsBacked(y: System, step: Step)
    requires Inv(y) && AllBacked(y) && Enabled(y, step)
    ensures AllBacked(Next(y, step))
  {
    var z := Next(y, step);
    forall s, t | s in z.replicas && SeenOf(z.replicas[s].seen, t) > 0 ensures Backed(z.replicas[s], t) {
      match step
      case LocalSet(w, pk, cid, val) =>
        assert ReplicaOk(y, w);
        SetKeepsBacked(y.replicas[w], pk, cid, val, t);
      case Deliver(d) => MergeKeepsBacked(y.replicas[d.dest], d.changes, t);
      case _ =>
    }
  }

  lemma {:induction false} RunKeepsBacked(y: System, steps: seq<Step>, z: System)
    requires Inv(y) && AllBacked(y) && Run(y, steps, z)
    ensures AllBacked(z)
    decreases |steps|
  {
    if steps != [] {
      NextKeepsInv(y, steps[0]);
      NextKeepsBacked(y, steps[0]);
      RunKeepsBacked(Next(y, steps[0]), steps[1..], z);
    }
  }

  /** In every reachable state a version vector's entry for a site is exactly the highest
      db_version of that site in the replica's log, or zero if the log has none; the log
      counts overwritten cells too. */
  lemma VectorIsHighestAbsorbed(z: System, s: SiteId, t: SiteId)
    requires Reachable(z) && s in z.replicas
    ensures var r := z.replicas[s];
      && (forall c :: c in r.events && c.cell.siteId == t ==> c.cell.dbVersion <= SeenOf(r.seen, t))
      && (SeenOf(r.seen, t) > 0 ==> Backed(r, t))
  {
    var sites, steps :| Run(Start(sites), steps, z);
    StartInv(sites);
    RunKeepsBacked(Start(sites), steps, z);
    ReachableInv(z);
    assert ReplicaOk(z, s);
  }

  ghost predicate GreatestOf(w: Change, writes: set<Change>) {
    w in writes && forall v :: v in writes && WritesTo(v, w.pk, w.cid) ==> v == w || Beats(w.cell, v.cell)
  }

  /** In every reachable state an entity has an attribute exactly when the replica's past has
      a write to it, and its value is that of the greatest such write. */
  lemma AttrsAreGreatestWrites(z: System, s: SiteId, pk: string, cid: string)
    requires Reachable(z) && s in z.replicas
    ensures s in z.known
    ensures var attrs := Attrs(z.replicas[s].store, pk);
      && (cid in attrs <==> exists w :: w in z.known[s] && WritesTo(w, pk, cid))
      && (cid in attrs ==> exists w :: GreatestOf(w, z.known[s]) && WritesTo(w, pk, cid) && attrs[cid] == w.cell.val)
  {
    ReachableInv(z);
    assert ReplicaOk(z, s);
    var store, attrs := z.replicas[s].store, Attrs(z.replicas[s].store, pk);
    forall v | v in z.known[s] && WritesTo(v, pk, cid) ensures cid in attrs {
      assert Covers(store, v);
    }
    if cid in attrs {
      var w := Change(pk, cid, Get(store, pk, cid).value);
      assert Held(store, w);
      forall v | v in z.known[s] && WritesTo(v, pk, cid) ensures v == w || Beats(w.cell, v.cell) {
        assert Covers(store, v);
      }
      assert GreatestOf(w, z.known[s]) && WritesTo(w, pk, cid);
    }
  }

  /** Every log is append-only over every run. */
  lemma {:induction false} LogsAreAppendOnly(y: System, steps: seq<Step>, z: System, s: SiteId)
    requires Run(y, steps, z) && s in y.replicas
    ensures s in z.replicas && y.replicas[s].events <= z.replicas[s].events
    decreases |steps|
  {
    if steps != [] {
      var n := Next(y, steps[0]);
      if steps[0].Deliver? { MergeStore(y.replicas[steps[0].delta.dest], steps[0].delta.changes); }
      LogsAreAppendOnly(n, steps[1..], z, s);
    }
  }

  // ---- strong convergence ----

  /** In a reachable state a replica's store is a function of its causal past: each cell
      is the greatest write of that past, and equal pasts give equal stores. */
  lemma EqualPastsEqualStores(z: System, s: SiteId, t: SiteId)
    requires Reachable(z) && s in z.replicas && t in z.replicas
    ensures z.known.Keys == z.replicas.Keys
    ensures Reflects(z.replicas[s].store, z.known[s])
    ensures z.known[s] == z.known[t] ==> z.replicas[s].store == z.replicas[t].store
  {
    ReachableInv(z);
    assert ReplicaOk(z, s) && ReplicaOk(z, t);
    if z.known[s] == z.known[t] {
      ReflectsDetermines(z.replicas[s].store, z.replicas[t].store, z.known[s]);
    }
  }

  predicate IsWrite(step: Step) { step.LocalSet? }

  lemma {:induction false} RunWithoutWrites(y: System, steps: seq<Step>, z: System)
    requires Run(y, steps, z) && forall i :: 0 <= i < |steps| ==> !IsWrite(steps[i])
    ensures z.writes == y.writes && z.replicas.Keys == y.replicas.Keys
    decreases |steps|
  {
    if steps != [] {
      assert !IsWrite(steps[0]);
      assert Next(y, steps[0]).replicas.Keys == y.replicas.Keys;
      RunWithoutWrites(Next(y, steps[0]), steps[1..], z);
    }
  }

  /** Every write is in its own site's causal past. */
  ghost predicate OwnWritesKnown(y: System) {
    forall w :: w in y.writes ==> w.cell.siteId in y.known && w in y.known[w.cell.siteId]
  }

  lemma {:induction false} RunKeepsOwnWrites(y: System, steps: seq<Step>, z: System)
    requires Inv(y) && OwnWritesKnown(y) && Run(y, steps, z)
    ensures OwnWritesKnown(z)
    decreases |steps|
  {
    if steps != [] {
      var n := Next(y, steps[0]);
      NextKeepsInv(y, steps[0]);
      if steps[0].LocalSet? { assert ReplicaOk(y, steps[0].site); }
      assert OwnWritesKnown(n);
      RunKeepsOwnWrites(n, steps[1..], z);
    }
  }

  /** Causal pasts only grow. */
  lemma {:induction false} KnownGrows(y: System, steps: seq<Step>, z: System, s: SiteId)
    requires Run(y, steps, z) && s in y.known
    ensures s in z.known && y.known[s] <= z.known[s]
    decreases |steps|
  {
    if steps != [] { KnownGrows(Next(y, steps[0]), steps[1..], z, s); }
  }

  /** What it is to have received: `p` answers in state `a`, at or after `y`; the answer is
      delivered in some later state `b`, by then perhaps not for the first time; and from
      then on the asker's past includes what `p` had in `y`. Chained, this gives the pasts
      that reach a replica through others. */
  lemma DeliverySpreadsPast(y: System, toA: seq<Step>, a: System, p: SiteId, q: Request, cs: seq<Change>,
                            toB: seq<Step>, b: System, toZ: seq<Step>, z: System)
    requires p in y.known && Run(y, toA, a) && Enabled(a, Answer(p, q, cs))
    requires Run(Next(a, Answer(p, q, cs)), toB, b) && Enabled(b, Deliver(Delta(q.asker, cs, a.known[p])))
    requires Run(Next(b, Deliver(Delta(q.asker, cs, a.known[p]))), toZ, z)
    ensures p in y.known && q.asker in z.known && y.known[p] <= z.known[q.asker]
  {
    KnownGrows(y, toA, a, p);
    KnownGrows(Next(b, Deliver(Delta(q.asker, cs, a.known[p]))), toZ, z, q.asker);
  }

  /** The sites that have received by the end of the steps, directly or through others, what
      `sites` have at their start, when `carriers` are deltas already on their way with it:
      an answer by such a site is a carrier, and the delivery of a carrier makes its
      destination such a site. */
  ghost function Receivers(y: System, steps: seq<Step>, z: System, sites: set<SiteId>, carriers: set<Delta>)
    : set<SiteId>
    requires Run(y, steps, z)
    decreases |steps|
  {
    if steps == [] then sites
    else
      var n := Next(y, steps[0]);
      match steps[0]
      case Answer(s, q, cs) =>
        var more := if s in sites then {Delta(q.asker, cs, y.known[s])} else {};
        Receivers(n, steps[1..], z, sites, carriers + more)
      case Deliver(d) => Receivers(n, steps[1..], z, sites + (if d in carriers then {d.dest} else {}), carriers)
      case _ => Receivers(n, steps[1..], z, sites, carriers)
  }

  /** Every receiver's past includes what was passed on. */
  lemma {:induction false} ReceiversKnow(y: System, steps: seq<Step>, z: System, sites: set<SiteId>,
                                         carriers: set<Delta>, past: set<Change>)
    requires Run(y, steps, z)
    requires forall s :: s in sites ==> s in y.known && past <= y.known[s]
    requires forall d :: d in carriers ==> past <= d.known
    ensures forall s :: s in Receivers(y, steps, z, sites, carriers) ==> s in z.known && past <= z.known[s]
    decreases |steps|
  {
    if steps != [] {
      var n := Next(y, steps[0]);
      forall s | s in sites ensures s in n.known && past <= n.known[s] { KnownGrows(y, [steps[0]], n, s); }
      match steps[0]
      case Answer(s, q, cs) =>
        var more := if s in sites then {Delta(q.asker, cs, y.known[s])} else {};
        ReceiversKnow(n, steps[1..], z, sites, carriers + more, past);
      case Deliver(d) =>
        ReceiversKnow(n, steps[1..], z, sites + (if d in carriers then {d.dest} else {}), carriers, past);
      case _ => ReceiversKnow(n, steps[1..], z, sites, carriers, past);
    }
  }

  /** Strong convergence. `y` is any reachable state, `z` any state reached from it
      without further writes, by whatever deliveries. If by a chain of answers and deliveries
      in between every replica has received, directly or through others, what every replica
      had in `y`, all stores are equal and every cell is the greatest write ever made to it. */
  lemma StrongConvergence(y: System, steps: seq<Step>, z: System)
    requires Reachable(y) && Run(y, steps, z)
    requires forall i :: 0 <= i < |steps| ==> !IsWrite(steps[i])
    requires forall p, r :: p in y.replicas && r in z.replicas ==> r in Receivers(y, steps, z, {p}, {})
    ensures forall r :: r in z.replicas ==> Reflects(z.replicas[r].store, z.writes)
    ensures forall r, t :: r in z.replicas && t in z.replicas ==> z.replicas[r].store == z.replicas[t].store
  {
    ReachableInv(y);
    RunKeepsInv(y, steps, z);
    forall p, r | p in y.known && r in z.known ensures y.known[p] <= z.known[r] {
      ReceiversKnow(y, steps, z, {p}, {}, y.known[p]);
      assert r in Receivers(y, steps, z, {p}, {});
    }
    EqualKnowledgeConverges(y, steps, z);
  }

  /** The same when every replica's past includes every past of `y`. */
  lemma EqualKnowledgeConverges(y: System, steps: seq<Step>, z: System)
    requires Reachable(y) && Run(y, steps, z)
    requires forall i :: 0 <= i < |steps| ==> !IsWrite(steps[i])
    requires forall p, r :: p in y.known && r in z.known ==> y.known[p] <= z.known[r]
    ensures forall r :: r in z.replicas ==> Reflects(z.replicas[r].store, z.writes)
    ensures forall r, t :: r in z.replicas && t in z.replicas ==> z.replicas[r].store == z.replicas[t].store
  {
    ReachableInv(y);
    RunKeepsInv(y, steps, z);
    forall r | r in z.replicas ensures z.known[r] == z.writes && Reflects(z.replicas[r].store, z.writes) {
      AllKnown(y, steps, z, r);
      assert ReplicaOk(z, r);
    }
    forall r, t | r in z.replicas && t in z.replicas
      ensures z.replicas[r].store == z.replicas[t].store
    {
      assert ReplicaOk(z, r) && ReplicaOk(z, t);
      ReflectsDetermines(z.replicas[r].store, z.replicas[t].store, z.writes);
    }
  }

  lemma AllKnown(y: System, steps: seq<Step>, z: System, r: SiteId)
    requires Reachable(y) && Run(y, steps, z) && Inv(z) && r in z.replicas
    requires forall i :: 0 <= i < |steps| ==> !IsWrite(steps[i])
    requires forall p :: p in y.known ==> y.known[p] <= z.known[r]
    ensures z.known[r] == z.writes
  {
    var sites, before :| Run(Start(sites), before, y);
    StartInv(sites);
    RunKeepsOwnWrites(Start(sites), before, y);
    RunWithoutWrites(y, steps, z);
    assert ReplicaOk(z, r);
    forall w | w in z.writes ensures w in z.known[r] {
      assert w in y.known[w.cell.siteId];
    }
  }

  // ---- a delta is as good as the full state ----

  /** Merging any delta computed from the receiver's own vector gives exactly the
      cell-by-cell join of the two old stores. */
  lemma DeltaMergeIsJoin(z: System, r: SiteId, p: SiteId, cs: seq<Change>, pk: string, cid: string)
    requires Reachable(z) && r in z.replicas && p in z.replicas
    requires IsDelta(z.replicas[p].store, z.replicas[r].seen, cs)
    ensures Get(MergeOp(z.replicas[r], cs).store, pk, cid)
         == JoinCell(Get(z.replicas[r].store, pk, cid), Get(z.replicas[p].store, pk, cid))
  {
    ReachableInv(z);
    assert ReplicaOk(z, r) && ReplicaOk(z, p);
    var y1 := Next(z, TakeVector(r));
    NextKeepsInv(z, TakeVector(r));
    var q := Request(r, z.replicas[r].seen);
    AnswerKeepsInv(y1, p, q, cs);
    var y2 := Next(y1, Answer(p, q, cs));
    var d := Delta(r, cs, z.known[p]);
    MergeAbsorbs(y2, d);
    JoinIsGreatest(z.replicas[r].store, z.replicas[p].store, MergeOp(z.replicas[r], cs).store,
                   z.known[r], z.known[p], pk, cid);
  }

  lemma JoinIsGreatest(s: Store, t: Store, u: Store, a: set<Change>, b: set<Change>, pk: string, cid: string)
    requires Reflects(s, a) && Reflects(t, b) && Reflects(u, a + b) && UniqueStamps(a + b)
    ensures Get(u, pk, cid) == JoinCell(Get(s, pk, cid), Get(t, pk, cid))
  {
    var x, y, v := Get(s, pk, cid), Get(t, pk, cid), Get(u, pk, cid);
    if x.Some? { assert Held(s, Change(pk, cid, x.value)) && Covers(u, Change(pk, cid, x.value)); }
    if y.Some? { assert Held(t, Change(pk, cid, y.value)) && Covers(u, Change(pk, cid, y.value)); }
    if v.Some? {
      var w := Change(pk, cid, v.value);
      assert Held(u, w) && (w in a ==> Covers(s, w)) && (w in b ==> Covers(t, w));
      if x.Some? { assert SameStamp(w, Change(pk, cid, x.value)) ==> v == x; }
      if y.Some? { assert SameStamp(w, Change(pk, cid, y.value)) ==> v == y; }
      if x.Some? && y.Some? { assert SameStamp(Change(pk, cid, x.value), Change(pk, cid, y.value)) ==> x == y; }
    }
  }

  /** Two replicas that exchange deltas computed before either merges end with equal
      stores, hence with equal `attrs` of every entity. */
  lemma ExchangeConverges(z: System, r: SiteId, p: SiteId, toR: seq<Change>, toP: seq<Change>)
    requires Reachable(z) && r in z.replicas && p in z.replicas
    requires IsDelta(z.replicas[p].store, z.replicas[r].seen, toR)
    requires IsDelta(z.replicas[r].store, z.replicas[p].seen, toP)
    ensures MergeOp(z.replicas[r], toR).store == MergeOp(z.replicas[p], toP).store
    ensures forall pk :: Attrs(MergeOp(z.replicas[r], toR).store, pk) == Attrs(MergeOp(z.replicas[p], toP).store, pk)
  {
    ReachableInv(z);
    assert ReplicaOk(z, r) && ReplicaOk(z, p);
    var R, P := z.replicas[r], z.replicas[p];
    var a, b := MergeOp(R, toR).store, MergeOp(P, toP).store;
    forall pk, cid ensures Get(a, pk, cid) == Get(b, pk, cid) {
      DeltaMergeIsJoin(z, r, p, toR, pk, cid);
      DeltaMergeIsJoin(z, p, r, toP, pk, cid);
      JoinCommutes(z, R.store, P.store, z.known[r], z.known[p], pk, cid);
    }
    MergeClocks(R, toR);
    MergeClocks(P, toP);
    ApplyAllKeeps(R.store, toR);
    ApplyAllKeeps(P.store, toP);
    SameCellsSameStore(a, b);
  }

  lemma JoinCommutes(z: System, s: Store, t: Store, a: set<Change>, b: set<Change>, pk: string, cid: string)
    requires Reflects(s, a) && Reflects(t, b) && UniqueStamps(z.writes) && a <= z.writes && b <= z.writes
    ensures JoinCell(Get(s, pk, cid), Get(t, pk, cid)) == JoinCell(Get(t, pk, cid), Get(s, pk, cid))
  {
    var x, y := Get(s, pk, cid), Get(t, pk, cid);
    if x.Some? && y.Some? {
      assert Held(s, Change(pk, cid, x.value)) && Held(t, Change(pk, cid, y.value));
      assert SameStamp(Change(pk, cid, x.value), Change(pk, cid, y.value)) ==> x == y;
    }
  }

  // ---- version vectors need not become equal ----

  /** The vector entry a live cell of site `s` vouches for. */
  ghost predicate HoldsLive(s: Store, site: SiteId, dbVersion: nat) {
    exists c :: Held(s, c) && c.cell.siteId == site && c.cell.dbVersion == dbVersion
  }

  lemma VectorAfterMerge(z: System, r: SiteId, p: SiteId, cs: seq<Change>, t: SiteId)
    requires Inv(z) && r in z.replicas && p in z.replicas
    requires IsDelta(z.replicas[p].store, z.replicas[r].seen, cs)
    ensures var was, now := SeenOf(z.replicas[r].seen, t), SeenOf(MergeOp(z.replicas[r], cs).seen, t);
      && was <= now && now <= Max(was, SeenOf(z.replicas[p].seen, t))
      && (was < SeenOf(z.replicas[p].seen, t) ==>
           (now == SeenOf(z.replicas[p].seen, t) <==> HoldsLive(z.replicas[p].store, t, SeenOf(z.replicas[p].seen, t))))
  {
    var R, P := z.replicas[r], z.replicas[p];
    assert ReplicaOk(z, p);
    MergeClocks(R, cs);
    var was, top := SeenOf(R.seen, t), SeenOf(P.seen, t);
    forall c | c in cs ensures c.cell.dbVersion <= SeenOf(P.seen, c.cell.siteId) {
      assert Held(P.store, c);
      assert c in P.events;
    }
    if was < top && HoldsLive(P.store, t, top) {
      var c :| Held(P.store, c) && c.cell.siteId == t && c.cell.dbVersion == top;
      assert Owed(P.store, R.seen, c);
    }
  }

  /** After an exchange the two vectors agree exactly when, for every site on which one
      side was ahead, that side still held a live cell of the site's newest write it had
      seen. An overwritten cell's db_version is never sent. */
  lemma VectorsAgreeIff(z: System, r: SiteId, p: SiteId, toR: seq<Change>, toP: seq<Change>)
    requires Reachable(z) && r in z.replicas && p in z.replicas
    requires IsDelta(z.replicas[p].store, z.replicas[r].seen, toR)
    requires IsDelta(z.replicas[r].store, z.replicas[p].seen, toP)
    ensures var R, P := z.replicas[r], z.replicas[p];
      (forall t :: SeenOf(MergeOp(R, toR).seen, t) == SeenOf(MergeOp(P, toP).seen, t))
      <==>
      (forall t ::
        && (SeenOf(R.seen, t) < SeenOf(P.seen, t) ==> HoldsLive(P.store, t, SeenOf(P.seen, t)))
        && (SeenOf(P.seen, t) < SeenOf(R.seen, t) ==> HoldsLive(R.store, t, SeenOf(R.seen, t))))
  {
    ReachableInv(z);
    var R, P := z.replicas[r], z.replicas[p];
    forall t ensures SeenOf(MergeOp(R, toR).seen, t) == SeenOf(MergeOp(P, toP).seen, t)
      <==> && (SeenOf(R.seen, t) < SeenOf(P.seen, t) ==> HoldsLive(P.store, t, SeenOf(P.seen, t)))
           && (SeenOf(P.seen, t) < SeenOf(R.seen, t) ==> HoldsLive(R.store, t, SeenOf(R.seen, t)))
    {
      VectorAfterMerge(z, r, p, toR, t);
      VectorAfterMerge(z, p, r, toP, t);
    }
  }

  lemma {:induction false} RunAppend(y: System, steps: seq<Step>, z: System, step: Step)
    requires Run(y, steps, z) && Enabled(z, step)
    ensures Run(y, steps + [step], Next(z, step))
    decreases |steps|
  {
    if steps == [] {
      assert Run(Next(y, step), [], Next(z, step));
      assert (steps + [step])[1..] == [];
    } else {
      RunAppend(Next(y, steps[0]), steps[1..], z, step);
      assert (steps + [step])[1..] == steps[1..] + [step];
    }
  }

  lemma ReachableNext(z: System, step: Step)
    requires Reachable(z) && Enabled(z, step)
    ensures Reachable(Next(z, step))
  {
    var sites, steps :| Run(Start(sites), steps, z);
    RunAppend(Start(sites), steps, z, step);
  }

  lemma FirstWrite(s: SiteId, pk: string, cid: string, val: Val)
    ensures SetOp(Init(s), pk, cid, val)
         == State(s, 1, map[pk := map[cid := Cell(val, 1, s, 1)]], [Change(pk, cid, Cell(val, 1, s, 1))], map[s := 1])
  {
  }

  lemma Wrote(y: System, s: SiteId, pk: string, cid: string, val: Val) returns (z: System)
    requires Reachable(y) && s in y.replicas && s in y.known
    ensures Reachable(z) && z.known.Keys == y.known.Keys
    ensures z.replicas == y.replicas[s := SetOp(y.replicas[s], pk, cid, val)]
  {
    ReachableNext(y, LocalSet(s, pk, cid, val));
    z := Next(y, LocalSet(s, pk, cid, val));
  }

  lemma Pull(y: System, r: SiteId, p: SiteId, cs: seq<Change>) returns (z: System)
    requires Reachable(y) && {r, p} <= y.replicas.Keys && y.known.Keys == y.replicas.Keys
    requires IsDelta(y.replicas[p].store, y.replicas[r].seen, cs)
    ensures Reachable(z) && z.replicas == y.replicas[r := MergeOp(y.replicas[r], cs)]
  {
    var q := Request(r, y.replicas[r].seen);
    var d := Delta(r, cs, y.known[p]);
    ReachableNext(y, TakeVector(r));
    var y1 := Next(y, TakeVector(r));
    ReachableNext(y1, Answer(p, q, cs));
    var y2 := Next(y1, Answer(p, q, cs));
    ReachableNext(y2, Deliver(d));
    z := Next(y2, Deliver(d));
  }

  lemma LoserAdopts(one: State, w: Change, a: Val, b: Val)
    requires one.store == map[w.pk := map[w.cid := Cell(a, 1, 1, 1)]] && one.seen == map[1 := 1]
    requires w.cell == Cell(b, 1, 2, 1)
    ensures MergeOp(one, [w]).store == map[w.pk := map[w.cid := w.cell]]
    ensures MergeOp(one, [w]).seen == map[1 := 1, 2 := 1]
  {
    assert [w][..0] == [];
    assert MergeOp(one, [w]) == MergeOne(one, w);
    var row := Row(one.store, w.pk);
    assert row[w.cid := w.cell] == map[w.cid := w.cell];
    assert one.store[w.pk := row[w.cid := w.cell]] == map[w.pk := map[w.cid := w.cell]];
  }

  lemma DeltaOfOneCell(s: Store, w: Change, vv: VersionVector)
    requires s == map[w.pk := map[w.cid := w.cell]]
    ensures IsDelta(s, vv, if w.cell.dbVersion > SeenOf(vv, w.cell.siteId) then [w] else [])
  {
    forall c ensures Held(s, c) <==> c == w {
      assert c == Change(c.pk, c.cid, c.cell);
    }
  }

  lemma StartReachable(sites: set<SiteId>)
    ensures Reachable(Start(sites))
  {
    assert Run(Start(sites), [], Start(sites));
  }

  lemma TwoWriters(pk: string, cid: string, a: Val, b: Val) returns (y: System)
    ensures Reachable(y) && y.known.Keys == {1, 2} && y.replicas.Keys == {1, 2}
    ensures y.replicas[1].store == map[pk := map[cid := Cell(a, 1, 1, 1)]] && y.replicas[1].seen == map[1 := 1]
    ensures y.replicas[2].store == map[pk := map[cid := Cell(b, 1, 2, 1)]] && y.replicas[2].seen == map[2 := 1]
  {
    hide Reachable, SetOp;
    var x := Start({1, 2});
    StartReachable({1, 2});
    FirstWrite(1, pk, cid, a);
    FirstWrite(2, pk, cid, b);
    var m := Wrote(x, 1, pk, cid, a);
    assert m.replicas[2] == Init(2);
    y := Wrote(m, 2, pk, cid, b);
  }

  /** A run after which a full sync leaves equal stores and unequal vectors: sites 1 and 2
      write one cell concurrently, 1 pulls from 2, and then neither owes the other anything. */
  lemma VectorsMayDiffer(pk: string, cid: string, a: Val, b: Val) returns (z: System)
    ensures Reachable(z) && 1 in z.replicas && 2 in z.replicas
    ensures z.replicas[1].store == z.replicas[2].store
    ensures IsDelta(z.replicas[1].store, z.replicas[2].seen, [])
    ensures IsDelta(z.replicas[2].store, z.replicas[1].seen, [])
    ensures SeenOf(z.replicas[1].seen, 1) != SeenOf(z.replicas[2].seen, 1)
  {
    var y := TwoWriters(pk, cid, a, b);
    var w := Change(pk, cid, Cell(b, 1, 2, 1));
    var one, two := y.replicas[1], y.replicas[2];
    DeltaOfOneCell(two.store, w, one.seen);
    z := Pull(y, 1, 2, [w]);
    LoserAdopts(one, w, a, b);
    DeltaOfOneCell(two.store, w, two.seen);
    DeltaOfOneCell(two.store, w, z.replicas[1].seen);
  }

  // ---- the event log is the state ----

  ghost predicate FromLogs(z: System, logs: seq<seq<Change>>, sites: seq<SiteId>) {
    && |logs| == |sites|
    && (forall i :: 0 <= i < |sites| ==> sites[i] in z.replicas && logs[i] == z.replicas[sites[i]].events)
  }

  /** Replaying any list of writes, in any order and with any repetition, depends only on
      which writes occur, and leaves the greatest of each cell. */
  lemma ReplayReflects(z: System, all: seq<Change>)
    requires Inv(z) && Elements(all) <= z.writes
    ensures Reflects(ApplyAll(map[], all), Elements(all)) && NoEmptyRows(ApplyAll(map[], all))
  {
    var none: set<Change> := {};
    assert none + Elements(all) == Elements(all);
    ApplyAllReflects(map[], none, all);
    ApplyAllKeeps(map[], all);
  }

  /** Replaying one replica's own log rebuilds its store. */
  lemma OwnLogRebuildsStore(z: System, s: SiteId)
    requires Reachable(z) && s in z.replicas
    ensures ApplyAll(map[], Concat([z.replicas[s].events])) == z.replicas[s].store
  {
    ReachableInv(z);
    assert ReplicaOk(z, s);
    var r := z.replicas[s];
    var logs := [r.events];
    assert logs[..0] == [] && Concat(logs[..0]) == [];
    assert Concat(logs) == [] + r.events == r.events;
    ReplayReflects(z, r.events);
    ReflectsDetermines(ApplyAll(map[], r.events), r.store, Elements(r.events));
  }

  function JoinAll(z: System, sites: seq<SiteId>, pk: string, cid: string): Option<Cell>
    requires forall i :: 0 <= i < |sites| ==> sites[i] in z.replicas
  {
    if sites == [] then None
    else JoinCell(JoinAll(z, sites[..|sites| - 1], pk, cid),
                  Get(z.replicas[sites[|sites| - 1]].store, pk, cid))
  }

  lemma {:induction false} JoinAllIsGreatest(z: System, logs: seq<seq<Change>>, sites: seq<SiteId>,
                                             pk: string, cid: string)
    requires Inv(z) && FromLogs(z, logs, sites)
    ensures Elements(Concat(logs)) <= z.writes
    ensures Get(ApplyAll(map[], Concat(logs)), pk, cid) == JoinAll(z, sites, pk, cid)
    decreases |logs|
  {
    if logs != [] {
      var n := |logs| - 1;
      assert ReplicaOk(z, sites[n]);
      JoinAllIsGreatest(z, logs[..n], sites[..n], pk, cid);
      var front, last := Concat(logs[..n]), logs[n];
      assert Elements(Concat(logs)) == Elements(front) + Elements(last);
      ReplayReflects(z, front);
      ReplayReflects(z, Concat(logs));
      JoinIsGreatest(ApplyAll(map[], front), z.replicas[sites[n]].store, ApplyAll(map[], Concat(logs)),
                     Elements(front), Elements(last), pk, cid);
    }
  }

  /** The union of any replicas' logs, in any order, replays to the join of their
      stores, whether or not they have synced. */
  lemma LogsReplayToJoin(z: System, logs: seq<seq<Change>>, sites: seq<SiteId>, pk: string, cid: string)
    requires Reachable(z) && FromLogs(z, logs, sites)
    ensures Get(ApplyAll(map[], Concat(logs)), pk, cid) == JoinAll(z, sites, pk, cid)
  {
    ReachableInv(z);
    JoinAllIsGreatest(z, logs, sites, pk, cid);
  }

  /** The replay of one replica's own log answers with the replica's attributes, for exactly
      the entities it holds. */
  lemma OwnLogGivesAttrs(z: System, s: SiteId)
    requires Reachable(z) && s in z.replicas
    ensures var out, store := AllAttrs(ApplyAll(map[], Concat([z.replicas[s].events]))), z.replicas[s].store;
      && (forall pk :: pk in out <==> pk in store)
      && (forall pk :: pk in store ==> out[pk] == Attrs(store, pk))
  {
    OwnLogRebuildsStore(z, s);
  }

  /** The replay of any replicas' logs has an attribute exactly where the join of their stores
      has a cell, with that cell's value. */
  lemma LogsGiveJoinedAttrs(z: System, logs: seq<seq<Change>>, sites: seq<SiteId>, pk: string, cid: string)
    requires Reachable(z) && FromLogs(z, logs, sites)
    ensures var out, joined := AllAttrs(ApplyAll(map[], Concat(logs))), JoinAll(z, sites, pk, cid);
      && (pk in out && cid in out[pk] <==> joined.Some?)
      && (joined.Some? ==> out[pk][cid] == joined.value.val)
  {
    LogsReplayToJoin(z, logs, sites, pk, cid);
  }

  /** Any reordering or repetition of the events of a replay leaves the result alone. */
  lemma ReplayOrderIsIrrelevant(z: System, a: seq<Change>, b: seq<Change>)
    requires Reachable(z) && Elements(a) <= z.writes && Elements(a) == Elements(b)
    ensures ApplyAll(map[], a) == ApplyAll(map[], b)
  {
    ReachableInv(z);
    ReplayReflects(z, a);
    ReplayReflects(z, b);
    ReflectsDetermines(ApplyAll(map[], a), ApplyAll(map[], b), Elements(a));
  }
}
