/** The vector index and the two-layer completion cache: two tables that share row ids
    (`entity_vec` and `entity_vec_meta`) and the `llm_cache` table. The SQL engine picks a
    fresh row id for an inserted vector and answers nearest-neighbour queries; embedding
    and distance are parameters. A process may die between two commits. */
module MemVec {
  import opened Options

  type Blob = seq<int>

  datatype Meta = Meta(id: string, workspace: string)
  datatype CacheRow = CacheRow(
    workspace: string, model: Option<string>, prompt: string, completion: string, createdAt: int)
  datatype Db = Db(vec: map<int, Blob>, meta: map<int, Meta>, cache: map<string, CacheRow>)

  const CACHE_PREFIX := "llmcache:"
  const CACHE_QUERY_K := 5

  function CacheId(key: string): string { CACHE_PREFIX + key }

  predicate IsCacheId(id: string) { CACHE_PREFIX <= id }

  function CacheKey(id: string): (key: string)
    requires IsCacheId(id)
    ensures CacheId(key) == id
  {
    id[|CACHE_PREFIX|..]
  }

  lemma CacheIdsDiffer(a: string, b: string)
    ensures IsCacheId(CacheId(a)) && (CacheId(a) == CacheId(b) <==> a == b)
  {
    assert CacheId(a)[|CACHE_PREFIX|..] == a && CacheId(b)[|CACHE_PREFIX|..] == b;
  }

  // ---- the index as two tables, and as one map from ids ----

  ghost predicate UniqueIds(meta: map<int, Meta>) {
    forall r, q :: r in meta && q in meta && meta[r].id == meta[q].id ==> r == q
  }

  /** The tables pair up row by row, and no id is stored twice. */
  ghost predicate Tables(db: Db) {
    db.vec.Keys == db.meta.Keys && UniqueIds(db.meta)
  }

  ghost function RowOf(meta: map<int, Meta>, id: string): (row: Option<int>)
    ensures row.Some? ==> row.value in meta && meta[row.value].id == id
    ensures row.None? ==> forall r :: r in meta ==> meta[r].id != id
  {
    if r: int :| r in meta && meta[r].id == id then Some(r) else None
  }

  datatype Entry = Entry(blob: Blob, workspace: string)

  /** What the index holds under an id. */
  ghost function At(db: Db, id: string): Option<Entry>
    requires Tables(db)
  {
    match RowOf(db.meta, id)
    case None => None
    case Some(r) => Some(Entry(db.vec[r], db.meta[r].workspace))
  }

  /** The engine gives a new vector a row id that no vector has. */
  ghost predicate Fits(db: Db, id: string, rowid: int) {
    RowOf(db.meta, id).None? ==> rowid !in db.vec
  }

  ghost function Upserted(db: Db, workspace: string, id: string, blob: Blob, rowid: int): Db {
    match RowOf(db.meta, id)
    case Some(r) =>
      db.(vec := if r in db.vec then db.vec[r := blob] else db.vec, meta := db.meta[r := Meta(id, workspace)])
    case None =>
      db.(vec := db.vec[rowid := blob], meta := db.meta[rowid := Meta(id, workspace)])
  }

  /** On the pair of tables an upsert is the update of one entry of a map; no row is
      orphaned, duplicated or overwritten. */
  lemma UpsertSetsOneEntry(db: Db, workspace: string, id: string, blob: Blob, rowid: int)
    requires Tables(db) && Fits(db, id, rowid)
    ensures var after := Upserted(db, workspace, id, blob, rowid);
      && Tables(after) && after.cache == db.cache
      && At(after, id) == Some(Entry(blob, workspace))
      && forall other :: other != id ==> At(after, other) == At(db, other)
  {
    var after := Upserted(db, workspace, id, blob, rowid);
    var row := match RowOf(db.meta, id) case Some(r) => r case None => rowid;
    assert after.meta == db.meta[row := Meta(id, workspace)] && after.vec == db.vec[row := blob];
    assert row in after.meta && after.meta[row].id == id;
    forall other | other != id ensures At(after, other) == At(db, other) {
      if RowOf(db.meta, other).Some? {
        assert RowOf(db.meta, other).value in after.meta;
      }
    }
  }

  // ---- runs ----

  datatype Item = Item(workspace: string, id: string, text: string, rowid: int)

  /** A put commits its cache row, and then its vector if the process lives on; a rebuild
      clears the index and embeds rows until it is done or dies. */
  datatype Step =
    | Put(key: string, row: CacheRow, rowid: int, indexed: bool)
    | Embed(item: Item)
    | Rebuild(items: seq<Item>)

  type Embedder = string -> Blob

  ghost function Indexed(e: Embedder, db: Db, item: Item): Db {
    Upserted(db, item.workspace, item.id, e(item.text), item.rowid)
  }

  ghost function IndexedAll(e: Embedder, db: Db, items: seq<Item>): Db {
    if items == [] then db
    else Indexed(e, IndexedAll(e, db, items[..|items| - 1]), items[|items| - 1])
  }

  ghost predicate AllFit(e: Embedder, db: Db, items: seq<Item>) {
    items == [] ||
    (AllFit(e, db, items[..|items| - 1]) &&
     Fits(IndexedAll(e, db, items[..|items| - 1]), items[|items| - 1].id, items[|items| - 1].rowid))
  }

  function PutItem(p: Step): Item
    requires p.Put?
  {
    Item(p.row.workspace, CacheId(p.key), p.row.prompt, p.rowid)
  }

  ghost function Apply(e: Embedder, db: Db, step: Step): Db {
    match step
    case Put(key, row, _, indexed) =>
      var stored := db.(cache := db.cache[key := row]);
      if indexed then Indexed(e, stored, PutItem(step)) else stored
    case Embed(item) => Indexed(e, db, item)
    case Rebuild(items) => IndexedAll(e, Db(map[], map[], db.cache), items)
  }

  ghost predicate StepFits(e: Embedder, db: Db, step: Step) {
    match step
    case Put(_, _, rowid, indexed) => indexed ==> Fits(db, PutItem(step).id, rowid)
    case Embed(item) => Fits(db, item.id, item.rowid)
    case Rebuild(items) => AllFit(e, Db(map[], map[], db.cache), items)
  }

  /** The database after the steps, from empty tables. */
  ghost function After(e: Embedder, steps: seq<Step>): Db {
    if steps == [] then Db(map[], map[], map[])
    else Apply(e, After(e, steps[..|steps| - 1]), steps[|steps| - 1])
  }

  ghost predicate Run(e: Embedder, steps: seq<Step>) {
    steps == [] || (Run(e, steps[..|steps| - 1]) && StepFits(e, After(e, steps[..|steps| - 1]), steps[|steps| - 1]))
  }

  /** The row of the latest put of a key. */
  function LastPut(steps: seq<Step>, key: string): Option<CacheRow> {
    if steps == [] then None
    else
      var last := steps[|steps| - 1];
      if last.Put? && last.key == key then Some(last.row) else LastPut(steps[..|steps| - 1], key)
  }

  /** The row of the latest put of a key whose vector was stored and not cleared since. */
  function LastIndexed(steps: seq<Step>, key: string): Option<CacheRow> {
    if steps == [] then None
    else
      var last := steps[|steps| - 1];
      if last.Put? && last.key == key && last.indexed then Some(last.row)
      else if last.Rebuild? then None
      else LastIndexed(steps[..|steps| - 1], key)
  }

  /** Only puts use ids with the cache prefix. */
  predicate NoForeignId(step: Step) {
    match step
    case Put(_, _, _, _) => true
    case Embed(item) => !IsCacheId(item.id)
    case Rebuild(items) => forall i :: 0 <= i < |items| ==> !IsCacheId(items[i].id)
  }

  predicate NoForeignIds(steps: seq<Step>) {
    forall i :: 0 <= i < |steps| ==> NoForeignId(steps[i])
  }

  /** What was last stored under an id. */
  datatype Stored = Stored(text: string, workspace: string)

  function LastItem(items: seq<Item>, id: string): Option<Stored> {
    if items == [] then None
    else
      var last := items[|items| - 1];
      if last.id == id then Some(Stored(last.text, last.workspace)) else LastItem(items[..|items| - 1], id)
  }

  /** The text and workspace last stored under an id by an indexed put, an embed or a row of
      a rebuild, if no rebuild has cleared it since. */
  function LastStored(steps: seq<Step>, id: string): Option<Stored> {
    if steps == [] then None
    else
      var earlier := LastStored(steps[..|steps| - 1], id);
      match steps[|steps| - 1]
      case Put(key, row, _, indexed) =>
        if indexed && CacheId(key) == id then Some(Stored(row.prompt, row.workspace)) else earlier
      case Embed(item) => if item.id == id then Some(Stored(item.text, item.workspace)) else earlier
      case Rebuild(items) => LastItem(items, id)
  }

  ghost function EntryOf(e: Embedder, stored: Option<Stored>): Option<Entry> {
    match stored case None => None case Some(x) => Some(Entry(e(x.text), x.workspace))
  }

  /** Embedding rows one after the other: the tables stay paired, the cache is left alone,
      and each id holds the last row given for it, or what it held before. */
  lemma {:induction false} RebuildIndexesEveryRow(e: Embedder, db: Db, items: seq<Item>)
    requires Tables(db) && AllFit(e, db, items)
    ensures Tables(IndexedAll(e, db, items)) && IndexedAll(e, db, items).cache == db.cache
    ensures forall id ::
      At(IndexedAll(e, db, items), id)
      == if LastItem(items, id).Some? then EntryOf(e, LastItem(items, id)) else At(db, id)
  {
    if items != [] {
      var front, last := items[..|items| - 1], items[|items| - 1];
      RebuildIndexesEveryRow(e, db, front);
      UpsertSetsOneEntry(IndexedAll(e, db, front), last.workspace, last.id, e(last.text), last.rowid);
    }
  }

  /** In every run the two tables pair up, and the cache is the map of latest puts. */
  lemma {:induction false} TablesAlwaysAgree(e: Embedder, steps: seq<Step>)
    requires Run(e, steps)
    ensures Tables(After(e, steps))
    ensures forall key :: key in After(e, steps).cache <==> LastPut(steps, key).Some?
    ensures forall key :: key in After(e, steps).cache ==> After(e, steps).cache[key] == LastPut(steps, key).value
  {
    if steps != [] {
      var front, last := steps[..|steps| - 1], steps[|steps| - 1];
      TablesAlwaysAgree(e, front);
      var db := After(e, front);
      match last
      case Put(key, row, rowid, indexed) =>
        if indexed {
          UpsertSetsOneEntry(db.(cache := db.cache[key := row]), row.workspace, CacheId(key), e(row.prompt), rowid);
        }
      case Embed(item) => UpsertSetsOneEntry(db, item.workspace, item.id, e(item.text), item.rowid);
      case Rebuild(items) => RebuildIndexesEveryRow(e, Db(map[], map[], db.cache), items);
    }
  }

  /** In every run the index holds under each id exactly what was last stored there. */
  lemma {:induction false} IndexHoldsLastStored(e: Embedder, steps: seq<Step>, id: string)
    requires Run(e, steps)
    ensures Tables(After(e, steps)) && At(After(e, steps), id) == EntryOf(e, LastStored(steps, id))
  {
    TablesAlwaysAgree(e, steps);
    if steps != [] {
      var front, last := steps[..|steps| - 1], steps[|steps| - 1];
      TablesAlwaysAgree(e, front);
      IndexHoldsLastStored(e, front, id);
      var db := After(e, front);
      match last
      case Put(key, row, rowid, indexed) =>
        var stored := db.(cache := db.cache[key := row]);
        assert At(stored, id) == At(db, id);
        if indexed { UpsertSetsOneEntry(stored, row.workspace, CacheId(key), e(row.prompt), rowid); }
      case Embed(item) => UpsertSetsOneEntry(db, item.workspace, item.id, e(item.text), item.rowid);
      case Rebuild(items) =>
        var empty := Db(map[], map[], db.cache);
        RebuildIndexesEveryRow(e, empty, items);
        assert At(empty, id) == None;
    }
  }

  /** The index has a vector for the cache id but the cache has no row for the key. */
  ghost predicate Orphan(db: Db, key: string)
    requires Tables(db)
  {
    At(db, CacheId(key)).Some? && key !in db.cache
  }

  /** Over every run a cache id is an orphan exactly when something was stored under it and
      not cleared since, and its key was never put. */
  lemma OrphanIff(e: Embedder, steps: seq<Step>, key: string)
    requires Run(e, steps)
    ensures Tables(After(e, steps))
    ensures Orphan(After(e, steps), key) <==> LastStored(steps, CacheId(key)).Some? && LastPut(steps, key).None?
  {
    TablesAlwaysAgree(e, steps);
    IndexHoldsLastStored(e, steps, CacheId(key));
  }

  lemma {:induction false} NoForeignItem(items: seq<Item>, key: string)
    requires forall i :: 0 <= i < |items| ==> !IsCacheId(items[i].id)
    ensures LastItem(items, CacheId(key)) == None
  {
    CacheIdsDiffer(key, key);
    if items != [] { NoForeignItem(items[..|items| - 1], key); }
  }

  /** When only puts use cache ids, what is stored under one is the prompt of the latest put
      whose vector was stored and not cleared, so there are no orphans. */
  lemma {:induction false} PutsStorePrompts(steps: seq<Step>, key: string)
    requires NoForeignIds(steps)
    ensures LastStored(steps, CacheId(key)) ==
      match LastIndexed(steps, key) case None => None case Some(row) => Some(Stored(row.prompt, row.workspace))
    ensures LastIndexed(steps, key).Some? ==> LastPut(steps, key).Some?
  {
    if steps != [] {
      var front, last := steps[..|steps| - 1], steps[|steps| - 1];
      PutsStorePrompts(front, key);
      assert NoForeignId(last);
      CacheIdsDiffer(key, key);
      match last
      case Put(k, _, _, _) => CacheIdsDiffer(k, key);
      case Embed(_) =>
      case Rebuild(items) => NoForeignItem(items, key);
    }
  }

  /** In a run where only puts use cache ids, the index holds under each cache id exactly
      the prompt and workspace of the latest put whose vector was stored, and no cache id is
      an orphan. */
  lemma IndexHoldsIndexedPuts(e: Embedder, steps: seq<Step>, key: string)
    requires Run(e, steps) && NoForeignIds(steps)
    ensures var row := LastIndexed(steps, key);
      && Tables(After(e, steps))
      && At(After(e, steps), CacheId(key))
         == (if row.None? then None else Some(Entry(e(row.value.prompt), row.value.workspace)))
      && !Orphan(After(e, steps), key)
  {
    PutsStorePrompts(steps, key);
    IndexHoldsLastStored(e, steps, CacheId(key));
    OrphanIff(e, steps, key);
  }

  // ---- lookups ----

  datatype Neighbour = Neighbour(rowid: int, distance: real)

  type Metric = (Blob, Blob) -> real

  /** The rows a nearest-neighbour query returns: the `CACHE_QUERY_K` nearest vectors, by
      distance. */
  ghost predicate Nearest(rows: seq<Neighbour>, vec: map<int, Blob>, dist: Metric, query: Blob) {
    && |rows| == (if |vec| < CACHE_QUERY_K then |vec| else CACHE_QUERY_K)
    && (forall i :: 0 <= i < |rows| ==> rows[i].rowid in vec && rows[i].distance == dist(query, vec[rows[i].rowid]))
    && (forall i, j :: 0 <= i < j < |rows| ==> rows[i].rowid != rows[j].rowid && rows[i].distance <= rows[j].distance)
    && (forall r :: r in vec && !Listed(rows, r) ==>
          forall i :: 0 <= i < |rows| ==> rows[i].distance <= dist(query, vec[r]))
  }

  ghost predicate Listed(rows: seq<Neighbour>, rowid: int) {
    exists i :: 0 <= i < |rows| && rows[i].rowid == rowid
  }

  function ExactHit(db: Db, workspace: string, key: string): Option<string> {
    if key in db.cache && db.cache[key].workspace == workspace then Some(db.cache[key].completion) else None
  }

  /** The neighbour is close enough, is a cached prompt of the workspace, and its cache row
      answers for the workspace. */
  predicate Usable(db: Db, workspace: string, threshold: real, n: Neighbour) {
    && n.distance <= threshold
    && n.rowid in db.meta
    && IsCacheId(db.meta[n.rowid].id)
    && db.meta[n.rowid].workspace == workspace
    && ExactHit(db, workspace, CacheKey(db.meta[n.rowid].id)).Some?
  }

  datatype Hit = Miss | Exact(completion: string) | Semantic(completion: string, distance: real)

  function SemanticHit(db: Db, workspace: string, threshold: real, rows: seq<Neighbour>): Hit {
    if rows == [] then Miss
    else if Usable(db, workspace, threshold, rows[0]) then
      Semantic(ExactHit(db, workspace, CacheKey(db.meta[rows[0].rowid].id)).value, rows[0].distance)
    else SemanticHit(db, workspace, threshold, rows[1..])
  }

  function Lookup(db: Db, workspace: string, key: string, threshold: real, noSemantic: bool,
                  rows: seq<Neighbour>): Hit
  {
    match ExactHit(db, workspace, key)
    case Some(completion) => Exact(completion)
    case None => if noSemantic then Miss else SemanticHit(db, workspace, threshold, rows)
  }

  lemma {:induction false} FirstUsable(db: Db, workspace: string, threshold: real, rows: seq<Neighbour>)
    ensures SemanticHit(db, workspace, threshold, rows) == Miss <==>
      forall i :: 0 <= i < |rows| ==> !Usable(db, workspace, threshold, rows[i])
    ensures SemanticHit(db, workspace, threshold, rows) != Miss ==>
      exists i :: 0 <= i < |rows| && IsFirstUsable(db, workspace, threshold, rows, i)
  {
    if rows != [] {
      FirstUsable(db, workspace, threshold, rows[1..]);
      if Usable(db, workspace, threshold, rows[0]) {
        assert IsFirstUsable(db, workspace, threshold, rows, 0);
      } else if SemanticHit(db, workspace, threshold, rows[1..]) != Miss {
        var i :| 0 <= i < |rows[1..]| && IsFirstUsable(db, workspace, threshold, rows[1..], i);
        forall k | 0 <= k < i + 1 ensures !Usable(db, workspace, threshold, rows[k]) {
          assert k > 0 ==> rows[k] == rows[1..][k - 1];
        }
        assert rows[i + 1] == rows[1..][i];
        assert IsFirstUsable(db, workspace, threshold, rows, i + 1);
      } else {
        forall i | 0 <= i < |rows| ensures !Usable(db, workspace, threshold, rows[i]) {
          assert i > 0 ==> rows[i] == rows[1..][i - 1];
        }
      }
    }
  }

  ghost predicate IsFirstUsable(db: Db, workspace: string, threshold: real, rows: seq<Neighbour>, i: nat)
    requires i < |rows|
  {
    && (forall k :: 0 <= k < i ==> !Usable(db, workspace, threshold, rows[k]))
    && Usable(db, workspace, threshold, rows[i])
    && SemanticHit(db, workspace, threshold, rows)
       == Semantic(ExactHit(db, workspace, CacheKey(db.meta[rows[i].rowid].id)).value, rows[i].distance)
  }

  /** An exact hit is exactly the latest put of the key, if that was for the workspace. It
      survives a put that died before indexing, and a rebuild. */
  lemma ExactHitIsLatestPut(e: Embedder, steps: seq<Step>, workspace: string, key: string)
    requires Run(e, steps)
    ensures var put := LastPut(steps, key);
      ExactHit(After(e, steps), workspace, key)
      == if put.Some? && put.value.workspace == workspace then Some(put.value.completion) else None
  {
    TablesAlwaysAgree(e, steps);
  }

  /** Both the latest put of the key and the text stored under its id are the workspace's. */
  predicate CachedFor(steps: seq<Step>, workspace: string, key: string) {
    && LastPut(steps, key).Some? && LastPut(steps, key).value.workspace == workspace
    && LastStored(steps, CacheId(key)).Some? && LastStored(steps, CacheId(key)).value.workspace == workspace
  }

  /** The distance from a prompt to the text stored for a key. */
  function Away(e: Embedder, dist: Metric, steps: seq<Step>, prompt: string, key: string): real
    requires LastStored(steps, CacheId(key)).Some?
  {
    dist(e(prompt), e(LastStored(steps, CacheId(key)).value.text))
  }

  /** A usable row of the index is a key cached for the workspace. */
  lemma UsableMeansCached(e: Embedder, dist: Metric, steps: seq<Step>, workspace: string, prompt: string,
                          threshold: real, n: Neighbour)
    returns (key: string)
    requires Run(e, steps)
    requires Tables(After(e, steps)) && Usable(After(e, steps), workspace, threshold, n)
    requires n.distance == dist(e(prompt), After(e, steps).vec[n.rowid])
    ensures key == CacheKey(After(e, steps).meta[n.rowid].id) && CachedFor(steps, workspace, key)
    ensures n.distance == Away(e, dist, steps, prompt, key)
    ensures ExactHit(After(e, steps), workspace, key) == Some(LastPut(steps, key).value.completion)
  {
    var db := After(e, steps);
    key := CacheKey(db.meta[n.rowid].id);
    TablesAlwaysAgree(e, steps);
    IndexHoldsLastStored(e, steps, CacheId(key));
    assert RowOf(db.meta, CacheId(key)) == Some(n.rowid);
  }

  /** A key cached for the workspace has a row in the index, usable if near enough. */
  lemma CachedMeansUsable(e: Embedder, dist: Metric, steps: seq<Step>, workspace: string, prompt: string,
                          threshold: real, key: string)
    returns (row: int)
    requires Run(e, steps) && CachedFor(steps, workspace, key)
    ensures var db := After(e, steps);
      && row in db.vec && row in db.meta && db.meta[row].id == CacheId(key)
      && dist(e(prompt), db.vec[row]) == Away(e, dist, steps, prompt, key)
      && forall n: Neighbour :: n.rowid == row && n.distance == Away(e, dist, steps, prompt, key) <= threshold ==>
        Usable(db, workspace, threshold, n)
  {
    var db := After(e, steps);
    TablesAlwaysAgree(e, steps);
    IndexHoldsLastStored(e, steps, CacheId(key));
    CacheIdsDiffer(key, key);
    row := RowOf(db.meta, CacheId(key)).value;
    CacheIdsDiffer(key, CacheKey(db.meta[row].id));
  }

  /** A semantic hit returns the completion of the latest put of some key cached for the
      asking workspace, at the distance of the text stored for that key, which is within the
      threshold; and no key cached for the workspace is nearer, listed or not. */
  lemma SemanticHitIsNearest(e: Embedder, dist: Metric, steps: seq<Step>, workspace: string, prompt: string,
                             threshold: real, rows: seq<Neighbour>)
    returns (key: string)
    requires Run(e, steps) && Nearest(rows, After(e, steps).vec, dist, e(prompt))
    requires SemanticHit(After(e, steps), workspace, threshold, rows) != Miss
    ensures CachedFor(steps, workspace, key) && Away(e, dist, steps, prompt, key) <= threshold
    ensures SemanticHit(After(e, steps), workspace, threshold, rows)
      == Semantic(LastPut(steps, key).value.completion, Away(e, dist, steps, prompt, key))
    ensures forall other :: CachedFor(steps, workspace, other) ==>
      Away(e, dist, steps, prompt, key) <= Away(e, dist, steps, prompt, other)
  {
    var db := After(e, steps);
    TablesAlwaysAgree(e, steps);
    FirstUsable(db, workspace, threshold, rows);
    var i :| 0 <= i < |rows| && IsFirstUsable(db, workspace, threshold, rows, i);
    key := UsableMeansCached(e, dist, steps, workspace, prompt, threshold, rows[i]);
    forall other | CachedFor(steps, workspace, other)
      ensures Away(e, dist, steps, prompt, key) <= Away(e, dist, steps, prompt, other)
    {
      var row := CachedMeansUsable(e, dist, steps, workspace, prompt, threshold, other);
      if Away(e, dist, steps, prompt, other) <= threshold && Listed(rows, row) {
        var j :| 0 <= j < |rows| && rows[j].rowid == row;
        assert Usable(db, workspace, threshold, rows[j]);
        assert j >= i;
      }
    }
  }

  /** A semantic miss is honest but for the query limit: a key cached for the workspace
      within the threshold is missed only when the query returned its full number of rows,
      all of them at least as near and none usable. */
  lemma SemanticMissMeans(e: Embedder, dist: Metric, steps: seq<Step>, workspace: string, prompt: string,
                          threshold: real, rows: seq<Neighbour>, key: string)
    requires Run(e, steps) && Nearest(rows, After(e, steps).vec, dist, e(prompt))
    requires SemanticHit(After(e, steps), workspace, threshold, rows) == Miss
    requires CachedFor(steps, workspace, key) && Away(e, dist, steps, prompt, key) <= threshold
    ensures |rows| == CACHE_QUERY_K
    ensures forall i :: 0 <= i < |rows| ==> rows[i].distance <= Away(e, dist, steps, prompt, key)
  {
    var db := After(e, steps);
    FirstUsable(db, workspace, threshold, rows);
    var row := CachedMeansUsable(e, dist, steps, workspace, prompt, threshold, key);
    forall i | 0 <= i < |rows| ensures rows[i].rowid != row {
      assert !Usable(db, workspace, threshold, rows[i]);
    }
    if |rows| < CACHE_QUERY_K { ShortListIsAll(rows, db.vec, dist, e(prompt), row); }
  }

  /** Some row of the answer is stored under the id. */
  ghost predicate ListedUnder(db: Db, rows: seq<Neighbour>, id: string) {
    exists i :: 0 <= i < |rows| && rows[i].rowid in db.meta && db.meta[rows[i].rowid].id == id
  }

  /** Exactly when a semantic lookup misses: when no key cached for the workspace within the
      threshold has its row among those the query returned. */
  lemma SemanticMissIff(e: Embedder, dist: Metric, steps: seq<Step>, workspace: string, prompt: string,
                        threshold: real, rows: seq<Neighbour>)
    requires Run(e, steps) && Nearest(rows, After(e, steps).vec, dist, e(prompt))
    ensures SemanticHit(After(e, steps), workspace, threshold, rows) == Miss <==>
      forall key :: CachedFor(steps, workspace, key) && Away(e, dist, steps, prompt, key) <= threshold ==>
        !ListedUnder(After(e, steps), rows, CacheId(key))
  {
    var db := After(e, steps);
    TablesAlwaysAgree(e, steps);
    FirstUsable(db, workspace, threshold, rows);
    if SemanticHit(db, workspace, threshold, rows) == Miss {
      forall key | CachedFor(steps, workspace, key) && Away(e, dist, steps, prompt, key) <= threshold
        ensures !ListedUnder(db, rows, CacheId(key))
      {
        var row := CachedMeansUsable(e, dist, steps, workspace, prompt, threshold, key);
        forall i | 0 <= i < |rows| && rows[i].rowid in db.meta ensures db.meta[rows[i].rowid].id != CacheId(key) {
          assert !Usable(db, workspace, threshold, rows[i]);
        }
      }
    } else {
      var i :| 0 <= i < |rows| && IsFirstUsable(db, workspace, threshold, rows, i);
      var key := UsableMeansCached(e, dist, steps, workspace, prompt, threshold, rows[i]);
      assert ListedUnder(db, rows, CacheId(key));
    }
  }

  lemma ShortListIsAll(rows: seq<Neighbour>, vec: map<int, Blob>, dist: Metric, query: Blob, row: int)
    requires Nearest(rows, vec, dist, query) && |rows| < CACHE_QUERY_K && row in vec
    ensures Listed(rows, row)
  {
    var ids := RowIds(rows);
    forall r | r in ids ensures r in vec.Keys {
      assert Listed(rows, r);
    }
    assert vec.Keys == ids + (vec.Keys - ids);
    assert |vec.Keys - ids| == 0;
  }

  ghost function RowIds(rows: seq<Neighbour>): (ids: set<int>)
    ensures forall r :: r in ids <==> Listed(rows, r)
    ensures (forall i, j :: 0 <= i < j < |rows| ==> rows[i].rowid != rows[j].rowid) ==> |ids| == |rows|
  {
    if rows == [] then {}
    else
      var front := rows[..|rows| - 1];
      var ids := RowIds(front) + {rows[|rows| - 1].rowid};
      assert forall i :: 0 <= i < |front| ==> front[i] == rows[i];
      assert forall r :: Listed(front, r) ==> Listed(rows, r);
      assert Listed(rows, rows[|rows| - 1].rowid);
      ids
  }

  /** The answer of a get, over every run: an exact hit exactly when the latest put of the key
      is the workspace's, with its completion; a miss exactly when it is not and either the
      semantic layer is off or no key cached for the workspace within the threshold is
      listed; and else the completion of the nearest key cached for the workspace. */
  lemma GetAnswers(e: Embedder, dist: Metric, steps: seq<Step>, workspace: string, key: string, prompt: string,
                   threshold: real, noSemantic: bool, rows: seq<Neighbour>)
    requires Run(e, steps) && Nearest(rows, After(e, steps).vec, dist, e(prompt))
    ensures var hit := Lookup(After(e, steps), workspace, key, threshold, noSemantic, rows);
      var mine := LastPut(steps, key).Some? && LastPut(steps, key).value.workspace == workspace;
      && (hit.Exact? <==> mine) && (mine ==> hit.completion == LastPut(steps, key).value.completion)
      && (hit == Miss <==> !mine && (noSemantic || !AnyListed(e, dist, steps, workspace, prompt, threshold, rows)))
      && (hit.Semantic? ==> exists k :: AnswersNearest(e, dist, steps, workspace, prompt, threshold, k, hit))
  {
    hide Nearest, SemanticHit;
    ExactHitIsLatestPut(e, steps, workspace, key);
    SemanticMissIff(e, dist, steps, workspace, prompt, threshold, rows);
    if SemanticHit(After(e, steps), workspace, threshold, rows) != Miss {
      var k := SemanticHitIsNearest(e, dist, steps, workspace, prompt, threshold, rows);
      assert AnswersNearest(e, dist, steps, workspace, prompt, threshold, k,
                            SemanticHit(After(e, steps), workspace, threshold, rows));
    }
  }

  /** Some key cached for the workspace within the threshold has its row in the answer. */
  ghost predicate AnyListed(e: Embedder, dist: Metric, steps: seq<Step>, workspace: string, prompt: string,
                            threshold: real, rows: seq<Neighbour>)
  {
    exists k :: CachedFor(steps, workspace, k) && Away(e, dist, steps, prompt, k) <= threshold
      && ListedUnder(After(e, steps), rows, CacheId(k))
  }

  /** The hit is the completion of the latest put of the key, which is cached for the
      workspace within the threshold, and no key cached for the workspace is nearer. */
  ghost predicate AnswersNearest(e: Embedder, dist: Metric, steps: seq<Step>, workspace: string, prompt: string,
                                 threshold: real, key: string, hit: Hit)
  {
    && CachedFor(steps, workspace, key) && Away(e, dist, steps, prompt, key) <= threshold
    && hit == Semantic(LastPut(steps, key).value.completion, Away(e, dist, steps, prompt, key))
    && forall other :: CachedFor(steps, workspace, other) ==>
         Away(e, dist, steps, prompt, key) <= Away(e, dist, steps, prompt, other)
  }

  // ---- the limit bites ----

  function Repeated(n: nat): string {
    if n == 0 then "" else Repeated(n - 1) + "x"
  }

  lemma {:induction false} RepeatedDiffer(n: nat)
    ensures |Repeated(n)| == n && !IsCacheId(Repeated(n))
  {
    if n > 0 {
      RepeatedDiffer(n - 1);
      assert Repeated(n)[0] == if n == 1 then 'x' else Repeated(n - 1)[0];
      assert n > 1 ==> Repeated(n - 1)[0] == 'x' by { RepeatedIsXs(n - 1); }
    }
  }

  lemma {:induction false} RepeatedIsXs(n: nat)
    ensures |Repeated(n)| == n && forall i :: 0 <= i < n ==> Repeated(n)[i] == 'x'
  {
    if n > 0 { RepeatedIsXs(n - 1); }
  }

  /** Ordinary entities of a workspace, all with one text, embedded one after the other. */
  function Crowd(workspace: string, text: string, n: nat): seq<Step> {
    if n == 0 then [] else Crowd(workspace, text, n - 1) + [Embed(Item(workspace, Repeated(n), text, n))]
  }

  ghost predicate Filled(db: Db, workspace: string, blob: Blob, n: nat) {
    && db.vec.Keys == db.meta.Keys && |db.vec| == n
    && (forall r :: r in db.vec <==> 1 <= r <= n)
    && (forall r :: r in db.vec ==> db.vec[r] == blob)
    && (forall r :: r in db.meta ==> r >= 0 && db.meta[r] == Meta(Repeated(r), workspace))
  }

  lemma CrowdStep(db: Db, workspace: string, blob: Blob, n: nat)
    requires Filled(db, workspace, blob, n)
    ensures Fits(db, Repeated(n + 1), n + 1)
    ensures Filled(Upserted(db, workspace, Repeated(n + 1), blob, n + 1), workspace, blob, n + 1)
  {
    hide Repeated;
    RepeatedDiffer(n + 1);
    forall r | r in db.meta ensures db.meta[r].id != Repeated(n + 1) { RepeatedDiffer(r); }
    assert RowOf(db.meta, Repeated(n + 1)) == None;
    assert n + 1 !in db.vec;
  }

  lemma NobodyYet(e: Embedder, steps: seq<Step>, workspace: string, blob: Blob)
    requires steps == []
    ensures Run(e, steps) && Filled(After(e, steps), workspace, blob, 0)
  {
    hide Repeated;
  }

  lemma CrowdShape(workspace: string, text: string, n: nat)
    ensures var crowd := Crowd(workspace, text, n);
      if n == 0 then crowd == []
      else crowd == Crowd(workspace, text, n - 1) + [Embed(Item(workspace, Repeated(n), text, n))]
  {
    hide Repeated;
  }

  lemma CrowdGrows(e: Embedder, steps: seq<Step>, workspace: string, text: string, n: nat)
    requires Run(e, steps) && Filled(After(e, steps), workspace, e(text), n)
    ensures var more := steps + [Embed(Item(workspace, Repeated(n + 1), text, n + 1))];
      Run(e, more) && Filled(After(e, more), workspace, e(text), n + 1)
  {
    hide Filled, Upserted, Fits, Repeated, Run, After;
    CrowdStep(After(e, steps), workspace, e(text), n);
    OneMore(e, steps, Embed(Item(workspace, Repeated(n + 1), text, n + 1)));
  }

  lemma {:induction false} CrowdFills(e: Embedder, workspace: string, text: string, n: nat)
    ensures Run(e, Crowd(workspace, text, n))
    ensures Filled(After(e, Crowd(workspace, text, n)), workspace, e(text), n)
  {
    hide Filled, Repeated, Run, After, Crowd;
    CrowdShape(workspace, text, n);
    if n == 0 {
      NobodyYet(e, Crowd(workspace, text, n), workspace, e(text));
    } else {
      CrowdFills(e, workspace, text, n - 1);
      CrowdGrows(e, Crowd(workspace, text, n - 1), workspace, text, n - 1);
    }
  }

  lemma OneMore(e: Embedder, steps: seq<Step>, last: Step)
    requires Run(e, steps) && StepFits(e, After(e, steps), last)
    ensures Run(e, steps + [last]) && After(e, steps + [last]) == Apply(e, After(e, steps), last)
    ensures last.Put? ==> LastPut(steps + [last], last.key) == Some(last.row)
    ensures last.Put? && last.indexed ==>
      LastStored(steps + [last], CacheId(last.key)) == Some(Stored(last.row.prompt, last.row.workspace))
  {
    hide Apply, StepFits;
    assert (steps + [last])[..|steps|] == steps;
  }

  /** The rows a query returns when the crowd is nearest. */
  function CrowdRows(distance: real): (rows: seq<Neighbour>)
    ensures |rows| == 5 && forall i :: 0 <= i < 5 ==> rows[i] == Neighbour(i + 1, distance)
  {
    [Neighbour(1, distance), Neighbour(2, distance), Neighbour(3, distance), Neighbour(4, distance),
     Neighbour(5, distance)]
  }

  lemma FiveAreNearest(vec: map<int, Blob>, dist: Metric, query: Blob, near: Blob)
    requires |vec| == 6 && forall r :: r in vec <==> 1 <= r <= 6
    requires (forall r :: 1 <= r <= 5 ==> vec[r] == near) && dist(query, near) < dist(query, vec[6])
    ensures Nearest(CrowdRows(dist(query, near)), vec, dist, query)
  {
    hide CrowdRows;
    var rows := CrowdRows(dist(query, near));
    forall r | 1 <= r <= 5 ensures Listed(rows, r) { assert rows[r - 1].rowid == r; }
  }

  lemma CrowdIsNearest(db: Db, dist: Metric, query: Blob, workspace: string, near: Blob, cached: Blob, id: string)
    requires Filled(db, workspace, near, 5) && IsCacheId(id) && dist(query, near) < dist(query, cached)
    ensures Fits(db, id, 6)
    ensures Nearest(CrowdRows(dist(query, near)), Upserted(db, workspace, id, cached, 6).vec, dist, query)
    ensures forall r :: 1 <= r <= 5 ==> var after := Upserted(db, workspace, id, cached, 6);
      r in after.meta && !IsCacheId(after.meta[r].id)
  {
    hide Repeated, IsCacheId, Nearest;
    forall r | r in db.meta ensures !IsCacheId(db.meta[r].id) { RepeatedDiffer(r); }
    assert RowOf(db.meta, id) == None;
    var after := Upserted(db, workspace, id, cached, 6);
    assert after.vec == db.vec[6 := cached] && |after.vec| == 6;
    FiveAreNearest(after.vec, dist, query, near);
  }

  /** Five entities nearer than a cached prompt crowd it out: it was put for the workspace,
      is indexed and is within the threshold, and the lookup misses. */
  lemma CrowdedOut(e: Embedder, dist: Metric, text: string, key: string, row: CacheRow, prompt: string, threshold: real)
    requires dist(e(prompt), e(text)) < dist(e(prompt), e(row.prompt)) <= threshold
    ensures var steps := Crowd(row.workspace, text, 5) + [Put(key, row, 6, true)];
      var rows := CrowdRows(dist(e(prompt), e(text)));
      && Run(e, steps) && Nearest(rows, After(e, steps).vec, dist, e(prompt))
      && CachedFor(steps, row.workspace, key) && Away(e, dist, steps, prompt, key) <= threshold
      && SemanticHit(After(e, steps), row.workspace, threshold, rows) == Miss
  {
    hide Filled, Upserted, Fits, Nearest, Crowd, Run, After, LastPut, LastStored, IsCacheId, CacheId;
    var crowd := Crowd(row.workspace, text, 5);
    var rows := CrowdRows(dist(e(prompt), e(text)));
    var db := After(e, crowd).(cache := After(e, crowd).cache[key := row]);
    CrowdFills(e, row.workspace, text, 5);
    CacheIdsDiffer(key, key);
    SameTables(After(e, crowd), key, row, row.workspace, e(text));
    CrowdIsNearest(After(e, crowd), dist, e(prompt), row.workspace, e(text), e(row.prompt), CacheId(key));
    CrowdIsNearest(db, dist, e(prompt), row.workspace, e(text), e(row.prompt), CacheId(key));
    OneMore(e, crowd, Put(key, row, 6, true));
    FirstUsable(After(e, crowd + [Put(key, row, 6, true)]), row.workspace, threshold, rows);
  }

  lemma SameTables(db: Db, key: string, row: CacheRow, workspace: string, blob: Blob)
    requires Filled(db, workspace, blob, 5)
    ensures Filled(db.(cache := db.cache[key := row]), workspace, blob, 5)
  {
  }

  /** Two puts of one key have the same prompt, as when the key is a hash of the prompt. */
  predicate KeysFixPrompts(steps: seq<Step>) {
    forall i, j :: 0 <= i < j < |steps| && steps[i].Put? && steps[j].Put? && steps[i].key == steps[j].key ==>
      steps[i].row.prompt == steps[j].row.prompt
  }

  lemma {:induction false} PutOf(steps: seq<Step>, key: string)
    ensures LastPut(steps, key).Some? ==>
      exists i :: 0 <= i < |steps| && steps[i].Put? && steps[i].key == key && steps[i].row == LastPut(steps, key).value
    ensures LastIndexed(steps, key).Some? ==> exists i ::
      0 <= i < |steps| && steps[i].Put? && steps[i].key == key && steps[i].row == LastIndexed(steps, key).value
  {
    if steps != [] {
      var front, last := steps[..|steps| - 1], steps[|steps| - 1];
      PutOf(front, key);
      assert steps[|steps| - 1] == last;
      assert forall i :: 0 <= i < |front| ==> front[i] == steps[i];
    }
  }

  /** When keys fix prompts, the distance reported is to the very prompt that the returned
      completion answers, even if a put died between its two commits. */
  lemma IndexedPromptIsLatest(steps: seq<Step>, key: string)
    requires KeysFixPrompts(steps) && LastIndexed(steps, key).Some? && LastPut(steps, key).Some?
    ensures LastIndexed(steps, key).value.prompt == LastPut(steps, key).value.prompt
  {
    PutOf(steps, key);
    var i :| 0 <= i < |steps| && steps[i].Put? && steps[i].key == key && steps[i].row == LastPut(steps, key).value;
    var j :| 0 <= j < |steps| && steps[j].Put? && steps[j].key == key && steps[j].row == LastIndexed(steps, key).value;
    assert i == j || steps[i].row.prompt == steps[j].row.prompt;
  }

  /** Then, when only puts use cache ids, a hit's distance is to the very prompt that its
      completion answers. */
  lemma StoredPromptIsLatest(steps: seq<Step>, key: string)
    requires KeysFixPrompts(steps) && NoForeignIds(steps) && LastStored(steps, CacheId(key)).Some?
    ensures LastPut(steps, key).Some? && LastStored(steps, CacheId(key)).value.text == LastPut(steps, key).value.prompt
  {
    PutsStorePrompts(steps, key);
    IndexedPromptIsLatest(steps, key);
  }

  /** The hit is the completion of the latest put of the key, made for the workspace. */
  predicate Answers(steps: seq<Step>, workspace: string, key: string, hit: Hit)
    requires hit != Miss
  {
    var put := LastPut(steps, key);
    put.Some? && put.value.workspace == workspace && put.value.completion == hit.completion
  }

  /** Even when embed is given ids with the cache prefix, every hit is the completion of
      the latest put of its key, for the asking workspace, within the threshold. */
  lemma HitsAreNeverStale(e: Embedder, steps: seq<Step>, workspace: string, key: string, threshold: real,
                          noSemantic: bool, rows: seq<Neighbour>)
    requires Run(e, steps)
    ensures var hit := Lookup(After(e, steps), workspace, key, threshold, noSemantic, rows);
      && (hit.Semantic? ==> hit.distance <= threshold && !noSemantic)
      && (hit != Miss ==> exists k :: Answers(steps, workspace, k, hit) && (hit.Exact? ==> k == key))
  {
    var db := After(e, steps);
    ExactHitIsLatestPut(e, steps, workspace, key);
    FirstUsable(db, workspace, threshold, rows);
    if ExactHit(db, workspace, key).None? && !noSemantic && SemanticHit(db, workspace, threshold, rows) != Miss {
      var i :| 0 <= i < |rows| && IsFirstUsable(db, workspace, threshold, rows, i);
      var k := CacheKey(db.meta[rows[i].rowid].id);
      ExactHitIsLatestPut(e, steps, workspace, k);
      assert Answers(steps, workspace, k, SemanticHit(db, workspace, threshold, rows));
    } else if ExactHit(db, workspace, key).Some? {
      assert Answers(steps, workspace, key, Exact(ExactHit(db, workspace, key).value));
    }
  }

  /** An embed with a cache id leaves a cache vector without a cache row. */
  lemma ForeignIdLeavesOrphan(e: Embedder, workspace: string, key: string, text: string, rowid: int)
    ensures var db := After(e, [Embed(Item(workspace, CacheId(key), text, rowid))]);
      Tables(db) && Orphan(db, key)
  {
    var steps := [Embed(Item(workspace, CacheId(key), text, rowid))];
    assert steps[..0] == [];
    UpsertSetsOneEntry(Db(map[], map[], map[]), workspace, CacheId(key), e(text), rowid);
  }

  // ---- the commands ----

  /** A row of the `entities` table. */
  datatype Canonical = Canonical(id: string, workspace: string, title: Option<string>, attrs: string)

  /** The characters Python's `str.strip` removes. */
  predicate IsPythonSpace(c: char) {
    || '\t' <= c <= '\r' || '\U{1C}' <= c <= '\U{20}' || c == '\U{85}' || c == '\U{A0}' || c == '\U{1680}'
    || '\U{2000}' <= c <= '\U{200A}' || c == '\U{2028}' || c == '\U{2029}' || c == '\U{202F}' || c == '\U{205F}'
    || c == '\U{3000}'
  }

  function Strip(s: string): string {
    if s == "" then s
    else if IsPythonSpace(s[0]) then Strip(s[1..])
    else if IsPythonSpace(s[|s| - 1]) then Strip(s[..|s| - 1])
    else s
  }

  /** The text embedded for a row: its title and attributes. */
  function ItemOf(row: Canonical, rowid: int): Item {
    var title := match row.title case None => "" case Some(t) => t;
    Item(row.workspace, row.id, Strip(title + " " + row.attrs), rowid)
  }

  function ItemsOf(rows: seq<Canonical>, rowids: seq<int>): seq<Item>
    requires |rowids| <= |rows|
  {
    seq(|rowids|, i requires 0 <= i < |rowids| => ItemOf(rows[i], rowids[i]))
  }

  class Derived {
    var vec: map<int, Blob>
    var meta: map<int, Meta>
    var cache: map<string, CacheRow>
    const embed: Embedder

    constructor (e: Embedder)
      ensures Value() == Db(map[], map[], map[]) && embed == e
    {
      vec, meta, cache, embed := map[], map[], map[], e;
    }

    ghost function Value(): Db
      reads this
    {
      Db(vec, meta, cache)
    }

    method Upsert(workspace: string, id: string, text: string, rowid: int)
      requires Tables(Value()) && Fits(Value(), id, rowid)
      modifies this`vec, this`meta
      ensures Tables(Value()) && Value() == Upserted(old(Value()), workspace, id, embed(text), rowid)
    {
      UpsertSetsOneEntry(Value(), workspace, id, embed(text), rowid);
      var blob := embed(text);
      if r :| r in meta && meta[r].id == id {
        vec := vec[r := blob];
        meta := meta[r := meta[r].(workspace := workspace)];
      } else {
        vec := vec[rowid := blob];
        assert rowid !in meta;
        meta := meta[rowid := Meta(id, workspace)];
      }
    }

    method CmdEmbed(item: Item)
      requires Tables(Value()) && Fits(Value(), item.id, item.rowid)
      modifies this`vec, this`meta
      ensures Tables(Value()) && Value() == Apply(embed, old(Value()), Embed(item))
    {
      Upsert(item.workspace, item.id, item.text, item.rowid);
    }

    /** `rowids` are the engine's choices, one for each row embedded before the process
        ends. */
    method CmdRebuild(canonical: seq<Canonical>, workspace: Option<string>, rowids: seq<int>)
      requires |rowids| <= |Selected(canonical, workspace)|
      requires AllFit(embed, Db(map[], map[], cache), ItemsOf(Selected(canonical, workspace), rowids))
      modifies this`vec, this`meta
      ensures Tables(Value())
      ensures Value() == Apply(embed, old(Value()), Rebuild(ItemsOf(Selected(canonical, workspace), rowids)))
    {
      vec, meta := map[], map[];
      var rows := Selected(canonical, workspace);
      ghost var empty, items := Value(), ItemsOf(rows, rowids);
      for n := 0 to |rowids|
        invariant Tables(Value()) && Value() == IndexedAll(embed, empty, items[..n])
      {
        hide AllFit, IndexedAll, Strip;
        RebuildStep(embed, empty, items, n);
        var title := if rows[n].title.Some? then rows[n].title.value else "";
        Upsert(rows[n].workspace, rows[n].id, Strip(title + " " + rows[n].attrs), rowids[n]);
      }
      assert items[..|rowids|] == items;
    }

    method CmdCachePut(key: string, row: CacheRow, rowid: int, live: bool)
      requires Tables(Value()) && StepFits(embed, Value(), Put(key, row, rowid, live))
      modifies this
      ensures Tables(Value()) && Value() == Apply(embed, old(Value()), Put(key, row, rowid, live))
    {
      cache := cache[key := row];
      if live { Upsert(row.workspace, CACHE_PREFIX + key, row.prompt, rowid); }
    }

    method ExactCacheHit(workspace: string, key: string) returns (completion: Option<string>)
      ensures completion == ExactHit(Value(), workspace, key)
    {
      if key in cache && cache[key].workspace == workspace { return Some(cache[key].completion); }
      return None;
    }

    method SemanticCacheHit(workspace: string, threshold: real, rows: seq<Neighbour>) returns (hit: Hit)
      ensures hit == SemanticHit(Value(), workspace, threshold, rows)
    {
      for i := 0 to |rows|
        invariant SemanticHit(Value(), workspace, threshold, rows)
               == SemanticHit(Value(), workspace, threshold, rows[i..])
      {
        assert rows[i..][1..] == rows[i + 1..];
        var n := rows[i];
        if n.distance > threshold { continue; }
        if n.rowid !in meta { continue; }
        var m := meta[n.rowid];
        if !(CACHE_PREFIX <= m.id) || m.workspace != workspace { continue; }
        var completion := ExactCacheHit(workspace, m.id[|CACHE_PREFIX|..]);
        if completion.None? { continue; }
        return Semantic(completion.value, n.distance);
      }
      return Miss;
    }

    method CmdCacheGet(workspace: string, key: string, threshold: real, noSemantic: bool, rows: seq<Neighbour>)
      returns (hit: Hit)
      ensures hit == Lookup(Value(), workspace, key, threshold, noSemantic, rows)
    {
      var exact := ExactCacheHit(workspace, key);
      if exact.Some? { return Exact(exact.value); }
      if !noSemantic {
        hit := SemanticCacheHit(workspace, threshold, rows);
        if hit != Miss { return; }
      }
      return Miss;
    }
  }

  /** The canonical rows a rebuild reads: all, or those of one workspace. */
  function Selected(canonical: seq<Canonical>, workspace: Option<string>): seq<Canonical> {
    if canonical == [] then []
    else
      var rest := Selected(canonical[..|canonical| - 1], workspace);
      var last := canonical[|canonical| - 1];
      if workspace == None || workspace.value == "" || last.workspace == workspace.value then rest + [last] else rest
  }

  /** A rebuild reads every row when no workspace is named, and otherwise exactly those of the
      workspace, each as often as it is there. */
  lemma {:induction false} SelectedRows(canonical: seq<Canonical>, workspace: Option<string>)
    ensures workspace == None || workspace == Some("") ==> Selected(canonical, workspace) == canonical
    ensures forall row :: row in Selected(canonical, workspace) <==>
      row in canonical && (workspace == None || workspace == Some("") || Some(row.workspace) == workspace)
    ensures forall row :: row in Selected(canonical, workspace) ==>
      multiset(Selected(canonical, workspace))[row] == multiset(canonical)[row]
  {
    if canonical != [] {
      var front, last := canonical[..|canonical| - 1], canonical[|canonical| - 1];
      assert canonical == front + [last];
      SelectedRows(front, workspace);
    }
  }

  lemma StripStep(s: string)
    ensures s != "" && IsPythonSpace(s[0]) ==> Strip(s) == Strip(s[1..])
    ensures s != "" && !IsPythonSpace(s[0]) && IsPythonSpace(s[|s| - 1]) ==> Strip(s) == Strip(s[..|s| - 1])
    ensures s == "" || (!IsPythonSpace(s[0]) && !IsPythonSpace(s[|s| - 1])) ==> Strip(s) == s
  {
    hide IsPythonSpace;
  }

  /** Stripping cuts white space off both ends and nothing else. */
  lemma {:induction false} StripCutsSpace(s: string) returns (a: string, b: string)
    ensures s == a + Strip(s) + b
    ensures (forall c :: c in a ==> IsPythonSpace(c)) && (forall c :: c in b ==> IsPythonSpace(c))
    ensures Strip(s) != "" ==> !IsPythonSpace(Strip(s)[0]) && !IsPythonSpace(Strip(s)[|Strip(s)| - 1])
    decreases |s|
  {
    hide IsPythonSpace, Strip;
    StripStep(s);
    a, b := "", "";
    if s != "" && IsPythonSpace(s[0]) {
      a, b := StripCutsSpace(s[1..]);
      a := [s[0]] + a;
      assert s == [s[0]] + s[1..];
    } else if s != "" && IsPythonSpace(s[|s| - 1]) {
      a, b := StripCutsSpace(s[..|s| - 1]);
      b := b + [s[|s| - 1]];
      assert s == s[..|s| - 1] + [s[|s| - 1]];
    }
  }

  /** After a rebuild of rows with distinct ids each embedded row is found under its id, with
      its own workspace and the stripped text of its title and attributes. */
  lemma RebuiltRowIsFound(e: Embedder, cache: map<string, CacheRow>, rows: seq<Canonical>, rowids: seq<int>, i: nat)
    requires |rowids| <= |rows| && i < |rowids| && forall j, k :: 0 <= j < k < |rows| ==> rows[j].id != rows[k].id
    requires AllFit(e, Db(map[], map[], cache), ItemsOf(rows, rowids))
    ensures var db := Apply(e, Db(map[], map[], cache), Rebuild(ItemsOf(rows, rowids)));
      var title := if rows[i].title.Some? then rows[i].title.value else "";
      Tables(db) && At(db, rows[i].id) == Some(Entry(e(Strip(title + " " + rows[i].attrs)), rows[i].workspace))
  {
    hide Strip;
    var items := ItemsOf(rows, rowids);
    RebuildIndexesEveryRow(e, Db(map[], map[], cache), items);
    forall j | 0 <= j < |items| && j != i ensures items[j].id != items[i].id {
      assert items[j].id == rows[j].id && items[i].id == rows[i].id;
      assert if j < i then rows[j].id != rows[i].id else rows[i].id != rows[j].id;
    }
    LastItemIs(items, i);
  }

  lemma {:induction false} LastItemIs(items: seq<Item>, i: nat)
    requires i < |items| && forall j :: 0 <= j < |items| && j != i ==> items[j].id != items[i].id
    ensures LastItem(items, items[i].id) == Some(Stored(items[i].text, items[i].workspace))
  {
    if i < |items| - 1 {
      assert items[..|items| - 1][i] == items[i];
      LastItemIs(items[..|items| - 1], i);
    }
  }

  lemma RebuildStep(e: Embedder, db: Db, items: seq<Item>, n: nat)
    requires AllFit(e, db, items) && n < |items|
    ensures Fits(IndexedAll(e, db, items[..n]), items[n].id, items[n].rowid)
    ensures IndexedAll(e, db, items[..n + 1]) == Indexed(e, IndexedAll(e, db, items[..n]), items[n])
  {
    FitsPrefix(e, db, items, n + 1);
    assert items[..n + 1][..n] == items[..n];
  }

  lemma {:induction false} FitsPrefix(e: Embedder, db: Db, items: seq<Item>, n: nat)
    requires AllFit(e, db, items) && n <= |items|
    ensures AllFit(e, db, items[..n])
  {
    if n < |items| {
      FitsPrefix(e, db, items[..|items| - 1], n);
      assert items[..|items| - 1][..n] == items[..n];
    } else {
      assert items[..n] == items;
    }
  }
}
