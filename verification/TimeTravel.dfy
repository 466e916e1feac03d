/** Local version history kept inside the storage it restores: a log of snapshots under
    one storage key, next to the tracked keys the snapshots capture. */
module TimeTravel {
  import opened Options
  import opened Text

  /** A stored text. The text under the log key is the log, written as JSON and read back. */
  datatype Value = Text(s: string) | LogText(log: seq<Commit>)

  datatype Commit = Commit(
    id: string, message: string, author: string, baseline: bool, parent: Option<string>,
    restoredFrom: Option<string>, restoredFile: Option<string>, snapshot: map<string, Value>)

  type Storage = map<string, Value>

  const LOG_KEY := "LIFEOS_VCS_LOG_V1"

  const TRACKED_KEYS := [
    "life_os_theme", "life_os_sidebar_collapsed", "life_os_user_name", "life_os_workspace_name",
    "life_os_plan", "life_os_storage_backend", "life_os_harness_state", "KA_ANNOTATIONS_V1",
    "KA_PROGRESS_V1", "KA_USERCONN_V1", "KA_CUSTOM_DOMAINS_V1", "KA_DOMAIN_NOTES_V1",
    "KA_PAPERS_V1", "KA_PROJECTS_V1", "KA_REPO_PROJECTS_V1"]

  /** The log is not one of the things it tracks. Below, `tracked` is any set of keys with
      this property. */
  lemma LogIsNotTracked()
    ensures LOG_KEY !in TRACKED_KEYS
  {
    forall i | 0 <= i < |TRACKED_KEYS| ensures TRACKED_KEYS[i] != LOG_KEY {
      assert TRACKED_KEYS[i][0] == 'l' || TRACKED_KEYS[i][0] == 'K';
    }
  }

  function ReadLog(st: Storage): seq<Commit> {
    if LOG_KEY in st && st[LOG_KEY].LogText? then st[LOG_KEY].log else []
  }

  function WriteLog(st: Storage, log: seq<Commit>): Storage {
    st[LOG_KEY := LogText(log)]
  }

  function Snapshot(tracked: set<string>, st: Storage): map<string, Value> {
    map k | k in tracked && k in st :: st[k]
  }

  /** `applySnapshot` on a set of keys: present in the snapshot, set; absent and tracked,
      removed; otherwise left alone. */
  function Apply(tracked: set<string>, st: Storage, snapshot: map<string, Value>, keys: set<string>): Storage {
    map k | k in st.Keys + snapshot.Keys
            && (if k in keys then k in snapshot || (k in st && k !in tracked) else k in st)
      :: if k in keys && k in snapshot then snapshot[k] else st[k]
  }

  function Find(log: seq<Commit>, id: string): Option<Commit> {
    if log == [] then None else if log[0].id == id then Some(log[0]) else Find(log[1..], id)
  }

  predicate HasBaseline(log: seq<Commit>) {
    exists i :: 0 <= i < |log| && log[i].baseline
  }

  function BaselineCommit(snapshot: map<string, Value>): Commit {
    Commit("c_baseline", "Baseline - core starting state (protected)", "system", true, None, None, None, snapshot)
  }

  function EnsureBaseline(tracked: set<string>, st: Storage): Storage {
    if HasBaseline(ReadLog(st)) then st else WriteLog(st, [BaselineCommit(Snapshot(tracked, st))])
  }

  function LastId(log: seq<Commit>): Option<string> {
    if log == [] then None else Some(log[|log| - 1].id)
  }

  function Message(given: Option<string>): string {
    var trimmed := match given case None => "" case Some(m) => Trim(m);
    if trimmed == "" then "Update" else trimmed
  }

  /** A commit, unless its author is the AI. `id` is what the clock gave. */
  function CommitNow(tracked: set<string>, st: Storage, id: string, message: Option<string>, author: string)
    : Option<Storage>
  {
    if author == "ai" then None
    else
      var log := ReadLog(st);
      Some(WriteLog(st, log + [Commit(id, Message(message), author, false, LastId(log), None, None,
                                      Snapshot(tracked, st))]))
  }

  function RestoreMessage(c: Commit): string { "Time-travel: restored \"" + c.message + "\"" }

  function RestoreFileMessage(c: Commit, key: string): string {
    "Time-travel: restored file \"" + key + "\" from \"" + c.message + "\""
  }

  function RestoreSnapshot(tracked: set<string>, st: Storage, target: string, id: string): Option<Storage> {
    var log := ReadLog(st);
    match Find(log, target)
    case None => None
    case Some(c) =>
      var applied := Apply(tracked, st, c.snapshot, tracked);
      Some(WriteLog(applied, log + [Commit(id, RestoreMessage(c), "user", false, LastId(log), Some(target), None,
                                           c.snapshot)]))
  }

  function RestoreFile(tracked: set<string>, st: Storage, target: string, key: string, id: string): Option<Storage> {
    var log := ReadLog(st);
    match Find(log, target)
    case None => None
    case Some(c) =>
      var applied := Apply(tracked, st, c.snapshot, {key});
      Some(WriteLog(applied, log + [Commit(id, RestoreFileMessage(c, key), "user", false, LastId(log), Some(target),
                                           Some(key), Snapshot(tracked, applied))]))
  }

  function DirtyKeys(tracked: set<string>, st: Storage): set<string> {
    var log, now := ReadLog(st), Snapshot(tracked, st);
    if log == [] then now.Keys
    else
      var last := log[|log| - 1].snapshot;
      set k | k in last.Keys + now.Keys && !(k in last && k in now && last[k] == now[k])
  }

  // ---- single operations ----

  /** A key's text, if it has one. */
  function At(m: map<string, Value>, key: string): Option<Value> {
    if key in m then Some(m[key]) else None
  }

  /** A commit by the AI is refused. Any other appends one entry by its author, with the text
      of every tracked key, the entry before as parent, and a trimmed message that is never
      empty; it touches no other key and leaves nothing dirty. */
  lemma CommitDoes(tracked: set<string>, st: Storage, id: string, message: Option<string>, author: string)
    requires LOG_KEY !in tracked
    ensures CommitNow(tracked, st, id, message, author) == None <==> author == "ai"
    ensures author != "ai" ==>
      var st' := CommitNow(tracked, st, id, message, author).value;
      var log, log' := ReadLog(st), ReadLog(st');
      && |log'| == |log| + 1 && log <= log'
      && var c := log'[|log|];
         && c.id == id && c.author == author && !c.baseline && c.restoredFrom == None && c.restoredFile == None
         && c.parent == (if log == [] then None else Some(log[|log| - 1].id))
         && (forall key :: At(c.snapshot, key) == if key in tracked then At(st, key) else None)
         && Trimmed(c.message) && c.message != ""
         && (message.Some? && Trim(message.value) != "" ==> c.message == Trim(message.value))
         && (message.None? || Trim(message.value) == "" ==> c.message == "Update")
         && (forall key :: key != LOG_KEY ==> At(st', key) == At(st, key)) && DirtyKeys(tracked, st') == {}
  {
    if author != "ai" {
      var st' := CommitNow(tracked, st, id, message, author).value;
      assert Snapshot(tracked, st') == Snapshot(tracked, st);
      CleanIff(tracked, st');
      if message.Some? { TrimIsTrimmed(message.value); }
    }
  }

  /** A key is dirty exactly when its tracked text is not that of the latest entry; without
      history, exactly when it is tracked and has a text. */
  lemma DirtyIff(tracked: set<string>, st: Storage, key: string)
    ensures var log, now := ReadLog(st), if key in tracked then At(st, key) else None;
      key in DirtyKeys(tracked, st) <==>
        if log == [] then now.Some? else At(log[|log| - 1].snapshot, key) != now
  {
  }

  lemma {:induction false} FindFinds(log: seq<Commit>, id: string)
    ensures Find(log, id).Some? ==> Find(log, id).value in log && Find(log, id).value.id == id
    ensures Find(log, id).None? <==> forall c :: c in log ==> c.id != id
  {
    if log != [] {
      FindFinds(log[1..], id);
      assert log == [log[0]] + log[1..];
    }
  }

  /** The working tree is clean exactly when the tracked state is the latest snapshot. */
  lemma CleanIff(tracked: set<string>, st: Storage)
    requires ReadLog(st) != []
    ensures DirtyKeys(tracked, st) == {} <==> Snapshot(tracked, st) == ReadLog(st)[|ReadLog(st)| - 1].snapshot
  {
    var last, now := ReadLog(st)[|ReadLog(st)| - 1].snapshot, Snapshot(tracked, st);
    if DirtyKeys(tracked, st) == {} {
      forall k ensures (k in last <==> k in now) && (k in last ==> last[k] == now[k]) {
        assert k !in DirtyKeys(tracked, st);
      }
      assert last == now;
    }
  }

  /** After restoring a commit the tracked state is that commit's snapshot, nothing is
      dirty, no untracked key except the log has changed, and the log has grown by one
      entry that points back at the commit. */
  lemma RestoreSnapshotRestores(tracked: set<string>, st: Storage, target: string, id: string)
    requires LOG_KEY !in tracked
    requires Find(ReadLog(st), target).Some? && Find(ReadLog(st), target).value.snapshot.Keys <= tracked
    ensures var st' := RestoreSnapshot(tracked, st, target, id).value;
      var c := Find(ReadLog(st), target).value;
      && Snapshot(tracked, st') == c.snapshot
      && (forall k :: k in tracked ==> At(st', k) == At(c.snapshot, k))
      && DirtyKeys(tracked, st') == {}
      && (forall k :: k !in tracked && k != LOG_KEY ==> (k in st' <==> k in st) && (k in st ==> st'[k] == st[k]))
      && |ReadLog(st')| == |ReadLog(st)| + 1 && ReadLog(st) <= ReadLog(st')
      && ReadLog(st')[|ReadLog(st)|].restoredFrom == Some(target) && ReadLog(st')[|ReadLog(st)|].id == id
      && ReadLog(st')[|ReadLog(st)|].restoredFile == None && ReadLog(st')[|ReadLog(st)|].author == "user"
  {
    var st' := RestoreSnapshot(tracked, st, target, id).value;
    var c := Find(ReadLog(st), target).value;
    assert Snapshot(tracked, st') == c.snapshot;
    CleanIff(tracked, st');
  }

  /** Restoring one file changes that one key (and the log), to the commit's value for it
      or to absence; a key that is neither tracked nor in the snapshot stays as it was. */
  lemma RestoreFileChangesOneKey(tracked: set<string>, st: Storage, target: string, key: string, id: string)
    requires LOG_KEY !in tracked
    requires Find(ReadLog(st), target).Some? && Find(ReadLog(st), target).value.snapshot.Keys <= tracked
    ensures var st' := RestoreFile(tracked, st, target, key, id).value;
      var c := Find(ReadLog(st), target).value;
      && (forall k :: k != key && k != LOG_KEY ==> (k in st' <==> k in st) && (k in st ==> st'[k] == st[k]))
      && (key in tracked ==> (key in st' <==> key in c.snapshot) && (key in c.snapshot ==> st'[key] == c.snapshot[key]))
      && (key !in tracked && key != LOG_KEY ==> (key in st' <==> key in st) && (key in st ==> st'[key] == st[key]))
      && |ReadLog(st')| == |ReadLog(st)| + 1 && ReadLog(st) <= ReadLog(st')
      && ReadLog(st')[|ReadLog(st)|].restoredFrom == Some(target) && ReadLog(st')[|ReadLog(st)|].id == id
      && ReadLog(st')[|ReadLog(st)|].restoredFile == Some(key) && ReadLog(st')[|ReadLog(st)|].author == "user"
      && DirtyKeys(tracked, st') == {}
  {
    var st' := RestoreFile(tracked, st, target, key, id).value;
    var applied := Apply(tracked, st, Find(ReadLog(st), target).value.snapshot, {key});
    assert Snapshot(tracked, st') == Snapshot(tracked, applied);
    CleanIff(tracked, st');
  }

  /** `ensureBaseline` keeps the history it finds exactly when that is empty or already has
      a baseline; any other history it replaces. */
  lemma BaselineKeepsHistoryIff(tracked: set<string>, st: Storage)
    ensures ReadLog(st) <= ReadLog(EnsureBaseline(tracked, st)) <==> ReadLog(st) == [] || HasBaseline(ReadLog(st))
  {
    var log := ReadLog(st);
    if log != [] && !HasBaseline(log) {
      assert !log[0].baseline;
    }
  }

  // ---- whole runs ----

  datatype Step =
    | Write(key: string, text: string)
    | Remove(removed: string)
    | Baseline
    | MakeCommit(id: string, message: Option<string>, author: string)
    | Restore(target: string, restoreId: string)
    | RestoreOne(from: string, file: string, fileId: string)

  /** The application writes any key but the log's; a refused operation changes nothing. */
  function Next(tracked: set<string>, st: Storage, step: Step): Storage {
    var outcome := match step
      case Write(k, text) => if k == LOG_KEY then None else Some(st[k := Text(text)])
      case Remove(k) => if k == LOG_KEY then None else Some(st - {k})
      case Baseline => Some(EnsureBaseline(tracked, st))
      case MakeCommit(id, message, author) => CommitNow(tracked, st, id, message, author)
      case Restore(target, id) => RestoreSnapshot(tracked, st, target, id)
      case RestoreOne(target, key, id) => RestoreFile(tracked, st, target, key, id);
    match outcome case None => st case Some(st') => st'
  }

  function Run(tracked: set<string>, st: Storage, steps: seq<Step>): Storage
    decreases |steps|
  {
    if steps == [] then st else Run(tracked, Next(tracked, st, steps[0]), steps[1..])
  }

  /** Entry 0 is the only baseline, every later entry's parent is the entry before it, and
      every snapshot holds only tracked keys. */
  ghost predicate WellFormed(tracked: set<string>, log: seq<Commit>) {
    && log != []
    && log[0].baseline && log[0].parent == None
    && (forall i :: 0 < i < |log| ==> !log[i].baseline && log[i].parent == Some(log[i - 1].id))
    && (forall i :: 0 <= i < |log| ==> log[i].snapshot.Keys <= tracked)
  }

  lemma AppendKeepsWellFormed(tracked: set<string>, log: seq<Commit>, c: Commit)
    requires WellFormed(tracked, log)
    requires !c.baseline && c.parent == LastId(log) && c.snapshot.Keys <= tracked
    ensures WellFormed(tracked, log + [c])
  {
  }

  lemma NextExtendsHistory(tracked: set<string>, st: Storage, step: Step)
    requires LOG_KEY !in tracked && WellFormed(tracked, ReadLog(st))
    ensures ReadLog(st) <= ReadLog(Next(tracked, st, step)) && WellFormed(tracked, ReadLog(Next(tracked, st, step)))
  {
    var log, log' := ReadLog(st), ReadLog(Next(tracked, st, step));
    match step
    case Write(_, _) => assert log' == log;
    case Remove(_) => assert log' == log;
    case Baseline => assert HasBaseline(log);
    case MakeCommit(_, _, _) =>
      if log' != log { AppendKeepsWellFormed(tracked, log, log'[|log|]); }
    case Restore(target, _) =>
      FindFinds(log, target);
      if log' != log { AppendKeepsWellFormed(tracked, log, log'[|log|]); }
    case RestoreOne(target, _, _) =>
      FindFinds(log, target);
      if log' != log { AppendKeepsWellFormed(tracked, log, log'[|log|]); }
  }

  lemma {:induction false} RunExtendsHistory(tracked: set<string>, st: Storage, steps: seq<Step>)
    requires LOG_KEY !in tracked && WellFormed(tracked, ReadLog(st))
    ensures ReadLog(st) <= ReadLog(Run(tracked, st, steps)) && WellFormed(tracked, ReadLog(Run(tracked, st, steps)))
    decreases |steps|
  {
    if steps != [] {
      NextExtendsHistory(tracked, st, steps[0]);
      RunExtendsHistory(tracked, Next(tracked, st, steps[0]), steps[1..]);
    }
  }

  lemma NextKeepsHistory(tracked: set<string>, st: Storage, step: Step)
    requires LOG_KEY !in tracked && HasBaseline(ReadLog(st))
    ensures ReadLog(st) <= ReadLog(Next(tracked, st, step)) && HasBaseline(ReadLog(Next(tracked, st, step)))
  {
    var log, log' := ReadLog(st), ReadLog(Next(tracked, st, step));
    assert log <= log';
    var i :| 0 <= i < |log| && log[i].baseline;
    assert log'[i].baseline;
  }

  lemma {:induction false} RunKeepsHistory(tracked: set<string>, st: Storage, steps: seq<Step>)
    requires LOG_KEY !in tracked && HasBaseline(ReadLog(st))
    ensures ReadLog(st) <= ReadLog(Run(tracked, st, steps)) && HasBaseline(ReadLog(Run(tracked, st, steps)))
    decreases |steps|
  {
    if steps != [] {
      NextKeepsHistory(tracked, st, steps[0]);
      RunKeepsHistory(tracked, Next(tracked, st, steps[0]), steps[1..]);
    }
  }

  /** History is append-only. Over any run that starts with `ensureBaseline`, on any storage
      at all, the log at an earlier point is a prefix of the log at a later one. */
  lemma HistoryIsAppendOnly(tracked: set<string>, st: Storage, a: seq<Step>, b: seq<Step>)
    requires LOG_KEY !in tracked
    ensures var y := Run(tracked, EnsureBaseline(tracked, st), a);
      ReadLog(y) <= ReadLog(Run(tracked, y, b))
  {
    var x := EnsureBaseline(tracked, st);
    if !HasBaseline(ReadLog(st)) { assert ReadLog(x)[0].baseline; }
    RunKeepsHistory(tracked, x, a);
    RunKeepsHistory(tracked, Run(tracked, x, a), b);
  }

  /** And the log is well formed from then on exactly when the run starts on storage without
      a baseline or with a well-formed history. */
  lemma HistoryStaysWellFormedIff(tracked: set<string>, st: Storage, steps: seq<Step>)
    requires LOG_KEY !in tracked
    ensures WellFormed(tracked, ReadLog(Run(tracked, EnsureBaseline(tracked, st), steps))) <==>
      !HasBaseline(ReadLog(st)) || WellFormed(tracked, ReadLog(st))
  {
    var log, end := ReadLog(st), ReadLog(Run(tracked, EnsureBaseline(tracked, st), steps));
    if !HasBaseline(log) || WellFormed(tracked, log) {
      RunExtendsHistory(tracked, EnsureBaseline(tracked, st), steps);
    } else {
      RunKeepsHistory(tracked, st, steps);
      if WellFormed(tracked, end) {
        PrefixIsWellFormed(tracked, log, end);
      }
    }
  }

  lemma PrefixIsWellFormed(tracked: set<string>, log: seq<Commit>, longer: seq<Commit>)
    requires WellFormed(tracked, longer) && log <= longer && log != []
    ensures WellFormed(tracked, log)
  {
    forall i | 0 <= i < |log| ensures log[i] == longer[i] {}
  }

  lemma {:induction false} FindInPrefix(log: seq<Commit>, longer: seq<Commit>, id: string)
    requires log <= longer && Find(log, id).Some?
    ensures Find(longer, id) == Find(log, id)
  {
    assert longer[0] == log[0];
    if log[0].id != id {
      assert log[1..] <= longer[1..];
      FindInPrefix(log[1..], longer[1..], id);
    }
  }

  /** Of entries with one id the first is found. */
  lemma {:induction false} FindAfterAppend(log: seq<Commit>, c: Commit)
    ensures Find(log + [c], c.id) == if Find(log, c.id).Some? then Find(log, c.id) else Some(c)
  {
    if log == [] {
      assert log + [c] == [c];
    } else {
      assert (log + [c])[0] == log[0] && (log + [c])[1..] == log[1..] + [c];
      FindAfterAppend(log[1..], c);
    }
  }

  /** Time travel round-trips: commit the state under an id, go anywhere, do anything, and
      restoring that id brings back exactly the tracked state that was left — if and only if
      the id was new, or its first commit held that very state. */
  lemma TimeTravelRoundTrips(tracked: set<string>, st: Storage, id: string, message: Option<string>, author: string,
                             steps: seq<Step>, backId: string)
    requires LOG_KEY !in tracked && WellFormed(tracked, ReadLog(st)) && author != "ai"
    ensures var left := CommitNow(tracked, st, id, message, author).value;
      var back := RestoreSnapshot(tracked, Run(tracked, left, steps), id, backId);
      var earlier := Find(ReadLog(st), id);
      && back.Some? && DirtyKeys(tracked, back.value) == {}
      && ((forall key :: key in tracked ==> At(back.value, key) == At(st, key)) <==>
            earlier.None? || forall key :: key in tracked ==> At(earlier.value.snapshot, key) == At(st, key))
  {
    var log := ReadLog(st);
    var left := CommitNow(tracked, st, id, message, author).value;
    var c := Commit(id, Message(message), author, false, LastId(log), None, None, Snapshot(tracked, st));
    assert ReadLog(left) == log + [c];
    FindAfterAppend(log, c);
    AppendKeepsWellFormed(tracked, log, c);
    RunExtendsHistory(tracked, left, steps);
    var away := Run(tracked, left, steps);
    FindInPrefix(ReadLog(left), ReadLog(away), id);
    FindFinds(ReadLog(left), id);
    RestoreSnapshotRestores(tracked, away, id, backId);
  }

  /** The baseline call on storage without a baseline records the tracked state as it is and
      nothing else; and whatever is done later, restoring the baseline brings exactly that
      state back. */
  lemma BaselineCanBeRestored(tracked: set<string>, st: Storage, steps: seq<Step>, backId: string)
    requires LOG_KEY !in tracked && !HasBaseline(ReadLog(st))
    ensures var start := EnsureBaseline(tracked, st);
      var back := RestoreSnapshot(tracked, Run(tracked, start, steps), "c_baseline", backId);
      && |ReadLog(start)| == 1 && DirtyKeys(tracked, start) == {}
      && ReadLog(start)[0].baseline && ReadLog(start)[0].id == "c_baseline" && ReadLog(start)[0].author == "system"
      && (forall key :: key != LOG_KEY ==> At(start, key) == At(st, key))
      && back.Some? && (forall key :: key in tracked ==> At(back.value, key) == At(st, key))
  {
    var start := EnsureBaseline(tracked, st);
    assert Snapshot(tracked, start) == Snapshot(tracked, st);
    CleanIff(tracked, start);
    RunExtendsHistory(tracked, start, steps);
    var end := Run(tracked, start, steps);
    FindInPrefix(ReadLog(start), ReadLog(end), "c_baseline");
    RestoreSnapshotRestores(tracked, end, "c_baseline", backId);
  }

  /** Two commits within one tick of the clock share an id, and only the first can be gone
      back to. */
  lemma SecondCommitOfOneTickIsLost(tracked: set<string>, st: Storage, id: string, key: string, a: string, b: string,
                                    backId: string)
    requires LOG_KEY !in tracked && key in tracked && a != b && Find(ReadLog(st), id).None?
    ensures var one := CommitNow(tracked, st[key := Text(a)], id, None, "user").value;
      var two := CommitNow(tracked, one[key := Text(b)], id, None, "user").value;
      var back := RestoreSnapshot(tracked, two, id, backId);
      && two[key] == Text(b) && back.Some? && key in back.value && back.value[key] == Text(a)
  {
    var start := st[key := Text(a)];
    var one := CommitNow(tracked, start, id, None, "user").value;
    var two := CommitNow(tracked, one[key := Text(b)], id, None, "user").value;
    var log := ReadLog(st);
    var first := Commit(id, Message(None), "user", false, LastId(log), None, None, Snapshot(tracked, start));
    assert ReadLog(start) == log && ReadLog(one) == log + [first] == ReadLog(one[key := Text(b)]);
    FindAfterAppend(log, first);
    FindInPrefix(ReadLog(one), ReadLog(two), id);
  }

  /** A commit made before the first baseline call is replaced by it. */
  lemma CommitBeforeBaselineIsLost(tracked: set<string>, st: Storage, id: string, message: Option<string>)
    requires ReadLog(st) == [] && id != "c_baseline"
    ensures var one := CommitNow(tracked, st, id, message, "user").value;
      Find(ReadLog(one), id).Some? && Find(ReadLog(EnsureBaseline(tracked, one)), id).None?
  {
    var one := CommitNow(tracked, st, id, message, "user").value;
    assert |ReadLog(one)| == 1 && !HasBaseline(ReadLog(one));
    var after := ReadLog(EnsureBaseline(tracked, one));
    assert |after| == 1 && after[0].id == "c_baseline" && after[1..] == [];
  }

  // ---- the operations as methods on mutable state ----

  function AsSet(keys: seq<string>): set<string> { set k | k in keys }

  class Vcs {
    const trackedKeys: seq<string>
    var storage: Storage

    ghost function Tracked(): set<string> { AsSet(trackedKeys) }

    constructor (trackedKeys: seq<string>, storage: Storage)
      ensures this.trackedKeys == trackedKeys && this.storage == storage
    {
      this.trackedKeys := trackedKeys;
      this.storage := storage;
    }

    method SnapshotNow() returns (snap: map<string, Value>)
      ensures snap == Snapshot(Tracked(), storage)
    {
      snap := map[];
      for i := 0 to |trackedKeys|
        invariant snap == Snapshot(AsSet(trackedKeys[..i]), storage)
      {
        var k := trackedKeys[i];
        assert AsSet(trackedKeys[..i + 1]) == AsSet(trackedKeys[..i]) + {k};
        if k in storage { snap := snap[k := storage[k]]; }
      }
      assert trackedKeys[..|trackedKeys|] == trackedKeys;
    }

    method ApplySnapshot(snapshot: map<string, Value>, keys: seq<string>)
      modifies this`storage
      ensures storage == Apply(Tracked(), old(storage), snapshot, AsSet(keys))
    {
      for i := 0 to |keys|
        invariant storage == Apply(Tracked(), old(storage), snapshot, AsSet(keys[..i]))
      {
        var k := keys[i];
        assert AsSet(keys[..i + 1]) == AsSet(keys[..i]) + {k};
        if k in snapshot { storage := storage[k := snapshot[k]]; }
        else if k in trackedKeys { storage := storage - {k}; }
      }
      assert keys[..|keys|] == keys;
    }

    method EnsureBaselineCommit()
      modifies this`storage
      ensures storage == EnsureBaseline(Tracked(), old(storage))
    {
      var log := ReadLog(storage);
      if HasBaseline(log) { return; }
      var snapshot := SnapshotNow();
      storage := WriteLog(storage, [BaselineCommit(snapshot)]);
    }

    method CommitState(id: string, message: Option<string>, author: string) returns (accepted: bool)
      modifies this`storage
      ensures var outcome := CommitNow(Tracked(), old(storage), id, message, author);
        if accepted then outcome == Some(storage) else outcome.None? && storage == old(storage)
    {
      if author == "ai" { return false; }
      var log := ReadLog(storage);
      var parent := if |log| > 0 then Some(log[|log| - 1].id) else None;
      var snapshot := SnapshotNow();
      var text := if message.Some? then Trim(message.value) else "";
      if text == "" { text := "Update"; }
      storage := WriteLog(storage, log + [Commit(id, text, author, false, parent, None, None, snapshot)]);
      return true;
    }

    method RestoreTo(target: string, id: string) returns (found: bool)
      modifies this`storage
      ensures var outcome := RestoreSnapshot(Tracked(), old(storage), target, id);
        if found then outcome == Some(storage) else outcome.None? && storage == old(storage)
    {
      var log := ReadLog(storage);
      var hit := Find(log, target);
      if hit.None? { return false; }
      var c := hit.value;
      ApplySnapshot(c.snapshot, trackedKeys);
      storage := WriteLog(storage, log + [Commit(
        id, RestoreMessage(c), "user", false, LastId(log), Some(target), None, c.snapshot)]);
      return true;
    }

    method RestoreFileTo(target: string, key: string, id: string) returns (found: bool)
      modifies this`storage
      ensures var outcome := RestoreFile(Tracked(), old(storage), target, key, id);
        if found then outcome == Some(storage) else outcome.None? && storage == old(storage)
    {
      var log := ReadLog(storage);
      var hit := Find(log, target);
      if hit.None? { return false; }
      var c := hit.value;
      ApplySnapshot(c.snapshot, [key]);
      assert AsSet([key]) == {key};
      var snapshot := SnapshotNow();
      storage := WriteLog(storage, log + [Commit(
        id, RestoreFileMessage(c, key), "user", false, LastId(log), Some(target), Some(key), snapshot)]);
      return true;
    }
  }
}
