/** Agent actions over a store of entities, the reverse patch each one records, and the
    undo of a whole plan. The server is an oracle (`Env`): it may refuse any call, chooses
    the id of a created entity and the time stamps, and may lose a log write. What an
    accepted PATCH does with a null is a parameter (`PatchRule`). */
module Undo {
  import opened Options

  datatype Json = Null | Text(s: string)
  type Fields = map<string, Json>
  type Store = map<string, Fields>

  /** A field as a reader sees it: absent and null are the same. */
  function Field(f: Fields, key: string): Json {
    if key in f then f[key] else Null
  }

  datatype Reverse = Reverse(id: string, patch: Fields)

  datatype EventKind = ActionApplied(tool: string) | ActionUndone(undoes: string) | ActionDenied(denied: string)
  datatype Event = Event(eventId: string, ts: int, kind: EventKind, reverse: Option<Reverse>)

  datatype World = World(store: Store, log: seq<Event>)

  /** `fields` is the patch of an update and the content of a create. */
  datatype Action = Action(tool: string, id: string, fields: Fields)

  /** What the server does during one action. `other` is the entity store left behind by
      the tools whose effect on entities is not this program's. */
  datatype Env = Env(getOk: bool, runOk: bool, logOk: bool, newId: string, eventId: string, ts: int, other: Store)

  datatype Classification = Allowed | Gated | Forbidden

  datatype Status = WasForbidden | PendingApproval | Failed | Applied(reverse: Option<Reverse>)

  const CREATE := "entity.create"
  const UPDATE := "entity.update"
  const DRAFT := "draft.create"
  const OTHER_ALLOWED: set<string> :=
    {"edge.create", "view.configure", "dashboard.arrange", "navigate", "pipeline.run", "module.requestBuild", "search"}

  /** Protected tools are simply absent, and an absent tool is forbidden. */
  function ClassifyAction(tool: string): Classification {
    if tool == CREATE || tool == UPDATE || tool in OTHER_ALLOWED then Allowed
    else if tool == DRAFT then Gated
    else Forbidden
  }

  /** The meaning of a PATCH: plain assignment of every key it names, or that of the entity
      route, which updates five columns and keeps a column whose new value is null. */
  datatype PatchRule = NullClears | NullKeeps

  const COLUMNS: set<string> := {"title", "status", "tier", "parent_id", "attrs"}

  /** The assignments a patch makes. */
  function Written(rule: PatchRule, patch: Fields): Fields {
    match rule
    case NullClears => patch
    case NullKeeps => map key | key in patch && key in COLUMNS && patch[key] != Null :: patch[key]
  }

  function Patch(rule: PatchRule, s: Store, id: string, patch: Fields): Store {
    if id in s then s[id := s[id] + Written(rule, patch)] else s
  }

  function DraftFields(f: Fields): Fields {
    if Field(f, "status") == Null || Field(f, "status") == Text("") then f["status" := Text("pending_approval")] else f
  }

  /** The tool's `run`: whether it succeeds, and the store afterwards. */
  function RunTool(rule: PatchRule, s: Store, a: Action, env: Env): (bool, Store) {
    if !env.runOk then (false, s)
    else if a.tool == UPDATE then (a.id in s, Patch(rule, s, a.id, a.fields))
    else if a.tool == CREATE then (true, s[env.newId := a.fields])
    else if a.tool == DRAFT then (true, s[env.newId := DraftFields(a.fields)])
    else (true, env.other)
  }

  function ReversePatch(before: Fields, patch: Fields): Fields {
    map key | key in patch :: Field(before, key)
  }

  function ComputeReverse(a: Action, before: Option<Fields>, newId: string): Option<Reverse> {
    if a.tool == UPDATE then
      if before.None? then None else Some(Reverse(a.id, ReversePatch(before.value, a.fields)))
    else if a.tool == CREATE || a.tool == DRAFT then
      if newId == "" then None else Some(Reverse(newId, map["status" := Text("undone")]))
    else None
  }

  function Before(s: Store, a: Action, env: Env): Option<Fields> {
    if a.tool == UPDATE && a.id != "" && env.getOk && a.id in s then Some(s[a.id]) else None
  }

  function Logged(w: World, env: Env, kind: EventKind, reverse: Option<Reverse>): World {
    if env.logOk then w.(log := w.log + [Event(env.eventId, env.ts, kind, reverse)]) else w
  }

  function Execute(rule: PatchRule, w: World, a: Action, approved: bool, env: Env): (World, Status) {
    match ClassifyAction(a.tool)
    case Forbidden => (Logged(w, env, ActionDenied(a.tool), None), WasForbidden)
    case c =>
      if c == Gated && !approved then (w, PendingApproval)
      else
        var (ok, store) := RunTool(rule, w.store, a, env);
        if !ok then (w.(store := store), Failed)
        else
          var reverse := ComputeReverse(a, Before(w.store, a, env), env.newId);
          (Logged(World(store, w.log), env, ActionApplied(a.tool), reverse), Applied(reverse))
  }

  /** Re-invokes an event's stored reverse, if it has one. */
  function UndoStore(rule: PatchRule, s: Store, e: Event): Store {
    match e.reverse case None => s case Some(r) => Patch(rule, s, r.id, r.patch)
  }

  function UndoStores(rule: PatchRule, s: Store, ordered: seq<Event>): Store {
    if ordered == [] then s else UndoStores(rule, UndoStore(rule, s, ordered[0]), ordered[1..])
  }

  datatype UndoResult = NotReversible | UndoFailed | Undone

  /** One undo: the stored reverse is run as a new update and recorded as a new event. */
  function UndoOne(rule: PatchRule, w: World, e: Event, env: Env): (World, UndoResult) {
    match e.reverse
    case None => (w, NotReversible)
    case Some(r) =>
      if !env.runOk || r.id !in w.store then (w, UndoFailed)
      else (Logged(World(Patch(rule, w.store, r.id, r.patch), w.log), env, ActionUndone(e.eventId), None), Undone)
  }

  /** Undoing events in order; the server answers each call as it likes. */
  function UndoAll(rule: PatchRule, w: World, ordered: seq<Event>, envs: seq<Env>): (World, seq<UndoResult>)
    requires |envs| == |ordered|
    decreases |ordered|
  {
    if ordered == [] then (w, [])
    else
      var (next, result) := UndoOne(rule, w, ordered[0], envs[0]);
      var (end, results) := UndoAll(rule, next, ordered[1..], envs[1..]);
      (end, [result] + results)
  }

  lemma UndoAllFrom(rule: PatchRule, w: World, ordered: seq<Event>, envs: seq<Env>, i: nat)
    requires |envs| == |ordered| && i < |ordered|
    ensures var (next, result) := UndoOne(rule, w, ordered[i], envs[i]);
      var (end, results) := UndoAll(rule, next, ordered[i + 1..], envs[i + 1..]);
      UndoAll(rule, w, ordered[i..], envs[i..]) == (end, [result] + results)
  {
    assert ordered[i..][0] == ordered[i] && ordered[i..][1..] == ordered[i + 1..];
    assert envs[i..][0] == envs[i] && envs[i..][1..] == envs[i + 1..];
  }

  /** The event records the undo of one of `ordered` that was reported undone. */
  ghost predicate Records(e: Event, ordered: seq<Event>, results: seq<UndoResult>)
    requires |results| == |ordered|
  {
    exists i :: 0 <= i < |ordered| && results[i] == Undone && e.kind == ActionUndone(ordered[i].eventId)
  }

  /** History is never rewritten: undo only appends events, each of them for an event
      reported undone. */
  lemma {:induction false} UndoOnlyAppends(rule: PatchRule, w: World, ordered: seq<Event>, envs: seq<Env>)
    requires |envs| == |ordered|
    ensures var (end, results) := UndoAll(rule, w, ordered, envs);
      && |results| == |ordered| && w.log <= end.log
      && (forall k :: |w.log| <= k < |end.log| ==> Records(end.log[k], ordered, results))
    decreases |ordered|
  {
    if ordered != [] {
      var (next, result) := UndoOne(rule, w, ordered[0], envs[0]);
      var (end, results) := UndoAll(rule, next, ordered[1..], envs[1..]);
      UndoOnlyAppends(rule, next, ordered[1..], envs[1..]);
      var all := [result] + results;
      forall k | |w.log| <= k < |end.log| ensures Records(end.log[k], ordered, all) {
        if k < |next.log| {
          assert all[0] == Undone && end.log[k] == next.log[k];
        } else {
          assert Records(end.log[k], ordered[1..], results);
          var i :| 0 <= i < |ordered[1..]| && results[i] == Undone
            && end.log[k].kind == ActionUndone(ordered[1..][i].eventId);
          assert all[i + 1] == Undone && ordered[i + 1] == ordered[1..][i];
        }
      }
    }
  }

  /** The events whose undo the server accepts. */
  function Accepted(ordered: seq<Event>, envs: seq<Env>): seq<Event>
    requires |envs| == |ordered|
    decreases |ordered|
  {
    if ordered == [] then []
    else (if envs[0].runOk then [ordered[0]] else []) + Accepted(ordered[1..], envs[1..])
  }

  lemma {:induction false} AllAccepted(ordered: seq<Event>, envs: seq<Env>)
    requires |envs| == |ordered| && forall env :: env in envs ==> env.runOk
    ensures Accepted(ordered, envs) == ordered
    decreases |ordered|
  {
    if ordered != [] {
      assert envs[0].runOk;
      AllAccepted(ordered[1..], envs[1..]);
    }
  }

  /** Undo leaves the reverses of the accepted calls applied in turn. */
  lemma {:induction false} UndoAllStore(rule: PatchRule, w: World, ordered: seq<Event>, envs: seq<Env>)
    requires |envs| == |ordered|
    ensures UndoAll(rule, w, ordered, envs).0.store == UndoStores(rule, w.store, Accepted(ordered, envs))
    decreases |ordered|
  {
    if ordered != [] {
      var rest := Accepted(ordered[1..], envs[1..]);
      UndoAllStore(rule, UndoOne(rule, w, ordered[0], envs[0]).0, ordered[1..], envs[1..]);
      if envs[0].runOk {
        assert ([ordered[0]] + rest)[0] == ordered[0] && ([ordered[0]] + rest)[1..] == rest;
      } else {
        assert [] + rest == rest;
      }
    }
  }

  /** An undo succeeds exactly when its event has a reverse, the server accepts the call and
      the entity is there. */
  function Report(ids: set<string>, e: Event, env: Env): UndoResult {
    if e.reverse.None? then NotReversible
    else if env.runOk && e.reverse.value.id in ids then Undone
    else UndoFailed
  }

  /** The event of a successful undo, unless it is lost. */
  function RecordOf(ids: set<string>, e: Event, env: Env): seq<Event> {
    if Report(ids, e, env) == Undone && env.logOk
    then [Event(env.eventId, env.ts, ActionUndone(e.eventId), None)]
    else []
  }

  function RecordsOf(ids: set<string>, ordered: seq<Event>, envs: seq<Env>): seq<Event>
    requires |envs| == |ordered|
    decreases |ordered|
  {
    if ordered == [] then [] else RecordOf(ids, ordered[0], envs[0]) + RecordsOf(ids, ordered[1..], envs[1..])
  }

  lemma UndoOneReports(rule: PatchRule, w: World, e: Event, env: Env)
    ensures var (next, result) := UndoOne(rule, w, e, env);
      && next.store.Keys == w.store.Keys && result == Report(w.store.Keys, e, env)
      && next.log == w.log + RecordOf(w.store.Keys, e, env)
  {
    assert w.log + [] == w.log;
  }

  /** What an undo of many reports and records: it keeps the entities it finds, so each report
      can be read off beforehand, and the log gains the events of the successes in order. */
  lemma {:induction false} UndoReports(rule: PatchRule, w: World, ordered: seq<Event>, envs: seq<Env>)
    requires |envs| == |ordered|
    ensures var (end, results) := UndoAll(rule, w, ordered, envs);
      && end.store.Keys == w.store.Keys
      && |results| == |ordered|
      && (forall i :: 0 <= i < |ordered| ==> results[i] == Report(w.store.Keys, ordered[i], envs[i]))
      && end.log == w.log + RecordsOf(w.store.Keys, ordered, envs)
    decreases |ordered|
  {
    if ordered == [] {
      assert w.log + [] == w.log;
    } else {
      hide UndoOne, Report, RecordOf;
      var (next, result) := UndoOne(rule, w, ordered[0], envs[0]);
      UndoOneReports(rule, w, ordered[0], envs[0]);
      UndoReports(rule, next, ordered[1..], envs[1..]);
      var own, rest := RecordOf(w.store.Keys, ordered[0], envs[0]), RecordsOf(w.store.Keys, ordered[1..], envs[1..]);
      assert w.log + (own + rest) == (w.log + own) + rest;
    }
  }

  // ---- what one action does ----

  /** The gate: a tool outside the closed set is refused, whether approved or not, with the
      refusal logged; a draft waits for its approval without any effect; and the other tools
      of the set run without one. */
  lemma GateHolds(rule: PatchRule, w: World, a: Action, approved: bool, env: Env)
    ensures var (end, status) := Execute(rule, w, a, approved, env);
      var free := {"entity.create", "entity.update", "edge.create", "view.configure", "dashboard.arrange", "navigate",
                   "pipeline.run", "module.requestBuild", "search"};
      && (status == WasForbidden <==> a.tool !in free && a.tool != "draft.create")
      && (status == WasForbidden ==>
            end == World(w.store, w.log + if env.logOk
                                          then [Event(env.eventId, env.ts, ActionDenied(a.tool), None)] else []))
      && (status == PendingApproval <==> a.tool == "draft.create" && !approved)
      && (status == PendingApproval ==> end == w)
      && (!env.runOk ==> end.store == w.store && !status.Applied?)
      && (status == Failed ==> end.log == w.log)
  {
    assert w.log + [] == w.log;
  }

  /** What a successful action leaves: an update shows every value it wrote (where nulls keep,
      the values of the five columns that are not null) and no other change; a creation stores
      its fields under the new id, a draft with a status; and in each case the log gets one
      event, unless it is lost, with the reverse that undo uses. */
  lemma AppliedMeans(rule: PatchRule, w: World, a: Action, approved: bool, env: Env)
    requires Execute(rule, w, a, approved, env).1.Applied?
    ensures var (end, status) := Execute(rule, w, a, approved, env);
      var columns := {"title", "status", "tier", "parent_id", "attrs"};
      && (a.tool == "entity.update" ==>
            && a.id in w.store && end.store.Keys == w.store.Keys
            && (forall id :: id in w.store && id != a.id ==> end.store[id] == w.store[id])
            && (forall key :: Field(end.store[a.id], key)
                  == if key in a.fields && (rule.NullClears? || (key in columns && a.fields[key] != Null))
                     then a.fields[key] else Field(w.store[a.id], key)))
      && (a.tool == "entity.create" ==> end.store == w.store[env.newId := a.fields])
      && (a.tool == "draft.create" ==>
            && approved && env.newId in end.store && end.store == w.store[env.newId := end.store[env.newId]]
            && (forall key :: key != "status" ==> Field(end.store[env.newId], key) == Field(a.fields, key))
            && Field(end.store[env.newId], "status")
               == if Field(a.fields, "status") == Null || Field(a.fields, "status") == Text("")
                  then Text("pending_approval") else Field(a.fields, "status"))
      && end.log == w.log + if env.logOk
                            then [Event(env.eventId, env.ts, ActionApplied(a.tool), status.reverse)] else []
  {
    assert w.log + [] == w.log;
  }

  // ---- sorting by time stamp, newest first; the sort is stable ----

  function Insert(e: Event, es: seq<Event>): (r: seq<Event>)
    ensures multiset(r) == multiset(es) + multiset{e}
  {
    if es == [] || e.ts >= es[0].ts then [e] + es
    else
      assert es == [es[0]] + es[1..];
      [es[0]] + Insert(e, es[1..])
  }

  function SortNewestFirst(es: seq<Event>): (r: seq<Event>)
    ensures multiset(r) == multiset(es)
  {
    if es == [] then []
    else
      assert es == [es[0]] + es[1..];
      Insert(es[0], SortNewestFirst(es[1..]))
  }

  function Backwards(es: seq<Event>): (r: seq<Event>)
    ensures |r| == |es| && forall i :: 0 <= i < |es| ==> r[i] == es[|es| - 1 - i]
    ensures multiset(r) == multiset(es)
  {
    if es == [] then []
    else
      assert es == es[..|es| - 1] + [es[|es| - 1]];
      [es[|es| - 1]] + Backwards(es[..|es| - 1])
  }

  ghost predicate NewestFirst(es: seq<Event>) {
    forall i, j :: 0 <= i < j < |es| ==> es[i].ts >= es[j].ts
  }

  ghost predicate StrictlyOlder(es: seq<Event>) {
    forall i, j :: 0 <= i < j < |es| ==> es[i].ts < es[j].ts
  }

  lemma {:induction false} InsertSorts(e: Event, es: seq<Event>)
    requires NewestFirst(es)
    ensures NewestFirst(Insert(e, es))
  {
    if es != [] && e.ts < es[0].ts {
      InsertSorts(e, es[1..]);
      InsertedElements(e, es[1..]);
      forall x | x in Insert(e, es[1..]) ensures x.ts <= es[0].ts {
        assert x == e || x in es[1..];
      }
    }
  }

  lemma InsertedElements(e: Event, es: seq<Event>)
    ensures forall x :: x in Insert(e, es) ==> x in es || x == e
  {
    forall x | x in Insert(e, es) ensures x in es || x == e {
      assert x in multiset(Insert(e, es));
    }
  }

  lemma {:induction false} SortSorts(es: seq<Event>)
    ensures NewestFirst(SortNewestFirst(es))
  {
    if es != [] {
      SortSorts(es[1..]);
      InsertSorts(es[0], SortNewestFirst(es[1..]));
    }
  }

  lemma SameHead(a: seq<Event>, b: seq<Event>)
    requires NewestFirst(a) && multiset(a) == multiset(b) && a != [] && b != []
    requires forall i, j :: 0 <= i < j < |b| ==> b[i].ts > b[j].ts
    ensures a[0] == b[0]
  {
    assert a[0] in multiset(b) && b[0] in multiset(a);
    var k :| 0 <= k < |b| && b[k] == a[0];
    var m :| 0 <= m < |a| && a[m] == b[0];
    assert a[0].ts >= a[m].ts;
  }

  lemma {:induction false} SortedIsUnique(a: seq<Event>, b: seq<Event>)
    requires NewestFirst(a) && multiset(a) == multiset(b)
    requires forall i, j :: 0 <= i < j < |b| ==> b[i].ts > b[j].ts
    ensures a == b
  {
    assert |a| == |multiset(a)| == |multiset(b)| == |b|;
    if b != [] {
      SameHead(a, b);
      TailMultiset(a);
      TailMultiset(b);
      SortedIsUnique(a[1..], b[1..]);
    }
  }

  lemma TailMultiset(a: seq<Event>)
    requires a != []
    ensures multiset(a[1..]) == multiset(a) - multiset{a[0]}
  {
    assert a == [a[0]] + a[1..];
  }

  /** With strictly increasing time stamps the undo order is the application order
      backwards, in whatever order the events were listed. */
  lemma SortReversesHistory(applied: seq<Event>, listed: seq<Event>)
    requires StrictlyOlder(applied) && multiset(listed) == multiset(applied)
    ensures SortNewestFirst(listed) == Backwards(applied)
  {
    SortSorts(listed);
    SortedIsUnique(SortNewestFirst(listed), Backwards(applied));
  }

  // ---- ties ----

  /** The events of one time stamp, in their order. */
  function WithTs(es: seq<Event>, ts: int): seq<Event> {
    if es == [] then [] else (if es[0].ts == ts then [es[0]] else []) + WithTs(es[1..], ts)
  }

  lemma {:induction false} InsertKeepsTies(e: Event, es: seq<Event>, ts: int)
    ensures WithTs(Insert(e, es), ts) == (if e.ts == ts then [e] else []) + WithTs(es, ts)
  {
    if es == [] || e.ts >= es[0].ts {
      assert ([e] + es)[1..] == es;
    } else {
      var rest := Insert(e, es[1..]);
      InsertKeepsTies(e, es[1..], ts);
      assert Insert(e, es) == [es[0]] + rest && ([es[0]] + rest)[1..] == rest;
    }
  }

  lemma {:induction false} SortKeepsTies(es: seq<Event>, ts: int)
    ensures WithTs(SortNewestFirst(es), ts) == WithTs(es, ts)
  {
    if es != [] {
      SortKeepsTies(es[1..], ts);
      InsertKeepsTies(es[0], SortNewestFirst(es[1..]), ts);
    }
  }

  lemma {:induction false} FirstIsNewest(es: seq<Event>, ts: int)
    requires NewestFirst(es) && WithTs(es, ts) != []
    ensures es != [] && es[0].ts >= ts
  {
    if es[0].ts != ts { FirstIsNewest(es[1..], ts); }
  }

  /** A list sorted by time stamp is determined by its ties. */
  lemma {:induction false} TiesDetermine(a: seq<Event>, b: seq<Event>)
    requires NewestFirst(a) && NewestFirst(b) && forall ts :: WithTs(a, ts) == WithTs(b, ts)
    ensures a == b
  {
    if a != [] { FirstIsNewest(b, a[0].ts); }
    if b != [] { FirstIsNewest(a, b[0].ts); }
    if a != [] {
      assert WithTs(a, a[0].ts)[0] == a[0] && WithTs(b, a[0].ts)[0] == b[0];
      forall ts ensures WithTs(a[1..], ts) == WithTs(b[1..], ts) {
        var head := if a[0].ts == ts then [a[0]] else [];
        assert head + WithTs(a[1..], ts) == WithTs(a, ts) == WithTs(b, ts) == head + WithTs(b[1..], ts);
        assert WithTs(a[1..], ts) == (head + WithTs(a[1..], ts))[|head|..];
        assert WithTs(b[1..], ts) == (head + WithTs(b[1..], ts))[|head|..];
      }
      TiesDetermine(a[1..], b[1..]);
    }
  }

  ghost predicate NeverNewer(es: seq<Event>) {
    forall i, j :: 0 <= i < j < |es| ==> es[i].ts <= es[j].ts
  }

  /** Events of one time stamp are listed newest first. */
  ghost predicate TiesNewestFirst(applied: seq<Event>, listed: seq<Event>) {
    forall ts :: WithTs(listed, ts) == WithTs(Backwards(applied), ts)
  }

  /** The undo order is the application order backwards exactly when each group of equal
      time stamps was listed newest first; the order of different times does not matter. */
  lemma UndoOrderIff(applied: seq<Event>, listed: seq<Event>)
    requires NeverNewer(applied)
    ensures SortNewestFirst(listed) == Backwards(applied) <==> TiesNewestFirst(applied, listed)
  {
    forall ts ensures WithTs(SortNewestFirst(listed), ts) == WithTs(listed, ts) {
      SortKeepsTies(listed, ts);
    }
    if TiesNewestFirst(applied, listed) {
      SortSorts(listed);
      TiesDetermine(SortNewestFirst(listed), Backwards(applied));
    }
  }

  /** Without ties any order of listing will do. */
  lemma NoTiesAnyListing(applied: seq<Event>, listed: seq<Event>)
    requires StrictlyOlder(applied) && multiset(listed) == multiset(applied)
    ensures TiesNewestFirst(applied, listed)
  {
    SortReversesHistory(applied, listed);
    UndoOrderIff(applied, listed);
  }

  // ---- a plan ----

  datatype Step = Step(action: Action, approved: bool, env: Env)

  function PlanWorld(rule: PatchRule, w: World, steps: seq<Step>): World
  {
    if steps == [] then w
    else
      var last := steps[|steps| - 1];
      Execute(rule, PlanWorld(rule, w, steps[..|steps| - 1]), last.action, last.approved, last.env).0
  }

  /** The events a plan has logged, oldest first. */
  function PlanEvents(rule: PatchRule, w: World, steps: seq<Step>): seq<Event> {
    var log := PlanWorld(rule, w, steps).log;
    if |w.log| <= |log| then log[|w.log|..] else []
  }

  /** The reverse a step leaves in the log: none if the step did not succeed, had no image or
      id to build one from, or its event was lost. */
  function StoredReverse(rule: PatchRule, w: World, step: Step): Option<Reverse> {
    match Execute(rule, w, step.action, step.approved, step.env).1
    case Applied(reverse) => if step.env.logOk then reverse else None
    case _ => None
  }

  lemma StepLog(rule: PatchRule, w: World, step: Step) returns (logged: seq<Event>)
    ensures Execute(rule, w, step.action, step.approved, step.env).0.log == w.log + logged && |logged| <= 1
    ensures var reverse := StoredReverse(rule, w, step);
      if logged == [] then reverse == None else logged[0].reverse == reverse
  {
    logged := Execute(rule, w, step.action, step.approved, step.env).0.log[|w.log|..];
  }

  lemma {:induction false} PlanLogGrows(rule: PatchRule, w: World, steps: seq<Step>)
    ensures w.log <= PlanWorld(rule, w, steps).log
  {
    if steps != [] {
      PlanLogGrows(rule, w, steps[..|steps| - 1]);
      var _ := StepLog(rule, PlanWorld(rule, w, steps[..|steps| - 1]), steps[|steps| - 1]);
    }
  }

  /** The events of a plan, last first, are what its last step logs and then those of its
      front. */
  lemma BackwardsEvents(rule: PatchRule, w: World, steps: seq<Step>) returns (logged: seq<Event>)
    requires steps != []
    ensures var front := steps[..|steps| - 1];
      var reverse := StoredReverse(rule, PlanWorld(rule, w, front), steps[|steps| - 1]);
      && Backwards(PlanEvents(rule, w, steps)) == logged + Backwards(PlanEvents(rule, w, front))
      && |logged| <= 1 && (if logged == [] then reverse == None else logged[0].reverse == reverse)
  {
    hide Execute, StoredReverse;
    var front := steps[..|steps| - 1];
    PlanLogGrows(rule, w, front);
    logged := StepLog(rule, PlanWorld(rule, w, front), steps[|steps| - 1]);
    var es := PlanEvents(rule, w, front);
    assert PlanEvents(rule, w, steps) == es + logged;
    if logged == [] {
      assert es + logged == es && logged + Backwards(es) == Backwards(es);
    } else {
      assert logged == [logged[0]] && (es + logged)[..|es|] == es;
    }
  }

  // ---- one field of one entity ----

  predicate ReverseWrites(rule: PatchRule, reverse: Option<Reverse>, id: string, key: string) {
    reverse.Some? && reverse.value.id == id && key in Written(rule, reverse.value.patch)
  }

  lemma PatchedField(rule: PatchRule, s: Store, id: string, patch: Fields, x: string, key: string)
    requires x in s
    ensures x in Patch(rule, s, id, patch)
    ensures Field(Patch(rule, s, id, patch)[x], key) ==
      if x == id && key in Written(rule, patch) then Written(rule, patch)[key] else Field(s[x], key)
  {
  }

  /** One update and its reverse: the field shows its old value again exactly when nulls
      clear, or it had a value, or the update gave it none. */
  lemma UndoOneUpdate(rule: PatchRule, s: Store, id: string, patch: Fields, t: Store, key: string)
    requires id in s && id in t && Field(t[id], key) == Field(Patch(rule, s, id, patch)[id], key)
    ensures Field(Patch(rule, t, id, ReversePatch(s[id], patch))[id], key) == Field(s[id], key) <==>
      rule.NullClears? || Field(s[id], key) != Null || key !in Written(rule, patch)
  {
    PatchedField(rule, s, id, patch, id, key);
    PatchedField(rule, t, id, ReversePatch(s[id], patch), id, key);
  }

  /** The value the last of the events that writes the field gives it. */
  function LastWrite(rule: PatchRule, ordered: seq<Event>, id: string, key: string): Option<Json> {
    if ordered == [] then None
    else
      var last := ordered[|ordered| - 1];
      if ReverseWrites(rule, last.reverse, id, key) then Some(Written(rule, last.reverse.value.patch)[key])
      else LastWrite(rule, ordered[..|ordered| - 1], id, key)
  }

  lemma {:induction false} UndoStoresLast(rule: PatchRule, t: Store, front: seq<Event>, last: Event)
    ensures UndoStores(rule, t, front + [last]) == UndoStore(rule, UndoStores(rule, t, front), last)
    decreases |front|
  {
    var all := front + [last];
    if front == [] {
      assert all[0] == last && all[1..] == [];
    } else {
      assert all[0] == front[0] && all[1..] == front[1..] + [last];
      UndoStoresLast(rule, UndoStore(rule, t, front[0]), front[1..], last);
    }
  }

  /** Undoing events shows in each field the last write to it, or what was there; it adds and
      removes no entity. */
  lemma {:induction false} UndoneFieldIsLastWrite(rule: PatchRule, t: Store, ordered: seq<Event>, id: string,
                                                  key: string)
    requires id in t
    ensures var u := UndoStores(rule, t, ordered);
      && u.Keys == t.Keys
      && Field(u[id], key) ==
        match LastWrite(rule, ordered, id, key) case Some(v) => v case None => Field(t[id], key)
  {
    if ordered != [] {
      var front, last := ordered[..|ordered| - 1], ordered[|ordered| - 1];
      assert ordered == front + [last];
      UndoneFieldIsLastWrite(rule, t, front, id, key);
      UndoStoresLast(rule, t, front, last);
      if last.reverse.Some? {
        PatchedField(rule, UndoStores(rule, t, front), last.reverse.value.id, last.reverse.value.patch, id, key);
      }
    }
  }

  lemma {:induction false} UndoKeepsKeys(rule: PatchRule, t: Store, ordered: seq<Event>)
    ensures UndoStores(rule, t, ordered).Keys == t.Keys
    decreases |ordered|
  {
    if ordered != [] { UndoKeepsKeys(rule, UndoStore(rule, t, ordered[0]), ordered[1..]); }
  }

  lemma {:induction false} LastWriteCons(rule: PatchRule, e: Event, es: seq<Event>, id: string, key: string)
    ensures LastWrite(rule, [e] + es, id, key) ==
      if LastWrite(rule, es, id, key).Some? then LastWrite(rule, es, id, key)
      else if ReverseWrites(rule, e.reverse, id, key) then Some(Written(rule, e.reverse.value.patch)[key])
      else None
  {
    hide ReverseWrites;
    var all := [e] + es;
    if es == [] {
      assert all == [e] && all[..0] == [];
    } else {
      assert all[|all| - 1] == es[|es| - 1] && all[..|all| - 1] == [e] + es[..|es| - 1];
      LastWriteCons(rule, e, es[..|es| - 1], id, key);
    }
  }

  /** The value given back by the first step of a plan whose stored reverse writes the field. */
  function FirstReverse(rule: PatchRule, w: World, steps: seq<Step>, id: string, key: string): Option<Json> {
    if steps == [] then None
    else
      var front := steps[..|steps| - 1];
      var earlier := FirstReverse(rule, w, front, id, key);
      var reverse := StoredReverse(rule, PlanWorld(rule, w, front), steps[|steps| - 1]);
      if earlier.Some? then earlier
      else if ReverseWrites(rule, reverse, id, key) then Some(Written(rule, reverse.value.patch)[key])
      else None
  }

  lemma LastWriteOfLogged(rule: PatchRule, logged: seq<Event>, reverse: Option<Reverse>, es: seq<Event>, id: string,
                          key: string)
    requires |logged| <= 1 && (if logged == [] then reverse == None else logged[0].reverse == reverse)
    ensures LastWrite(rule, logged + es, id, key) ==
      if LastWrite(rule, es, id, key).Some? then LastWrite(rule, es, id, key)
      else if ReverseWrites(rule, reverse, id, key) then Some(Written(rule, reverse.value.patch)[key])
      else None
  {
    hide LastWrite, ReverseWrites;
    if logged == [] {
      assert logged + es == es;
      NoReverseNoWrite(rule, id, key);
    } else {
      assert logged == [logged[0]];
      LastWriteCons(rule, logged[0], es, id, key);
    }
  }

  lemma {:induction false} FirstReverseIsUndoneLast(rule: PatchRule, w: World, steps: seq<Step>, id: string,
                                                    key: string)
    ensures LastWrite(rule, Backwards(PlanEvents(rule, w, steps)), id, key) == FirstReverse(rule, w, steps, id, key)
  {
    hide PlanWorld, PlanEvents, StoredReverse, ReverseWrites, Written, LastWrite, Backwards;
    if steps == [] {
      NoStepsNoWrite(rule, w, steps, id, key);
    } else {
      var front := steps[..|steps| - 1];
      FirstReverseIsUndoneLast(rule, w, front, id, key);
      var logged := BackwardsEvents(rule, w, steps);
      var reverse := StoredReverse(rule, PlanWorld(rule, w, front), steps[|steps| - 1]);
      LastWriteOfLogged(rule, logged, reverse, Backwards(PlanEvents(rule, w, front)), id, key);
    }
  }

  lemma NoStepsNoWrite(rule: PatchRule, w: World, steps: seq<Step>, id: string, key: string)
    requires steps == []
    ensures LastWrite(rule, Backwards(PlanEvents(rule, w, steps)), id, key) == None
  {
    assert PlanEvents(rule, w, steps) == [];
  }

  lemma NoReverseNoWrite(rule: PatchRule, id: string, key: string)
    ensures !ReverseWrites(rule, None, id, key)
  {
  }

  // ---- what a plan can do to the entities ----

  /** The server gives a created entity a new id, and the tools that are not about entities
      leave them alone. The step may fail, lack its image, or lose its event. */
  ghost predicate StepOk(rule: PatchRule, w: World, step: Step) {
    var tool := step.action.tool;
    Execute(rule, w, step.action, step.approved, step.env).1.Applied? && tool != UPDATE ==>
      if tool == CREATE || tool == DRAFT then step.env.newId !in w.store else step.env.other == w.store
  }

  ghost predicate PlanOk(rule: PatchRule, w: World, steps: seq<Step>) {
    steps == [] ||
    (PlanOk(rule, w, steps[..|steps| - 1]) &&
     StepOk(rule, PlanWorld(rule, w, steps[..|steps| - 1]), steps[|steps| - 1]))
  }

  lemma StepKeepsEntities(rule: PatchRule, w: World, step: Step)
    requires StepOk(rule, w, step)
    ensures var after := Execute(rule, w, step.action, step.approved, step.env).0.store;
      var reverse := StoredReverse(rule, w, step);
      w.store.Keys <= after.Keys && (reverse.Some? ==> reverse.value.id in after)
  {
  }

  lemma {:induction false} PlanKeepsEntities(rule: PatchRule, w: World, steps: seq<Step>)
    requires PlanOk(rule, w, steps)
    ensures w.store.Keys <= PlanWorld(rule, w, steps).store.Keys
  {
    if steps != [] {
      hide Execute, StepOk;
      PlanKeepsEntities(rule, w, steps[..|steps| - 1]);
      StepKeepsEntities(rule, PlanWorld(rule, w, steps[..|steps| - 1]), steps[|steps| - 1]);
    }
  }

  /** The step is an update that gives the field a value. */
  predicate StepWrites(rule: PatchRule, step: Step, id: string, key: string) {
    step.action.tool == UPDATE && step.action.id == id && key in Written(rule, step.action.fields)
  }

  predicate PlanWrites(rule: PatchRule, steps: seq<Step>, id: string, key: string) {
    exists i :: 0 <= i < |steps| && StepWrites(rule, steps[i], id, key)
  }

  lemma PlanWritesLast(rule: PatchRule, steps: seq<Step>, id: string, key: string)
    requires steps != []
    ensures PlanWrites(rule, steps, id, key) <==>
      PlanWrites(rule, steps[..|steps| - 1], id, key) || StepWrites(rule, steps[|steps| - 1], id, key)
  {
    hide StepWrites;
    var front := steps[..|steps| - 1];
    if PlanWrites(rule, front, id, key) {
      var i :| 0 <= i < |front| && StepWrites(rule, front[i], id, key);
      assert StepWrites(rule, steps[i], id, key);
    }
    if PlanWrites(rule, steps, id, key) && !StepWrites(rule, steps[|steps| - 1], id, key) {
      var i :| 0 <= i < |steps| && StepWrites(rule, steps[i], id, key);
      assert StepWrites(rule, front[i], id, key);
    }
  }

  /** What a step does to a field of an entity that is there, and the value its stored
      reverse, if it writes the field, gives back: the one shown before the step. */
  lemma StepField(rule: PatchRule, w: World, step: Step, id: string, key: string)
    requires StepOk(rule, w, step) && id in w.store
    ensures var (after, status) := Execute(rule, w, step.action, step.approved, step.env);
      && id in after.store
      && Field(after.store[id], key) ==
        (if status.Applied? && StepWrites(rule, step, id, key) then Written(rule, step.action.fields)[key]
         else Field(w.store[id], key))
    ensures var reverse := StoredReverse(rule, w, step);
      ReverseWrites(rule, reverse, id, key) ==>
        && Written(rule, reverse.value.patch)[key] == Field(w.store[id], key)
        && step.action.tool == UPDATE && step.action.id == id && key in step.action.fields
  {
    if step.action.tool == UPDATE {
      PatchedField(rule, w.store, step.action.id, step.action.fields, id, key);
    }
  }

  /** Undoing one step on a store that shows its result in a field shows its start there
      exactly when the step's stored reverse writes the field, or the step left it as it was. */
  lemma UndoOneStep(rule: PatchRule, w: World, step: Step, id: string, key: string, t: Store, e: Event)
    requires StepOk(rule, w, step) && id in w.store && id in t && e.reverse == StoredReverse(rule, w, step)
    requires var after := Execute(rule, w, step.action, step.approved, step.env).0;
      id in after.store && Field(t[id], key) == Field(after.store[id], key)
    ensures var after := Execute(rule, w, step.action, step.approved, step.env).0;
      id in UndoStore(rule, t, e) &&
      (Field(UndoStore(rule, t, e)[id], key) == Field(w.store[id], key) <==>
        ReverseWrites(rule, e.reverse, id, key) || Field(after.store[id], key) == Field(w.store[id], key))
  {
    hide Execute, StoredReverse;
    StepField(rule, w, step, id, key);
    if e.reverse.Some? { PatchedField(rule, t, e.reverse.value.id, e.reverse.value.patch, id, key); }
  }

  /** The value a reader saw in the field just before the first step whose stored reverse
      writes it, if there is such a step. */
  function Kept(rule: PatchRule, w: World, steps: seq<Step>, id: string, key: string): Option<Json> {
    if steps == [] then None
    else
      var front := steps[..|steps| - 1];
      var mid := PlanWorld(rule, w, front);
      if Kept(rule, w, front, id, key).Some? then Kept(rule, w, front, id, key)
      else if ReverseWrites(rule, StoredReverse(rule, mid, steps[|steps| - 1]), id, key) && id in mid.store then
        Some(Field(mid.store[id], key))
      else None
  }

  lemma {:induction false} KeptIsGivenBack(rule: PatchRule, w: World, steps: seq<Step>, id: string, key: string)
    requires PlanOk(rule, w, steps) && id in w.store
    ensures FirstReverse(rule, w, steps, id, key) == Kept(rule, w, steps, id, key)
  {
    if steps != [] {
      hide Execute, StoredReverse, ReverseWrites;
      var front := steps[..|steps| - 1];
      KeptIsGivenBack(rule, w, front, id, key);
      PlanKeepsEntities(rule, w, front);
      StepField(rule, PlanWorld(rule, w, front), steps[|steps| - 1], id, key);
    }
  }

  // ---- created entities ----

  /** The step creates the entity and its event is stored. */
  predicate StoresCreation(rule: PatchRule, w: World, step: Step, id: string) {
    step.action.tool != UPDATE && StoredReverse(rule, w, step).Some? && StoredReverse(rule, w, step).value.id == id
  }

  predicate CreationStored(rule: PatchRule, w: World, steps: seq<Step>, id: string) {
    steps != [] &&
    (CreationStored(rule, w, steps[..|steps| - 1], id) ||
     StoresCreation(rule, PlanWorld(rule, w, steps[..|steps| - 1]), steps[|steps| - 1], id))
  }

  /** Some action of the plan itself asks for the status `undone`. */
  predicate AsksUndone(steps: seq<Step>) {
    exists i :: 0 <= i < |steps| && Field(steps[i].action.fields, "status") == Text("undone")
  }

  /** A stored reverse is about an entity that is there after its step. */
  lemma {:induction false} NoReverseBefore(rule: PatchRule, w: World, steps: seq<Step>, id: string, key: string)
    requires PlanOk(rule, w, steps) && id !in PlanWorld(rule, w, steps).store
    ensures FirstReverse(rule, w, steps, id, key) == None
  {
    if steps != [] {
      hide Execute, StepOk, StoredReverse;
      NoReverseBefore(rule, w, steps[..|steps| - 1], id, key);
      StepKeepsEntities(rule, PlanWorld(rule, w, steps[..|steps| - 1]), steps[|steps| - 1]);
    }
  }

  lemma {:induction false} StoredCreationIsGivenBack(rule: PatchRule, w: World, steps: seq<Step>, id: string)
    requires PlanOk(rule, w, steps) && CreationStored(rule, w, steps, id)
    ensures FirstReverse(rule, w, steps, id, "status") == Some(Text("undone"))
  {
    var front := steps[..|steps| - 1];
    if CreationStored(rule, w, front, id) {
      StoredCreationIsGivenBack(rule, w, front, id);
    } else {
      NoReverseBefore(rule, w, front, id, "status");
    }
  }

  /** Without a stored creation nothing shows `undone`, in the store or in a reverse, unless
      an action asked for it. */
  lemma {:induction false} UnstoredCreation(rule: PatchRule, w: World, steps: seq<Step>, id: string)
    requires PlanOk(rule, w, steps) && id !in w.store && !AsksUndone(steps) && !CreationStored(rule, w, steps, id)
    ensures FirstReverse(rule, w, steps, id, "status") != Some(Text("undone"))
    ensures var after := PlanWorld(rule, w, steps).store; id in after ==> Field(after[id], "status") != Text("undone")
  {
    if steps != [] {
      var front, last := steps[..|steps| - 1], steps[|steps| - 1];
      assert Field(steps[|steps| - 1].action.fields, "status") != Text("undone");
      assert forall i :: 0 <= i < |front| ==> front[i] == steps[i];
      UnstoredCreation(rule, w, front, id);
      StepShowsNoUndone(rule, PlanWorld(rule, w, front), last, id);
    }
  }

  lemma StepShowsNoUndone(rule: PatchRule, w: World, step: Step, id: string)
    requires StepOk(rule, w, step) && !StoresCreation(rule, w, step, id)
    requires Field(step.action.fields, "status") != Text("undone")
    requires id in w.store ==> Field(w.store[id], "status") != Text("undone")
    ensures var after := Execute(rule, w, step.action, step.approved, step.env).0.store;
      id in after ==> Field(after[id], "status") != Text("undone")
    ensures var reverse := StoredReverse(rule, w, step);
      ReverseWrites(rule, reverse, id, "status") ==> Written(rule, reverse.value.patch)["status"] != Text("undone")
  {
    if id in w.store { StepField(rule, w, step, id, "status"); }
  }

  // ---- undo of a plan ----

  /** Undo of a plan by an answering server. Whatever the plan did — updates that overlap,
      failed steps, images that could not be read, events that were lost — undo of its events
      (listed in any order but for ties) adds and removes no entity, and a field of an
      entity that existed before shows its old value exactly when that is the value shown
      before the first step whose stored reverse writes it, or, if there is none, the final
      value. A created entity whose event was stored ends `undone`, and unless an action
      asked for that status, only such a one does. */
  lemma UndoInvertsPlan(rule: PatchRule, w: World, steps: seq<Step>, listed: seq<Event>, envs: seq<Env>)
    requires PlanOk(rule, w, steps)
    requires var events := PlanEvents(rule, w, steps); NeverNewer(events) && TiesNewestFirst(events, listed)
    requires |envs| == |SortNewestFirst(listed)| && forall env :: env in envs ==> env.runOk
    ensures var after := PlanWorld(rule, w, steps);
      var u := UndoAll(rule, after, SortNewestFirst(listed), envs).0.store;
      && w.store.Keys <= u.Keys == after.store.Keys
      && (forall id, key :: id in w.store ==>
            (Field(u[id], key) == Field(w.store[id], key) <==>
              match Kept(rule, w, steps, id, key)
              case Some(v) => v == Field(w.store[id], key)
              case None => Field(after.store[id], key) == Field(w.store[id], key)))
      && (forall id :: id in after.store && id !in w.store ==>
            && (CreationStored(rule, w, steps, id) ==> Field(u[id], "status") == Text("undone"))
            && (!AsksUndone(steps) ==>
                  (Field(u[id], "status") == Text("undone") <==> CreationStored(rule, w, steps, id))))
  {
    hide PlanWorld, PlanEvents, FirstReverse, Kept, CreationStored, AsksUndone, LastWrite, UndoStores, UndoAll;
    var after := PlanWorld(rule, w, steps);
    PlanKeepsEntities(rule, w, steps);
    UndoneBackwards(rule, w, steps, listed, envs);
    forall id, key | id in w.store ensures FirstReverse(rule, w, steps, id, key) == Kept(rule, w, steps, id, key) {
      KeptIsGivenBack(rule, w, steps, id, key);
    }
    forall id | id in after.store && id !in w.store
      ensures CreationStored(rule, w, steps, id) ==> FirstReverse(rule, w, steps, id, "status") == Some(Text("undone"))
      ensures !AsksUndone(steps) && !CreationStored(rule, w, steps, id) ==>
        FirstReverse(rule, w, steps, id, "status") != Some(Text("undone"))
        && Field(after.store[id], "status") != Text("undone")
    {
      if CreationStored(rule, w, steps, id) { StoredCreationIsGivenBack(rule, w, steps, id); }
      else if !AsksUndone(steps) { UnstoredCreation(rule, w, steps, id); }
    }
  }

  /** What undo of any plan at all shows in every field: what the first stored reverse that
      writes it gives back, or the final value. */
  lemma UndoneBackwards(rule: PatchRule, w: World, steps: seq<Step>, listed: seq<Event>, envs: seq<Env>)
    requires var events := PlanEvents(rule, w, steps); NeverNewer(events) && TiesNewestFirst(events, listed)
    requires |envs| == |SortNewestFirst(listed)| && forall env :: env in envs ==> env.runOk
    ensures var after := PlanWorld(rule, w, steps);
      var u := UndoAll(rule, after, SortNewestFirst(listed), envs).0.store;
      && u.Keys == after.store.Keys
      && (forall id, key :: id in after.store ==>
            Field(u[id], key)
            == match FirstReverse(rule, w, steps, id, key) case Some(v) => v case None => Field(after.store[id], key))
  {
    hide PlanWorld, PlanEvents, FirstReverse, LastWrite, UndoStores, UndoAll;
    var events, after := PlanEvents(rule, w, steps), PlanWorld(rule, w, steps);
    UndoOrderIff(events, listed);
    AllAccepted(SortNewestFirst(listed), envs);
    UndoAllStore(rule, after, SortNewestFirst(listed), envs);
    UndoKeepsKeys(rule, after.store, Backwards(events));
    forall id, key | id in after.store
      ensures Field(UndoStores(rule, after.store, Backwards(events))[id], key) ==
        match FirstReverse(rule, w, steps, id, key) case Some(v) => v case None => Field(after.store[id], key)
    {
      UndoneFieldIsLastWrite(rule, after.store, Backwards(events), id, key);
      FirstReverseIsUndoneLast(rule, w, steps, id, key);
    }
  }

  /** When undo restores a field, for any plan, any listing of any events, and any refused
      calls: exactly when the last accepted reverse that writes it carries the old value, or,
      if there is none, the final value is the old one. */
  lemma AnyListingRestoresIff(rule: PatchRule, w: World, steps: seq<Step>, listed: seq<Event>, envs: seq<Env>,
                              id: string, key: string)
    requires id in w.store && id in PlanWorld(rule, w, steps).store && |envs| == |SortNewestFirst(listed)|
    ensures var after := PlanWorld(rule, w, steps);
      var u := UndoAll(rule, after, SortNewestFirst(listed), envs).0.store;
      id in u && (Field(u[id], key) == Field(w.store[id], key) <==>
        match LastWrite(rule, Accepted(SortNewestFirst(listed), envs), id, key)
        case Some(v) => v == Field(w.store[id], key)
        case None => Field(after.store[id], key) == Field(w.store[id], key))
  {
    hide UndoAll, UndoStores, LastWrite, Accepted, SortNewestFirst, PlanWorld;
    var after, ordered := PlanWorld(rule, w, steps), SortNewestFirst(listed);
    UndoAllStore(rule, after, ordered, envs);
    UndoneFieldIsLastWrite(rule, after.store, Accepted(ordered, envs), id, key);
  }

  // ---- plans that were recorded in full ----

  /** The step creates or updates an entity, succeeds, and is logged with its reverse. */
  ghost predicate RecordedStep(rule: PatchRule, w: World, step: Step) {
    var a, env := step.action, step.env;
    && (a.tool == UPDATE || a.tool == CREATE || a.tool == DRAFT)
    && Execute(rule, w, a, step.approved, env).1.Applied?
    && env.logOk
    && (a.tool == UPDATE ==> env.getOk && a.id != "")
    && (a.tool != UPDATE ==> env.newId !in w.store && env.newId != "")
  }

  ghost predicate RecordedPlan(rule: PatchRule, w: World, steps: seq<Step>) {
    steps == [] ||
    (RecordedPlan(rule, w, steps[..|steps| - 1]) &&
     RecordedStep(rule, PlanWorld(rule, w, steps[..|steps| - 1]), steps[|steps| - 1]))
  }

  /** When undo can bring a field back: where nulls clear, always; where nulls keep, when
      the field held a value before the plan or the plan never gave it one. */
  predicate Recoverable(rule: PatchRule, w: World, steps: seq<Step>, id: string, key: string)
    requires id in w.store
  {
    rule.NullClears? || Field(w.store[id], key) != Null || !PlanWrites(rule, steps, id, key)
  }

  lemma {:induction false} RecordedIsOk(rule: PatchRule, w: World, steps: seq<Step>)
    requires RecordedPlan(rule, w, steps)
    ensures PlanOk(rule, w, steps)
    ensures forall id :: id in PlanWorld(rule, w, steps).store && id !in w.store ==> CreationStored(rule, w, steps, id)
  {
    if steps != [] { RecordedIsOk(rule, w, steps[..|steps| - 1]); }
  }

  /** Where nulls keep, a field is null after a plan exactly when it was before and no step
      gave it a value; and no reverse carries a null. */
  lemma {:induction false} NullAfterPlanIff(w: World, steps: seq<Step>, id: string, key: string)
    requires RecordedPlan(NullKeeps, w, steps) && id in w.store
    ensures var after := PlanWorld(NullKeeps, w, steps).store;
      id in after
      && (Field(after[id], key) == Null <==> Field(w.store[id], key) == Null && !PlanWrites(NullKeeps, steps, id, key))
    ensures FirstReverse(NullKeeps, w, steps, id, key) != Some(Null)
  {
    if steps != [] {
      var front := steps[..|steps| - 1];
      hide Execute, StoredReverse;
      RecordedIsOk(NullKeeps, w, steps);
      PlanWritesLast(NullKeeps, steps, id, key);
      NullAfterPlanIff(w, front, id, key);
      StepField(NullKeeps, PlanWorld(NullKeeps, w, front), steps[|steps| - 1], id, key);
    }
  }

  /** A recorded step that leaves no write of the field in its reverse gave the field no
      value, or found it empty where nulls keep. */
  lemma RecordedStepField(rule: PatchRule, w: World, step: Step, id: string, key: string)
    requires RecordedStep(rule, w, step) && id in w.store && StepWrites(rule, step, id, key)
    ensures ReverseWrites(rule, StoredReverse(rule, w, step), id, key)
         || (rule.NullKeeps? && Field(w.store[id], key) == Null)
  {
  }

  lemma {:induction false} RecoverableIsKept(rule: PatchRule, w: World, steps: seq<Step>, id: string, key: string)
    requires RecordedPlan(rule, w, steps) && id in w.store && Recoverable(rule, w, steps, id, key)
    ensures var after := PlanWorld(rule, w, steps).store;
      id in after &&
      match FirstReverse(rule, w, steps, id, key)
      case Some(v) => v == Field(w.store[id], key)
      case None => Field(after[id], key) == Field(w.store[id], key)
  {
    if steps != [] {
      hide Execute, StoredReverse, ReverseWrites, StepWrites;
      var front, last := steps[..|steps| - 1], steps[|steps| - 1];
      RecordedIsOk(rule, w, steps);
      PlanWritesLast(rule, steps, id, key);
      RecoverableIsKept(rule, w, front, id, key);
      var mid := PlanWorld(rule, w, front);
      StepField(rule, mid, last, id, key);
      if StepWrites(rule, last, id, key) { RecordedStepField(rule, mid, last, id, key); }
    }
  }

  /** After a plan that was recorded in full every created entity ends `undone`, and a field
      of an earlier one shows its old value exactly when it is recoverable. */
  lemma RecordedPlanRestoredIff(rule: PatchRule, w: World, steps: seq<Step>, listed: seq<Event>, envs: seq<Env>)
    requires RecordedPlan(rule, w, steps)
    requires var events := PlanEvents(rule, w, steps); NeverNewer(events) && TiesNewestFirst(events, listed)
    requires |envs| == |SortNewestFirst(listed)| && forall env :: env in envs ==> env.runOk
    ensures var after := PlanWorld(rule, w, steps);
      var u := UndoAll(rule, after, SortNewestFirst(listed), envs).0.store;
      && w.store.Keys <= u.Keys == after.store.Keys
      && (forall id :: id in after.store && id !in w.store ==> Field(u[id], "status") == Text("undone"))
      && (forall id, key :: id in w.store ==>
            (Field(u[id], key) == Field(w.store[id], key) <==> Recoverable(rule, w, steps, id, key)))
  {
    hide PlanWorld, PlanEvents, FirstReverse, CreationStored, LastWrite, UndoStores, UndoAll, PlanWrites;
    RecordedIsOk(rule, w, steps);
    PlanKeepsEntities(rule, w, steps);
    UndoneBackwards(rule, w, steps, listed, envs);
    forall id | id in PlanWorld(rule, w, steps).store && id !in w.store
      ensures FirstReverse(rule, w, steps, id, "status") == Some(Text("undone"))
    {
      StoredCreationIsGivenBack(rule, w, steps, id);
    }
    var u := UndoAll(rule, PlanWorld(rule, w, steps), SortNewestFirst(listed), envs).0.store;
    forall id, key | id in w.store
      ensures Field(u[id], key) == Field(w.store[id], key) <==> Recoverable(rule, w, steps, id, key)
    {
      if Recoverable(rule, w, steps, id, key) {
        RecoverableIsKept(rule, w, steps, id, key);
      } else {
        NullAfterPlanIff(w, steps, id, key);
      }
    }
  }

  // ---- plans that undo does not restore ----

  /** Where nulls keep, one update of an empty field is not undone: the server accepts the
      reverse, the undo is reported done, and the new value stays. */
  lemma NullIsNotRestored(w: World, id: string, env: Env)
    requires id in w.store && id != "" && Field(w.store[id], "status") == Null
    requires env.getOk && env.runOk && env.logOk
    ensures var steps := [Step(Action(UPDATE, id, map["status" := Text("urgent")]), false, env)];
      var after, events := PlanWorld(NullKeeps, w, steps), PlanEvents(NullKeeps, w, steps);
      && RecordedPlan(NullKeeps, w, steps) && |events| == 1
      && var (end, results) := UndoAll(NullKeeps, after, events, [env]);
         results == [Undone] && id in end.store && Field(end.store[id], "status") == Text("urgent")
  {
    hide PlanWorld, RecordedPlan, UndoAll;
    var a := Action(UPDATE, id, map["status" := Text("urgent")]);
    var e := Event(env.eventId, env.ts, ActionApplied(UPDATE), Some(Reverse(id, map["status" := Null])));
    var after := Execute(NullKeeps, w, a, false, env).0;
    assert ReversePatch(w.store[id], a.fields) == map["status" := Null];
    assert after.log == w.log + [e];
    OneStepPlan(NullKeeps, w, Step(a, false, env));
    OneUndo(NullKeeps, after, e, env);
    assert Written(NullKeeps, map["status" := Null]) == map[];
  }

  /** An update whose image could not be read is applied and logged without a reverse: undo
      answers `NotReversible`, and the new value stays, whatever was there before. */
  lemma UnreadImageIsNotRestored(rule: PatchRule, w: World, id: string, env: Env)
    requires id in w.store && !env.getOk && env.runOk && env.logOk
    ensures var steps := [Step(Action(UPDATE, id, map["status" := Text("urgent")]), false, env)];
      var after, events := PlanWorld(rule, w, steps), PlanEvents(rule, w, steps);
      && PlanOk(rule, w, steps) && |events| == 1
      && var (end, results) := UndoAll(rule, after, events, [env]);
         results == [NotReversible] && id in end.store && Field(end.store[id], "status") == Text("urgent")
  {
    hide PlanWorld, PlanOk, UndoAll;
    var a := Action(UPDATE, id, map["status" := Text("urgent")]);
    var e := Event(env.eventId, env.ts, ActionApplied(UPDATE), None);
    var after := Execute(rule, w, a, false, env).0;
    assert after.log == w.log + [e];
    OneStepPlan(rule, w, Step(a, false, env));
    OneUndo(rule, after, e, env);
  }

  /** An action whose event is lost leaves nothing to undo: an update stays, and a created
      entity does not end `undone`. */
  lemma LostEventIsNotUndone(rule: PatchRule, w: World, id: string, made: Fields, env: Env)
    requires id in w.store && env.getOk && env.runOk && !env.logOk
    requires env.newId !in w.store && Field(made, "status") != Text("undone")
    ensures var update := [Step(Action(UPDATE, id, map["status" := Text("urgent")]), false, env)];
      var create := [Step(Action(CREATE, "", made), false, env)];
      && PlanOk(rule, w, update) && PlanOk(rule, w, create)
      && PlanEvents(rule, w, update) == [] == PlanEvents(rule, w, create)
      && var updated := UndoAll(rule, PlanWorld(rule, w, update), [], []).0.store;
         var created := UndoAll(rule, PlanWorld(rule, w, create), [], []).0.store;
         && id in updated && Field(updated[id], "status") == Text("urgent")
         && env.newId in created && Field(created[env.newId], "status") != Text("undone")
  {
    hide PlanWorld, PlanOk;
    var update := Step(Action(UPDATE, id, map["status" := Text("urgent")]), false, env);
    var create := Step(Action(CREATE, "", made), false, env);
    OneStepPlan(rule, w, update);
    OneStepPlan(rule, w, create);
  }

  lemma OneStepPlan(rule: PatchRule, w: World, step: Step)
    ensures PlanWorld(rule, w, [step]) == Execute(rule, w, step.action, step.approved, step.env).0
    ensures StepOk(rule, w, step) ==> PlanOk(rule, w, [step])
    ensures RecordedStep(rule, w, step) ==> RecordedPlan(rule, w, [step])
  {
    hide Execute, StepOk, RecordedStep;
    assert [step][..0] == [];
  }

  lemma OneUndo(rule: PatchRule, w: World, e: Event, env: Env)
    ensures var (next, result) := UndoOne(rule, w, e, env); UndoAll(rule, w, [e], [env]) == (next, [result])
  {
    hide UndoOne;
    var (next, result) := UndoOne(rule, w, e, env);
    assert [e][1..] == [] && [env][1..] == [];
    assert UndoAll(rule, next, [], []) == (next, []);
    assert [result] + [] == [result];
  }

  lemma TiedKeepOrder(first: Event, second: Event)
    requires first.ts == second.ts
    ensures SortNewestFirst([first, second]) == [first, second]
  {
    assert [first, second][1..] == [second] && [second][1..] == [];
    assert SortNewestFirst([second]) == [second];
  }

  /** An update event of one entity, with the reverse of a patch on the store before it. */
  function UpdateEvent(eventId: string, ts: int, s: Store, id: string, patch: Fields): Event
    requires id in s
  {
    Event(eventId, ts, ActionApplied(UPDATE), Some(Reverse(id, ReversePatch(s[id], patch))))
  }

  /** With equal time stamps and an oldest-first listing the claim fails, whatever nulls do:
      two updates of one field are undone first to last, and the field keeps the middle
      value. */
  lemma TiesCanBreakUndo(rule: PatchRule, s: Store, id: string, key: string, ts: int)
    requires id in s && key in COLUMNS && Field(s[id], key) == Text("a")
    ensures var b, c := map[key := Text("b")], map[key := Text("c")];
      var mid := Patch(rule, s, id, b);
      var first, second := UpdateEvent("1", ts, s, id, b), UpdateEvent("2", ts, mid, id, c);
      var u := UndoStores(rule, Patch(rule, mid, id, c), SortNewestFirst([first, second]));
      id in u && Field(u[id], key) == Text("b")
  {
    hide UndoStores, SortNewestFirst;
    var b, c := map[key := Text("b")], map[key := Text("c")];
    var mid := Patch(rule, s, id, b);
    var first, second := UpdateEvent("1", ts, s, id, b), UpdateEvent("2", ts, mid, id, c);
    TiedKeepOrder(first, second);
    assert [first, second][..1] == [first];
    PatchedField(rule, s, id, b, id, key);
    UndoneFieldIsLastWrite(rule, Patch(rule, mid, id, c), [first, second], id, key);
    assert ReverseWrites(rule, second.reverse, id, key);
  }

  // ---- the same steps as methods on mutable state ----

  class Control {
    const rule: PatchRule
    var store: Store
    var log: seq<Event>

    function Value(): World
      reads this
    {
      World(store, log)
    }

    method ComputeReversePatch(before: Fields, patch: Fields) returns (reversePatch: Fields)
      ensures reversePatch == ReversePatch(before, patch)
    {
      reversePatch := map[];
      var keys := patch.Keys;
      while keys != {}
        invariant keys <= patch.Keys
        invariant reversePatch == map key | key in patch.Keys - keys :: Field(before, key)
        decreases keys
      {
        var key :| key in keys;
        keys := keys - {key};
        reversePatch := reversePatch[key := if key in before then before[key] else Null];
      }
    }

    method LogEvent(env: Env, kind: EventKind, reverse: Option<Reverse>)
      modifies this`log
      ensures Value() == Logged(old(Value()), env, kind, reverse)
    {
      if env.logOk { log := log + [Event(env.eventId, env.ts, kind, reverse)]; }
    }

    method ExecuteAction(a: Action, approved: bool, env: Env) returns (status: Status)
      modifies this
      ensures (Value(), status) == Execute(rule, old(Value()), a, approved, env)
    {
      var classification := ClassifyAction(a.tool);
      if classification == Forbidden {
        LogEvent(env, ActionDenied(a.tool), None);
        return WasForbidden;
      }
      if classification == Gated && !approved { return PendingApproval; }
      var before := None;
      if a.tool == UPDATE && a.id != "" {
        if env.getOk && a.id in store { before := Some(store[a.id]); }
      }
      var (ok, after) := RunTool(rule, store, a, env);
      store := after;
      if !ok { return Failed; }
      var reverse := None;
      if a.tool == UPDATE {
        if before.Some? {
          var reversePatch := ComputeReversePatch(before.value, a.fields);
          reverse := Some(Reverse(a.id, reversePatch));
        }
      } else if a.tool == CREATE || a.tool == DRAFT {
        if env.newId != "" { reverse := Some(Reverse(env.newId, map["status" := Text("undone")])); }
      }
      LogEvent(env, ActionApplied(a.tool), reverse);
      return Applied(reverse);
    }

    method UndoAction(e: Event, env: Env) returns (result: UndoResult)
      modifies this
      ensures (Value(), result) == UndoOne(rule, old(Value()), e, env)
    {
      if e.reverse.None? { return NotReversible; }
      var r := e.reverse.value;
      if !env.runOk || r.id !in store { return UndoFailed; }
      store := store[r.id := store[r.id] + Written(rule, r.patch)];
      LogEvent(env, ActionUndone(e.eventId), None);
      return Undone;
    }

    /** `envs[i]` is what the server does during the i-th undo. */
    method UndoPlan(listed: seq<Event>, envs: seq<Env>) returns (results: seq<UndoResult>)
      requires |envs| == |SortNewestFirst(listed)|
      modifies this
      ensures (Value(), results) == UndoAll(rule, old(Value()), SortNewestFirst(listed), envs)
    {
      hide UndoOne, SortNewestFirst;
      var ordered := SortNewestFirst(listed);
      results := [];
      ghost var end := UndoAll(rule, Value(), ordered, envs);
      assert ordered[0..] == ordered && envs[0..] == envs;
      for i := 0 to |ordered|
        invariant UndoAll(rule, Value(), ordered[i..], envs[i..]).0 == end.0
        invariant results + UndoAll(rule, Value(), ordered[i..], envs[i..]).1 == end.1
      {
        hide UndoAll;
        UndoAllFrom(rule, Value(), ordered, envs, i);
        ghost var was := results;
        ghost var next := UndoOne(rule, Value(), ordered[i], envs[i]).0;
        ghost var rest := UndoAll(rule, next, ordered[i + 1..], envs[i + 1..]).1;
        var result := UndoAction(ordered[i], envs[i]);
        results := results + [result];
        assert was + ([result] + rest) == results + rest;
      }
      assert results + [] == results;
    }
  }
}
