/** The approval gate: any number of approve and deny handlers interleave at every
    `await` over one database, and any of them may stop for good at any point.

    `Advance` is one handler's code between two awaits. `System` interleaves handlers;
    `WorkerDb` runs one handler without interference, as methods on mutable state. */
module Approvals {
  import opened Options
  import opened Text

  const PENDING_APPROVAL := "pending_approval"
  const AWAITING_APPROVAL := "awaiting_approval"
  const APPROVED := "approved"
  const REJECTED := "rejected"

  predicate IsPendingApproval(status: Option<string>) {
    status == Some(PENDING_APPROVAL) || status == Some(AWAITING_APPROVAL)
  }

  datatype Key = Key(workspace: string, id: string)

  /** The parsed `attrs` column; a column that does not parse reads as an empty object. */
  datatype Attrs = Attrs(requiresTypedConfirm: bool, node: Option<string>)

  datatype Row = Row(entityType: string, title: Option<string>, status: Option<string>, attrs: Attrs, updatedAt: nat)
  datatype Event = Event(workspace: string, eventType: string, entityId: string)
  datatype Job = Job(workspace: string, kind: string, entityId: string, entityType: string)
  datatype Db = Db(table: map<Key, Row>, events: multiset<Event>, jobs: multiset<Job>)

  function ConfirmPhrase(row: Row, id: string): string {
    if row.attrs.node.Some? && row.attrs.node.value != "" then row.attrs.node.value
    else match row.title case Some(t) => t case None => id
  }

  /** The typed-confirm check of `approveEntity`. */
  predicate Confirmed(row: Row, id: string, typed: Option<string>) {
    row.attrs.requiresTypedConfirm ==>
      Trim(match typed case Some(t) => t case None => "") == ConfirmPhrase(row, id)
  }

  /** A typed-confirm gate can be confirmed at all exactly when its phrase has no outer
      white space, and a bare tap confirms it exactly when its phrase is empty. */
  lemma ConfirmableIff(row: Row, id: string)
    requires row.attrs.requiresTypedConfirm
    ensures (exists typed :: Confirmed(row, id, typed)) <==> Trimmed(ConfirmPhrase(row, id))
    ensures Confirmed(row, id, None) <==> ConfirmPhrase(row, id) == ""
  {
    var phrase := ConfirmPhrase(row, id);
    TrimIsTrimmed(phrase);
    if Trimmed(phrase) { assert Confirmed(row, id, Some(phrase)); }
    forall typed | Confirmed(row, id, typed) ensures Trimmed(phrase) {
      TrimIsTrimmed(match typed case Some(t) => t case None => "");
    }
  }

  // ---- one handler ----

  datatype Kind = Approve(typed: Option<string>) | Deny

  datatype Outcome = Approved | Denied | NotFound | AlreadyResolved | RequiresTypedConfirm(phrase: string)

  /** Where a handler will continue, with the values it carries there. */
  datatype Pc =
    | Check
    | Resolve
    | Cas(from: string)
    | Record(entityType: string)
    | Enqueue(jobType: string)
    | Done(outcome: Outcome)
    | Crashed(at: Pc)

  datatype Handler = Handler(key: Key, kind: Kind, pc: Pc)

  predicate Running(h: Handler) { !h.pc.Done? && !h.pc.Crashed? }

  function Fresh(key: Key, kind: Kind): Handler {
    Handler(key, kind, if kind.Approve? then Check else Resolve)
  }

  function TargetStatus(kind: Kind): string { if kind.Approve? then APPROVED else REJECTED }

  function EventFor(key: Key, kind: Kind, entityType: string): Event {
    Event(key.workspace, entityType + (if kind.Approve? then ".approved" else ".rejected"), key.id)
  }

  function JobFor(key: Key, entityType: string): Job {
    Job(key.workspace, "execute_approval", key.id, entityType)
  }

  /** The conditional UPDATE: it writes when the row still has status `from`. */
  predicate CasHits(db: Db, key: Key, from: string) {
    key in db.table && db.table[key].status == Some(from)
  }

  function CasWrite(db: Db, key: Key, to: string, now: nat): Db
    requires key in db.table
  {
    db.(table := db.table[key := db.table[key].(status := Some(to), updatedAt := now)])
  }

  function Advance(db: Db, h: Handler, now: nat): (Db, Pc)
    requires Running(h)
  {
    match h.pc
    case Check =>
      if h.key !in db.table then (db, Done(NotFound))
      else
        var row := db.table[h.key];
        if !IsPendingApproval(row.status) then (db, Done(AlreadyResolved))
        else if h.kind.Approve? && !Confirmed(row, h.key.id, h.kind.typed)
        then (db, Done(RequiresTypedConfirm(ConfirmPhrase(row, h.key.id))))
        else (db, Resolve)
    case Resolve =>
      if h.key !in db.table then (db, Done(NotFound))
      else
        var status := db.table[h.key].status;
        if !IsPendingApproval(status) then (db, Done(AlreadyResolved)) else (db, Cas(status.value))
    case Cas(from) =>
      if CasHits(db, h.key, from)
      then (CasWrite(db, h.key, TargetStatus(h.kind), now), Record(db.table[h.key].entityType))
      else (db, Done(AlreadyResolved))
    case Record(entityType) =>
      (db.(events := db.events + multiset{EventFor(h.key, h.kind, entityType)}),
       if h.kind.Approve? then Enqueue(entityType) else Done(Denied))
    case Enqueue(entityType) =>
      (db.(jobs := db.jobs + multiset{JobFor(h.key, entityType)}), Done(Approved))
  }

  // ---- interleaved handlers ----

  /** `winner` remembers which handler's UPDATE hit each row; no step reads it. */
  datatype System = System(db: Db, handlers: map<nat, Handler>, winner: map<Key, nat>)

  datatype Step = Go(handler: nat, now: nat) | Crash(stopped: nat)

  predicate Enabled(y: System, step: Step) {
    var i := match step case Go(i, _) => i case Crash(i) => i;
    i in y.handlers && Running(y.handlers[i])
  }

  function Next(y: System, step: Step): System
    requires Enabled(y, step)
  {
    match step
    case Crash(i) => y.(handlers := y.handlers[i := y.handlers[i].(pc := Crashed(y.handlers[i].pc))])
    case Go(i, now) =>
      var h := y.handlers[i];
      var (db, pc) := Advance(y.db, h, now);
      System(db, y.handlers[i := h.(pc := pc)],
             if h.pc.Cas? && pc.Record? then y.winner[h.key := i] else y.winner)
  }

  predicate Initial(y: System) {
    && y.winner == map[]
    && forall i :: i in y.handlers ==> y.handlers[i] == Fresh(y.handlers[i].key, y.handlers[i].kind)
  }

  ghost predicate Run(y: System, steps: seq<Step>, z: System)
    decreases |steps|
  {
    if steps == [] then y == z
    else Enabled(y, steps[0]) && Run(Next(y, steps[0]), steps[1..], z)
  }

  // ---- the invariant, relative to the starting state ----

  function LivePc(pc: Pc): Pc { if pc.Crashed? then LivePc(pc.at) else pc }

  /** The handler's UPDATE hit its row. */
  predicate Won(h: Handler) {
    var pc := LivePc(h.pc);
    pc.Record? || pc.Enqueue? || pc == Done(Approved) || pc == Done(Denied)
  }

  predicate Recorded(h: Handler) { Won(h) && !LivePc(h.pc).Record? }

  predicate Enqueued(h: Handler) { LivePc(h.pc) == Done(Approved) }

  ghost predicate RowOk(s: System, y: System, key: Key)
    requires key in s.db.table && key in y.db.table
  {
    var was, row := s.db.table[key], y.db.table[key];
    if key in y.winner then
      && y.winner[key] in y.handlers
      && IsPendingApproval(was.status)
      && row == was.(status := Some(TargetStatus(y.handlers[y.winner[key]].kind)), updatedAt := row.updatedAt)
    else row == was
  }

  ghost predicate HandlerOk(s: System, y: System, i: nat)
    requires i in y.handlers
  {
    var h := y.handlers[i];
    var pc := LivePc(h.pc);
    && i in s.handlers && s.handlers[i] == Fresh(h.key, h.kind)
    && (h.kind.Deny? ==> !pc.Check? && !pc.Enqueue? && pc != Done(Approved))
    && (h.kind.Approve? ==> pc != Done(Denied))
    && (Won(h) ==> h.key in y.winner && y.winner[h.key] == i)
    && (pc.Resolve? || pc.Cas? || Won(h) ==> h.kind.Approve? ==>
          h.key in s.db.table ==> Confirmed(s.db.table[h.key], h.key.id, h.kind.typed))
    && (pc.Cas? || Won(h) ==> h.key in s.db.table)
    && (pc.Cas? ==> IsPendingApproval(Some(pc.from)))
    && (pc.Cas? && h.key !in y.winner ==> s.db.table[h.key].status == Some(pc.from))
    && (pc.Record? ==> pc.entityType == s.db.table[h.key].entityType)
    && (pc.Enqueue? ==> pc.jobType == s.db.table[h.key].entityType)
    && (pc == Done(NotFound) ==> h.key !in s.db.table)
    && (pc.Done? && pc.outcome.RequiresTypedConfirm? ==>
          && h.kind.Approve? && h.key in s.db.table && IsPendingApproval(s.db.table[h.key].status)
          && !Confirmed(s.db.table[h.key], h.key.id, h.kind.typed)
          && pc.outcome.phrase == ConfirmPhrase(s.db.table[h.key], h.key.id))
    && (pc == Done(AlreadyResolved) ==> h.key in y.db.table && !IsPendingApproval(y.db.table[h.key].status))
  }

  /** The event this run has written for its entity, if any. */
  ghost predicate EventWritten(s: System, y: System, e: Event) {
    var key := Key(e.workspace, e.entityId);
    && key in y.winner && key in s.db.table && y.winner[key] in y.handlers
    && var h := y.handlers[y.winner[key]];
       Recorded(h) && e == EventFor(key, h.kind, s.db.table[key].entityType)
  }

  ghost predicate JobWritten(s: System, y: System, j: Job) {
    var key := Key(j.workspace, j.entityId);
    && key in y.winner && key in s.db.table && y.winner[key] in y.handlers
    && Enqueued(y.handlers[y.winner[key]]) && j == JobFor(key, s.db.table[key].entityType)
  }

  ghost predicate Inv(s: System, y: System) {
    && y.db.table.Keys == s.db.table.Keys
    && y.handlers.Keys == s.handlers.Keys
    && (forall key {:trigger key in y.winner} :: key in y.winner ==>
          y.winner[key] in y.handlers && key in s.db.table
          && Won(y.handlers[y.winner[key]]) && y.handlers[y.winner[key]].key == key)
    && (forall key {:trigger RowOk(s, y, key)} :: key in s.db.table ==> RowOk(s, y, key))
    && (forall i {:trigger HandlerOk(s, y, i)} :: i in y.handlers ==> HandlerOk(s, y, i))
    && (forall e {:trigger EventWritten(s, y, e)} ::
          y.db.events[e] == s.db.events[e] + if EventWritten(s, y, e) then 1 else 0)
    && (forall j {:trigger JobWritten(s, y, j)} :: y.db.jobs[j] == s.db.jobs[j] + if JobWritten(s, y, j) then 1 else 0)
  }

  lemma InitialInv(s: System)
    requires Initial(s)
    ensures Inv(s, s)
  {
    forall i | i in s.handlers ensures HandlerOk(s, s, i) {
    }
  }

  lemma CrashKeepsHandlers(s: System, y: System, i: nat, j: nat)
    requires Inv(s, y) && Enabled(y, Crash(i)) && j in y.handlers
    ensures HandlerOk(s, Next(y, Crash(i)), j)
  {
    assert HandlerOk(s, y, j);
  }

  lemma CrashKeepsInv(s: System, y: System, i: nat)
    requires Inv(s, y) && Enabled(y, Crash(i))
    ensures Inv(s, Next(y, Crash(i)))
  {
    hide HandlerOk, Confirmed;
    var z := Next(y, Crash(i));
    forall key | key in s.db.table ensures RowOk(s, z, key) { assert RowOk(s, y, key); }
    forall j | j in z.handlers ensures HandlerOk(s, z, j) { CrashKeepsHandlers(s, y, i, j); }
    forall e ensures EventWritten(s, z, e) <==> EventWritten(s, y, e) {}
    forall j ensures JobWritten(s, z, j) <==> JobWritten(s, y, j) {}
  }

  /** A step that only reads: `Check`, `Resolve`, or an UPDATE that matches no row. */
  predicate OnlyReads(y: System, i: nat)
    requires i in y.handlers
  {
    var h := y.handlers[i];
    h.pc.Check? || h.pc.Resolve? || (h.pc.Cas? && !CasHits(y.db, h.key, h.pc.from))
  }

  lemma ReadKeepsHandler(s: System, y: System, i: nat, now: nat)
    requires Inv(s, y) && Enabled(y, Go(i, now)) && OnlyReads(y, i)
    ensures var z := Next(y, Go(i, now));
      z.db == y.db && z.winner == y.winner && HandlerOk(s, z, i) && !Won(z.handlers[i]) && !Won(y.handlers[i])
  {
    assert HandlerOk(s, y, i);
    var key := y.handlers[i].key;
    assert key in s.db.table ==> RowOk(s, y, key);
  }

  lemma ReadKeepsInv(s: System, y: System, i: nat, now: nat)
    requires Inv(s, y) && Enabled(y, Go(i, now)) && OnlyReads(y, i)
    ensures Inv(s, Next(y, Go(i, now)))
  {
    var z := Next(y, Go(i, now));
    ReadKeepsHandler(s, y, i, now);
    forall key | key in s.db.table ensures RowOk(s, z, key) { assert RowOk(s, y, key); }
    forall j | j in z.handlers ensures HandlerOk(s, z, j) { assert j != i ==> HandlerOk(s, y, j); }
    forall e ensures EventWritten(s, z, e) <==> EventWritten(s, y, e) {}
    forall j ensures JobWritten(s, z, j) <==> JobWritten(s, y, j) {}
  }

  lemma CasFindsNoWinner(s: System, y: System, i: nat)
    requires Inv(s, y) && i in y.handlers && y.handlers[i].pc.Cas?
    requires CasHits(y.db, y.handlers[i].key, y.handlers[i].pc.from)
    ensures y.handlers[i].key !in y.winner && y.handlers[i].key in s.db.table && !Won(y.handlers[i])
    ensures IsPendingApproval(s.db.table[y.handlers[i].key].status)
  {
    assert HandlerOk(s, y, i) && RowOk(s, y, y.handlers[i].key);
  }

  lemma CasKeepsHandlers(s: System, y: System, i: nat, now: nat, j: nat)
    requires Inv(s, y) && Enabled(y, Go(i, now)) && j in y.handlers
    requires y.handlers[i].pc.Cas? && CasHits(y.db, y.handlers[i].key, y.handlers[i].pc.from)
    ensures HandlerOk(s, Next(y, Go(i, now)), j)
  {
    CasFindsNoWinner(s, y, i);
    assert HandlerOk(s, y, i) && HandlerOk(s, y, j) && RowOk(s, y, y.handlers[i].key);
  }

  lemma CasKeepsInv(s: System, y: System, i: nat, now: nat)
    requires Inv(s, y) && Enabled(y, Go(i, now))
    requires y.handlers[i].pc.Cas? && CasHits(y.db, y.handlers[i].key, y.handlers[i].pc.from)
    ensures Inv(s, Next(y, Go(i, now)))
  {
    hide HandlerOk, Confirmed;
    var z := Next(y, Go(i, now));
    CasFindsNoWinner(s, y, i);
    forall key | key in s.db.table ensures RowOk(s, z, key) { assert RowOk(s, y, key); }
    forall j | j in z.handlers ensures HandlerOk(s, z, j) { CasKeepsHandlers(s, y, i, now, j); }
    forall e ensures EventWritten(s, z, e) <==> EventWritten(s, y, e) {}
    forall j ensures JobWritten(s, z, j) <==> JobWritten(s, y, j) {}
  }

  lemma RecordKeepsHandlers(s: System, y: System, i: nat, now: nat, j: nat)
    requires Inv(s, y) && Enabled(y, Go(i, now)) && y.handlers[i].pc.Record? && j in y.handlers
    ensures HandlerOk(s, Next(y, Go(i, now)), j)
  {
    assert HandlerOk(s, y, i) && HandlerOk(s, y, j);
  }

  lemma RecordKeepsInv(s: System, y: System, i: nat, now: nat)
    requires Inv(s, y) && Enabled(y, Go(i, now)) && y.handlers[i].pc.Record?
    ensures Inv(s, Next(y, Go(i, now)))
  {
    var z := Next(y, Go(i, now));
    var h := y.handlers[i];
    assert HandlerOk(s, y, i);
    hide HandlerOk, Confirmed;
    var written := EventFor(h.key, h.kind, h.pc.entityType);
    forall key | key in s.db.table ensures RowOk(s, z, key) { assert RowOk(s, y, key); }
    forall j | j in z.handlers ensures HandlerOk(s, z, j) { RecordKeepsHandlers(s, y, i, now, j); }
    forall e ensures EventWritten(s, z, e) <==> EventWritten(s, y, e) || e == written {}
    assert !EventWritten(s, y, written);
    forall j ensures JobWritten(s, z, j) <==> JobWritten(s, y, j) {}
  }

  lemma EnqueueKeepsHandlers(s: System, y: System, i: nat, now: nat, j: nat)
    requires Inv(s, y) && Enabled(y, Go(i, now)) && y.handlers[i].pc.Enqueue? && j in y.handlers
    ensures HandlerOk(s, Next(y, Go(i, now)), j)
  {
    assert HandlerOk(s, y, i) && HandlerOk(s, y, j);
  }

  lemma EnqueueKeepsInv(s: System, y: System, i: nat, now: nat)
    requires Inv(s, y) && Enabled(y, Go(i, now)) && y.handlers[i].pc.Enqueue?
    ensures Inv(s, Next(y, Go(i, now)))
  {
    var z := Next(y, Go(i, now));
    var h := y.handlers[i];
    assert HandlerOk(s, y, i);
    hide HandlerOk, Confirmed;
    var written := JobFor(h.key, h.pc.jobType);
    forall key | key in s.db.table ensures RowOk(s, z, key) { assert RowOk(s, y, key); }
    forall j | j in z.handlers ensures HandlerOk(s, z, j) { EnqueueKeepsHandlers(s, y, i, now, j); }
    forall e ensures EventWritten(s, z, e) <==> EventWritten(s, y, e) {}
    forall j ensures JobWritten(s, z, j) <==> JobWritten(s, y, j) || j == written {}
    assert !JobWritten(s, y, written);
  }

  lemma NextKeepsInv(s: System, y: System, step: Step)
    requires Inv(s, y) && Enabled(y, step)
    ensures Inv(s, Next(y, step))
  {
    match step
    case Crash(i) => CrashKeepsInv(s, y, i);
    case Go(i, now) =>
      match y.handlers[i].pc
      case Record(_) => RecordKeepsInv(s, y, i, now);
      case Enqueue(_) => EnqueueKeepsInv(s, y, i, now);
      case Cas(from) =>
        if CasHits(y.db, y.handlers[i].key, from) { CasKeepsInv(s, y, i, now); } else { ReadKeepsInv(s, y, i, now); }
      case _ => ReadKeepsInv(s, y, i, now);
  }

  lemma {:induction false} RunKeepsInv(s: System, y: System, steps: seq<Step>, z: System)
    requires Inv(s, y) && Run(y, steps, z)
    ensures Inv(s, z)
    decreases |steps|
  {
    if steps != [] {
      NextKeepsInv(s, y, steps[0]);
      RunKeepsInv(s, Next(y, steps[0]), steps[1..], z);
    }
  }

  // ---- what every run guarantees ----

  /** How many events or jobs of one kind a run has added. */
  function NewEvents(s: System, z: System, e: Event): int { z.db.events[e] as int - s.db.events[e] as int }

  function NewJobs(s: System, z: System, j: Job): int { z.db.jobs[j] as int - s.db.jobs[j] as int }

  lemma EventKindsDiffer(key: Key, entityType: string)
    ensures EventFor(key, Approve(None), entityType) != EventFor(key, Deny, entityType)
  {
    var n := |entityType|;
    assert (entityType + ".approved")[n + 1] == 'a';
    assert (entityType + ".rejected")[n + 1] == 'r';
  }

  /** At most one resolution, under every interleaving and whatever crashes: an entity is
      either untouched, or it was pending and is now approved or rejected; it has at most
      one new event and one new job, a job only if approved, an event only of the matching
      kind; and a typed-confirm gate is approved only if some handler typed its phrase. */
  lemma AtMostOneResolution(s: System, steps: seq<Step>, z: System, key: Key)
    requires Initial(s) && Run(s, steps, z) && key in s.db.table
    ensures z.db.table.Keys == s.db.table.Keys
    ensures var was, row := s.db.table[key], z.db.table[key];
      var approved := Event(key.workspace, was.entityType + ".approved", key.id);
      var rejected := Event(key.workspace, was.entityType + ".rejected", key.id);
      var job := Job(key.workspace, "execute_approval", key.id, was.entityType);
      && (row == was
          || (IsPendingApproval(was.status)
              && (row.status == Some("approved") || row.status == Some("rejected"))
              && row == was.(status := row.status, updatedAt := row.updatedAt)))
      && 0 <= NewEvents(s, z, approved) + NewEvents(s, z, rejected) <= 1
      && 0 <= NewEvents(s, z, approved) && 0 <= NewEvents(s, z, rejected)
      && 0 <= NewJobs(s, z, job) <= NewEvents(s, z, approved)
      && (NewEvents(s, z, approved) == 1 ==> row.status == Some("approved") && row != was)
      && (NewEvents(s, z, rejected) == 1 ==> row.status == Some("rejected") && row != was)
      && (row != was && row.status == Some("approved") ==>
            exists i :: i in z.handlers && z.handlers[i].key == key && z.handlers[i].kind.Approve?
              && Confirmed(was, key.id, z.handlers[i].kind.typed))
  {
    InitialInv(s);
    RunKeepsInv(s, s, steps, z);
    assert RowOk(s, z, key);
    EventKindsDiffer(key, s.db.table[key].entityType);
    var was := s.db.table[key];
    var approved, rejected := EventFor(key, Approve(None), was.entityType), EventFor(key, Deny, was.entityType);
    assert EventWritten(s, z, approved) || !EventWritten(s, z, approved);
    assert EventWritten(s, z, rejected) || !EventWritten(s, z, rejected);
    assert JobWritten(s, z, JobFor(key, was.entityType)) || !JobWritten(s, z, JobFor(key, was.entityType));
    if key in z.winner {
      assert HandlerOk(s, z, z.winner[key]);
    }
  }

  /** Nothing else is written: every new event and every new job names a row this run
      resolved, in the form the handlers write. */
  lemma NothingElseWritten(s: System, steps: seq<Step>, z: System, e: Event, j: Job)
    requires Initial(s) && Run(s, steps, z)
    ensures NewEvents(s, z, e) != 0 ==>
      var key := Key(e.workspace, e.entityId);
      key in s.db.table && key in z.db.table && z.db.table[key] != s.db.table[key]
      && (e.eventType == s.db.table[key].entityType + ".approved"
          || e.eventType == s.db.table[key].entityType + ".rejected")
    ensures NewJobs(s, z, j) != 0 ==>
      var key := Key(j.workspace, j.entityId);
      key in s.db.table && key in z.db.table && z.db.table[key].status == Some("approved")
      && j == Job(j.workspace, "execute_approval", j.entityId, s.db.table[key].entityType)
  {
    InitialInv(s);
    RunKeepsInv(s, s, steps, z);
    if EventWritten(s, z, e) {
      var key := Key(e.workspace, e.entityId);
      assert RowOk(s, z, key) && HandlerOk(s, z, z.winner[key]);
      assert e == EventFor(key, z.handlers[z.winner[key]].kind, s.db.table[key].entityType);
    }
    if JobWritten(s, z, j) {
      var key := Key(j.workspace, j.entityId);
      assert RowOk(s, z, key) && HandlerOk(s, z, z.winner[key]);
    }
  }

  /** When every handler has finished and none crashed, the bookkeeping is exact: an
      approved entity has one `.approved` event and one job, a rejected one has one
      `.rejected` event and no job, and an untouched one has none of these. An entity is left
      pending only if every handler for it was refused for want of its typed phrase. */
  lemma QuiescentIsExact(s: System, steps: seq<Step>, z: System, key: Key)
    requires Initial(s) && Run(s, steps, z) && key in s.db.table
    requires forall i :: i in z.handlers ==> z.handlers[i].pc.Done?
    ensures z.db.table.Keys == s.db.table.Keys
    ensures var was, row := s.db.table[key], z.db.table[key];
      var a := NewEvents(s, z, Event(key.workspace, was.entityType + ".approved", key.id));
      var r := NewEvents(s, z, Event(key.workspace, was.entityType + ".rejected", key.id));
      var jobs := NewJobs(s, z, Job(key.workspace, "execute_approval", key.id, was.entityType));
      && (IsPendingApproval(was.status) && row.status == Some("approved") ==> a == 1 && r == 0 && jobs == 1)
      && (IsPendingApproval(was.status) && row.status == Some("rejected") ==> a == 0 && r == 1 && jobs == 0)
      && (row.status == was.status ==> a == 0 && r == 0 && jobs == 0)
      && (IsPendingApproval(row.status) ==> forall i :: i in z.handlers && z.handlers[i].key == key ==>
            z.handlers[i].pc.outcome.RequiresTypedConfirm?)
  {
    InitialInv(s);
    RunKeepsInv(s, s, steps, z);
    assert RowOk(s, z, key);
    var was := s.db.table[key];
    EventKindsDiffer(key, was.entityType);
    assert EventWritten(s, z, EventFor(key, Approve(None), was.entityType))
      || !EventWritten(s, z, EventFor(key, Approve(None), was.entityType));
    assert EventWritten(s, z, EventFor(key, Deny, was.entityType))
      || !EventWritten(s, z, EventFor(key, Deny, was.entityType));
    assert JobWritten(s, z, JobFor(key, was.entityType)) || !JobWritten(s, z, JobFor(key, was.entityType));
    if key in z.winner {
      assert HandlerOk(s, z, z.winner[key]);
    }
    forall i | i in z.handlers && z.handlers[i].key == key && IsPendingApproval(z.db.table[key].status)
      ensures z.handlers[i].pc.outcome.RequiresTypedConfirm?
    {
      assert HandlerOk(s, z, i);
    }
  }

  lemma {:induction false} ResolvedRowIsFinal(s: System, y: System, b: seq<Step>, z: System, key: Key)
    requires Inv(s, y) && Run(y, b, z) && key in s.db.table && !IsPendingApproval(y.db.table[key].status)
    ensures z.db.table.Keys == y.db.table.Keys && z.db.table[key] == y.db.table[key]
    decreases |b|
  {
    if b != [] {
      var n := Next(y, b[0]);
      NextKeepsInv(s, y, b[0]);
      if b[0].Go? { assert HandlerOk(s, y, b[0].handler); }
      assert RowOk(s, y, key);
      assert n.db.table[key] == y.db.table[key];
      ResolvedRowIsFinal(s, n, b[1..], z, key);
    }
  }

  /** Once an entity is not pending it never changes again, so it leaves the pending
      statuses at most once and never to both outcomes. */
  lemma ResolutionIsFinal(s: System, a: seq<Step>, y: System, b: seq<Step>, z: System, key: Key)
    requires Initial(s) && Run(s, a, y) && Run(y, b, z) && key in s.db.table
    ensures key in y.db.table && key in z.db.table
    ensures !IsPendingApproval(y.db.table[key].status) ==> z.db.table[key] == y.db.table[key]
  {
    InitialInv(s);
    RunKeepsInv(s, s, a, y);
    RunKeepsInv(s, y, b, z);
    if !IsPendingApproval(y.db.table[key].status) {
      ResolvedRowIsFinal(s, y, b, z, key);
    }
  }

  // ---- one handler alone, as methods on mutable state ----

  function Rank(pc: Pc): nat {
    match pc case Check => 5 case Resolve => 4 case Cas(_) => 3 case Record(_) => 2 case Enqueue(_) => 1 case _ => 0
  }

  /** Running one handler to its end with nobody else on the database. */
  function Alone(db: Db, h: Handler, now: nat): (Db, Outcome)
    requires !h.pc.Crashed?
    decreases Rank(h.pc)
  {
    if h.pc.Done? then (db, h.pc.outcome)
    else var (next, pc) := Advance(db, h, now); Alone(next, h.(pc := pc), now)
  }

  function Finish(db: Db, key: Key, kind: Kind, entityType: string): Db {
    var recorded := db.(events := db.events + multiset{EventFor(key, kind, entityType)});
    if kind.Approve? then recorded.(jobs := recorded.jobs + multiset{JobFor(key, entityType)}) else recorded
  }

  lemma AloneFromRecord(db: Db, key: Key, kind: Kind, entityType: string, now: nat)
    ensures Alone(db, Handler(key, kind, Record(entityType)), now)
         == (Finish(db, key, kind, entityType), if kind.Approve? then Approved else Denied)
  {
    var h := Handler(key, kind, Record(entityType));
    var (next, pc) := Advance(db, h, now);
    if kind.Approve? {
      var (last, pc') := Advance(next, h.(pc := pc), now);
      assert Alone(last, h.(pc := pc'), now) == (last, Approved);
    }
  }

  /** What a gate demands: the build node if it names one, else the title, else the id; and
      only a gate with the flag demands it. */
  lemma GateDemands(row: Row, id: string, typed: string)
    ensures row.attrs.node.Some? && row.attrs.node.value != "" ==> ConfirmPhrase(row, id) == row.attrs.node.value
    ensures row.attrs.node.None? || row.attrs.node.value == "" ==>
      ConfirmPhrase(row, id) == if row.title.Some? then row.title.value else id
    ensures Confirmed(row, id, Some(typed)) <==>
      !row.attrs.requiresTypedConfirm || Trim(typed) == ConfirmPhrase(row, id)
    ensures Confirmed(row, id, None) <==> !row.attrs.requiresTypedConfirm || ConfirmPhrase(row, id) == ""
  {
  }

  /** Everything a handler that meets no other does: an unknown entity is not found; one that
      is not pending is already resolved; an approval without the demanded phrase is told
      the phrase; and in none of these cases is anything written. Otherwise the row gets its
      new status, one event is recorded, and an approval enqueues one job. */
  lemma AloneDecides(db: Db, key: Key, kind: Kind, now: nat)
    ensures var (end, outcome) := Alone(db, Fresh(key, kind), now);
      if key !in db.table then outcome == NotFound && end == db
      else
        var row := db.table[key];
        var pending := row.status == Some("pending_approval") || row.status == Some("awaiting_approval");
        if !pending then outcome == AlreadyResolved && end == db
        else if kind.Deny? then
          && outcome == Denied
          && end == Db(db.table[key := row.(status := Some("rejected"), updatedAt := now)],
                       db.events + multiset{Event(key.workspace, row.entityType + ".rejected", key.id)}, db.jobs)
        else if !Confirmed(row, key.id, kind.typed) then
          outcome == RequiresTypedConfirm(ConfirmPhrase(row, key.id)) && end == db
        else
          && outcome == Approved
          && end == Db(db.table[key := row.(status := Some("approved"), updatedAt := now)],
                       db.events + multiset{Event(key.workspace, row.entityType + ".approved", key.id)},
                       db.jobs + multiset{Job(key.workspace, "execute_approval", key.id, row.entityType)})
  {
    var h := Fresh(key, kind);
    if key in db.table && IsPendingApproval(db.table[key].status)
       && (kind.Approve? ==> Confirmed(db.table[key], key.id, kind.typed))
    {
      var from := db.table[key].status.value;
      var written := CasWrite(db, key, TargetStatus(kind), now);
      assert Advance(db, Handler(key, kind, Cas(from)), now) == (written, Record(db.table[key].entityType));
      AloneFromRecord(written, key, kind, db.table[key].entityType, now);
      assert Alone(db, Handler(key, kind, Cas(from)), now)
          == Alone(written, Handler(key, kind, Record(db.table[key].entityType)), now);
      assert Alone(db, Handler(key, kind, Resolve), now) == Alone(db, Handler(key, kind, Cas(from)), now);
    }
  }

  /** A refusal names the phrase that works: when a handler was refused with a phrase in any
      run and the entity is still pending, a new approval that meets no other succeeds
      exactly when its trimmed text is that phrase; so typing the phrase back succeeds
      exactly when it has no outer white space. */
  lemma RefusalNamesThePhrase(s: System, steps: seq<Step>, z: System, i: nat, phrase: string, typed: string, now: nat)
    requires Initial(s) && Run(s, steps, z) && i in z.handlers
    requires z.handlers[i].pc == Done(RequiresTypedConfirm(phrase))
    requires z.handlers[i].key in z.db.table && IsPendingApproval(z.db.table[z.handlers[i].key].status)
    ensures var key := z.handlers[i].key;
      && (Alone(z.db, Fresh(key, Approve(Some(typed))), now).1 == Approved <==> Trim(typed) == phrase)
      && (Alone(z.db, Fresh(key, Approve(Some(phrase))), now).1 == Approved <==> Trimmed(phrase))
  {
    hide Alone;
    InitialInv(s);
    RunKeepsInv(s, s, steps, z);
    var key := z.handlers[i].key;
    assert HandlerOk(s, z, i) && RowOk(s, z, key);
    AloneDecides(z.db, key, Approve(Some(typed)), now);
    AloneDecides(z.db, key, Approve(Some(phrase)), now);
    TrimIsTrimmed(phrase);
  }

  /** Every finished handler told the truth, whatever happened around it. */
  lemma OutcomesAreTrue(s: System, steps: seq<Step>, z: System, i: nat)
    requires Initial(s) && Run(s, steps, z) && i in z.handlers && z.handlers[i].pc.Done?
    ensures var h := z.handlers[i];
      && z.db.table.Keys == s.db.table.Keys
      && (h.pc.outcome == NotFound <==> h.key !in s.db.table)
      && (h.pc.outcome == Approved ==> h.kind.Approve? && z.db.table[h.key].status == Some("approved"))
      && (h.pc.outcome == Denied ==> h.kind.Deny? && z.db.table[h.key].status == Some("rejected"))
      && (h.pc.outcome == AlreadyResolved ==> !IsPendingApproval(z.db.table[h.key].status))
      && (h.pc.outcome.RequiresTypedConfirm? ==>
            h.kind.Approve? && IsPendingApproval(s.db.table[h.key].status)
            && !Confirmed(s.db.table[h.key], h.key.id, h.kind.typed))
  {
    InitialInv(s);
    RunKeepsInv(s, s, steps, z);
    var h := z.handlers[i];
    assert HandlerOk(s, z, i);
    if h.key in s.db.table { assert RowOk(s, z, h.key); }
  }

  class WorkerDb {
    var table: map<Key, Row>
    var events: multiset<Event>
    var jobs: multiset<Job>

    function Value(): Db
      reads this
    {
      Db(table, events, jobs)
    }

    method GetEntityById(key: Key) returns (row: Option<Row>)
      ensures row == if key in table then Some(table[key]) else None
    {
      row := if key in table then Some(table[key]) else None;
    }

    method TransitionEntityStatus(key: Key, from: string, to: string, now: nat) returns (updated: Option<Row>)
      modifies this`table
      ensures updated.Some? <==> CasHits(old(Value()), key, from)
      ensures updated.Some? ==> Value() == CasWrite(old(Value()), key, to, now) && updated.value == table[key]
      ensures updated.None? ==> Value() == old(Value())
    {
      updated := None;
      if key in table && table[key].status == Some(from) {
        table := table[key := table[key].(status := Some(to), updatedAt := now)];
        updated := Some(table[key]);
      }
    }

    method RecordEvent(e: Event)
      modifies this`events
      ensures events == old(events) + multiset{e}
    {
      events := events + multiset{e};
    }

    method EnqueueJob(j: Job)
      modifies this`jobs
      ensures jobs == old(jobs) + multiset{j}
    {
      jobs := jobs + multiset{j};
    }

    method ResolveOrAlreadyResolved(key: Key, kind: Kind, now: nat) returns (outcome: Outcome, entityType: string)
      modifies this`table
      ensures outcome == Approved ==> kind.Approve?
      ensures outcome == Denied ==> kind.Deny?
      ensures Alone(old(Value()), Handler(key, kind, Resolve), now)
           == if outcome == Approved || outcome == Denied
              then Alone(Value(), Handler(key, kind, Record(entityType)), now)
              else (Value(), outcome)
    {
      entityType := "";
      var existing := GetEntityById(key);
      if existing.None? { outcome := NotFound; return; }
      var fromStatus := existing.value.status;
      if !IsPendingApproval(fromStatus) { outcome := AlreadyResolved; return; }
      var updated := TransitionEntityStatus(key, fromStatus.value, TargetStatus(kind), now);
      ghost var cas := Handler(key, kind, Cas(fromStatus.value));
      assert Alone(old(Value()), Handler(key, kind, Resolve), now) == Alone(old(Value()), cas, now);
      if updated.None? { outcome := AlreadyResolved; return; }
      outcome := if kind.Approve? then Approved else Denied;
      entityType := updated.value.entityType;
    }

    method ApproveEntity(key: Key, typed: Option<string>, now: nat) returns (outcome: Outcome)
      modifies this
      ensures (Value(), outcome) == Alone(old(Value()), Fresh(key, Approve(typed)), now)
    {
      var existing := GetEntityById(key);
      if existing.None? { outcome := NotFound; return; }
      if !IsPendingApproval(existing.value.status) { outcome := AlreadyResolved; return; }
      if existing.value.attrs.requiresTypedConfirm {
        var phrase := ConfirmPhrase(existing.value, key.id);
        if Trim(match typed case Some(t) => t case None => "") != phrase {
          outcome := RequiresTypedConfirm(phrase);
          return;
        }
      }
      assert Advance(Value(), Fresh(key, Approve(typed)), now) == (Value(), Resolve);
      var entityType;
      outcome, entityType := ResolveOrAlreadyResolved(key, Approve(typed), now);
      if outcome != Approved { return; }
      AloneFromRecord(Value(), key, Approve(typed), entityType, now);
      RecordEvent(EventFor(key, Approve(typed), entityType));
      EnqueueJob(JobFor(key, entityType));
    }

    method DenyEntity(key: Key, now: nat) returns (outcome: Outcome)
      modifies this
      ensures (Value(), outcome) == Alone(old(Value()), Fresh(key, Deny), now)
    {
      var entityType;
      outcome, entityType := ResolveOrAlreadyResolved(key, Deny, now);
      if outcome != Denied { return; }
      AloneFromRecord(Value(), key, Deny, entityType, now);
      RecordEvent(EventFor(key, Deny, entityType));
    }
  }
}
