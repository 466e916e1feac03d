/** One bounded agent turn: the step budget, the shared recovery budget, the one replan,
    the one refine round and the model circuit breaker, all threaded through one context.

    What the model, the tools' HTTP replies and the gate do is an oracle: a `Turn` holds
    any answers, and `RunTurn` says what the program does with them. Tool calls of one
    model call run one after the other. */
module AgentTurn {
  import opened Options

  const MAX_STEPS := 8
  const RECOVERY_BUDGET := 4
  const QUERY_BREAKER_THRESHOLD := 2

  datatype Decision = Forbidden | Gated | Allowed

  /** A ledger entry; decision `None` is a call refused because the steps ran out. */
  datatype Entry = Entry(tool: string, decision: Option<Decision>, ok: bool)
  datatype RecoveryKind = Retry | ArgRepair | Substitute | Replan
  datatype Recovery = Recovery(kind: RecoveryKind, tool: Option<string>, ok: bool)

  /** The turn's context. The last three fields only count what happened: HTTP calls made
      by tools, tool calls that threw, and the results of model calls that reached the
      provider. Nothing reads them. */
  datatype Ctx = Ctx(
    dryRun: bool, stepCount: nat, stepBudgetExhausted: bool, ledger: seq<Entry>, pendingApprovals: nat,
    recoveryBudget: int, recoveries: seq<Recovery>, argRepaired: set<string>, replanned: bool,
    breakerOpen: bool, queryFailures: nat,
    toolHttp: nat, thrown: nat, provider: seq<bool>)

  function Init(dryRun: bool): Ctx {
    Ctx(dryRun, 0, false, [], 0, RECOVERY_BUDGET, [], {}, false, false, 0, 0, 0, [])
  }

  // ---- the oracle ----

  datatype Reply = Threw | Answered(status: Option<int>, ok: bool)

  /** One tool call: its classification, whether the role may not run it, whether building
      the request throws or resolves outside the allowlist, and the replies it would get. */
  datatype ToolCall = ToolCall(
    tool: string, decision: Decision, roleBlocked: bool, buildThrows: bool, routeRefused: bool,
    first: Reply, second: Reply)

  /** One model call: the tool calls it makes, and whether it completes. */
  datatype Session = Session(calls: seq<ToolCall>, completes: bool)

  /** A planning call: whether the model call completes, and whether its output parses. */
  datatype Planning = Planning(completes: bool, valid: bool)

  datatype Verdict = Verdict(completes: bool, ok: bool, fixable: bool, wantsAbstention: bool)

  datatype Turn = Turn(
    gateOk: bool, cacheHit: bool, rewrite: Option<bool>, needsPlan: bool, plan: Planning, execute: Session,
    replan: Planning, reexecute: Session, verdict: Verdict, refine: Session, distill: Option<bool>)

  datatype Outcome =
    | GateRefused | CacheServed | TurnFailed | Degraded | OutOfSteps | AwaitingApproval | Abstained | Completed

  // ---- recovery.js ----

  predicate IsRetryable(status: Option<int>) { status.Some? && status.value >= 500 }

  predicate IsArgRepair(status: Option<int>) { status == Some(400) || status == Some(422) }

  predicate HasSubstitute(tool: string) {
    tool == "search.query" || tool == "memory.recall" || tool == "entity.get"
  }

  predicate HasBudget(c: Ctx) { c.recoveryBudget > 0 }

  function Record(c: Ctx, kind: RecoveryKind, tool: Option<string>, ok: bool): Ctx {
    c.(recoveries := c.recoveries + [Recovery(kind, tool, ok)], recoveryBudget := c.recoveryBudget - 1)
  }

  // ---- executor.js ----

  predicate Transient(r: Reply) { r.Threw? || IsRetryable(r.status) }

  function HttpWithRetry(c: Ctx, call: ToolCall): (Ctx, Reply) {
    var c1 := c.(toolHttp := c.toolHttp + 1);
    if !Transient(call.first) || !HasBudget(c) then (c1, call.first)
    else
      var c2 := Record(c1, Retry, Some(call.tool), call.second.Answered? && call.second.ok);
      (c2.(toolHttp := c2.toolHttp + 1), call.second)
  }

  function ArgRepairHint(c: Ctx, tool: string): Ctx {
    if tool in c.argRepaired || !HasBudget(c) then c
    else Record(c.(argRepaired := c.argRepaired + {tool}), ArgRepair, Some(tool), false)
  }

  function SubstituteHint(c: Ctx, tool: string): Ctx {
    if !HasSubstitute(tool) || !HasBudget(c) then c else Record(c, Substitute, Some(tool), false)
  }

  /** An allowed call: the context, and `None` if it threw, else whether it was ok. */
  function RunAllowed(c: Ctx, call: ToolCall): (Ctx, Option<bool>) {
    if call.buildThrows then (c, None)
    else if call.routeRefused then (c, Some(false))
    else if c.dryRun then (c, Some(true))
    else
      var (c1, res) := HttpWithRetry(c, call);
      if res.Threw? then (c1, None)
      else if res.ok then (c1, Some(true))
      else if IsArgRepair(res.status) then (ArgRepairHint(c1, call.tool), Some(false))
      else if IsRetryable(res.status) then (SubstituteHint(c1, call.tool), Some(false))
      else (c1, Some(false))
  }

  function RunGated(c: Ctx, call: ToolCall): (Ctx, Option<bool>) {
    if c.dryRun then (c, Some(true))
    else
      var c1 := c.(toolHttp := c.toolHttp + 1);
      if call.first.Threw? then (c1, None)
      else (c1.(pendingApprovals := c1.pendingApprovals + 1), Some(call.first.ok))
  }

  function DenyForbidden(c: Ctx): Ctx {
    if c.dryRun then c else c.(toolHttp := c.toolHttp + 1)
  }

  function Effective(call: ToolCall): Decision {
    if call.decision == Forbidden || call.roleBlocked then Forbidden else call.decision
  }

  /** What a call does between its step count and its ledger entry. */
  function Perform(c: Ctx, call: ToolCall): (Ctx, Option<bool>) {
    match Effective(call)
    case Forbidden => (DenyForbidden(c), Some(false))
    case Gated => RunGated(c, call)
    case Allowed => RunAllowed(c, call)
  }

  function RunTool(c: Ctx, call: ToolCall): Ctx {
    var c1 := c.(stepCount := c.stepCount + 1);
    if c1.stepCount > MAX_STEPS then
      c1.(stepBudgetExhausted := true, ledger := c1.ledger + [Entry(call.tool, None, false)])
    else
      var (c2, ok) := Perform(c1, call);
      match ok
      case None => c2.(thrown := c2.thrown + 1)
      case Some(b) => c2.(ledger := c2.ledger + [Entry(call.tool, Some(Effective(call)), b)])
  }

  function RunTools(c: Ctx, calls: seq<ToolCall>): Ctx {
    if calls == [] then c else RunTool(RunTools(c, calls[..|calls| - 1]), calls[|calls| - 1])
  }

  // ---- the breaker around every model call ----

  function Query(c: Ctx, s: Session): (Ctx, bool) {
    if c.breakerOpen then (c, false)
    else
      var c1 := RunTools(c, s.calls);
      var c2 := c1.(provider := c1.provider + [s.completes]);
      if s.completes then (c2.(queryFailures := 0), true)
      else
        var failures := c2.queryFailures + 1;
        (c2.(queryFailures := failures, breakerOpen := failures >= QUERY_BREAKER_THRESHOLD || c2.breakerOpen), false)
  }

  function Ask(c: Ctx, completes: bool): (Ctx, bool) { Query(c, Session([], completes)) }

  /** A plan, or a throw if the call fails or its output does not parse. */
  function GeneratePlan(c: Ctx, p: Planning): (Ctx, bool) {
    var (c1, done) := Ask(c, p.completes);
    (c1, done && p.valid)
  }

  // ---- loop.js ----

  predicate ReplanAdmitted(c: Ctx, t: Turn) {
    !c.breakerOpen && !c.replanned && t.needsPlan && HasBudget(c)
  }

  /** The replan's own planning call and execute pass, up to where the replan is recorded. */
  function ReplanPass(c: Ctx, t: Turn): (Ctx, bool) {
    var (c1, planned) := GeneratePlan(c.(replanned := true), t.replan);
    if planned then Query(c1, t.reexecute) else (c1, false)
  }

  /** After a failed execute pass: one replan if it is possible, else nothing. */
  function Recover(c: Ctx, t: Turn): (Ctx, bool) {
    if !ReplanAdmitted(c, t) then (c, false)
    else
      var (c1, done) := ReplanPass(c, t);
      (Record(c1, Replan, None, done), done)
  }

  function Finalize(c: Ctx, t: Turn): Ctx {
    if c.dryRun || t.distill.None? then c else Ask(c, t.distill.value).0
  }

  predicate AnyOk(ledger: seq<Entry>) { exists i :: 0 <= i < |ledger| && ledger[i].ok }

  function Conclude(c: Ctx, t: Turn, abstain: bool): (Ctx, Outcome) {
    if c.pendingApprovals > 0 then (c, AwaitingApproval)
    else if abstain && !AnyOk(c.ledger) then (c, Abstained)
    else (Finalize(c, t), Completed)
  }

  function VerifyAndRefine(c: Ctx, t: Turn): (Ctx, Outcome) {
    if c.pendingApprovals > 0 then Conclude(c, t, false)
    else
      var (c1, judged) := Ask(c, t.verdict.completes);
      if !judged then (c1, TurnFailed)
      else if t.verdict.ok || !t.verdict.fixable then Conclude(c1, t, t.verdict.wantsAbstention)
      else
        var (c2, redone) := Query(c1, t.refine);
        if !redone then (c2, TurnFailed) else Conclude(c2, t, t.verdict.wantsAbstention)
  }

  function ExecuteStage(c: Ctx, t: Turn): (Ctx, Outcome) {
    var (c1, done) := Query(c, t.execute);
    var (c2, alive) := if done then (c1, true) else Recover(c1, t);
    if !alive then (c2, Degraded)
    else if c2.stepBudgetExhausted then (c2, OutOfSteps)
    else VerifyAndRefine(c2, t)
  }

  function RunTurn(dryRun: bool, t: Turn): (Ctx, Outcome) {
    var c := Init(dryRun);
    if !t.gateOk then (c, GateRefused)
    else if t.cacheHit && !dryRun then (Finalize(c, t), CacheServed)
    else
      var c1 := if t.rewrite.Some? then Ask(c, t.rewrite.value).0 else c;
      var (c2, planned) := if t.needsPlan then GeneratePlan(c1, t.plan) else (c1, true);
      if !planned then (c2, TurnFailed) else ExecuteStage(c2, t)
  }

  // ---- the invariant ----

  function Count(rs: seq<Recovery>, kind: RecoveryKind): nat {
    if rs == [] then 0 else Count(rs[..|rs| - 1], kind) + if rs[|rs| - 1].kind == kind then 1 else 0
  }

  lemma {:induction false} CountsAddUp(rs: seq<Recovery>)
    ensures |rs| == Count(rs, Retry) + Count(rs, ArgRepair) + Count(rs, Substitute) + Count(rs, Replan)
  {
    if rs != [] { CountsAddUp(rs[..|rs| - 1]); }
  }

  lemma CountAppend(rs: seq<Recovery>, r: Recovery, kind: RecoveryKind)
    ensures Count(rs + [r], kind) == Count(rs, kind) + if r.kind == kind then 1 else 0
  {
    assert (rs + [r])[..|rs|] == rs;
  }

  /** The failures at the end of the provider's results. */
  function TrailingFailures(rs: seq<bool>): nat {
    if rs == [] || rs[|rs| - 1] then 0 else 1 + TrailingFailures(rs[..|rs| - 1])
  }

  /** The ladder's order: a substitute comes right after a failed retry of the same tool,
      which has a substitute. */
  predicate LadderOk(rs: seq<Recovery>) {
    forall i :: 0 <= i < |rs| && rs[i].kind == Substitute ==> i > 0 && MaySubstitute(rs[i - 1], rs[i].tool)
  }

  predicate MaySubstitute(previous: Recovery, tool: Option<string>) {
    tool.Some? && HasSubstitute(tool.value) && previous == Recovery(Retry, tool, false)
  }

  /** The recovery bookkeeping: every recovery spends one unit; only a replan may spend
      the unit below zero; one replan at most; and there are as many
      argument repairs as tools repaired, so no tool is repaired twice. */
  predicate RecoveryOk(rs: seq<Recovery>, budget: int, repaired: set<string>, replanned: bool) {
    && |rs| + budget == RECOVERY_BUDGET
    && |rs| - Count(rs, Replan) <= RECOVERY_BUDGET
    && (budget < 0 ==> budget == -1 && rs[|rs| - 1].kind == Replan)
    && Count(rs, Replan) <= (if replanned then 1 else 0)
    && repaired == Repaired(rs)
    && Count(rs, ArgRepair) == |repaired|
    && LadderOk(rs)
  }

  predicate RecoveryInv(c: Ctx) {
    RecoveryOk(c.recoveries, c.recoveryBudget, c.argRepaired, c.replanned)
  }

  /** The tools whose arguments were repaired. */
  function Repaired(rs: seq<Recovery>): set<string> {
    if rs == [] then {}
    else
      var last := rs[|rs| - 1];
      Repaired(rs[..|rs| - 1]) + if last.kind == ArgRepair && last.tool.Some? then {last.tool.value} else {}
  }

  /** How many ledger entries are of calls that acted, that is, were not refused for steps. */
  function Acting(ledger: seq<Entry>): nat {
    if ledger == [] then 0
    else Acting(ledger[..|ledger| - 1]) + if ledger[|ledger| - 1].decision.Some? then 1 else 0
  }

  lemma NothingActed(ledger: seq<Entry>)
    requires ledger == []
    ensures Acting(ledger) == 0
  {
  }

  lemma ActingAppend(ledger: seq<Entry>, e: Entry)
    ensures Acting(ledger + [e]) == Acting(ledger) + if e.decision.Some? then 1 else 0
  {
    assert (ledger + [e])[..|ledger|] == ledger;
  }

  /** How many calls the step count has let through. */
  function Acted(c: Ctx): nat { if c.stepCount <= MAX_STEPS then c.stepCount else MAX_STEPS }

  ghost predicate StepInv(c: Ctx) {
    && |c.ledger| + c.thrown == c.stepCount
    && Acting(c.ledger) + c.thrown == Acted(c)
    && (c.stepBudgetExhausted <==> c.stepCount > MAX_STEPS)
    && (!c.dryRun ==> c.pendingApprovals == Queued(c.ledger))
    && NoForbiddenOk(c.ledger)
  }

  /** The ledger entries of gated calls. */
  function Queued(ledger: seq<Entry>): nat {
    if ledger == [] then 0
    else Queued(ledger[..|ledger| - 1]) + if ledger[|ledger| - 1].decision == Some(Gated) then 1 else 0
  }

  predicate NoForbiddenOk(ledger: seq<Entry>) {
    forall i :: 0 <= i < |ledger| && ledger[i].decision == Some(Forbidden) ==> !ledger[i].ok
  }

  lemma QueuedAppend(ledger: seq<Entry>, e: Entry)
    ensures Queued(ledger + [e]) == Queued(ledger) + if e.decision == Some(Gated) then 1 else 0
  {
    assert (ledger + [e])[..|ledger|] == ledger;
  }

  lemma NothingQueued(ledger: seq<Entry>)
    requires ledger == []
    ensures Queued(ledger) == 0
  {
  }

  ghost predicate HttpInv(c: Ctx) {
    && c.toolHttp <= Acted(c) + Count(c.recoveries, Retry)
    && (c.dryRun ==> c.toolHttp == 0 && c.pendingApprovals == 0 && |c.recoveries| == Count(c.recoveries, Replan))
  }

  /** No two failures in a row are followed by another call. */
  ghost predicate BreakerHeld(rs: seq<bool>) {
    forall i {:trigger rs[i]} :: 0 <= i < |rs| - 2 && !rs[i] ==> rs[i + 1]
  }

  ghost predicate BreakerInv(c: Ctx) {
    && c.queryFailures == TrailingFailures(c.provider)
    && (c.breakerOpen <==> c.queryFailures >= QUERY_BREAKER_THRESHOLD)
    && BreakerHeld(c.provider)
  }

  ghost predicate Inv(c: Ctx) {
    StepInv(c) && RecoveryInv(c) && HttpInv(c) && BreakerInv(c)
  }

  lemma Recorded(rs: seq<Recovery>, r: Recovery)
    ensures forall k :: Count(rs + [r], k) == Count(rs, k) + if k == r.kind then 1 else 0
    ensures Repaired(rs + [r]) == Repaired(rs) + if r.kind == ArgRepair && r.tool.Some? then {r.tool.value} else {}
  {
    forall k ensures Count(rs + [r], k) == Count(rs, k) + if k == r.kind then 1 else 0 {
      CountAppend(rs, r, k);
    }
    assert (rs + [r])[..|rs|] == rs;
  }

  lemma LadderAppend(rs: seq<Recovery>, r: Recovery)
    requires LadderOk(rs) && (r.kind == Substitute ==> rs != [] && MaySubstitute(rs[|rs| - 1], r.tool))
    ensures LadderOk(rs + [r])
  {
  }

  /** Recording a recovery while the budget lasts, or the one replan, keeps the bookkeeping. */
  lemma RecordKeeps(c: Ctx, kind: RecoveryKind, tool: Option<string>, ok: bool)
    requires RecoveryInv(c) && kind != ArgRepair
    requires if kind == Replan then c.replanned && Count(c.recoveries, Replan) == 0 else HasBudget(c)
    requires kind == Substitute ==> c.recoveries != [] && MaySubstitute(c.recoveries[|c.recoveries| - 1], tool)
    ensures RecoveryInv(Record(c, kind, tool, ok))
    ensures forall k ::
      Count(Record(c, kind, tool, ok).recoveries, k) == Count(c.recoveries, k) + if k == kind then 1 else 0
  {
    hide LadderOk, Count, Repaired;
    Recorded(c.recoveries, Recovery(kind, tool, ok));
    LadderAppend(c.recoveries, Recovery(kind, tool, ok));
    CountsAddUp(c.recoveries);
  }

  lemma RepairOk(rs: seq<Recovery>, budget: int, repaired: set<string>, replanned: bool, tool: string)
    requires RecoveryOk(rs, budget, repaired, replanned) && budget > 0 && tool !in repaired
    ensures RecoveryOk(rs + [Recovery(ArgRepair, Some(tool), false)], budget - 1, repaired + {tool}, replanned)
  {
    hide LadderOk;
    var r := Recovery(ArgRepair, Some(tool), false);
    Recorded(rs, r);
    LadderAppend(rs, r);
    CountsAddUp(rs);
  }

  lemma RepairKeeps(c: Ctx, tool: string)
    requires RecoveryInv(c) && HasBudget(c)
    ensures RecoveryInv(ArgRepairHint(c, tool))
    ensures Count(ArgRepairHint(c, tool).recoveries, Replan) == Count(c.recoveries, Replan)
    ensures Count(ArgRepairHint(c, tool).recoveries, Retry) == Count(c.recoveries, Retry)
  {
    hide RecoveryOk, Count;
    if tool !in c.argRepaired {
      RepairOk(c.recoveries, c.recoveryBudget, c.argRepaired, c.replanned, tool);
      Recorded(c.recoveries, Recovery(ArgRepair, Some(tool), false));
    }
  }

  /** What no tool call touches, and what it may spend. */
  ghost predicate Spends(c: Ctx, d: Ctx) {
    && d.dryRun == c.dryRun && d.stepCount == c.stepCount && d.stepBudgetExhausted == c.stepBudgetExhausted
    && d.ledger == c.ledger && d.replanned == c.replanned && d.breakerOpen == c.breakerOpen
    && d.queryFailures == c.queryFailures && d.provider == c.provider && d.thrown == c.thrown
    && RecoveryInv(d)
    && c.recoveries <= d.recoveries
    && Count(d.recoveries, Replan) == Count(c.recoveries, Replan)
    && d.toolHttp + Count(c.recoveries, Retry) <= c.toolHttp + 1 + Count(d.recoveries, Retry)
    && (c.dryRun ==> d == c)
  }

  lemma RetrySpends(c: Ctx, call: ToolCall)
    requires RecoveryInv(c) && !c.dryRun
    ensures Spends(c, HttpWithRetry(c, call).0)
  {
    hide Count, Repaired;
    if HasBudget(c) {
      RecordKeeps(c.(toolHttp := c.toolHttp + 1), Retry, Some(call.tool), call.second.Answered? && call.second.ok);
    }
  }

  lemma ArgRepairSpends(c: Ctx, d: Ctx, tool: string)
    requires Spends(c, d) && !c.dryRun
    ensures Spends(c, ArgRepairHint(d, tool))
  {
    hide Count, Repaired;
    if HasBudget(d) { RepairKeeps(d, tool); }
  }

  lemma SubstituteSpends(c: Ctx, d: Ctx, tool: string)
    requires Spends(c, d) && !c.dryRun
    requires HasBudget(d) && HasSubstitute(tool) ==>
      d.recoveries != [] && MaySubstitute(d.recoveries[|d.recoveries| - 1], Some(tool))
    ensures Spends(c, SubstituteHint(d, tool))
  {
    hide Count, Repaired;
    if HasBudget(d) && HasSubstitute(tool) { RecordKeeps(d, Substitute, Some(tool), false); }
  }

  /** If the reply in hand is still a server error and budget is left, the retry was spent
      on it and failed. */
  lemma FailedRetryCameFirst(c: Ctx, call: ToolCall)
    ensures var (d, res) := HttpWithRetry(c, call);
      res.Answered? && !res.ok && IsRetryable(res.status) && HasBudget(d) ==>
        d.recoveries != [] && d.recoveries[|d.recoveries| - 1] == Recovery(Retry, Some(call.tool), false)
  {
  }

  lemma AllowedSpends(c: Ctx, call: ToolCall)
    requires RecoveryInv(c)
    ensures Spends(c, RunAllowed(c, call).0)
  {
    hide Count, Repaired, HttpWithRetry, ArgRepairHint, SubstituteHint;
    if !call.buildThrows && !call.routeRefused && !c.dryRun {
      RetrySpends(c, call);
      FailedRetryCameFirst(c, call);
      var (d, res) := HttpWithRetry(c, call);
      if res.Answered? && !res.ok {
        if IsArgRepair(res.status) {
          ArgRepairSpends(c, d, call.tool);
        } else if IsRetryable(res.status) {
          SubstituteSpends(c, d, call.tool);
        }
      }
    }
  }

  /** What a tool call leaves, whatever its kind, before it is entered in the ledger. */
  lemma StepSpends(c: Ctx, d: Ctx, tool: string, decision: Decision, ok: Option<bool>)
    requires Inv(c) && c.stepCount < MAX_STEPS && Spends(c.(stepCount := c.stepCount + 1), d)
    requires QueuesOne(c, d, decision, ok)
    ensures ok.None? ==> Inv(d.(thrown := d.thrown + 1))
    ensures ok.Some? ==> Inv(d.(ledger := d.ledger + [Entry(tool, Some(decision), ok.value)]))
  {
    hide Count, Repaired, Acting, Queued;
    if ok.Some? {
      ActingAppend(d.ledger, Entry(tool, Some(decision), ok.value));
      QueuedAppend(d.ledger, Entry(tool, Some(decision), ok.value));
    }
  }

  /** Outside a dry run a gated call that is answered queues one approval and no other call
      queues any; a forbidden call is never ok. */
  predicate QueuesOne(c: Ctx, d: Ctx, decision: Decision, ok: Option<bool>) {
    && (!c.dryRun ==> d.pendingApprovals == c.pendingApprovals + if decision == Gated && ok.Some? then 1 else 0)
    && (decision == Forbidden ==> ok == Some(false))
  }

  lemma PerformQueues(c: Ctx, call: ToolCall)
    ensures QueuesOne(c, Perform(c, call).0, Effective(call), Perform(c, call).1)
  {
  }

  lemma GatedSpends(c: Ctx, call: ToolCall)
    requires RecoveryInv(c)
    ensures Spends(c, RunGated(c, call).0) && Spends(c, DenyForbidden(c))
  {
    hide Count, Repaired;
  }

  /** The parts of the context a tool call leaves alone. */
  predicate SameTurn(c: Ctx, d: Ctx) {
    d.provider == c.provider && d.replanned == c.replanned && d.dryRun == c.dryRun
    && c.recoveries <= d.recoveries
    && Count(d.recoveries, Replan) == Count(c.recoveries, Replan)
  }

  lemma OutOfStepsKeepsInv(c: Ctx, tool: string)
    requires Inv(c) && c.stepCount >= MAX_STEPS
    ensures Inv(c.(stepCount := c.stepCount + 1, stepBudgetExhausted := true,
                   ledger := c.ledger + [Entry(tool, None, false)]))
  {
    hide Acting, Queued;
    ActingAppend(c.ledger, Entry(tool, None, false));
    QueuedAppend(c.ledger, Entry(tool, None, false));
  }

  lemma PerformSpends(c: Ctx, call: ToolCall)
    requires RecoveryInv(c)
    ensures Spends(c, Perform(c, call).0)
  {
    match Effective(call)
    case Forbidden => GatedSpends(c, call);
    case Gated => GatedSpends(c, call);
    case Allowed => AllowedSpends(c, call);
  }

  lemma ToolKeepsInv(c: Ctx, call: ToolCall)
    requires Inv(c)
    ensures Inv(RunTool(c, call)) && SameTurn(c, RunTool(c, call))
  {
    hide Acting, Queued, NoForbiddenOk, Count, Repaired, RunAllowed, RunGated, DenyForbidden;
    var c1 := c.(stepCount := c.stepCount + 1);
    if c1.stepCount > MAX_STEPS {
      OutOfStepsKeepsInv(c, call.tool);
    } else {
      PerformSpends(c1, call);
      var (c2, ok) := Perform(c1, call);
      PerformQueues(c1, call);
      StepSpends(c, c2, call.tool, Effective(call), ok);
    }
  }

  lemma {:induction false} ToolsKeepInv(c: Ctx, calls: seq<ToolCall>)
    requires Inv(c)
    ensures Inv(RunTools(c, calls)) && SameTurn(c, RunTools(c, calls))
  {
    if calls != [] {
      ToolsKeepInv(c, calls[..|calls| - 1]);
      ToolKeepsInv(RunTools(c, calls[..|calls| - 1]), calls[|calls| - 1]);
    }
  }

  lemma TwoTrailing(rs: seq<bool>)
    requires |rs| >= 2 && !rs[|rs| - 1] && !rs[|rs| - 2]
    ensures TrailingFailures(rs) >= QUERY_BREAKER_THRESHOLD
  {
    var front := rs[..|rs| - 1];
    assert front[|front| - 1] == rs[|rs| - 2];
    assert TrailingFailures(front) >= 1;
  }

  lemma BreakerStep(c: Ctx, ok: bool)
    requires BreakerInv(c) && !c.breakerOpen
    ensures BreakerHeld(c.provider + [ok])
    ensures TrailingFailures(c.provider + [ok]) == if ok then 0 else c.queryFailures + 1
  {
    var p, rs := c.provider, c.provider + [ok];
    assert rs[..|rs| - 1] == p;
    if |p| >= 2 && !p[|p| - 1] && !p[|p| - 2] { TwoTrailing(p); }
    forall i | 0 <= i < |rs| - 2 && !rs[i] ensures rs[i + 1] {
      assert rs[i] == p[i] && rs[i + 1] == p[i + 1];
    }
  }

  /** One model call keeps the invariant and reaches the provider at most once, and not at
      all once the breaker is open. */
  lemma QueryKeepsInv(c: Ctx, q: Session)
    requires Inv(c)
    ensures var (d, done) := Query(c, q);
      && Inv(d) && d.replanned == c.replanned && d.dryRun == c.dryRun
      && c.recoveries <= d.recoveries && Count(d.recoveries, Replan) == Count(c.recoveries, Replan)
      && d.provider == c.provider + (if c.breakerOpen then [] else [q.completes])
      && (done ==> q.completes && !c.breakerOpen)
  {
    hide Acting, Queued, NoForbiddenOk, Count, Repaired, LadderOk, RunTools, TrailingFailures, BreakerHeld;
    if c.breakerOpen {
      assert c.provider + [] == c.provider;
    } else {
      ToolsKeepInv(c, q.calls);
      var c1 := RunTools(c, q.calls);
      BreakerStep(c, q.completes);
    }
  }

  // ---- a whole turn ----

  /** What every stage of a turn keeps. At most `calls` further model calls are made. */
  ghost predicate Stage(c: Ctx, d: Ctx, calls: nat) {
    && Inv(d) && d.dryRun == c.dryRun
    && c.provider <= d.provider && |d.provider| <= |c.provider| + calls
    && (d.replanned <==> Count(d.recoveries, Replan) == 1)
  }

  lemma QueryStage(c: Ctx, q: Session)
    requires Inv(c) && (c.replanned <==> Count(c.recoveries, Replan) == 1)
    ensures Stage(c, Query(c, q).0, 1)
  {
    QueryKeepsInv(c, q);
  }

  lemma PlanStage(c: Ctx, p: Planning)
    requires Inv(c) && (c.replanned <==> Count(c.recoveries, Replan) == 1)
    ensures Stage(c, GeneratePlan(c, p).0, 1)
  {
    QueryStage(c, Session([], p.completes));
  }

  lemma ReplanPassKeepsInv(c: Ctx, t: Turn)
    requires Inv(c) && !c.replanned
    ensures var (d, done) := ReplanPass(c, t);
      && Inv(d) && d.replanned && d.dryRun == c.dryRun && Count(d.recoveries, Replan) == 0
      && c.provider <= d.provider && |d.provider| <= |c.provider| + 2
  {
    hide Acting, Queued, NoForbiddenOk, Count, Repaired, LadderOk, RunTools, TrailingFailures, BreakerHeld;
    var c0 := c.(replanned := true);
    QueryKeepsInv(c0, Session([], t.replan.completes));
    QueryKeepsInv(GeneratePlan(c0, t.replan).0, t.reexecute);
  }

  lemma RecordedKeepsInv(c: Ctx, done: bool)
    requires Inv(c) && RecoveryInv(Record(c, Replan, None, done))
    requires forall k ::
      Count(Record(c, Replan, None, done).recoveries, k) == Count(c.recoveries, k) + if k == Replan then 1 else 0
    ensures Inv(Record(c, Replan, None, done))
  {
    hide Acting, Queued, NoForbiddenOk, Count, Repaired, LadderOk, TrailingFailures, BreakerHeld;
  }

  lemma RecoverStage(c: Ctx, t: Turn)
    requires Inv(c) && (c.replanned <==> Count(c.recoveries, Replan) == 1)
    ensures Stage(c, Recover(c, t).0, 2)
  {
    hide Acting, Queued, NoForbiddenOk, Count, Repaired, LadderOk, RunTools, TrailingFailures, BreakerHeld;
    if ReplanAdmitted(c, t) {
      hide ReplanPass, Inv;
      ReplanPassKeepsInv(c, t);
      var (c1, done) := ReplanPass(c, t);
      RecordKeeps(c1, Replan, None, done);
      RecordedKeepsInv(c1, done);
    }
  }

  lemma FinalizeStage(c: Ctx, t: Turn)
    requires Inv(c) && (c.replanned <==> Count(c.recoveries, Replan) == 1)
    ensures Stage(c, Finalize(c, t), 1)
  {
    if t.distill.Some? { QueryStage(c, Session([], t.distill.value)); }
  }

  lemma VerifyStage(c: Ctx, t: Turn)
    requires Inv(c) && (c.replanned <==> Count(c.recoveries, Replan) == 1)
    ensures Stage(c, VerifyAndRefine(c, t).0, 3)
  {
    hide Acting, Queued, NoForbiddenOk, Count, Repaired, RunTools, TrailingFailures, BreakerHeld, Inv, Query, Finalize;
    FinalizeStage(c, t);
    QueryStage(c, Session([], t.verdict.completes));
    var c1 := Ask(c, t.verdict.completes).0;
    FinalizeStage(c1, t);
    QueryStage(c1, t.refine);
    FinalizeStage(Query(c1, t.refine).0, t);
  }

  lemma ExecuteStages(c: Ctx, t: Turn)
    requires Inv(c) && (c.replanned <==> Count(c.recoveries, Replan) == 1)
    ensures Stage(c, ExecuteStage(c, t).0, 6)
  {
    hide Acting, Queued, NoForbiddenOk, Count, Repaired, RunTools, TrailingFailures, BreakerHeld,
      Inv, Query, Recover, VerifyAndRefine;
    QueryStage(c, t.execute);
    var (c1, done) := Query(c, t.execute);
    RecoverStage(c1, t);
    var c2 := if done then c1 else Recover(c1, t).0;
    VerifyStage(c2, t);
  }

  /** The budgets of a whole turn, whatever the model, the tools and the gate do. */
  lemma TurnBudgets(dryRun: bool, t: Turn)
    ensures Stage(Init(dryRun), RunTurn(dryRun, t).0, 8)
  {
    hide Acting, Queued, NoForbiddenOk, Count, Repaired, RunTools, TrailingFailures, Inv, Query,
      ExecuteStage, Finalize, GeneratePlan;
    var c := Init(dryRun);
    InitOk(dryRun);
    FinalizeStage(c, t);
    if t.rewrite.Some? { QueryStage(c, Session([], t.rewrite.value)); }
    var c1 := if t.rewrite.Some? then Ask(c, t.rewrite.value).0 else c;
    PlanStage(c1, t.plan);
    var c2 := if t.needsPlan then GeneratePlan(c1, t.plan).0 else c1;
    ExecuteStages(c2, t);
  }

  lemma FreshOk(c: Ctx)
    requires c.stepCount == 0 && !c.stepBudgetExhausted && c.ledger == [] && c.pendingApprovals == 0
    requires c.recoveryBudget == RECOVERY_BUDGET && c.recoveries == [] && c.argRepaired == {} && !c.replanned
    requires !c.breakerOpen && c.queryFailures == 0 && c.toolHttp == 0 && c.thrown == 0 && c.provider == []
    ensures Inv(c) && Count(c.recoveries, Replan) == 0
  {
    hide Acting, Queued;
    NothingActed(c.ledger);
    NothingQueued(c.ledger);
  }

  lemma InitOk(dryRun: bool)
    ensures Inv(Init(dryRun)) && Count(Init(dryRun).recoveries, Replan) == 0
  {
    hide Acting, Queued, NoForbiddenOk, Count, Repaired, TrailingFailures, Inv;
    FreshOk(Init(dryRun));
  }

  /** At most eight tool calls act: those in the ledger that were not refused, and those that
      threw. Every call is in the ledger or threw; tool HTTP calls are at most one per
      acting call and one per retry; a dry run makes none. */
  lemma StepsAreBounded(dryRun: bool, t: Turn)
    ensures var c := RunTurn(dryRun, t).0;
      && Acting(c.ledger) + c.thrown == (if c.stepCount <= 8 then c.stepCount else 8)
      && |c.ledger| + c.thrown == c.stepCount
      && (c.stepBudgetExhausted <==> c.stepCount > 8)
      && c.toolHttp <= Acting(c.ledger) + c.thrown + Count(c.recoveries, Retry) <= 8 + 4
      && (dryRun ==> c.toolHttp == 0 && c.pendingApprovals == 0)
  {
    TurnBudgets(dryRun, t);
    CountsAddUp(RunTurn(dryRun, t).0.recoveries);
  }

  // ---- the fifth recovery ----

  lemma {:induction false} CountOfPrefix(rs: seq<Recovery>, longer: seq<Recovery>, kind: RecoveryKind)
    requires rs <= longer
    ensures Count(rs, kind) <= Count(longer, kind)
  {
    if rs != longer {
      assert rs <= longer[..|longer| - 1];
      CountOfPrefix(rs, longer[..|longer| - 1], kind);
    }
  }

  lemma FourBeforeReplan(c: Ctx)
    requires RecoveryInv(c) && !c.replanned
    ensures |c.recoveries| <= RECOVERY_BUDGET
  {
  }

  /** What is recorded beside a replan never makes the fifth. */
  lemma SameFifth(c: Ctx, d: Ctx)
    requires RecoveryInv(c) && RecoveryInv(d) && c.recoveries <= d.recoveries
    requires Count(d.recoveries, Replan) == Count(c.recoveries, Replan)
    ensures |d.recoveries| > RECOVERY_BUDGET <==> |c.recoveries| > RECOVERY_BUDGET
  {
    if |d.recoveries| > RECOVERY_BUDGET && |c.recoveries| < |d.recoveries| {
      CountOfPrefix(c.recoveries, d.recoveries[..|d.recoveries| - 1], Replan);
    }
  }

  lemma QueryFifth(c: Ctx, q: Session)
    requires Inv(c)
    ensures Inv(Query(c, q).0) && Query(c, q).0.replanned == c.replanned
    ensures |Query(c, q).0.recoveries| > RECOVERY_BUDGET <==> |c.recoveries| > RECOVERY_BUDGET
  {
    hide Acting, Queued, NoForbiddenOk, Count, Repaired, LadderOk, Query, StepInv, HttpInv, BreakerInv, RecoveryOk;
    QueryKeepsInv(c, q);
    SameFifth(c, Query(c, q).0);
  }

  /** A fifth recovery is recorded exactly when the replan was admitted — breaker closed,
      none before, a plan to revise, budget left — and its own pass used up what was left. */
  lemma FifthRecoveryIff(c: Ctx, t: Turn)
    requires Inv(c) && !c.replanned
    ensures |Recover(c, t).0.recoveries| > RECOVERY_BUDGET <==> ReplanAdmitted(c, t) && !HasBudget(ReplanPass(c, t).0)
    ensures Inv(Recover(c, t).0)
  {
    hide Acting, Queued, NoForbiddenOk, Count, Repaired, LadderOk, ReplanPass, StepInv, HttpInv, BreakerInv;
    FourBeforeReplan(c);
    RecoverStage(c, t);
    if ReplanAdmitted(c, t) {
      ReplanPassKeepsInv(c, t);
      var d := ReplanPass(c, t).0;
      FourBeforeReplan(d.(replanned := false));
    }
  }

  lemma VerifyFifth(c: Ctx, t: Turn)
    requires Inv(c)
    ensures |VerifyAndRefine(c, t).0.recoveries| > RECOVERY_BUDGET <==> |c.recoveries| > RECOVERY_BUDGET
  {
    hide Inv, Query;
    if t.distill.Some? { QueryFifth(c, Session([], t.distill.value)); }
    QueryFifth(c, Session([], t.verdict.completes));
    var c1 := Ask(c, t.verdict.completes).0;
    if t.distill.Some? { QueryFifth(c1, Session([], t.distill.value)); }
    QueryFifth(c1, t.refine);
    var c2 := Query(c1, t.refine).0;
    if t.distill.Some? { QueryFifth(c2, Session([], t.distill.value)); }
  }

  /** The context in which a turn starts its execute pass, if it gets there. */
  function BeforeExecute(dryRun: bool, t: Turn): Option<Ctx> {
    if !t.gateOk || (t.cacheHit && !dryRun) then None
    else
      var c := Init(dryRun);
      var c1 := if t.rewrite.Some? then Ask(c, t.rewrite.value).0 else c;
      var (c2, planned) := if t.needsPlan then GeneratePlan(c1, t.plan) else (c1, true);
      if planned then Some(c2) else None
  }

  /** The turn fails to execute, may replan, and the replan's pass leaves no budget. */
  predicate ReplanOverspends(c: Ctx, t: Turn) {
    var (c1, done) := Query(c, t.execute);
    !done && ReplanAdmitted(c1, t) && !HasBudget(ReplanPass(c1, t).0)
  }

  lemma ExecuteFifth(c: Ctx, t: Turn)
    requires Inv(c) && !c.replanned
    ensures |ExecuteStage(c, t).0.recoveries| > RECOVERY_BUDGET <==> ReplanOverspends(c, t)
  {
    hide Inv, Query, Recover, ReplanAdmitted, ReplanPass, VerifyAndRefine;
    QueryFifth(c, t.execute);
    var (c1, done) := Query(c, t.execute);
    InvMeansFour(c1);
    FifthRecoveryIff(c1, t);
    VerifyFifth(if done then c1 else Recover(c1, t).0, t);
  }

  lemma InvMeansFour(c: Ctx)
    requires Inv(c) && !c.replanned
    ensures |c.recoveries| <= RECOVERY_BUDGET
  {
    hide Acting, Queued, NoForbiddenOk, Count, Repaired, LadderOk, StepInv, HttpInv, BreakerInv;
    FourBeforeReplan(c);
  }

  /** Over a whole turn there are five recoveries exactly when the turn reached its execute
      pass, that pass failed, the replan was admitted, and the replanned pass used up the
      budget before the replan was recorded. */
  lemma TurnFifthIff(dryRun: bool, t: Turn)
    ensures |RunTurn(dryRun, t).0.recoveries| > RECOVERY_BUDGET <==>
      BeforeExecute(dryRun, t).Some? && ReplanOverspends(BeforeExecute(dryRun, t).value, t)
  {
    hide Inv, Query, ExecuteStage, ReplanOverspends;
    var c := Init(dryRun);
    InitOk(dryRun);
    InvMeansFour(c);
    if t.distill.Some? { QueryFifth(c, Session([], t.distill.value)); }
    if t.rewrite.Some? { QueryFifth(c, Session([], t.rewrite.value)); }
    var c1 := if t.rewrite.Some? then Ask(c, t.rewrite.value).0 else c;
    QueryFifth(c1, Session([], t.plan.completes));
    var c2 := if t.needsPlan then GeneratePlan(c1, t.plan).0 else c1;
    InvMeansFour(c2);
    ExecuteFifth(c2, t);
  }

  /** The recovery budget: recoveries and what is left always make four; at most four are
      not a replan, at most one is; there are five exactly when an admitted replan's pass
      used up the budget before the replan was recorded, and then the replan is the last;
      and no tool's arguments are repaired twice. */
  lemma RecoveriesAreBounded(dryRun: bool, t: Turn)
    ensures var c := RunTurn(dryRun, t).0;
      var others := Count(c.recoveries, Retry) + Count(c.recoveries, ArgRepair) + Count(c.recoveries, Substitute);
      && |c.recoveries| + c.recoveryBudget == 4
      && others <= 4 && Count(c.recoveries, Replan) <= 1 && |c.recoveries| <= 5
      && (c.replanned <==> Count(c.recoveries, Replan) == 1)
      && (|c.recoveries| > 4 <==>
            BeforeExecute(dryRun, t).Some? && ReplanOverspends(BeforeExecute(dryRun, t).value, t))
      && (|c.recoveries| > 4 ==> c.recoveries[|c.recoveries| - 1].kind == Replan)
      && Count(c.recoveries, ArgRepair) == |Repaired(c.recoveries)|
  {
    hide Acting, Queued, NoForbiddenOk, RunTurn, BeforeExecute, ReplanOverspends, TrailingFailures, BreakerHeld;
    TurnBudgets(dryRun, t);
    TurnFifthIff(dryRun, t);
    CountsAddUp(RunTurn(dryRun, t).0.recoveries);
  }

  /** The order of the ladder over a whole turn: a substitute is only ever recorded right
      after a retry of the same tool that failed, and only for a tool that has one. */
  lemma RetryPrecedesSubstitute(dryRun: bool, t: Turn, i: nat)
    ensures var rs := RunTurn(dryRun, t).0.recoveries;
      i < |rs| && rs[i].kind == Substitute ==>
        && rs[i].tool.Some? && HasSubstitute(rs[i].tool.value)
        && i > 0 && rs[i - 1] == Recovery(Retry, rs[i].tool, false)
  {
    hide Acting, Queued, NoForbiddenOk, Count, Repaired, RunTurn, TrailingFailures, BreakerHeld;
    TurnBudgets(dryRun, t);
    var rs := RunTurn(dryRun, t).0.recoveries;
    assert LadderOk(rs);
    if i < |rs| && rs[i].kind == Substitute { assert i > 0 && MaySubstitute(rs[i - 1], rs[i].tool); }
  }

  predicate Failing(r: Reply) { r.Threw? || (r.status.Some? && r.status.value >= 500) }

  /** What one allowed call that is sent records, in full: a retry exactly when the first
      attempt failed in transit or at the server and budget is left, so a client error is
      never retried; then, with budget still left, a repair for a first client error of the
      tool, or a substitute for a server error of one of the three tools that have one. */
  lemma RecoveriesOfOneCall(c: Ctx, call: ToolCall)
    requires !c.dryRun && !call.buildThrows && !call.routeRefused
    ensures var d := RunAllowed(c, call).0;
      var again := Failing(call.first) && c.recoveryBudget > 0;
      var last := if again then call.second else call.first;
      var retry := if again then [Recovery(Retry, Some(call.tool), call.second.Answered? && call.second.ok)] else [];
      var refused := last.Answered? && !last.ok && c.recoveryBudget > |retry|;
      var hint :=
        if refused && (last.status == Some(400) || last.status == Some(422)) && call.tool !in c.argRepaired
        then [Recovery(ArgRepair, Some(call.tool), false)]
        else if refused && last.status.Some? && last.status.value >= 500
                && call.tool in {"search.query", "memory.recall", "entity.get"}
        then [Recovery(Substitute, Some(call.tool), false)]
        else [];
      && d.toolHttp == c.toolHttp + (if again then 2 else 1)
      && d.recoveries == c.recoveries + retry + hint
      && d.recoveryBudget == c.recoveryBudget - |retry| - |hint|
  {
    var (d, res) := HttpWithRetry(c, call);
    assert Failing(call.first) == Transient(call.first);
    assert d.recoveries + [] == d.recoveries;
  }

  /** Whether an allowed call is ok, or `None` if it throws. */
  function AllowedOk(c: Ctx, call: ToolCall): Option<bool> {
    var last := if Failing(call.first) && c.recoveryBudget > 0 then call.second else call.first;
    if call.buildThrows then None
    else if call.routeRefused then Some(false)
    else if c.dryRun then Some(true)
    else if last.Threw? then None else Some(last.ok)
  }

  /** The contexts differ at most in the recoveries, their budget and the HTTP count. */
  predicate OnlyRecovers(c: Ctx, d: Ctx) {
    && d == c.(recoveryBudget := d.recoveryBudget, recoveries := d.recoveries, argRepaired := d.argRepaired,
               toolHttp := d.toolHttp)
  }

  lemma AllowedDoes(c: Ctx, call: ToolCall)
    ensures RunAllowed(c, call).1 == AllowedOk(c, call) && OnlyRecovers(c, RunAllowed(c, call).0)
    ensures call.buildThrows || call.routeRefused || c.dryRun ==> RunAllowed(c, call).0 == c
  {
    assert Failing(call.first) == Transient(call.first);
    assert OnlyRecovers(c, HttpWithRetry(c, call).0);
  }

  lemma PerformDoes(c: Ctx, call: ToolCall)
    ensures var (d, ok) := Perform(c, call);
      && d.stepCount == c.stepCount && d.provider == c.provider && d.ledger == c.ledger
      && if Effective(call) == Allowed then
           && ok == AllowedOk(c, call) && d.pendingApprovals == c.pendingApprovals
           && (call.buildThrows || call.routeRefused || c.dryRun ==>
                 d.toolHttp == c.toolHttp && d.recoveries == c.recoveries)
         else
           && d.recoveries == c.recoveries && d.toolHttp == c.toolHttp + (if c.dryRun then 0 else 1)
           && if Effective(call) == Forbidden then ok == Some(false) && d.pendingApprovals == c.pendingApprovals
              else
                && ok == (if c.dryRun then Some(true) else if call.first.Threw? then None else Some(call.first.ok))
                && d.pendingApprovals == c.pendingApprovals + (if !c.dryRun && call.first.Answered? then 1 else 0)
  {
    hide RunAllowed, AllowedOk;
    AllowedDoes(c, call);
  }

  /** One tool call: it is counted first; past eight it is only noted. A forbidden call, or
      one the role may not make, runs nothing; a gated one is sent at most once, as a draft,
      and queues an approval if it is answered; an allowed one queues nothing and is as ok as
      its last reply, and is not sent at all outside its allowed route or in a dry run; and a
      call that throws leaves no entry. */
  lemma ToolCallDoes(c: Ctx, call: ToolCall)
    ensures var d := RunTool(c, call);
      var blocked := call.decision == Forbidden || call.roleBlocked;
      && d.stepCount == c.stepCount + 1 && d.provider == c.provider
      && if c.stepCount >= 8 then
           && d.stepBudgetExhausted && d.ledger == c.ledger + [Entry(call.tool, None, false)]
           && d.pendingApprovals == c.pendingApprovals && d.toolHttp == c.toolHttp && d.recoveries == c.recoveries
         else if blocked then
           && d.ledger == c.ledger + [Entry(call.tool, Some(Forbidden), false)]
           && d.pendingApprovals == c.pendingApprovals && d.recoveries == c.recoveries
           && d.toolHttp == c.toolHttp + (if c.dryRun then 0 else 1)
         else if call.decision == Gated then
           && d.recoveries == c.recoveries && d.toolHttp == c.toolHttp + (if c.dryRun then 0 else 1)
           && d.pendingApprovals == c.pendingApprovals + (if !c.dryRun && call.first.Answered? then 1 else 0)
           && d.ledger == (if c.dryRun then c.ledger + [Entry(call.tool, Some(Gated), true)]
                           else if call.first.Threw? then c.ledger
                           else c.ledger + [Entry(call.tool, Some(Gated), call.first.ok)])
         else
           && d.pendingApprovals == c.pendingApprovals
           && (call.buildThrows || call.routeRefused || c.dryRun ==>
                 d.toolHttp == c.toolHttp && d.recoveries == c.recoveries)
           && d.ledger == match AllowedOk(c, call)
                          case None => c.ledger
                          case Some(ok) => c.ledger + [Entry(call.tool, Some(Allowed), ok)]
  {
    hide Perform, AllowedOk;
    PerformDoes(c.(stepCount := c.stepCount + 1), call);
    AllowedOkIgnoresSteps(c, call);
  }

  lemma AllowedOkIgnoresSteps(c: Ctx, call: ToolCall)
    ensures AllowedOk(c.(stepCount := c.stepCount + 1), call) == AllowedOk(c, call)
  {
  }

  // ---- what each stage does ----

  lemma {:induction false} EveryCallCounts(c: Ctx, calls: seq<ToolCall>)
    ensures var d := RunTools(c, calls);
      && d.stepCount == c.stepCount + |calls| && d.provider == c.provider && d.dryRun == c.dryRun
      && d.queryFailures == c.queryFailures && d.breakerOpen == c.breakerOpen && d.replanned == c.replanned
  {
    if calls != [] {
      hide RunTool;
      EveryCallCounts(c, calls[..|calls| - 1]);
      CallKeepsTurn(RunTools(c, calls[..|calls| - 1]), calls[|calls| - 1]);
    }
  }

  lemma CallKeepsTurn(c: Ctx, call: ToolCall)
    ensures var d := RunTool(c, call);
      && d.stepCount == c.stepCount + 1 && d.provider == c.provider && d.dryRun == c.dryRun
      && d.queryFailures == c.queryFailures && d.breakerOpen == c.breakerOpen && d.replanned == c.replanned
  {
    hide RunAllowed;
    AllowedDoes(c.(stepCount := c.stepCount + 1), call);
  }

  /** A model call: nothing at all behind an open breaker; else all its tool calls, one result
      for the provider, and a breaker that opens on the second failure in a row. */
  lemma QueryDoes(c: Ctx, q: Session)
    ensures var (d, done) := Query(c, q);
      if c.breakerOpen then d == c && !done
      else
        && done == q.completes && d.stepCount == c.stepCount + |q.calls| && d.provider == c.provider + [q.completes]
        && d.queryFailures == (if q.completes then 0 else c.queryFailures + 1)
        && (d.breakerOpen <==> !q.completes && c.queryFailures >= 1)
        && d.dryRun == c.dryRun && d.replanned == c.replanned
        && (q.calls == [] ==> d.ledger == c.ledger && d.pendingApprovals == c.pendingApprovals)
  {
    hide RunTool;
    EveryCallCounts(c, q.calls);
  }

  /** Recovery: nothing unless a replan is possible; else the planning call, and if it gives
      a valid plan a whole execute pass; and the replan recorded last with its own success. */
  lemma RecoverDoes(c: Ctx, t: Turn)
    ensures var (d, alive) := Recover(c, t);
      if c.breakerOpen || c.replanned || !t.needsPlan || c.recoveryBudget <= 0 then d == c && !alive
      else
        var planned := t.replan.completes && t.replan.valid;
        && alive == (planned && t.reexecute.completes)
        && d.stepCount == c.stepCount + (if planned then |t.reexecute.calls| else 0)
        && d.provider == c.provider + [t.replan.completes] + (if planned then [t.reexecute.completes] else [])
        && d.replanned && d.recoveries != [] && d.recoveries[|d.recoveries| - 1] == Recovery(Replan, None, alive)
  {
    hide Query;
    var c0 := c.(replanned := true);
    QueryDoes(c0, Session([], t.replan.completes));
    QueryDoes(GeneratePlan(c0, t.replan).0, t.reexecute);
  }

  /** The outcome of a turn that reached its conclusion. */
  function Ending(c: Ctx, wantsAbstention: bool): Outcome {
    if c.pendingApprovals > 0 then AwaitingApproval
    else if wantsAbstention && forall i :: 0 <= i < |c.ledger| ==> !c.ledger[i].ok then Abstained
    else Completed
  }

  /** Verification: no critique with an approval pending; a critique that cannot be had fails
      the turn; the refine pass runs exactly when the critique finds a fixable fault; and a
      completed turn outside a dry run makes its one call to distill a lesson. */
  lemma VerifyDoes(c: Ctx, t: Turn)
    ensures var (d, outcome) := VerifyAndRefine(c, t);
      var v := t.verdict;
      if c.pendingApprovals > 0 then d == c && outcome == AwaitingApproval
      else if c.breakerOpen then d == c && outcome == TurnFailed
      else if !v.completes then
        && outcome == TurnFailed && d.provider == c.provider + [false]
        && d.ledger == c.ledger && d.stepCount == c.stepCount
      else
        var refined := !v.ok && v.fixable;
        var failed := refined && !t.refine.completes;
        var distilled := !failed && outcome == Completed && !c.dryRun && t.distill.Some?;
        && d.stepCount == c.stepCount + (if refined then |t.refine.calls| else 0)
        && (!refined ==> d.ledger == c.ledger && d.pendingApprovals == c.pendingApprovals)
        && d.provider == c.provider + [true] + (if refined then [t.refine.completes] else [])
                         + (if distilled then [t.distill.value] else [])
        && outcome == if failed then TurnFailed else Ending(d, v.wantsAbstention)
  {
    hide Query;
    QueryDoes(c, Session([], t.verdict.completes));
    var c1 := Ask(c, t.verdict.completes).0;
    QueryDoes(c1, t.refine);
    var c2 := Query(c1, t.refine).0;
    if t.distill.Some? {
      QueryDoes(c1, Session([], t.distill.value));
      QueryDoes(c2, Session([], t.distill.value));
    }
  }

  lemma VerifyEnds(c: Ctx, t: Turn)
    ensures var outcome := VerifyAndRefine(c, t).1;
      outcome == AwaitingApproval || outcome == TurnFailed || outcome == Abstained || outcome == Completed
  {
    hide VerifyAndRefine;
    VerifyDoes(c, t);
  }

  /** A turn, stage by stage: refused before any call at a closed gate; served from the cache
      only outside a dry run, before any tool call; failed without a plan where one is needed;
      degraded exactly when neither the execute pass nor its recovery succeeds; out of steps
      exactly when they ran out; and else verified. */
  lemma TurnDoes(dryRun: bool, t: Turn)
    ensures var (d, outcome) := RunTurn(dryRun, t);
      && (outcome == GateRefused <==> !t.gateOk) && (!t.gateOk ==> d == Init(dryRun))
      && (outcome == CacheServed <==> t.gateOk && t.cacheHit && !dryRun)
      && (outcome == CacheServed ==>
            d.stepCount == 0 && d.provider == (if t.distill.Some? then [t.distill.value] else []))
      && (t.gateOk && !(t.cacheHit && !dryRun) ==>
           match BeforeExecute(dryRun, t)
           case None => outcome == TurnFailed && d.stepCount == 0
           case Some(c) =>
             var (c1, done) := Query(c, t.execute);
             var (c2, alive) := if done then (c1, true) else Recover(c1, t);
             && (outcome == Degraded <==> !alive) && (outcome == OutOfSteps <==> alive && c2.stepBudgetExhausted)
             && (if alive && !c2.stepBudgetExhausted then (d, outcome) == VerifyAndRefine(c2, t) else d == c2))
  {
    hide Query, Recover, VerifyAndRefine;
    var c := Init(dryRun);
    if t.distill.Some? { QueryDoes(c, Session([], t.distill.value)); }
    if t.rewrite.Some? { QueryDoes(c, Session([], t.rewrite.value)); }
    var c1 := if t.rewrite.Some? then Ask(c, t.rewrite.value).0 else c;
    QueryDoes(c1, Session([], t.plan.completes));
    if BeforeExecute(dryRun, t).Some? {
      var (c3, done) := Query(BeforeExecute(dryRun, t).value, t.execute);
      VerifyEnds(if done then c3 else Recover(c3, t).0, t);
    }
  }

  /** Before its execute pass a turn has made the rewriting call if it wanted one and the
      planning call if it needed one, and no tool call; it gets there exactly when the plan it
      needs completes and is valid. */
  lemma StartDoes(dryRun: bool, t: Turn)
    ensures var start := BeforeExecute(dryRun, t);
      && (start.Some? <==>
            t.gateOk && !(t.cacheHit && !dryRun) && (t.needsPlan ==> t.plan.completes && t.plan.valid))
      && (start.Some? ==>
            && start.value.stepCount == 0 && start.value.ledger == [] && start.value.recoveries == []
            && start.value.provider == (if t.rewrite.Some? then [t.rewrite.value] else [])
                                       + (if t.needsPlan then [true] else []))
  {
    hide Query;
    var c := Init(dryRun);
    if t.rewrite.Some? { AskDoes(c, t.rewrite.value); }
    var c1 := if t.rewrite.Some? then Ask(c, t.rewrite.value).0 else c;
    AskDoes(c1, t.plan.completes);
  }

  lemma AskDoes(c: Ctx, completes: bool)
    requires !c.breakerOpen
    ensures var (d, done) := Ask(c, completes);
      && done == completes && d.ledger == c.ledger && d.stepCount == c.stepCount && d.recoveries == c.recoveries
      && d.provider == c.provider + [completes] && (d.breakerOpen <==> !completes && c.queryFailures >= 1)
  {
  }

  /** The breaker: over the whole turn, once two calls in a row that reached the provider
      have failed, no later call reaches it; it is open at the end exactly when the last two
      failed; and a turn reaches the provider at most eight times. */
  lemma BreakerHolds(dryRun: bool, t: Turn, i: nat)
    ensures var c := RunTurn(dryRun, t).0;
      var rs := c.provider;
      && |rs| <= 8 && (i + 1 < |rs| && !rs[i] && !rs[i + 1] ==> i + 2 == |rs|)
      && (c.breakerOpen <==> |rs| >= 2 && !rs[|rs| - 1] && !rs[|rs| - 2])
  {
    hide RunTurn, TrailingFailures, Acting, Count, Repaired, Queued;
    TurnBudgets(dryRun, t);
    var rs := RunTurn(dryRun, t).0.provider;
    TrailingTwo(rs);
  }

  lemma TrailingTwo(rs: seq<bool>)
    ensures TrailingFailures(rs) >= 2 <==> |rs| >= 2 && !rs[|rs| - 1] && !rs[|rs| - 2]
  {
    if |rs| >= 2 { assert rs[..|rs| - 1][|rs| - 2] == rs[|rs| - 2]; }
  }

  /** Gated calls are queued, never executed: outside a dry run the pending approvals are
      exactly the ledger's gated entries, a turn that reaches its conclusion awaits approval
      exactly when it has one, and no forbidden call is ever ok. */
  lemma GatedCallsAreQueued(dryRun: bool, t: Turn)
    ensures var (c, outcome) := RunTurn(dryRun, t);
      && (!dryRun ==> c.pendingApprovals == Queued(c.ledger))
      && (!dryRun && (outcome == AwaitingApproval || outcome == Abstained || outcome == Completed) ==>
            (outcome == AwaitingApproval <==> exists i :: 0 <= i < |c.ledger| && c.ledger[i].decision == Some(Gated)))
      && (forall i :: 0 <= i < |c.ledger| && c.ledger[i].decision == Some(Forbidden) ==> !c.ledger[i].ok)
  {
    hide RunTurn, Acting, Count, Repaired, TrailingFailures, BreakerHeld;
    TurnBudgets(dryRun, t);
    OutcomesAreHonest(dryRun, t);
    QueuedIff(RunTurn(dryRun, t).0.ledger);
  }

  lemma {:induction false} QueuedIff(ledger: seq<Entry>)
    ensures Queued(ledger) > 0 <==> exists i :: 0 <= i < |ledger| && ledger[i].decision == Some(Gated)
  {
    if ledger != [] {
      var front := ledger[..|ledger| - 1];
      QueuedIff(front);
      assert forall i :: 0 <= i < |front| ==> front[i] == ledger[i];
    }
  }

  lemma FinalizeOnlyAsks(c: Ctx, t: Turn)
    ensures var d := Finalize(c, t);
      d.ledger == c.ledger && d.pendingApprovals == c.pendingApprovals && d.stepCount == c.stepCount
  {
  }

  ghost predicate Honest(c: Ctx, outcome: Outcome) {
    && (outcome == AwaitingApproval ==> c.pendingApprovals > 0)
    && (outcome == Completed || outcome == Abstained ==> c.pendingApprovals == 0)
    && (outcome == Abstained ==> !AnyOk(c.ledger))
    && (outcome == OutOfSteps ==> c.stepBudgetExhausted)
  }

  lemma VerifyIsHonest(c: Ctx, t: Turn)
    ensures Honest(VerifyAndRefine(c, t).0, VerifyAndRefine(c, t).1)
    ensures var outcome := VerifyAndRefine(c, t).1;
      outcome == AwaitingApproval || outcome == Completed || outcome == Abstained || outcome == TurnFailed
  {
    hide RunTools, Query;
    FinalizeOnlyAsks(c, t);
    var c1 := Ask(c, t.verdict.completes).0;
    FinalizeOnlyAsks(c1, t);
    FinalizeOnlyAsks(Query(c1, t.refine).0, t);
  }

  lemma RecoverGivesUpOnlyIf(c: Ctx, t: Turn)
    requires Inv(c)
    ensures var (d, alive) := Recover(c, t);
      !alive && !d.replanned ==> d == c && (c.breakerOpen || !t.needsPlan || c.recoveryBudget <= 0)
  {
    hide Acting, Queued, NoForbiddenOk, Count, Repaired, LadderOk, RunTools, TrailingFailures, BreakerHeld;
    var c0 := c.(replanned := true);
    QueryKeepsInv(c0, Session([], t.replan.completes));
    QueryKeepsInv(GeneratePlan(c0, t.replan).0, t.reexecute);
  }

  lemma ExecuteIsHonest(c: Ctx, t: Turn)
    requires Inv(c) && (c.replanned <==> Count(c.recoveries, Replan) == 1)
    ensures var (d, outcome) := ExecuteStage(c, t);
      && Honest(d, outcome) && outcome != CacheServed
      && (outcome == Degraded && !d.replanned ==> !t.needsPlan || d.breakerOpen || d.recoveryBudget <= 0)
  {
    hide Acting, Queued, NoForbiddenOk, Count, Repaired, RunTools, TrailingFailures, BreakerHeld,
      Recover, VerifyAndRefine, Query, Inv;
    QueryStage(c, t.execute);
    var (c1, done) := Query(c, t.execute);
    RecoverGivesUpOnlyIf(c1, t);
    VerifyIsHonest(if done then c1 else Recover(c1, t).0, t);
  }

  /** The outcome reports what happened: a turn that awaits approval has some pending and
      is not a dry run; one that completes or abstains has none; an abstaining turn has
      executed no tool successfully; a degraded turn tried its replan unless there was no
      plan to revise, the breaker was open or the budget was spent. */
  lemma OutcomesAreHonest(dryRun: bool, t: Turn)
    ensures var (c, outcome) := RunTurn(dryRun, t);
      && Honest(c, outcome)
      && (outcome == AwaitingApproval || outcome == CacheServed ==> !dryRun)
      && (outcome == CacheServed ==> c.ledger == [])
      && (outcome == Degraded && !c.replanned ==> !t.needsPlan || c.breakerOpen || c.recoveryBudget <= 0)
  {
    hide Acting, Queued, NoForbiddenOk, Count, Repaired, RunTools, TrailingFailures, Query,
      ExecuteStage, Finalize, GeneratePlan, Inv, Honest;
    StepsAreBounded(dryRun, t);
    var c := Init(dryRun);
    FinalizeOnlyAsks(c, t);
    InitOk(dryRun);
    if t.rewrite.Some? { QueryStage(c, Session([], t.rewrite.value)); }
    var c1 := if t.rewrite.Some? then Ask(c, t.rewrite.value).0 else c;
    PlanStage(c1, t.plan);
    ExecuteIsHonest(if t.needsPlan then GeneratePlan(c1, t.plan).0 else c1, t);
    HonestMeans(RunTurn(dryRun, t).0, RunTurn(dryRun, t).1);
  }

  lemma HonestMeans(c: Ctx, outcome: Outcome)
    ensures Honest(c, outcome) && outcome == AwaitingApproval ==> c.pendingApprovals > 0
    ensures outcome == GateRefused || outcome == CacheServed || outcome == TurnFailed ==> Honest(c, outcome)
  {
  }

  /** An allowed call whose first attempt fails in transit and whose retry succeeds. */
  predicate RetriedOk(call: ToolCall) {
    && call.decision == Allowed && !call.roleBlocked && !call.buildThrows && !call.routeRefused
    && call.first == Threw && call.second == Answered(Some(200), true)
  }

  /** Five recoveries do happen: a failed first pass, a replanned pass with four retries,
      and the replan recorded after them. */
  lemma FiveRecoveriesHappen(t: Turn)
    requires t.gateOk && !t.cacheHit && t.rewrite.None? && t.needsPlan && t.plan == Planning(true, true)
    requires t.execute == Session([], false) && t.replan == Planning(true, true)
    requires t.reexecute.completes && |t.reexecute.calls| == 4
    requires forall call :: call in t.reexecute.calls ==> RetriedOk(call)
    requires t.verdict == Verdict(true, true, false, false) && t.distill.None?
    ensures var (c, outcome) := RunTurn(false, t);
      outcome == Completed && |c.recoveries| == 5 && c.recoveryBudget == -1
  {
    var c0 := Query(GeneratePlan(Init(false), t.plan).0, t.execute).0;
    RetriesSpend(GeneratePlan(c0.(replanned := true), t.replan).0, t.reexecute.calls);
  }

  lemma RetriedCallSpendsOne(c: Ctx, call: ToolCall)
    requires RetriedOk(call) && !c.dryRun && c.stepCount < MAX_STEPS && HasBudget(c)
    ensures var d := RunTool(c, call);
      && d.stepCount == c.stepCount + 1 && d.recoveryBudget == c.recoveryBudget - 1
      && |d.recoveries| == |c.recoveries| + 1 && d.stepBudgetExhausted == c.stepBudgetExhausted
      && d.pendingApprovals == c.pendingApprovals && d.breakerOpen == c.breakerOpen && d.dryRun == c.dryRun
  {
  }

  lemma {:induction false} RetriesSpend(c: Ctx, calls: seq<ToolCall>)
    requires forall call :: call in calls ==> RetriedOk(call)
    requires !c.dryRun && c.stepCount + |calls| <= MAX_STEPS && c.recoveryBudget >= |calls|
    ensures var d := RunTools(c, calls);
      && d.stepCount == c.stepCount + |calls| && d.recoveryBudget == c.recoveryBudget - |calls|
      && |d.recoveries| == |c.recoveries| + |calls| && d.stepBudgetExhausted == c.stepBudgetExhausted
      && d.pendingApprovals == c.pendingApprovals && d.breakerOpen == c.breakerOpen && d.dryRun == c.dryRun
  {
    hide RunTool, RetriedOk;
    if calls != [] {
      RetriesSpend(c, calls[..|calls| - 1]);
      assert RetriedOk(calls[|calls| - 1]);
      RetriedCallSpendsOne(RunTools(c, calls[..|calls| - 1]), calls[|calls| - 1]);
    }
  }

  // ---- the turn as methods on mutable state ----

  class TurnContext {
    const dryRun: bool
    var stepCount: nat
    var stepBudgetExhausted: bool
    var ledger: seq<Entry>
    var pendingApprovals: nat
    var recoveryBudget: int
    var recoveries: seq<Recovery>
    var argRepaired: set<string>
    var replanned: bool
    var breakerOpen: bool
    var queryFailures: nat
    ghost var toolHttp: nat
    ghost var thrown: nat
    ghost var provider: seq<bool>

    ghost function Value(): Ctx
      reads this
    {
      Ctx(dryRun, stepCount, stepBudgetExhausted, ledger, pendingApprovals, recoveryBudget, recoveries, argRepaired,
          replanned, breakerOpen, queryFailures, toolHttp, thrown, provider)
    }

    constructor (dryRun: bool)
      ensures Value() == Init(dryRun) && this.dryRun == dryRun
    {
      this.dryRun := dryRun;
      stepCount, stepBudgetExhausted, ledger, pendingApprovals := 0, false, [], 0;
      recoveryBudget, recoveries, argRepaired, replanned := RECOVERY_BUDGET, [], {}, false;
      breakerOpen, queryFailures, toolHttp, thrown, provider := false, 0, 0, 0, [];
    }

    method RecordRecovery(kind: RecoveryKind, tool: Option<string>, ok: bool)
      modifies this
      ensures Value() == Record(old(Value()), kind, tool, ok)
    {
      recoveries := recoveries + [Recovery(kind, tool, ok)];
      recoveryBudget := recoveryBudget - 1;
    }

    method CallWithRetry(call: ToolCall) returns (res: Reply)
      modifies this
      ensures (Value(), res) == HttpWithRetry(old(Value()), call)
    {
      toolHttp := toolHttp + 1;
      if !Transient(call.first) || recoveryBudget <= 0 { return call.first; }
      toolHttp := toolHttp + 1;
      var recovered := call.second.Answered? && call.second.ok;
      RecordRecovery(Retry, Some(call.tool), recovered);
      return call.second;
    }

    method ApplyArgRepairHint(tool: string)
      modifies this
      ensures Value() == ArgRepairHint(old(Value()), tool)
    {
      if tool in argRepaired || recoveryBudget <= 0 { return; }
      argRepaired := argRepaired + {tool};
      RecordRecovery(ArgRepair, Some(tool), false);
    }

    method ApplySubstituteHint(tool: string)
      modifies this
      ensures Value() == SubstituteHint(old(Value()), tool)
    {
      if !HasSubstitute(tool) || recoveryBudget <= 0 { return; }
      RecordRecovery(Substitute, Some(tool), false);
    }

    method DoAllowed(call: ToolCall) returns (ok: Option<bool>)
      modifies this
      ensures (Value(), ok) == RunAllowed(old(Value()), call)
    {
      if call.buildThrows { return None; }
      if call.routeRefused { return Some(false); }
      if dryRun { return Some(true); }
      var res := CallWithRetry(call);
      if res.Threw? { return None; }
      if !res.ok {
        if IsArgRepair(res.status) { ApplyArgRepairHint(call.tool); }
        else if IsRetryable(res.status) { ApplySubstituteHint(call.tool); }
      }
      return Some(res.ok);
    }

    method DoGated(call: ToolCall) returns (ok: Option<bool>)
      modifies this
      ensures (Value(), ok) == RunGated(old(Value()), call)
    {
      if dryRun { return Some(true); }
      toolHttp := toolHttp + 1;
      if call.first.Threw? { return None; }
      pendingApprovals := pendingApprovals + 1;
      return Some(call.first.ok);
    }

    method DoDenied()
      modifies this
      ensures Value() == DenyForbidden(old(Value()))
    {
      if dryRun { return; }
      toolHttp := toolHttp + 1;
    }

    method DoPerform(call: ToolCall) returns (ok: Option<bool>)
      modifies this
      ensures (Value(), ok) == Perform(old(Value()), call)
    {
      hide RunAllowed, RunGated, DenyForbidden;
      if call.decision == Forbidden || call.roleBlocked {
        DoDenied();
        ok := Some(false);
      } else if call.decision == Gated {
        ok := DoGated(call);
      } else {
        ok := DoAllowed(call);
      }
    }

    method DoTool(call: ToolCall)
      modifies this
      ensures Value() == RunTool(old(Value()), call)
    {
      hide Perform;
      stepCount := stepCount + 1;
      assert Value() == old(Value()).(stepCount := old(stepCount) + 1);
      if stepCount > MAX_STEPS {
        stepBudgetExhausted := true;
        ledger := ledger + [Entry(call.tool, None, false)];
        return;
      }
      var ok := DoPerform(call);
      if ok.None? { thrown := thrown + 1; return; }
      ledger := ledger + [Entry(call.tool, Some(Effective(call)), ok.value)];
    }

    method DoCalls(calls: seq<ToolCall>)
      modifies this
      ensures Value() == RunTools(old(Value()), calls)
    {
      hide RunTool;
      for i := 0 to |calls|
        invariant Value() == RunTools(old(Value()), calls[..i])
      {
        assert calls[..i + 1][..i] == calls[..i];
        DoTool(calls[i]);
      }
      assert calls[..|calls|] == calls;
    }

    method DoQuery(s: Session) returns (done: bool)
      modifies this
      ensures (Value(), done) == Query(old(Value()), s)
    {
      hide RunTools;
      if breakerOpen { return false; }
      DoCalls(s.calls);
      provider := provider + [s.completes];
      if s.completes {
        queryFailures := 0;
      } else {
        queryFailures := queryFailures + 1;
        if queryFailures >= QUERY_BREAKER_THRESHOLD { breakerOpen := true; }
      }
      return s.completes;
    }

    method DoPlan(p: Planning) returns (planned: bool)
      modifies this
      ensures (Value(), planned) == GeneratePlan(old(Value()), p)
    {
      var done := DoQuery(Session([], p.completes));
      return done && p.valid;
    }

    method RecoverExecuteFailure(t: Turn) returns (alive: bool)
      modifies this
      ensures (Value(), alive) == Recover(old(Value()), t)
    {
      hide GeneratePlan, Query;
      var canReplan := !breakerOpen && !replanned && t.needsPlan && recoveryBudget > 0;
      if !canReplan { return false; }
      replanned := true;
      alive := DoPlan(t.replan);
      if alive { alive := DoQuery(t.reexecute); }
      RecordRecovery(Replan, None, alive);
    }

    method Finish(t: Turn)
      modifies this
      ensures Value() == Finalize(old(Value()), t)
    {
      if dryRun || t.distill.None? { return; }
      var _ := DoQuery(Session([], t.distill.value));
    }

    method ConcludeTurn(t: Turn, abstain: bool) returns (outcome: Outcome)
      modifies this
      ensures (Value(), outcome) == Conclude(old(Value()), t, abstain)
    {
      if pendingApprovals > 0 { return AwaitingApproval; }
      if abstain && !AnyOk(ledger) { return Abstained; }
      Finish(t);
      return Completed;
    }

    method Verify(t: Turn) returns (outcome: Outcome)
      modifies this
      ensures (Value(), outcome) == VerifyAndRefine(old(Value()), t)
    {
      var abstain := false;
      if pendingApprovals == 0 {
        var judged := DoQuery(Session([], t.verdict.completes));
        if !judged { return TurnFailed; }
        abstain := t.verdict.wantsAbstention;
        if !t.verdict.ok && t.verdict.fixable {
          var redone := DoQuery(t.refine);
          if !redone { return TurnFailed; }
        }
      }
      outcome := ConcludeTurn(t, abstain);
    }

    method RunAgentTurn(t: Turn) returns (outcome: Outcome)
      requires Value() == Init(dryRun)
      modifies this
      ensures (Value(), outcome) == RunTurn(dryRun, t)
    {
      if !t.gateOk { return GateRefused; }
      if t.cacheHit && !dryRun {
        Finish(t);
        return CacheServed;
      }
      if t.rewrite.Some? { var _ := DoQuery(Session([], t.rewrite.value)); }
      if t.needsPlan {
        var planned := DoPlan(t.plan);
        if !planned { return TurnFailed; }
      }
      var alive := DoQuery(t.execute);
      if !alive { alive := RecoverExecuteFailure(t); }
      if !alive { return Degraded; }
      if stepBudgetExhausted { return OutOfSteps; }
      outcome := Verify(t);
    }
  }
}
