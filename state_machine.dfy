/**
 * `OperationStateMachine`: the six operation statuses, the fixed edge table
 * (each edge with named conditions, named effects and a confirmation flag),
 * the condition checkers evaluated against a context dictionary, and the
 * transition that runs an edge's effects best-effort.
 *
 * Statuses arrive as strings; a string that is not a status value makes the
 * lookups answer "no" rather than raise. A checker that compares incompatible
 * context values raises `TypeError`, which propagates out of `can_transition`.
 */
module StateMachine {
  import opened Wrappers
  import opened PyText
  import opened PyValues
  import opened MesErrors

  datatype Status = Planned | Released | InProgress | OnHold | Finished | Cancelled

  /** The enum member's value. */
  function Name(s: Status): string {
    match s
    case Planned => "PLANNED"
    case Released => "RELEASED"
    case InProgress => "IN_PROGRESS"
    case OnHold => "ON_HOLD"
    case Finished => "FINISHED"
    case Cancelled => "CANCELLED"
  }

  /** `OperationStatus(text)`: `None` where the constructor raises `ValueError`. */
  function Parse(text: string): (r: Option<Status>)
    ensures r.Some? ==> Name(r.value) == text
    ensures r.None? ==> forall s: Status :: Name(s) != text
  {
    if text == "PLANNED" then Some(Planned)
    else if text == "RELEASED" then Some(Released)
    else if text == "IN_PROGRESS" then Some(InProgress)
    else if text == "ON_HOLD" then Some(OnHold)
    else if text == "FINISHED" then Some(Finished)
    else if text == "CANCELLED" then Some(Cancelled)
    else None
  }

  /** Every status value parses back to its member, so `Name` is injective. */
  lemma ParseName(s: Status)
    ensures Parse(Name(s)) == Some(s)
  {
  }

  /** A `StateTransition`. */
  datatype Edge = Edge(
    from: Status,
    to: Status,
    conditions: seq<string>,
    effects: seq<string>,
    requiresConfirmation: bool)

  /** `_define_transitions()[s]`, in table order. */
  function Transitions(s: Status): seq<Edge> {
    match s
    case Planned => [
      Edge(Planned, Released, ["has_required_materials", "machine_available"],
           ["notify_operator", "reserve_capacity"], false),
      Edge(Planned, Cancelled, ["authorized_cancellation"],
           ["release_reservations", "update_schedule"], true)]
    case Released => [
      Edge(Released, InProgress, ["operator_available", "setup_complete"],
           ["start_time_tracking", "update_machine_status"], false),
      Edge(Released, OnHold, ["hold_reason_provided"],
           ["pause_schedule", "notify_planning"], false),
      Edge(Released, Cancelled, ["authorized_cancellation"],
           ["release_reservations", "update_schedule"], true)]
    case InProgress => [
      Edge(InProgress, Finished, ["quality_approved", "quantity_complete"],
           ["calculate_actuals", "update_inventory", "release_capacity"], false),
      Edge(InProgress, OnHold, ["hold_reason_provided"],
           ["pause_time_tracking", "notify_planning"], false),
      Edge(InProgress, Cancelled, ["authorized_cancellation", "work_stoppage_approved"],
           ["handle_wip", "calculate_partial_actuals"], true)]
    case OnHold => [
      Edge(OnHold, InProgress, ["hold_reason_resolved", "resources_available"],
           ["resume_time_tracking", "update_machine_status"], false),
      Edge(OnHold, Cancelled, ["authorized_cancellation"],
           ["handle_wip", "release_reservations"], true)]
    case Finished => []
    case Cancelled => []
  }

  /** `_terminal_states`. */
  predicate Terminal(s: Status) {
    s == Finished || s == Cancelled
  }

  /** The table is well formed: each edge leaves its own state, and needs confirmation exactly when it cancels. */
  lemma EdgeTableShape(s: Status)
    ensures forall e | e in Transitions(s) :: e.from == s && e.to != s
    ensures forall e | e in Transitions(s) :: e.requiresConfirmation <==> e.to == Cancelled
    ensures Transitions(s) == [] <==> Terminal(s)
  {
  }

  /** Only CANCELLED is named "CANCELLED". */
  lemma CancelledName(s: Status)
    ensures Name(s) == "CANCELLED" <==> s == Cancelled
  {
    ParseName(s);
    assert Parse("CANCELLED") == Some(Cancelled);
  }

  /** The first edge of `edges` leading to `to`. */
  function FindEdge(edges: seq<Edge>, to: Status): (r: Option<Edge>)
    ensures r.Some? ==> r.value in edges && r.value.to == to
    ensures r.None? ==> forall e | e in edges :: e.to != to
  {
    if edges == [] then None
    else if edges[0].to == to then Some(edges[0])
    else FindEdge(edges[1..], to)
  }

  /** The entries of `condition_checkers`. */
  datatype Checker =
    | HasRequiredMaterials | MachineAvailable | AuthorizedCancellation | OperatorAvailable
    | SetupComplete | HoldReasonProvided | QualityApproved | QuantityComplete
    | HoldReasonResolved | ResourcesAvailable | WorkStoppageApproved

  /** The condition names that have a checker; any other name is skipped. */
  const KnownConditions: set<string> := {
    "has_required_materials", "machine_available", "authorized_cancellation",
    "operator_available", "setup_complete", "hold_reason_provided", "quality_approved",
    "quantity_complete", "hold_reason_resolved", "resources_available", "work_stoppage_approved"}

  /** `condition_checkers.get(condition)`. */
  function CheckerFor(name: string): (r: Option<Checker>)
    ensures r.Some? <==> name in KnownConditions
  {
    if name == "has_required_materials" then Some(HasRequiredMaterials)
    else if name == "machine_available" then Some(MachineAvailable)
    else if name == "authorized_cancellation" then Some(AuthorizedCancellation)
    else if name == "operator_available" then Some(OperatorAvailable)
    else if name == "setup_complete" then Some(SetupComplete)
    else if name == "hold_reason_provided" then Some(HoldReasonProvided)
    else if name == "quality_approved" then Some(QualityApproved)
    else if name == "quantity_complete" then Some(QuantityComplete)
    else if name == "hold_reason_resolved" then Some(HoldReasonResolved)
    else if name == "resources_available" then Some(ResourcesAvailable)
    else if name == "work_stoppage_approved" then Some(WorkStoppageApproved)
    else None
  }

  /** One checker applied to `ctx`, read by truthiness, each with its own default. */
  function RunChecker(k: Checker, ctx: map<string, Value>): Result<bool, Failure> {
    match k
    case HasRequiredMaterials => Success(Truthy(GetOr(ctx, "materials_available", VBool(true))))
    case MachineAvailable => Success(Get(ctx, "machine_status") != VStr("DOWN"))
    case AuthorizedCancellation => Success(Get(ctx, "user_role") in [VStr("supervisor"), VStr("manager")])
    case OperatorAvailable => Success(Truthy(GetOr(ctx, "operator_assigned", VBool(true))))
    case SetupComplete => Success(Get(ctx, "setup_status") == VStr("COMPLETE"))
    case HoldReasonProvided => Success(Truthy(Get(ctx, "hold_reason")))
    case QualityApproved => Success(Get(ctx, "quality_status") == VStr("APPROVED"))
    case QuantityComplete =>
      var processed := GetOr(ctx, "qty_processed", VInt(0));
      var desired := GetOr(ctx, "qty_desired", VInt(1));
      (match Compare(Ge, processed, desired)
       case Some(b) => Success(b)
       case None => Failure(TypeError(UnsupportedText(Ge, processed, desired))))
    case HoldReasonResolved => Success(Truthy(GetOr(ctx, "hold_resolved", VBool(false))))
    case ResourcesAvailable => Success(Truthy(GetOr(ctx, "resources_ready", VBool(true))))
    case WorkStoppageApproved => Success(Truthy(GetOr(ctx, "stoppage_approved", VBool(false))))
  }

  /** The truth of one condition in `ctx`; a name without a checker holds. */
  function CheckCondition(name: string, ctx: map<string, Value>): Result<bool, Failure> {
    match CheckerFor(name)
    case Some(k) => RunChecker(k, ctx)
    case None => Success(true)
  }

  /** Unknown condition names never block a transition. */
  lemma UnknownConditionSkipped(name: string, ctx: map<string, Value>)
    requires name !in KnownConditions
    ensures CheckCondition(name, ctx) == Success(true)
  {
  }

  /** Only `quantity_complete` can raise; with integer operands it is processed >= desired, defaults 0 and 1. */
  lemma QuantityCompleteMeaning(ctx: map<string, Value>, name: string)
    ensures name != "quantity_complete" ==> CheckCondition(name, ctx).Success?
    ensures "qty_processed" !in ctx && "qty_desired" !in ctx ==>
              CheckCondition("quantity_complete", ctx) == Success(false)
    ensures "qty_processed" in ctx && "qty_desired" in ctx
            && ctx["qty_processed"].VInt? && ctx["qty_desired"].VInt? ==>
              CheckCondition("quantity_complete", ctx)
              == Success(ctx["qty_processed"].i >= ctx["qty_desired"].i)
  {
  }

  /** `_check_conditions`: the conditions in order, stopping at the first false one or the first raise. */
  function ConditionsHold(conditions: seq<string>, ctx: map<string, Value>): Result<bool, Failure> {
    if conditions == [] then Success(true)
    else
      var first :- CheckCondition(conditions[0], ctx);
      if !first then Success(false) else ConditionsHold(conditions[1..], ctx)
  }

  /** The conditions hold exactly when every one of them checks true. */
  lemma {:induction false} ConditionsHoldIff(conditions: seq<string>, ctx: map<string, Value>)
    ensures ConditionsHold(conditions, ctx) == Success(true)
            <==> forall i | 0 <= i < |conditions| :: CheckCondition(conditions[i], ctx) == Success(true)
  {
    if conditions != [] {
      ConditionsHoldIff(conditions[1..], ctx);
      var rest := conditions[1..];
      assert forall i | 1 <= i < |conditions| :: conditions[i] == rest[i - 1];
    }
  }

  /** `_check_conditions` as the source writes it: a loop with early returns. */
  method CheckConditions(conditions: seq<string>, ctx: map<string, Value>) returns (r: Result<bool, Failure>)
    ensures r == ConditionsHold(conditions, ctx)
  {
    var i := 0;
    while i < |conditions|
      invariant 0 <= i <= |conditions|
      invariant ConditionsHold(conditions, ctx) == ConditionsHold(conditions[i..], ctx)
    {
      assert conditions[i..][1..] == conditions[i + 1..];
      var c := CheckCondition(conditions[i], ctx);
      if c.Failure? {
        return Failure(c.error);
      }
      if !c.value {
        return Success(false);
      }
      i := i + 1;
    }
    return Success(true);
  }

  /** `can_transition(from_state, to_state, context)`; a missing context is the empty map. */
  function CanTransition(from: string, to: string, ctx: map<string, Value>): Result<bool, Failure> {
    if Parse(from).None? || Parse(to).None? then Success(false)
    else
      var f := Parse(from).value;
      var t := Parse(to).value;
      if f == t then Success(true)
      else
        match FindEdge(Transitions(f), t)
        case Some(e) => ConditionsHold(e.conditions, ctx)
        case None => Success(false)
  }

  /** `get_valid_transitions(current_state)`: the edge targets in table order. */
  function ValidTransitions(current: string): seq<string> {
    match Parse(current)
    case Some(s) => TargetNames(Transitions(s))
    case None => []
  }

  /** `[t.to_state.value for t in edges]`. */
  function TargetNames(edges: seq<Edge>): (r: seq<string>)
    ensures |r| == |edges|
    ensures forall i | 0 <= i < |edges| :: r[i] == Name(edges[i].to)
  {
    if edges == [] then [] else [Name(edges[0].to)] + TargetNames(edges[1..])
  }

  /** `is_terminal_state(state)`. */
  predicate IsTerminalState(state: string) {
    Parse(state).Some? && Terminal(Parse(state).value)
  }

  /** Unknown status strings are never fatal: every lookup answers "no". */
  lemma UnknownStatusNeverFatal(from: string, to: string, ctx: map<string, Value>)
    requires Parse(from).None? || Parse(to).None?
    ensures CanTransition(from, to, ctx) == Success(false)
    ensures Parse(from).None? ==> ValidTransitions(from) == [] && !IsTerminalState(from)
  {
  }

  /** Staying in a valid status is always allowed, whatever the context. */
  lemma SelfTransitionAllowed(s: Status, ctx: map<string, Value>)
    ensures CanTransition(Name(s), Name(s), ctx) == Success(true)
  {
  }

  /** From a terminal status no other status can be reached. */
  lemma TerminalHasNoExit(s: Status, t: string, ctx: map<string, Value>)
    requires Terminal(s) && t != Name(s)
    ensures CanTransition(Name(s), t, ctx) == Success(false)
    ensures ValidTransitions(Name(s)) == []
  {
  }

  /** A state is terminal exactly when it is a valid status with no outgoing edge. */
  lemma TerminalIffNoEdges(state: string)
    ensures IsTerminalState(state) <==> Parse(state).Some? && Transitions(Parse(state).value) == []
  {
    if Parse(state).Some? {
      EdgeTableShape(Parse(state).value);
    }
  }

  /** The structural targets of `s`. */
  function Targets(s: Status): set<Status> {
    set e | e in Transitions(s) :: e.to
  }

  /**
   * Between two different statuses the transition is allowed exactly when an
   * edge leads there and each of its conditions checks true.
   */
  lemma CanTransitionIff(f: Status, t: Status, ctx: map<string, Value>)
    requires f != t
    ensures CanTransition(Name(f), Name(t), ctx) == Success(true)
            <==> t in Targets(f)
                 && forall c | c in FindEdge(Transitions(f), t).value.conditions
                      :: CheckCondition(c, ctx) == Success(true)
  {
    ParseName(f);
    ParseName(t);
    var found := FindEdge(Transitions(f), t);
    if found.Some? {
      var conds := found.value.conditions;
      ConditionsHoldIff(conds, ctx);
      assert (forall i | 0 <= i < |conds| :: CheckCondition(conds[i], ctx) == Success(true))
             <==> (forall c | c in conds :: CheckCondition(c, ctx) == Success(true));
    } else {
      assert t !in Targets(f);
    }
  }

  /** `get_valid_transitions` lists exactly the structural targets, ignoring any context. */
  lemma ValidTransitionsAreTargets(s: Status)
    ensures forall t: Status :: Name(t) in ValidTransitions(Name(s)) <==> t in Targets(s)
  {
    ParseName(s);
    var v := ValidTransitions(Name(s));
    forall t: Status ensures Name(t) in v <==> t in Targets(s) {
      if Name(t) in v {
        var i :| 0 <= i < |v| && v[i] == Name(t);
        ParseName(Transitions(s)[i].to);
        ParseName(t);
        assert Transitions(s)[i] in Transitions(s);
      }
      if t in Targets(s) {
        var e :| e in Transitions(s) && e.to == t;
        var i :| 0 <= i < |Transitions(s)| && Transitions(s)[i] == e;
        assert v[i] == Name(t);
      }
    }
  }

  /** Every name the table lists for a status is a status name. */
  lemma ValidTransitionsParse(s: Status)
    ensures forall x | x in ValidTransitions(Name(s)) :: Parse(x).Some?
  {
    ParseName(s);
    var v := ValidTransitions(Name(s));
    forall x | x in v
      ensures Parse(x).Some?
    {
      var i :| 0 <= i < |v| && v[i] == x;
      ParseName(Transitions(s)[i].to);
    }
  }

  /** The targets in table order, for each non-terminal status. */
  lemma ValidTransitionsTable()
    ensures ValidTransitions("PLANNED") == ["RELEASED", "CANCELLED"]
    ensures ValidTransitions("RELEASED") == ["IN_PROGRESS", "ON_HOLD", "CANCELLED"]
    ensures ValidTransitions("IN_PROGRESS") == ["FINISHED", "ON_HOLD", "CANCELLED"]
    ensures ValidTransitions("ON_HOLD") == ["IN_PROGRESS", "CANCELLED"]
  {
    ParseName(Planned);
    ParseName(Released);
    ParseName(InProgress);
    ParseName(OnHold);
  }

  /**
   * With an empty context nothing raises, and the only move out of a status
   * is PLANNED to RELEASED: its checkers default to permissive values, every
   * other edge has a checker that defaults to false.
   */
  lemma EmptyContextAllowsOnlyRelease(f: Status, t: Status)
    requires f != t
    ensures CanTransition(Name(f), Name(t), map[]) == Success(f == Planned && t == Released)
  {
    ParseName(f);
    ParseName(t);
    var found := FindEdge(Transitions(f), t);
    if found.Some? {
      EmptyContextEdge(f, found.value);
    }
  }

  /** Each edge's conditions under the empty context: only PLANNED to RELEASED passes. */
  lemma EmptyContextEdge(f: Status, e: Edge)
    requires e in Transitions(f)
    ensures ConditionsHold(e.conditions, map[]) == Success(e.from == Planned && e.to == Released)
  {
    match f
    case Planned => EmptyContextFromPlanned(e);
    case Released => EmptyContextFromReleased(e);
    case InProgress => EmptyContextFromInProgress(e);
    case OnHold => EmptyContextFromOnHold(e);
    case Finished =>
    case Cancelled =>
  }

  lemma EmptyContextFromPlanned(e: Edge)
    requires e in Transitions(Planned)
    ensures ConditionsHold(e.conditions, map[]) == Success(e.to == Released)
  {
    var ctx: map<string, Value> := map[];
    assert CheckCondition("has_required_materials", ctx) == Success(true);
    assert CheckCondition("machine_available", ctx) == Success(true);
    assert CheckCondition("authorized_cancellation", ctx) == Success(false);
  }

  lemma EmptyContextFromReleased(e: Edge)
    requires e in Transitions(Released)
    ensures ConditionsHold(e.conditions, map[]) == Success(false)
  {
    var ctx: map<string, Value> := map[];
    assert CheckCondition("operator_available", ctx) == Success(true);
    assert CheckCondition("setup_complete", ctx) == Success(false);
    assert CheckCondition("hold_reason_provided", ctx) == Success(false);
    assert CheckCondition("authorized_cancellation", ctx) == Success(false);
  }

  lemma EmptyContextFromInProgress(e: Edge)
    requires e in Transitions(InProgress)
    ensures ConditionsHold(e.conditions, map[]) == Success(false)
  {
    var ctx: map<string, Value> := map[];
    assert CheckCondition("quality_approved", ctx) == Success(false);
    assert CheckCondition("hold_reason_provided", ctx) == Success(false);
    assert CheckCondition("authorized_cancellation", ctx) == Success(false);
  }

  lemma EmptyContextFromOnHold(e: Edge)
    requires e in Transitions(OnHold)
    ensures ConditionsHold(e.conditions, map[]) == Success(false)
  {
    var ctx: map<string, Value> := map[];
    assert CheckCondition("hold_reason_resolved", ctx) == Success(false);
    assert CheckCondition("authorized_cancellation", ctx) == Success(false);
  }

  /** A context that satisfies every checker. */
  const ApprovingContext: map<string, Value> := map[
    "setup_status" := VStr("COMPLETE"),
    "user_role" := VStr("supervisor"),
    "hold_reason" := VStr("material shortage"),
    "quality_status" := VStr("APPROVED"),
    "qty_processed" := VInt(1),
    "hold_resolved" := VBool(true),
    "stoppage_approved" := VBool(true)]

  /** Every checker answers true in the approving context. */
  lemma ApprovingContextRuns(k: Checker)
    ensures RunChecker(k, ApprovingContext) == Success(true)
  {
    var ctx := ApprovingContext;
    match k
    case QuantityComplete =>
      assert GetOr(ctx, "qty_processed", VInt(0)) == VInt(1);
      assert GetOr(ctx, "qty_desired", VInt(1)) == VInt(1);
    case HasRequiredMaterials => assert "materials_available" !in ctx;
    case MachineAvailable => assert "machine_status" !in ctx;
    case OperatorAvailable => assert "operator_assigned" !in ctx;
    case ResourcesAvailable => assert "resources_ready" !in ctx;
    case _ =>
  }

  /** Every condition, known or not, holds in the approving context. */
  lemma ApprovingContextSatisfies(c: string)
    ensures CheckCondition(c, ApprovingContext) == Success(true)
  {
    if CheckerFor(c).Some? {
      ApprovingContextRuns(CheckerFor(c).value);
    }
  }

  /** Every structural edge is reachable under some context, and no context opens any other. */
  lemma SomeContextOpensEveryEdge(f: Status, t: Status, ctx: map<string, Value>)
    requires f != t
    ensures CanTransition(Name(f), Name(t), ApprovingContext) == Success(true) <==> t in Targets(f)
    ensures CanTransition(Name(f), Name(t), ctx) == Success(true) ==> t in Targets(f)
  {
    CanTransitionIff(f, t, ctx);
    CanTransitionIff(f, t, ApprovingContext);
    if t in Targets(f) {
      var conds := FindEdge(Transitions(f), t).value.conditions;
      forall c | c in conds ensures CheckCondition(c, ApprovingContext) == Success(true) {
        ApprovingContextSatisfies(c);
      }
    }
  }

  /** The effect names that have a handler; an unknown name only logs a warning. */
  const KnownEffects: set<string> := {
    "notify_operator", "reserve_capacity", "release_reservations", "update_schedule",
    "start_time_tracking", "update_machine_status", "pause_schedule", "notify_planning",
    "calculate_actuals", "update_inventory", "release_capacity", "pause_time_tracking",
    "handle_wip", "calculate_partial_actuals", "resume_time_tracking"}

  /** Every effect named in the table has a handler. */
  lemma EveryEffectHasHandler(s: Status)
    ensures forall e, x | e in Transitions(s) && x in e.effects :: x in KnownEffects
  {
  }

  /** The effects that ran, in order: those whose handler did not raise. */
  function Executed(effects: seq<string>, failing: set<string>): (r: seq<string>)
    ensures |r| <= |effects|
  {
    if effects == [] then []
    else (if effects[0] in failing then [] else [effects[0]]) + Executed(effects[1..], failing)
  }

  lemma {:induction false} ExecutedMembers(effects: seq<string>, failing: set<string>, x: string)
    ensures x in Executed(effects, failing) <==> x in effects && x !in failing
  {
    if effects != [] {
      ExecutedMembers(effects[1..], failing, x);
      assert effects == [effects[0]] + effects[1..];
    }
  }

  /** When no handler raises, every effect runs, in table order. */
  lemma {:induction false} ExecutedAllWhenNoneFail(effects: seq<string>, failing: set<string>)
    requires forall x | x in effects :: x !in failing
    ensures Executed(effects, failing) == effects
  {
    if effects != [] {
      ExecutedAllWhenNoneFail(effects[1..], failing);
      assert effects == [effects[0]] + effects[1..];
    }
  }

  /**
   * `_execute_effects`: run each effect, collecting the names whose handler
   * did not raise. `failing` names the effects whose handler raises; a
   * failure is logged and skipped, never propagated.
   */
  method ExecuteEffects(effects: seq<string>, failing: set<string>) returns (executed: seq<string>)
    ensures executed == Executed(effects, failing)
  {
    executed := [];
    var i := 0;
    while i < |effects|
      invariant 0 <= i <= |effects|
      invariant executed + Executed(effects[i..], failing) == Executed(effects, failing)
    {
      assert effects[i..][1..] == effects[i + 1..];
      if effects[i] !in failing {
        executed := executed + [effects[i]];
      }
      i := i + 1;
    }
    assert effects[i..] == [];
  }

  /** The dictionary `transition` returns; `timestamp` is the caller's clock in microseconds. */
  datatype TransitionRecord = TransitionRecord(
    fromState: string,
    toState: string,
    timestamp: int,
    userId: Option<string>,
    effectsExecuted: seq<string>,
    requiresConfirmation: bool)

  /** The edge `transition` looks up (absent for a self-move or unknown names). */
  function EdgeFor(from: string, to: string): Option<Edge> {
    var f :- Parse(from);
    var t :- Parse(to);
    FindEdge(Transitions(f), t)
  }

  /** The search loop `transition` runs over `_transitions[from]`. */
  method FindTransition(edges: seq<Edge>, to: Status) returns (r: Option<Edge>)
    ensures r == FindEdge(edges, to)
  {
    var i := 0;
    while i < |edges|
      invariant 0 <= i <= |edges|
      invariant FindEdge(edges, to) == FindEdge(edges[i..], to)
    {
      assert edges[i..][1..] == edges[i + 1..];
      if edges[i].to == to {
        return Some(edges[i]);
      }
      i := i + 1;
    }
    return None;
  }

  /**
   * `transition(from_state, to_state, context, user_id)`. It raises exactly
   * when `can_transition` does not answer true, and also for a self-move,
   * which `can_transition` allows but for which no edge exists.
   */
  method Transition(from: string, to: string, ctx: map<string, Value>, userId: Option<string>,
                    now: int, failing: set<string>)
    returns (r: Result<TransitionRecord, Failure>)
    ensures r.Success? <==> CanTransition(from, to, ctx) == Success(true) && from != to
    ensures CanTransition(from, to, ctx).Failure? ==> r == Failure(CanTransition(from, to, ctx).error)
    ensures CanTransition(from, to, ctx) == Success(false) ==>
              r == Failure(ValueError("Invalid transition: " + from + " -> " + to))
    ensures CanTransition(from, to, ctx) == Success(true) && from == to ==>
              r == Failure(ValueError("Transition not found: " + from + " -> " + to))
    ensures r.Success? ==>
              EdgeFor(from, to).Some?
              && r.value == TransitionRecord(from, to, now, userId,
                                             Executed(EdgeFor(from, to).value.effects, failing),
                                             EdgeFor(from, to).value.requiresConfirmation)
    ensures r.Success? ==> (r.value.requiresConfirmation <==> to == "CANCELLED")
  {
    var allowed := CanTransition(from, to, ctx);
    if allowed.Failure? {
      return Failure(allowed.error);
    }
    if !allowed.value {
      return Failure(ValueError("Invalid transition: " + from + " -> " + to));
    }
    var f := Parse(from).value;
    var t := Parse(to).value;
    var edge := FindTransition(Transitions(f), t);
    if edge.None? {
      return Failure(ValueError("Transition not found: " + from + " -> " + to));
    }
    EdgeTableShape(f);
    CancelledName(t);
    var executed := ExecuteEffects(edge.value.effects, failing);
    r := Success(TransitionRecord(from, to, now, userId, executed, edge.value.requiresConfirmation));
  }
}
