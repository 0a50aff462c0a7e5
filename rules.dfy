/**
 * `ManufacturingRules`: five validators over an untyped operation payload,
 * the registry loop that runs them all, and the metrics and recommendations
 * computed from a stored operation.
 *
 * A validator works on `Dict[str, Any]`, so a value of an unexpected type can
 * make it raise (an unsupported comparison, `.strip()` on a number, `Decimal`
 * of the text "True"). A validator is therefore a function returning
 * `Option<seq<string>>`: the errors it appends, or `None` when it raises part
 * way, in which case the registry records one generic message for it.
 */
module Rules {
  import opened Wrappers
  import opened PyText
  import opened PyValues
  import opened Operations

  type Payload = map<string, Value>

  /** `MIN_PROCESSING_TIME_MINUTES = Decimal('0.1')`. */
  const MinProcessingMinutes: Decimal := Decimal(1, -1)

  /** `timedelta(days=30)` in microseconds. */
  const ThirtyDays: int := 30 * 86400 * 1000000

  /** `if v is not None and v <op> 0: errors.append(message)`, raising on a non-number. */
  function SignCheck(v: Value, op: CmpOp, message: string): (r: Option<seq<string>>)
    ensures r.Some? <==> v.VNone? || IsNumber(v)
    ensures r.Some? && IsNumber(v) ==> (r.value == [message] <==> CompareReal(op, Num(v), 0.0))
    ensures r.Some? ==> r.value == [] || r.value == [message]
  {
    if v.VNone? then Some([])
    else
      var below :- Compare(op, v, VInt(0));
      Some(if below then [message] else [])
  }

  /** `validate_quantity_relationships`. */
  function QuantityRelationships(data: Payload): Option<seq<string>> {
    var desired := Get(data, "qty_desired");
    var processed := Get(data, "qty_processed");
    var scrap := Get(data, "qty_scrap");
    var e1 :- SignCheck(desired, Le, "Desired quantity must be positive");
    var e2 :- SignCheck(processed, Lt, "Processed quantity cannot be negative");
    var e3 :- SignCheck(scrap, Lt, "Scrap quantity cannot be negative");
    // From here on every supplied quantity is a number.
    var e4 :=
      if Truthy(desired) && Truthy(processed) && Num(processed) > Num(desired) then
        ["Processed quantity (" + Str(processed) + ") cannot exceed desired quantity (" + Str(desired) + ")"]
      else [];
    var e5 :=
      if Truthy(processed) && Truthy(scrap) && Num(scrap) > Num(processed) then
        ["Scrap quantity (" + Str(scrap) + ") cannot exceed processed quantity (" + Str(processed) + ")"]
      else [];
    // The scrap-rate warning only logs, but `Decimal(str(True))` raises.
    if Truthy(processed) && Truthy(scrap) && Num(processed) > 0.0 && (processed.VBool? || scrap.VBool?) then None
    else Some(e1 + e2 + e3 + e4 + e5)
  }

  /** One entry of the `time_fields` loop. */
  function DurationError(field: string, v: Value): (r: Option<seq<string>>)
    ensures r.Some? <==> v.VNone? || IsNumber(v)
  {
    if v.VNone? then Some([])
    else
      var negative :- Compare(Lt, v, VInt(0));
      if negative then Some([field + " cannot be negative"])
      else if Num(v) < DecimalValue(MinProcessingMinutes) && Num(v) > 0.0 then
        Some([field + " is too small to be meaningful"])
      else Some([])
  }

  /** The `time_fields` loop: each field's errors in order; the first raise ends it. */
  function DurationErrors(fields: seq<(string, Value)>): (r: Option<seq<string>>)
    ensures r.Some? <==> forall i | 0 <= i < |fields| :: fields[i].1.VNone? || IsNumber(fields[i].1)
  {
    if fields == [] then Some([])
    else
      var first :- DurationError(fields[0].0, fields[0].1);
      var rest :- DurationErrors(fields[1..]);
      Some(first + rest)
  }

  /** A loop over fields that are all None reports nothing. */
  lemma {:induction false} DurationErrorsAllNone(fields: seq<(string, Value)>)
    requires forall i | 0 <= i < |fields| :: fields[i].1.VNone?
    ensures DurationErrors(fields) == Some([])
  {
    if fields != [] {
      assert forall i | 0 <= i < |fields| - 1 :: fields[1..][i] == fields[i + 1];
      DurationErrorsAllNone(fields[1..]);
      DurationErrorsStep(fields);
      assert DurationError(fields[0].0, fields[0].1) == Some([]);
      assert ThenRest([], Some([])) == Some([] + []);
      var none: seq<string> := [];
      assert none + none == none;
    }
  }

  /** One step of the loop: the first field's errors, then the rest's, unless either raises. */
  lemma DurationErrorsStep(fields: seq<(string, Value)>)
    requires fields != []
    ensures var first := DurationError(fields[0].0, fields[0].1);
      DurationErrors(fields) == if first.None? then None else ThenRest(first.value, DurationErrors(fields[1..]))
  {
  }

  /** `errors` followed by what the rest of the loop reports, unless the rest raises. */
  function ThenRest(errors: seq<string>, rest: Option<seq<string>>): Option<seq<string>> {
    if rest.None? then None else Some(errors + rest.value)
  }

  /** The six minute fields, in the order the rule checks them. */
  const DurationFields: seq<string> := [
    "t_target_processing_min", "t_target_setup_min", "t_target_lead_min",
    "t_actual_processing_min", "t_actual_setup_min", "t_actual_lead_min"]

  function DurationEntries(data: Payload): (r: seq<(string, Value)>)
    ensures |r| == 6
    ensures forall i | 0 <= i < 6 :: r[i] == (DurationFields[i], Get(data, DurationFields[i]))
  {
    seq(6, i requires 0 <= i < 6 => (DurationFields[i], Get(data, DurationFields[i])))
  }

  /**
   * The planned-window checks. Both ends truthy but not both datetimes always
   * raises: either the comparison or the subtraction, or comparing the
   * difference with a timedelta, fails.
   */
  function PlannedWindowErrors(start: Value, end: Value): Option<seq<string>> {
    if Truthy(start) && Truthy(end) then
      if start.VTime? && end.VTime? then
        Some((if start.micros >= end.micros then ["Planned start time must be before planned end time"] else [])
             + (if end.micros - start.micros > ThirtyDays then ["Planned duration exceeds 30 days - please verify"] else []))
      else None
    else Some([])
  }

  function ActualWindowErrors(start: Value, end: Value): Option<seq<string>> {
    if Truthy(start) && Truthy(end) then
      var late :- Compare(Ge, start, end);
      Some(if late then ["Actual start time must be before actual end time"] else [])
    else Some([])
  }

  /** The lead-time check, on values the duration loop has already found numeric or None. */
  function LeadTimeErrors(processing: Value, setup: Value, lead: Value): seq<string>
    requires processing.VNone? || IsNumber(processing)
    requires setup.VNone? || IsNumber(setup)
    requires lead.VNone? || IsNumber(lead)
  {
    if Truthy(processing) && Truthy(setup) && Truthy(lead) && Num(lead) < Num(processing) + Num(setup) then
      ["Target lead time should be at least the sum of processing and setup times"]
    else []
  }

  /**
   * `validate_time_relationships`. The efficiency block at the end only
   * logs, and once the loop has accepted every minute field it cannot raise.
   */
  function TimeRelationships(data: Payload): Option<seq<string>> {
    var planned :- PlannedWindowErrors(Get(data, "planned_start_at"), Get(data, "planned_end_at"));
    var actual :- ActualWindowErrors(Get(data, "actual_start_at"), Get(data, "actual_end_at"));
    var entries := DurationEntries(data);
    var durations :- DurationErrors(entries);
    assert forall i | 0 <= i < 6 :: entries[i].1.VNone? || IsNumber(entries[i].1);
    Some(planned + actual + durations
         + LeadTimeErrors(entries[0].1, entries[1].1, entries[2].1))
  }

  /** The `time_fields` loop as the source writes it. */
  method CheckDurations(fields: seq<(string, Value)>) returns (r: Option<seq<string>>)
    ensures r == DurationErrors(fields)
  {
    var errors: seq<string> := [];
    var i := 0;
    assert fields[0..] == fields;
    var all := DurationErrors(fields);
    if all.Some? {
      assert [] + all.value == all.value;
    }
    while i < |fields|
      invariant 0 <= i <= |fields|
      invariant DurationErrors(fields) == ThenRest(errors, DurationErrors(fields[i..]))
    {
      assert fields[i..][1..] == fields[i + 1..];
      DurationErrorsStep(fields[i..]);
      var e := DurationError(fields[i].0, fields[i].1);
      if e.None? {
        return None;
      }
      var rest := DurationErrors(fields[i + 1..]);
      if rest.Some? {
        assert errors + (e.value + rest.value) == errors + e.value + rest.value;
      }
      errors := errors + e.value;
      i := i + 1;
    }
    assert fields[i..] == [];
    assert errors + [] == errors;
    return Some(errors);
  }

  /** `validate_time_relationships` step by step, appending as it goes. */
  method ValidateTimeRelationships(data: Payload) returns (r: Option<seq<string>>)
    ensures r == TimeRelationships(data)
  {
    var planned := PlannedWindowErrors(Get(data, "planned_start_at"), Get(data, "planned_end_at"));
    if planned.None? {
      return None;
    }
    var actual := ActualWindowErrors(Get(data, "actual_start_at"), Get(data, "actual_end_at"));
    if actual.None? {
      return None;
    }
    var entries := DurationEntries(data);
    var durations := CheckDurations(entries);
    if durations.None? {
      return None;
    }
    var errors := planned.value + actual.value + durations.value;
    errors := errors + LeadTimeErrors(entries[0].1, entries[1].1, entries[2].1);
    return Some(errors);
  }

  /** `validate_status_constraints`; it never raises. */
  function StatusConstraints(data: Payload): seq<string> {
    var status := Get(data, "status");
    var start := Get(data, "actual_start_at");
    var end := Get(data, "actual_end_at");
    var processed := Get(data, "qty_processed");
    if status == VStr("IN_PROGRESS") then
      if !Truthy(start) then ["Operations in progress must have an actual start time"] else []
    else if status == VStr("FINISHED") then
      (if !Truthy(start) then ["Finished operations must have an actual start time"] else [])
      + (if !Truthy(end) then ["Finished operations must have an actual end time"] else [])
      + (if !Truthy(processed) then ["Finished operations must have processed quantity > 0"] else [])
    else []
  }

  /** `if v and len(v.strip()) == 0`: a truthy non-string has no `strip` and raises. */
  function BlankCheck(v: Value, message: string): (r: Option<seq<string>>)
    ensures r.None? <==> Truthy(v) && !v.VStr?
  {
    if !Truthy(v) then Some([])
    else if v.VStr? then Some(if |Strip(v.s)| == 0 then [message] else [])
    else None
  }

  /** `validate_workplace_constraints`. */
  function WorkplaceConstraints(data: Payload): Option<seq<string>> {
    var asset := Get(data, "asset_id");
    var e1 :- if Truthy(asset) then SignCheck(asset, Le, "Asset ID must be positive") else Some([]);
    var e2 :- BlankCheck(Get(data, "workplace_name"), "Workplace name cannot be empty");
    Some(e1 + e2)
  }

  /**
   * `validate_operation_sequence`. The numeric-format check inside its
   * `try` only logs, so a non-numeric operation number adds nothing.
   */
  function OperationSequence(data: Payload): Option<seq<string>> {
    var e1 :- BlankCheck(Get(data, "order_no"), "Order number cannot be empty");
    var e2 :- BlankCheck(Get(data, "operation_no"), "Operation number cannot be empty");
    Some(e1 + e2)
  }

  /** The registry's entries. */
  datatype Rule =
    | QuantityRule
    | TimeRule
    | StatusRule
    | WorkplaceRule
    | SequenceRule
  {
    function Name(): string {
      match this
      case QuantityRule => "quantity_relationships"
      case TimeRule => "time_relationships"
      case StatusRule => "status_constraints"
      case WorkplaceRule => "workplace_constraints"
      case SequenceRule => "operation_sequence"
    }
  }

  /** `_initialize_validation_rules()`, in dictionary order. */
  const Registry: seq<Rule> := [QuantityRule, TimeRule, StatusRule, WorkplaceRule, SequenceRule]

  function RunRule(rule: Rule, data: Payload): Option<seq<string>> {
    match rule
    case QuantityRule => QuantityRelationships(data)
    case TimeRule => TimeRelationships(data)
    case StatusRule => Some(StatusConstraints(data))
    case WorkplaceRule => WorkplaceConstraints(data)
    case SequenceRule => OperationSequence(data)
  }

  /** What one registry entry contributes: its errors, or one message if it raised. */
  function Contribution(rule: Rule, data: Payload): seq<string> {
    match RunRule(rule, data)
    case Some(errors) => errors
    case None => ["Validation error in rule " + rule.Name()]
  }

  /** The registry loop's result over `rules`. */
  function ValidateAll(rules: seq<Rule>, data: Payload): seq<string> {
    if rules == [] then [] else Contribution(rules[0], data) + ValidateAll(rules[1..], data)
  }

  /** Each rule contributes independently: a raising rule does not stop the ones after it. */
  lemma {:induction false} ValidateAllAppend(a: seq<Rule>, b: seq<Rule>, data: Payload)
    ensures ValidateAll(a + b, data) == ValidateAll(a, data) + ValidateAll(b, data)
  {
    if a != [] {
      assert (a + b)[1..] == a[1..] + b;
      ValidateAllAppend(a[1..], b, data);
    } else {
      assert a + b == b;
    }
  }

  /** One more rule of the list adds its own contribution at the end. */
  lemma ValidateAllSnoc(rules: seq<Rule>, i: nat, data: Payload)
    requires i < |rules|
    ensures ValidateAll(rules[..i + 1], data) == ValidateAll(rules[..i], data) + Contribution(rules[i], data)
  {
    assert rules[..i + 1] == rules[..i] + [rules[i]];
    ValidateAllAppend(rules[..i], [rules[i]], data);
    assert ValidateAll([rules[i]], data) == Contribution(rules[i], data) + ValidateAll([], data);
  }

  /** A rule that raises leaves exactly its generic message, whatever the others do. */
  lemma CrashingRuleReported(i: nat, data: Payload)
    requires i < |Registry| && RunRule(Registry[i], data).None?
    ensures "Validation error in rule " + Registry[i].Name() in ValidateAll(Registry, data)
  {
    CrashingRuleReportedIn(Registry, i, data);
  }

  /** The same over any list of rules: its contribution sits between those before and after it. */
  lemma CrashingRuleReportedIn(rules: seq<Rule>, i: nat, data: Payload)
    requires i < |rules| && RunRule(rules[i], data).None?
    ensures "Validation error in rule " + rules[i].Name() in ValidateAll(rules, data)
  {
    assert rules == rules[..i + 1] + rules[i + 1..];
    ValidateAllAppend(rules[..i + 1], rules[i + 1..], data);
    ValidateAllSnoc(rules, i, data);
    assert Contribution(rules[i], data) == ["Validation error in rule " + rules[i].Name()];
  }

  /** Call one registry entry; the time rule runs its loop. */
  method ApplyRule(rule: Rule, data: Payload) returns (outcome: Option<seq<string>>)
    ensures outcome == RunRule(rule, data)
  {
    if rule == TimeRule {
      outcome := ValidateTimeRelationships(data);
    } else {
      outcome := RunRule(rule, data);
    }
  }

  /** `validate_operation_data`: run every registry entry, extending the error list. */
  method ValidateOperationData(data: Payload) returns (errors: seq<string>)
    ensures errors == ValidateAll(Registry, data)
  {
    errors := [];
    var i := 0;
    while i < |Registry|
      invariant 0 <= i <= |Registry|
      invariant errors == ValidateAll(Registry[..i], data)
    {
      var rule := Registry[i];
      ValidateAllSnoc(Registry, i, data);
      var outcome := ApplyRule(rule, data);
      if outcome.Some? {
        errors := errors + outcome.value;
      } else {
        errors := errors + ["Validation error in rule " + rule.Name()];
      }
      i := i + 1;
    }
    assert Registry[..i] == Registry;
  }

  /** A column value as the payload carries it: None where null. */
  function IntValue(q: Option<int>): Value {
    if q.Some? then VInt(q.value) else VNone
  }

  function TimeValue(t: Option<int>): Value {
    if t.Some? then VTime(t.value) else VNone
  }

  function TextValue(s: Option<string>): Value {
    if s.Some? then VStr(s.value) else VNone
  }

  function MinutesValue(t: Option<Decimal>): Value {
    if t.Some? then VDec(t.value) else VNone
  }

  /** A payload whose every key holds a value of its column's type (or None). */
  predicate WellTyped(data: Payload) {
    && IntOrNone(Get(data, "qty_desired")) && IntOrNone(Get(data, "qty_processed"))
    && IntOrNone(Get(data, "qty_scrap")) && IntOrNone(Get(data, "asset_id"))
    && TimeOrNone(Get(data, "planned_start_at")) && TimeOrNone(Get(data, "planned_end_at"))
    && TimeOrNone(Get(data, "actual_start_at")) && TimeOrNone(Get(data, "actual_end_at"))
    && (forall i | 0 <= i < 6 :: NumberOrNone(Get(data, DurationFields[i])))
    && TextOrNone(Get(data, "workplace_name"))
    && TextOrNone(Get(data, "order_no")) && TextOrNone(Get(data, "operation_no"))
  }

  predicate IntOrNone(v: Value) { v.VNone? || v.VInt? }
  predicate TimeOrNone(v: Value) { v.VNone? || v.VTime? }
  predicate NumberOrNone(v: Value) { v.VNone? || v.VDec? || v.VInt? }
  predicate TextOrNone(v: Value) { v.VNone? || v.VStr? }

  /** On a well-typed payload no rule raises, so the generic message never appears. */
  lemma WellTypedNeverRaises(data: Payload, rule: Rule)
    requires WellTyped(data)
    ensures RunRule(rule, data).Some?
  {
    match rule
    case QuantityRule =>
    case TimeRule => WellTypedTimeRule(data);
    case StatusRule =>
    case WorkplaceRule =>
    case SequenceRule =>
  }

  /** The quantity rule's messages for integer (or missing) operands: its five checks in order. */
  function QuantityErrors(desired: Option<int>, processed: Option<int>, scrap: Option<int>): seq<string> {
    SignCheck(IntValue(desired), Le, "Desired quantity must be positive").value
    + SignCheck(IntValue(processed), Lt, "Processed quantity cannot be negative").value
    + SignCheck(IntValue(scrap), Lt, "Scrap quantity cannot be negative").value
    + (if Present(desired) && Present(processed) && processed.value > desired.value
       then [ExceedText(processed.GetOr(0), desired.GetOr(0))] else [])
    + (if Present(processed) && Present(scrap) && scrap.value > processed.value
       then [ScrapExceedText(scrap.GetOr(0), processed.GetOr(0))] else [])
  }

  /** On a well-typed payload the time rule's comparisons, subtractions and loop never raise. */
  lemma WellTypedTimeRule(data: Payload)
    requires WellTyped(data)
    ensures TimeRelationships(data).Some?
  {
    var entries := DurationEntries(data);
    assert forall i | 0 <= i < 6 :: entries[i].1.VNone? || IsNumber(entries[i].1);
  }

  /** The quantity rule on integers never raises, and is exactly its five checks in order. */
  lemma QuantityRuleSteps(data: Payload, desired: Option<int>, processed: Option<int>, scrap: Option<int>)
    requires Get(data, "qty_desired") == IntValue(desired)
    requires Get(data, "qty_processed") == IntValue(processed)
    requires Get(data, "qty_scrap") == IntValue(scrap)
    ensures QuantityRelationships(data) == Some(QuantityErrors(desired, processed, scrap))
  {
  }

  function ExceedText(processed: int, desired: int): string {
    "Processed quantity (" + IntToString(processed) + ") cannot exceed desired quantity (" + IntToString(desired) + ")"
  }

  function ScrapExceedText(scrap: int, processed: int): string {
    "Scrap quantity (" + IntToString(scrap) + ") cannot exceed processed quantity (" + IntToString(processed) + ")"
  }

  /** The five quantity messages are pairwise distinct. */
  lemma QuantityMessagesDistinct(processed: int, desired: int, scrap: int)
    ensures var exceed := ExceedText(processed, desired);
      var scrapExceed := ScrapExceedText(scrap, processed);
      && exceed != "Desired quantity must be positive" && exceed != "Processed quantity cannot be negative"
      && exceed != "Scrap quantity cannot be negative" && exceed != scrapExceed
      && scrapExceed != "Desired quantity must be positive" && scrapExceed != "Processed quantity cannot be negative"
      && scrapExceed != "Scrap quantity cannot be negative"
  {
    var exceed := ExceedText(processed, desired);
    var scrapExceed := ScrapExceedText(scrap, processed);
    assert exceed[15] == 'i' && exceed[19] == '(' && scrapExceed[15] == '(';
    assert "Desired quantity must be positive"[19] == 's' && "Desired quantity must be positive"[15] == 'y';
    assert "Processed quantity cannot be negative"[19] == 'c' && "Processed quantity cannot be negative"[15] == 'i';
    assert "Scrap quantity cannot be negative"[19] == 'o' && "Scrap quantity cannot be negative"[15] == 'c';
  }

  /**
   * The quantity rule on integers: the sign errors, and the two ordering
   * errors reported only when both operands are non-zero.
   */
  lemma QuantityRuleMeaning(data: Payload, desired: Option<int>, processed: Option<int>, scrap: Option<int>)
    requires Get(data, "qty_desired") == IntValue(desired)
    requires Get(data, "qty_processed") == IntValue(processed)
    requires Get(data, "qty_scrap") == IntValue(scrap)
    ensures QuantityRelationships(data).Some?
    ensures var errors := QuantityRelationships(data).value;
      && ("Desired quantity must be positive" in errors <==> desired.Some? && desired.value <= 0)
      && ("Processed quantity cannot be negative" in errors <==> processed.Some? && processed.value < 0)
      && ("Scrap quantity cannot be negative" in errors <==> scrap.Some? && scrap.value < 0)
      && (ExceedText(processed.GetOr(0), desired.GetOr(0)) in errors
          <==> Present(desired) && Present(processed) && processed.value > desired.value)
      && (ScrapExceedText(scrap.GetOr(0), processed.GetOr(0)) in errors
          <==> Present(processed) && Present(scrap) && scrap.value > processed.value)
  {
    QuantityRuleSteps(data, desired, processed, scrap);
    QuantityErrorsMeaning(desired, processed, scrap);
  }

  /** Which of the five messages `QuantityErrors` holds, each iff its own check fails. */
  lemma QuantityErrorsMeaning(desired: Option<int>, processed: Option<int>, scrap: Option<int>)
    ensures var errors := QuantityErrors(desired, processed, scrap);
      && ("Desired quantity must be positive" in errors <==> desired.Some? && desired.value <= 0)
      && ("Processed quantity cannot be negative" in errors <==> processed.Some? && processed.value < 0)
      && ("Scrap quantity cannot be negative" in errors <==> scrap.Some? && scrap.value < 0)
      && (ExceedText(processed.GetOr(0), desired.GetOr(0)) in errors
          <==> Present(desired) && Present(processed) && processed.value > desired.value)
      && (ScrapExceedText(scrap.GetOr(0), processed.GetOr(0)) in errors
          <==> Present(processed) && Present(scrap) && scrap.value > processed.value)
  {
    var exceed := ExceedText(processed.GetOr(0), desired.GetOr(0));
    var scrapExceed := ScrapExceedText(scrap.GetOr(0), processed.GetOr(0));
    SignCheckOfInt(desired, Le, "Desired quantity must be positive");
    SignCheckOfInt(processed, Lt, "Processed quantity cannot be negative");
    SignCheckOfInt(scrap, Lt, "Scrap quantity cannot be negative");
    var e1 := SignCheck(IntValue(desired), Le, "Desired quantity must be positive").value;
    var e2 := SignCheck(IntValue(processed), Lt, "Processed quantity cannot be negative").value;
    var e3 := SignCheck(IntValue(scrap), Lt, "Scrap quantity cannot be negative").value;
    var e4: seq<string> := if Present(desired) && Present(processed) && processed.value > desired.value then [exceed] else [];
    var e5: seq<string> := if Present(processed) && Present(scrap) && scrap.value > processed.value then [scrapExceed] else [];
    QuantityMessagesDistinct(processed.GetOr(0), desired.GetOr(0), scrap.GetOr(0));
    FivePartsMembership(e1, e2, e3, e4, e5, "Desired quantity must be positive",
      "Processed quantity cannot be negative", "Scrap quantity cannot be negative", exceed, scrapExceed);
  }

  /** A sign check on an optional integer reports its message iff the integer is set and below (or at) zero. */
  lemma SignCheckOfInt(q: Option<int>, op: CmpOp, message: string)
    requires op == Lt || op == Le
    ensures SignCheck(IntValue(q), op, message).Some?
    ensures var errors := SignCheck(IntValue(q), op, message).value;
      (errors == [] || errors == [message])
      && (errors != [] <==> q.Some? && (if op == Lt then q.value < 0 else q.value <= 0))
  {
  }

  /** Five parts, each empty or its own message, the messages distinct: a message is reported iff its part is. */
  lemma FivePartsMembership(e1: seq<string>, e2: seq<string>, e3: seq<string>, e4: seq<string>, e5: seq<string>,
                            m1: string, m2: string, m3: string, m4: string, m5: string)
    requires e1 == [] || e1 == [m1]
    requires e2 == [] || e2 == [m2]
    requires e3 == [] || e3 == [m3]
    requires e4 == [] || e4 == [m4]
    requires e5 == [] || e5 == [m5]
    requires m1 != m2 && m1 != m3 && m1 != m4 && m1 != m5 && m2 != m3
    requires m2 != m4 && m2 != m5 && m3 != m4 && m3 != m5 && m4 != m5
    ensures var errors := e1 + e2 + e3 + e4 + e5;
      && (m1 in errors <==> e1 != []) && (m2 in errors <==> e2 != []) && (m3 in errors <==> e3 != [])
      && (m4 in errors <==> e4 != []) && (m5 in errors <==> e5 != [])
  {
    var errors := e1 + e2 + e3 + e4 + e5;
    assert forall x :: x in errors <==> x in e1 || x in e2 || x in e3 || x in e4 || x in e5;
  }

  /** On datetimes (or None) the planned-window checks are its two comparisons in order. */
  lemma PlannedWindowSteps(ps: Option<int>, pe: Option<int>)
    ensures PlannedWindowErrors(TimeValue(ps), TimeValue(pe))
            == Some((if ps.Some? && pe.Some? && ps.value >= pe.value
                     then ["Planned start time must be before planned end time"] else [])
                    + (if ps.Some? && pe.Some? && pe.value - ps.value > ThirtyDays
                       then ["Planned duration exceeds 30 days - please verify"] else []))
  {
    var none: seq<string> := [];
    assert none + none == none;
  }

  /** The planned-window checks on datetimes. */
  lemma PlannedWindowMeaning(ps: Option<int>, pe: Option<int>)
    ensures PlannedWindowErrors(TimeValue(ps), TimeValue(pe)).Some?
    ensures var errors := PlannedWindowErrors(TimeValue(ps), TimeValue(pe)).value;
      && ("Planned start time must be before planned end time" in errors
          <==> ps.Some? && pe.Some? && ps.value >= pe.value)
      && ("Planned duration exceeds 30 days - please verify" in errors
          <==> ps.Some? && pe.Some? && pe.value - ps.value > ThirtyDays)
  {
    var m1 := "Planned start time must be before planned end time";
    var m2 := "Planned duration exceeds 30 days - please verify";
    PlannedWindowSteps(ps, pe);
    var e1: seq<string> := if ps.Some? && pe.Some? && ps.value >= pe.value then [m1] else [];
    var e2: seq<string> := if ps.Some? && pe.Some? && pe.value - ps.value > ThirtyDays then [m2] else [];
    WindowMessagesDistinct();
    ThreePartsMembership(e1, e2, [], m1, m2, "");
  }

  /** The window checks on datetimes; each applies only when both of its ends are set. */
  lemma TimeRuleWindows(data: Payload, ps: Option<int>, pe: Option<int>, as_: Option<int>, ae: Option<int>)
    requires Get(data, "planned_start_at") == TimeValue(ps) && Get(data, "planned_end_at") == TimeValue(pe)
    requires Get(data, "actual_start_at") == TimeValue(as_) && Get(data, "actual_end_at") == TimeValue(ae)
    requires forall i | 0 <= i < 6 :: Get(data, DurationFields[i]).VNone?
    ensures TimeRelationships(data).Some?
    ensures var errors := TimeRelationships(data).value;
      && ("Planned start time must be before planned end time" in errors
          <==> ps.Some? && pe.Some? && ps.value >= pe.value)
      && ("Planned duration exceeds 30 days - please verify" in errors
          <==> ps.Some? && pe.Some? && pe.value - ps.value > ThirtyDays)
      && ("Actual start time must be before actual end time" in errors
          <==> as_.Some? && ae.Some? && as_.value >= ae.value)
  {
    var m1 := "Planned start time must be before planned end time";
    var m2 := "Planned duration exceeds 30 days - please verify";
    var m3 := "Actual start time must be before actual end time";
    TimeRuleSteps(data, ps, pe, as_, ae);
    PlannedWindowSteps(ps, pe);
    var e1: seq<string> := if ps.Some? && pe.Some? && ps.value >= pe.value then [m1] else [];
    var e2: seq<string> := if ps.Some? && pe.Some? && pe.value - ps.value > ThirtyDays then [m2] else [];
    var actual := ActualWindowErrors(TimeValue(as_), TimeValue(ae)).value;
    assert actual == (if as_.Some? && ae.Some? && as_.value >= ae.value then [m3] else []);
    WindowMessagesDistinct();
    ThreePartsMembership(e1, e2, actual, m1, m2, m3);
  }

  /** With no minute field set, the time rule is its two window checks. */
  lemma TimeRuleSteps(data: Payload, ps: Option<int>, pe: Option<int>, as_: Option<int>, ae: Option<int>)
    requires Get(data, "planned_start_at") == TimeValue(ps) && Get(data, "planned_end_at") == TimeValue(pe)
    requires Get(data, "actual_start_at") == TimeValue(as_) && Get(data, "actual_end_at") == TimeValue(ae)
    requires forall i | 0 <= i < 6 :: Get(data, DurationFields[i]).VNone?
    ensures PlannedWindowErrors(TimeValue(ps), TimeValue(pe)).Some?
    ensures ActualWindowErrors(TimeValue(as_), TimeValue(ae)).Some?
    ensures TimeRelationships(data) == Some(PlannedWindowErrors(TimeValue(ps), TimeValue(pe)).value
                                            + ActualWindowErrors(TimeValue(as_), TimeValue(ae)).value)
  {
    var entries := DurationEntries(data);
    DurationErrorsAllNone(entries);
    assert LeadTimeErrors(entries[0].1, entries[1].1, entries[2].1) == [];
    var planned := PlannedWindowErrors(TimeValue(ps), TimeValue(pe)).value;
    var actual := ActualWindowErrors(TimeValue(as_), TimeValue(ae)).value;
    var none: seq<string> := [];
    assert planned + actual + none + none == planned + actual;
  }

  /** The three window messages are pairwise distinct. */
  lemma WindowMessagesDistinct()
    ensures "Planned start time must be before planned end time" != "Planned duration exceeds 30 days - please verify"
    ensures "Planned start time must be before planned end time" != "Actual start time must be before actual end time"
    ensures "Planned duration exceeds 30 days - please verify" != "Actual start time must be before actual end time"
  {
    assert |"Planned start time must be before planned end time"| == 50;
    assert "Planned duration exceeds 30 days - please verify"[47] != "Actual start time must be before actual end time"[47];
  }

  /** Three parts, each empty or its own message, the messages distinct: a message is reported iff its part is. */
  lemma ThreePartsMembership(e1: seq<string>, e2: seq<string>, e3: seq<string>, m1: string, m2: string, m3: string)
    requires e1 == [] || e1 == [m1]
    requires e2 == [] || e2 == [m2]
    requires e3 == [] || e3 == [m3]
    requires m1 != m2 && m1 != m3 && m2 != m3
    ensures var errors := e1 + e2 + e3;
      && (m1 in errors <==> e1 != []) && (m2 in errors <==> e2 != []) && (m3 in errors <==> e3 != [])
  {
    var errors := e1 + e2 + e3;
    assert forall x :: x in errors <==> x in e1 || x in e2 || x in e3;
  }

  /**
   * Every minute field: negative is an error, strictly between 0 and 0.1 is
   * "too small", and 0 or anything from 0.1 up adds nothing.
   */
  lemma DurationFieldMeaning(field: string, t: Decimal)
    ensures DurationError(field, VDec(t)).Some?
    ensures DecimalValue(t) < 0.0 ==> DurationError(field, VDec(t)) == Some([field + " cannot be negative"])
    ensures 0.0 < DecimalValue(t) < 0.1 ==> DurationError(field, VDec(t)) == Some([field + " is too small to be meaningful"])
    ensures DecimalValue(t) == 0.0 || DecimalValue(t) >= 0.1 ==> DurationError(field, VDec(t)) == Some([])
  {
    assert DecimalValue(MinProcessingMinutes) == 0.1 by {
      assert Pow10(1) == 10;
    }
  }

  /** The status rule: in-progress needs a start, finished needs start, end and a non-zero processed quantity. */
  lemma StatusRuleMeaning(data: Payload)
    ensures Get(data, "status") == VStr("IN_PROGRESS") ==>
              (StatusConstraints(data) == [] <==> Truthy(Get(data, "actual_start_at")))
    ensures Get(data, "status") == VStr("FINISHED") ==>
              (StatusConstraints(data) == []
               <==> Truthy(Get(data, "actual_start_at")) && Truthy(Get(data, "actual_end_at"))
                    && Truthy(Get(data, "qty_processed")))
    ensures Get(data, "status") != VStr("IN_PROGRESS") && Get(data, "status") != VStr("FINISHED") ==>
              StatusConstraints(data) == []
  {
  }

  /**
   * Order and operation numbers are flagged exactly when non-empty and all
   * whitespace; a non-numeric operation number is never an error.
   */
  lemma SequenceRuleMeaning(orderNo: string, operationNo: string)
    ensures var data := map["order_no" := VStr(orderNo), "operation_no" := VStr(operationNo)];
      OperationSequence(data).Some?
      && ("Order number cannot be empty" in OperationSequence(data).value
          <==> orderNo != "" && AllSpace(orderNo))
      && ("Operation number cannot be empty" in OperationSequence(data).value
          <==> operationNo != "" && AllSpace(operationNo))
  {
    StripEmptyIffAllSpace(orderNo);
    StripEmptyIffAllSpace(operationNo);
    var data := map["order_no" := VStr(orderNo), "operation_no" := VStr(operationNo)];
    assert Get(data, "order_no") == VStr(orderNo) && Get(data, "operation_no") == VStr(operationNo);
    var e1 := BlankCheck(VStr(orderNo), "Order number cannot be empty").value;
    var e2 := BlankCheck(VStr(operationNo), "Operation number cannot be empty").value;
    assert OperationSequence(data).value == e1 + e2;
    assert |"Order number cannot be empty"| != |"Operation number cannot be empty"|;
  }

  /** The workplace name is flagged when non-empty and all whitespace, the asset id when negative. */
  lemma WorkplaceRuleMeaning(workplace: string, assetId: int)
    ensures var data := map["workplace_name" := VStr(workplace), "asset_id" := VInt(assetId)];
      WorkplaceConstraints(data).Some?
      && ("Workplace name cannot be empty" in WorkplaceConstraints(data).value
          <==> workplace != "" && AllSpace(workplace))
      && ("Asset ID must be positive" in WorkplaceConstraints(data).value <==> assetId < 0)
  {
    StripEmptyIffAllSpace(workplace);
    var data := map["workplace_name" := VStr(workplace), "asset_id" := VInt(assetId)];
    assert Get(data, "workplace_name") == VStr(workplace) && Get(data, "asset_id") == VInt(assetId);
    var e1 := if assetId != 0 then SignCheck(VInt(assetId), Le, "Asset ID must be positive").value else [];
    var e2 := BlankCheck(VStr(workplace), "Workplace name cannot be empty").value;
    assert WorkplaceConstraints(data).value == e1 + e2;
    assert |"Workplace name cannot be empty"| != |"Asset ID must be positive"|;
  }

  /** `calculate_operation_metrics`: each key absent unless its operands are present. */
  datatype Metrics = Metrics(
    processingEfficiency: Option<real>,
    throughputPerHour: Option<real>,
    scrapRate: Option<real>,
    qualityRate: Option<real>,
    startTimeVarianceHours: Option<real>,
    endTimeVarianceHours: Option<real>,
    completionPercentage: Option<real>)

  /** Truthiness of an optional Decimal column. */
  predicate PresentMinutes(t: Option<Decimal>) {
    t.Some? && t.value.coeff != 0
  }

  function Minutes(t: Option<Decimal>): real
    requires t.Some?
  {
    DecimalValue(t.value)
  }

  function MinReal(a: real, b: real): real {
    if a <= b then a else b
  }

  /** Microseconds to hours. */
  function Hours(micros: int): real {
    micros as real / 3600000000.0
  }

  function OperationMetrics(o: Operation): Metrics {
    var timed := PresentMinutes(o.tTargetProcessingMin) && PresentMinutes(o.tActualProcessingMin)
                 && Minutes(o.tActualProcessingMin) > 0.0;
    var throughput := Present(o.qtyProcessed) && PresentMinutes(o.tActualProcessingMin)
                      && Minutes(o.tActualProcessingMin) > 0.0;
    var quality := Present(o.qtyProcessed) && Present(o.qtyScrap) && o.qtyProcessed.value > 0;
    var scrapRate := if quality then o.qtyScrap.value as real / o.qtyProcessed.value as real else 0.0;
    Metrics(
      if timed then Some(Minutes(o.tTargetProcessingMin) / Minutes(o.tActualProcessingMin)) else None,
      if throughput then Some(o.qtyProcessed.value as real / (Minutes(o.tActualProcessingMin) / 60.0)) else None,
      if quality then Some(scrapRate) else None,
      if quality then Some(1.0 - scrapRate) else None,
      if o.plannedStartAt.Some? && o.actualStartAt.Some?
      then Some(Hours(o.actualStartAt.value - o.plannedStartAt.value)) else None,
      if o.plannedEndAt.Some? && o.actualEndAt.Some?
      then Some(Hours(o.actualEndAt.value - o.plannedEndAt.value)) else None,
      if Present(o.qtyDesired) && Present(o.qtyProcessed)
      then Some(MinReal(o.qtyProcessed.value as real / o.qtyDesired.value as real, 1.0)) else None)
  }

  /**
   * Completion never exceeds 1, quality and scrap rates are complementary,
   * and for a schema-valid row with scrap within processed both lie in [0, 1].
   */
  lemma MetricsBounds(o: Operation)
    ensures var m := OperationMetrics(o);
      && (m.completionPercentage.Some? ==> m.completionPercentage.value <= 1.0)
      && (m.scrapRate.Some? <==> m.qualityRate.Some?)
      && (m.scrapRate.Some? ==> m.qualityRate.value == 1.0 - m.scrapRate.value)
      && (m.scrapRate.Some? && 0 <= o.qtyScrap.value <= o.qtyProcessed.value ==>
            0.0 <= m.scrapRate.value <= 1.0 && 0.0 <= m.qualityRate.value <= 1.0)
      && (m.completionPercentage.Some? ==> Present(o.qtyDesired) && Present(o.qtyProcessed))
  {
    var m := OperationMetrics(o);
    if m.scrapRate.Some? && 0 <= o.qtyScrap.value <= o.qtyProcessed.value {
      var s, p := o.qtyScrap.value as real, o.qtyProcessed.value as real;
      assert s / p <= 1.0 by {
        assert s / p * p == s;
      }
    }
  }

  /** `processing_efficiency`: present exactly with both processing times truthy and the actual positive. */
  lemma EfficiencyMetric(o: Operation)
    ensures var m := OperationMetrics(o);
      && (m.processingEfficiency.Some? <==>
            PresentMinutes(o.tTargetProcessingMin) && PresentMinutes(o.tActualProcessingMin)
            && Minutes(o.tActualProcessingMin) > 0.0)
      && (m.processingEfficiency.Some? ==>
            m.processingEfficiency.value * Minutes(o.tActualProcessingMin) == Minutes(o.tTargetProcessingMin))
  {
    if PresentMinutes(o.tTargetProcessingMin) && PresentMinutes(o.tActualProcessingMin)
       && Minutes(o.tActualProcessingMin) > 0.0 {
      QuotientTimesDivisor(Minutes(o.tTargetProcessingMin), Minutes(o.tActualProcessingMin));
    }
  }

  /** `throughput_per_hour`: present exactly with processed truthy and a positive actual processing time. */
  lemma ThroughputMetric(o: Operation)
    ensures var m := OperationMetrics(o);
      && (m.throughputPerHour.Some? <==>
            Present(o.qtyProcessed) && PresentMinutes(o.tActualProcessingMin) && Minutes(o.tActualProcessingMin) > 0.0)
      && (m.throughputPerHour.Some? ==>
            m.throughputPerHour.value * Minutes(o.tActualProcessingMin) == o.qtyProcessed.value as real * 60.0)
  {
    if Present(o.qtyProcessed) && PresentMinutes(o.tActualProcessingMin) && Minutes(o.tActualProcessingMin) > 0.0 {
      ThroughputTimesMinutes(o.qtyProcessed.value as real, Minutes(o.tActualProcessingMin));
    }
  }

  /** `scrap_rate` and `quality_rate`: present exactly with both quantities truthy and processed positive. */
  lemma ScrapMetric(o: Operation)
    ensures var m := OperationMetrics(o);
      && (m.scrapRate.Some? <==> Present(o.qtyProcessed) && Present(o.qtyScrap) && o.qtyProcessed.value > 0)
      && (m.qualityRate.Some? <==> m.scrapRate.Some?)
      && (m.scrapRate.Some? ==> m.scrapRate.value * o.qtyProcessed.value as real == o.qtyScrap.value as real)
  {
    if Present(o.qtyProcessed) && Present(o.qtyScrap) && o.qtyProcessed.value > 0 {
      QuotientTimesDivisor(o.qtyScrap.value as real, o.qtyProcessed.value as real);
    }
  }

  /** The schedule variances: present exactly when both of their datetimes are set, in hours. */
  lemma VarianceMetrics(o: Operation)
    ensures var m := OperationMetrics(o);
      && (m.startTimeVarianceHours.Some? <==> o.plannedStartAt.Some? && o.actualStartAt.Some?)
      && (m.startTimeVarianceHours.Some? ==>
            m.startTimeVarianceHours.value * 3600000000.0 == (o.actualStartAt.value - o.plannedStartAt.value) as real)
      && (m.endTimeVarianceHours.Some? <==> o.plannedEndAt.Some? && o.actualEndAt.Some?)
      && (m.endTimeVarianceHours.Some? ==>
            m.endTimeVarianceHours.value * 3600000000.0 == (o.actualEndAt.value - o.plannedEndAt.value) as real)
  {
    if o.plannedStartAt.Some? && o.actualStartAt.Some? {
      HoursTimesMicros(o.actualStartAt.value - o.plannedStartAt.value);
    }
    if o.plannedEndAt.Some? && o.actualEndAt.Some? {
      HoursTimesMicros(o.actualEndAt.value - o.plannedEndAt.value);
    }
  }

  /** `completion_percentage`: present exactly with both quantities truthy; the ratio, or the cap 1. */
  lemma CompletionMetric(o: Operation)
    ensures var m := OperationMetrics(o);
      && (m.completionPercentage.Some? <==> Present(o.qtyDesired) && Present(o.qtyProcessed))
      && (m.completionPercentage.Some? ==>
            m.completionPercentage.value == 1.0
            || m.completionPercentage.value * o.qtyDesired.value as real == o.qtyProcessed.value as real)
  {
    if Present(o.qtyDesired) && Present(o.qtyProcessed) {
      QuotientTimesDivisor(o.qtyProcessed.value as real, o.qtyDesired.value as real);
    }
  }

  lemma QuotientTimesDivisor(n: real, d: real)
    requires d != 0.0
    ensures (n / d) * d == n
  {
  }

  lemma ThroughputTimesMinutes(p: real, a: real)
    requires a != 0.0
    ensures (p / (a / 60.0)) * a == p * 60.0
  {
    QuotientTimesDivisor(p, a / 60.0);
  }

  lemma HoursTimesMicros(micros: int)
    ensures Hours(micros) * 3600000000.0 == micros as real
  {
  }

  /** One recommendation; `Text` is the sentence the source appends. */
  datatype Advice = LowEfficiency | HighEfficiency | HighScrap | SlowSetup {
    function Text(): string {
      match this
      case LowEfficiency => "Consider process optimization - efficiency below 80%"
      case HighEfficiency => "Consider updating standard times - consistently exceeding targets"
      case HighScrap => "High scrap rate detected - review quality processes"
      case SlowSetup => "Setup time significantly over target - consider SMED techniques"
    }
  }

  /** `recommend_optimizations`. */
  function Recommendations(o: Operation): seq<Advice> {
    var efficiencyKnown := PresentMinutes(o.tTargetProcessingMin) && PresentMinutes(o.tActualProcessingMin)
                           && Minutes(o.tActualProcessingMin) > 0.0;
    var efficiency := if efficiencyKnown then Minutes(o.tTargetProcessingMin) / Minutes(o.tActualProcessingMin) else 1.0;
    var scrapKnown := Present(o.qtyProcessed) && Present(o.qtyScrap) && o.qtyProcessed.value > 0;
    (if efficiencyKnown && efficiency < 0.8 then [LowEfficiency]
     else if efficiencyKnown && efficiency > 1.2 then [HighEfficiency]
     else [])
    + (if scrapKnown && o.qtyScrap.value as real / o.qtyProcessed.value as real > 0.1 then [HighScrap] else [])
    + (if PresentMinutes(o.tTargetSetupMin) && PresentMinutes(o.tActualSetupMin)
          && Minutes(o.tActualSetupMin) > Minutes(o.tTargetSetupMin) * 1.5
       then [SlowSetup] else [])
  }

  /**
   * The recommendations agree with the metrics: each efficiency advice is
   * given exactly when the processing efficiency is known and on its side of
   * the band (so never both), and the scrap advice exactly when the scrap
   * rate is known and above 10%; the setup advice exactly when both setup
   * times are truthy and the actual exceeds the target by half.
   */
  lemma RecommendationsMatchMetrics(o: Operation)
    ensures var m := OperationMetrics(o);
      var advice := Recommendations(o);
      && (LowEfficiency in advice <==> m.processingEfficiency.Some? && m.processingEfficiency.value < 0.8)
      && (HighEfficiency in advice <==> m.processingEfficiency.Some? && m.processingEfficiency.value > 1.2)
      && !(LowEfficiency in advice && HighEfficiency in advice)
      && (HighScrap in advice <==> m.scrapRate.Some? && m.scrapRate.value > 0.1)
      && (SlowSetup in advice <==>
            PresentMinutes(o.tTargetSetupMin) && PresentMinutes(o.tActualSetupMin)
            && Minutes(o.tActualSetupMin) > Minutes(o.tTargetSetupMin) * 1.5)
  {
  }
}
