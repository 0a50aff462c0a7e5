/**
 * `MESOperationService`: the business rules it checks before it lets the
 * CRUD layer write, its own transition table, and the `start` and `finish`
 * workflows built on `update`. Each state-changing call is specified by a
 * pure function of the table it starts from; the lemmas beside them say what
 * a successful call guarantees.
 */
module Service {
  import opened Wrappers
  import opened PyText
  import opened PyValues
  import opened MesErrors
  import opened Operations
  import opened Store
  import SM = StateMachine

  /** `VALID_STATE_TRANSITIONS`. */
  const ValidStateTransitions: map<string, seq<string>> := map[
    "PLANNED" := ["RELEASED", "CANCELLED"],
    "RELEASED" := ["IN_PROGRESS", "CANCELLED", "ON_HOLD"],
    "IN_PROGRESS" := ["FINISHED", "ON_HOLD", "CANCELLED"],
    "ON_HOLD" := ["IN_PROGRESS", "CANCELLED"],
    "FINISHED" := [],
    "CANCELLED" := []]

  /** `VALID_STATE_TRANSITIONS.get(current_status, [])`. */
  function ValidNext(current: Option<string>): seq<string> {
    if current.Some? && current.value in ValidStateTransitions then ValidStateTransitions[current.value] else []
  }

  /** `_validate_state_transition`: `None` when the change is allowed. */
  function TransitionCheck(current: Option<string>, next: Option<string>): Option<MesError> {
    if current == next then None
    else if next.Some? && next.value in ValidNext(current) then None
    else Some(InvalidOperationState(StatusText(current), "transition to " + StatusText(next)))
  }

  /** The service's quantity message. */
  function ExceedText(processed: int, desired: int): string {
    "Processed quantity (" + IntToString(processed) + ") cannot exceed desired quantity (" + IntToString(desired) + ")"
  }

  function ScrapText(scrap: int, processed: int): string {
    "Scrap quantity (" + IntToString(scrap) + ") cannot exceed processed quantity (" + IntToString(processed) + ")"
  }

  /** `_validate_operation_data`, run on a create payload. */
  function CreateCheck(op: Operation): Option<MesError> {
    if Exceeds(op.qtyProcessed, op.qtyDesired) then
      Some(InvalidQuantity(ExceedText(op.qtyProcessed.value, op.qtyDesired.value)))
    else if op.plannedStartAt.Some? && op.plannedEndAt.Some? && op.plannedStartAt.value >= op.plannedEndAt.value then
      Some(InvalidOperationState("time_validation", "Planned start time must be before end time"))
    else None
  }

  /** `_validate_quantities_update`: the same checks on the merged view. */
  function QuantityCheck(existing: Operation, u: OperationUpdate): Option<MesError> {
    var processed := u.qtyProcessed.Over(existing.qtyProcessed);
    var desired := u.qtyDesired.Over(existing.qtyDesired);
    var scrap := u.qtyScrap.Over(existing.qtyScrap);
    if Exceeds(processed, desired) then Some(InvalidQuantity(ExceedText(processed.value, desired.value)))
    else if Exceeds(scrap, processed) then Some(InvalidQuantity(ScrapText(scrap.value, processed.value)))
    else None
  }

  /** `_handle_integrity_error(e, context)`. */
  function IntegrityFailure(context: string): (e: MesError)
    ensures e.ErrorType() == "integrity_violation"
    ensures e.Message() == "Database constraint violation during " + context
  {
    General("Database constraint violation during " + context, "integrity_violation")
  }

  /** What reaches the caller: an integrity violation is re-raised as an MES error. */
  function Translate(f: Failure, context: string): (r: Failure)
    ensures !r.IntegrityError?
    ensures !f.IntegrityError? ==> r == f
  {
    if f.IntegrityError? then Mes(IntegrityFailure(context)) else f
  }

  /** Neither processed above desired nor scrap above processed (where both are non-zero). */
  predicate QuantityConsistent(o: Operation) {
    !Exceeds(o.qtyProcessed, o.qtyDesired) && !Exceeds(o.qtyScrap, o.qtyProcessed)
  }

  function NotFound(key: Key): Failure {
    Mes(OperationNotFound(key.orderNo, key.assetId, key.operationNo))
  }

  /** The outcome of `create(op)` against the table `rows`. */
  function CreateResult(rows: map<Key, Operation>, op: Operation): Result<Operation, Failure> {
    if op.KeyOf() in rows then Failure(Mes(DuplicateOperation(op.orderNo, op.assetId, op.operationNo)))
    else if CreateCheck(op).Some? then Failure(Mes(CreateCheck(op).value))
    else Success(op)
  }

  /** The outcome of `update(key, u)` against the table `rows`. */
  function UpdateResult(rows: map<Key, Operation>, key: Key, u: OperationUpdate): Result<Option<Operation>, Failure> {
    if key !in rows then Failure(NotFound(key))
    else
      var existing := rows[key];
      if u.status.Put? && TransitionCheck(existing.status, u.status.value).Some? then
        Failure(Mes(TransitionCheck(existing.status, u.status.value).value))
      else if QuantityCheck(existing, u).Some? then Failure(Mes(QuantityCheck(existing, u).value))
      else if ViolatesNotNull(u) then Failure(Mes(IntegrityFailure("operation update")))
      else Success(Some(ApplyUpdate(existing, u)))
  }

  /** The outcome of `delete(key)`. */
  function DeleteResult(rows: map<Key, Operation>, key: Key): Result<bool, Failure> {
    if key !in rows then Success(false)
    else if rows[key].status == Some("FINISHED") then
      Failure(Mes(InvalidOperationState("FINISHED", "delete finished operation")))
    else Success(true)
  }

  /** The payload `start_operation` builds. */
  function StartUpdate(now: int): OperationUpdate {
    NoChanges.(status := Put(Some("IN_PROGRESS")), actualStartAt := Put(Some(now)),
               timestampMs := Put(Some(now)), changeType := Put(Some("UPDATE")))
  }

  /** The payload `finish_operation` builds. */
  function FinishUpdate(now: int, finalQuantity: Option<int>): OperationUpdate {
    NoChanges.(status := Put(Some("FINISHED")), actualEndAt := Put(Some(now)),
               timestampMs := Put(Some(now)), changeType := Put(Some("UPDATE")),
               qtyProcessed := if finalQuantity.Some? then Put(finalQuantity) else Keep)
  }

  function StartResult(rows: map<Key, Operation>, key: Key, now: int): Result<Option<Operation>, Failure> {
    if key !in rows then Failure(NotFound(key))
    else if rows[key].status != Some("RELEASED") && rows[key].status != Some("ON_HOLD") then
      Failure(Mes(InvalidOperationState(StatusText(rows[key].status), "start operation")))
    else UpdateResult(rows, key, StartUpdate(now))
  }

  /** A negative final quantity fails the update schema's `ge=0` before anything else. */
  function FinishResult(rows: map<Key, Operation>, key: Key, now: int, finalQuantity: Option<int>)
    : Result<Option<Operation>, Failure>
  {
    if key !in rows then Failure(NotFound(key))
    else if rows[key].status != Some("IN_PROGRESS") then
      Failure(Mes(InvalidOperationState(StatusText(rows[key].status), "finish operation")))
    else if finalQuantity.Some? && finalQuantity.value < 0 then Failure(SchemaError("qty_processed"))
    else UpdateResult(rows, key, FinishUpdate(now, finalQuantity))
  }

  /** The table after a call with outcome `r` that writes `row` under `key` when it succeeds. */
  function AfterWrite<T>(rows: map<Key, Operation>, r: Result<T, Failure>, key: Key, row: Operation): map<Key, Operation> {
    if r.Success? then rows[key := row] else rows
  }

  /**
   * `calculate_efficiency`: target over actual processing minutes, capped at
   * 2.0; `None` when either is missing or zero.
   */
  function CalculateEfficiency(o: Operation): (r: Option<real>)
    ensures r.None? <==> o.tActualProcessingMin.None? || o.tActualProcessingMin.value.coeff == 0
                         || o.tTargetProcessingMin.None? || o.tTargetProcessingMin.value.coeff == 0
    ensures r.Some? ==> r.value <= 2.0
    ensures r.Some? ==> r.value == 2.0
                        || r.value * DecimalValue(o.tActualProcessingMin.value) == DecimalValue(o.tTargetProcessingMin.value)
    ensures r.Some? && DecimalValue(o.tActualProcessingMin.value) > 0.0 ==>
              (r.value == 2.0 <==> DecimalValue(o.tTargetProcessingMin.value) >= 2.0 * DecimalValue(o.tActualProcessingMin.value))
  {
    var actual := o.tActualProcessingMin;
    var target := o.tTargetProcessingMin;
    if actual.None? || actual.value.coeff == 0 || target.None? || target.value.coeff == 0 then None
    else
      DecimalValueSign(actual.value);
      var ratio := DecimalValue(target.value) / DecimalValue(actual.value);
      var capped := if ratio < 2.0 then ratio else 2.0;
      RatioCap(DecimalValue(target.value), DecimalValue(actual.value), capped);
      Some(capped)
  }

  /**
   * A ratio capped at 2 is either the cap or the quotient, which times the
   * divisor gives back the dividend; over a positive divisor the cap is reached
   * exactly when the dividend is at least twice the divisor.
   */
  lemma RatioCap(t: real, a: real, q: real)
    requires a != 0.0 && q == (if t / a < 2.0 then t / a else 2.0)
    ensures q == 2.0 || q * a == t
    ensures a > 0.0 ==> (q == 2.0 <==> t >= 2.0 * a)
  {
  }

  /** With both times positive the efficiency is positive, and it is the plain ratio up to the cap. */
  lemma EfficiencyPositive(o: Operation)
    requires o.tActualProcessingMin.Some? && o.tActualProcessingMin.value.coeff > 0
    requires o.tTargetProcessingMin.Some? && o.tTargetProcessingMin.value.coeff > 0
    ensures CalculateEfficiency(o).Some? && 0.0 < CalculateEfficiency(o).value <= 2.0
  {
    DecimalValueSign(o.tActualProcessingMin.value);
    DecimalValueSign(o.tTargetProcessingMin.value);
  }

  /** A status change between two known statuses along an edge of the state machine's table. */
  predicate StructuralEdge(current: Option<string>, next: Option<string>) {
    && current.Some? && SM.Parse(current.value).Some?
    && next.Some? && SM.Parse(next.value).Some?
    && SM.Parse(next.value).value in SM.Targets(SM.Parse(current.value).value)
  }

  lemma ValidNextOfStatus(s: SM.Status)
    ensures ValidNext(Some(SM.Name(s))) ==
      match s
      case Planned => ["RELEASED", "CANCELLED"]
      case Released => ["IN_PROGRESS", "CANCELLED", "ON_HOLD"]
      case InProgress => ["FINISHED", "ON_HOLD", "CANCELLED"]
      case OnHold => ["IN_PROGRESS", "CANCELLED"]
      case Finished => []
      case Cancelled => []
  {
  }

  /** A string that is a key of the table is a status name. */
  lemma ValidNextKnown(current: Option<string>)
    requires ValidNext(current) != []
    ensures current.Some? && SM.Parse(current.value).Some?
  {
  }

  /**
   * The service's own table has the same edges as the state machine's:
   * a status change is accepted exactly when it keeps the status or follows
   * an edge, so terminal and unknown statuses accept no change at all.
   */
  lemma TransitionCheckIff(current: Option<string>, next: Option<string>)
    ensures TransitionCheck(current, next).None? <==> current == next || StructuralEdge(current, next)
  {
    if current.Some? && SM.Parse(current.value).Some? {
      var s := SM.Parse(current.value).value;
      ValidNextMatchesTargets(s);
      if next.Some? && SM.Parse(next.value).Some? {
        var t := SM.Parse(next.value).value;
        assert SM.Name(t) == next.value;
      }
    } else if ValidNext(current) != [] {
      ValidNextKnown(current);
    }
  }

  /** For a status, the service's table lists exactly the names of its structural targets. */
  lemma ValidNextMatchesTargets(s: SM.Status)
    ensures forall x | x in ValidNext(Some(SM.Name(s))) :: SM.Parse(x).Some?
    ensures forall t: SM.Status :: SM.Name(t) in ValidNext(Some(SM.Name(s))) <==> t in SM.Targets(s)
  {
    ValidNextSameNames(s);
    SM.ValidTransitionsAreTargets(s);
    SM.ValidTransitionsParse(s);
  }

  /** The service's table and the state machine's list the same names, in another order. */
  lemma ValidNextSameNames(s: SM.Status)
    ensures forall x :: x in ValidNext(Some(SM.Name(s))) <==> x in SM.ValidTransitions(SM.Name(s))
  {
    ValidNextOfStatus(s);
    SM.ValidTransitionsTable();
    match s
    case Planned =>
    case Released =>
    case InProgress =>
    case OnHold =>
    case Finished =>
    case Cancelled =>
  }

  /** The service's quantity check covers the CRUD layer's, so the latter never fires behind it. */
  lemma CrudCheckSubsumed(existing: Operation, u: OperationUpdate, op: Operation)
    ensures QuantityCheck(existing, u).None? ==>
              !Exceeds(u.qtyProcessed.Over(existing.qtyProcessed), u.qtyDesired.Over(existing.qtyDesired))
    ensures CreateCheck(op).None? ==> !Exceeds(op.qtyProcessed, op.qtyDesired)
  {
  }

  /** A create passes the checks exactly when its quantities and planned window are consistent. */
  lemma CreateResultMeaning(rows: map<Key, Operation>, op: Operation)
    ensures CreateResult(rows, op).Success? <==>
              && op.KeyOf() !in rows
              && !Exceeds(op.qtyProcessed, op.qtyDesired)
              && (op.plannedStartAt.Some? && op.plannedEndAt.Some? ==> op.plannedStartAt.value < op.plannedEndAt.value)
    ensures op.KeyOf() in rows ==> CreateResult(rows, op).error.error.ErrorType() == "duplicate_operation"
    ensures op.KeyOf() !in rows && Exceeds(op.qtyProcessed, op.qtyDesired) ==>
              CreateResult(rows, op).error.error.ErrorType() == "invalid_quantity"
  {
  }

  /**
   * A successful update wrote exactly `ApplyUpdate`, moved the status only
   * along an edge of the table, and left the row's quantities consistent.
   */
  lemma UpdateResultMeaning(rows: map<Key, Operation>, key: Key, u: OperationUpdate)
    ensures key !in rows ==> UpdateResult(rows, key, u) == Failure(NotFound(key))
    ensures UpdateResult(rows, key, u).Success? ==>
              && key in rows
              && !ViolatesNotNull(u)
              && UpdateResult(rows, key, u).value == Some(ApplyUpdate(rows[key], u))
              && (u.status.Put? ==> rows[key].status == u.status.value || StructuralEdge(rows[key].status, u.status.value))
              && QuantityConsistent(ApplyUpdate(rows[key], u))
  {
    if UpdateResult(rows, key, u).Success? && u.status.Put? {
      TransitionCheckIff(rows[key].status, u.status.value);
    }
  }

  /** An update that changes no status and no quantity only fails on a missing key or a nulled NOT NULL column. */
  lemma UpdateWithoutStatusOrQuantity(rows: map<Key, Operation>, key: Key, u: OperationUpdate)
    requires key in rows && QuantityConsistent(rows[key])
    requires u.status.Keep? && u.qtyDesired.Keep? && u.qtyProcessed.Keep? && u.qtyScrap.Keep?
    ensures UpdateResult(rows, key, u).Success? <==> !ViolatesNotNull(u)
  {
  }

  /** `delete` answers False for a missing key, refuses a FINISHED row and otherwise removes it. */
  lemma DeleteResultMeaning(rows: map<Key, Operation>, key: Key)
    ensures DeleteResult(rows, key) == Success(true) <==> key in rows && rows[key].status != Some("FINISHED")
    ensures DeleteResult(rows, key) == Success(false) <==> key !in rows
    ensures DeleteResult(rows, key).Failure? ==> DeleteResult(rows, key).error.error.ErrorType() == "invalid_state_transition"
  {
  }

  /**
   * `start_operation` succeeds only from RELEASED or ON_HOLD, and then always
   * does on a row whose quantities are consistent; it sets IN_PROGRESS, the
   * start time and the change stamp and nothing else.
   */
  lemma StartResultMeaning(rows: map<Key, Operation>, key: Key, now: int)
    ensures StartResult(rows, key, now).Success? ==>
              && key in rows
              && (rows[key].status == Some("RELEASED") || rows[key].status == Some("ON_HOLD"))
              && StartResult(rows, key, now).value ==
                   Some(rows[key].(status := Some("IN_PROGRESS"), actualStartAt := Some(now),
                                   timestampMs := now, changeType := "UPDATE"))
    ensures (key in rows && (rows[key].status == Some("RELEASED") || rows[key].status == Some("ON_HOLD"))
             && QuantityConsistent(rows[key])) ==> StartResult(rows, key, now).Success?
  {
    if key in rows && (rows[key].status == Some("RELEASED") || rows[key].status == Some("ON_HOLD")) {
      assert "IN_PROGRESS" in ValidNext(rows[key].status);
    }
  }

  /**
   * `finish_operation` succeeds only from IN_PROGRESS; it sets FINISHED and the
   * end time, and the processed quantity only when a final quantity is given.
   */
  lemma FinishResultMeaning(rows: map<Key, Operation>, key: Key, now: int, finalQuantity: Option<int>)
    ensures FinishResult(rows, key, now, finalQuantity).Success? ==>
              && key in rows
              && rows[key].status == Some("IN_PROGRESS")
              && FinishResult(rows, key, now, finalQuantity).value ==
                   Some(rows[key].(status := Some("FINISHED"), actualEndAt := Some(now),
                                   timestampMs := now, changeType := "UPDATE",
                                   qtyProcessed := if finalQuantity.Some? then finalQuantity else rows[key].qtyProcessed))
    ensures FinishResult(rows, key, now, finalQuantity).Success? ==>
              QuantityConsistent(FinishResult(rows, key, now, finalQuantity).value.value)
    ensures (key in rows && rows[key].status == Some("IN_PROGRESS") && finalQuantity.None?
             && QuantityConsistent(rows[key])) ==> FinishResult(rows, key, now, finalQuantity).Success?
  {
    if key in rows && rows[key].status == Some("IN_PROGRESS") {
      assert "FINISHED" in ValidNext(rows[key].status);
      if !(finalQuantity.Some? && finalQuantity.value < 0) {
        UpdateResultMeaning(rows, key, FinishUpdate(now, finalQuantity));
      }
    }
  }

  class OperationService {
    const db: OperationStore

    constructor(db: OperationStore)
      ensures this.db == db
    {
      this.db := db;
    }

    /** `get_by_id`. */
    function GetById(key: Key): (r: Option<Operation>)
      reads db
      ensures r.Some? <==> key in db.rows
      ensures r.Some? ==> r.value == db.rows[key]
    {
      db.GetOperation(key.orderNo, key.assetId, key.operationNo)
    }

    /** `create`: duplicate check, then the data checks, then the CRUD insert. */
    method Create(op: Operation) returns (r: Result<Operation, Failure>)
      requires db.Valid()
      modifies db
      ensures db.Valid()
      ensures r == CreateResult(old(db.rows), op)
      ensures db.rows == AfterWrite(old(db.rows), r, op.KeyOf(), op)
    {
      var existing := GetById(op.KeyOf());
      if existing.Some? {
        return Failure(Mes(DuplicateOperation(op.orderNo, op.assetId, op.operationNo)));
      }
      var problem := CreateCheck(op);
      if problem.Some? {
        return Failure(Mes(problem.value));
      }
      var created := db.CreateOperation(op);
      r := match created
        case Success(o) => Success(o)
        case Failure(e) => Failure(Translate(e, "operation creation"));
    }

    /** `update`: not-found, transition and quantity checks, then the CRUD write. */
    method Update(key: Key, u: OperationUpdate) returns (r: Result<Option<Operation>, Failure>)
      requires db.Valid()
      modifies db
      ensures db.Valid()
      ensures r == UpdateResult(old(db.rows), key, u)
      ensures db.rows == if r.Success? then old(db.rows)[key := r.value.value] else old(db.rows)
    {
      var existing := GetById(key);
      if existing.None? {
        return Failure(NotFound(key));
      }
      if u.status.Put? {
        var problem := TransitionCheck(existing.value.status, u.status.value);
        if problem.Some? {
          return Failure(Mes(problem.value));
        }
      }
      var problem := QuantityCheck(existing.value, u);
      if problem.Some? {
        return Failure(Mes(problem.value));
      }
      CrudCheckSubsumed(existing.value, u, existing.value);
      var updated := db.UpdateOperation(key, u);
      r := match updated
        case Success(o) => Success(o)
        case Failure(e) => Failure(Translate(e, "operation update"));
    }

    /** `delete`. */
    method Delete(key: Key) returns (r: Result<bool, Failure>)
      requires db.Valid()
      modifies db
      ensures db.Valid()
      ensures r == DeleteResult(old(db.rows), key)
      ensures db.rows == if r == Success(true) then old(db.rows) - {key} else old(db.rows)
    {
      var existing := GetById(key);
      if existing.None? {
        return Success(false);
      }
      if existing.value.status == Some("FINISHED") {
        return Failure(Mes(InvalidOperationState("FINISHED", "delete finished operation")));
      }
      var deleted := db.DeleteOperation(key);
      return Success(deleted);
    }

    /** `start_operation(key)` at time `now`. */
    method StartOperation(key: Key, now: int) returns (r: Result<Option<Operation>, Failure>)
      requires db.Valid()
      modifies db
      ensures db.Valid()
      ensures r == StartResult(old(db.rows), key, now)
      ensures db.rows == if r.Success? then old(db.rows)[key := r.value.value] else old(db.rows)
    {
      var operation := GetById(key);
      if operation.None? {
        return Failure(NotFound(key));
      }
      if operation.value.status != Some("RELEASED") && operation.value.status != Some("ON_HOLD") {
        return Failure(Mes(InvalidOperationState(StatusText(operation.value.status), "start operation")));
      }
      r := Update(key, StartUpdate(now));
    }

    /** `finish_operation(key, final_quantity)` at time `now`. */
    method FinishOperation(key: Key, now: int, finalQuantity: Option<int>) returns (r: Result<Option<Operation>, Failure>)
      requires db.Valid()
      modifies db
      ensures db.Valid()
      ensures r == FinishResult(old(db.rows), key, now, finalQuantity)
      ensures db.rows == if r.Success? then old(db.rows)[key := r.value.value] else old(db.rows)
    {
      var operation := GetById(key);
      if operation.None? {
        return Failure(NotFound(key));
      }
      if operation.value.status != Some("IN_PROGRESS") {
        return Failure(Mes(InvalidOperationState(StatusText(operation.value.status), "finish operation")));
      }
      if finalQuantity.Some? && finalQuantity.value < 0 {
        return Failure(SchemaError("qty_processed"));
      }
      r := Update(key, FinishUpdate(now, finalQuantity));
    }
  }
}
