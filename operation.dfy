/**
 * The `mes_operations` row, its composite key, the partial-update payload and
 * the field constraints the pydantic schemas put on create and update requests.
 * Datetimes are integer microseconds; `Numeric` minute columns are Decimals.
 */
module Operations {
  import opened Wrappers
  import opened PyValues

  /** The composite primary key `(order_no, asset_id, operation_no)`. */
  datatype Key = Key(orderNo: string, assetId: int, operationNo: string)

  /**
   * One stored operation. Every nullable column is an Option;
   * `timestamp_ms` and `change_type` are NOT NULL.
   */
  datatype Operation = Operation(
    orderNo: string,
    assetId: int,
    operationNo: string,
    referenceUrl: Option<string>,
    status: Option<string>,
    activityCode: Option<string>,
    activityDescription: Option<string>,
    workplaceName: Option<string>,
    workplaceGroup: Option<string>,
    qtyDesired: Option<int>,
    qtyProcessed: Option<int>,
    qtyScrap: Option<int>,
    plannedStartAt: Option<int>,
    plannedEndAt: Option<int>,
    actualStartAt: Option<int>,
    actualEndAt: Option<int>,
    tTargetProcessingMin: Option<Decimal>,
    tTargetSetupMin: Option<Decimal>,
    tTargetLeadMin: Option<Decimal>,
    tActualProcessingMin: Option<Decimal>,
    tActualSetupMin: Option<Decimal>,
    tActualLeadMin: Option<Decimal>,
    timestampMs: int,
    changeType: string)
  {
    function KeyOf(): Key {
      Key(orderNo, assetId, operationNo)
    }
  }

  /** `f"{operation.status}"`: a null status renders as "None", never a valid status name. */
  function StatusText(status: Option<string>): string {
    match status
    case Some(s) => s
    case None => "None"
  }

  /** Python truthiness of an optional integer column: None and 0 are false. */
  predicate Present(q: Option<int>) {
    q.Some? && q.value != 0
  }

  /** The value or `0` (the source's `x or 0`). */
  function OrZero(q: Option<int>): int {
    if q.Some? then q.value else 0
  }

  /**
   * `MESOperationUpdate` after `model_dump(exclude_unset=True)`: `Keep` for a
   * field the request left out, `Put(v)` for one it supplied, even as null.
   */
  datatype OperationUpdate = OperationUpdate(
    referenceUrl: Patch<Option<string>>,
    status: Patch<Option<string>>,
    activityCode: Patch<Option<string>>,
    activityDescription: Patch<Option<string>>,
    workplaceName: Patch<Option<string>>,
    workplaceGroup: Patch<Option<string>>,
    qtyDesired: Patch<Option<int>>,
    qtyProcessed: Patch<Option<int>>,
    qtyScrap: Patch<Option<int>>,
    plannedStartAt: Patch<Option<int>>,
    plannedEndAt: Patch<Option<int>>,
    actualStartAt: Patch<Option<int>>,
    actualEndAt: Patch<Option<int>>,
    tTargetProcessingMin: Patch<Option<Decimal>>,
    tTargetSetupMin: Patch<Option<Decimal>>,
    tTargetLeadMin: Patch<Option<Decimal>>,
    tActualProcessingMin: Patch<Option<Decimal>>,
    tActualSetupMin: Patch<Option<Decimal>>,
    tActualLeadMin: Patch<Option<Decimal>>,
    timestampMs: Patch<Option<int>>,
    changeType: Patch<Option<string>>)

  /** A payload with no field set. */
  const NoChanges: OperationUpdate :=
    OperationUpdate(Keep, Keep, Keep, Keep, Keep, Keep, Keep, Keep, Keep, Keep, Keep,
                    Keep, Keep, Keep, Keep, Keep, Keep, Keep, Keep, Keep, Keep)

  /** Setting a NOT NULL column to null, which the database refuses at commit. */
  predicate ViolatesNotNull(u: OperationUpdate) {
    u.timestampMs == Put(None) || u.changeType == Put(None)
  }

  /** The stored value of a NOT NULL column after a patch that does not null it. */
  function OverRequired<T>(p: Patch<Option<T>>, current: T): T
    requires p != Put(None)
  {
    match p
    case Keep => current
    case Put(v) => v.value
  }

  /** The row after `setattr` of every supplied field. */
  function ApplyUpdate(o: Operation, u: OperationUpdate): (r: Operation)
    requires !ViolatesNotNull(u)
    ensures r.KeyOf() == o.KeyOf()
    ensures u == NoChanges ==> r == o
  {
    o.(referenceUrl := u.referenceUrl.Over(o.referenceUrl),
       status := u.status.Over(o.status),
       activityCode := u.activityCode.Over(o.activityCode),
       activityDescription := u.activityDescription.Over(o.activityDescription),
       workplaceName := u.workplaceName.Over(o.workplaceName),
       workplaceGroup := u.workplaceGroup.Over(o.workplaceGroup),
       qtyDesired := u.qtyDesired.Over(o.qtyDesired),
       qtyProcessed := u.qtyProcessed.Over(o.qtyProcessed),
       qtyScrap := u.qtyScrap.Over(o.qtyScrap),
       plannedStartAt := u.plannedStartAt.Over(o.plannedStartAt),
       plannedEndAt := u.plannedEndAt.Over(o.plannedEndAt),
       actualStartAt := u.actualStartAt.Over(o.actualStartAt),
       actualEndAt := u.actualEndAt.Over(o.actualEndAt),
       tTargetProcessingMin := u.tTargetProcessingMin.Over(o.tTargetProcessingMin),
       tTargetSetupMin := u.tTargetSetupMin.Over(o.tTargetSetupMin),
       tTargetLeadMin := u.tTargetLeadMin.Over(o.tTargetLeadMin),
       tActualProcessingMin := u.tActualProcessingMin.Over(o.tActualProcessingMin),
       tActualSetupMin := u.tActualSetupMin.Over(o.tActualSetupMin),
       tActualLeadMin := u.tActualLeadMin.Over(o.tActualLeadMin),
       timestampMs := OverRequired(u.timestampMs, o.timestampMs),
       changeType := OverRequired(u.changeType, o.changeType))
  }

  /**
   * Supplied fields take the supplied value; every other field keeps its
   * stored one. A NOT NULL column takes the non-null value it is given.
   */
  lemma ApplyUpdateWritesExactlySupplied(o: Operation, u: OperationUpdate)
    requires !ViolatesNotNull(u)
    ensures u.referenceUrl.Keep? ==> ApplyUpdate(o, u).referenceUrl == o.referenceUrl
    ensures u.referenceUrl.Put? ==> ApplyUpdate(o, u).referenceUrl == u.referenceUrl.value
    ensures u.status.Keep? ==> ApplyUpdate(o, u).status == o.status
    ensures u.status.Put? ==> ApplyUpdate(o, u).status == u.status.value
    ensures u.activityCode.Keep? ==> ApplyUpdate(o, u).activityCode == o.activityCode
    ensures u.activityCode.Put? ==> ApplyUpdate(o, u).activityCode == u.activityCode.value
    ensures u.activityDescription.Keep? ==> ApplyUpdate(o, u).activityDescription == o.activityDescription
    ensures u.activityDescription.Put? ==> ApplyUpdate(o, u).activityDescription == u.activityDescription.value
    ensures u.workplaceName.Keep? ==> ApplyUpdate(o, u).workplaceName == o.workplaceName
    ensures u.workplaceName.Put? ==> ApplyUpdate(o, u).workplaceName == u.workplaceName.value
    ensures u.workplaceGroup.Keep? ==> ApplyUpdate(o, u).workplaceGroup == o.workplaceGroup
    ensures u.workplaceGroup.Put? ==> ApplyUpdate(o, u).workplaceGroup == u.workplaceGroup.value
    ensures u.qtyDesired.Keep? ==> ApplyUpdate(o, u).qtyDesired == o.qtyDesired
    ensures u.qtyDesired.Put? ==> ApplyUpdate(o, u).qtyDesired == u.qtyDesired.value
    ensures u.qtyProcessed.Keep? ==> ApplyUpdate(o, u).qtyProcessed == o.qtyProcessed
    ensures u.qtyProcessed.Put? ==> ApplyUpdate(o, u).qtyProcessed == u.qtyProcessed.value
    ensures u.qtyScrap.Keep? ==> ApplyUpdate(o, u).qtyScrap == o.qtyScrap
    ensures u.qtyScrap.Put? ==> ApplyUpdate(o, u).qtyScrap == u.qtyScrap.value
    ensures u.plannedStartAt.Keep? ==> ApplyUpdate(o, u).plannedStartAt == o.plannedStartAt
    ensures u.plannedStartAt.Put? ==> ApplyUpdate(o, u).plannedStartAt == u.plannedStartAt.value
    ensures u.plannedEndAt.Keep? ==> ApplyUpdate(o, u).plannedEndAt == o.plannedEndAt
    ensures u.plannedEndAt.Put? ==> ApplyUpdate(o, u).plannedEndAt == u.plannedEndAt.value
    ensures u.actualStartAt.Keep? ==> ApplyUpdate(o, u).actualStartAt == o.actualStartAt
    ensures u.actualStartAt.Put? ==> ApplyUpdate(o, u).actualStartAt == u.actualStartAt.value
    ensures u.actualEndAt.Keep? ==> ApplyUpdate(o, u).actualEndAt == o.actualEndAt
    ensures u.actualEndAt.Put? ==> ApplyUpdate(o, u).actualEndAt == u.actualEndAt.value
    ensures u.tTargetProcessingMin.Keep? ==> ApplyUpdate(o, u).tTargetProcessingMin == o.tTargetProcessingMin
    ensures u.tTargetProcessingMin.Put? ==> ApplyUpdate(o, u).tTargetProcessingMin == u.tTargetProcessingMin.value
    ensures u.tTargetSetupMin.Keep? ==> ApplyUpdate(o, u).tTargetSetupMin == o.tTargetSetupMin
    ensures u.tTargetSetupMin.Put? ==> ApplyUpdate(o, u).tTargetSetupMin == u.tTargetSetupMin.value
    ensures u.tTargetLeadMin.Keep? ==> ApplyUpdate(o, u).tTargetLeadMin == o.tTargetLeadMin
    ensures u.tTargetLeadMin.Put? ==> ApplyUpdate(o, u).tTargetLeadMin == u.tTargetLeadMin.value
    ensures u.tActualProcessingMin.Keep? ==> ApplyUpdate(o, u).tActualProcessingMin == o.tActualProcessingMin
    ensures u.tActualProcessingMin.Put? ==> ApplyUpdate(o, u).tActualProcessingMin == u.tActualProcessingMin.value
    ensures u.tActualSetupMin.Keep? ==> ApplyUpdate(o, u).tActualSetupMin == o.tActualSetupMin
    ensures u.tActualSetupMin.Put? ==> ApplyUpdate(o, u).tActualSetupMin == u.tActualSetupMin.value
    ensures u.tActualLeadMin.Keep? ==> ApplyUpdate(o, u).tActualLeadMin == o.tActualLeadMin
    ensures u.tActualLeadMin.Put? ==> ApplyUpdate(o, u).tActualLeadMin == u.tActualLeadMin.value
    ensures u.timestampMs.Keep? ==> ApplyUpdate(o, u).timestampMs == o.timestampMs
    ensures u.timestampMs.Put? ==> Some(ApplyUpdate(o, u).timestampMs) == u.timestampMs.value
    ensures u.changeType.Keep? ==> ApplyUpdate(o, u).changeType == o.changeType
    ensures u.changeType.Put? ==> Some(ApplyUpdate(o, u).changeType) == u.changeType.value
  {
  }

  /** A quantity field's `ge=0` bound: absent, or non-negative. */
  predicate NonNegativeQty(q: Option<int>) {
    q.None? || q.value >= 0
  }

  /** A duration field's `ge=0` bound. */
  predicate NonNegativeMinutes(t: Option<Decimal>) {
    t.None? || DecimalValue(t.value) >= 0.0
  }

  predicate ValidChangeType(c: string) {
    c == "INSERT" || c == "UPDATE" || c == "DELETE"
  }

  /** The constraints `MESOperationBase` puts on the fields every operation carries. */
  predicate ValidBase(o: Operation) {
    && |o.orderNo| >= 1
    && o.assetId > 0
    && |o.operationNo| >= 1
    && NonNegativeQty(o.qtyDesired)
    && NonNegativeQty(o.qtyProcessed)
    && NonNegativeQty(o.qtyScrap)
    && NonNegativeMinutes(o.tTargetProcessingMin)
    && NonNegativeMinutes(o.tTargetSetupMin)
    && NonNegativeMinutes(o.tTargetLeadMin)
    && NonNegativeMinutes(o.tActualProcessingMin)
    && NonNegativeMinutes(o.tActualSetupMin)
    && NonNegativeMinutes(o.tActualLeadMin)
  }

  /** `MESOperationCreate`: the base constraints plus a change type from the literal set. */
  predicate ValidCreate(o: Operation) {
    ValidBase(o) && ValidChangeType(o.changeType)
  }

  predicate PatchQtyOk(p: Patch<Option<int>>) {
    p.Keep? || NonNegativeQty(p.value)
  }

  predicate PatchMinutesOk(p: Patch<Option<Decimal>>) {
    p.Keep? || NonNegativeMinutes(p.value)
  }

  /** `MESOperationUpdate`: every field optional, with the same bounds as on create. */
  predicate ValidUpdate(u: OperationUpdate) {
    && PatchQtyOk(u.qtyDesired)
    && PatchQtyOk(u.qtyProcessed)
    && PatchQtyOk(u.qtyScrap)
    && PatchMinutesOk(u.tTargetProcessingMin)
    && PatchMinutesOk(u.tTargetSetupMin)
    && PatchMinutesOk(u.tTargetLeadMin)
    && PatchMinutesOk(u.tActualProcessingMin)
    && PatchMinutesOk(u.tActualSetupMin)
    && PatchMinutesOk(u.tActualLeadMin)
    && (u.changeType.Keep? || u.changeType.value.None? || ValidChangeType(u.changeType.value.value))
  }

  /** A schema-valid update keeps a schema-valid row schema-valid: the key is not patchable. */
  lemma ValidUpdatePreservesValidBase(o: Operation, u: OperationUpdate)
    requires ValidBase(o) && ValidUpdate(u) && !ViolatesNotNull(u)
    ensures ValidBase(ApplyUpdate(o, u))
  {
  }

  /** A schema-valid row never has a negative quantity, so the rules' sign checks cannot fire on it. */
  lemma ValidBaseQuantities(o: Operation)
    requires ValidBase(o)
    ensures OrZero(o.qtyDesired) >= 0 && OrZero(o.qtyProcessed) >= 0 && OrZero(o.qtyScrap) >= 0
  {
  }
}
