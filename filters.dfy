/**
 * The enhanced service's `OperationFilters` and the conjunctive WHERE clause
 * `_apply_filters` builds from it. Every clause is evaluated in SQL's
 * three-valued logic, since a comparison with a NULL column is neither true
 * nor false, and a row is kept only when every clause is true.
 */
module Filters {
  import opened Wrappers
  import opened Operations

  /** The request's filter object; `None` is a filter the client left out. */
  datatype OperationFilters = OperationFilters(
    status: Option<seq<string>>,
    workplaceName: Option<string>,
    workplaceGroup: Option<string>,
    orderPriority: Option<string>,
    plannedStartAfter: Option<int>,
    plannedStartBefore: Option<int>,
    hasRemainingQty: Option<bool>,
    isOverdue: Option<bool>,
    activityCode: Option<string>)

  /** A filter object with every field left out. */
  const NoFilters: OperationFilters :=
    OperationFilters(None, None, None, None, None, None, None, None, None)

  /** SQL truth values. */
  datatype Tri = True3 | False3 | Unknown

  function And3(a: Tri, b: Tri): Tri {
    if a == False3 || b == False3 then False3
    else if a == True3 && b == True3 then True3
    else Unknown
  }

  function Or3(a: Tri, b: Tri): Tri {
    if a == True3 || b == True3 then True3
    else if a == False3 && b == False3 then False3
    else Unknown
  }

  function FromBool(b: bool): Tri {
    if b then True3 else False3
  }

  /** `column == value` against a nullable column. */
  function Eq3<T(==)>(column: Option<T>, value: T): Tri {
    if column.None? then Unknown else FromBool(column.value == value)
  }

  /** `column != value` against a nullable column. */
  function Ne3<T(==)>(column: Option<T>, value: T): Tri {
    if column.None? then Unknown else FromBool(column.value != value)
  }

  /** `a < b` where either side may be NULL. */
  function Lt3(a: Option<int>, b: Option<int>): Tri {
    if a.None? || b.None? then Unknown else FromBool(a.value < b.value)
  }

  /** `a <= b` where either side may be NULL. */
  function Le3(a: Option<int>, b: Option<int>): Tri {
    if a.None? || b.None? then Unknown else FromBool(a.value <= b.value)
  }

  /** `column IS NULL`. */
  function IsNull3<T>(column: Option<T>): Tri {
    FromBool(column.None?)
  }

  /**
   * SQL `s LIKE p` with `%` (any run of characters) and `_` (any one
   * character); no escape character, case-sensitive.
   */
  function Like(s: string, p: string): bool
    decreases |s| + |p|
  {
    if p == [] then s == []
    else if p[0] == '%' then Like(s, p[1..]) || (s != [] && Like(s[1..], p))
    else s != [] && (p[0] == '_' || p[0] == s[0]) && Like(s[1..], p[1..])
  }

  predicate NoWildcards(p: string) {
    forall i | 0 <= i < |p| :: p[i] != '%' && p[i] != '_'
  }

  /** `%` alone matches every string. */
  lemma {:induction false} LikeAnything(s: string)
    ensures Like(s, "%")
    decreases |s|
  {
    if s != [] {
      LikeAnything(s[1..]);
    }
  }

  /**
   * `workplace_name LIKE group || '%'` is the prefix test the filter intends,
   * as long as the group contains no wildcard of its own.
   */
  lemma {:induction false} LikePrefix(s: string, g: string)
    requires NoWildcards(g)
    ensures Like(s, g + "%") <==> g <= s
    decreases |g|
  {
    if g == [] {
      assert g + "%" == "%";
      LikeAnything(s);
    } else {
      var p := g + "%";
      assert p[0] == g[0] && p[0] != '%';
      assert p[1..] == g[1..] + "%";
      if s != [] {
        LikePrefix(s[1..], g[1..]);
        assert g <= s <==> g[0] == s[0] && g[1..] <= s[1..];
      }
    }
  }

  /** `if filters.status:` — a non-empty list keeps rows whose status is `IN` it. */
  function StatusClause(o: Operation, f: OperationFilters): Tri {
    if f.status.Some? && |f.status.value| > 0 then
      (if o.status.None? then Unknown else FromBool(o.status.value in f.status.value))
    else True3
  }

  function WorkplaceClause(o: Operation, f: OperationFilters): Tri {
    if f.workplaceName.Some? && f.workplaceName.value != "" then Eq3(o.workplaceName, f.workplaceName.value)
    else True3
  }

  function GroupClause(o: Operation, f: OperationFilters): Tri {
    if f.workplaceGroup.Some? && f.workplaceGroup.value != "" then
      (if o.workplaceName.None? then Unknown
       else FromBool(Like(o.workplaceName.value, f.workplaceGroup.value + "%")))
    else True3
  }

  function ActivityClause(o: Operation, f: OperationFilters): Tri {
    if f.activityCode.Some? && f.activityCode.value != "" then Eq3(o.activityCode, f.activityCode.value)
    else True3
  }

  /** Both bounds of the planned-start window are inclusive; a datetime is always truthy. */
  function WindowClause(o: Operation, f: OperationFilters): Tri {
    And3(if f.plannedStartAfter.Some? then Le3(f.plannedStartAfter, o.plannedStartAt) else True3,
         if f.plannedStartBefore.Some? then Le3(o.plannedStartAt, f.plannedStartBefore) else True3)
  }

  function RemainingClause(o: Operation, f: OperationFilters): Tri {
    match f.hasRemainingQty
    case None => True3
    case Some(true) => Or3(Lt3(o.qtyProcessed, o.qtyDesired), IsNull3(o.qtyProcessed))
    case Some(false) => Le3(o.qtyDesired, o.qtyProcessed)
  }

  function OverdueClause(o: Operation, f: OperationFilters, now: int): Tri {
    match f.isOverdue
    case None => True3
    case Some(true) => And3(Lt3(o.plannedEndAt, Some(now)), Ne3(o.status, "FINISHED"))
    case Some(false) => Or3(Le3(Some(now), o.plannedEndAt), Eq3(o.status, "FINISHED"))
  }

  /** `_apply_filters`: a row is kept when every clause is true (`order_priority` is never applied). */
  predicate Matches(o: Operation, f: OperationFilters, now: int) {
    && StatusClause(o, f) == True3
    && WorkplaceClause(o, f) == True3
    && GroupClause(o, f) == True3
    && ActivityClause(o, f) == True3
    && WindowClause(o, f) == True3
    && RemainingClause(o, f) == True3
    && OverdueClause(o, f, now) == True3
  }

  /** An empty filter object keeps every row. */
  lemma NoFiltersMatchEverything(o: Operation, now: int)
    ensures Matches(o, NoFilters, now)
  {
  }

  /**
   * What each clause means in plain terms: a NULL column never satisfies a
   * filter on it, except `has_remaining_qty`, which admits a NULL processed
   * quantity explicitly.
   */
  lemma MatchesMeaning(o: Operation, f: OperationFilters, now: int)
    ensures StatusClause(o, f) == True3 <==>
              (f.status.Some? && |f.status.value| > 0 ==> o.status.Some? && o.status.value in f.status.value)
    ensures WorkplaceClause(o, f) == True3 <==>
              (f.workplaceName.Some? && f.workplaceName.value != "" ==> o.workplaceName == f.workplaceName)
    ensures ActivityClause(o, f) == True3 <==>
              (f.activityCode.Some? && f.activityCode.value != "" ==> o.activityCode == f.activityCode)
    ensures WindowClause(o, f) == True3 <==>
              (f.plannedStartAfter.Some? ==> o.plannedStartAt.Some? && f.plannedStartAfter.value <= o.plannedStartAt.value)
              && (f.plannedStartBefore.Some? ==> o.plannedStartAt.Some? && o.plannedStartAt.value <= f.plannedStartBefore.value)
    ensures f.hasRemainingQty == Some(true) ==>
              (RemainingClause(o, f) == True3 <==>
                 o.qtyProcessed.None? || (o.qtyDesired.Some? && o.qtyProcessed.value < o.qtyDesired.value))
    ensures f.hasRemainingQty == Some(false) ==>
              (RemainingClause(o, f) == True3 <==>
                 o.qtyProcessed.Some? && o.qtyDesired.Some? && o.qtyProcessed.value >= o.qtyDesired.value)
    ensures f.isOverdue == Some(true) ==>
              (OverdueClause(o, f, now) == True3 <==>
                 o.plannedEndAt.Some? && o.plannedEndAt.value < now && o.status.Some? && o.status.value != "FINISHED")
    ensures f.isOverdue == Some(false) ==>
              (OverdueClause(o, f, now) == True3 <==>
                 (o.plannedEndAt.Some? && o.plannedEndAt.value >= now) || o.status == Some("FINISHED"))
  {
  }

  /** The workplace-group filter is a prefix test whenever the group has no wildcard. */
  lemma GroupMeaning(o: Operation, f: OperationFilters)
    requires f.workplaceGroup.Some? && NoWildcards(f.workplaceGroup.value)
    ensures GroupClause(o, f) == True3 <==>
              (f.workplaceGroup.value != "" ==> o.workplaceName.Some? && f.workplaceGroup.value <= o.workplaceName.value)
  {
    if f.workplaceGroup.value != "" && o.workplaceName.Some? {
      LikePrefix(o.workplaceName.value, f.workplaceGroup.value);
    }
  }

  /**
   * `has_remaining_qty=true` and `=false` split the rows whose quantities are
   * both set; a row with a processed but no desired quantity is in neither.
   */
  lemma RemainingSplit(o: Operation, f: OperationFilters, g: OperationFilters)
    requires f.hasRemainingQty == Some(true) && g.hasRemainingQty == Some(false)
    ensures !(RemainingClause(o, f) == True3 && RemainingClause(o, g) == True3)
    ensures o.qtyProcessed.Some? && o.qtyDesired.Some? ==>
              RemainingClause(o, f) == True3 || RemainingClause(o, g) == True3
    ensures o.qtyProcessed.Some? && o.qtyDesired.None? ==>
              RemainingClause(o, f) != True3 && RemainingClause(o, g) != True3
  {
  }

  /**
   * `is_overdue=true` and `=false` never both keep a row, and together keep
   * every row whose planned end and status are both set.
   */
  lemma OverdueSplit(o: Operation, f: OperationFilters, g: OperationFilters, now: int)
    requires f.isOverdue == Some(true) && g.isOverdue == Some(false)
    ensures !(OverdueClause(o, f, now) == True3 && OverdueClause(o, g, now) == True3)
    ensures o.plannedEndAt.Some? && o.status.Some? ==>
              OverdueClause(o, f, now) == True3 || OverdueClause(o, g, now) == True3
  {
  }

  /**
   * The dashboard's Python overdue test: a datetime is truthy, and a NULL
   * status compares unequal to "FINISHED".
   */
  predicate OverdueInSummary(o: Operation, now: int) {
    o.plannedEndAt.Some? && o.plannedEndAt.value < now && o.status != Some("FINISHED")
  }

  /**
   * Every row the `is_overdue` filter keeps is overdue on the dashboard, but a
   * past-due row with a NULL status is counted there and filtered out here.
   */
  lemma OverdueFilterWithinSummary(o: Operation, f: OperationFilters, now: int)
    requires f.isOverdue == Some(true)
    ensures OverdueClause(o, f, now) == True3 ==> OverdueInSummary(o, now)
    ensures o.status.None? && o.plannedEndAt.Some? && o.plannedEndAt.value < now ==>
              OverdueInSummary(o, now) && OverdueClause(o, f, now) != True3
  {
  }
}
