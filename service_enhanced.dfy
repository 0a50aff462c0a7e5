/**
 * `MESOperationServiceEnhanced`: filtered pagination, batch update with
 * per-row failure collection, the dashboard summary, the state-machine
 * driven `transition_state`, and the initial-state check on `create`.
 *
 * The class derives from the abstract `BaseService`, not from the plain
 * service, so its `create`, `update` and `delete` end in abstract methods
 * whose bodies are `pass`: they answer `None` and write nothing. Those
 * members are modelled as written; the `...Intended` members beside them
 * forward to the plain service, as the class evidently means to.
 */
module EnhancedService {
  import opened Wrappers
  import opened PyText
  import opened PyValues
  import opened MesErrors
  import opened Operations
  import opened Store
  import opened Filters
  import opened Service
  import SM = StateMachine

  /** The keys `_apply_filters` keeps. */
  function FilterKeys(rows: map<Key, Operation>, f: OperationFilters, now: int): (r: set<Key>)
    ensures r <= rows.Keys
    ensures forall k | k in rows :: k in r <==> Matches(rows[k], f, now)
  {
    set k | k in rows && Matches(rows[k], f, now)
  }

  /** `if filters:` — a filter object is always truthy, so only a missing one skips filtering. */
  function Effective(filters: Option<OperationFilters>): OperationFilters {
    if filters.Some? then filters.value else NoFilters
  }

  /** `str(list_of_strings)`. */
  function ListRepr(xs: seq<string>): string {
    "[" + QuotedItems(xs) + "]"
  }

  function QuotedItems(xs: seq<string>): string {
    if xs == [] then ""
    else if |xs| == 1 then "'" + xs[0] + "'"
    else "'" + xs[0] + "', " + QuotedItems(xs[1..])
  }

  /**
   * `_validate_state_transition` as `batch_update` runs it: `can_transition`
   * with no context. `None` when the row passes, else the text of the raised
   * error.
   */
  function BatchRowError(o: Operation, u: OperationUpdate): Option<string> {
    if u.status.Put? then
      var current := StatusText(o.status);
      var next := StatusText(u.status.value);
      if SM.CanTransition(current, next, map[]) == Success(true) then None
      else Some(InvalidOperationState(current, "transition to " + next + ". Valid transitions: "
                                               + ListRepr(SM.ValidTransitions(current))).Message())
    else None
  }

  /**
   * With no context every condition checker falls back to its default, so a
   * batch can keep a row's valid status or release a PLANNED row, and change
   * no status in any other way.
   */
  lemma BatchRowErrorMeaning(o: Operation, u: OperationUpdate)
    ensures BatchRowError(o, u).None? <==>
              (|| u.status.Keep?
               || (o.status == u.status.value && o.status.Some? && SM.Parse(o.status.value).Some?)
               || (o.status == Some("PLANNED") && u.status.value == Some("RELEASED")))
  {
    if u.status.Put? {
      var current := StatusText(o.status);
      var next := StatusText(u.status.value);
      var f := SM.Parse(current);
      var t := SM.Parse(next);
      if f.None? || t.None? {
        SM.UnknownStatusNeverFatal(current, next, map[]);
        if o.status == u.status.value && o.status.Some? && SM.Parse(o.status.value).Some? {
          assert false;
        }
        if o.status == Some("PLANNED") && u.status.value == Some("RELEASED") {
          assert false;
        }
      } else if f.value == t.value {
        SM.SelfTransitionAllowed(f.value, map[]);
        assert o.status.Some? && u.status.value.Some? by {
          assert current != "None" && next != "None";
        }
      } else {
        SM.EmptyContextAllowsOnlyRelease(f.value, t.value);
        assert o.status.Some? && u.status.value.Some? by {
          assert current != "None" && next != "None";
        }
      }
    }
  }

  /** One entry of `failed_operations`. */
  datatype FailedUpdate = FailedUpdate(operationKey: string, error: string)

  /** The dictionary `batch_update` returns. */
  datatype BatchResult =
    | NoMatches
    | Updated(count: nat, failedCount: nat, summary: string, failedOperations: seq<FailedUpdate>)

  function SummaryText(count: nat, failed: nat): string {
    "Updated " + IntToString(count) + " operations" + (if failed > 0 then ", " + IntToString(failed) + " failed" else "")
  }

  /** The per-row check of a batch, as a function value. */
  function RowCheck(u: OperationUpdate): Operation -> Option<string> {
    o => BatchRowError(o, u)
  }

  /** Every failure a batch over `keys` can report, when `check` judges each row. */
  function PossibleFailures(rows: map<Key, Operation>, keys: set<Key>, check: Operation -> Option<string>): set<FailedUpdate>
    requires keys <= rows.Keys
  {
    set k | k in keys && check(rows[k]).Some? :: FailedUpdate(KeyLabel(k), check(rows[k]).value)
  }

  /** The table after a committed batch: every matched row that passed gets every supplied field. */
  function BatchApplied(rows: map<Key, Operation>, keys: set<Key>, u: OperationUpdate, check: Operation -> Option<string>)
    : map<Key, Operation>
    requires !ViolatesNotNull(u)
  {
    map k | k in rows :: if k in keys && check(rows[k]).None? then ApplyUpdate(rows[k], u) else rows[k]
  }

  /** `check` refuses every row under `keys`. */
  predicate AllRefused(rows: map<Key, Operation>, keys: set<Key>, check: Operation -> Option<string>)
    requires keys <= rows.Keys
  {
    forall k | k in keys :: check(rows[k]).Some?
  }

  /** `check` refuses no row under `keys`. */
  predicate NoneRefused(rows: map<Key, Operation>, keys: set<Key>, check: Operation -> Option<string>)
    requires keys <= rows.Keys
  {
    forall k | k in keys :: check(rows[k]).None?
  }

  /** The failure entries the loop appends for the rows `s`, in order. */
  function Failures(s: seq<Operation>, check: Operation -> Option<string>): seq<FailedUpdate> {
    if s == [] then []
    else
      var last := s[|s| - 1];
      Failures(s[..|s| - 1], check)
      + (if check(last).Some? then [FailedUpdate(KeyLabel(last.KeyOf()), check(last).value)] else [])
  }

  /** The loop's `updated_count` after the rows `s`. */
  function Passed(s: seq<Operation>, check: Operation -> Option<string>): nat {
    if s == [] then 0 else Passed(s[..|s| - 1], check) + (if check(s[|s| - 1]).None? then 1 else 0)
  }

  /** The table after the loop has assigned the update to each passing row of `s`. */
  function Written(rows: map<Key, Operation>, s: seq<Operation>, u: OperationUpdate, check: Operation -> Option<string>)
    : map<Key, Operation>
    requires !ViolatesNotNull(u)
  {
    if s == [] then rows
    else
      var before := Written(rows, s[..|s| - 1], u, check);
      var last := s[|s| - 1];
      if check(last).None? then before[last.KeyOf() := ApplyUpdate(last, u)] else before
  }

  /** The keys of the rows `s`. */
  function KeysIn(s: seq<Operation>): set<Key> {
    set o | o in s :: o.KeyOf()
  }

  /**
   * Every row is either counted or reported, nothing is counted exactly when
   * every row failed, nothing is reported exactly when every row passed, and
   * each report names a failing row and its error.
   */
  lemma PassedAndFailures(s: seq<Operation>, check: Operation -> Option<string>)
    ensures Passed(s, check) + |Failures(s, check)| == |s|
    ensures Passed(s, check) == 0 <==> forall j | 0 <= j < |s| :: check(s[j]).Some?
    ensures Failures(s, check) == [] <==> forall j | 0 <= j < |s| :: check(s[j]).None?
    ensures forall e | e in Failures(s, check) ::
              exists j | 0 <= j < |s| :: check(s[j]).Some? && e == FailedUpdate(KeyLabel(s[j].KeyOf()), check(s[j]).value)
  {
    PassedFailuresCounts(s, check);
    FailuresNameFailingRows(s, check);
  }

  /** The counting half: one count or one report per row. */
  lemma {:induction false} PassedFailuresCounts(s: seq<Operation>, check: Operation -> Option<string>)
    ensures Passed(s, check) + |Failures(s, check)| == |s|
    ensures Passed(s, check) == 0 <==> forall j | 0 <= j < |s| :: check(s[j]).Some?
    ensures Failures(s, check) == [] <==> forall j | 0 <= j < |s| :: check(s[j]).None?
  {
    if s != [] {
      var init := s[..|s| - 1];
      PassedFailuresCounts(init, check);
      assert forall j | 0 <= j < |init| :: init[j] == s[j];
    }
  }

  /** The reporting half: each report is a failing row's key label and error. */
  lemma {:induction false} FailuresNameFailingRows(s: seq<Operation>, check: Operation -> Option<string>)
    ensures forall e | e in Failures(s, check) ::
              exists j | 0 <= j < |s| :: check(s[j]).Some? && e == FailedUpdate(KeyLabel(s[j].KeyOf()), check(s[j]).value)
  {
    if s != [] {
      var init := s[..|s| - 1];
      FailuresNameFailingRows(init, check);
      var last := |s| - 1;
      forall e | e in Failures(s, check)
        ensures exists j | 0 <= j < |s| :: check(s[j]).Some? && e == FailedUpdate(KeyLabel(s[j].KeyOf()), check(s[j]).value)
      {
        if e in Failures(init, check) {
          var j :| 0 <= j < |init| && check(init[j]).Some? && e == FailedUpdate(KeyLabel(init[j].KeyOf()), check(init[j]).value);
          assert init[j] == s[j];
        } else {
          assert check(s[last]).Some? && e == FailedUpdate(KeyLabel(s[last].KeyOf()), check(s[last]).value);
        }
      }
    }
  }

  /** Assigning the update row by row writes exactly the passing rows, each from its stored value. */
  lemma {:induction false} WrittenApplied(rows: map<Key, Operation>, s: seq<Operation>, u: OperationUpdate,
                                          check: Operation -> Option<string>)
    requires !ViolatesNotNull(u)
    requires forall o | o in s :: o.KeyOf() in rows && rows[o.KeyOf()] == o
    ensures Written(rows, s, u, check) == BatchApplied(rows, KeysIn(s), u, check)
  {
    if s == [] {
      assert KeysIn(s) == {};
    } else {
      var init := s[..|s| - 1];
      var last := s[|s| - 1];
      assert s == init + [last];
      assert forall o | o in init :: o in s;
      WrittenApplied(rows, init, u, check);
      assert KeysIn(s) == KeysIn(init) + {last.KeyOf()};
      BatchAppliedStep(rows, KeysIn(init), last.KeyOf(), u, check);
    }
  }

  /** Handling one more matched row writes that row alone, and only when it passed. */
  lemma BatchAppliedStep(rows: map<Key, Operation>, done: set<Key>, k: Key, u: OperationUpdate,
                         check: Operation -> Option<string>)
    requires !ViolatesNotNull(u) && k in rows
    ensures BatchApplied(rows, done + {k}, u, check) ==
              if check(rows[k]).None? then BatchApplied(rows, done, u, check)[k := ApplyUpdate(rows[k], u)]
              else BatchApplied(rows, done, u, check)
  {
  }

  /** Over an enumeration of the matched keys, the loop's results are facts about those keys. */
  lemma BatchOverEnumeration(rows: map<Key, Operation>, keys: set<Key>, all: seq<Operation>, u: OperationUpdate,
                             check: Operation -> Option<string>)
    requires Enumerates(rows, keys, all) && |all| == |keys| && keys <= rows.Keys
    requires forall k | k in rows :: rows[k].KeyOf() == k
    ensures Passed(all, check) + |Failures(all, check)| == |keys|
    ensures Passed(all, check) == 0 <==> AllRefused(rows, keys, check)
    ensures Failures(all, check) == [] <==> NoneRefused(rows, keys, check)
    ensures forall e | e in Failures(all, check) :: e in PossibleFailures(rows, keys, check)
    ensures !ViolatesNotNull(u) ==> Written(rows, all, u, check) == BatchApplied(rows, keys, u, check)
  {
    PassedAndFailures(all, check);
    EnumeratedKeys(rows, keys, all);
    if !ViolatesNotNull(u) {
      WrittenApplied(rows, all, u, check);
    }
  }

  /** Each matched key is the key of exactly one listed row, and each listed row is stored under its key. */
  lemma EnumeratedKeys(rows: map<Key, Operation>, keys: set<Key>, all: seq<Operation>)
    requires Enumerates(rows, keys, all) && keys <= rows.Keys
    requires forall k | k in rows :: rows[k].KeyOf() == k
    ensures forall k | k in keys :: exists j | 0 <= j < |all| :: all[j] == rows[k]
    ensures forall j | 0 <= j < |all| :: all[j].KeyOf() in keys && rows[all[j].KeyOf()] == all[j]
    ensures KeysIn(all) == keys
  {
    forall k | k in keys
      ensures exists j | 0 <= j < |all| :: all[j] == rows[k]
    {
      assert rows[k] in all;
    }
    forall j | 0 <= j < |all|
      ensures all[j].KeyOf() in keys && rows[all[j].KeyOf()] == all[j]
    {
      assert all[j] in all;
    }
    forall k | k in keys
      ensures k in KeysIn(all)
    {
      assert rows[k] in all && rows[k].KeyOf() == k;
    }
  }

  /**
   * What `batch_update` reports about a scan `all` of the matched rows: the
   * passing rows counted, every failure counted, and the first ten failures
   * shown in scan order (`failed_updates[:10]`).
   */
  ghost predicate ReportsScan(rows: map<Key, Operation>, keys: set<Key>, check: Operation -> Option<string>,
                              res: BatchResult)
    requires res.Updated?
  {
    exists all :: Enumerates(rows, keys, all)
                  && res.count == Passed(all, check)
                  && res.failedCount == |Failures(all, check)|
                  && res.failedOperations == Failures(all, check)[..Min(10, |Failures(all, check)|)]
  }

  /**
   * What `batch_update` reports for the matched `keys`: every key is counted
   * or reported, at most ten failures are shown, the summary sentence, a
   * count of zero exactly when every row was refused and no failure exactly
   * when none was, each failure shown is a matched row's, and the failures
   * shown are the first ten of a scan, in scan order.
   */
  ghost predicate BatchReport(rows: map<Key, Operation>, keys: set<Key>, check: Operation -> Option<string>,
                              res: BatchResult)
    requires keys <= rows.Keys && res.Updated?
  {
    && res.count + res.failedCount == |keys|
    && |res.failedOperations| == Min(10, res.failedCount)
    && res.summary == SummaryText(res.count, res.failedCount)
    && (res.failedCount == 0 <==> NoneRefused(rows, keys, check))
    && (res.count == 0 <==> AllRefused(rows, keys, check))
    && (forall e | e in res.failedOperations :: e in PossibleFailures(rows, keys, check))
    && ReportsScan(rows, keys, check, res)
  }

  /** The loop's count and its failures, cut at ten, over a scan of the matched keys are its report. */
  lemma ScanReported(rows: map<Key, Operation>, keys: set<Key>, all: seq<Operation>, u: OperationUpdate,
                     res: BatchResult)
    requires Enumerates(rows, keys, all) && |all| == |keys| && keys <= rows.Keys
    requires forall k | k in rows :: rows[k].KeyOf() == k
    requires res.Updated? && res.count == Passed(all, RowCheck(u)) && res.failedCount == |Failures(all, RowCheck(u))|
    requires res.summary == SummaryText(res.count, res.failedCount)
    requires res.failedOperations ==
               if |Failures(all, RowCheck(u))| < 10 then Failures(all, RowCheck(u)) else Failures(all, RowCheck(u))[..10]
    ensures BatchReport(rows, keys, RowCheck(u), res)
  {
    var failed := Failures(all, RowCheck(u));
    BatchOverEnumeration(rows, keys, all, u, RowCheck(u));
    assert res.failedOperations == failed[..Min(10, |failed|)];
    forall e | e in res.failedOperations
      ensures e in PossibleFailures(rows, keys, RowCheck(u))
    {
      assert e in failed;
    }
  }

  /** Over a scan of the matched keys, the row-by-row writes are the batch's writes. */
  lemma ScanWritten(rows: map<Key, Operation>, keys: set<Key>, all: seq<Operation>, u: OperationUpdate)
    requires Enumerates(rows, keys, all) && |all| == |keys| && keys <= rows.Keys
    requires forall k | k in rows :: rows[k].KeyOf() == k
    ensures !ViolatesNotNull(u) ==> Written(rows, all, u, RowCheck(u)) == BatchApplied(rows, keys, u, RowCheck(u))
  {
    BatchOverEnumeration(rows, keys, all, u, RowCheck(u));
  }

  function Min(a: int, b: int): int {
    if a < b then a else b
  }

  /** The context `transition_state` passes on: the caller's, with three keys overwritten from the row. */
  function TransitionContext(ctx: map<string, Value>, o: Operation): map<string, Value> {
    ctx["qty_processed" := VInt(OrZero(o.qtyProcessed))]
       ["qty_desired" := VInt(if Present(o.qtyDesired) then o.qtyDesired.value else 1)]
       ["current_status" := if o.status.Some? then VStr(o.status.value) else VNone]
  }

  /** The error `state_machine.transition` raises, if any (its contract, as a function). */
  function TransitionFailure(from: string, to: string, ctx: map<string, Value>): Option<Failure> {
    match SM.CanTransition(from, to, ctx)
    case Failure(e) => Some(e)
    case Success(ok) =>
      if !ok then Some(ValueError("Invalid transition: " + from + " -> " + to))
      else if from == to then Some(ValueError("Transition not found: " + from + " -> " + to))
      else None
  }

  /** The `TypeError` raised by `self.update((order_no, asset_id, operation_no), update_data)`. */
  const UpdateArityText: string :=
    "MESOperationServiceEnhanced.update() missing 2 required positional arguments: 'operation_no' and 'update_data'"

  /** The payload `transition_state` builds: the new status and a first start or end time. */
  function TransitionUpdate(o: Operation, newStatus: string, now: int): OperationUpdate {
    NoChanges.(status := Put(Some(newStatus)),
               actualStartAt := if newStatus == "IN_PROGRESS" && o.actualStartAt.None? then Put(Some(now)) else Keep,
               actualEndAt := if newStatus == "FINISHED" && o.actualEndAt.None? then Put(Some(now)) else Keep)
  }

  /** The overwritten keys hold integers, so `quantity_complete` can no longer raise. */
  lemma TransitionContextNeverRaises(ctx: map<string, Value>, o: Operation, name: string)
    ensures SM.CheckCondition(name, TransitionContext(ctx, o)).Success?
    ensures name == "quantity_complete" ==>
              SM.CheckCondition(name, TransitionContext(ctx, o))
              == Success(OrZero(o.qtyProcessed) >= (if Present(o.qtyDesired) then o.qtyDesired.value else 1))
  {
    var c := TransitionContext(ctx, o);
    assert c["qty_processed"] == VInt(OrZero(o.qtyProcessed));
    assert c["qty_desired"] == VInt(if Present(o.qtyDesired) then o.qtyDesired.value else 1);
    SM.QuantityCompleteMeaning(c, name);
  }

  lemma {:induction false} ConditionsNeverRaise(conditions: seq<string>, ctx: map<string, Value>)
    requires forall c | c in conditions :: SM.CheckCondition(c, ctx).Success?
    ensures SM.ConditionsHold(conditions, ctx).Success?
  {
    if conditions != [] {
      assert conditions[0] in conditions;
      ConditionsNeverRaise(conditions[1..], ctx);
    }
  }

  /**
   * Under the overwritten context the state machine never raises `TypeError`:
   * `transition_state` fails only with not-found or a `ValueError` before it
   * reaches the update.
   */
  lemma TransitionFailureKinds(from: string, to: string, ctx: map<string, Value>, o: Operation)
    ensures TransitionFailure(from, to, TransitionContext(ctx, o)).Some? ==>
              TransitionFailure(from, to, TransitionContext(ctx, o)).value.ValueError?
    ensures TransitionFailure(from, to, TransitionContext(ctx, o)).None? <==>
              SM.CanTransition(from, to, TransitionContext(ctx, o)) == Success(true) && from != to
  {
    var c := TransitionContext(ctx, o);
    if SM.Parse(from).Some? && SM.Parse(to).Some? {
      var f := SM.Parse(from).value;
      var t := SM.Parse(to).value;
      var e := SM.FindEdge(SM.Transitions(f), t);
      if f != t && e.Some? {
        forall n | n in e.value.conditions
          ensures SM.CheckCondition(n, c).Success?
        {
          TransitionContextNeverRaises(ctx, o, n);
        }
        ConditionsNeverRaise(e.value.conditions, c);
      }
    }
  }

  /** A state-machine approved move is an edge of the plain service's table too. */
  lemma ApprovedMoveIsStructural(current: Option<string>, newStatus: string, ctx: map<string, Value>)
    requires TransitionFailure(StatusText(current), newStatus, ctx).None?
    ensures StructuralEdge(current, Some(newStatus))
  {
    var from := StatusText(current);
    var f := SM.Parse(from).value;
    var t := SM.Parse(newStatus).value;
    SM.ParseName(f);
    SM.ParseName(t);
    assert current.Some? by {
      assert from != "None";
    }
    SM.CanTransitionIff(f, t, ctx);
  }

  /**
   * The corrected `transition_state`: after the state machine approves, the
   * update the source builds succeeds on any row with consistent quantities;
   * it sets the new status, stamps a start time only on a first move to
   * IN_PROGRESS and an end time only on a first move to FINISHED.
   */
  lemma TransitionIntendedMeaning(rows: map<Key, Operation>, key: Key, newStatus: string, ctx: map<string, Value>, now: int)
    requires key in rows && QuantityConsistent(rows[key])
    requires TransitionFailure(StatusText(rows[key].status), newStatus, TransitionContext(ctx, rows[key])).None?
    ensures UpdateResult(rows, key, TransitionUpdate(rows[key], newStatus, now)).Success?
    ensures var n := ApplyUpdate(rows[key], TransitionUpdate(rows[key], newStatus, now));
            && n.status == Some(newStatus)
            && n.actualStartAt == (if newStatus == "IN_PROGRESS" && rows[key].actualStartAt.None? then Some(now)
                                   else rows[key].actualStartAt)
            && n.actualEndAt == (if newStatus == "FINISHED" && rows[key].actualEndAt.None? then Some(now)
                                 else rows[key].actualEndAt)
            && n.qtyProcessed == rows[key].qtyProcessed && n.timestampMs == rows[key].timestampMs
  {
    var o := rows[key];
    ApprovedMoveIsStructural(o.status, newStatus, TransitionContext(ctx, o));
    TransitionCheckIff(o.status, Some(newStatus));
  }

  /** A transition record and the row the update wrote. */
  datatype TransitionOutcome = TransitionOutcome(operation: Option<Operation>, record: SM.TransitionRecord)

  /** `operation_key` of the log lines: the row key as text. */
  function KeyLabel(k: Key): string {
    KeyText(k.orderNo, k.assetId, k.operationNo)
  }

  /** Non-negative counters keyed in first-seen order: a Python dict of counts. */
  function Bump<K(==)>(t: seq<(K, nat)>, k: K): seq<(K, nat)> {
    if t == [] then [(k, 1)]
    else if t[0].0 == k then [(k, t[0].1 + 1)] + t[1..]
    else [t[0]] + Bump(t[1..], k)
  }

  function SumCounts<K>(t: seq<(K, nat)>): nat {
    if t == [] then 0 else t[0].1 + SumCounts(t[1..])
  }

  /** `d.get(k, 0)` on a counter dict. */
  function Lookup<K(==)>(t: seq<(K, nat)>, k: K): nat {
    if t == [] then 0 else if t[0].0 == k then t[0].1 else Lookup(t[1..], k)
  }

  /** The keys of a counter dict. */
  function KeysOf<K(==)>(t: seq<(K, nat)>): set<K> {
    if t == [] then {} else {t[0].0} + KeysOf(t[1..])
  }

  /** No key occurs twice. */
  predicate KeysDistinct<K(==)>(t: seq<(K, nat)>) {
    t == [] || (t[0].0 !in KeysOf(t[1..]) && KeysDistinct(t[1..]))
  }

  /** How often `k` occurs in `xs`. */
  function Count<K(==)>(xs: seq<K>, k: K): nat {
    if xs == [] then 0 else Count(xs[..|xs| - 1], k) + (if xs[|xs| - 1] == k then 1 else 0)
  }

  /** The counter dict after counting `xs` in order. */
  function Tally<K(==)>(xs: seq<K>): seq<(K, nat)> {
    if xs == [] then [] else Bump(Tally(xs[..|xs| - 1]), xs[|xs| - 1])
  }

  lemma {:induction false} BumpSum<K>(t: seq<(K, nat)>, k: K)
    ensures SumCounts(Bump(t, k)) == SumCounts(t) + 1
    decreases |t|
  {
    if t != [] && t[0].0 == k {
      assert Bump(t, k)[1..] == t[1..];
    } else if t != [] {
      BumpSum(t[1..], k);
      assert Bump(t, k)[1..] == Bump(t[1..], k);
    }
  }

  lemma {:induction false} BumpLookup<K>(t: seq<(K, nat)>, k: K, j: K)
    ensures Lookup(Bump(t, k), j) == Lookup(t, j) + (if j == k then 1 else 0)
  {
    if t != [] && t[0].0 == k {
      assert Bump(t, k)[1..] == t[1..];
    } else if t != [] {
      BumpLookup(t[1..], k, j);
      assert Bump(t, k)[1..] == Bump(t[1..], k);
    }
  }

  lemma {:induction false} BumpKeys<K>(t: seq<(K, nat)>, k: K)
    ensures KeysOf(Bump(t, k)) == KeysOf(t) + {k}
    ensures KeysDistinct(t) ==> KeysDistinct(Bump(t, k))
  {
    if t != [] && t[0].0 == k {
      assert Bump(t, k)[1..] == t[1..];
    } else if t != [] {
      BumpKeys(t[1..], k);
      assert Bump(t, k)[1..] == Bump(t[1..], k);
    }
  }

  /** The counts add up to the number counted, each key's count is its number of occurrences, and no key repeats. */
  lemma {:induction false} TallyFacts<K>(xs: seq<K>, k: K)
    ensures SumCounts(Tally(xs)) == |xs|
    ensures Lookup(Tally(xs), k) == Count(xs, k)
    ensures KeysDistinct(Tally(xs))
    ensures KeysOf(Tally(xs)) == set x | x in xs
  {
    if xs != [] {
      var init := xs[..|xs| - 1];
      TallyFacts(init, k);
      BumpSum(Tally(init), xs[|xs| - 1]);
      BumpLookup(Tally(init), xs[|xs| - 1], k);
      BumpKeys(Tally(init), xs[|xs| - 1]);
      assert xs == init + [xs[|xs| - 1]];
      assert (set x | x in xs) == (set x | x in init) + {xs[|xs| - 1]};
    }
  }

  /** `operation.workplace_name or "Unknown"`. */
  function WorkplaceLabel(o: Operation): string {
    if o.workplaceName.Some? && o.workplaceName.value != "" then o.workplaceName.value else "Unknown"
  }

  function StatusesOf(ops: seq<Operation>): (r: seq<Option<string>>)
    ensures |r| == |ops| && forall i | 0 <= i < |ops| :: r[i] == ops[i].status
  {
    seq(|ops|, i requires 0 <= i < |ops| => ops[i].status)
  }

  function WorkplacesOf(ops: seq<Operation>): (r: seq<string>)
    ensures |r| == |ops| && forall i | 0 <= i < |ops| :: r[i] == WorkplaceLabel(ops[i])
  {
    seq(|ops|, i requires 0 <= i < |ops| => WorkplaceLabel(ops[i]))
  }

  /** `[op for op in ops if op.status == s]`. */
  function WithStatus(ops: seq<Operation>, s: string): (r: seq<Operation>)
    ensures |r| <= |ops|
    ensures forall o | o in r :: o in ops && o.status == Some(s)
    ensures forall o | o in ops && o.status == Some(s) :: o in r
  {
    if ops == [] then []
    else (if ops[0].status == Some(s) then [ops[0]] else []) + WithStatus(ops[1..], s)
  }

  /** Counting from the front: the head's share plus the tail's count. */
  lemma {:induction false} CountCons<K>(x: K, xs: seq<K>, k: K)
    ensures Count([x] + xs, k) == (if x == k then 1 else 0) + Count(xs, k)
  {
    if xs != [] {
      var init := xs[..|xs| - 1];
      CountCons(x, init, k);
      assert ([x] + xs)[..|[x] + xs| - 1] == [x] + init;
    }
  }

  /** The comprehension keeps as many rows as the status counter counts for `s`. */
  lemma {:induction false} WithStatusCount(ops: seq<Operation>, s: string)
    ensures |WithStatus(ops, s)| == Count(StatusesOf(ops), Some(s))
  {
    if ops != [] {
      WithStatusCount(ops[1..], s);
      assert StatusesOf(ops) == [ops[0].status] + StatusesOf(ops[1..]);
      CountCons(ops[0].status, StatusesOf(ops[1..]), Some(s));
    }
  }

  /** The overdue list comprehension, by count. */
  function OverdueCount(ops: seq<Operation>, now: int): (r: nat)
    ensures r <= |ops|
  {
    if ops == [] then 0 else (if OverdueInSummary(ops[0], now) then 1 else 0) + OverdueCount(ops[1..], now)
  }

  /** `sum(op.t_target_processing_min or 0 for op in ops)`. */
  function PlannedMinutes(ops: seq<Operation>): real {
    if ops == [] then 0.0
    else (if ops[0].tTargetProcessingMin.Some? then DecimalValue(ops[0].tTargetProcessingMin.value) else 0.0)
         + PlannedMinutes(ops[1..])
  }

  /** `sum(op.t_actual_processing_min or 0 for op in ops)`. */
  function ActualMinutes(ops: seq<Operation>): real {
    if ops == [] then 0.0
    else (if ops[0].tActualProcessingMin.Some? then DecimalValue(ops[0].tActualProcessingMin.value) else 0.0)
         + ActualMinutes(ops[1..])
  }

  datatype EfficiencyMetrics = EfficiencyMetrics(
    averageEfficiency: real,
    totalPlannedMinutes: real,
    totalActualMinutes: real,
    finishedOperations: nat)

  /** The summary dictionary; an empty `efficiency_metrics` dict is `None`. */
  datatype Summary = Summary(
    totalOperations: nat,
    byStatus: seq<(Option<string>, nat)>,
    byWorkplace: seq<(string, nat)>,
    efficiencyMetrics: Option<EfficiencyMetrics>,
    inProgressCount: nat,
    overdueCount: nat,
    overduePercentage: real)

  function Efficiency(ops: seq<Operation>): Option<EfficiencyMetrics> {
    var finished := WithStatus(ops, "FINISHED");
    if finished != [] && ActualMinutes(finished) > 0.0 then
      Some(EfficiencyMetrics(PlannedMinutes(finished) / ActualMinutes(finished) * 100.0,
                             PlannedMinutes(finished), ActualMinutes(finished), |finished|))
    else None
  }

  /** The summary of the rows `ops`, at time `now`. */
  function SummaryOf(ops: seq<Operation>, now: int): Summary {
    var overdue := OverdueCount(ops, now);
    Summary(|ops|, Tally(StatusesOf(ops)), Tally(WorkplacesOf(ops)), Efficiency(ops),
            |WithStatus(ops, "IN_PROGRESS")|, overdue,
            if |ops| > 0 then overdue as real / |ops| as real * 100.0 else 0.0)
  }

  /**
   * The dashboard's counts: the status and the workplace counts each add up to
   * the total, no key repeats, every counted key occurs among the rows, and
   * each key's count is its number of occurrences.
   */
  lemma SummaryCounts(ops: seq<Operation>, now: int, s: Option<string>, w: string)
    ensures SumCounts(SummaryOf(ops, now).byStatus) == SummaryOf(ops, now).totalOperations
    ensures SumCounts(SummaryOf(ops, now).byWorkplace) == SummaryOf(ops, now).totalOperations
    ensures Lookup(SummaryOf(ops, now).byStatus, s) == Count(StatusesOf(ops), s)
    ensures Lookup(SummaryOf(ops, now).byWorkplace, w) == Count(WorkplacesOf(ops), w)
    ensures KeysDistinct(SummaryOf(ops, now).byStatus) && KeysDistinct(SummaryOf(ops, now).byWorkplace)
    ensures KeysOf(SummaryOf(ops, now).byStatus) == set o | o in ops :: o.status
    ensures KeysOf(SummaryOf(ops, now).byWorkplace) == set o | o in ops :: WorkplaceLabel(o)
  {
    var sm := SummaryOf(ops, now);
    assert sm.byStatus == Tally(StatusesOf(ops)) && sm.byWorkplace == Tally(WorkplacesOf(ops));
    TallyFacts(StatusesOf(ops), s);
    TallyFacts(WorkplacesOf(ops), w);
    StatusKeys(ops);
    WorkplaceKeys(ops);
  }

  /** The dashboard's `in_progress_count` is the status counter's entry for IN_PROGRESS. */
  lemma InProgressCountIsTally(ops: seq<Operation>, now: int)
    ensures SummaryOf(ops, now).inProgressCount == Lookup(SummaryOf(ops, now).byStatus, Some("IN_PROGRESS"))
  {
    SummaryCounts(ops, now, Some("IN_PROGRESS"), "");
    WithStatusCount(ops, "IN_PROGRESS");
  }

  /** The statuses listed are those of the rows. */
  lemma StatusKeys(ops: seq<Operation>)
    ensures (set x | x in StatusesOf(ops)) == set o | o in ops :: o.status
  {
    var st := StatusesOf(ops);
    forall x | x in st
      ensures x in set o | o in ops :: o.status
    {
      var i :| 0 <= i < |st| && st[i] == x;
      assert ops[i] in ops;
    }
    forall o | o in ops
      ensures o.status in st
    {
      var i :| 0 <= i < |ops| && ops[i] == o;
      assert st[i] == o.status;
    }
  }

  /** The workplace labels listed are those of the rows. */
  lemma WorkplaceKeys(ops: seq<Operation>)
    ensures (set x | x in WorkplacesOf(ops)) == set o | o in ops :: WorkplaceLabel(o)
  {
    var wp := WorkplacesOf(ops);
    forall x | x in wp
      ensures x in set o | o in ops :: WorkplaceLabel(o)
    {
      var i :| 0 <= i < |wp| && wp[i] == x;
      assert ops[i] in ops;
    }
    forall o | o in ops
      ensures WorkplaceLabel(o) in wp
    {
      var i :| 0 <= i < |ops| && ops[i] == o;
      assert wp[i] == WorkplaceLabel(o);
    }
  }

  /** The overdue share is a percentage, and 0 with no rows. */
  lemma SummaryPercentage(ops: seq<Operation>, now: int)
    ensures 0.0 <= SummaryOf(ops, now).overduePercentage <= 100.0
    ensures |ops| == 0 ==> SummaryOf(ops, now).overduePercentage == 0.0
    ensures SummaryOf(ops, now).overdueCount <= SummaryOf(ops, now).totalOperations
  {
    var overdue := OverdueCount(ops, now);
    if |ops| > 0 {
      assert SummaryOf(ops, now).overduePercentage == overdue as real / |ops| as real * 100.0;
      ShareIsPercentage(overdue, |ops|);
    }
  }

  /** A part of a positive whole, as a percentage, lies in [0, 100]. */
  lemma ShareIsPercentage(part: nat, whole: nat)
    requires 0 < whole && part <= whole
    ensures 0.0 <= part as real / whole as real * 100.0 <= 100.0
  {
    var q := part as real / whole as real;
    assert q * whole as real == part as real;
  }

  /** Rows in two different statuses are different rows. */
  lemma {:induction false} WithStatusDisjoint(ops: seq<Operation>, a: string, b: string)
    requires a != b
    ensures |WithStatus(ops, a)| + |WithStatus(ops, b)| <= |ops|
  {
    if ops != [] {
      WithStatusDisjoint(ops[1..], a, b);
    }
  }

  /**
   * The rows counted in progress and the finished rows behind the efficiency
   * metrics never overlap, and the metrics exist only over finished rows with
   * positive actual time.
   */
  lemma SummaryStatusMetrics(ops: seq<Operation>, now: int)
    ensures SummaryOf(ops, now).inProgressCount + |WithStatus(ops, "FINISHED")| <= SummaryOf(ops, now).totalOperations
    ensures SummaryOf(ops, now).efficiencyMetrics.Some? ==>
              && 1 <= SummaryOf(ops, now).efficiencyMetrics.value.finishedOperations
              && SummaryOf(ops, now).inProgressCount + SummaryOf(ops, now).efficiencyMetrics.value.finishedOperations
                 <= SummaryOf(ops, now).totalOperations
              && SummaryOf(ops, now).efficiencyMetrics.value.totalActualMinutes > 0.0
  {
    WithStatusDisjoint(ops, "IN_PROGRESS", "FINISHED");
  }

  /**
   * The loop of `batch_update` over the matched rows: a row that `check`
   * refuses is reported, every other row receives every supplied field (held
   * back here when the batch cannot commit). The service passes `RowCheck(u)`.
   */
  method ApplyBatch(rows: map<Key, Operation>, matching: seq<Operation>, u: OperationUpdate,
                    check: Operation -> Option<string>)
    returns (newRows: map<Key, Operation>, count: nat, failed: seq<FailedUpdate>)
    ensures count == Passed(matching, check) && failed == Failures(matching, check)
    ensures ViolatesNotNull(u) ==> newRows == rows
    ensures !ViolatesNotNull(u) ==> newRows == Written(rows, matching, u, check)
  {
    newRows := rows;
    count := 0;
    failed := [];
    for i := 0 to |matching|
      invariant count == Passed(matching[..i], check) && failed == Failures(matching[..i], check)
      invariant ViolatesNotNull(u) ==> newRows == rows
      invariant !ViolatesNotNull(u) ==> newRows == Written(rows, matching[..i], u, check)
    {
      assert matching[..i + 1][..i] == matching[..i];
      var operation := matching[i];
      var problem := check(operation);
      if problem.Some? {
        failed := failed + [FailedUpdate(KeyLabel(operation.KeyOf()), problem.value)];
      } else {
        if !ViolatesNotNull(u) {
          newRows := newRows[operation.KeyOf() := ApplyUpdate(operation, u)];
        }
        count := count + 1;
      }
    }
    assert matching[..|matching|] == matching;
  }

  /**
   * The loop of `batch_update` over a scan `matching` of the matched keys and
   * its commit: the report, and the table the commit leaves, which is the
   * old one when a nulled NOT NULL column makes the commit fail.
   */
  method RunBatch(rows: map<Key, Operation>, keys: set<Key>, matching: seq<Operation>, u: OperationUpdate)
    returns (r: Result<BatchResult, Failure>, newRows: map<Key, Operation>)
    requires Enumerates(rows, keys, matching) && |matching| == |keys| && keys != {} && keys <= rows.Keys
    requires forall k | k in rows :: rows[k].KeyOf() == k
    ensures r != Success(NoMatches)
    ensures r.Success? ==> BatchReport(rows, keys, RowCheck(u), r.value)
    ensures r.Success? && !ViolatesNotNull(u) ==> newRows == BatchApplied(rows, keys, u, RowCheck(u))
    ensures r.Failure? <==> ViolatesNotNull(u) && !AllRefused(rows, keys, RowCheck(u))
    ensures r.Failure? ==> r.error == IntegrityError
    ensures r.Failure? || ViolatesNotNull(u) ==> newRows == rows
  {
    var written, count, failed := ApplyBatch(rows, matching, u, RowCheck(u));
    var shown := if |failed| < 10 then failed else failed[..10];
    ScanReported(rows, keys, matching, u, Updated(count, |failed|, SummaryText(count, |failed|), shown));
    if ViolatesNotNull(u) && count > 0 {
      return Failure(IntegrityError), rows;
    }
    ScanWritten(rows, keys, matching, u);
    r, newRows := Success(Updated(count, |failed|, SummaryText(count, |failed|), shown)), written;
  }

  class EnhancedOperationService {
    const db: OperationStore
    const plain: OperationService

    constructor(db: OperationStore)
      ensures this.db == db && plain.db == db
    {
      this.db := db;
      plain := new OperationService(db);
    }

    /** `get_operations_paginated(page, size, filters)`: the requested page and the number of matches. */
    method GetOperationsPaginated(page: int, size: nat, filters: Option<OperationFilters>, now: int)
      returns (items: seq<Operation>, total: nat)
      requires db.Valid() && page >= 1
      ensures total == |FilterKeys(db.rows, Effective(filters), now)|
      ensures |items| <= size
      ensures exists all :: Listing(db.rows, FilterKeys(db.rows, Effective(filters), now), ByOrderAssetOperation, all)
                            && items == Window(all, (page - 1) * size, size)
    {
      var keys := FilterKeys(db.rows, Effective(filters), now);
      var all := db.Query(keys, ByOrderAssetOperation);
      total := |all|;
      var skip := (page - 1) * size;
      items := Window(all, skip, size);
    }

    /**
     * `batch_update(filters, updates)`: every matched row is either updated or
     * reported, one failing row does not stop the others, and only the first
     * ten failures are returned. The whole batch commits at the end, so a
     * nulled NOT NULL column on any updated row rolls every row back.
     */
    method BatchUpdate(f: OperationFilters, u: OperationUpdate, now: int) returns (r: Result<BatchResult, Failure>)
      requires db.Valid()
      modifies db
      ensures db.Valid()
      ensures FilterKeys(old(db.rows), f, now) == {} <==> r == Success(NoMatches)
      ensures r.Success? && r.value.Updated? ==> BatchReport(old(db.rows), FilterKeys(old(db.rows), f, now), RowCheck(u), r.value)
      ensures r.Success? && r.value.Updated? && !ViolatesNotNull(u) ==>
                db.rows == BatchApplied(old(db.rows), FilterKeys(old(db.rows), f, now), u, RowCheck(u))
      ensures r.Failure? <==> ViolatesNotNull(u) && !AllRefused(old(db.rows), FilterKeys(old(db.rows), f, now), RowCheck(u))
      ensures r.Failure? ==> r.error == IntegrityError
      ensures r.Failure? || r == Success(NoMatches) || ViolatesNotNull(u) ==> db.rows == old(db.rows)
    {
      var keys := FilterKeys(db.rows, f, now);
      r := UpdateKeys(keys, u);
    }

    /** The body of `batch_update` once the filter query has chosen `keys`. */
    method UpdateKeys(keys: set<Key>, u: OperationUpdate) returns (r: Result<BatchResult, Failure>)
      requires db.Valid() && keys <= db.rows.Keys
      modifies db
      ensures db.Valid()
      ensures keys == {} <==> r == Success(NoMatches)
      ensures r.Success? && r.value.Updated? ==> BatchReport(old(db.rows), keys, RowCheck(u), r.value)
      ensures r.Success? && r.value.Updated? && !ViolatesNotNull(u) ==>
                db.rows == BatchApplied(old(db.rows), keys, u, RowCheck(u))
      ensures r.Failure? <==> ViolatesNotNull(u) && !AllRefused(old(db.rows), keys, RowCheck(u))
      ensures r.Failure? ==> r.error == IntegrityError
      ensures r.Failure? || r == Success(NoMatches) || ViolatesNotNull(u) ==> db.rows == old(db.rows)
    {
      var matching := db.Collect(keys);
      if |matching| == 0 {
        return Success(NoMatches);
      }
      var newRows;
      r, newRows := RunBatch(db.rows, keys, matching, u);
      db.rows := newRows;
    }

    /**
     * `transition_state` as written: not-found and the state machine's
     * `ValueError` come first; any approved move then reaches
     * `self.update(key_tuple, update_data)`, whose arity does not match, so
     * the call always raises and never writes.
     */
    method TransitionState(key: Key, newStatus: string, ctx: map<string, Value>, userId: Option<string>,
                           now: int, failing: set<string>)
      returns (r: Result<TransitionOutcome, Failure>)
      requires db.Valid()
      ensures r.Failure?
      ensures key !in db.rows ==> r == Failure(NotFound(key))
      ensures key in db.rows ==>
                var fail := TransitionFailure(StatusText(db.rows[key].status), newStatus, TransitionContext(ctx, db.rows[key]));
                r == Failure(if fail.Some? then fail.value else TypeError(UpdateArityText))
    {
      var operation := db.GetOperation(key.orderNo, key.assetId, key.operationNo);
      if operation.None? {
        return Failure(NotFound(key));
      }
      var o := operation.value;
      var transitionContext := TransitionContext(ctx, o);
      var result := SM.Transition(StatusText(o.status), newStatus, transitionContext, userId, now, failing);
      if result.Failure? {
        return Failure(result.error);
      }
      var updateData := TransitionUpdate(o, newStatus, now);
      return Failure(TypeError(UpdateArityText));
    }

    /** `transition_state` with the update call corrected to the plain service's `update(key, data)`. */
    method TransitionStateIntended(key: Key, newStatus: string, ctx: map<string, Value>, userId: Option<string>,
                                   now: int, failing: set<string>)
      returns (r: Result<TransitionOutcome, Failure>)
      requires db.Valid() && plain.db == db
      modifies db
      ensures db.Valid()
      ensures key !in old(db.rows) ==> r == Failure(NotFound(key)) && db.rows == old(db.rows)
      ensures key in old(db.rows) ==>
                var o := old(db.rows)[key];
                var fail := TransitionFailure(StatusText(o.status), newStatus, TransitionContext(ctx, o));
                && (fail.Some? ==> r == Failure(fail.value) && db.rows == old(db.rows))
                && (fail.None? ==>
                      var written := UpdateResult(old(db.rows), key, TransitionUpdate(o, newStatus, now));
                      && (r.Success? <==> written.Success?)
                      && (r.Failure? ==> r.error == written.error && db.rows == old(db.rows))
                      && (r.Success? ==>
                            && r.value.operation == written.value
                            && r.value.record.fromState == StatusText(o.status)
                            && r.value.record.toState == newStatus
                            && db.rows == old(db.rows)[key := written.value.value]))
    {
      var operation := db.GetOperation(key.orderNo, key.assetId, key.operationNo);
      if operation.None? {
        return Failure(NotFound(key));
      }
      var o := operation.value;
      var transitionContext := TransitionContext(ctx, o);
      var result := SM.Transition(StatusText(o.status), newStatus, transitionContext, userId, now, failing);
      if result.Failure? {
        return Failure(result.error);
      }
      var updated := plain.Update(key, TransitionUpdate(o, newStatus, now));
      if updated.Failure? {
        return Failure(updated.error);
      }
      return Success(TransitionOutcome(updated.value, result.value));
    }

    /**
     * `create` as written: the initial status must be PLANNED or RELEASED
     * (an omitted status is None and is refused); then the abstract base
     * method answers None without storing anything.
     */
    method Create(op: Operation) returns (r: Result<Option<Operation>, Failure>)
      ensures r.Failure? <==> op.status != Some("PLANNED") && op.status != Some("RELEASED")
      ensures r.Failure? ==>
                r.error == Mes(InvalidOperationState(StatusText(op.status), "create operation with invalid initial state"))
      ensures r.Success? ==> r.value.None?
    {
      var initialStatus := op.status;
      if initialStatus != Some("PLANNED") && initialStatus != Some("RELEASED") {
        return Failure(Mes(InvalidOperationState(StatusText(initialStatus), "create operation with invalid initial state")));
      }
      return Success(None);
    }

    /** `update` as written: the abstract base method answers None and nothing is checked or stored. */
    method Update(key: Key, u: OperationUpdate) returns (r: Option<Operation>)
      ensures r.None?
    {
      return None;
    }

    /** `delete` as written: the abstract base method answers None, neither True nor False. */
    method Delete(key: Key) returns (r: Option<bool>)
      ensures r.None?
    {
      return None;
    }

    /**
     * `create` as intended: an omitted status defaults to PLANNED, only
     * PLANNED or RELEASED are accepted, and the plain service stores the row.
     */
    method CreateIntended(op: Operation) returns (r: Result<Operation, Failure>)
      requires db.Valid() && plain.db == db
      modifies db
      ensures db.Valid()
      ensures op.status.Some? && op.status != Some("PLANNED") && op.status != Some("RELEASED") ==>
                r == Failure(Mes(InvalidOperationState(op.status.value, "create operation with invalid initial state")))
                && db.rows == old(db.rows)
      ensures op.status.None? || op.status == Some("PLANNED") || op.status == Some("RELEASED") ==>
                r == CreateResult(old(db.rows), WithInitialStatus(op))
                && db.rows == AfterWrite(old(db.rows), r, op.KeyOf(), WithInitialStatus(op))
    {
      var initial := WithInitialStatus(op);
      if initial.status != Some("PLANNED") && initial.status != Some("RELEASED") {
        return Failure(Mes(InvalidOperationState(StatusText(initial.status), "create operation with invalid initial state")));
      }
      r := plain.Create(initial);
    }

    /** `update` as intended: the plain service's update. */
    method UpdateIntended(key: Key, u: OperationUpdate) returns (r: Result<Option<Operation>, Failure>)
      requires db.Valid() && plain.db == db
      modifies db
      ensures db.Valid()
      ensures r == UpdateResult(old(db.rows), key, u)
      ensures db.rows == if r.Success? then old(db.rows)[key := r.value.value] else old(db.rows)
    {
      r := plain.Update(key, u);
    }

    /** `delete` as intended: the plain service's delete. */
    method DeleteIntended(key: Key) returns (r: Result<bool, Failure>)
      requires db.Valid() && plain.db == db
      modifies db
      ensures db.Valid()
      ensures r == DeleteResult(old(db.rows), key)
      ensures db.rows == if r == Success(true) then old(db.rows) - {key} else old(db.rows)
    {
      r := plain.Delete(key);
    }

    /**
     * `get_operations_summary(workplace_name, date_filter)`; the date filter is
     * given as the start of its window, already worked out from the clock.
     */
    method GetOperationsSummary(workplaceName: Option<string>, windowStart: Option<int>, now: int) returns (s: Summary)
      requires db.Valid()
      ensures s.totalOperations == |SummaryKeys(db.rows, workplaceName, windowStart)|
      ensures exists ops :: Enumerates(db.rows, SummaryKeys(db.rows, workplaceName, windowStart), ops)
                            && s == SummaryOf(ops, now)
    {
      var keys := SummaryKeys(db.rows, workplaceName, windowStart);
      var ops := db.Collect(keys);
      s := Summarize(ops, now);
    }
  }

  /** An omitted initial status taken as PLANNED. */
  function WithInitialStatus(op: Operation): (r: Operation)
    ensures r.KeyOf() == op.KeyOf()
    ensures r.status == if op.status.None? then Some("PLANNED") else op.status
  {
    if op.status.None? then op.(status := Some("PLANNED")) else op
  }

  /**
   * The create-time default: as written an omitted status is refused, as
   * intended it creates a PLANNED row (when the key is new and the data checks pass).
   */
  lemma OmittedStatusDefault(rows: map<Key, Operation>, op: Operation)
    requires op.status.None?
    requires op.KeyOf() !in rows && CreateCheck(op).None?
    ensures CreateResult(rows, WithInitialStatus(op)) == Success(op.(status := Some("PLANNED")))
  {
  }

  /** The rows the summary counts: a truthy workplace must match, and the planned start must lie in the window. */
  function SummaryKeys(rows: map<Key, Operation>, workplaceName: Option<string>, windowStart: Option<int>): (r: set<Key>)
    ensures r <= rows.Keys
  {
    set k | k in rows
            && (workplaceName.Some? && workplaceName.value != "" ==> rows[k].workplaceName == workplaceName)
            && (windowStart.Some? ==> rows[k].plannedStartAt.Some? && rows[k].plannedStartAt.value >= windowStart.value)
  }

  /** The counting loop of `get_operations_summary`. */
  method Summarize(ops: seq<Operation>, now: int) returns (s: Summary)
    ensures s == SummaryOf(ops, now)
  {
    var byStatus: seq<(Option<string>, nat)> := [];
    var byWorkplace: seq<(string, nat)> := [];
    for i := 0 to |ops|
      invariant byStatus == Tally(StatusesOf(ops[..i]))
      invariant byWorkplace == Tally(WorkplacesOf(ops[..i]))
    {
      assert StatusesOf(ops[..i + 1])[..i] == StatusesOf(ops[..i]);
      assert WorkplacesOf(ops[..i + 1])[..i] == WorkplacesOf(ops[..i]);
      byStatus := Bump(byStatus, ops[i].status);
      byWorkplace := Bump(byWorkplace, WorkplaceLabel(ops[i]));
    }
    assert ops[..|ops|] == ops;
    var overdue := OverdueCount(ops, now);
    s := Summary(|ops|, byStatus, byWorkplace, Efficiency(ops), |WithStatus(ops, "IN_PROGRESS")|, overdue,
                 if |ops| > 0 then overdue as real / |ops| as real * 100.0 else 0.0);
  }
}
