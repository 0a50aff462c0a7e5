/**
 * The CRUD layer over the `mes_operations` table: an in-memory table keyed by
 * `(order_no, asset_id, operation_no)` whose calls are atomic (a call that
 * raises leaves the table as it was), and the ordered, windowed listings the
 * list endpoints return.
 */
module Store {
  import opened Wrappers
  import opened PyText
  import opened MesErrors
  import opened Operations

  /** `a and b and a > b` over two optional quantities. */
  predicate Exceeds(a: Option<int>, b: Option<int>) {
    Present(a) && Present(b) && a.value > b.value
  }

  /** The CRUD layer's own quantity message. */
  function CrudExceedText(processed: int, desired: int): string {
    "qty_processed (" + IntToString(processed) + ") cannot exceed qty_desired (" + IntToString(desired) + ")"
  }

  /** The `ORDER BY` column lists the list queries use. */
  datatype Ordering = ByOrderThenOperation | ByOrderAssetOperation

  /** `a` may precede `b` in the ordering (code-point collation of the text columns). */
  predicate Before(ord: Ordering, a: Operation, b: Operation) {
    if a.orderNo != b.orderNo then LexLess(a.orderNo, b.orderNo)
    else match ord
      case ByOrderThenOperation => LexLessEq(a.operationNo, b.operationNo)
      case ByOrderAssetOperation =>
        if a.assetId != b.assetId then a.assetId < b.assetId else LexLessEq(a.operationNo, b.operationNo)
  }

  lemma BeforeTotal(ord: Ordering, a: Operation, b: Operation)
    ensures Before(ord, a, b) || Before(ord, b, a)
  {
    LexLessTotal(a.orderNo, b.orderNo);
    LexLessTotal(a.operationNo, b.operationNo);
  }

  lemma BeforeTransitive(ord: Ordering, a: Operation, b: Operation, c: Operation)
    requires Before(ord, a, b) && Before(ord, b, c)
    ensures Before(ord, a, c)
  {
    if a.orderNo != b.orderNo && b.orderNo != c.orderNo {
      LexLessTransitive(a.orderNo, b.orderNo, c.orderNo);
      LexLessIrreflexive(a.orderNo);
    } else if a.orderNo == b.orderNo && b.orderNo == c.orderNo {
      if a.operationNo != b.operationNo && b.operationNo != c.operationNo
        && LexLess(a.operationNo, b.operationNo) && LexLess(b.operationNo, c.operationNo) {
        LexLessTransitive(a.operationNo, b.operationNo, c.operationNo);
      }
    }
  }

  predicate SortedBy(ord: Ordering, s: seq<Operation>) {
    forall i, j | 0 <= i < j < |s| :: Before(ord, s[i], s[j])
  }

  /** No row appears twice. */
  predicate Distinct(s: seq<Operation>) {
    forall x | x in s :: multiset(s)[x] == 1
  }

  lemma DistinctPairwise(s: seq<Operation>, i: int, j: int)
    requires Distinct(s) && 0 <= i < j < |s|
    ensures s[i] != s[j]
  {
    assert s == s[..i] + [s[i]] + s[i + 1..j] + [s[j]] + s[j + 1..];
    var m := multiset(s);
    assert m == multiset(s[..i]) + multiset{s[i]} + multiset(s[i + 1..j]) + multiset{s[j]} + multiset(s[j + 1..]);
    assert s[i] in s;
    assert m[s[i]] >= 1 + multiset{s[j]}[s[i]];
  }

  function Insert(ord: Ordering, x: Operation, s: seq<Operation>): (r: seq<Operation>)
    ensures multiset(r) == multiset(s) + multiset{x}
  {
    if s == [] then [x]
    else if Before(ord, x, s[0]) then [x] + s
    else
      assert s == [s[0]] + s[1..];
      [s[0]] + Insert(ord, x, s[1..])
  }

  lemma {:induction false} InsertSorted(ord: Ordering, x: Operation, s: seq<Operation>)
    requires SortedBy(ord, s)
    ensures SortedBy(ord, Insert(ord, x, s))
    decreases |s|
  {
    if s == [] {
    } else if Before(ord, x, s[0]) {
      forall y | y in s
        ensures Before(ord, x, y)
      {
        var j :| 0 <= j < |s| && s[j] == y;
        if j > 0 {
          BeforeTransitive(ord, x, s[0], s[j]);
        }
      }
      ConsSorted(ord, x, s);
    } else {
      BeforeTotal(ord, x, s[0]);
      InsertSorted(ord, x, s[1..]);
      var r := Insert(ord, x, s[1..]);
      forall y | y in r
        ensures Before(ord, s[0], y)
      {
        assert y in multiset(r);
        if y != x {
          assert y in multiset(s[1..]);
          var k :| 0 <= k < |s[1..]| && s[1..][k] == y;
          assert s[k + 1] == y;
        }
      }
      ConsSorted(ord, s[0], r);
    }
  }

  /** A sorted list stays sorted behind a row that may precede each of its rows. */
  lemma ConsSorted(ord: Ordering, a: Operation, r: seq<Operation>)
    requires SortedBy(ord, r)
    requires forall y | y in r :: Before(ord, a, y)
    ensures SortedBy(ord, [a] + r)
  {
    var res := [a] + r;
    forall i, j | 0 <= i < j < |res|
      ensures Before(ord, res[i], res[j])
    {
      if i > 0 {
        assert res[i] == r[i - 1] && res[j] == r[j - 1];
      } else {
        assert res[j] == r[j - 1] && res[j] in r;
      }
    }
  }

  /** The insertion sort behind `ORDER BY`: sorted, and a permutation of its input. */
  method SortRows(ord: Ordering, s: seq<Operation>) returns (t: seq<Operation>)
    ensures SortedBy(ord, t)
    ensures multiset(t) == multiset(s)
  {
    t := [];
    var i := 0;
    while i < |s|
      invariant 0 <= i <= |s|
      invariant SortedBy(ord, t)
      invariant multiset(t) == multiset(s[..i])
    {
      InsertSorted(ord, s[i], t);
      t := Insert(ord, s[i], t);
      assert s[..i + 1] == s[..i] + [s[i]];
      i := i + 1;
    }
    assert s[..|s|] == s;
  }

  /**
   * `all` lists the rows under `keys`, each exactly once, in `ord` order.
   * Rows that tie on every ordering column may come in any order, as in SQL.
   */
  predicate Listing(rows: map<Key, Operation>, keys: set<Key>, ord: Ordering, all: seq<Operation>) {
    SortedBy(ord, all) && Enumerates(rows, keys, all)
  }

  /** `all` holds the rows under `keys`, each exactly once, in no particular order. */
  predicate Enumerates(rows: map<Key, Operation>, keys: set<Key>, all: seq<Operation>) {
    && Distinct(all)
    && (forall o | o in all :: o.KeyOf() in keys && o.KeyOf() in rows && rows[o.KeyOf()] == o)
    && (forall k | k in keys && k in rows :: rows[k] in all)
  }

  /** An enumeration of a set of stored keys is as long as the set is large. */
  lemma {:induction false} EnumerationCount(rows: map<Key, Operation>, keys: set<Key>, all: seq<Operation>)
    requires Enumerates(rows, keys, all)
    requires keys <= rows.Keys && forall k | k in rows :: rows[k].KeyOf() == k
    ensures |all| == |keys|
    decreases |all|
  {
    if all == [] {
      assert forall k | k in keys :: rows[k] in all;
    } else {
      var last := all[|all| - 1];
      var rest := all[..|all| - 1];
      var smaller := keys - {last.KeyOf()};
      assert all == rest + [last];
      assert multiset(all) == multiset(rest) + multiset{last};
      assert last !in rest by {
        assert multiset(all)[last] == 1;
      }
      forall x | x in rest
        ensures multiset(rest)[x] == 1
      {
        assert multiset(all)[x] == 1;
      }
      forall o | o in rest
        ensures o.KeyOf() in smaller
      {
        assert o in all && o != last;
        assert rows[o.KeyOf()] == o && rows[last.KeyOf()] == last;
      }
      forall k | k in smaller && k in rows
        ensures rows[k] in rest
      {
        assert rows[k] in all;
        assert rows[k] != last;
      }
      EnumerationCount(rows, smaller, rest);
    }
  }

  /** `.offset(skip).limit(limit)`. */
  function Window(s: seq<Operation>, skip: nat, limit: nat): (r: seq<Operation>)
    ensures |r| <= limit
    ensures |r| == if skip >= |s| then 0 else if skip + limit <= |s| then limit else |s| - skip
    ensures forall i | 0 <= i < |r| :: r[i] == s[skip + i]
  {
    var lo := if skip < |s| then skip else |s|;
    var hi := if skip + limit < |s| then skip + limit else |s|;
    s[lo..hi]
  }

  /** A window of a sorted listing is sorted and lists distinct stored rows. */
  lemma WindowOfListing(rows: map<Key, Operation>, keys: set<Key>, ord: Ordering, all: seq<Operation>,
                        skip: nat, limit: nat)
    requires Listing(rows, keys, ord, all)
    ensures SortedBy(ord, Window(all, skip, limit))
    ensures forall o | o in Window(all, skip, limit) :: o.KeyOf() in keys && rows[o.KeyOf()] == o
    ensures forall i, j | 0 <= i < j < |Window(all, skip, limit)| ::
              Window(all, skip, limit)[i] != Window(all, skip, limit)[j]
  {
    var w := Window(all, skip, limit);
    forall i, j | 0 <= i < j < |w|
      ensures w[i] != w[j]
    {
      DistinctPairwise(all, skip + i, skip + j);
    }
  }

  /** `get_operations`' filter: a truthy status or workplace must match exactly. */
  predicate ListMatches(o: Operation, status: Option<string>, workplaceName: Option<string>) {
    && (status.Some? && status.value != "" ==> o.status == status)
    && (workplaceName.Some? && workplaceName.value != "" ==> o.workplaceName == workplaceName)
  }

  /** The keys of the rows `get_operations` keeps. */
  function CrudMatches(rows: map<Key, Operation>, status: Option<string>, workplaceName: Option<string>): (r: set<Key>)
    ensures r <= rows.Keys
    ensures forall k | k in rows :: k in r <==> ListMatches(rows[k], status, workplaceName)
  {
    set k | k in rows && ListMatches(rows[k], status, workplaceName)
  }

  class OperationStore {
    var rows: map<Key, Operation>

    /** Every row is stored under its own key. */
    ghost predicate Valid()
      reads this
    {
      forall k | k in rows :: rows[k].KeyOf() == k
    }

    constructor()
      ensures rows == map[] && Valid()
    {
      rows := map[];
    }

    /** `get_operation`: the row whose three key columns equal the arguments. */
    function GetOperation(orderNo: string, assetId: int, operationNo: string): (r: Option<Operation>)
      reads this
      ensures r.Some? <==> Key(orderNo, assetId, operationNo) in rows
      ensures Valid() && r.Some? ==>
                r.value.orderNo == orderNo && r.value.assetId == assetId && r.value.operationNo == operationNo
      ensures r.Some? ==> r.value == rows[Key(orderNo, assetId, operationNo)]
    {
      var k := Key(orderNo, assetId, operationNo);
      if k in rows then Some(rows[k]) else None
    }

    /**
     * `create_operation`: a processed quantity above the desired one is refused,
     * an existing key is a primary-key violation, and otherwise the row is added.
     */
    method CreateOperation(op: Operation) returns (r: Result<Operation, Failure>)
      requires Valid()
      modifies this
      ensures Valid()
      ensures Exceeds(op.qtyProcessed, op.qtyDesired) ==>
                r == Failure(Mes(InvalidQuantity(CrudExceedText(op.qtyProcessed.value, op.qtyDesired.value))))
      ensures !Exceeds(op.qtyProcessed, op.qtyDesired) && op.KeyOf() in old(rows) ==> r == Failure(IntegrityError)
      ensures r.Failure? ==> rows == old(rows)
      ensures r.Success? <==> !Exceeds(op.qtyProcessed, op.qtyDesired) && op.KeyOf() !in old(rows)
      ensures r.Success? ==> r.value == op && rows == old(rows)[op.KeyOf() := op]
    {
      if Exceeds(op.qtyProcessed, op.qtyDesired) {
        return Failure(Mes(InvalidQuantity(CrudExceedText(op.qtyProcessed.value, op.qtyDesired.value))));
      }
      if op.KeyOf() in rows {
        return Failure(IntegrityError);
      }
      rows := rows[op.KeyOf() := op];
      return Success(op);
    }

    /**
     * `update_operation`: `None` for a missing key; the processed/desired check
     * runs on the merged view (supplied value, else the stored one); then every
     * supplied field is written, and nulling a NOT NULL column fails at commit.
     */
    method UpdateOperation(key: Key, u: OperationUpdate) returns (r: Result<Option<Operation>, Failure>)
      requires Valid()
      modifies this
      ensures Valid()
      ensures key !in old(rows) <==> r == Success(None)
      ensures key in old(rows) && Exceeds(u.qtyProcessed.Over(old(rows)[key].qtyProcessed),
                                          u.qtyDesired.Over(old(rows)[key].qtyDesired)) ==>
                r == Failure(Mes(InvalidQuantity(CrudExceedText(u.qtyProcessed.Over(old(rows)[key].qtyProcessed).value,
                                                                u.qtyDesired.Over(old(rows)[key].qtyDesired).value))))
      ensures (key in old(rows) && !Exceeds(u.qtyProcessed.Over(old(rows)[key].qtyProcessed),
                                            u.qtyDesired.Over(old(rows)[key].qtyDesired))
               && ViolatesNotNull(u)) ==> r == Failure(IntegrityError)
      ensures r.Failure? ==>
                key in old(rows)
                && (ViolatesNotNull(u)
                    || Exceeds(u.qtyProcessed.Over(old(rows)[key].qtyProcessed), u.qtyDesired.Over(old(rows)[key].qtyDesired)))
      ensures r.Failure? || r == Success(None) ==> rows == old(rows)
      ensures r.Success? && r.value.Some? ==>
                key in old(rows) && !ViolatesNotNull(u)
                && r.value.value == ApplyUpdate(old(rows)[key], u)
                && rows == old(rows)[key := r.value.value]
    {
      if key !in rows {
        return Success(None);
      }
      var existing := rows[key];
      var processed := u.qtyProcessed.Over(existing.qtyProcessed);
      var desired := u.qtyDesired.Over(existing.qtyDesired);
      if Exceeds(processed, desired) {
        return Failure(Mes(InvalidQuantity(CrudExceedText(processed.value, desired.value))));
      }
      if ViolatesNotNull(u) {
        return Failure(IntegrityError);
      }
      var updated := ApplyUpdate(existing, u);
      rows := rows[key := updated];
      return Success(Some(updated));
    }

    /** `delete_operation`: `True` exactly when a row was there to remove. */
    method DeleteOperation(key: Key) returns (deleted: bool)
      requires Valid()
      modifies this
      ensures Valid()
      ensures deleted <==> key in old(rows)
      ensures rows == old(rows) - {key}
      ensures GetOperation(key.orderNo, key.assetId, key.operationNo).None?
    {
      deleted := key in rows;
      rows := rows - {key};
    }

    /** The rows under `keys`, each once, in the order a scan of the table meets them. */
    method Collect(keys: set<Key>) returns (all: seq<Operation>)
      requires Valid() && keys <= rows.Keys
      ensures Enumerates(rows, keys, all)
      ensures |all| == |keys|
    {
      var todo := keys;
      all := [];
      while todo != {}
        invariant todo <= keys
        invariant Distinct(all)
        invariant forall o | o in all :: o.KeyOf() in keys - todo && o.KeyOf() in rows && rows[o.KeyOf()] == o
        invariant forall k | k in keys - todo :: rows[k] in all
        decreases |todo|
      {
        var k :| k in todo;
        assert rows[k] !in all;
        all := all + [rows[k]];
        todo := todo - {k};
      }
      EnumerationCount(rows, keys, all);
    }

    /** The rows under `keys`, each once, sorted by `ord`. */
    method Query(keys: set<Key>, ord: Ordering) returns (all: seq<Operation>)
      requires Valid() && keys <= rows.Keys
      ensures Listing(rows, keys, ord, all)
      ensures |all| == |keys|
    {
      var listed := Collect(keys);
      all := SortRows(ord, listed);
      assert forall o :: o in all <==> o in listed by {
        forall o
          ensures o in all <==> o in listed
        {
          assert o in all <==> o in multiset(all);
          assert o in listed <==> o in multiset(listed);
        }
      }
    }

    /**
     * `get_operations`: the matching rows ordered by `(order_no, operation_no)`,
     * then `skip` and `limit`.
     */
    method GetOperations(skip: nat, limit: nat, status: Option<string>, workplaceName: Option<string>)
      returns (r: seq<Operation>)
      requires Valid()
      ensures |r| <= limit
      ensures exists all :: Listing(rows, CrudMatches(rows, status, workplaceName), ByOrderThenOperation, all)
                            && r == Window(all, skip, limit)
    {
      var all := Query(CrudMatches(rows, status, workplaceName), ByOrderThenOperation);
      r := Window(all, skip, limit);
    }
  }

  /** A listing of a crud query holds stored rows that pass its filter, in order. */
  lemma CrudListingMeaning(rows: map<Key, Operation>, status: Option<string>, workplaceName: Option<string>,
                           all: seq<Operation>, skip: nat, limit: nat)
    requires Listing(rows, CrudMatches(rows, status, workplaceName), ByOrderThenOperation, all)
    ensures forall o | o in Window(all, skip, limit) :: o in rows.Values && ListMatches(o, status, workplaceName)
    ensures forall i, j | 0 <= i < j < |Window(all, skip, limit)| ::
              LexLessEq(Window(all, skip, limit)[i].orderNo, Window(all, skip, limit)[j].orderNo)
  {
    var keys := CrudMatches(rows, status, workplaceName);
    WindowOfListing(rows, keys, ByOrderThenOperation, all, skip, limit);
    var w := Window(all, skip, limit);
    forall o | o in w
      ensures o in rows.Values && ListMatches(o, status, workplaceName)
    {
      assert rows[o.KeyOf()] == o;
    }
  }
}
