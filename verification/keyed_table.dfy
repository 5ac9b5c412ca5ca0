/**
 The persistence primitive all three tables share: rows kept in ascending
 surrogate-id order, and `UPDATE … SET patch WHERE key = k RETURNING *`
 followed by taking the first returned row. The table, the key column and
 the field merge are parameters, so the primitive is written once.
 */
module KeyedTable {
  import opened Optional
  import opened Sequences

  /** The rows are listed in strictly ascending surrogate id (`ORDER BY id`). */
  predicate AscendingIds<R>(rows: seq<R>, id: R -> int) {
    forall i, j :: 0 <= i < j < |rows| ==> id(rows[i]) < id(rows[j])
  }

  /** No two rows share a business key. */
  predicate UniqueKeys<R, K(==)>(rows: seq<R>, key: R -> K) {
    forall i, j :: 0 <= i < j < |rows| ==> key(rows[i]) != key(rows[j])
  }

  /** Some row carries the key `k`. */
  predicate HasKey<R, K(==)>(rows: seq<R>, key: R -> K, k: K) {
    exists i :: 0 <= i < |rows| && key(rows[i]) == k
  }

  /** `UPDATE … SET patch WHERE key = k`: every matching row is merged, every other row is kept. */
  function SetWhere<R, K(==), P>(rows: seq<R>, key: R -> K, k: K, merge: (R, P) -> R, patch: P): (r: seq<R>)
    ensures |r| == |rows|
    ensures forall i :: 0 <= i < |rows| && key(rows[i]) != k ==> r[i] == rows[i]
    ensures forall i :: 0 <= i < |rows| && key(rows[i]) == k ==> r[i] == merge(rows[i], patch)
  {
    if |rows| == 0 then []
    else [if key(rows[0]) == k then merge(rows[0], patch) else rows[0]]
         + SetWhere(rows[1..], key, k, merge, patch)
  }

  /** The table after the statement, and the first row of its `RETURNING` list, if any. */
  datatype Outcome<R> = Outcome(rows: seq<R>, returned: Option<R>)

  /**
   The statement plus `const [updated] = …returning()`: the returned rows are the
   updated ones in table order, so the first is the post-update image of the first match.
   */
  function UpdateReturning<R, K(==), P>(rows: seq<R>, key: R -> K, k: K, merge: (R, P) -> R, patch: P): (o: Outcome<R>)
    ensures |o.rows| == |rows|
    ensures forall i :: 0 <= i < |rows| && key(rows[i]) != k ==> o.rows[i] == rows[i]
    ensures forall i :: 0 <= i < |rows| && key(rows[i]) == k ==> o.rows[i] == merge(rows[i], patch)
    ensures o.returned.None? <==> !HasKey(rows, key, k)
    ensures o.returned.None? ==> o.rows == rows
    ensures o.returned.Some? ==> o.returned.value in o.rows
    ensures forall i :: 0 <= i < |rows| && key(rows[i]) == k && (forall j :: 0 <= j < i ==> key(rows[j]) != k)
              ==> o.returned == Some(merge(rows[i], patch))
  {
    var updated := SetWhere(rows, key, k, merge, patch);
    match FirstIndex(rows, (r: R) => key(r) == k)
    case None => Outcome(updated, None)
    case Some(i) => Outcome(updated, Some(updated[i]))
  }

  /**
   Re-running an update is harmless when the merge is: the second run either
   re-merges rows that are already merged or finds no row at all.
   */
  lemma UpdateIdempotent<R, K, P>(rows: seq<R>, key: R -> K, k: K, merge: (R, P) -> R, patch: P)
    requires forall r :: merge(merge(r, patch), patch) == merge(r, patch)
    ensures var once := UpdateReturning(rows, key, k, merge, patch).rows;
            UpdateReturning(once, key, k, merge, patch).rows == once
  {
    var once := UpdateReturning(rows, key, k, merge, patch).rows;
    var twice := UpdateReturning(once, key, k, merge, patch).rows;
    forall i | 0 <= i < |rows|
      ensures twice[i] == once[i]
    {
      if key(rows[i]) == k && key(once[i]) == k {
        assert once[i] == merge(rows[i], patch);
      }
    }
  }

  /** When the merge is idempotent and leaves a matching row's key `k`, a second run also returns the same row. */
  lemma UpdateReturnsSameRowTwice<R, K, P>(rows: seq<R>, key: R -> K, k: K, merge: (R, P) -> R, patch: P)
    requires forall r :: merge(merge(r, patch), patch) == merge(r, patch)
    requires forall r :: key(r) == k ==> key(merge(r, patch)) == k
    ensures var once := UpdateReturning(rows, key, k, merge, patch);
            UpdateReturning(once.rows, key, k, merge, patch).returned == once.returned
  {
    var once := UpdateReturning(rows, key, k, merge, patch);
    var twice := UpdateReturning(once.rows, key, k, merge, patch);
    var first := FirstIndex(rows, (r: R) => key(r) == k);
    if first.None? {
      assert once.rows == rows;
    } else {
      var i := first.value;
      assert once.returned == Some(merge(rows[i], patch));
      assert once.rows[i] == merge(rows[i], patch);
      assert key(once.rows[i]) == k;
      forall j | 0 <= j < i
        ensures key(once.rows[j]) != k
      {
        assert key(rows[j]) != k;
      }
      assert twice.returned == Some(merge(once.rows[i], patch));
    }
  }

  /** An update whose merge keeps ids keeps the rows in ascending-id order. */
  lemma UpdateKeepsIdOrder<R, K, P>(rows: seq<R>, id: R -> int, key: R -> K, k: K, merge: (R, P) -> R, patch: P)
    requires AscendingIds(rows, id)
    requires forall r :: id(merge(r, patch)) == id(r)
    ensures AscendingIds(UpdateReturning(rows, key, k, merge, patch).rows, id)
  {
    var after := UpdateReturning(rows, key, k, merge, patch).rows;
    assert forall i :: 0 <= i < |rows| ==> id(after[i]) == id(rows[i]);
  }

  /** An update whose merge leaves a matching row's key `k` keeps the keys unique. */
  lemma UpdateKeepsKeysUnique<R, K, P>(rows: seq<R>, key: R -> K, k: K, merge: (R, P) -> R, patch: P)
    requires UniqueKeys(rows, key)
    requires forall r :: key(r) == k ==> key(merge(r, patch)) == k
    ensures UniqueKeys(UpdateReturning(rows, key, k, merge, patch).rows, key)
  {
    var after := UpdateReturning(rows, key, k, merge, patch).rows;
    assert forall i :: 0 <= i < |rows| ==> key(after[i]) == key(rows[i]);
  }
}
