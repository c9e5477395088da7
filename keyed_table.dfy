/**
 * A database table whose rows are identified by a natural key, and the
 * "delete the rows with this key, then create the new row" update the
 * persistence layer performs for every row it writes.
 */
module KeyedTable {

  /** What `.get(**key)` finds: one row, none, or several (which raises). */
  datatype Lookup<T> = Found(row: T) | NotFound | MultipleFound

  /** The rows whose key is not in `ks`, in table order (`.filter(...)` of what a delete leaves). */
  function WithoutKeys<R(==,!new), K(==,!new)>(t: seq<R>, key: R -> K, ks: set<K>): (r: seq<R>)
    ensures |r| <= |t|
  {
    if t == [] then []
    else WithoutKeys(t[..|t| - 1], key, ks) + (if key(t[|t| - 1]) in ks then [] else [t[|t| - 1]])
  }

  /** The rows whose key is `k`, in table order. */
  function RowsWithKey<R(==,!new), K(==,!new)>(t: seq<R>, key: R -> K, k: K): (r: seq<R>)
    ensures |r| <= |t|
  {
    if t == [] then []
    else RowsWithKey(t[..|t| - 1], key, k) + (if key(t[|t| - 1]) == k then [t[|t| - 1]] else [])
  }

  /** `.filter(**key(row)).delete()` followed by `.create(row)`. */
  function Replace<R(==,!new), K(==,!new)>(t: seq<R>, key: R -> K, row: R): (r: seq<R>)
    ensures |r| > 0 && r[|r| - 1] == row
  {
    WithoutKeys(t, key, {key(row)}) + [row]
  }

  /** Writing `rows` one after the other, each replacing the rows with its key. */
  function SaveRows<R(==,!new), K(==,!new)>(t: seq<R>, key: R -> K, rows: seq<R>): seq<R> {
    if rows == [] then t else Replace(SaveRows(t, key, rows[..|rows| - 1]), key, rows[|rows| - 1])
  }

  /** The keys of a list of rows. */
  function KeysOf<R(!new), K(!new)>(rows: seq<R>, key: R -> K): (ks: set<K>)
    ensures forall i :: 0 <= i < |rows| ==> key(rows[i]) in ks
  {
    if rows == [] then {} else KeysOf(rows[..|rows| - 1], key) + {key(rows[|rows| - 1])}
  }

  /** A key is among those of `rows` exactly when some row carries it. */
  lemma {:induction false} KeysOfMembers<R(!new), K(!new)>(rows: seq<R>, key: R -> K, k: K)
    ensures k in KeysOf(rows, key) <==> exists i :: 0 <= i < |rows| && key(rows[i]) == k
  {
    if rows != [] {
      var front := rows[..|rows| - 1];
      KeysOfMembers(front, key, k);
      if k in KeysOf(front, key) {
        var i :| 0 <= i < |front| && key(front[i]) == k;
        assert rows[i] == front[i];
      }
    }
  }

  /** The position of the last of `rows` that has key `k`. */
  function LastIndexWithKey<R(!new), K(==,!new)>(rows: seq<R>, key: R -> K, k: K): (i: nat)
    requires k in KeysOf(rows, key)
    ensures i < |rows| && key(rows[i]) == k
    ensures forall j :: i < j < |rows| ==> key(rows[j]) != k
  {
    if key(rows[|rows| - 1]) == k then |rows| - 1 else LastIndexWithKey(rows[..|rows| - 1], key, k)
  }

  /** The last of `rows` that has key `k`. */
  function LastWithKey<R(!new), K(==,!new)>(rows: seq<R>, key: R -> K, k: K): (r: R)
    requires k in KeysOf(rows, key)
  {
    rows[LastIndexWithKey(rows, key, k)]
  }

  /** `.get(**k)`: the single row with key `k`, none, or several. */
  function GetByKey<R(==,!new), K(==,!new)>(t: seq<R>, key: R -> K, k: K): (r: Lookup<R>)
    ensures r == NotFound <==> forall x :: x in t ==> key(x) != k
    ensures r.Found? ==> r.row in t && key(r.row) == k
    ensures r.Found? <==> |RowsWithKey(t, key, k)| == 1
    ensures r.Found? ==> r.row == RowsWithKey(t, key, k)[0]
    ensures r == MultipleFound <==> |RowsWithKey(t, key, k)| > 1
  {
    var matches := RowsWithKey(t, key, k);
    RowsWithKeyMembers(t, key, k);
    if matches == [] then NotFound
    else
      assert matches[0] in matches;
      if |matches| == 1 then Found(matches[0])
    else MultipleFound
  }

  /** No key occurs on two rows. */
  ghost predicate OneRowPerKey<R(!new), K(!new)>(t: seq<R>, key: R -> K) {
    forall k :: |RowsWithKey(t, key, k)| <= 1
  }

  /** A delete leaves exactly the rows whose key it does not match. */
  lemma {:induction false} WithoutKeysMembers<R(!new), K(!new)>(t: seq<R>, key: R -> K, ks: set<K>)
    ensures forall x :: x in WithoutKeys(t, key, ks) <==> x in t && key(x) !in ks
  {
    if t != [] {
      var front := t[..|t| - 1];
      WithoutKeysMembers(front, key, ks);
      assert t == front + [t[|t| - 1]];
    }
  }

  /** The rows with key `k` are exactly the table's rows whose key is `k`. */
  lemma {:induction false} RowsWithKeyMembers<R(!new), K(!new)>(t: seq<R>, key: R -> K, k: K)
    ensures forall x :: x in RowsWithKey(t, key, k) <==> x in t && key(x) == k
  {
    if t != [] {
      var front := t[..|t| - 1];
      RowsWithKeyMembers(front, key, k);
      assert t == front + [t[|t| - 1]];
    }
  }

  lemma {:induction false} WithoutKeysAppend<R(!new), K(!new)>(a: seq<R>, b: seq<R>, key: R -> K, ks: set<K>)
    ensures WithoutKeys(a + b, key, ks) == WithoutKeys(a, key, ks) + WithoutKeys(b, key, ks)
  {
    if b == [] {
      assert a + b == a;
    } else {
      var front := b[..|b| - 1];
      assert (a + b)[..|a + b| - 1] == a + front;
      WithoutKeysAppend(a, front, key, ks);
    }
  }

  /** Two deletes are one delete of both key sets. */
  lemma {:induction false} WithoutKeysTwice<R(!new), K(!new)>(t: seq<R>, key: R -> K, a: set<K>, b: set<K>)
    ensures WithoutKeys(WithoutKeys(t, key, a), key, b) == WithoutKeys(t, key, a + b)
  {
    if t != [] {
      var front, last := t[..|t| - 1], t[|t| - 1];
      WithoutKeysTwice(front, key, a, b);
      WithoutKeysAppend(WithoutKeys(front, key, a), if key(last) in a then [] else [last], key, b);
    }
  }

  /** A delete that matches every row leaves nothing. */
  lemma WithoutKeysOfCovered<R(!new), K(!new)>(t: seq<R>, key: R -> K, ks: set<K>)
    requires forall x :: x in t ==> key(x) in ks
    ensures WithoutKeys(t, key, ks) == []
  {
    WithoutKeysMembers(t, key, ks);
  }

  /** The rows written into an empty table carry only the written keys. */
  lemma {:induction false} SavedKeysOnly<R(!new), K(!new)>(key: R -> K, rows: seq<R>)
    ensures forall x :: x in SaveRows([], key, rows) ==> key(x) in KeysOf(rows, key)
  {
    if rows != [] {
      var front := rows[..|rows| - 1];
      SavedKeysOnly(key, front);
      WithoutKeysMembers(SaveRows([], key, front), key, {key(rows[|rows| - 1])});
    }
  }

  /**
   * A save leaves the old rows of untouched keys in place, in order, and
   * puts after them what the same save into an empty table would hold.
   */
  lemma {:induction false} SaveRowsShape<R(!new), K(!new)>(t: seq<R>, key: R -> K, rows: seq<R>)
    ensures SaveRows(t, key, rows) == WithoutKeys(t, key, KeysOf(rows, key)) + SaveRows([], key, rows)
  {
    if rows == [] {
      WithoutKeysOfNone(t, key);
    } else {
      var front, last := rows[..|rows| - 1], rows[|rows| - 1];
      var kf, kl := KeysOf(front, key), {key(last)};
      var sf := SaveRows([], key, front);
      SaveRowsShape(t, key, front);
      DeleteAfterShape(t, key, kf, kl, sf);
      assert SaveRows(t, key, rows) == WithoutKeys(SaveRows(t, key, front), key, kl) + [last];
      assert SaveRows([], key, rows) == WithoutKeys(sf, key, kl) + [last];
    }
  }

  /** Deleting more keys from what a save left: old rows lose both key sets, written rows the new one. */
  lemma DeleteAfterShape<R(!new), K(!new)>(t: seq<R>, key: R -> K, kf: set<K>, kl: set<K>, sf: seq<R>)
    ensures WithoutKeys(WithoutKeys(t, key, kf) + sf, key, kl) == WithoutKeys(t, key, kf + kl) + WithoutKeys(sf, key, kl)
  {
    WithoutKeysAppend(WithoutKeys(t, key, kf), sf, key, kl);
    WithoutKeysTwice(t, key, kf, kl);
  }

  lemma {:induction false} WithoutKeysOfNone<R(!new), K(!new)>(t: seq<R>, key: R -> K)
    ensures WithoutKeys(t, key, {}) == t
  {
    if t != [] {
      WithoutKeysOfNone(t[..|t| - 1], key);
    }
  }

  /** Saving one more row is one more delete-then-create step. */
  lemma SaveRowsSnoc<R(!new), K(!new)>(t: seq<R>, key: R -> K, rows: seq<R>, row: R)
    ensures SaveRows(t, key, rows + [row]) == Replace(SaveRows(t, key, rows), key, row)
  {
    assert (rows + [row])[..|rows|] == rows;
  }

  /** Saving `a` and then `b` is saving `a + b`. */
  lemma {:induction false} SaveRowsAppend<R(!new), K(!new)>(t: seq<R>, key: R -> K, a: seq<R>, b: seq<R>)
    ensures SaveRows(t, key, a + b) == SaveRows(SaveRows(t, key, a), key, b)
  {
    if b == [] {
      assert a + b == a;
    } else {
      var front := b[..|b| - 1];
      assert (a + b)[..|a + b| - 1] == a + front;
      SaveRowsAppend(t, key, a, front);
    }
  }

  /**
   * Saving again replaces rather than appends: a second save whose keys
   * include every key of the first leaves the table as if only the second
   * save had run.
   */
  lemma ResaveReplaces<R(!new), K(!new)>(t: seq<R>, key: R -> K, first: seq<R>, second: seq<R>)
    requires KeysOf(first, key) <= KeysOf(second, key)
    ensures SaveRows(SaveRows(t, key, first), key, second) == SaveRows(t, key, second)
  {
    var ka, kb := KeysOf(first, key), KeysOf(second, key);
    var sa := SaveRows([], key, first);
    SaveRowsShape(t, key, first);
    SaveRowsShape(SaveRows(t, key, first), key, second);
    SavedKeysOnly(key, first);
    DeleteCoveredRows(t, key, ka, kb, sa);
    SaveRowsShape(t, key, second);
  }

  /** Deleting a superset of the written keys from what a save left leaves the untouched old rows only. */
  lemma DeleteCoveredRows<R(!new), K(!new)>(t: seq<R>, key: R -> K, ka: set<K>, kb: set<K>, sa: seq<R>)
    requires ka <= kb
    requires forall x :: x in sa ==> key(x) in ka
    ensures WithoutKeys(WithoutKeys(t, key, ka) + sa, key, kb) == WithoutKeys(t, key, kb)
  {
    DeleteAfterShape(t, key, ka, kb, sa);
    assert ka + kb == kb;
    WithoutKeysOfCovered(sa, key, kb);
  }

  /** Saving the same rows twice is saving them once. */
  lemma SaveRowsIdempotent<R(!new), K(!new)>(t: seq<R>, key: R -> K, rows: seq<R>)
    ensures SaveRows(SaveRows(t, key, rows), key, rows) == SaveRows(t, key, rows)
  {
    ResaveReplaces(t, key, rows, rows);
  }

  lemma {:induction false} RowsWithKeyAppend<R(!new), K(!new)>(a: seq<R>, b: seq<R>, key: R -> K, k: K)
    ensures RowsWithKey(a + b, key, k) == RowsWithKey(a, key, k) + RowsWithKey(b, key, k)
  {
    if b == [] {
      assert a + b == a;
    } else {
      var front := b[..|b| - 1];
      assert (a + b)[..|a + b| - 1] == a + front;
      RowsWithKeyAppend(a, front, key, k);
    }
  }

  /** After a delete, a deleted key has no rows and any other key keeps its rows. */
  lemma {:induction false} RowsWithKeyAfterDelete<R(!new), K(!new)>(t: seq<R>, key: R -> K, ks: set<K>, k: K)
    ensures RowsWithKey(WithoutKeys(t, key, ks), key, k) == if k in ks then [] else RowsWithKey(t, key, k)
  {
    if t != [] {
      var front, last := t[..|t| - 1], t[|t| - 1];
      RowsWithKeyAfterDelete(front, key, ks, k);
      RowsWithKeyAppend(WithoutKeys(front, key, ks), if key(last) in ks then [] else [last], key, k);
    }
  }

  /** After a save, each written key has exactly one row: the last row written with that key. */
  lemma {:induction false} OneRowPerSavedKey<R(!new), K(!new)>(t: seq<R>, key: R -> K, rows: seq<R>, k: K)
    requires k in KeysOf(rows, key)
    ensures RowsWithKey(SaveRows(t, key, rows), key, k) == [LastWithKey(rows, key, k)]
  {
    var front, last := rows[..|rows| - 1], rows[|rows| - 1];
    var before := SaveRows(t, key, front);
    RowsWithKeyAppend(WithoutKeys(before, key, {key(last)}), [last], key, k);
    RowsWithKeyAfterDelete(before, key, {key(last)}, k);
    if key(last) != k {
      OneRowPerSavedKey(t, key, front, k);
    }
  }

  /** A save leaves the rows of every key it does not write exactly as they were. */
  lemma {:induction false} OtherKeysUnchanged<R(!new), K(!new)>(t: seq<R>, key: R -> K, rows: seq<R>, k: K)
    requires k !in KeysOf(rows, key)
    ensures RowsWithKey(SaveRows(t, key, rows), key, k) == RowsWithKey(t, key, k)
  {
    if rows != [] {
      var front, last := rows[..|rows| - 1], rows[|rows| - 1];
      var before := SaveRows(t, key, front);
      RowsWithKeyAppend(WithoutKeys(before, key, {key(last)}), [last], key, k);
      RowsWithKeyAfterDelete(before, key, {key(last)}, k);
      OtherKeysUnchanged(t, key, front, k);
    }
  }

  /** `.get()` after a save finds, for every written key, the last row written with it. */
  lemma LookupAfterSave<R(!new), K(!new)>(t: seq<R>, key: R -> K, rows: seq<R>, k: K)
    requires k in KeysOf(rows, key)
    ensures GetByKey(SaveRows(t, key, rows), key, k) == Found(LastWithKey(rows, key, k))
  {
    OneRowPerSavedKey(t, key, rows, k);
  }

  /** When the rows written carry pairwise different keys, `.get()` afterwards finds each of them. */
  lemma LookupAfterSaveDistinct<R(!new), K(!new)>(t: seq<R>, key: R -> K, rows: seq<R>, j: int)
    requires 0 <= j < |rows|
    requires forall a, b :: 0 <= a < b < |rows| ==> key(rows[a]) != key(rows[b])
    ensures GetByKey(SaveRows(t, key, rows), key, key(rows[j])) == Found(rows[j])
  {
    LookupAfterSave(t, key, rows, key(rows[j]));
  }

  /** Saving rows with the same keys, position by position, as an earlier save undoes that earlier save. */
  lemma ResaveSameKeys<R(!new), K(!new)>(t: seq<R>, key: R -> K, first: seq<R>, second: seq<R>)
    requires |first| == |second|
    requires forall i :: 0 <= i < |first| ==> key(first[i]) == key(second[i])
    ensures SaveRows(SaveRows(t, key, first), key, second) == SaveRows(t, key, second)
  {
    forall k | k in KeysOf(first, key) ensures k in KeysOf(second, key) {
      KeysOfMembers(first, key, k);
    }
    ResaveReplaces(t, key, first, second);
  }

  /** A table with at most one row per key keeps that property through any save. */
  lemma SaveKeepsOneRowPerKey<R(!new), K(!new)>(t: seq<R>, key: R -> K, rows: seq<R>)
    requires OneRowPerKey(t, key)
    ensures OneRowPerKey(SaveRows(t, key, rows), key)
  {
    forall k ensures |RowsWithKey(SaveRows(t, key, rows), key, k)| <= 1 {
      if k in KeysOf(rows, key) {
        OneRowPerSavedKey(t, key, rows, k);
      } else {
        OtherKeysUnchanged(t, key, rows, k);
      }
    }
  }
}
