/**
 * Ordering helpers for `order_by` on the stored rows: the reverse of a
 * table, and a stable sort on an integer key, largest key first.
 */
module Ordering {

  /** The rows last-first: newest first when `t` is in insertion order. */
  function Reverse<T>(s: seq<T>): (r: seq<T>)
    ensures |r| == |s|
    ensures forall i :: 0 <= i < |s| ==> r[i] == s[|s| - 1 - i]
  {
    if s == [] then [] else [s[|s| - 1]] + Reverse(s[..|s| - 1])
  }

  lemma {:induction false} ReverseMultiset<T>(s: seq<T>)
    ensures multiset(Reverse(s)) == multiset(s)
  {
    if s != [] {
      ReverseMultiset(s[..|s| - 1]);
      assert s == s[..|s| - 1] + [s[|s| - 1]];
    }
  }

  /** Put `x` before the first row whose key is no larger than its own. */
  function InsertDesc<T>(x: T, s: seq<T>, key: T -> int): seq<T> {
    if s == [] || key(x) >= key(s[0]) then [x] + s
    else [s[0]] + InsertDesc(x, s[1..], key)
  }

  /** Largest key first; rows with equal keys keep their order in `s`. */
  function SortDesc<T>(s: seq<T>, key: T -> int): seq<T> {
    if s == [] then [] else InsertDesc(s[0], SortDesc(s[1..], key), key)
  }

  predicate Descending<T>(s: seq<T>, key: T -> int) {
    forall i, j :: 0 <= i < j < |s| ==> key(s[i]) >= key(s[j])
  }

  lemma {:induction false} InsertDescMultiset<T>(x: T, s: seq<T>, key: T -> int)
    ensures multiset(InsertDesc(x, s, key)) == multiset(s) + multiset{x}
  {
    if !(s == [] || key(x) >= key(s[0])) {
      InsertDescMultiset(x, s[1..], key);
      assert s == [s[0]] + s[1..];
    }
  }

  lemma {:induction false} InsertDescAtMost<T>(x: T, s: seq<T>, key: T -> int, bound: int)
    requires key(x) <= bound && forall k :: 0 <= k < |s| ==> key(s[k]) <= bound
    ensures forall k :: 0 <= k < |InsertDesc(x, s, key)| ==> key(InsertDesc(x, s, key)[k]) <= bound
  {
    if !(s == [] || key(x) >= key(s[0])) {
      var rest := s[1..];
      InsertDescAtMost(x, rest, key, bound);
      var r := [s[0]] + InsertDesc(x, rest, key);
      forall k | 0 < k < |r| ensures key(r[k]) <= bound {
        assert r[k] == InsertDesc(x, rest, key)[k - 1];
      }
    }
  }

  lemma {:induction false} InsertDescSorted<T>(x: T, s: seq<T>, key: T -> int)
    requires Descending(s, key)
    ensures Descending(InsertDesc(x, s, key), key)
  {
    if !(s == [] || key(x) >= key(s[0])) {
      var rest := s[1..];
      InsertDescSorted(x, rest, key);
      InsertDescAtMost(x, rest, key, key(s[0]));
      var ins := InsertDesc(x, rest, key);
      var r := [s[0]] + ins;
      forall i, j | 0 <= i < j < |r| ensures key(r[i]) >= key(r[j]) {
        assert r[j] == ins[j - 1];
        if i > 0 { assert r[i] == ins[i - 1]; }
      }
    }
  }

  /** The sorted rows are a permutation of the rows, largest key first. */
  lemma {:induction false} SortDescFacts<T>(s: seq<T>, key: T -> int)
    ensures Descending(SortDesc(s, key), key)
    ensures multiset(SortDesc(s, key)) == multiset(s)
    ensures |SortDesc(s, key)| == |s|
  {
    if s != [] {
      SortDescFacts(s[1..], key);
      InsertDescSorted(s[0], SortDesc(s[1..], key), key);
      InsertDescMultiset(s[0], SortDesc(s[1..], key), key);
      assert s == [s[0]] + s[1..];
    }
  }

  /** A prefix of descending rows is descending. */
  lemma PrefixDescending<T>(s: seq<T>, key: T -> int, n: nat)
    requires Descending(s, key) && n <= |s|
    ensures Descending(s[..n], key)
  {
    var rows := s[..n];
    forall i, j | 0 <= i < j < |rows| ensures key(rows[i]) >= key(rows[j]) {
      assert rows[i] == s[i] && rows[j] == s[j];
    }
  }

  /** In descending rows, nothing after the first `n` has a larger key than anything among them. */
  lemma SuffixAtMostPrefix<T>(s: seq<T>, key: T -> int, n: nat)
    requires Descending(s, key) && n <= |s|
    ensures forall x, y :: x in multiset(s[n..]) && y in s[..n] ==> key(x) <= key(y)
  {
    forall x, y | x in multiset(s[n..]) && y in s[..n] ensures key(x) <= key(y) {
      assert x in s[n..];
      var i :| 0 <= i < |s[n..]| && s[n..][i] == x;
      var j :| 0 <= j < n && s[..n][j] == y;
      assert s[n + i] == x && s[j] == y;
    }
  }

  /** What cutting a sequence after `n` leaves out is its suffix. */
  lemma CutMultiset<T>(s: seq<T>, n: nat)
    requires n <= |s|
    ensures multiset(s) - multiset(s[..n]) == multiset(s[n..])
    ensures multiset(s[..n]) <= multiset(s)
  {
    assert s == s[..n] + s[n..];
  }

  /**
   * Cutting sorted rows to their first `n` keeps `min(|original|, n)` of
   * them, sorted, each no more often than it occurs; every row cut off has
   * a key no larger than any row kept, and nothing is cut when there are
   * no more than `n`.
   */
  lemma TakeSorted<T>(ordered: seq<T>, original: seq<T>, key: T -> int, n: nat)
    requires Descending(ordered, key) && multiset(ordered) == multiset(original) && |ordered| == |original|
    ensures var rows := if |ordered| <= n then ordered else ordered[..n];
            && |rows| == (if |original| <= n then |original| else n)
            && Descending(rows, key)
            && multiset(rows) <= multiset(original)
            && (|original| <= n ==> multiset(rows) == multiset(original))
            && (forall x, y :: x in multiset(original) - multiset(rows) && y in rows ==> key(x) <= key(y))
  {
    var m := if |ordered| <= n then |ordered| else n;
    PrefixDescending(ordered, key, m);
    SuffixAtMostPrefix(ordered, key, m);
    CutMultiset(ordered, m);
    assert ordered[..|ordered|] == ordered;
  }
}
