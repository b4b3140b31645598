/**
 * Generic operations on a table held as a sequence of rows in insertion
 * order: the set of its keys, lookup by key, filtering by a predicate, and
 * an `UPDATE ... WHERE` that rewrites every matching row.
 */
module Rows {
  import opened Nullable

  /** The keys present in `rows`. */
  ghost function Keys<T>(rows: seq<T>, key: T -> int): set<int> {
    set i | 0 <= i < |rows| :: key(rows[i])
  }

  /**
   * Keys drawn from a serial sequence: every key is at least 1 and below
   * the next value the sequence hands out, and keys grow in insertion order
   * (so no two rows share a key).
   */
  ghost predicate SerialKeyed<T>(rows: seq<T>, key: T -> int, next: int) {
    && (forall i :: 0 <= i < |rows| ==> 1 <= key(rows[i]) < next)
    && (forall i, j :: 0 <= i < j < |rows| ==> key(rows[i]) < key(rows[j]))
  }

  /** The position of the row with key `k`, if there is one. */
  function FindKey<T>(rows: seq<T>, key: T -> int, k: int): (r: Option<nat>)
    ensures r.Some? <==> k in Keys(rows, key)
    ensures r.Some? ==> r.value < |rows| && key(rows[r.value]) == k
    ensures r.None? ==> forall i :: 0 <= i < |rows| ==> key(rows[i]) != k
  {
    if |rows| == 0 then None
    else if key(rows[|rows| - 1]) == k then Some(|rows| - 1)
    else
      var r := FindKey(rows[..|rows| - 1], key, k);
      assert forall i :: 0 <= i < |rows| - 1 ==> rows[..|rows| - 1][i] == rows[i];
      r
  }

  /** `rows + [x]` has the keys of `rows` and the key of `x`. */
  lemma KeysAppend<T>(rows: seq<T>, key: T -> int, x: T)
    ensures Keys(rows + [x], key) == Keys(rows, key) + {key(x)}
  {
    var s := rows + [x];
    forall k | k in Keys(s, key) ensures k in Keys(rows, key) + {key(x)} {
      var i :| 0 <= i < |s| && key(s[i]) == k;
      if i < |rows| {
        assert s[i] == rows[i];
      }
    }
    forall k | k in Keys(rows, key) ensures k in Keys(s, key) {
      var i :| 0 <= i < |rows| && key(rows[i]) == k;
      assert s[i] == rows[i];
    }
    assert key(s[|rows|]) == key(x);
  }

  /** Rewriting rows without touching their keys leaves the key set alone. */
  lemma KeysPreserved<T>(before: seq<T>, after: seq<T>, key: T -> int)
    requires |before| == |after|
    requires forall i :: 0 <= i < |before| ==> key(after[i]) == key(before[i])
    ensures Keys(after, key) == Keys(before, key)
  {
    forall k | k in Keys(after, key) ensures k in Keys(before, key) {
      var i :| 0 <= i < |after| && key(after[i]) == k;
    }
    forall k | k in Keys(before, key) ensures k in Keys(after, key) {
      var i :| 0 <= i < |before| && key(before[i]) == k;
      assert key(after[i]) == k;
    }
  }

  /** Inserting a row keyed by the next serial value keeps the keys serial. */
  lemma SerialKeyedAppend<T>(rows: seq<T>, key: T -> int, next: int, x: T)
    requires SerialKeyed(rows, key, next)
    requires key(x) == next && next >= 1
    ensures SerialKeyed(rows + [x], key, next + 1)
  {
    var s := rows + [x];
    assert forall i :: 0 <= i < |rows| ==> s[i] == rows[i];
  }

  /** Every row's reference column names one of `keys` (a foreign key holds). */
  ghost predicate References<T>(rows: seq<T>, ref: T -> int, keys: set<int>) {
    forall i :: 0 <= i < |rows| ==> ref(rows[i]) in keys
  }

  lemma ReferencesAppend<T>(rows: seq<T>, ref: T -> int, keys: set<int>, x: T)
    requires References(rows, ref, keys) && ref(x) in keys
    ensures References(rows + [x], ref, keys)
  {
    assert forall i :: 0 <= i < |rows| ==> (rows + [x])[i] == rows[i];
  }

  lemma ReferencesWiden<T>(rows: seq<T>, ref: T -> int, keys: set<int>, wider: set<int>)
    requires References(rows, ref, keys) && keys <= wider
    ensures References(rows, ref, wider)
  {
  }

  /** Rewriting rows without touching their reference column keeps the foreign key. */
  lemma ReferencesPreserved<T>(before: seq<T>, after: seq<T>, ref: T -> int, keys: set<int>)
    requires References(before, ref, keys)
    requires |before| == |after|
    requires forall i :: 0 <= i < |before| ==> ref(after[i]) == ref(before[i])
    ensures References(after, ref, keys)
  {
  }

  /** Every row satisfies `p`. */
  ghost predicate All<T>(rows: seq<T>, p: T -> bool) {
    forall i :: 0 <= i < |rows| ==> p(rows[i])
  }

  lemma AllAppend<T>(rows: seq<T>, p: T -> bool, x: T)
    requires All(rows, p) && p(x)
    ensures All(rows + [x], p)
  {
    assert forall i :: 0 <= i < |rows| ==> (rows + [x])[i] == rows[i];
  }

  /** Every row that carries a reference names one of `keys` (a nullable foreign key holds). */
  ghost predicate OptionalReferences<T>(rows: seq<T>, ref: T -> Option<int>, keys: set<int>) {
    forall i :: 0 <= i < |rows| && ref(rows[i]).Some? ==> ref(rows[i]).value in keys
  }

  lemma OptionalReferencesAppend<T>(rows: seq<T>, ref: T -> Option<int>, keys: set<int>, x: T)
    requires OptionalReferences(rows, ref, keys) && ref(x).None?
    ensures OptionalReferences(rows + [x], ref, keys)
  {
    assert forall i :: 0 <= i < |rows| ==> (rows + [x])[i] == rows[i];
  }

  lemma OptionalReferencesWiden<T>(rows: seq<T>, ref: T -> Option<int>, keys: set<int>, wider: set<int>)
    requires OptionalReferences(rows, ref, keys) && keys <= wider
    ensures OptionalReferences(rows, ref, wider)
  {
  }

  /** Rows that are kept, or rewritten to rows satisfying `p`, keep `All(_, p)`. */
  lemma AllUpdated<T>(before: seq<T>, after: seq<T>, p: T -> bool)
    requires All(before, p)
    requires |before| == |after|
    requires forall i :: 0 <= i < |before| ==> after[i] == before[i] || p(after[i])
    ensures All(after, p)
  {
  }

  /** Rewriting rows without touching their keys keeps the keys serial. */
  lemma SerialKeyedPreserved<T>(before: seq<T>, after: seq<T>, key: T -> int, next: int)
    requires SerialKeyed(before, key, next)
    requires |before| == |after|
    requires forall i :: 0 <= i < |before| ==> key(after[i]) == key(before[i])
    ensures SerialKeyed(after, key, next)
  {
  }

  /**
   * The rows of `s` that satisfy `keep`, in their original order (the
   * `WHERE` clause of a `SELECT`).
   */
  function Filter<T(!new)>(s: seq<T>, keep: T -> bool): (r: seq<T>)
    ensures |r| <= |s|
    ensures forall x :: x in r <==> x in s && keep(x)
  {
    if |s| == 0 then []
    else
      assert s == [s[0]] + s[1..];
      if keep(s[0]) then [s[0]] + Filter(s[1..], keep) else Filter(s[1..], keep)
  }

  /** Filtering distributes over concatenation: it keeps the order of rows. */
  lemma {:induction false} FilterAppend<T(!new)>(s: seq<T>, t: seq<T>, keep: T -> bool)
    ensures Filter(s + t, keep) == Filter(s, keep) + Filter(t, keep)
  {
    if |s| == 0 {
      assert s + t == t;
    } else {
      assert (s + t)[0] == s[0];
      assert (s + t)[1..] == s[1..] + t;
      FilterAppend(s[1..], t, keep);
    }
  }

  /** Appending one row appends it to the filtered rows exactly when it is kept. */
  lemma FilterSnoc<T(!new)>(s: seq<T>, x: T, keep: T -> bool)
    ensures Filter(s + [x], keep) == Filter(s, keep) + (if keep(x) then [x] else [])
  {
    FilterAppend(s, [x], keep);
    assert [x][1..] == [];
  }

  /** A filter that every row passes returns the table unchanged. */
  lemma {:induction false} FilterKeepsAll<T(!new)>(s: seq<T>, keep: T -> bool)
    requires forall i :: 0 <= i < |s| ==> keep(s[i])
    ensures Filter(s, keep) == s
  {
    if |s| > 0 {
      assert forall i :: 0 <= i < |s[1..]| ==> s[1..][i] == s[i + 1];
      FilterKeepsAll(s[1..], keep);
      assert s == [s[0]] + s[1..];
    }
  }

  /**
   * `UPDATE table SET ... WHERE matches RETURNING *`: every row satisfying
   * `matches` is replaced by `change` of it, every other row is kept, and
   * `first` is the first row returned, or `None` when no row matched.
   */
  method UpdateWhere<T>(rows: seq<T>, matches: T -> bool, change: T -> T)
    returns (updated: seq<T>, first: Option<T>)
    ensures |updated| == |rows|
    ensures forall i :: 0 <= i < |rows| ==>
              updated[i] == if matches(rows[i]) then change(rows[i]) else rows[i]
    ensures first.None? <==> forall i :: 0 <= i < |rows| ==> !matches(rows[i])
    ensures first.Some? ==> exists i :: 0 <= i < |rows| && matches(rows[i]) && first.value == change(rows[i])
  {
    updated, first := [], None;
    var n := 0;
    while n < |rows|
      invariant 0 <= n <= |rows|
      invariant |updated| == n
      invariant forall i :: 0 <= i < n ==>
                  updated[i] == if matches(rows[i]) then change(rows[i]) else rows[i]
      invariant first.None? <==> forall i :: 0 <= i < n ==> !matches(rows[i])
      invariant first.Some? ==> exists i :: 0 <= i < n && matches(rows[i]) && first.value == change(rows[i])
    {
      var row := rows[n];
      if matches(row) {
        updated := updated + [change(row)];
        if first.None? {
          first := Some(change(row));
        }
      } else {
        updated := updated + [row];
      }
      n := n + 1;
    }
  }

}
