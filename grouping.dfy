/** Group-by folds shared by the dashboard totals and the charts.
    Every fold here runs from the front of the list to the back, as
    `Array.prototype.reduce` does, so each is defined by peeling off the
    LAST element. */
module Grouping {
  import opened Types

  /** The last element of a non-empty list and everything before it. */
  function Init<T>(s: seq<T>): seq<T>
    requires s != []
  {
    s[..|s| - 1]
  }

  function Last<T>(s: seq<T>): T
    requires s != []
  {
    s[|s| - 1]
  }

  /** Sum of `w` over a list of records. */
  function Total(ts: seq<Transaction>, w: Transaction -> real): real
  {
    if ts == [] then 0.0 else Total(Init(ts), w) + w(Last(ts))
  }

  /** The key of every record, in order. */
  function Keys<K>(ts: seq<Transaction>, key: Transaction -> K): (r: seq<K>)
    ensures |r| == |ts|
  {
    if ts == [] then [] else Keys(Init(ts), key) + [key(Last(ts))]
  }

  /** The distinct values of `ks`, each where it first occurs. */
  function FirstSeen<K(==)>(ks: seq<K>): (r: seq<K>)
    ensures |r| <= |ks|
  {
    if ks == [] then []
    else
      var r0 := FirstSeen(Init(ks));
      if Last(ks) in r0 then r0 else r0 + [Last(ks)]
  }

  /** Sum of `w` over the records whose key is `k`. */
  function KeyTotal<K(==)>(ts: seq<Transaction>, key: Transaction -> K, w: Transaction -> real, k: K): real
  {
    if ts == [] then 0.0
    else KeyTotal(Init(ts), key, w, k) + (if key(Last(ts)) == k then w(Last(ts)) else 0.0)
  }

  /** Sum of the per-key totals over a list of keys. */
  function SumOver<K(==)>(ks: seq<K>, ts: seq<Transaction>, key: Transaction -> K, w: Transaction -> real): real
  {
    if ks == [] then 0.0 else SumOver(Init(ks), ts, key, w) + KeyTotal(ts, key, w, Last(ks))
  }

  /** Position of the first occurrence of `k` in `ks`. */
  function FirstIndex<K(==)>(ks: seq<K>, k: K): (i: nat)
    requires k in ks
    ensures i < |ks| && ks[i] == k
    ensures forall j :: 0 <= j < i ==> ks[j] != k
  {
    if ks[0] == k then 0 else 1 + FirstIndex(ks[1..], k)
  }

  /** A value is a key of the list exactly when some record carries it. */
  lemma {:induction false} InKeys<K>(ts: seq<Transaction>, key: Transaction -> K, k: K)
    ensures k in Keys(ts, key) <==> exists t :: t in ts && key(t) == k
  {
    if ts != [] {
      InKeys(Init(ts), key, k);
      assert ts == Init(ts) + [Last(ts)];
      assert forall t :: t in ts <==> t in Init(ts) || t == Last(ts);
    }
  }

  /** FirstSeen keeps exactly the values of its input, drops every repeat,
      and is never longer than its input. */
  lemma {:induction false} FirstSeenFacts<K>(ks: seq<K>)
    ensures forall k :: k in FirstSeen(ks) <==> k in ks
    ensures forall i :: 0 <= i < |FirstSeen(ks)| ==> FirstSeen(ks)[i] in ks
    ensures forall i :: 0 <= i < |ks| ==> ks[i] in FirstSeen(ks)
    ensures NoDuplicates(FirstSeen(ks))
    ensures |FirstSeen(ks)| <= |ks|
  {
    if ks != [] {
      FirstSeenFacts(Init(ks));
      assert ks == Init(ks) + [Last(ks)];
    }
  }

  /** The value at position `j` of FirstSeen occurs nowhere else in it. */
  lemma FirstSeenOnce<K>(ks: seq<K>, j: nat)
    requires j < |FirstSeen(ks)|
    ensures forall m :: 0 <= m < |FirstSeen(ks)| && m != j ==> FirstSeen(ks)[m] != FirstSeen(ks)[j]
  {
    FirstSeenFacts(ks);
  }

  /** A value is listed by FirstSeen exactly when it occurs in the input. */
  lemma {:induction false} FirstSeenHas<K>(ks: seq<K>, k: K)
    ensures k in FirstSeen(ks) <==> k in ks
  {
    if ks != [] {
      FirstSeenHas(Init(ks), k);
      assert ks == Init(ks) + [Last(ks)];
    }
  }

  /** Two lists with the same length and the same elements are equal. */
  lemma SameElements<T>(a: seq<T>, b: seq<T>)
    requires |a| == |b| && forall i :: 0 <= i < |a| ==> a[i] == b[i]
    ensures a == b
  {
  }

  /** Appending a record appends its key. */
  lemma KeysSnoc<K>(p: seq<Transaction>, t: Transaction, key: Transaction -> K)
    ensures Keys(p + [t], key) == Keys(p, key) + [key(t)]
  {
    assert Init(p + [t]) == p;
  }

  /** Appending a record adds its weight to its own key's total only. */
  lemma KeyTotalSnoc<K>(p: seq<Transaction>, t: Transaction, key: Transaction -> K, w: Transaction -> real, k: K)
    ensures KeyTotal(p + [t], key, w, k) == KeyTotal(p, key, w, k) + (if key(t) == k then w(t) else 0.0)
  {
    assert Init(p + [t]) == p;
  }

  /** Appending a key extends FirstSeen exactly when the key is new. */
  lemma FirstSeenSnoc<K>(ks: seq<K>, x: K)
    ensures FirstSeen(ks + [x]) == if x in FirstSeen(ks) then FirstSeen(ks) else FirstSeen(ks) + [x]
  {
    assert Init(ks + [x]) == ks;
  }

  /** A key no record carries has total zero. */
  lemma {:induction false} KeyTotalAbsent<K>(ts: seq<Transaction>, key: Transaction -> K, w: Transaction -> real, k: K)
    requires k !in Keys(ts, key)
    ensures KeyTotal(ts, key, w, k) == 0.0
  {
    if ts != [] {
      assert Keys(ts, key) == Keys(Init(ts), key) + [key(Last(ts))];
      KeyTotalAbsent(Init(ts), key, w, k);
    }
  }

  /** Appending one record adds its weight to the total of its own key and
      to no other; over a duplicate-free key list the sum therefore grows by
      that weight exactly when its key is listed. */
  lemma {:induction false} SumOverSnoc<K>(ks: seq<K>, ts: seq<Transaction>, t: Transaction, key: Transaction -> K, w: Transaction -> real)
    requires NoDuplicates(ks)
    ensures SumOver(ks, ts + [t], key, w) == SumOver(ks, ts, key, w) + (if key(t) in ks then w(t) else 0.0)
  {
    if ks != [] {
      assert Init(ts + [t]) == ts;
      SumOverSnoc(Init(ks), ts, t, key, w);
      assert key(t) in ks <==> key(t) in Init(ks) || key(t) == Last(ks);
    }
  }

  /** Grouping by first-seen key loses and duplicates nothing: the per-key
      totals add up to the plain total. */
  lemma {:induction false} GroupedTotalsConserve<K>(ts: seq<Transaction>, key: Transaction -> K, w: Transaction -> real)
    ensures SumOver(FirstSeen(Keys(ts, key)), ts, key, w) == Total(ts, w)
  {
    if ts != [] {
      var p, t := Init(ts), Last(ts);
      assert ts == p + [t];
      var fs := FirstSeen(Keys(p, key));
      assert Keys(ts, key) == Keys(p, key) + [key(t)];
      assert Init(Keys(ts, key)) == Keys(p, key);
      GroupedTotalsConserve(p, key, w);
      FirstSeenFacts(Keys(p, key));
      SumOverSnoc(fs, p, t, key, w);
      if key(t) !in fs {
        assert FirstSeen(Keys(ts, key)) == fs + [key(t)];
        KeyTotalAbsent(p, key, w, key(t));
        assert Init(fs + [key(t)]) == fs;
      }
    }
  }

  /** A total over two lists is the sum of their totals. */
  lemma {:induction false} TotalAppend(a: seq<Transaction>, b: seq<Transaction>, w: Transaction -> real)
    ensures Total(a + b, w) == Total(a, w) + Total(b, w)
  {
    if b != [] {
      assert a + b != [] && Init(a + b) == a + Init(b) && Last(a + b) == Last(b);
      calc {
        Total(a + b, w);
        Total(a + Init(b), w) + w(Last(b));
        { TotalAppend(a, Init(b), w); }
        Total(a, w) + Total(Init(b), w) + w(Last(b));
        Total(a, w) + Total(b, w);
      }
    } else {
      assert a + b == a;
    }
  }

  /** Keys that were already seen keep their first position when a key is appended. */
  lemma {:induction false} FirstIndexSnoc<K>(ks: seq<K>, x: K, k: K)
    requires k in ks + [x]
    ensures k in ks ==> FirstIndex(ks + [x], k) == FirstIndex(ks, k)
    ensures k !in ks ==> FirstIndex(ks + [x], k) == |ks|
  {
    if ks != [] && ks[0] != k {
      assert (ks + [x])[1..] == ks[1..] + [x];
      FirstIndexSnoc(ks[1..], x, k);
    }
  }

  /** First-seen order: earlier entries of FirstSeen occur earlier in the input. */
  lemma {:induction false} FirstSeenOrder<K>(ks: seq<K>, i: nat, j: nat)
    requires i < j < |FirstSeen(ks)|
    ensures FirstSeen(ks)[i] in ks && FirstSeen(ks)[j] in ks
    ensures FirstIndex(ks, FirstSeen(ks)[i]) < FirstIndex(ks, FirstSeen(ks)[j])
  {
    var p, x := Init(ks), Last(ks);
    assert ks == p + [x];
    var r0 := FirstSeen(p);
    FirstSeenFacts(p);
    FirstSeenFacts(ks);
    assert FirstSeen(ks)[i] in FirstSeen(ks) && FirstSeen(ks)[j] in FirstSeen(ks);
    var a, b := FirstSeen(ks)[i], FirstSeen(ks)[j];
    if x in r0 || j < |r0| {
      assert a == r0[i] && b == r0[j];
      FirstSeenOrder(p, i, j);
      FirstIndexSnoc(p, x, a);
      FirstIndexSnoc(p, x, b);
    } else {
      assert b == x && a == r0[i] && r0[i] in r0;
      assert a in p && a in p + [x] && b in p + [x];
      FirstIndexSnoc(p, x, a);
      FirstIndexSnoc(p, x, b);
    }
  }
}
