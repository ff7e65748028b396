/** Sorting by string keys, as `sorted` does it: code point order, and stable. */
module Sorting {

  predicate Less(a: string, b: string) {
    if b == "" then false
    else if a == "" then true
    else a[0] < b[0] || (a[0] == b[0] && Less(a[1..], b[1..]))
  }

  lemma {:induction false} LessTotal(a: string, b: string)
    ensures a == b || Less(a, b) || Less(b, a)
    ensures !(Less(a, b) && Less(b, a))
    ensures !Less(a, a)
  {
    if a != "" && b != "" {
      LessTotal(a[1..], b[1..]);
      assert a == [a[0]] + a[1..] && b == [b[0]] + b[1..];
    }
    if a != "" { LessTotal(a[1..], a[1..]); }
  }

  lemma {:induction false} LessTransitive(a: string, b: string, c: string)
    requires Less(a, b) && Less(b, c)
    ensures Less(a, c)
  {
    if a != "" { if a[0] == b[0] && b[0] == c[0] { LessTransitive(a[1..], b[1..], c[1..]); } }
  }

  // ---------------------------------------------------------------- stable sorting by a key

  ghost predicate SortedBy<T(!new)>(key: T -> string, s: seq<T>) {
    forall i, j :: 0 <= i < j < |s| ==> !Less(key(s[j]), key(s[i]))
  }

  ghost predicate DistinctKeys<T(!new)>(key: T -> string, s: seq<T>) {
    forall i, j :: 0 <= i < j < |s| ==> key(s[i]) != key(s[j])
  }

  /** x goes behind every element whose key is not greater. */
  function InsertBy<T>(key: T -> string, s: seq<T>, x: T): (r: seq<T>)
    ensures multiset(r) == multiset(s) + multiset{x}
  {
    if s == [] then [x]
    else
      var n := |s| - 1;
      assert s == s[..n] + [s[n]];
      if Less(key(x), key(s[n])) then InsertBy(key, s[..n], x) + [s[n]] else s + [x]
  }

  function SortBy<T>(key: T -> string, s: seq<T>): (r: seq<T>)
    ensures multiset(r) == multiset(s)
  {
    if s == [] then []
    else
      assert s == s[..|s| - 1] + [s[|s| - 1]];
      InsertBy(key, SortBy(key, s[..|s| - 1]), s[|s| - 1])
  }

  lemma {:induction false} InsertSorted<T(!new)>(key: T -> string, s: seq<T>, x: T)
    requires SortedBy(key, s)
    ensures SortedBy(key, InsertBy(key, s, x))
  {
    var r := InsertBy(key, s, x);
    if s != [] {
      var n := |s| - 1;
      if Less(key(x), key(s[n])) {
        InsertSorted(key, s[..n], x);
        var init := InsertBy(key, s[..n], x);
        assert |init| == n + 1 by { assert |multiset(init)| == n + 1; }
        forall i | 0 <= i <= n ensures !Less(key(s[n]), key(init[i])) {
          assert init[i] in multiset(init);
          LessTotal(key(x), key(s[n]));
        }
      } else {
        forall i | 0 <= i <= n ensures !Less(key(x), key(s[i])) {
          if Less(key(x), key(s[i])) { NotGreater(key(x), key(s[i]), key(s[n])); }
        }
      }
    }
  }

  lemma NotGreater(a: string, b: string, c: string)
    requires Less(a, b) && !Less(c, b)
    ensures Less(a, c)
  {
    LessTotal(b, c);
    if Less(b, c) { LessTransitive(a, b, c); }
  }

  lemma {:induction false} SortSorted<T(!new)>(key: T -> string, s: seq<T>)
    ensures SortedBy(key, SortBy(key, s))
  {
    if s != [] {
      SortSorted(key, s[..|s| - 1]);
      InsertSorted(key, SortBy(key, s[..|s| - 1]), s[|s| - 1]);
    }
  }

  lemma DistinctSnoc<T(!new)>(key: T -> string, init: seq<T>, last: T)
    ensures DistinctKeys(key, init + [last]) <==>
              DistinctKeys(key, init) && forall x :: x in init ==> key(x) != key(last)
  {
    var s := init + [last];
    if DistinctKeys(key, s) {
      forall i, j | 0 <= i < j < |init| ensures key(init[i]) != key(init[j]) {
        assert s[i] == init[i] && s[j] == init[j];
      }
      forall x | x in init ensures key(x) != key(last) {
        var i :| 0 <= i < |init| && init[i] == x;
        assert s[i] == x && s[|init|] == last;
      }
    }
  }

  lemma DistinctTransfers<T(!new)>(key: T -> string, s: seq<T>, t: seq<T>)
    requires DistinctKeys(key, s) && multiset(s) == multiset(t)
    ensures DistinctKeys(key, t)
  {
    forall i, j | 0 <= i < j < |t| ensures key(t[i]) != key(t[j]) {
      if key(t[i]) == key(t[j]) {
        SameKeySameElement(key, s, t, t[i], t[j]);
        assert t == t[..i] + [t[i]] + t[i + 1..j] + [t[j]] + t[j + 1..];
        assert multiset(t)[t[i]] >= 2;
        CountsOnce(key, s, t[i]);
      }
    }
  }

  lemma SameKeySameElement<T(!new)>(key: T -> string, s: seq<T>, t: seq<T>, x: T, y: T)
    requires DistinctKeys(key, s) && multiset(s) == multiset(t) && x in t && y in t && key(x) == key(y)
    ensures x == y
  {
    assert x in multiset(s) && y in multiset(s);
    var a :| 0 <= a < |s| && s[a] == x;
    var b :| 0 <= b < |s| && s[b] == y;
  }

  lemma {:induction false} CountsOnce<T(!new)>(key: T -> string, s: seq<T>, x: T)
    requires DistinctKeys(key, s)
    ensures multiset(s)[x] <= 1
  {
    if s != [] {
      var n := |s| - 1;
      assert s == s[..n] + [s[n]];
      CountsOnce(key, s[..n], x);
      if x == s[n] { assert x !in s[..n]; }
    }
  }

  /** Two sorted arrangements of the same elements with distinct keys are the same. */
  lemma {:induction false} SortedUnique<T(!new)>(key: T -> string, s: seq<T>, t: seq<T>)
    requires multiset(s) == multiset(t) && SortedBy(key, s) && SortedBy(key, t) && DistinctKeys(key, s)
    ensures s == t
    decreases |s|
  {
    SameLength(s, t);
    if s != [] {
      var n := |s| - 1;
      LastAgrees(key, s, t);
      SplitLast(s);
      SplitLast(t);
      hide SortedBy, DistinctKeys;
      SortedInit(key, s);
      SortedInit(key, t);
      SortedUnique(key, s[..n], t[..n]);
    }
  }

  lemma SameLength<T>(s: seq<T>, t: seq<T>)
    requires multiset(s) == multiset(t)
    ensures |s| == |t|
  {
    assert |s| == |multiset(s)| == |multiset(t)| == |t|;
  }

  lemma SplitLast<T>(s: seq<T>)
    requires s != []
    ensures multiset(s[..|s| - 1]) == multiset(s) - multiset{s[|s| - 1]} && s == s[..|s| - 1] + [s[|s| - 1]]
  {
    assert s == s[..|s| - 1] + [s[|s| - 1]];
  }

  lemma SortedInit<T(!new)>(key: T -> string, s: seq<T>)
    requires s != []
    ensures SortedBy(key, s) ==> SortedBy(key, s[..|s| - 1])
    ensures DistinctKeys(key, s) ==> DistinctKeys(key, s[..|s| - 1])
  {
  }

  lemma LastAgrees<T(!new)>(key: T -> string, s: seq<T>, t: seq<T>)
    requires multiset(s) == multiset(t) && SortedBy(key, s) && SortedBy(key, t) && DistinctKeys(key, s)
    requires |s| == |t| > 0
    ensures s[|s| - 1] == t[|t| - 1]
  {
    var n := |s| - 1;
    assert s[n] in multiset(t) && t[n] in multiset(s);
    var i :| 0 <= i < |t| && t[i] == s[n];
    var j :| 0 <= j < |s| && s[j] == t[n];
    LessTotal(key(s[n]), key(t[n]));
    if i < n && j < n { assert !Less(key(t[n]), key(t[i])) && !Less(key(s[n]), key(s[j])); }
  }

  /** The order in which the elements are given does not matter, if their keys are distinct. */
  lemma SortIgnoresOrder<T(!new)>(key: T -> string, s: seq<T>, t: seq<T>)
    requires multiset(s) == multiset(t) && DistinctKeys(key, s)
    ensures SortBy(key, s) == SortBy(key, t)
  {
    SortSorted(key, s);
    SortSorted(key, t);
    DistinctTransfers(key, s, SortBy(key, s));
    SortedUnique(key, SortBy(key, s), SortBy(key, t));
  }

  // ---------------------------------------------------------------- sorted sets

  function Itself(x: string): string { x }

  ghost predicate Ascending(s: seq<string>) {
    forall i, j :: 0 <= i < j < |s| ==> Less(s[i], s[j])
  }

  /** `sorted(set(s))`. */
  function SortedSet(s: seq<string>): (r: seq<string>)
    ensures forall x :: x in r <==> x in s
  {
    if s == [] then []
    else
      var init, x := SortedSet(s[..|s| - 1]), s[|s| - 1];
      assert s == s[..|s| - 1] + [x];
      assert forall y :: y in multiset(init) + multiset{x} <==> y in init || y == x;
      var r := if x in init then init else InsertBy(Itself, init, x);
      assert forall y :: y in r <==> y in multiset(r);
      r
  }

  lemma {:induction false} SortedSetAscending(s: seq<string>)
    ensures Ascending(SortedSet(s))
  {
    if s != [] {
      var init, x := SortedSet(s[..|s| - 1]), s[|s| - 1];
      SortedSetAscending(s[..|s| - 1]);
      if x !in init { InsertAscending(init, x); }
    }
  }

  lemma InsertAscending(s: seq<string>, x: string)
    requires Ascending(s) && x !in s
    ensures Ascending(InsertBy(Itself, s, x))
  {
    forall i, j | 0 <= i < j < |s| ensures !Less(Itself(s[j]), Itself(s[i])) && Itself(s[i]) != Itself(s[j]) {
      LessTotal(s[i], s[j]);
    }
    InsertSorted(Itself, s, x);
    var r := InsertBy(Itself, s, x);
    forall i, j | 0 <= i < j < |s + [x]| ensures Itself((s + [x])[i]) != Itself((s + [x])[j]) {}
    DistinctTransfers(Itself, s + [x], r);
    forall i, j | 0 <= i < j < |r| ensures Less(r[i], r[j]) {
      LessTotal(r[i], r[j]);
      assert !Less(Itself(r[j]), Itself(r[i])) && Itself(r[i]) != Itself(r[j]);
    }
  }

  /** Sequences with the same members have the same sorted set. */
  lemma SortedSetIgnoresOrder(s: seq<string>, t: seq<string>)
    requires forall x :: x in s <==> x in t
    ensures SortedSet(s) == SortedSet(t)
  {
    SortedSetAscending(s);
    SortedSetAscending(t);
    AscendingUnique(SortedSet(s), SortedSet(t));
  }

  lemma {:induction false} AscendingUnique(s: seq<string>, t: seq<string>)
    requires Ascending(s) && Ascending(t) && forall x :: x in s <==> x in t
    ensures s == t
    decreases |s|
  {
    assert (s != [] ==> s[0] in t) && (t != [] ==> t[0] in s);
    if s != [] {
      SameGreatest(s, t);
      SameGreatest(t, s);
      var m, n := |s| - 1, |t| - 1;
      LessTotal(s[m], t[n]);
      assert Ascending(s[..m]) && Ascending(t[..n]);
      forall x ensures x in s[..m] <==> x in t[..n] {
        DropLast(s, x);
        DropLast(t, x);
      }
      hide Ascending;
      AscendingUnique(s[..m], t[..n]);
      assert s == s[..m] + [s[m]] && t == t[..n] + [t[n]];
    }
  }

  lemma SameGreatest(s: seq<string>, t: seq<string>)
    requires Ascending(s) && s != [] && t != [] && forall x :: x in t ==> x in s
    ensures !Less(s[|s| - 1], t[|t| - 1])
  {
    assert t[|t| - 1] in s;
    var j :| 0 <= j < |s| && s[j] == t[|t| - 1];
    LessTotal(s[|s| - 1], t[|t| - 1]);
  }

  lemma DropLast(s: seq<string>, x: string)
    requires Ascending(s) && s != []
    ensures x in s[..|s| - 1] <==> x in s && x != s[|s| - 1]
  {
    var m := |s| - 1;
    LessTotal(s[m], s[m]);
    if x in s && x != s[m] {
      var i :| 0 <= i < |s| && s[i] == x;
      assert s[..m][i] == x;
    }
  }
}
