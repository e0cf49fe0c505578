/** Stable sorting by an arbitrary order, and when its result does not depend on the
    order of the input. */
module Ordering {
  import opened Prelude

  ghost predicate Total<T(!new)>(le: (T, T) -> bool) {
    forall a, b :: le(a, b) || le(b, a)
  }

  ghost predicate Transitive<T(!new)>(le: (T, T) -> bool) {
    forall a, b, c :: le(a, b) && le(b, c) ==> le(a, c)
  }

  ghost predicate Preorder<T(!new)>(le: (T, T) -> bool) {
    Total(le) && Transitive(le)
  }

  /** No two different elements of `s` are equal for the order. */
  ghost predicate Separates<T>(le: (T, T) -> bool, s: seq<T>) {
    forall a, b :: a in s && b in s && le(a, b) && le(b, a) ==> a == b
  }

  predicate Sorted<T>(s: seq<T>, le: (T, T) -> bool) {
    forall i, j :: 0 <= i < j < |s| ==> le(s[i], s[j])
  }

  /** Insert behind everything that does not come after `x`. */
  function Insert<T>(s: seq<T>, x: T, le: (T, T) -> bool): (r: seq<T>)
    ensures multiset(r) == multiset(s) + multiset{x}
  {
    if s == [] then [x]
    else
      var n := |s| - 1;
      assert s == s[..n] + [s[n]];
      if le(s[n], x) then s + [x] else Insert(s[..n], x, le) + [s[n]]
  }

  function Sort<T>(s: seq<T>, le: (T, T) -> bool): (r: seq<T>)
    ensures multiset(r) == multiset(s)
  {
    if s == [] then []
    else
      var n := |s| - 1;
      assert s == s[..n] + [s[n]];
      Insert(Sort(s[..n], le), s[n], le)
  }

  lemma SameElements<T>(s: seq<T>, t: seq<T>)
    requires multiset(s) == multiset(t)
    ensures |s| == |t| && forall x :: x in s <==> x in t
  {
    assert |multiset(s)| == |multiset(t)|;
    forall x ensures x in s <==> x in t {
      assert x in s <==> x in multiset(s);
      assert x in t <==> x in multiset(t);
    }
  }

  lemma {:induction false} InsertSorts<T(!new)>(s: seq<T>, x: T, le: (T, T) -> bool)
    requires Preorder(le) && Sorted(s, le)
    ensures Sorted(Insert(s, x, le), le)
  {
    if s != [] {
      var n := |s| - 1;
      if !le(s[n], x) {
        var r := Insert(s[..n], x, le);
        InsertSorts(s[..n], x, le);
        forall y | y in r ensures le(y, s[n]) {
          assert y in multiset(r);
          if y != x {
            assert y in multiset(s[..n]);
            assert y in s[..n];
          }
        }
      }
    }
  }

  lemma {:induction false} SortSorts<T(!new)>(s: seq<T>, le: (T, T) -> bool)
    requires Preorder(le)
    ensures Sorted(Sort(s, le), le)
  {
    if s != [] {
      SortSorts(s[..|s| - 1], le);
      InsertSorts(Sort(s[..|s| - 1], le), s[|s| - 1], le);
    }
  }

  lemma HeadsEqual<T>(s: seq<T>, t: seq<T>, le: (T, T) -> bool)
    requires Sorted(s, le) && Sorted(t, le) && multiset(s) == multiset(t) && Separates(le, s) && s != [] && t != []
    ensures s[0] == t[0]
  {
    SameElements(s, t);
    assert t[0] in s && s[0] in t;
    var i :| 0 <= i < |s| && s[i] == t[0];
    var j :| 0 <= j < |t| && t[j] == s[0];
    assert i == 0 || le(s[0], t[0]);
    assert j == 0 || le(t[0], s[0]);
  }

  lemma TailMultiset<T>(s: seq<T>)
    requires s != []
    ensures multiset(s[1..]) == multiset(s) - multiset{s[0]}
  {
    assert s == [s[0]] + s[1..];
  }

  /** A sorted arrangement is unique when the order tells all elements apart. */
  lemma {:induction false} SortedUnique<T>(s: seq<T>, t: seq<T>, le: (T, T) -> bool)
    requires Sorted(s, le) && Sorted(t, le) && multiset(s) == multiset(t) && Separates(le, s)
    ensures s == t
    decreases |s|
  {
    SameElements(s, t);
    if s != [] {
      HeadsEqual(s, t, le);
      TailMultiset(s);
      TailMultiset(t);
      SortedTail(s, le);
      SortedTail(t, le);
      SortedUnique(s[1..], t[1..], le);
      assert s == [s[0]] + s[1..] && t == [t[0]] + t[1..];
    }
  }

  lemma SortedTail<T>(s: seq<T>, le: (T, T) -> bool)
    requires Sorted(s, le) && s != []
    ensures Sorted(s[1..], le) && (Separates(le, s) ==> Separates(le, s[1..]))
  {
    assert forall x :: x in s[1..] ==> x in s;
  }

  /** Sorting forgets the order of its input. */
  lemma SortUnique<T(!new)>(s: seq<T>, t: seq<T>, le: (T, T) -> bool)
    requires Preorder(le) && multiset(s) == multiset(t) && Separates(le, s)
    ensures Sort(s, le) == Sort(t, le)
  {
    SortSorts(s, le);
    SortSorts(t, le);
    SameElements(s, Sort(s, le));
    SortedUnique(Sort(s, le), Sort(t, le), le);
  }

  // ----- stability -----

  /** Some `a` stands before some `b`. */
  predicate Precedes<T(==)>(s: seq<T>, a: T, b: T) {
    exists i, j :: 0 <= i < j < |s| && s[i] == a && s[j] == b
  }

  lemma PrecedesOnce<T>(s: seq<T>, a: T, b: T)
    requires NoRepeat(s) && Precedes(s, a, b)
    ensures a != b && !Precedes(s, b, a)
  {}

  lemma PrecedesEither<T>(s: seq<T>, a: T, b: T)
    requires a in s && b in s && a != b
    ensures Precedes(s, a, b) || Precedes(s, b, a)
  {}

  lemma PrecedesAppend<T>(s: seq<T>, t: seq<T>, a: T, b: T)
    ensures Precedes(s, a, b) ==> Precedes(s + t, a, b)
    ensures Precedes(t, a, b) ==> Precedes(s + t, a, b)
    ensures a in s && b in t ==> Precedes(s + t, a, b)
  {
    if Precedes(s, a, b) {
      var i, j :| 0 <= i < j < |s| && s[i] == a && s[j] == b;
      assert (s + t)[i] == a && (s + t)[j] == b;
    }
    if Precedes(t, a, b) {
      var i, j :| 0 <= i < j < |t| && t[i] == a && t[j] == b;
      assert (s + t)[|s| + i] == a && (s + t)[|s| + j] == b;
    }
    if a in s && b in t {
      var i :| 0 <= i < |s| && s[i] == a;
      var j :| 0 <= j < |t| && t[j] == b;
      assert (s + t)[i] == a && (s + t)[|s| + j] == b;
    }
  }

  lemma InInsert<T>(s: seq<T>, x: T, le: (T, T) -> bool, a: T)
    ensures a in Insert(s, x, le) <==> a in s || a == x
  {
    assert a in Insert(s, x, le) <==> a in multiset(Insert(s, x, le));
    assert a in s <==> a in multiset(s);
  }

  lemma {:induction false} InsertStable<T>(s: seq<T>, x: T, le: (T, T) -> bool, a: T)
    requires a in s && le(a, x)
    ensures Precedes(Insert(s, x, le), a, x)
  {
    var n := |s| - 1;
    assert s == s[..n] + [s[n]];
    if le(s[n], x) {
      PrecedesAppend(s, [x], a, x);
    } else {
      InsertStable(s[..n], x, le, a);
      PrecedesAppend(Insert(s[..n], x, le), [s[n]], a, x);
    }
  }

  lemma {:induction false} InsertKeeps<T>(s: seq<T>, x: T, le: (T, T) -> bool, a: T, b: T)
    requires Precedes(s, a, b)
    ensures Precedes(Insert(s, x, le), a, b)
  {
    var n := |s| - 1;
    assert s == s[..n] + [s[n]];
    if le(s[n], x) {
      PrecedesAppend(s, [x], a, b);
    } else {
      var i, j :| 0 <= i < j < |s| && s[i] == a && s[j] == b;
      if j < n {
        assert s[..n][i] == a && s[..n][j] == b;
        InsertKeeps(s[..n], x, le, a, b);
      } else {
        assert s[..n][i] == a;
        InInsert(s[..n], x, le, a);
      }
      PrecedesAppend(Insert(s[..n], x, le), [s[n]], a, b);
    }
  }

  lemma PrecedesSplit<T>(s: seq<T>, a: T, b: T)
    requires Precedes(s, a, b)
    ensures var n := |s| - 1; Precedes(s[..n], a, b) || (a in s[..n] && b == s[n])
  {
    var n := |s| - 1;
    var i, j :| 0 <= i < j < |s| && s[i] == a && s[j] == b;
    assert s[..n][i] == a;
    assert j < n ==> s[..n][j] == b;
  }

  /** Sorting keeps the order of elements that need not be exchanged. */
  lemma {:induction false} SortStable<T>(s: seq<T>, le: (T, T) -> bool, a: T, b: T)
    requires Precedes(s, a, b) && le(a, b)
    ensures Precedes(Sort(s, le), a, b)
  {
    var n := |s| - 1;
    var sorted := Sort(s[..n], le);
    assert Sort(s, le) == Insert(sorted, s[n], le);
    PrecedesSplit(s, a, b);
    if Precedes(s[..n], a, b) {
      SortStable(s[..n], le, a, b);
      InsertKeeps(sorted, s[n], le, a, b);
    } else {
      SameElements(s[..n], sorted);
      InsertStable(sorted, s[n], le, a);
    }
  }

  lemma {:induction false} PermutedOnce<T>(s: seq<T>, t: seq<T>)
    requires NoRepeat(s) && multiset(s) == multiset(t)
    ensures NoRepeat(t)
  {
    forall i, j | 0 <= i < j < |t| ensures t[i] != t[j] {
      OccursOnce(s, t[i]);
      if t[i] == t[j] { OccursTwice(t, i, j); }
    }
  }

  lemma {:induction false} OccursOnce<T>(s: seq<T>, x: T)
    requires NoRepeat(s)
    ensures multiset(s)[x] <= 1
  {
    if s != [] {
      var n := |s| - 1;
      assert s == s[..n] + [s[n]];
      OccursOnce(s[..n], x);
      assert x == s[n] ==> forall i :: 0 <= i < n ==> s[..n][i] != x;
    }
  }

  lemma OccursTwice<T>(s: seq<T>, i: nat, j: nat)
    requires i < j < |s| && s[i] == s[j]
    ensures multiset(s)[s[i]] >= 2
  {
    assert s == s[..j] + [s[j]] + s[j + 1..];
    assert s[..j][i] == s[i];
    assert s[i] in multiset(s[..j]);
  }

  /** The order refined by the places in `s`. */
  ghost predicate Refined<T>(le: (T, T) -> bool, s: seq<T>, a: T, b: T) {
    a == b || (le(a, b) && (!le(b, a) || Precedes(s, a, b)))
  }

  ghost predicate SortedRefined<T>(r: seq<T>, le: (T, T) -> bool, s: seq<T>) {
    forall i, j :: 0 <= i < j < |r| ==> Refined(le, s, r[i], r[j])
  }

  lemma SortRefined<T(!new)>(s: seq<T>, le: (T, T) -> bool)
    requires Preorder(le) && NoRepeat(s)
    ensures SortedRefined(Sort(s, le), le, s)
  {
    var r := Sort(s, le);
    SortSorts(s, le);
    PermutedOnce(s, r);
    SameElements(s, r);
    forall i, j | 0 <= i < j < |r| ensures Refined(le, s, r[i], r[j]) {
      assert r[i] in r && r[j] in r && Precedes(r, r[i], r[j]);
      if le(r[j], r[i]) { PlacesKept(s, le, r[i], r[j]); }
    }
  }

  /** Tied elements stand in the result as they stood in `s`. */
  lemma PlacesKept<T(!new)>(s: seq<T>, le: (T, T) -> bool, a: T, b: T)
    requires NoRepeat(Sort(s, le)) && a in s && b in s && a != b
    requires Precedes(Sort(s, le), a, b) && le(b, a)
    ensures Precedes(s, a, b)
  {
    PrecedesEither(s, a, b);
    if Precedes(s, b, a) {
      SortStable(s, le, b, a);
      PrecedesOnce(Sort(s, le), b, a);
    }
  }

  /** `t` holds tied elements in the order in which `s` holds them. */
  ghost predicate TiesAlike<T(!new)>(le: (T, T) -> bool, s: seq<T>, t: seq<T>) {
    forall a, b :: a in s && b in s && a != b && le(a, b) && le(b, a) && Precedes(s, a, b) ==> Precedes(t, a, b)
  }

  lemma RefinedAlike<T(!new)>(le: (T, T) -> bool, s: seq<T>, t: seq<T>, a: T, b: T)
    requires NoRepeat(t) && TiesAlike(le, s, t) && a in s && b in s && Refined(le, t, a, b)
    ensures Refined(le, s, a, b)
  {
    if a != b && le(b, a) {
      PrecedesEither(s, a, b);
      PrecedesOnce(t, a, b);
    }
  }

  lemma RefinedHeads<T>(r: seq<T>, r': seq<T>, le: (T, T) -> bool, s: seq<T>)
    requires NoRepeat(s) && SortedRefined(r, le, s) && SortedRefined(r', le, s)
    requires multiset(r) == multiset(r') && r != [] && r' != []
    ensures r[0] == r'[0]
  {
    SameElements(r, r');
    assert r'[0] in r && r[0] in r';
    var i :| 0 <= i < |r| && r[i] == r'[0];
    var j :| 0 <= j < |r'| && r'[j] == r[0];
    assert i == 0 || Refined(le, s, r[0], r'[0]);
    assert j == 0 || Refined(le, s, r'[0], r[0]);
    if i > 0 && j > 0 && r[0] != r'[0] {
      PrecedesOnce(s, r[0], r'[0]);
    }
  }

  lemma {:induction false} RefinedUnique<T>(r: seq<T>, r': seq<T>, le: (T, T) -> bool, s: seq<T>)
    requires NoRepeat(s) && SortedRefined(r, le, s) && SortedRefined(r', le, s) && multiset(r) == multiset(r')
    ensures r == r'
    decreases |r|
  {
    SameElements(r, r');
    if r != [] {
      RefinedHeads(r, r', le, s);
      TailMultiset(r);
      TailMultiset(r');
      RefinedUnique(r[1..], r'[1..], le, s);
      assert r == [r[0]] + r[1..] && r' == [r'[0]] + r'[1..];
    }
  }

  /** Sorting forgets the order of its input but for the order of ties. */
  lemma SortUniqueStable<T(!new)>(s: seq<T>, t: seq<T>, le: (T, T) -> bool)
    requires Preorder(le) && NoRepeat(s) && multiset(s) == multiset(t) && TiesAlike(le, s, t)
    ensures Sort(s, le) == Sort(t, le)
  {
    PermutedOnce(s, t);
    SameElements(s, t);
    SortRefined(s, le);
    SortRefined(t, le);
    var r := Sort(t, le);
    SameElements(t, r);
    forall i, j | 0 <= i < j < |r| ensures Refined(le, s, r[i], r[j]) {
      assert r[i] in r && r[j] in r;
      RefinedAlike(le, s, t, r[i], r[j]);
    }
    RefinedUnique(Sort(s, le), r, le, s);
  }

  // ----- code-unit order on strings -----

  /** The UTF-16 code units of a character. */
  function CodeUnits(ch: char): seq<int> {
    var u := ch as int;
    if u < 0x1_0000 then [u] else [0xD800 + (u - 0x1_0000) / 0x400, 0xDC00 + (u - 0x1_0000) % 0x400]
  }

  /** Two characters compare by their first different code unit. */
  predicate UnitsBefore(a: char, b: char) {
    var s, t := CodeUnits(a), CodeUnits(b);
    s[0] < t[0] || (s[0] == t[0] && |s| == 2 && |t| == 2 && s[1] < t[1])
  }

  /** The same as one number: characters from U+E000 to U+FFFF come after all others. */
  function UnitRank(ch: char): int {
    var u := ch as int;
    if 0xE000 <= u < 0x1_0000 then u + 0x11_0000 else u
  }

  lemma UnitRankOrder(a: char, b: char)
    ensures UnitsBefore(a, b) <==> UnitRank(a) < UnitRank(b)
    ensures UnitRank(a) == UnitRank(b) ==> a == b
  {}

  /** The order of `Array.prototype.sort` without a comparator. */
  predicate StrLe(a: string, b: string)
    decreases |a|
  {
    a == "" || (b != "" && (UnitsBefore(a[0], b[0]) || (a[0] == b[0] && StrLe(a[1..], b[1..]))))
  }

  function Utf16(s: string): seq<int> {
    if s == "" then [] else CodeUnits(s[0]) + Utf16(s[1..])
  }

  predicate UnitsLe(s: seq<int>, t: seq<int>)
    decreases |s|
  {
    s == [] || (t != [] && (s[0] < t[0] || (s[0] == t[0] && UnitsLe(s[1..], t[1..]))))
  }

  /** It is the lexicographic order of the UTF-16 code units. */
  lemma {:induction false} StrLeIsUnits(a: string, b: string)
    ensures StrLe(a, b) <==> UnitsLe(Utf16(a), Utf16(b))
    decreases |a|
  {
    if a != "" && b != "" {
      if a[0] == b[0] {
        StrLeIsUnits(a[1..], b[1..]);
        UnitsCancel(CodeUnits(a[0]), Utf16(a[1..]), Utf16(b[1..]));
      } else {
        UnitsDiffer(a[0], b[0], Utf16(a[1..]), Utf16(b[1..]));
      }
    }
  }

  lemma {:induction false} UnitsCancel(p: seq<int>, s: seq<int>, t: seq<int>)
    ensures UnitsLe(p + s, p + t) <==> UnitsLe(s, t)
    decreases |p|
  {
    if p == [] {
      assert p + s == s && p + t == t;
    } else {
      assert (p + s)[1..] == p[1..] + s && (p + t)[1..] == p[1..] + t;
      UnitsCancel(p[1..], s, t);
    }
  }

  lemma UnitsDiffer(a: char, b: char, s: seq<int>, t: seq<int>)
    requires a != b
    ensures UnitsLe(CodeUnits(a) + s, CodeUnits(b) + t) <==> UnitsBefore(a, b)
  {
    var p, q := CodeUnits(a), CodeUnits(b);
    if p[0] == q[0] {
      assert |p| == |q| == 2 && p[1] != q[1];
      assert (p + s)[1..][0] == p[1] && (q + t)[1..][0] == q[1];
    }
  }

  lemma {:induction false} StrTotal(a: string, b: string)
    ensures StrLe(a, b) || StrLe(b, a)
    decreases |a|
  {
    if a != "" && b != "" {
      UnitRankOrder(a[0], b[0]);
      UnitRankOrder(b[0], a[0]);
      StrTotal(a[1..], b[1..]);
    }
  }

  lemma {:induction false} StrAntisymmetric(a: string, b: string)
    requires StrLe(a, b) && StrLe(b, a)
    ensures a == b
    decreases |a|
  {
    if a != "" && b != "" {
      UnitRankOrder(a[0], b[0]);
      UnitRankOrder(b[0], a[0]);
      StrAntisymmetric(a[1..], b[1..]);
      assert a == [a[0]] + a[1..] && b == [b[0]] + b[1..];
    }
  }

  lemma {:induction false} StrTransitive(a: string, b: string, c: string)
    requires StrLe(a, b) && StrLe(b, c)
    ensures StrLe(a, c)
    decreases |a|
  {
    if a != "" {
      UnitRankOrder(a[0], b[0]);
      UnitRankOrder(b[0], c[0]);
      UnitRankOrder(a[0], c[0]);
      if a[0] == b[0] == c[0] { StrTransitive(a[1..], b[1..], c[1..]); }
    }
  }

  lemma StrOrder(s: seq<string>)
    ensures Preorder(StrLe) && Separates(StrLe, s)
  {
    forall a, b ensures StrLe(a, b) || StrLe(b, a) { StrTotal(a, b); }
    forall a, b, c ensures StrLe(a, b) && StrLe(b, c) ==> StrLe(a, c) {
      if StrLe(a, b) && StrLe(b, c) { StrTransitive(a, b, c); }
    }
    forall a, b | a in s && b in s && StrLe(a, b) && StrLe(b, a) ensures a == b { StrAntisymmetric(a, b); }
  }

  /** `xs.sort()` of strings depends only on the multiset. */
  lemma StrSortUnique(s: seq<string>, t: seq<string>)
    requires multiset(s) == multiset(t)
    ensures Sort(s, StrLe) == Sort(t, StrLe)
  {
    StrOrder(s);
    SortUnique(s, t, StrLe);
  }
}
