/** Insertion-ordered grouping, the way a `Map` of arrays is filled. */
module Grouping {
  import opened Prelude
  import opened Ordering

  /** Distinct values in order of first appearance: what iterating a `Set` or the
      keys of a `Map` gives. */
  function FirstSeen<K(==,!new)>(ks: seq<K>): (r: seq<K>)
    ensures forall k :: k in r <==> k in ks
    ensures NoRepeat(r)
  {
    if ks == [] then []
    else
      var n := |ks| - 1;
      var r := FirstSeen(ks[..n]);
      assert ks == ks[..n] + [ks[n]];
      if ks[n] in r then r else r + [ks[n]]
  }

  function Map<V, K>(xs: seq<V>, key: V -> K): (ks: seq<K>)
    ensures |ks| == |xs| && forall i :: 0 <= i < |xs| ==> ks[i] == key(xs[i])
  {
    if xs == [] then [] else Map(xs[..|xs| - 1], key) + [key(xs[|xs| - 1])]
  }

  /** The elements with key `k`, in order. */
  function Members<V(!new), K(==)>(xs: seq<V>, key: V -> K, k: K): (r: seq<V>)
    ensures forall x :: x in r <==> x in xs && key(x) == k
  {
    if xs == [] then []
    else
      var n := |xs| - 1;
      assert xs == xs[..n] + [xs[n]];
      Members(xs[..n], key, k) + if key(xs[n]) == k then [xs[n]] else []
  }

  function Keys<V, K(==,!new)>(xs: seq<V>, key: V -> K): seq<K> {
    FirstSeen(Map(xs, key))
  }

  /** `order` and `groups` are the keys and their elements. */
  ghost predicate Grouped<V(!new), K(!new)>(xs: seq<V>, key: V -> K, order: seq<K>, groups: map<K, seq<V>>) {
    && order == Keys(xs, key)
    && (forall k :: k in groups <==> k in order)
    && Filled(xs, key, groups)
  }

  ghost predicate Filled<V(!new), K(!new)>(xs: seq<V>, key: V -> K, groups: map<K, seq<V>>) {
    forall k :: k in groups ==> groups[k] == Members(xs, key, k)
  }

  /** Fill a map of arrays, remembering the order in which keys came. */
  method GroupBy<V(!new), K(==,!new)>(xs: seq<V>, key: V -> K) returns (order: seq<K>, groups: map<K, seq<V>>)
    ensures order == Keys(xs, key)
    ensures forall k :: k in groups <==> k in order
    ensures forall k :: k in groups ==> groups[k] == Members(xs, key, k)
  {
    order, groups := [], map[];
    for i := 0 to |xs|
      invariant Grouped(xs[..i], key, order, groups)
    {
      var x, k := xs[i], key(xs[i]);
      if k in groups {
        GroupedAgain(xs, i, key, order, groups);
        groups := groups[k := groups[k] + [x]];
      } else {
        GroupedFirst(xs, i, key, order, groups);
        order := order + [k];
        groups := groups[k := [x]];
      }
    }
    assert xs[..|xs|] == xs;
  }

  lemma GroupedAgain<V(!new), K(!new)>(xs: seq<V>, i: nat, key: V -> K, order: seq<K>, groups: map<K, seq<V>>)
    requires i < |xs| && Grouped(xs[..i], key, order, groups) && key(xs[i]) in groups
    ensures var k := key(xs[i]); Grouped(xs[..i + 1], key, order, groups[k := groups[k] + [xs[i]]])
  {
    KeysNext(xs, i, key);
    FilledNext(xs, i, key, groups);
  }

  lemma GroupedFirst<V(!new), K(!new)>(xs: seq<V>, i: nat, key: V -> K, order: seq<K>, groups: map<K, seq<V>>)
    requires i < |xs| && Grouped(xs[..i], key, order, groups) && key(xs[i]) !in groups
    ensures var k := key(xs[i]); Grouped(xs[..i + 1], key, order + [k], groups[k := [xs[i]]])
  {
    var k := key(xs[i]);
    KeysNext(xs, i, key);
    MembersNone(xs[..i], key, k);
    FilledNext(xs, i, key, groups);
    assert Members(xs[..i], key, k) + [xs[i]] == [xs[i]];
  }

  lemma FilledNext<V(!new), K(!new)>(xs: seq<V>, i: nat, key: V -> K, groups: map<K, seq<V>>)
    requires i < |xs| && Filled(xs[..i], key, groups)
    ensures var k := key(xs[i]); Filled(xs[..i + 1], key, groups[k := Members(xs[..i], key, k) + [xs[i]]])
  {
    var k := key(xs[i]);
    var groups' := groups[k := Members(xs[..i], key, k) + [xs[i]]];
    forall l | l in groups' ensures groups'[l] == Members(xs[..i + 1], key, l) { MembersNext(xs, i, key, l); }
  }

  lemma KeysNext<V, K(!new)>(xs: seq<V>, i: nat, key: V -> K)
    requires i < |xs|
    ensures var ks, k := Keys(xs[..i], key), key(xs[i]); Keys(xs[..i + 1], key) == if k in ks then ks else ks + [k]
  {
    assert xs[..i + 1][..i] == xs[..i];
    assert Map(xs[..i + 1], key)[..i] == Map(xs[..i], key);
  }

  lemma MembersNext<V(!new), K>(xs: seq<V>, i: nat, key: V -> K, l: K)
    requires i < |xs|
    ensures Members(xs[..i + 1], key, l) == Members(xs[..i], key, l) + if l == key(xs[i]) then [xs[i]] else []
  {
    assert xs[..i + 1][..i] == xs[..i];
  }

  lemma MembersNone<V(!new), K(!new)>(xs: seq<V>, key: V -> K, k: K)
    requires k !in Keys(xs, key)
    ensures Members(xs, key, k) == []
  {
    forall x | x in xs ensures key(x) != k {
      KeysIff(xs, key, k);
    }
    if Members(xs, key, k) != [] { HasFirst(Members(xs, key, k)); }
  }

  lemma HasFirst<V(!new)>(s: seq<V>)
    requires s != []
    ensures exists x :: x in s
  {
    assert s[0] in s;
  }

  lemma {:induction false} MembersMultiset<V(!new), K>(xs: seq<V>, key: V -> K, k: K, x: V)
    ensures multiset(Members(xs, key, k))[x] == if key(x) == k then multiset(xs)[x] else 0
  {
    if xs != [] {
      var n := |xs| - 1;
      assert xs == xs[..n] + [xs[n]];
      MembersMultiset(xs[..n], key, k, x);
    }
  }

  /** Permuting the elements permutes each group. */
  lemma MembersPermuted<V(!new), K>(xs: seq<V>, ys: seq<V>, key: V -> K, k: K)
    requires multiset(xs) == multiset(ys)
    ensures multiset(Members(xs, key, k)) == multiset(Members(ys, key, k))
  {
    forall x ensures multiset(Members(xs, key, k))[x] == multiset(Members(ys, key, k))[x] {
      MembersMultiset(xs, key, k, x);
      MembersMultiset(ys, key, k, x);
    }
  }

  lemma KeysIff<V, K(!new)>(xs: seq<V>, key: V -> K, k: K)
    ensures k in Keys(xs, key) <==> exists x :: x in xs && key(x) == k
  {
    if k in Map(xs, key) {
      var i :| 0 <= i < |xs| && Map(xs, key)[i] == k;
      assert xs[i] in xs && key(xs[i]) == k;
    }
    if exists x :: x in xs && key(x) == k {
      var x :| x in xs && key(x) == k;
      var i :| 0 <= i < |xs| && xs[i] == x;
      assert Map(xs, key)[i] == k;
    }
  }

  /** Sequences without repetition and with the same elements are permutations. */
  lemma {:induction false} NoRepeatPermuted<K>(s: seq<K>, t: seq<K>)
    requires NoRepeat(s) && NoRepeat(t) && forall k :: k in s <==> k in t
    ensures multiset(s) == multiset(t)
  {
    forall k ensures multiset(s)[k] == multiset(t)[k] {
      CountOne(s, k);
      CountOne(t, k);
    }
  }

  lemma {:induction false} CountOne<K>(s: seq<K>, k: K)
    requires NoRepeat(s)
    ensures multiset(s)[k] == if k in s then 1 else 0
  {
    if s != [] {
      var n := |s| - 1;
      assert s == s[..n] + [s[n]];
      CountOne(s[..n], k);
      if s[n] == k {
        assert forall i :: 0 <= i < n ==> s[..n][i] == s[i];
      }
    }
  }

  lemma AtLeastTwo<K>(ks: seq<K>, a: K, b: K)
    requires a in ks && b in ks && a != b
    ensures |ks| >= 2
  {}

  lemma SomeOther<K(!new)>(ks: seq<K>, only: K)
    requires NoRepeat(ks) && |ks| >= 2
    ensures exists k :: k in ks && k != only
  {
    assert ks[0] in ks && ks[1] in ks;
  }

  lemma MapIff<V, K>(xs: seq<V>, f: V -> K, k: K)
    ensures k in Map(xs, f) <==> exists x :: x in xs && f(x) == k
  {
    if k in Map(xs, f) {
      var i :| 0 <= i < |xs| && Map(xs, f)[i] == k;
      assert xs[i] in xs && f(xs[i]) == k;
    }
    if exists x :: x in xs && f(x) == k {
      var x :| x in xs && f(x) == k;
      var i :| 0 <= i < |xs| && xs[i] == x;
      assert Map(xs, f)[i] == k;
    }
  }

  lemma MapSame<V, K(!new)>(xs: seq<V>, ys: seq<V>, f: V -> K)
    requires forall x :: x in xs <==> x in ys
    ensures forall k :: k in Map(xs, f) <==> k in Map(ys, f)
  {
    forall k ensures k in Map(xs, f) <==> k in Map(ys, f) {
      MapIff(xs, f, k);
      MapIff(ys, f, k);
    }
  }

  /** Permuting the elements permutes the keys. */
  lemma KeysPermuted<V(!new), K(!new)>(xs: seq<V>, ys: seq<V>, key: V -> K)
    requires forall x :: x in xs <==> x in ys
    ensures multiset(Keys(xs, key)) == multiset(Keys(ys, key))
  {
    MapSame(xs, ys, key);
    NoRepeatPermuted(Keys(xs, key), Keys(ys, key));
  }

  // ----- collecting what each key gives -----

  function FlatMap<K, V>(ks: seq<K>, f: K -> seq<V>): seq<V> {
    if ks == [] then [] else FlatMap(ks[..|ks| - 1], f) + f(ks[|ks| - 1])
  }

  lemma FlatMapNext<K, V>(ks: seq<K>, i: nat, f: K -> seq<V>)
    requires i < |ks|
    ensures FlatMap(ks[..i + 1], f) == FlatMap(ks[..i], f) + f(ks[i])
  {
    assert ks[..i + 1][..i] == ks[..i];
  }

  /** Collect what each key gives, one key after the other. */
  method Collect<K, V>(ks: seq<K>, f: K -> seq<V>) returns (all: seq<V>)
    ensures all == FlatMap(ks, f)
  {
    all := [];
    for i := 0 to |ks|
      invariant all == FlatMap(ks[..i], f)
    {
      FlatMapNext(ks, i, f);
      all := all + f(ks[i]);
    }
    assert ks[..|ks|] == ks;
  }

  lemma {:induction false} FlatMapIff<K(!new), V>(ks: seq<K>, f: K -> seq<V>, v: V)
    ensures v in FlatMap(ks, f) <==> exists k :: k in ks && v in f(k)
  {
    if ks != [] {
      var n := |ks| - 1;
      assert ks == ks[..n] + [ks[n]];
      FlatMapIff(ks[..n], f, v);
    }
  }

  lemma FlatMapHas<K(!new), V>(ks: seq<K>, f: K -> seq<V>, k: K, v: V)
    requires k in ks && v in f(k)
    ensures v in FlatMap(ks, f)
  {
    FlatMapIff(ks, f, v);
  }

  lemma FlatMapSource<K(!new), V>(ks: seq<K>, f: K -> seq<V>, v: V) returns (k: K)
    requires v in FlatMap(ks, f)
    ensures k in ks && v in f(k)
  {
    FlatMapIff(ks, f, v);
    k :| k in ks && v in f(k);
  }

  lemma {:induction false} FlatMapAppend<K, V>(a: seq<K>, b: seq<K>, f: K -> seq<V>)
    ensures FlatMap(a + b, f) == FlatMap(a, f) + FlatMap(b, f)
  {
    if b == [] {
      assert a + b == a;
    } else {
      var n := |b| - 1;
      assert (a + b)[..|a + b| - 1] == a + b[..n];
      FlatMapAppend(a, b[..n], f);
    }
  }

  lemma FlatMapOne<K, V>(k: K, f: K -> seq<V>)
    ensures FlatMap([k], f) == f(k)
  {
    assert [k][..0] == [];
  }

  /** Taking one key out takes out what it gives. */
  lemma FlatMapWithout<K, V>(ks: seq<K>, j: nat, f: K -> seq<V>)
    requires j < |ks|
    ensures multiset(FlatMap(ks, f)) == multiset(FlatMap(ks[..j] + ks[j + 1..], f)) + multiset(f(ks[j]))
  {
    assert ks == ks[..j] + ([ks[j]] + ks[j + 1..]);
    FlatMapAppend(ks[..j], [ks[j]] + ks[j + 1..], f);
    FlatMapAppend([ks[j]], ks[j + 1..], f);
    FlatMapOne(ks[j], f);
    FlatMapAppend(ks[..j], ks[j + 1..], f);
  }

  /** Permuted keys, and the same contribution of every key, give a permutation. */
  lemma {:induction false} FlatMapPermuted<K(!new), V>(ks: seq<K>, ls: seq<K>, f: K -> seq<V>, g: K -> seq<V>)
    requires multiset(ks) == multiset(ls) && forall k :: k in ks ==> f(k) == g(k)
    ensures multiset(FlatMap(ks, f)) == multiset(FlatMap(ls, g))
  {
    if ks == [] {
      assert |multiset(ls)| == 0;
    } else {
      var n := |ks| - 1;
      var k := ks[n];
      assert ks == ks[..n] + [k];
      var j, rest := Without(ks, ls);
      FlatMapPermuted(ks[..n], rest, f, g);
      FlatMapWithout(ls, j, g);
    }
  }

  /** Where the last of `ks` stands in the permutation `ls`, and the rest of `ls`. */
  lemma Without<K>(ks: seq<K>, ls: seq<K>) returns (j: nat, rest: seq<K>)
    requires ks != [] && multiset(ks) == multiset(ls)
    ensures j < |ls| && ls[j] == ks[|ks| - 1] && rest == ls[..j] + ls[j + 1..]
    ensures multiset(ks[..|ks| - 1]) == multiset(rest)
  {
    var k := ks[|ks| - 1];
    SameElements(ks, ls);
    assert k in ls;
    j :| 0 <= j < |ls| && ls[j] == k;
    rest := ls[..j] + ls[j + 1..];
    LastOut(ks);
    OneOut(ls, j);
    var front := multiset(ks[..|ks| - 1]);
    assert front + multiset{k} - multiset{k} == front;
    assert multiset(rest) + multiset{k} - multiset{k} == multiset(rest);
  }

  lemma OneOut<K>(ls: seq<K>, j: nat)
    requires j < |ls|
    ensures multiset(ls) == multiset(ls[..j] + ls[j + 1..]) + multiset{ls[j]}
  {
    assert ls == ls[..j] + [ls[j]] + ls[j + 1..];
  }

  lemma LastOut<K>(ks: seq<K>)
    requires ks != []
    ensures multiset(ks) == multiset(ks[..|ks| - 1]) + multiset{ks[|ks| - 1]}
  {
    assert ks == ks[..|ks| - 1] + [ks[|ks| - 1]];
  }

  // ----- groups are a partition -----

  function Slice<V(!new), K(==)>(xs: seq<V>, key: V -> K): K -> seq<V> {
    (k: K) => Members(xs, key, k)
  }

  lemma {:induction false} GroupCount<V(!new), K(!new)>(xs: seq<V>, key: V -> K, ks: seq<K>, x: V)
    requires NoRepeat(ks)
    ensures multiset(FlatMap(ks, Slice(xs, key)))[x] == if key(x) in ks then multiset(xs)[x] else 0
  {
    if ks != [] {
      var n := |ks| - 1;
      assert ks == ks[..n] + [ks[n]];
      GroupCount(xs, key, ks[..n], x);
      MembersMultiset(xs, key, ks[n], x);
    }
  }

  /** Every element lands in exactly one group, as often as it occurs. */
  lemma GroupsPartition<V(!new), K(!new)>(xs: seq<V>, key: V -> K)
    ensures multiset(FlatMap(Keys(xs, key), Slice(xs, key))) == multiset(xs)
  {
    forall x ensures multiset(FlatMap(Keys(xs, key), Slice(xs, key)))[x] == multiset(xs)[x] {
      GroupCount(xs, key, Keys(xs, key), x);
      KeysIff(xs, key, key(x));
      assert x in xs <==> multiset(xs)[x] > 0;
    }
  }

  /** Collecting from what was collected. */
  lemma {:induction false} FlatMapTwice<K, U, V>(ks: seq<K>, f: K -> seq<U>, g: U -> seq<V>, h: K -> seq<V>)
    requires forall k :: k in ks ==> FlatMap(f(k), g) == h(k)
    ensures FlatMap(FlatMap(ks, f), g) == FlatMap(ks, h)
  {
    if ks != [] {
      var n := |ks| - 1;
      assert ks == ks[..n] + [ks[n]];
      FlatMapTwice(ks[..n], f, g, h);
      FlatMapAppend(FlatMap(ks[..n], f), f(ks[n]), g);
    }
  }

  // ----- order -----

  lemma {:induction false} FirstSeenHead<K(!new)>(ks: seq<K>)
    requires ks != []
    ensures FirstSeen(ks) != [] && FirstSeen(ks)[0] == ks[0]
  {
    if |ks| > 1 {
      FirstSeenHead(ks[..|ks| - 1]);
    } else {
      assert ks[..0] == [];
    }
  }

  /** The first element's key comes before all other keys. */
  lemma KeyOfFirst<V, K(!new)>(xs: seq<V>, key: V -> K, l: K)
    requires xs != [] && l in Keys(xs, key) && l != key(xs[0])
    ensures Precedes(Keys(xs, key), key(xs[0]), l)
  {
    FirstSeenHead(Map(xs, key));
    var j :| 0 <= j < |Keys(xs, key)| && Keys(xs, key)[j] == l;
  }

  lemma {:induction false} MembersOrder<V(!new), K>(xs: seq<V>, key: V -> K, k: K, a: V, b: V)
    requires Precedes(xs, a, b) && key(a) == k && key(b) == k
    ensures Precedes(Members(xs, key, k), a, b)
  {
    var n := |xs| - 1;
    var last := if key(xs[n]) == k then [xs[n]] else [];
    PrecedesSplit(xs, a, b);
    if Precedes(xs[..n], a, b) { MembersOrder(xs[..n], key, k, a, b); }
    PrecedesAppend(Members(xs[..n], key, k), last, a, b);
  }

  lemma {:induction false} MembersNoRepeat<V(!new), K>(xs: seq<V>, key: V -> K, k: K)
    requires NoRepeat(xs)
    ensures NoRepeat(Members(xs, key, k))
  {
    if xs != [] {
      var n := |xs| - 1;
      assert forall i :: 0 <= i < n ==> xs[..n][i] != xs[n];
      MembersNoRepeat(xs[..n], key, k);
    }
  }

  /** What one key gives stays in its order. */
  lemma {:induction false} FlatMapKeepsOrder<K(!new), V>(ks: seq<K>, f: K -> seq<V>, k: K, a: V, b: V)
    requires k in ks && Precedes(f(k), a, b)
    ensures Precedes(FlatMap(ks, f), a, b)
  {
    var n := |ks| - 1;
    assert ks == ks[..n] + [ks[n]];
    if k in ks[..n] { FlatMapKeepsOrder(ks[..n], f, k, a, b); }
    PrecedesAppend(FlatMap(ks[..n], f), f(ks[n]), a, b);
  }

  /** What an earlier key gives comes first. */
  lemma {:induction false} FlatMapOrder<K(!new), V>(ks: seq<K>, f: K -> seq<V>, k: K, l: K, a: V, b: V)
    requires Precedes(ks, k, l) && a in f(k) && b in f(l)
    ensures Precedes(FlatMap(ks, f), a, b)
  {
    var n := |ks| - 1;
    PrecedesSplit(ks, k, l);
    if Precedes(ks[..n], k, l) {
      FlatMapOrder(ks[..n], f, k, l, a, b);
    } else {
      FlatMapHas(ks[..n], f, k, a);
    }
    PrecedesAppend(FlatMap(ks[..n], f), f(ks[n]), a, b);
  }

  /** `tag` tells which key a value came from. */
  ghost predicate Tagged<K, V(!new)>(ks: seq<K>, f: K -> seq<V>, tag: V -> K) {
    forall i, v :: 0 <= i < |ks| && v in f(ks[i]) ==> tag(v) == ks[i]
  }

  lemma {:induction false} FlatMapNoRepeat<K(!new), V(!new)>(ks: seq<K>, f: K -> seq<V>, tag: V -> K)
    requires NoRepeat(ks) && Tagged(ks, f, tag) && forall k :: k in ks ==> NoRepeat(f(k))
    ensures NoRepeat(FlatMap(ks, f))
  {
    if ks != [] {
      var n := |ks| - 1;
      assert ks == ks[..n] + [ks[n]];
      FlatMapNoRepeat(ks[..n], f, tag);
      forall v | v in FlatMap(ks[..n], f) ensures v !in f(ks[n]) {
        var k := FlatMapSource(ks[..n], f, v);
        assert tag(v) == k && k != ks[n];
      }
      Apart(FlatMap(ks[..n], f), f(ks[n]));
    }
  }

  lemma Apart<V(!new)>(s: seq<V>, t: seq<V>)
    requires NoRepeat(s) && NoRepeat(t) && forall v :: v in s ==> v !in t
    ensures NoRepeat(s + t)
  {
    var r := s + t;
    forall i, j | 0 <= i < j < |r| ensures r[i] != r[j] {
      assert i < |s| ==> r[i] in s;
      assert j >= |s| ==> r[j] in t;
    }
  }
}
