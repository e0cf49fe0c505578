/** When the result of `compareDrift` depends on the order of the observations: exactly
    when something is left to it. */
module DriftOrder {
  import opened Prelude
  import opened Ordering
  import opened Grouping
  import opened DriftCompare
  import opened DriftInvariance

  /** All orders of the observations give one result. */
  ghost predicate OrderFree(locale: Locale, peers: seq<string>, min: int, obs: seq<Observation>) {
    forall a :: multiset(a) == multiset(obs) ==> Compare(locale, peers, min, a) == Compare(locale, peers, min, obs)
  }

  /** `o` moved to the front. */
  function Fronted(obs: seq<Observation>, i: nat): (r: seq<Observation>)
    requires i < |obs|
    ensures multiset(r) == multiset(obs) && r[0] == obs[i]
  {
    assert obs == obs[..i] + [obs[i]] + obs[i + 1..];
    [obs[i]] + (obs[..i] + obs[i + 1..])
  }

  lemma FrontLast<V>(xs: seq<V>, x: V)
    requires xs != []
    ensures var n, ys := |xs| - 1, [x] + xs; |ys| == n + 2 && ys[..n + 1] == [x] + xs[..n] && ys[n + 1] == xs[n]
  {}

  lemma {:induction false} MembersFront<V(!new), K>(xs: seq<V>, key: V -> K, x: V)
    ensures Members([x] + xs, key, key(x)) == [x] + Members(xs, key, key(x))
  {
    if xs == [] {
      assert [x] + xs == [x] && [x][..0] == [];
    } else {
      var n := |xs| - 1;
      var last := if key(xs[n]) == key(x) then [xs[n]] else [];
      MembersFront(xs[..n], key, x);
      FrontLast(xs, x);
      assert Members([x] + xs, key, key(x)) == Members([x] + xs[..n], key, key(x)) + last;
      assert Members(xs, key, key(x)) == Members(xs[..n], key, key(x)) + last;
    }
  }

  /** The symbol's observations then start with `o` as well, and so does its bucket. */
  lemma FrontMembers(obs: seq<Observation>, i: nat)
    requires i < |obs|
    ensures var r, o := Fronted(obs, i), obs[i];
            var ms := Members(r, SymbolKey, SymbolKey(o));
            ms != [] && ms[0] == o
            && Members(ms, BucketKey, BucketKey(o)) != [] && Members(ms, BucketKey, BucketKey(o))[0] == o
  {
    var o, rest := obs[i], obs[..i] + obs[i + 1..];
    MembersFront(rest, SymbolKey, o);
    MembersFront(Members(rest, SymbolKey, SymbolKey(o)), BucketKey, o);
  }

  /** Some skew candidate of the symbol has a group with the sentinel as signature. */
  predicate ShowsSentinel(cs: seq<Candidate>, key: string) {
    exists c, g :: c in cs && c.symbolKey == key && c.driftKind.SignatureSkew?
      && g in c.groups && g.signature == Some(Sentinel())
  }

  lemma BucketIn(ms: seq<Observation>, k: string)
    requires k in Keys(ms, BucketKey)
    ensures GroupOf(Members(ms, BucketKey, k)) in Buckets(ms)
  {
    FlatMapHas(Keys(ms, BucketKey), Bucket(ms), k, GroupOf(Members(ms, BucketKey, k)));
  }

  /** A signature that leads its bucket has a group of its own. */
  lemma BucketNonNull(ms: seq<Observation>, o: Observation, k: string) returns (g: Group)
    requires o in ms && BucketKey(o) == k && Members(ms, BucketKey, k) != []
    requires Members(ms, BucketKey, k)[0].signature == Some(k)
    ensures g == GroupOf(Members(ms, BucketKey, k)) && g in NonNull(Buckets(ms)) && g.signature == Some(k)
  {
    KeysIff(ms, BucketKey, k);
    BucketIn(ms, k);
    g := GroupOf(Members(ms, BucketKey, k));
    FirstLends(Members(ms, BucketKey, k));
    NonNullHas(Buckets(ms), g);
  }

  lemma FirstLends(ms: seq<Observation>)
    requires ms != []
    ensures GroupOf(ms).signature == ms[0].signature
  {}

  lemma NonNullHas(gs: seq<Group>, g: Group)
    requires g in gs && g.signature.Some?
    ensures g in NonNull(gs)
  {}

  /** When a missing signature comes first, the sentinel does not show. */
  lemma NullFirst(locale: Locale, peers: seq<string>, min: int, obs: seq<Observation>, i: nat)
    requires i < |obs| && obs[i].signature.None?
    ensures !ShowsSentinel(Compare(locale, peers, min, Fronted(obs, i)), SymbolKey(obs[i]))
  {
    var r, key := Fronted(obs, i), SymbolKey(obs[i]);
    var ms := Members(r, SymbolKey, key);
    FrontMembers(obs, i);
    var cs := Candidates(locale, peers, min, r);
    SameElements(cs, Sort(cs, CandidateLe(locale)));
    forall c, g | c in cs && c.symbolKey == key && c.driftKind.SignatureSkew? && g in c.groups
      ensures g.signature != Some(Sentinel())
    {
      CandidateKey(locale, peers, min, r, c);
      SkewOf(locale, peers, min, key, ms, c);
      SkewGroups(locale, key, ms[0].name, ms[0].kind, ms, c);
      if g.signature == Some(Sentinel()) {
        GroupIsBucket(ms, g);
      }
    }
  }

  lemma SkewOf(locale: Locale, peers: seq<string>, min: int, key: string, ms: seq<Observation>, c: Candidate)
    requires ms != [] && c in OfSymbol(locale, peers, min, key, ms) && c.driftKind.SignatureSkew?
    ensures c in Skew(locale, key, ms[0].name, ms[0].kind, ms)
  {
    RenameOne(key, ms[0].name, ms[0].kind, ms, peers);
  }

  /** When the real signature comes first, it shows. */
  lemma SentinelFirst(locale: Locale, peers: seq<string>, min: int, obs: seq<Observation>, i: nat)
    requires i < |obs| && obs[i].signature == Some(Sentinel())
    requires |Members(obs, SymbolKey, SymbolKey(obs[i]))| >= min && HasOther(Members(obs, SymbolKey, SymbolKey(obs[i])))
    ensures ShowsSentinel(Compare(locale, peers, min, Fronted(obs, i)), SymbolKey(obs[i]))
  {
    var r, key := Fronted(obs, i), SymbolKey(obs[i]);
    var ms := Members(r, SymbolKey, key);
    FrontMembers(obs, i);
    MembersPermuted(obs, r, SymbolKey, key);
    SameElements(Members(obs, SymbolKey, key), ms);
    var g := GroupOf(Members(ms, BucketKey, Sentinel()));
    TwoGroups(ms);
    SkewEmitted(locale, peers, min, r, key, g);
  }

  /** The sentinel's bucket and another one both have signatures. */
  lemma TwoGroups(ms: seq<Observation>)
    requires HasOther(ms) && ms != [] && ms[0].signature == Some(Sentinel())
    requires Members(ms, BucketKey, Sentinel()) != [] && Members(ms, BucketKey, Sentinel())[0] == ms[0]
    ensures GroupOf(Members(ms, BucketKey, Sentinel())) in NonNull(Buckets(ms)) && |NonNull(Buckets(ms))| >= 2
  {
    var o :| o in ms && o.signature.Some? && o.signature.value != Sentinel();
    var k := o.signature.value;
    var g := BucketNonNull(ms, ms[0], Sentinel());
    OtherLeads(ms, o, k);
    var h := BucketNonNull(ms, o, k);
    AtLeastTwo(NonNull(Buckets(ms)), g, h);
  }

  /** Only one signature can lead a bucket other than the sentinel's. */
  lemma OtherLeads(ms: seq<Observation>, o: Observation, k: string)
    requires o in ms && o.signature == Some(k) && k != Sentinel()
    ensures Members(ms, BucketKey, k) != [] && Members(ms, BucketKey, k)[0].signature == Some(k)
  {
    KeysIff(ms, BucketKey, k);
    BucketMember(ms, k);
  }

  lemma SymbolShown(locale: Locale, peers: seq<string>, min: int, obs: seq<Observation>, key: string, c: Candidate)
    requires key in Keys(obs, SymbolKey) && c in OfSymbol(locale, peers, min, key, Members(obs, SymbolKey, key))
    ensures c in Compare(locale, peers, min, obs)
  {
    FlatMapHas(Keys(obs, SymbolKey), Symbol(locale, peers, min, obs), key, c);
    var cs := Candidates(locale, peers, min, obs);
    SameElements(cs, Sort(cs, CandidateLe(locale)));
  }

  lemma SkewGives(locale: Locale, key: string, name: string, kind: Kind, ms: seq<Observation>) returns (c: Candidate)
    requires |NonNull(Buckets(ms))| >= 2
    ensures c in Skew(locale, key, name, kind, ms) && c.symbolKey == key && c.driftKind.SignatureSkew?
  {
    c := Skew(locale, key, name, kind, ms)[0];
  }

  lemma OfSymbolHas(locale: Locale, peers: seq<string>, min: int, key: string, ms: seq<Observation>, c: Candidate)
    requires ms != [] && |ms| >= min && c in Skew(locale, key, ms[0].name, ms[0].kind, ms)
    ensures c in OfSymbol(locale, peers, min, key, ms)
  {}

  lemma SkewEmitted(locale: Locale, peers: seq<string>, min: int, obs: seq<Observation>, key: string, g: Group)
    requires var ms := Members(obs, SymbolKey, key);
             ms != [] && |ms| >= min && |NonNull(Buckets(ms))| >= 2 && g in NonNull(Buckets(ms))
    requires g.signature == Some(Sentinel())
    ensures ShowsSentinel(Compare(locale, peers, min, obs), key)
  {
    var ms := Members(obs, SymbolKey, key);
    var c := SkewGives(locale, key, ms[0].name, ms[0].kind, ms);
    SkewGroups(locale, key, ms[0].name, ms[0].kind, ms, c);
    OfSymbolHas(locale, peers, min, key, ms, c);
    assert ms[0] in ms;
    KeysIff(obs, SymbolKey, key);
    SymbolShown(locale, peers, min, obs, key, c);
    ShownBy(Compare(locale, peers, min, obs), key, c, g);
  }

  lemma ShownBy(cs: seq<Candidate>, key: string, c: Candidate, g: Group)
    requires c in cs && c.symbolKey == key && c.driftKind.SignatureSkew?
    requires g in c.groups && g.signature == Some(Sentinel())
    ensures ShowsSentinel(cs, key)
  {
  }

  lemma Differ(locale: Locale, peers: seq<string>, min: int, obs: seq<Observation>, i: nat, j: nat)
    requires i < |obs| && j < |obs|
    requires Compare(locale, peers, min, Fronted(obs, i)) != Compare(locale, peers, min, Fronted(obs, j))
    ensures !OrderFree(locale, peers, min, obs)
  {
    var a, b := Fronted(obs, i), Fronted(obs, j);
    assert multiset(a) == multiset(obs) == multiset(b);
  }

  lemma IndexOf<V>(xs: seq<V>, x: V) returns (i: nat)
    requires x in xs
    ensures i < |xs| && xs[i] == x
  {
    i :| 0 <= i < |xs| && xs[i] == x;
  }

  lemma NullPlace(obs: seq<Observation>, key: string) returns (i: nat)
    requires HasNull(Members(obs, SymbolKey, key))
    ensures i < |obs| && SymbolKey(obs[i]) == key && obs[i].signature.None?
  {
    var o :| o in Members(obs, SymbolKey, key) && o.signature.None?;
    i := IndexOf(obs, o);
  }

  lemma SentinelPlace(obs: seq<Observation>, key: string) returns (i: nat)
    requires HasSentinel(Members(obs, SymbolKey, key))
    ensures i < |obs| && SymbolKey(obs[i]) == key && obs[i].signature == Some(Sentinel())
  {
    var o :| o in Members(obs, SymbolKey, key) && o.signature == Some(Sentinel());
    i := IndexOf(obs, o);
  }

  /** If some symbol is ambiguous, the order of the observations matters. */
  lemma AmbiguousMatters(locale: Locale, peers: seq<string>, min: int, obs: seq<Observation>)
    requires !Clean(min, obs)
    ensures !OrderFree(locale, peers, min, obs)
  {
    var key :| |Members(obs, SymbolKey, key)| >= min && Ambiguous(Members(obs, SymbolKey, key));
    var i := NullPlace(obs, key);
    var j := SentinelPlace(obs, key);
    NullFirst(locale, peers, min, obs, i);
    SentinelFirst(locale, peers, min, obs, j);
    Differ(locale, peers, min, obs, i, j);
  }

  // ----- two signatures of the same rank -----

  /** Some skew candidate of the symbol lists `g` before `h`. */
  predicate ListsBefore(cs: seq<Candidate>, key: string, g: Group, h: Group) {
    exists c :: c in cs && c.symbolKey == key && c.driftKind.SignatureSkew? && Precedes(c.groups, g, h)
  }

  lemma TwoSignatures(ms: seq<Observation>, g: Group, h: Group)
    requires g in NonNull(Buckets(ms)) && h in NonNull(Buckets(ms)) && g != h && !Ambiguous(ms)
    ensures HasOther(ms) && !(HasNull(ms) && HasSentinel(ms)) && g.signature.value != h.signature.value
  {
    var o := GroupLent(ms, g);
    var p := GroupLent(ms, h);
    if g.signature == h.signature { SignatureDecides(ms, g, h); }
  }

  function BucketTag(g: Group): string { g.signature.GetOr(Sentinel()) }

  lemma BucketsNoRepeat(ms: seq<Observation>)
    ensures NoRepeat(NonNull(Buckets(ms)))
  {
    var ks, f := Keys(ms, BucketKey), Bucket(ms);
    forall k | k in ks ensures f(k) == [GroupOf(Members(ms, BucketKey, k))] && BucketTag(f(k)[0]) == k {
      BucketMember(ms, k);
    }
    FlatMapNoRepeat(ks, f, BucketTag);
    MembersNoRepeat(Buckets(ms), HasSignature, true);
  }

  /** A group whose signature comes first is listed before all others of its rank. */
  lemma FirstBucket(ms: seq<Observation>, g: Group, h: Group)
    requires g in NonNull(Buckets(ms)) && h in NonNull(Buckets(ms)) && ms != []
    requires g.signature == Some(BucketKey(ms[0])) && h.signature != g.signature
    ensures Precedes(NonNull(Buckets(ms)), g, h)
  {
    GroupIsBucket(ms, g);
    GroupIsBucket(ms, h);
    var k, l := g.signature.value, h.signature.value;
    KeyOfFirst(ms, BucketKey, l);
    FlatMapOrder(Keys(ms, BucketKey), Bucket(ms), k, l, g, h);
    MembersOrder(Buckets(ms), HasSignature, true, g, h);
  }

  lemma GroupsKept(ms: seq<Observation>, ms': seq<Observation>, g: Group)
    requires multiset(ms) == multiset(ms') && !(HasNull(ms) && HasSentinel(ms)) && g in NonNull(Buckets(ms))
    ensures g in NonNull(Buckets(ms'))
  {
    BucketsPermuted(ms, ms');
    SameElements(Buckets(ms), Buckets(ms'));
  }

  function GroupsOf(obs: seq<Observation>, key: string): seq<Group> {
    NonNull(Buckets(Members(obs, SymbolKey, key)))
  }

  /** Which observation to move to the front so that `g` comes before `h`. */
  lemma FrontGroup(obs: seq<Observation>, key: string, g: Group, h: Group) returns (i: nat)
    requires g in GroupsOf(obs, key) && h in GroupsOf(obs, key) && g != h && !Ambiguous(Members(obs, SymbolKey, key))
    ensures i < |obs| && Precedes(GroupsOf(Fronted(obs, i), key), g, h)
  {
    var ms := Members(obs, SymbolKey, key);
    TwoSignatures(ms, g, h);
    var o := GroupLent(ms, g);
    i := IndexOf(obs, o);
    var r := Fronted(obs, i);
    var ms' := Members(r, SymbolKey, key);
    FrontMembers(obs, i);
    MembersPermuted(obs, r, SymbolKey, key);
    GroupsKept(ms, ms', g);
    GroupsKept(ms, ms', h);
    FirstBucket(ms', g, h);
  }

  lemma SkewSorted(locale: Locale, key: string, name: string, kind: Kind, ms: seq<Observation>, c: Candidate)
    requires c in Skew(locale, key, name, kind, ms)
    ensures c.groups == Sort(NonNull(Buckets(ms)), GroupLe(locale))
  {}

  /** The groups of a skew candidate are the symbol's groups, sorted. */
  lemma ComparedSkew(locale: Locale, peers: seq<string>, min: int, obs: seq<Observation>, c: Candidate)
    requires c in Compare(locale, peers, min, obs) && c.driftKind.SignatureSkew?
    ensures c.groups == Sort(GroupsOf(obs, c.symbolKey), GroupLe(locale))
  {
    var cs, ms := Candidates(locale, peers, min, obs), Members(obs, SymbolKey, c.symbolKey);
    SameElements(cs, Sort(cs, CandidateLe(locale)));
    CandidateKey(locale, peers, min, obs, c);
    SkewOf(locale, peers, min, c.symbolKey, ms, c);
    SkewSorted(locale, c.symbolKey, ms[0].name, ms[0].kind, ms, c);
  }

  lemma Shown(locale: Locale, peers: seq<string>, min: int, obs: seq<Observation>, key: string, g: Group, h: Group)
    requires Precedes(GroupsOf(obs, key), g, h) && GroupLe(locale)(g, h) && |Members(obs, SymbolKey, key)| >= min
    ensures ListsBefore(Compare(locale, peers, min, obs), key, g, h)
  {
    var ms := Members(obs, SymbolKey, key);
    var c := SkewGives(locale, key, ms[0].name, ms[0].kind, ms);
    SkewSorted(locale, key, ms[0].name, ms[0].kind, ms, c);
    SortStable(GroupsOf(obs, key), GroupLe(locale), g, h);
    OfSymbolHas(locale, peers, min, key, ms, c);
    assert ms[0] in ms;
    KeysIff(obs, SymbolKey, key);
    SymbolShown(locale, peers, min, obs, key, c);
  }

  lemma Hidden(locale: Locale, peers: seq<string>, min: int, obs: seq<Observation>, key: string, g: Group, h: Group)
    requires Precedes(GroupsOf(obs, key), g, h) && GroupLe(locale)(g, h)
    ensures !ListsBefore(Compare(locale, peers, min, obs), key, h, g)
  {
    var gs, le := GroupsOf(obs, key), GroupLe(locale);
    BucketsNoRepeat(Members(obs, SymbolKey, key));
    PermutedOnce(gs, Sort(gs, le));
    SortStable(gs, le, g, h);
    PrecedesOnce(Sort(gs, le), g, h);
    forall c | c in Compare(locale, peers, min, obs) && c.symbolKey == key && c.driftKind.SignatureSkew?
      ensures !Precedes(c.groups, h, g)
    {
      ComparedSkew(locale, peers, min, obs, c);
    }
  }

  lemma LengthKept(obs: seq<Observation>, i: nat, key: string)
    requires i < |obs|
    ensures |Members(Fronted(obs, i), SymbolKey, key)| == |Members(obs, SymbolKey, key)|
  {
    MembersPermuted(obs, Fronted(obs, i), SymbolKey, key);
    SameElements(Members(obs, SymbolKey, key), Members(Fronted(obs, i), SymbolKey, key));
  }

  lemma TiedMatter(locale: Locale, peers: seq<string>, min: int, obs: seq<Observation>, key: string, g: Group, h: Group)
    requires g in GroupsOf(obs, key) && h in GroupsOf(obs, key)
    requires g != h && GroupLe(locale)(g, h) && GroupLe(locale)(h, g)
    requires |Members(obs, SymbolKey, key)| >= min && !Ambiguous(Members(obs, SymbolKey, key))
    ensures !OrderFree(locale, peers, min, obs)
  {
    var i := FrontGroup(obs, key, g, h);
    var j := FrontGroup(obs, key, h, g);
    LengthKept(obs, i, key);
    Shown(locale, peers, min, Fronted(obs, i), key, g, h);
    Hidden(locale, peers, min, Fronted(obs, j), key, h, g);
    Differ(locale, peers, min, obs, i, j);
  }

  /** If two signatures of one symbol tie, the order of the observations matters. */
  lemma GroupTieMatters(locale: Locale, peers: seq<string>, min: int, obs: seq<Observation>)
    requires Clean(min, obs) && !NoGroupTie(locale, min, obs)
    ensures !OrderFree(locale, peers, min, obs)
  {
    var key :| |Members(obs, SymbolKey, key)| >= min && !Separates(GroupLe(locale), GroupsOf(obs, key));
    var gs, le := GroupsOf(obs, key), GroupLe(locale);
    var g, h :| g in gs && h in gs && le(g, h) && le(h, g) && g != h;
    TiedMatter(locale, peers, min, obs, key, g, h);
  }

  // ----- two symbols of the same rank -----

  lemma KeyPlace(obs: seq<Observation>, key: string) returns (i: nat)
    requires key in Keys(obs, SymbolKey)
    ensures i < |obs| && SymbolKey(obs[i]) == key
  {
    KeysIff(obs, SymbolKey, key);
    var o :| o in obs && SymbolKey(o) == key;
    i := IndexOf(obs, o);
  }

  lemma CandidateKept(locale: Locale, peers: seq<string>, min: int, obs: seq<Observation>, r: seq<Observation>,
                      c: Candidate)
    requires Clean(min, obs) && NoGroupTie(locale, min, obs) && multiset(obs) == multiset(r)
    requires c in Candidates(locale, peers, min, obs)
    ensures c in Symbol(locale, peers, min, r)(c.symbolKey) && c.symbolKey in Keys(r, SymbolKey)
  {
    HasKey(locale, peers, min, obs, c);
    SymbolPermuted(locale, peers, peers, min, obs, r, c.symbolKey);
    SameElements(obs, r);
    KeysPermuted(obs, r, SymbolKey);
    SameElements(Keys(obs, SymbolKey), Keys(r, SymbolKey));
  }

  /** Moving an observation of `c`'s symbol to the front puts `c` before `d`. */
  lemma FrontSymbol(locale: Locale, peers: seq<string>, min: int, obs: seq<Observation>, c: Candidate, d: Candidate)
    returns (i: nat)
    requires Clean(min, obs) && NoGroupTie(locale, min, obs) && c.symbolKey != d.symbolKey
    requires c in Candidates(locale, peers, min, obs) && d in Candidates(locale, peers, min, obs)
    ensures i < |obs| && Precedes(Candidates(locale, peers, min, Fronted(obs, i)), c, d)
  {
    HasKey(locale, peers, min, obs, c);
    i := KeyPlace(obs, c.symbolKey);
    var r := Fronted(obs, i);
    CandidateKept(locale, peers, min, obs, r, c);
    CandidateKept(locale, peers, min, obs, r, d);
    KeyOfFirst(r, SymbolKey, d.symbolKey);
    FlatMapOrder(Keys(r, SymbolKey), Symbol(locale, peers, min, r), c.symbolKey, d.symbolKey, c, d);
  }

  lemma CompareNoRepeat(locale: Locale, peers: seq<string>, min: int, obs: seq<Observation>)
    ensures NoRepeat(Compare(locale, peers, min, obs))
  {
    CandidatesNoRepeat(locale, peers, min, obs);
    PermutedOnce(Candidates(locale, peers, min, obs), Compare(locale, peers, min, obs));
  }

  /** If candidates of two symbols tie, the order of the observations matters. */
  lemma SymbolTieMatters(locale: Locale, peers: seq<string>, min: int, obs: seq<Observation>)
    requires Clean(min, obs) && NoGroupTie(locale, min, obs) && !NoSymbolTie(locale, peers, min, obs)
    ensures !OrderFree(locale, peers, min, obs)
  {
    var cs, le := Candidates(locale, peers, min, obs), CandidateLe(locale);
    var c, d :| c in cs && d in cs && le(c, d) && le(d, c) && c.symbolKey != d.symbolKey;
    var i := FrontSymbol(locale, peers, min, obs, c, d);
    var j := FrontSymbol(locale, peers, min, obs, d, c);
    SortStable(Candidates(locale, peers, min, Fronted(obs, i)), le, c, d);
    SortStable(Candidates(locale, peers, min, Fronted(obs, j)), le, d, c);
    CompareNoRepeat(locale, peers, min, Fronted(obs, i));
    PrecedesOnce(Compare(locale, peers, min, Fronted(obs, i)), c, d);
    Differ(locale, peers, min, obs, i, j);
  }

  // ----- exactly when -----

  /** All orders of the observations give one result if and only if no symbol is
      ambiguous, no two of its signatures tie and no two symbols' candidates tie. */
  lemma CompareInvariantIff(locale: Locale, peers: seq<string>, min: int, obs: seq<Observation>)
    ensures Decided(locale, peers, min, obs) <==> OrderFree(locale, peers, min, obs)
  {
    if !Clean(min, obs) {
      AmbiguousMatters(locale, peers, min, obs);
    } else if !NoGroupTie(locale, min, obs) {
      GroupTieMatters(locale, peers, min, obs);
    } else if !NoSymbolTie(locale, peers, min, obs) {
      SymbolTieMatters(locale, peers, min, obs);
    } else {
      forall a | multiset(a) == multiset(obs)
        ensures Compare(locale, peers, min, a) == Compare(locale, peers, min, obs) {
        CompareInvariant(locale, peers, peers, min, obs, a);
      }
    }
  }

  /** A collation that tells the occurring strings apart leaves only ambiguous symbols. */
  lemma OrderFreeIffClean(locale: Locale, peers: seq<string>, min: int, obs: seq<Observation>)
    requires TellsApart(locale, obs)
    ensures OrderFree(locale, peers, min, obs) <==> Clean(min, obs)
  {
    DecidedIffClean(locale, peers, min, obs);
    CompareInvariantIff(locale, peers, min, obs);
  }

  // ----- inputs that fail -----

  lemma MembersTwo<V(!new), K>(a: V, b: V, key: V -> K, k: K)
    ensures Members([a, b], key, k) == (if key(a) == k then [a] else []) + (if key(b) == k then [b] else [])
  {
    assert [a, b][..1] == [a] && [a][..0] == [];
    assert Members([a], key, k) == if key(a) == k then [a] else [];
  }

  lemma KeysTwo<V, K(!new)>(a: V, b: V, key: V -> K)
    ensures Map([a, b], key) == [key(a), key(b)]
    ensures Keys([a, b], key) == if key(a) == key(b) then [key(a)] else [key(a), key(b)]
  {
    var ks := [key(a), key(b)];
    assert ks[..1] == [key(a)] && ks[..1][..0] == [];
    assert FirstSeen([key(a)]) == [key(a)];
  }

  lemma MapOne<V, K>(a: V, f: V -> K)
    ensures Map([a], f) == [f(a)]
  {}

  lemma SortTwo<T>(a: T, b: T, le: (T, T) -> bool)
    ensures Sort([a], le) == [a]
    ensures le(a, b) ==> Sort([a, b], le) == [a, b]
  {
    assert [a, b][..1] == [a] && [a][..0] == [];
  }

  lemma DedupSortOne(x: string)
    ensures DedupSort([x]) == [x]
  {
    assert [x][..0] == [];
    assert FirstSeen([x]) == [x];
  }

  /** Two observations of one symbol whose signatures differ but rank alike. */
  predicate TiedPair(locale: Locale, o: Observation, p: Observation) {
    && SymbolKey(o) == SymbolKey(p) && o.repo != p.repo
    && o.signature.Some? && p.signature.Some? && o.signature != p.signature
    && locale(o.signature.value) == locale(p.signature.value)
  }

  function Lone(o: Observation): Group { Group(o.signature, [o.repo], [o.path]) }

  lemma GroupOfOne(o: Observation)
    ensures GroupOf([o]) == Lone(o)
  {
    MapOne(o, RepoOf);
    MapOne(o, PathOf);
    DedupSortOne(o.repo);
    DedupSortOne(o.path);
  }

  lemma BucketOfOne(obs: seq<Observation>, k: string, o: Observation)
    requires Members(obs, BucketKey, k) == [o]
    ensures Bucket(obs)(k) == [Lone(o)]
  {
    GroupOfOne(o);
  }

  lemma TwoSingles<K, V>(ks: seq<K>, a: K, b: K, f: K -> seq<V>, v: V, w: V)
    requires ks == [a, b] && f(a) == [v] && f(b) == [w]
    ensures FlatMap(ks, f) == [v, w]
  {
    assert [a, b] == [a] + [b];
    FlatMapAppend([a], [b], f);
    FlatMapOne(a, f);
    FlatMapOne(b, f);
  }

  lemma PairKeys(o: Observation, p: Observation)
    requires BucketKey(o) != BucketKey(p)
    ensures Keys([o, p], BucketKey) == [BucketKey(o), BucketKey(p)]
    ensures Members([o, p], BucketKey, BucketKey(o)) == [o] && Members([o, p], BucketKey, BucketKey(p)) == [p]
  {
    KeysTwo(o, p, BucketKey);
    MembersTwo(o, p, BucketKey, BucketKey(o));
    MembersTwo(o, p, BucketKey, BucketKey(p));
  }

  lemma TwoBuckets(obs: seq<Observation>, a: string, b: string, o: Observation, p: Observation)
    requires Keys(obs, BucketKey) == [a, b] && Members(obs, BucketKey, a) == [o] && Members(obs, BucketKey, b) == [p]
    ensures Buckets(obs) == [Lone(o), Lone(p)]
  {
    BucketOfOne(obs, a, o);
    BucketOfOne(obs, b, p);
    TwoSingles(Keys(obs, BucketKey), a, b, Bucket(obs), Lone(o), Lone(p));
  }

  lemma PairGroups(o: Observation, p: Observation, obs: seq<Observation>)
    requires o.signature.Some? && p.signature.Some? && o.signature != p.signature && obs == [o, p]
    ensures NonNull(Buckets(obs)) == [Lone(o), Lone(p)]
  {
    PairKeys(o, p);
    TwoBuckets(obs, BucketKey(o), BucketKey(p), o, p);
    BothHave(Buckets(obs), Lone(o), Lone(p));
  }

  lemma BothHave(gs: seq<Group>, g: Group, h: Group)
    requires gs == [g, h] && g.signature.Some? && h.signature.Some?
    ensures NonNull(gs) == gs
  {
    MembersTwo(g, h, HasSignature, true);
  }

  lemma PairOutliers(r: string, h: Group)
    requires h.repos != [] && h.repos[0] != r && |h.repos| == 1
    ensures DedupSort(FlatMap([h], NotIn([r]))) == h.repos
  {
    var q := h.repos[0];
    FlatMapOne(h, NotIn([r]));
    assert Members([q], IsIn([r]), false) == [q] by { assert [q][..0] == []; }
    assert h.repos == [q];
    DedupSortOne(q);
  }

  function SkewBetween(o: Observation, p: Observation): Candidate {
    Candidate(SymbolKey(o), o.name, o.kind, SignatureSkew, [Lone(o), Lone(p)], [p.repo])
  }

  lemma TiedSorted(locale: Locale, g: Group, h: Group)
    requires |g.repos| == |h.repos| && locale(g.signature.GetOr("")) == locale(h.signature.GetOr(""))
    ensures Sort([g, h], GroupLe(locale)) == [g, h]
  {
    SortTwo(g, h, GroupLe(locale));
  }

  lemma PairSkew(locale: Locale, o: Observation, p: Observation, obs: seq<Observation>)
    requires TiedPair(locale, o, p) && obs == [o, p]
    ensures Skew(locale, SymbolKey(o), o.name, o.kind, obs)
      == [SkewBetween(o, p)]
  {
    var g, h := Lone(o), Lone(p);
    PairGroups(o, p, obs);
    TiedSorted(locale, g, h);
    PairOutliers(o.repo, h);
    SkewTwo(locale, SymbolKey(o), o.name, o.kind, obs, g, h);
  }

  lemma SkewTwo(locale: Locale, key: string, name: string, kind: Kind, obs: seq<Observation>, g: Group, h: Group)
    requires NonNull(Buckets(obs)) == [g, h] && Sort([g, h], GroupLe(locale)) == [g, h]
    ensures Skew(locale, key, name, kind, obs)
      == [Candidate(key, name, kind, SignatureSkew, [g, h], DedupSort(FlatMap([h], NotIn(g.repos))))]
  {
    assert [g, h][1..] == [h];
  }

  lemma NoPeersNoRename(key: string, name: string, kind: Kind, obs: seq<Observation>)
    ensures Rename(key, name, kind, obs, []) == []
  {}

  /** One symbol, hence what it gives. */
  lemma OneSymbol(locale: Locale, o: Observation, p: Observation, obs: seq<Observation>)
    requires SymbolKey(o) == SymbolKey(p) && obs == [o, p]
    ensures Candidates(locale, [], 2, obs) == Skew(locale, SymbolKey(o), o.name, o.kind, obs)
  {
    var key := SymbolKey(o);
    KeysTwo(o, p, SymbolKey);
    MembersTwo(o, p, SymbolKey, key);
    OnlyKey(locale, key, obs);
  }

  lemma OnlyKey(locale: Locale, key: string, obs: seq<Observation>)
    requires Keys(obs, SymbolKey) == [key] && Members(obs, SymbolKey, key) == obs && |obs| >= 2
    ensures Candidates(locale, [], 2, obs) == Skew(locale, key, obs[0].name, obs[0].kind, obs)
  {
    FlatMapOne(key, Symbol(locale, [], 2, obs));
    NoPeersNoRename(key, obs[0].name, obs[0].kind, obs);
  }

  /** The repository that comes second is the outlier, whichever it is. */
  lemma SecondIsOutlier(locale: Locale, o: Observation, p: Observation)
    requires TiedPair(locale, o, p)
    ensures Compare(locale, [], 2, [o, p]) == [SkewBetween(o, p)]
  {
    var obs := [o, p];
    OneSymbol(locale, o, p, obs);
    PairSkew(locale, o, p, obs);
    var c := Candidates(locale, [], 2, obs)[0];
    SortTwo(c, c, CandidateLe(locale));
  }

  lemma PairClean(o: Observation, p: Observation)
    requires o.signature.Some? && p.signature.Some?
    ensures Clean(2, [o, p])
  {}

  lemma Outlying(cs: seq<Candidate>, c: Candidate)
    requires cs == [c]
    ensures forall d :: d in cs ==> d.outliers == c.outliers
  {}

  lemma DifferentOutliers(locale: Locale, peers: seq<string>, min: int, obs: seq<Observation>, obs': seq<Observation>,
                          c: Candidate, d: Candidate)
    requires multiset(obs) == multiset(obs')
    requires Compare(locale, peers, min, obs) == [c]
    requires Compare(locale, peers, min, obs') == [d] && c.outliers != d.outliers
    ensures !OrderFree(locale, peers, min, obs)
  {
    assert Compare(locale, peers, min, obs)[0] != Compare(locale, peers, min, obs')[0];
  }

  /** The order of such a pair decides. */
  lemma TiedPairMatters(locale: Locale, o: Observation, p: Observation)
    requires TiedPair(locale, o, p)
    ensures !OrderFree(locale, [], 2, [o, p])
  {
    SecondIsOutlier(locale, o, p);
    SecondIsOutlier(locale, p, o);
    OtherOutlier(o, p);
    DifferentOutliers(locale, [], 2, [o, p], [p, o], SkewBetween(o, p), SkewBetween(p, o));
  }

  lemma OtherOutlier(o: Observation, p: Observation)
    requires o.repo != p.repo
    ensures SkewBetween(o, p).outliers != SkewBetween(p, o).outliers && multiset([o, p]) == multiset([p, o])
  {
    assert [o.repo][0] != [p.repo][0];
  }

  const ANGSTROM := Observation("r1", "a.ts", "f", "function", Some("\U{00C5}"))
  const RING := Observation("r2", "b.ts", "f", "function", Some("A\U{030A}"))

  /** Two spellings of one letter, which collate alike: no symbol is ambiguous, yet the
      two orders name different outliers. */
  lemma TwoSpellings(locale: Locale)
    requires locale("\U{00C5}") == locale("A\U{030A}")
    ensures Clean(2, [ANGSTROM, RING]) && !OrderFree(locale, [], 2, [ANGSTROM, RING])
    ensures forall c :: c in Compare(locale, [], 2, [ANGSTROM, RING]) ==> c.outliers == ["r2"]
    ensures forall c :: c in Compare(locale, [], 2, [RING, ANGSTROM]) ==> c.outliers == ["r1"]
  {
    PairClean(ANGSTROM, RING);
    TiedPairMatters(locale, ANGSTROM, RING);
    SecondIsOutlier(locale, ANGSTROM, RING);
    SecondIsOutlier(locale, RING, ANGSTROM);
    Outlying(Compare(locale, [], 2, [ANGSTROM, RING]), SkewBetween(ANGSTROM, RING));
    Outlying(Compare(locale, [], 2, [RING, ANGSTROM]), SkewBetween(RING, ANGSTROM));
  }
}
