/** When `compareDrift` depends only on which observations and peers there are, not
    on their order. */
module DriftInvariance {
  import opened Prelude
  import opened Ordering
  import opened Grouping
  import opened DriftCompare

  ghost predicate SameSet(a: seq<string>, b: seq<string>) {
    forall x :: x in a <==> x in b
  }

  lemma DedupSortIff(xs: seq<string>, x: string)
    ensures x in DedupSort(xs) <==> x in xs
  {
    SameElements(FirstSeen(xs), Sort(FirstSeen(xs), StrLe));
  }

  lemma DedupSortSame(a: seq<string>, b: seq<string>)
    requires SameSet(a, b)
    ensures DedupSort(a) == DedupSort(b)
  {
    NoRepeatPermuted(FirstSeen(a), FirstSeen(b));
    StrSortUnique(FirstSeen(a), FirstSeen(b));
  }

  lemma DedupSortMap(ms: seq<Observation>, ns: seq<Observation>, f: Observation -> string)
    requires multiset(ms) == multiset(ns)
    ensures DedupSort(Map(ms, f)) == DedupSort(Map(ns, f))
  {
    SameElements(ms, ns);
    MapSame(ms, ns, f);
    DedupSortSame(Map(ms, f), Map(ns, f));
  }

  // ----- groups -----

  /** All observations carry the same signature. */
  ghost predicate Agree(ms: seq<Observation>) {
    forall a, b :: a in ms && b in ms ==> a.signature == b.signature
  }

  lemma GroupSame(ms: seq<Observation>, ns: seq<Observation>)
    requires multiset(ms) == multiset(ns) && Agree(ms)
    ensures GroupOf(ms) == GroupOf(ns)
  {
    SameElements(ms, ns);
    DedupSortMap(ms, ns, RepoOf);
    DedupSortMap(ms, ns, PathOf);
    if ms != [] {
      assert ms[0] in ms && ns[0] in ms;
    }
  }

  predicate HasNull(obs: seq<Observation>) {
    exists o :: o in obs && o.signature.None?
  }

  predicate HasSentinel(obs: seq<Observation>) {
    exists o :: o in obs && o.signature == Some(Sentinel())
  }

  /** A signature other than the sentinel. */
  predicate HasOther(obs: seq<Observation>) {
    exists o :: o in obs && o.signature.Some? && o.signature.value != Sentinel()
  }

  /** Missing signatures share a bucket with a real one that spells the sentinel, and
      there is some other signature to disagree with. */
  predicate Ambiguous(obs: seq<Observation>) {
    HasNull(obs) && HasSentinel(obs) && HasOther(obs)
  }

  lemma BucketAgree(obs: seq<Observation>, k: string)
    requires !(HasNull(obs) && HasSentinel(obs))
    ensures Agree(Members(obs, BucketKey, k))
  {}

  lemma BucketSame(obs: seq<Observation>, obs': seq<Observation>, k: string)
    requires multiset(obs) == multiset(obs') && !(HasNull(obs) && HasSentinel(obs))
    ensures GroupOf(Members(obs, BucketKey, k)) == GroupOf(Members(obs', BucketKey, k))
  {
    MembersPermuted(obs, obs', BucketKey, k);
    BucketAgree(obs, k);
    GroupSame(Members(obs, BucketKey, k), Members(obs', BucketKey, k));
  }

  lemma BucketsPermuted(obs: seq<Observation>, obs': seq<Observation>)
    requires multiset(obs) == multiset(obs') && !(HasNull(obs) && HasSentinel(obs))
    ensures multiset(Buckets(obs)) == multiset(Buckets(obs'))
  {
    SameElements(obs, obs');
    KeysPermuted(obs, obs', BucketKey);
    forall k ensures Bucket(obs)(k) == Bucket(obs')(k) { BucketSame(obs, obs', k); }
    FlatMapPermuted(Keys(obs, BucketKey), Keys(obs', BucketKey), Bucket(obs), Bucket(obs'));
  }

  lemma BucketMember(obs: seq<Observation>, k: string)
    requires k in Keys(obs, BucketKey)
    ensures var ms := Members(obs, BucketKey, k); ms != [] && BucketKey(ms[0]) == k
  {
    KeysIff(obs, BucketKey, k);
    var o :| o in obs && BucketKey(o) == k;
    var ms := Members(obs, BucketKey, k);
    assert o in ms;
    assert ms[0] in ms;
  }

  /** A group with a signature is the bucket of that signature. */
  lemma GroupIsBucket(obs: seq<Observation>, g: Group)
    requires g in Buckets(obs) && g.signature.Some?
    ensures g == GroupOf(Members(obs, BucketKey, g.signature.value))
    ensures g.signature.value in Keys(obs, BucketKey)
  {
    var k := FromBucket(obs, g);
    BucketMember(obs, k);
    GroupSignature(Members(obs, BucketKey, k), k);
  }

  lemma BucketHolds(obs: seq<Observation>, k: string, g: Group)
    requires g in Bucket(obs)(k)
    ensures g == GroupOf(Members(obs, BucketKey, k))
  {}

  lemma FromBucket(obs: seq<Observation>, g: Group) returns (k: string)
    requires g in Buckets(obs)
    ensures k in Keys(obs, BucketKey) && g == GroupOf(Members(obs, BucketKey, k))
  {
    k := FlatMapSource(Keys(obs, BucketKey), Bucket(obs), g);
    BucketHolds(obs, k, g);
  }

  lemma GroupSignature(ms: seq<Observation>, k: string)
    requires ms != [] && BucketKey(ms[0]) == k
    ensures GroupOf(ms).signature.Some? ==> GroupOf(ms).signature.value == k
  {}

  lemma SignatureDecides(obs: seq<Observation>, a: Group, b: Group)
    requires a in NonNull(Buckets(obs)) && b in NonNull(Buckets(obs)) && a.signature == b.signature
    ensures a == b
  {
    GroupIsBucket(obs, a);
    GroupIsBucket(obs, b);
  }

  lemma GroupOrder(locale: Locale)
    ensures Preorder(GroupLe(locale))
  {}

  /** Without another signature there is at most one bucket, hence no skew. */
  lemma NoOtherNoSkew(locale: Locale, key: string, name: string, kind: Kind, obs: seq<Observation>)
    requires !HasOther(obs)
    ensures Skew(locale, key, name, kind, obs) == []
  {
    var ks := Keys(obs, BucketKey);
    forall k | k in ks ensures k == Sentinel() { KeysIff(obs, BucketKey, k); }
    if |ks| >= 2 { SomeOther(ks, Sentinel()); }
    BucketsLength(obs, ks);
    MembersLength(Buckets(obs), HasSignature, true);
  }

  lemma {:induction false} BucketsLength(obs: seq<Observation>, ks: seq<string>)
    ensures |FlatMap(ks, Bucket(obs))| == |ks|
  {
    if ks != [] { BucketsLength(obs, ks[..|ks| - 1]); }
  }

  lemma {:induction false} MembersLength<V(!new), K>(xs: seq<V>, key: V -> K, k: K)
    ensures |Members(xs, key, k)| <= |xs|
  {
    if xs != [] { MembersLength(xs[..|xs| - 1], key, k); }
  }

  lemma SkewPermuted(locale: Locale, key: string, name: string, kind: Kind, obs: seq<Observation>,
                     obs': seq<Observation>)
    requires multiset(obs) == multiset(obs') && !Ambiguous(obs) && Separates(GroupLe(locale), NonNull(Buckets(obs)))
    ensures Skew(locale, key, name, kind, obs) == Skew(locale, key, name, kind, obs')
  {
    SameElements(obs, obs');
    if !HasOther(obs) {
      NoOtherNoSkew(locale, key, name, kind, obs);
      NoOtherNoSkew(locale, key, name, kind, obs');
    } else {
      BucketsPermuted(obs, obs');
      var a, b := NonNull(Buckets(obs)), NonNull(Buckets(obs'));
      MembersPermuted(Buckets(obs), Buckets(obs'), HasSignature, true);
      SameElements(a, b);
      GroupOrder(locale);
      SortUnique(a, b, GroupLe(locale));
    }
  }

  lemma MissingSame(repos: seq<string>, repos': seq<string>, peers: seq<string>, peers': seq<string>)
    requires SameSet(repos, repos') && SameSet(peers, peers')
    ensures SameSet(Members(FirstSeen(peers), IsIn(repos), false), Members(FirstSeen(peers'), IsIn(repos'), false))
  {}

  lemma RenamePermuted(key: string, name: string, kind: Kind, obs: seq<Observation>, obs': seq<Observation>,
                       peers: seq<string>, peers': seq<string>)
    requires multiset(obs) == multiset(obs') && SameSet(peers, peers')
    ensures Rename(key, name, kind, obs, peers) == Rename(key, name, kind, obs', peers')
  {
    SameElements(obs, obs');
    var repos, repos' := Map(obs, RepoOf), Map(obs', RepoOf);
    MapSame(obs, obs', RepoOf);
    MissingSame(repos, repos', peers, peers');
    var missing := Members(FirstSeen(peers), IsIn(repos), false);
    var missing' := Members(FirstSeen(peers'), IsIn(repos'), false);
    DedupSortSame(missing, missing');
    DedupSortSame(repos, repos');
    DedupSortMap(obs, obs', PathOf);
    assert missing == [] <==> missing' == [] by {
      assert missing != [] ==> missing[0] in missing';
      assert missing' != [] ==> missing'[0] in missing;
    }
  }

  // ----- symbols -----

  lemma {:induction false} ColonUnique(k: string, n: string, l: string, m: string)
    requires ':' !in k && ':' !in l && k + ([':'] + n) == l + ([':'] + m)
    ensures k == l && n == m
  {
    var s, t := k + ([':'] + n), l + ([':'] + m);
    assert (forall i :: 0 <= i < |k| ==> s[i] == k[i]) && s[|k|] == ':';
    assert (forall i :: 0 <= i < |l| ==> t[i] == l[i]) && t[|l|] == ':';
    assert |k| == |l|;
    assert s[..|k|] == k && t[..|k|] == l;
    assert s[|k| + 1..] == n && t[|k| + 1..] == m;
  }

  /** Observations with one key are of one symbol. */
  lemma KeyInjective(a: Observation, b: Observation)
    requires SymbolKey(a) == SymbolKey(b)
    ensures a.kind == b.kind && a.name == b.name
  {
    assert SymbolKey(a) == a.kind + ([':'] + a.name) && SymbolKey(b) == b.kind + ([':'] + b.name);
    ColonUnique(a.kind, a.name, b.kind, b.name);
  }

  /** No symbol with enough observations is ambiguous. */
  ghost predicate Clean(min: int, obs: seq<Observation>) {
    forall key :: |Members(obs, SymbolKey, key)| >= min ==> !Ambiguous(Members(obs, SymbolKey, key))
  }

  /** No symbol with enough observations has two signatures that are found in equally
      many repositories and have the same rank. */
  ghost predicate NoGroupTie(locale: Locale, min: int, obs: seq<Observation>) {
    forall key :: |Members(obs, SymbolKey, key)| >= min ==>
      Separates(GroupLe(locale), NonNull(Buckets(Members(obs, SymbolKey, key))))
  }

  /** No two symbols give candidates of the same rank. */
  ghost predicate NoSymbolTie(locale: Locale, peers: seq<string>, min: int, obs: seq<Observation>) {
    var cs, le := Candidates(locale, peers, min, obs), CandidateLe(locale);
    forall c, d :: c in cs && d in cs && le(c, d) && le(d, c) ==> c.symbolKey == d.symbolKey
  }

  /** Nothing is left to the order in which the observations came. */
  ghost predicate Decided(locale: Locale, peers: seq<string>, min: int, obs: seq<Observation>) {
    Clean(min, obs) && NoGroupTie(locale, min, obs) && NoSymbolTie(locale, peers, min, obs)
  }

  lemma ClassifyPermuted(locale: Locale, peers: seq<string>, peers': seq<string>, key: string, name: string, kind: Kind,
                         ms: seq<Observation>, ms': seq<Observation>)
    requires multiset(ms) == multiset(ms') && SameSet(peers, peers')
    requires !Ambiguous(ms) && Separates(GroupLe(locale), NonNull(Buckets(ms)))
    ensures Classify(locale, peers, key, name, kind, ms) == Classify(locale, peers', key, name, kind, ms')
  {
    SkewPermuted(locale, key, name, kind, ms, ms');
    RenamePermuted(key, name, kind, ms, ms', peers, peers');
  }

  lemma SameHead(obs: seq<Observation>, obs': seq<Observation>, key: string)
    requires Members(obs, SymbolKey, key) != [] && Members(obs', SymbolKey, key) != []
    ensures var o, o' := Members(obs, SymbolKey, key)[0], Members(obs', SymbolKey, key)[0];
            o.name == o'.name && o.kind == o'.kind
  {
    var ms, ms' := Members(obs, SymbolKey, key), Members(obs', SymbolKey, key);
    assert ms[0] in ms && ms'[0] in ms';
    KeyInjective(ms[0], ms'[0]);
  }

  lemma SymbolPermuted(locale: Locale, peers: seq<string>, peers': seq<string>, min: int, obs: seq<Observation>,
                       obs': seq<Observation>, key: string)
    requires multiset(obs) == multiset(obs') && SameSet(peers, peers')
    requires Clean(min, obs) && NoGroupTie(locale, min, obs)
    ensures Symbol(locale, peers, min, obs)(key) == Symbol(locale, peers', min, obs')(key)
  {
    var ms, ms' := Members(obs, SymbolKey, key), Members(obs', SymbolKey, key);
    MembersPermuted(obs, obs', SymbolKey, key);
    SameElements(ms, ms');
    if |ms| >= min && ms != [] {
      SameHead(obs, obs', key);
      ClassifyPermuted(locale, peers, peers', key, ms[0].name, ms[0].kind, ms, ms');
    }
  }

  lemma CandidatesPermuted(locale: Locale, peers: seq<string>, peers': seq<string>, min: int, obs: seq<Observation>,
                           obs': seq<Observation>)
    requires multiset(obs) == multiset(obs') && SameSet(peers, peers')
    requires Clean(min, obs) && NoGroupTie(locale, min, obs)
    ensures multiset(Candidates(locale, peers, min, obs)) == multiset(Candidates(locale, peers', min, obs'))
  {
    var f, g := Symbol(locale, peers, min, obs), Symbol(locale, peers', min, obs');
    SameElements(obs, obs');
    KeysPermuted(obs, obs', SymbolKey);
    forall key ensures f(key) == g(key) { SymbolPermuted(locale, peers, peers', min, obs, obs', key); }
    FlatMapPermuted(Keys(obs, SymbolKey), Keys(obs', SymbolKey), f, g);
  }

  // ----- the order of the result -----

  lemma SkewGroups(locale: Locale, key: string, name: string, kind: Kind, ms: seq<Observation>, c: Candidate)
    requires c in Skew(locale, key, name, kind, ms)
    ensures forall g :: g in c.groups <==> g in NonNull(Buckets(ms))
  {
    var gs := NonNull(Buckets(ms));
    SameElements(gs, Sort(gs, GroupLe(locale)));
  }

  /** At most one candidate of each kind, all under one key. */
  ghost predicate OneEach(cs: seq<Candidate>, key: string) {
    && (forall c :: c in cs ==> c.symbolKey == key)
    && (forall c, d :: c in cs && d in cs && c.driftKind == d.driftKind ==> c == d)
  }

  lemma TwoParts(skew: seq<Candidate>, rename: seq<Candidate>, key: string)
    requires skew != [] ==> |skew| == 1 && skew[0].symbolKey == key && skew[0].driftKind.SignatureSkew?
    requires rename != [] ==> |rename| == 1 && rename[0].symbolKey == key && rename[0].driftKind.RenameOrDeletion?
    ensures OneEach(skew + rename, key) && NoRepeat(skew + rename)
  {}

  lemma ClassifyOneEach(locale: Locale, peers: seq<string>, key: string, name: string, kind: Kind, ms: seq<Observation>)
    ensures OneEach(Classify(locale, peers, key, name, kind, ms), key)
    ensures NoRepeat(Classify(locale, peers, key, name, kind, ms))
  {
    SkewOne(locale, key, name, kind, ms);
    RenameOne(key, name, kind, ms, peers);
    TwoParts(Skew(locale, key, name, kind, ms), Rename(key, name, kind, ms, peers), key);
  }

  lemma OfSymbolOneEach(locale: Locale, peers: seq<string>, min: int, key: string, ms: seq<Observation>)
    ensures OneEach(OfSymbol(locale, peers, min, key, ms), key) && NoRepeat(OfSymbol(locale, peers, min, key, ms))
  {
    if ms != [] { ClassifyOneEach(locale, peers, key, ms[0].name, ms[0].kind, ms); }
  }

  lemma SkewOne(locale: Locale, key: string, name: string, kind: Kind, ms: seq<Observation>)
    ensures var r := Skew(locale, key, name, kind, ms);
            r != [] ==> |r| == 1 && r[0].symbolKey == key && r[0].driftKind.SignatureSkew?
  {}

  lemma RenameOne(key: string, name: string, kind: Kind, ms: seq<Observation>, peers: seq<string>)
    ensures var r := Rename(key, name, kind, ms, peers);
            r != [] ==> |r| == 1 && r[0].symbolKey == key && r[0].driftKind.RenameOrDeletion?
  {}

  lemma CandidateKey(locale: Locale, peers: seq<string>, min: int, obs: seq<Observation>, c: Candidate)
    requires c in Candidates(locale, peers, min, obs)
    ensures c in OfSymbol(locale, peers, min, c.symbolKey, Members(obs, SymbolKey, c.symbolKey))
  {
    var key := FlatMapSource(Keys(obs, SymbolKey), Symbol(locale, peers, min, obs), c);
    OfSymbolOneEach(locale, peers, min, key, Members(obs, SymbolKey, key));
  }

  function KeyOf(c: Candidate): string { c.symbolKey }

  lemma CandidatesNoRepeat(locale: Locale, peers: seq<string>, min: int, obs: seq<Observation>)
    ensures NoRepeat(Candidates(locale, peers, min, obs))
  {
    var f := Symbol(locale, peers, min, obs);
    forall key ensures NoRepeat(f(key)) && forall c :: c in f(key) ==> KeyOf(c) == key {
      OfSymbolOneEach(locale, peers, min, key, Members(obs, SymbolKey, key));
    }
    FlatMapNoRepeat(Keys(obs, SymbolKey), f, KeyOf);
  }

  lemma HasKey(locale: Locale, peers: seq<string>, min: int, obs: seq<Observation>, c: Candidate)
    requires c in Candidates(locale, peers, min, obs)
    ensures c in Symbol(locale, peers, min, obs)(c.symbolKey) && c.symbolKey in Keys(obs, SymbolKey)
  {
    var key := FlatMapSource(Keys(obs, SymbolKey), Symbol(locale, peers, min, obs), c);
    OfSymbolOneEach(locale, peers, min, key, Members(obs, SymbolKey, key));
  }

  /** The two candidates of one symbol come in the same order whatever the observations' order. */
  lemma OneSymbolAlike(locale: Locale, peers: seq<string>, peers': seq<string>, min: int, obs: seq<Observation>,
                       obs': seq<Observation>, a: Candidate, b: Candidate)
    requires multiset(obs) == multiset(obs') && SameSet(peers, peers')
    requires Clean(min, obs) && NoGroupTie(locale, min, obs)
    requires Precedes(Candidates(locale, peers, min, obs), a, b) && a.symbolKey == b.symbolKey
    ensures Precedes(Candidates(locale, peers', min, obs'), a, b)
  {
    var key, f, g := a.symbolKey, Symbol(locale, peers, min, obs), Symbol(locale, peers', min, obs');
    CandidatesNoRepeat(locale, peers, min, obs);
    PrecedesOnce(Candidates(locale, peers, min, obs), a, b);
    HasKey(locale, peers, min, obs, a);
    HasKey(locale, peers, min, obs, b);
    PrecedesEither(f(key), a, b);
    if Precedes(f(key), b, a) { FlatMapKeepsOrder(Keys(obs, SymbolKey), f, key, b, a); }
    SymbolPermuted(locale, peers, peers', min, obs, obs', key);
    SameElements(obs, obs');
    KeysPermuted(obs, obs', SymbolKey);
    SameElements(Keys(obs, SymbolKey), Keys(obs', SymbolKey));
    FlatMapKeepsOrder(Keys(obs', SymbolKey), g, key, a, b);
  }

  lemma CandidateOrder(locale: Locale)
    ensures Preorder(CandidateLe(locale))
  {}

  /** The comparator's result depends only on the multiset of observations and the set
      of peers when nothing is left to the order. */
  lemma CompareInvariant(locale: Locale, peers: seq<string>, peers': seq<string>, min: int, obs: seq<Observation>,
                         obs': seq<Observation>)
    requires Decided(locale, peers, min, obs) && multiset(obs) == multiset(obs') && SameSet(peers, peers')
    ensures Compare(locale, peers, min, obs) == Compare(locale, peers', min, obs')
  {
    var cs, cs', le := Candidates(locale, peers, min, obs), Candidates(locale, peers', min, obs'), CandidateLe(locale);
    CandidatesPermuted(locale, peers, peers', min, obs, obs');
    CandidatesNoRepeat(locale, peers, min, obs);
    CandidateOrder(locale);
    forall a, b | a in cs && b in cs && a != b && le(a, b) && le(b, a) && Precedes(cs, a, b)
      ensures Precedes(cs', a, b) {
      OneSymbolAlike(locale, peers, peers', min, obs, obs', a, b);
    }
    SortUniqueStable(cs, cs', le);
  }

  // ----- a collation that tells the occurring strings apart -----

  function SignatureOf(o: Observation): string { o.signature.GetOr("") }

  /** Two observations that rank alike in `text` have the same text. */
  ghost predicate Told(locale: Locale, obs: seq<Observation>, text: Observation -> string) {
    forall a, b :: a in obs && b in obs && locale(text(a)) == locale(text(b)) ==> text(a) == text(b)
  }

  /** Signatures and symbol keys that occur have ranks of their own. */
  ghost predicate TellsApart(locale: Locale, obs: seq<Observation>) {
    Told(locale, obs, SymbolKey) && Told(locale, obs, SignatureOf)
  }

  lemma GroupLent(ms: seq<Observation>, g: Group) returns (o: Observation)
    requires g in NonNull(Buckets(ms))
    ensures o in ms && o.signature == g.signature
  {
    GroupIsBucket(ms, g);
    var k := g.signature.value;
    BucketMember(ms, k);
    o := Members(ms, BucketKey, k)[0];
    assert o in Members(ms, BucketKey, k);
  }

  lemma TieIsSame(locale: Locale, obs: seq<Observation>, key: string, a: Group, b: Group)
    requires TellsApart(locale, obs) && GroupLe(locale)(a, b) && GroupLe(locale)(b, a)
    requires var gs := NonNull(Buckets(Members(obs, SymbolKey, key))); a in gs && b in gs
    ensures a == b
  {
    var ms := Members(obs, SymbolKey, key);
    var o := GroupLent(ms, a);
    var p := GroupLent(ms, b);
    assert SignatureOf(o) == SignatureOf(p);
    SignatureDecides(ms, a, b);
  }

  lemma GroupsApart(locale: Locale, obs: seq<Observation>, key: string)
    requires TellsApart(locale, obs)
    ensures Separates(GroupLe(locale), NonNull(Buckets(Members(obs, SymbolKey, key))))
  {
    var ms, le := Members(obs, SymbolKey, key), GroupLe(locale);
    var gs := NonNull(Buckets(ms));
    forall a, b | a in gs && b in gs && le(a, b) && le(b, a) ensures a == b { TieIsSame(locale, obs, key, a, b); }
  }

  lemma SymbolsApart(locale: Locale, peers: seq<string>, min: int, obs: seq<Observation>)
    requires TellsApart(locale, obs)
    ensures NoSymbolTie(locale, peers, min, obs)
  {
    var cs, le := Candidates(locale, peers, min, obs), CandidateLe(locale);
    forall c, d | c in cs && d in cs && le(c, d) && le(d, c) ensures c.symbolKey == d.symbolKey {
      HasKey(locale, peers, min, obs, c);
      HasKey(locale, peers, min, obs, d);
      KeysIff(obs, SymbolKey, c.symbolKey);
      KeysIff(obs, SymbolKey, d.symbolKey);
    }
  }

  /** With such a collation only ambiguous symbols are left. */
  lemma DecidedIffClean(locale: Locale, peers: seq<string>, min: int, obs: seq<Observation>)
    requires TellsApart(locale, obs)
    ensures Decided(locale, peers, min, obs) <==> Clean(min, obs)
  {
    forall key ensures Separates(GroupLe(locale), NonNull(Buckets(Members(obs, SymbolKey, key)))) {
      GroupsApart(locale, obs, key);
    }
    SymbolsApart(locale, peers, min, obs);
  }
}
