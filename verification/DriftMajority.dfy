/** What `compareDrift` reports, told from the observations: which symbols it reports,
    which group is the majority, and which repositories are the outliers. */
module DriftMajority {
  import opened Prelude
  import opened Ordering
  import opened Grouping
  import opened DriftCompare
  import opened DriftInvariance
  import opened DriftOrder

  function OfSymbolKey(obs: seq<Observation>, key: string): seq<Observation> {
    Members(obs, SymbolKey, key)
  }

  /** The observation counts under `k`; a missing signature counts under the sentinel. */
  predicate CountsAs(o: Observation, k: string) {
    o.signature == Some(k) || (o.signature.None? && k == Sentinel())
  }

  /** Repository `r` has an observation that counts under `k`. */
  predicate Has(ms: seq<Observation>, r: string, k: string) {
    exists o :: o in ms && o.repo == r && CountsAs(o, k)
  }

  /** Path `p` has an observation that counts under `k`. */
  predicate HasPath(ms: seq<Observation>, p: string, k: string) {
    exists o :: o in ms && o.path == p && CountsAs(o, k)
  }

  predicate HasSymbol(ms: seq<Observation>, r: string) {
    exists o :: o in ms && o.repo == r
  }

  // ----- groups -----

  /** Sorted, and without repetition. */
  ghost predicate Listing(xs: seq<string>) {
    NoRepeat(xs) && Sorted(xs, StrLe)
  }

  lemma DedupSortLists(xs: seq<string>)
    ensures Listing(DedupSort(xs))
  {
    PermutedOnce(FirstSeen(xs), DedupSort(xs));
    StrOrder(xs);
    SortSorts(FirstSeen(xs), StrLe);
  }

  function Text(g: Group): string { g.signature.GetOr("") }

  /** A group lists the repositories and the paths of the observations that count under its
      signature. */
  ghost predicate GroupTold(ms: seq<Observation>, g: Group) {
    && g.signature.Some? && Listing(g.repos) && Listing(g.paths)
    && (forall r :: r in g.repos <==> Has(ms, r, Text(g)))
    && (forall p :: p in g.paths <==> HasPath(ms, p, Text(g)))
  }

  lemma ReposListed(ms: seq<Observation>, r: string)
    ensures r in DedupSort(Map(ms, RepoOf)) <==> HasSymbol(ms, r)
  {
    DedupSortIff(Map(ms, RepoOf), r);
    MapIff(ms, RepoOf, r);
  }

  lemma BucketHas(ms: seq<Observation>, k: string, r: string)
    ensures HasSymbol(Members(ms, BucketKey, k), r) <==> Has(ms, r, k)
  {
    if HasSymbol(Members(ms, BucketKey, k), r) {
      var o :| o in Members(ms, BucketKey, k) && o.repo == r;
      assert o in ms && CountsAs(o, k);
    }
    if Has(ms, r, k) {
      var o :| o in ms && o.repo == r && CountsAs(o, k);
      assert o in Members(ms, BucketKey, k);
    }
  }

  lemma BucketHasPath(ms: seq<Observation>, k: string, p: string)
    ensures (exists o :: o in Members(ms, BucketKey, k) && o.path == p) <==> HasPath(ms, p, k)
  {
    if exists o :: o in Members(ms, BucketKey, k) && o.path == p {
      var o :| o in Members(ms, BucketKey, k) && o.path == p;
      assert o in ms && CountsAs(o, k);
    }
    if HasPath(ms, p, k) {
      var o :| o in ms && o.path == p && CountsAs(o, k);
      assert o in Members(ms, BucketKey, k);
    }
  }

  lemma BucketTold(ms: seq<Observation>, k: string, g: Group)
    requires g.signature == Some(k) && g.repos == DedupSort(Map(Members(ms, BucketKey, k), RepoOf))
    requires g.paths == DedupSort(Map(Members(ms, BucketKey, k), PathOf))
    ensures GroupTold(ms, g)
  {
    DedupSortLists(Map(Members(ms, BucketKey, k), RepoOf));
    DedupSortLists(Map(Members(ms, BucketKey, k), PathOf));
    forall r ensures r in g.repos <==> Has(ms, r, Text(g)) {
      ReposListed(Members(ms, BucketKey, k), r);
      BucketHas(ms, k, r);
    }
    forall p ensures p in g.paths <==> HasPath(ms, p, Text(g)) {
      PathsListed(Members(ms, BucketKey, k), p);
      BucketHasPath(ms, k, p);
    }
  }

  lemma GroupIsTold(ms: seq<Observation>, g: Group)
    requires g in NonNull(Buckets(ms))
    ensures GroupTold(ms, g)
  {
    GroupIsBucket(ms, g);
    BucketTold(ms, g.signature.value, g);
  }

  /** Most repositories first; among equally many, the signature that ranks least. */
  predicate MajorityFirst(locale: Locale, groups: seq<Group>) {
    forall i, j :: 0 <= i < j < |groups| ==>
      && |groups[i].repos| >= |groups[j].repos|
      && (|groups[i].repos| == |groups[j].repos| ==> locale(Text(groups[i])) <= locale(Text(groups[j])))
  }

  lemma SortedMajority(locale: Locale, groups: seq<Group>)
    requires Sorted(groups, GroupLe(locale))
    ensures MajorityFirst(locale, groups)
  {
    forall i, j | 0 <= i < j < |groups|
      ensures |groups[i].repos| >= |groups[j].repos|
      ensures |groups[i].repos| == |groups[j].repos| ==> locale(Text(groups[i])) <= locale(Text(groups[j]))
    {
      assert GroupLe(locale)(groups[i], groups[j]);
    }
  }

  /** Repository `r` has an observation that counts under the signature of some group. */
  predicate InSome(ms: seq<Observation>, groups: seq<Group>, r: string) {
    exists g :: g in groups && Has(ms, r, Text(g))
  }

  lemma OutlierIff(ms: seq<Observation>, groups: seq<Group>, r: string)
    requires groups != [] && forall g :: g in groups ==> GroupTold(ms, g)
    ensures r in DedupSort(FlatMap(groups[1..], NotIn(groups[0].repos)))
      <==> InSome(ms, groups, r) && !Has(ms, r, Text(groups[0]))
  {
    var others := FlatMap(groups[1..], NotIn(groups[0].repos));
    DedupSortIff(others, r);
    assert groups == [groups[0]] + groups[1..];
    assert GroupTold(ms, groups[0]);
    if r in others {
      var g := FlatMapSource(groups[1..], NotIn(groups[0].repos), r);
      assert g in groups && r in g.repos;
    }
    if InSome(ms, groups, r) && !Has(ms, r, Text(groups[0])) {
      var g :| g in groups && Has(ms, r, Text(g));
      assert g in groups[1..] && r in g.repos;
      FlatMapHas(groups[1..], NotIn(groups[0].repos), g, r);
    }
  }

  /** What a skew candidate says: the groups, majority first, and as outliers the
      repositories with an observation under some group and none under the majority. */
  ghost predicate SkewTold(locale: Locale, ms: seq<Observation>, c: Candidate) {
    && |c.groups| >= 2 && MajorityFirst(locale, c.groups)
    && (forall g :: g in c.groups ==> GroupTold(ms, g))
    && (forall g, h :: g in c.groups && h in c.groups && g.signature == h.signature ==> g == h)
    && (forall r :: r in c.outliers <==> InSome(ms, c.groups, r) && !Has(ms, r, Text(c.groups[0])))
    && Listing(c.outliers)
  }

  lemma GroupsTold(locale: Locale, ms: seq<Observation>, groups: seq<Group>)
    requires groups == Sort(NonNull(Buckets(ms)), GroupLe(locale))
    ensures MajorityFirst(locale, groups) && forall g :: g in groups ==> GroupTold(ms, g)
    ensures forall g, h :: g in groups && h in groups && g.signature == h.signature ==> g == h
  {
    var gs := NonNull(Buckets(ms));
    SameElements(gs, groups);
    GroupOrder(locale);
    SortSorts(gs, GroupLe(locale));
    SortedMajority(locale, groups);
    AllTold(ms, groups);
  }

  lemma AllTold(ms: seq<Observation>, groups: seq<Group>)
    requires forall g :: g in groups ==> g in NonNull(Buckets(ms))
    ensures forall g :: g in groups ==> GroupTold(ms, g)
    ensures forall g, h :: g in groups && h in groups && g.signature == h.signature ==> g == h
  {
    forall g | g in groups ensures GroupTold(ms, g) { GroupIsTold(ms, g); }
    forall g, h | g in groups && h in groups && g.signature == h.signature ensures g == h {
      SignatureDecides(ms, g, h);
    }
  }

  lemma SkewParts(locale: Locale, key: string, name: string, kind: Kind, ms: seq<Observation>, c: Candidate)
    requires c in Skew(locale, key, name, kind, ms)
    ensures c.groups == Sort(NonNull(Buckets(ms)), GroupLe(locale)) && |c.groups| >= 2
    ensures c.outliers == DedupSort(FlatMap(c.groups[1..], NotIn(c.groups[0].repos)))
    ensures c.symbolKey == key && c.name == name && c.kind == kind && c.driftKind.SignatureSkew?
  {
    SameElements(NonNull(Buckets(ms)), Sort(NonNull(Buckets(ms)), GroupLe(locale)));
  }

  lemma SkewIsTold(locale: Locale, key: string, name: string, kind: Kind, ms: seq<Observation>, c: Candidate)
    requires c in Skew(locale, key, name, kind, ms)
    ensures SkewTold(locale, ms, c)
  {
    SkewParts(locale, key, name, kind, ms, c);
    GroupsTold(locale, ms, c.groups);
    DedupSortLists(FlatMap(c.groups[1..], NotIn(c.groups[0].repos)));
    forall r ensures r in c.outliers <==> InSome(ms, c.groups, r) && !Has(ms, r, Text(c.groups[0])) {
      OutlierIff(ms, c.groups, r);
    }
  }

  // ----- presence and absence -----

  ghost predicate PresentTold(ms: seq<Observation>, g: Group) {
    && g.signature == Some("present") && Listing(g.repos) && Listing(g.paths)
    && (forall r :: r in g.repos <==> HasSymbol(ms, r))
    && (forall p :: p in g.paths <==> exists o :: o in ms && o.path == p)
  }

  ghost predicate AbsentTold(peers: seq<string>, ms: seq<Observation>, g: Group) {
    && g.signature == Some("absent") && Listing(g.repos) && g.paths == []
    && (forall r :: r in g.repos <==> r in peers && !HasSymbol(ms, r))
  }

  /** What a rename candidate says: the repositories that have the symbol against the peers
      that have not, the larger side first, the present one if they are as large, and the
      other side as outliers. */
  ghost predicate RenameTold(peers: seq<string>, ms: seq<Observation>, c: Candidate) {
    && |c.groups| == 2
    && var (a, b) := (c.groups[0], c.groups[1]);
       && c.outliers == b.repos
       && if PresentTold(ms, a) then AbsentTold(peers, ms, b) && |a.repos| >= |b.repos|
          else AbsentTold(peers, ms, a) && PresentTold(ms, b) && |a.repos| > |b.repos|
  }

  lemma PresentIsTold(ms: seq<Observation>, g: Group)
    requires g.signature == Some("present") && g.repos == DedupSort(Map(ms, RepoOf))
    requires g.paths == DedupSort(Map(ms, PathOf))
    ensures PresentTold(ms, g)
  {
    DedupSortLists(Map(ms, RepoOf));
    DedupSortLists(Map(ms, PathOf));
    forall r ensures r in g.repos <==> HasSymbol(ms, r) { ReposListed(ms, r); }
    forall p ensures p in g.paths <==> exists o :: o in ms && o.path == p { PathsListed(ms, p); }
  }

  lemma PathsListed(ms: seq<Observation>, p: string)
    ensures p in DedupSort(Map(ms, PathOf)) <==> exists o :: o in ms && o.path == p
  {
    DedupSortIff(Map(ms, PathOf), p);
    MapIff(ms, PathOf, p);
  }

  lemma MissingListed(peers: seq<string>, ms: seq<Observation>, r: string)
    ensures r in DedupSort(Members(FirstSeen(peers), IsIn(Map(ms, RepoOf)), false)) <==> r in peers && !HasSymbol(ms, r)
  {
    DedupSortIff(Members(FirstSeen(peers), IsIn(Map(ms, RepoOf)), false), r);
    MapIff(ms, RepoOf, r);
  }

  lemma AbsentIsTold(peers: seq<string>, ms: seq<Observation>, g: Group)
    requires g.signature == Some("absent") && g.paths == []
    requires g.repos == DedupSort(Members(FirstSeen(peers), IsIn(Map(ms, RepoOf)), false))
    ensures AbsentTold(peers, ms, g)
  {
    DedupSortLists(Members(FirstSeen(peers), IsIn(Map(ms, RepoOf)), false));
    forall r ensures r in g.repos <==> r in peers && !HasSymbol(ms, r) { MissingListed(peers, ms, r); }
  }

  lemma RenameIsTold(key: string, name: string, kind: Kind, ms: seq<Observation>, peers: seq<string>, c: Candidate)
    requires c in Rename(key, name, kind, ms, peers)
    ensures RenameTold(peers, ms, c)
  {
    var present := if c.groups[0].signature == Some("present") then c.groups[0] else c.groups[1];
    var absent := if c.groups[0].signature == Some("present") then c.groups[1] else c.groups[0];
    PresentIsTold(ms, present);
    AbsentIsTold(peers, ms, absent);
  }

  // ----- which symbols are reported -----

  /** Enough observations to look at. */
  predicate Looked(min: int, ms: seq<Observation>) {
    |ms| >= min && ms != []
  }

  /** Two observations with different signatures. */
  predicate Disagree(ms: seq<Observation>) {
    exists o, p :: o in ms && p in ms && o.signature.Some? && p.signature.Some? && o.signature != p.signature
  }

  predicate SomePeerLacks(ms: seq<Observation>, peers: seq<string>) {
    exists r :: r in peers && !HasSymbol(ms, r)
  }

  predicate Reported(cs: seq<Candidate>, key: string, drift: DriftKind) {
    exists c :: c in cs && c.symbolKey == key && c.driftKind == drift
  }

  lemma ComparedFrom(locale: Locale, peers: seq<string>, min: int, obs: seq<Observation>, c: Candidate)
    requires c in Compare(locale, peers, min, obs)
    ensures var ms := OfSymbolKey(obs, c.symbolKey);
            && Looked(min, ms)
            && (c in Skew(locale, c.symbolKey, ms[0].name, ms[0].kind, ms)
                || c in Rename(c.symbolKey, ms[0].name, ms[0].kind, ms, peers))
  {
    var cs := Candidates(locale, peers, min, obs);
    SameElements(cs, Compare(locale, peers, min, obs));
    CandidateKey(locale, peers, min, obs, c);
  }

  lemma RenameParts(key: string, name: string, kind: Kind, ms: seq<Observation>, peers: seq<string>, c: Candidate)
    requires c in Rename(key, name, kind, ms, peers)
    ensures c.symbolKey == key && c.name == name && c.kind == kind && c.driftKind.RenameOrDeletion?
  {}

  /** Every candidate is of a symbol that was looked at, names it, and says what its
      observations say. */
  lemma EveryCandidateTold(locale: Locale, peers: seq<string>, min: int, obs: seq<Observation>, c: Candidate)
    requires c in Compare(locale, peers, min, obs)
    ensures var ms := OfSymbolKey(obs, c.symbolKey);
            && Looked(min, ms)
            && (forall o :: o in ms ==> c.name == o.name && c.kind == o.kind)
            && (if c.driftKind.SignatureSkew? then SkewTold(locale, ms, c) else RenameTold(peers, ms, c))
  {
    var key := c.symbolKey;
    var ms := OfSymbolKey(obs, key);
    ComparedFrom(locale, peers, min, obs, c);
    assert ms[0] in ms;
    forall o | o in ms ensures ms[0].name == o.name && ms[0].kind == o.kind { KeyInjective(ms[0], o); }
    if c in Skew(locale, key, ms[0].name, ms[0].kind, ms) {
      SkewParts(locale, key, ms[0].name, ms[0].kind, ms, c);
      SkewIsTold(locale, key, ms[0].name, ms[0].kind, ms, c);
    } else {
      RenameParts(key, ms[0].name, ms[0].kind, ms, peers, c);
      RenameIsTold(key, ms[0].name, ms[0].kind, ms, peers, c);
    }
  }

  lemma RenameReportedIff(locale: Locale, peers: seq<string>, min: int, obs: seq<Observation>, key: string)
    ensures var ms := OfSymbolKey(obs, key);
            Reported(Compare(locale, peers, min, obs), key, RenameOrDeletion) <==>
              Looked(min, ms) && SomePeerLacks(ms, peers)
  {
    var ms, cs := OfSymbolKey(obs, key), Compare(locale, peers, min, obs);
    if Reported(cs, key, RenameOrDeletion) {
      var c :| c in cs && c.symbolKey == key && c.driftKind == RenameOrDeletion;
      EveryCandidateTold(locale, peers, min, obs, c);
      AbsentSomewhere(locale, peers, min, obs, c);
    }
    if Looked(min, ms) && SomePeerLacks(ms, peers) {
      var r :| r in peers && !HasSymbol(ms, r);
      MapIff(ms, RepoOf, r);
      RenameGiven(key, ms[0].name, ms[0].kind, ms, peers, r);
      ReportedFrom(locale, peers, min, obs, key, Rename(key, ms[0].name, ms[0].kind, ms, peers)[0]);
    }
  }

  lemma RenameGiven(key: string, name: string, kind: Kind, ms: seq<Observation>, peers: seq<string>, r: string)
    requires ms != [] && r in peers && r !in Map(ms, RepoOf)
    ensures var cs := Rename(key, name, kind, ms, peers);
            |cs| == 1 && cs[0].symbolKey == key && cs[0].driftKind.RenameOrDeletion?
  {
    assert r in Members(FirstSeen(peers), IsIn(Map(ms, RepoOf)), false);
  }

  lemma AbsentSomewhere(locale: Locale, peers: seq<string>, min: int, obs: seq<Observation>, c: Candidate)
    requires c in Compare(locale, peers, min, obs) && c.driftKind.RenameOrDeletion?
    ensures SomePeerLacks(OfSymbolKey(obs, c.symbolKey), peers)
  {
    var ms := OfSymbolKey(obs, c.symbolKey);
    ComparedFrom(locale, peers, min, obs, c);
    if c in Skew(locale, c.symbolKey, ms[0].name, ms[0].kind, ms) {
      SkewParts(locale, c.symbolKey, ms[0].name, ms[0].kind, ms, c);
    }
    RenameMissing(c.symbolKey, ms[0].name, ms[0].kind, ms, peers, c);
  }

  lemma RenameMissing(key: string, name: string, kind: Kind, ms: seq<Observation>, peers: seq<string>, c: Candidate)
    requires c in Rename(key, name, kind, ms, peers)
    ensures SomePeerLacks(ms, peers)
  {
    var missing := Members(FirstSeen(peers), IsIn(Map(ms, RepoOf)), false);
    assert missing != [] && missing[0] in missing;
    MapIff(ms, RepoOf, missing[0]);
    assert missing[0] in peers && !HasSymbol(ms, missing[0]);
  }

  lemma ReportedFrom(locale: Locale, peers: seq<string>, min: int, obs: seq<Observation>, key: string, c: Candidate)
    requires var ms := OfSymbolKey(obs, key);
             Looked(min, ms) && c in Classify(locale, peers, key, ms[0].name, ms[0].kind, ms)
    requires c.symbolKey == key
    ensures Reported(Compare(locale, peers, min, obs), key, c.driftKind)
  {
    var ms := OfSymbolKey(obs, key);
    assert ms[0] in ms && ms[0] in obs && SymbolKey(ms[0]) == key;
    KeysIff(obs, SymbolKey, key);
    ClassifiedIn(locale, peers, min, key, ms, c);
    SymbolShown(locale, peers, min, obs, key, c);
  }

  lemma ClassifiedIn(locale: Locale, peers: seq<string>, min: int, key: string, ms: seq<Observation>, c: Candidate)
    requires Looked(min, ms) && c in Classify(locale, peers, key, ms[0].name, ms[0].kind, ms)
    ensures c in OfSymbol(locale, peers, min, key, ms)
  {}

  /** The first observation that counts under `k` has a signature, which is then `k`. */
  predicate Leads(ms: seq<Observation>, k: string) {
    exists i :: 0 <= i < |ms| && ms[i].signature == Some(k) && forall j :: 0 <= j < i ==> !CountsAs(ms[j], k)
  }

  lemma {:induction false} HeadOfMembers(ms: seq<Observation>, k: string) returns (i: nat)
    requires Members(ms, BucketKey, k) != []
    ensures i < |ms| && ms[i] == Members(ms, BucketKey, k)[0] && BucketKey(ms[i]) == k
    ensures forall j :: 0 <= j < i ==> BucketKey(ms[j]) != k
  {
    var n := |ms| - 1;
    if Members(ms[..n], BucketKey, k) != [] {
      i := HeadOfMembers(ms[..n], k);
    } else {
      i := n;
      forall j | 0 <= j < n ensures BucketKey(ms[j]) != k { NotThere(ms[..n], k, ms[..n][j]); }
    }
  }

  lemma NotThere(ms: seq<Observation>, k: string, o: Observation)
    requires Members(ms, BucketKey, k) == [] && o in ms
    ensures BucketKey(o) != k
  {}

  lemma LeaderFirst(ms: seq<Observation>, k: string) returns (i: nat)
    requires Leads(ms, k)
    ensures i < |ms| && ms[i].signature == Some(k)
    ensures Members(ms, BucketKey, k) != [] && Members(ms, BucketKey, k)[0] == ms[i]
  {
    i :| 0 <= i < |ms| && ms[i].signature == Some(k) && forall j :: 0 <= j < i ==> !CountsAs(ms[j], k);
    assert ms[i] in Members(ms, BucketKey, k);
    var h := HeadOfMembers(ms, k);
    assert CountsAs(ms[h], k) && BucketKey(ms[i]) == k;
  }

  lemma GroupLeads(ms: seq<Observation>, g: Group)
    requires g in NonNull(Buckets(ms)) && g.signature.Some?
    ensures Leads(ms, g.signature.value)
  {
    GroupIsBucket(ms, g);
    BucketMember(ms, g.signature.value);
    var h := HeadOfMembers(ms, g.signature.value);
    FirstLends(Members(ms, BucketKey, g.signature.value));
  }

  /** A signature has a group exactly if it leads. */
  lemma LeadsIff(ms: seq<Observation>, k: string)
    ensures Leads(ms, k) <==> exists g :: g in NonNull(Buckets(ms)) && g.signature == Some(k)
  {
    if Leads(ms, k) {
      var i := LeaderFirst(ms, k);
      var g := BucketNonNull(ms, ms[i], k);
    }
    if exists g :: g in NonNull(Buckets(ms)) && g.signature == Some(k) {
      var g :| g in NonNull(Buckets(ms)) && g.signature == Some(k);
      GroupLeads(ms, g);
    }
  }

  lemma GroupsLead(ms: seq<Observation>, g: Group, h: Group)
    requires g in NonNull(Buckets(ms)) && h in NonNull(Buckets(ms)) && g != h
    ensures TwoLead(ms)
  {
    if g.signature == h.signature { SignatureDecides(ms, g, h); }
    var o := GroupLent(ms, g);
    var p := GroupLent(ms, h);
    LeadsIff(ms, o.signature.value);
    LeadsIff(ms, p.signature.value);
  }

  predicate TwoLead(ms: seq<Observation>) {
    exists o, p :: o in ms && p in ms && o.signature.Some? && p.signature.Some? && o.signature != p.signature
      && Leads(ms, o.signature.value) && Leads(ms, p.signature.value)
  }

  lemma TwoGroupsIff(ms: seq<Observation>)
    ensures |NonNull(Buckets(ms))| >= 2 <==> TwoLead(ms)
  {
    var gs := NonNull(Buckets(ms));
    if |gs| >= 2 {
      BucketsNoRepeat(ms);
      GroupsLead(ms, gs[0], gs[1]);
    }
    if TwoLead(ms) {
      var o, p :| o in ms && p in ms && o.signature.Some? && p.signature.Some? && o.signature != p.signature
        && Leads(ms, o.signature.value) && Leads(ms, p.signature.value);
      TwoLeadersGroups(ms, o.signature.value, p.signature.value);
    }
  }

  lemma TwoLeadersGroups(ms: seq<Observation>, k: string, l: string)
    requires Leads(ms, k) && Leads(ms, l) && k != l
    ensures |NonNull(Buckets(ms))| >= 2
  {
    LeadsIff(ms, k);
    LeadsIff(ms, l);
    var g :| g in NonNull(Buckets(ms)) && g.signature == Some(k);
    var h :| h in NonNull(Buckets(ms)) && h.signature == Some(l);
    AtLeastTwo(NonNull(Buckets(ms)), g, h);
  }

  /** A skew is reported exactly for a symbol with enough observations of which two different
      signatures lead. */
  lemma SkewReportedIff(locale: Locale, peers: seq<string>, min: int, obs: seq<Observation>, key: string)
    ensures var ms := OfSymbolKey(obs, key);
            Reported(Compare(locale, peers, min, obs), key, SignatureSkew) <==> Looked(min, ms) && TwoLead(ms)
  {
    var ms, cs := OfSymbolKey(obs, key), Compare(locale, peers, min, obs);
    TwoGroupsIff(ms);
    if Reported(cs, key, SignatureSkew) {
      var c :| c in cs && c.symbolKey == key && c.driftKind == SignatureSkew;
      ComparedFrom(locale, peers, min, obs, c);
      if c in Rename(key, ms[0].name, ms[0].kind, ms, peers) {
        RenameParts(key, ms[0].name, ms[0].kind, ms, peers, c);
      }
      assert c in Skew(locale, key, ms[0].name, ms[0].kind, ms);
    }
    if Looked(min, ms) && TwoLead(ms) {
      var c := SkewGives(locale, key, ms[0].name, ms[0].kind, ms);
      ReportedFrom(locale, peers, min, obs, key, c);
    }
  }

  // ----- symbols that are not ambiguous -----

  lemma PlainLeads(ms: seq<Observation>, o: Observation)
    requires !(HasNull(ms) && HasSentinel(ms)) && o in ms && o.signature.Some?
    ensures Leads(ms, o.signature.value)
  {
    var k := o.signature.value;
    assert o in Members(ms, BucketKey, k);
    var i := HeadOfMembers(ms, k);
    assert ms[i] in ms;
    assert ms[i].signature == Some(k);
  }

  /** For a symbol that is not ambiguous: a skew is reported exactly if two signatures differ. */
  lemma PlainSkewIff(locale: Locale, peers: seq<string>, min: int, obs: seq<Observation>, key: string)
    requires !Ambiguous(OfSymbolKey(obs, key))
    ensures var ms := OfSymbolKey(obs, key);
            Reported(Compare(locale, peers, min, obs), key, SignatureSkew) <==> Looked(min, ms) && Disagree(ms)
  {
    var ms := OfSymbolKey(obs, key);
    SkewReportedIff(locale, peers, min, obs, key);
    if Disagree(ms) {
      var o, p :| o in ms && p in ms && o.signature.Some? && p.signature.Some? && o.signature != p.signature;
      assert HasOther(ms);
      PlainLeads(ms, o);
      PlainLeads(ms, p);
    }
  }

  /** Observations that count under a group's signature have it. */
  lemma PlainCounts(ms: seq<Observation>, g: Group, o: Observation)
    requires !(HasNull(ms) && HasSentinel(ms)) && g in NonNull(Buckets(ms)) && o in ms && CountsAs(o, Text(g))
    ensures o.signature == g.signature
  {
    var lent := GroupLent(ms, g);
  }

  lemma PlainShown(ms: seq<Observation>, groups: seq<Group>, o: Observation)
    requires !(HasNull(ms) && HasSentinel(ms)) && forall g :: g in groups <==> g in NonNull(Buckets(ms))
    requires o in ms && o.signature.Some?
    ensures InSome(ms, groups, o.repo)
  {
    PlainLeads(ms, o);
    LeadsIff(ms, o.signature.value);
    var g :| g in NonNull(Buckets(ms)) && g.signature == o.signature;
    assert g in groups && CountsAs(o, Text(g)) && Has(ms, o.repo, Text(g));
  }

  lemma PlainIn(ms: seq<Observation>, groups: seq<Group>, r: string)
    requires !(HasNull(ms) && HasSentinel(ms)) && forall g :: g in groups <==> g in NonNull(Buckets(ms))
    ensures InSome(ms, groups, r) <==> exists o :: o in ms && o.repo == r && o.signature.Some?
  {
    if exists o :: o in ms && o.repo == r && o.signature.Some? {
      var o :| o in ms && o.repo == r && o.signature.Some?;
      PlainShown(ms, groups, o);
    }
    if InSome(ms, groups, r) {
      var g :| g in groups && Has(ms, r, Text(g));
      var o :| o in ms && o.repo == r && CountsAs(o, Text(g));
      PlainCounts(ms, g, o);
    }
  }

  lemma PlainHas(ms: seq<Observation>, g: Group, r: string)
    requires !(HasNull(ms) && HasSentinel(ms)) && g in NonNull(Buckets(ms)) && g.signature.Some?
    ensures Has(ms, r, Text(g)) <==> exists o :: o in ms && o.repo == r && o.signature == g.signature
  {
    if Has(ms, r, Text(g)) {
      var o :| o in ms && o.repo == r && CountsAs(o, Text(g));
      PlainCounts(ms, g, o);
    }
  }

  /** A reported skew of a symbol that is not ambiguous mixes nothing. */
  lemma SkewUnmixed(locale: Locale, peers: seq<string>, min: int, obs: seq<Observation>, c: Candidate)
    requires c in Compare(locale, peers, min, obs) && c.driftKind.SignatureSkew?
    requires !Ambiguous(OfSymbolKey(obs, c.symbolKey))
    ensures var ms := OfSymbolKey(obs, c.symbolKey);
            && |c.groups| >= 2 && !(HasNull(ms) && HasSentinel(ms))
            && (forall g :: g in c.groups <==> g in NonNull(Buckets(ms)))
  {
    var ms := OfSymbolKey(obs, c.symbolKey);
    EveryCandidateTold(locale, peers, min, obs, c);
    ComparedSkew(locale, peers, min, obs, c);
    SameElements(NonNull(Buckets(ms)), c.groups);
    BucketsNoRepeat(ms);
    PermutedOnce(NonNull(Buckets(ms)), c.groups);
    assert c.groups[0] in c.groups && c.groups[1] in c.groups;
    TwoSignatures(ms, c.groups[0], c.groups[1]);
  }

  /** And its outliers are the repositories that have some signature of the symbol, but not
      the majority's. */
  lemma PlainOutliers(locale: Locale, peers: seq<string>, min: int, obs: seq<Observation>, c: Candidate, r: string)
    requires c in Compare(locale, peers, min, obs) && c.driftKind.SignatureSkew?
    requires !Ambiguous(OfSymbolKey(obs, c.symbolKey))
    ensures var ms := OfSymbolKey(obs, c.symbolKey);
            && c.groups != []
            && (r in c.outliers <==>
                 && (exists o :: o in ms && o.repo == r && o.signature.Some?)
                 && !(exists o :: o in ms && o.repo == r && o.signature == c.groups[0].signature))
  {
    var ms := OfSymbolKey(obs, c.symbolKey);
    EveryCandidateTold(locale, peers, min, obs, c);
    SkewUnmixed(locale, peers, min, obs, c);
    assert c.groups[0] in c.groups;
    PlainIn(ms, c.groups, r);
    PlainHas(ms, c.groups[0], r);
  }

  // ----- symbols that are -----

  /** Repository `r` has the symbol with signature `sig`. */
  predicate HasExactly(ms: seq<Observation>, r: string, sig: Option<string>) {
    exists o :: o in ms && o.repo == r && o.signature == sig
  }

  predicate HasSome(ms: seq<Observation>, r: string) {
    exists o :: o in ms && o.repo == r && o.signature.Some?
  }

  /** `r` has a signature other than the sentinel. */
  predicate HasReal(ms: seq<Observation>, r: string) {
    exists o :: o in ms && o.repo == r && o.signature.Some? && o.signature.value != Sentinel()
  }

  /** The bucket that missing signatures share with the sentinel misjudges `r`: as the
      majority it takes a missing signature for its own, as a minority a missing signature
      for a different one, and without a group of its own it hides the sentinel. */
  predicate Misjudged(ms: seq<Observation>, majority: Option<string>, r: string) {
    if majority == Some(Sentinel()) then HasExactly(ms, r, None) && !HasExactly(ms, r, majority) && HasReal(ms, r)
    else if Leads(ms, Sentinel()) then HasExactly(ms, r, None) && !HasSome(ms, r)
    else HasExactly(ms, r, Some(Sentinel())) && !HasReal(ms, r)
  }

  /** `r` counts under `k`, its signatures taken apart. */
  predicate Owned(ms: seq<Observation>, k: string, r: string) {
    HasExactly(ms, r, Some(k)) || (k == Sentinel() && HasExactly(ms, r, None))
  }

  /** `r` counts under some bucket that is shown. */
  predicate ShownAs(ms: seq<Observation>, r: string) {
    HasReal(ms, r) || (Leads(ms, Sentinel()) && (HasExactly(ms, r, None) || HasExactly(ms, r, Some(Sentinel()))))
  }

  lemma CountsIff(ms: seq<Observation>, r: string, k: string)
    ensures Has(ms, r, k) <==> Owned(ms, k, r)
  {
    if HasExactly(ms, r, Some(k)) {
      var o :| o in ms && o.repo == r && o.signature == Some(k);
      assert CountsAs(o, k);
    }
    if k == Sentinel() && HasExactly(ms, r, None) {
      var o :| o in ms && o.repo == r && o.signature == None;
      assert CountsAs(o, k);
    }
    if Has(ms, r, k) {
      var o :| o in ms && o.repo == r && CountsAs(o, k);
      assert o.signature == Some(k) || o.signature == None;
    }
  }

  /** A signature other than the sentinel leads its bucket. */
  lemma RealLeads(ms: seq<Observation>, o: Observation)
    requires o in ms && o.signature.Some? && o.signature.value != Sentinel()
    ensures Leads(ms, o.signature.value)
  {
    var k := o.signature.value;
    assert o in Members(ms, BucketKey, k);
    var i := HeadOfMembers(ms, k);
    assert ms[i].signature == Some(k);
  }

  lemma ShownIff(ms: seq<Observation>, groups: seq<Group>, r: string)
    requires forall g :: g in groups <==> g in NonNull(Buckets(ms))
    ensures InSome(ms, groups, r) <==> ShownAs(ms, r)
  {
    if HasReal(ms, r) {
      RealShown(ms, groups, r);
    } else if ShownAs(ms, r) {
      var o :| o in ms && o.repo == r && CountsAs(o, Sentinel());
      ShownUnder(ms, groups, r, Sentinel(), o);
    }
    if InSome(ms, groups, r) {
      var g :| g in groups && Has(ms, r, Text(g));
      ShownFrom(ms, g, r);
    }
  }

  lemma RealShown(ms: seq<Observation>, groups: seq<Group>, r: string)
    requires HasReal(ms, r) && forall g :: g in groups <==> g in NonNull(Buckets(ms))
    ensures InSome(ms, groups, r)
  {
    var o :| o in ms && o.repo == r && o.signature.Some? && o.signature.value != Sentinel();
    RealLeads(ms, o);
    ShownUnder(ms, groups, r, o.signature.value, o);
  }

  lemma ShownFrom(ms: seq<Observation>, g: Group, r: string)
    requires g in NonNull(Buckets(ms)) && Has(ms, r, Text(g))
    ensures ShownAs(ms, r)
  {
    GroupLeads(ms, g);
    CountsIff(ms, r, Text(g));
  }

  lemma ShownUnder(ms: seq<Observation>, groups: seq<Group>, r: string, k: string, o: Observation)
    requires forall g :: g in groups <==> g in NonNull(Buckets(ms))
    requires Leads(ms, k) && o in ms && o.repo == r && CountsAs(o, k)
    ensures InSome(ms, groups, r)
  {
    LeadsIff(ms, k);
    var g :| g in NonNull(Buckets(ms)) && g.signature == Some(k);
    assert g in groups && Has(ms, r, Text(g));
  }

  /** For any symbol and any repository: it is an outlier of a skew exactly if it has some
      signature but not the majority's, or else is misjudged; never both. */
  lemma OutliersExactly(locale: Locale, peers: seq<string>, min: int, obs: seq<Observation>, c: Candidate, r: string)
    requires c in Compare(locale, peers, min, obs) && c.driftKind.SignatureSkew?
    ensures var ms := OfSymbolKey(obs, c.symbolKey);
            && c.groups != []
            && var majority := c.groups[0].signature;
               (r in c.outliers <==> HasSome(ms, r) && !HasExactly(ms, r, majority))
                 <==> !Misjudged(ms, majority, r)
  {
    var ms := OfSymbolKey(obs, c.symbolKey);
    ToldOutlier(locale, peers, min, obs, c, r);
    Judged(ms, Text(c.groups[0]), r);
  }

  lemma ToldOutlier(locale: Locale, peers: seq<string>, min: int, obs: seq<Observation>, c: Candidate, r: string)
    requires c in Compare(locale, peers, min, obs) && c.driftKind.SignatureSkew?
    ensures var ms := OfSymbolKey(obs, c.symbolKey);
            && c.groups != [] && c.groups[0].signature == Some(Text(c.groups[0])) && Leads(ms, Text(c.groups[0]))
            && (r in c.outliers <==> ShownAs(ms, r) && !Owned(ms, Text(c.groups[0]), r))
  {
    var ms := OfSymbolKey(obs, c.symbolKey);
    EveryCandidateTold(locale, peers, min, obs, c);
    ComparedSkew(locale, peers, min, obs, c);
    SameElements(NonNull(Buckets(ms)), c.groups);
    assert c.groups[0] in c.groups;
    ShownIff(ms, c.groups, r);
    CountsIff(ms, r, Text(c.groups[0]));
    GroupLeads(ms, c.groups[0]);
  }

  lemma Judged(ms: seq<Observation>, k: string, r: string)
    requires Leads(ms, k)
    ensures (ShownAs(ms, r) && !Owned(ms, k, r) <==> HasSome(ms, r) && !HasExactly(ms, r, Some(k)))
      <==> !Misjudged(ms, Some(k), r)
  {
    if HasSome(ms, r) && !HasReal(ms, r) {
      var o :| o in ms && o.repo == r && o.signature.Some?;
      assert o.signature == Some(Sentinel());
    }
  }

  // ----- order -----

  /** The candidates come by symbol key, and under one key by kind. */
  lemma ComparedInOrder(locale: Locale, peers: seq<string>, min: int, obs: seq<Observation>, i: nat, j: nat)
    requires i < j < |Compare(locale, peers, min, obs)|
    ensures var c, d := Compare(locale, peers, min, obs)[i], Compare(locale, peers, min, obs)[j];
            && locale(c.symbolKey) <= locale(d.symbolKey)
            && (c.symbolKey == d.symbolKey ==> c.driftKind != d.driftKind)
            && (c.driftKind.SignatureSkew? && d.driftKind.RenameOrDeletion? ==>
                 locale(c.symbolKey) < locale(d.symbolKey) || locale("signature_skew") <= locale("rename_or_deletion"))
  {
    CandidateOrder(locale);
    SortSorts(Candidates(locale, peers, min, obs), CandidateLe(locale));
    var cs := Compare(locale, peers, min, obs);
    assert CandidateLe(locale)(cs[i], cs[j]);
    CompareNoRepeat(locale, peers, min, obs);
    SameElements(Candidates(locale, peers, min, obs), cs);
    assert cs[i] in cs && cs[j] in cs;
    if cs[i].symbolKey == cs[j].symbolKey && cs[i].driftKind == cs[j].driftKind {
      CandidateKey(locale, peers, min, obs, cs[i]);
      CandidateKey(locale, peers, min, obs, cs[j]);
      OfSymbolOneEach(locale, peers, min, cs[i].symbolKey, OfSymbolKey(obs, cs[i].symbolKey));
    }
  }
}
