/** The drift comparator (src/agents/drift-detector/compare.ts): which symbols have
    diverged between repositories. */
module DriftCompare {
  import opened Prelude
  import opened Ordering
  import opened Grouping

  /** Node kinds are words without a colon. */
  type Kind = k: string | ':' !in k

  datatype Observation = Observation(repo: string, path: string, name: string, kind: Kind, signature: Option<string>)

  datatype Group = Group(signature: Option<string>, repos: seq<string>, paths: seq<string>)

  datatype DriftKind = SignatureSkew | RenameOrDeletion

  datatype Candidate = Candidate(
    symbolKey: string, name: string, kind: Kind, driftKind: DriftKind, groups: seq<Group>, outliers: seq<string>)

  /** `localeCompare` as a ranking of strings; different strings may have one rank. */
  type Locale = string -> real

  function SymbolKey(o: Observation): string {
    o.kind + ":" + o.name
  }

  /** The map key that stands for a missing signature. */
  function Sentinel(): string {
    "\0NULL\0"
  }

  function BucketKey(o: Observation): string {
    if o.signature.None? then Sentinel() else o.signature.value
  }

  function RepoOf(o: Observation): string { o.repo }
  function PathOf(o: Observation): string { o.path }

  function DedupSort(xs: seq<string>): seq<string> {
    Sort(FirstSeen(xs), StrLe)
  }

  // ----- one symbol -----

  /** Observations of one bucket become a group; the first one lends its signature. */
  function GroupOf(ms: seq<Observation>): Group {
    Group(if ms == [] then None else ms[0].signature, DedupSort(Map(ms, RepoOf)), DedupSort(Map(ms, PathOf)))
  }

  function Bucket(obs: seq<Observation>): string -> seq<Group> {
    (k: string) => [GroupOf(Members(obs, BucketKey, k))]
  }

  function Buckets(obs: seq<Observation>): seq<Group> {
    FlatMap(Keys(obs, BucketKey), Bucket(obs))
  }

  function HasSignature(g: Group): bool { g.signature.Some? }

  function NonNull(gs: seq<Group>): seq<Group> {
    Members(gs, HasSignature, true)
  }

  /** More repositories first, then by signature. */
  function GroupLe(locale: Locale): (Group, Group) -> bool {
    (a: Group, b: Group) => |a.repos| > |b.repos|
              || (|a.repos| == |b.repos| && locale(a.signature.GetOr("")) <= locale(b.signature.GetOr("")))
  }

  function IsIn(xs: seq<string>): string -> bool {
    (x: string) => x in xs
  }

  function NotIn(majority: seq<string>): Group -> seq<string> {
    (g: Group) => Members(g.repos, IsIn(majority), false)
  }

  function Skew(locale: Locale, key: string, name: string, kind: Kind, obs: seq<Observation>): seq<Candidate> {
    var nonNull := NonNull(Buckets(obs));
    if |nonNull| < 2 then []
    else
      var groups := Sort(nonNull, GroupLe(locale));
      assert multiset(groups) == multiset(nonNull);
      SameElements(groups, nonNull);
      [Candidate(key, name, kind, SignatureSkew, groups, DedupSort(FlatMap(groups[1..], NotIn(groups[0].repos))))]
  }

  function Rename(key: string, name: string, kind: Kind, obs: seq<Observation>, peers: seq<string>): seq<Candidate> {
    var repos := Map(obs, RepoOf);
    var missing := Members(FirstSeen(peers), IsIn(repos), false);
    if missing == [] || repos == [] then []
    else
      var present := Group(Some("present"), DedupSort(repos), DedupSort(Map(obs, PathOf)));
      var absent := Group(Some("absent"), DedupSort(missing), []);
      var ordered := if |absent.repos| > |present.repos| then [absent, present] else [present, absent];
      [Candidate(key, name, kind, RenameOrDeletion, ordered, ordered[1].repos)]
  }

  function Classify(locale: Locale, peers: seq<string>, key: string, name: string, kind: Kind,
                    obs: seq<Observation>): seq<Candidate> {
    Skew(locale, key, name, kind, obs) + Rename(key, name, kind, obs, peers)
  }

  // ----- all symbols -----

  /** What the observations of one symbol give. */
  function OfSymbol(locale: Locale, peers: seq<string>, min: int, key: string, obs: seq<Observation>): seq<Candidate> {
    if |obs| < min || obs == [] then [] else Classify(locale, peers, key, obs[0].name, obs[0].kind, obs)
  }

  function Symbol(locale: Locale, peers: seq<string>, min: int, obs: seq<Observation>): string -> seq<Candidate> {
    (key: string) => OfSymbol(locale, peers, min, key, Members(obs, SymbolKey, key))
  }

  function Candidates(locale: Locale, peers: seq<string>, min: int, obs: seq<Observation>): seq<Candidate> {
    FlatMap(Keys(obs, SymbolKey), Symbol(locale, peers, min, obs))
  }

  function DriftName(d: DriftKind): string {
    match d case SignatureSkew => "signature_skew" case RenameOrDeletion => "rename_or_deletion"
  }

  function CandidateLe(locale: Locale): (Candidate, Candidate) -> bool {
    (a: Candidate, b: Candidate) => locale(a.symbolKey) < locale(b.symbolKey)
              || (locale(a.symbolKey) == locale(b.symbolKey)
                  && locale(DriftName(a.driftKind)) <= locale(DriftName(b.driftKind)))
  }

  function Compare(locale: Locale, peers: seq<string>, min: int, obs: seq<Observation>): seq<Candidate> {
    Sort(Candidates(locale, peers, min, obs), CandidateLe(locale))
  }

  // ----- the program's loops -----

  /** `bucketBySignature`. */
  method BucketBySignature(obs: seq<Observation>) returns (groups: seq<Group>)
    ensures groups == Buckets(obs)
  {
    var order, buckets := GroupBy(obs, BucketKey);
    groups := [];
    ghost var bucket := Bucket(obs);
    assert forall k :: k in order ==> bucket(k) == [GroupOf(buckets[k])];
    for i := 0 to |order|
      invariant groups == FlatMap(order[..i], bucket)
    {
      FlatMapNext(order, i, bucket);
      groups := groups + [GroupOf(buckets[order[i]])];
    }
    assert order[..|order|] == order;
  }

  /** Repositories of the minority groups that have none of the majority's. */
  method CollectOutliers(groups: seq<Group>) returns (outliers: seq<string>)
    requires groups != []
    ensures outliers == DedupSort(FlatMap(groups[1..], NotIn(groups[0].repos)))
  {
    var all := Collect(groups[1..], NotIn(groups[0].repos));
    outliers := DedupSort(all);
  }

  /** The first half of `classifySymbol`. */
  method ClassifySkew(locale: Locale, key: string, name: string, kind: Kind, obs: seq<Observation>)
    returns (out: seq<Candidate>)
    ensures out == Skew(locale, key, name, kind, obs)
  {
    var signatureGroups := BucketBySignature(obs);
    var nonNull := NonNull(signatureGroups);
    if |nonNull| < 2 { return []; }
    var groups := Sort(nonNull, GroupLe(locale));
    SameElements(groups, nonNull);
    var outliers := CollectOutliers(groups);
    out := [Candidate(key, name, kind, SignatureSkew, groups, outliers)];
  }

  /** `classifySymbol`. */
  method ClassifySymbol(locale: Locale, peers: seq<string>, key: string, name: string, kind: Kind,
                        obs: seq<Observation>)
    returns (out: seq<Candidate>)
    ensures out == Classify(locale, peers, key, name, kind, obs)
  {
    var skew := ClassifySkew(locale, key, name, kind, obs);
    out := skew + Rename(key, name, kind, obs, peers);
  }

  /** `compareDrift`. */
  method CompareDrift(locale: Locale, peers: seq<string>, min: int, obs: seq<Observation>) returns (r: seq<Candidate>)
    ensures r == Compare(locale, peers, min, obs)
  {
    var order, byKey := GroupBy(obs, SymbolKey);
    var candidates := CompareSymbols(locale, peers, min, obs, order, byKey);
    r := Sort(candidates, CandidateLe(locale));
  }

  /** Its loop over the symbols. */
  method CompareSymbols(locale: Locale, peers: seq<string>, min: int, obs: seq<Observation>, order: seq<string>,
                        byKey: map<string, seq<Observation>>) returns (candidates: seq<Candidate>)
    requires forall k :: k in order ==> k in byKey && byKey[k] == Members(obs, SymbolKey, k)
    ensures candidates == FlatMap(order, Symbol(locale, peers, min, obs))
  {
    candidates := [];
    var i := 0;
    while i < |order|
      invariant 0 <= i <= |order|
      invariant candidates == FlatMap(order[..i], Symbol(locale, peers, min, obs))
    {
      var found := CompareSymbol(locale, peers, min, order[i], obs, byKey[order[i]]);
      FlatMapNext(order, i, Symbol(locale, peers, min, obs));
      candidates := candidates + found;
      i := i + 1;
    }
    assert order[..|order|] == order;
  }

  /** The body of its loop. */
  method CompareSymbol(locale: Locale, peers: seq<string>, min: int, key: string, obs: seq<Observation>,
                       obsList: seq<Observation>)
    returns (r: seq<Candidate>)
    requires obsList == Members(obs, SymbolKey, key)
    ensures r == Symbol(locale, peers, min, obs)(key)
  {
    if |obsList| < min || obsList == [] { return []; }
    r := ClassifySymbol(locale, peers, key, obsList[0].name, obsList[0].kind, obsList);
  }
}
