/** The drift pull-request planner (src/agents/drift-detector/real-pr.ts). */
module DriftPlan {
  import opened Prelude
  import opened Ordering
  import opened Grouping
  import opened DriftCompare
  import opened DriftInvariance
  import opened DriftMajority

  /** Title, body and labels are text made from these fields. */
  datatype Plan = Plan(source: string, candidates: seq<Candidate>, targets: seq<string>, idempotencyKey: string)

  /** `sourceRepoOf`. */
  function SourceOf(c: Candidate): Option<string> {
    if c.groups == [] || c.groups[0].repos == [] then None else Some(c.groups[0].repos[0])
  }

  function HasSource(c: Candidate): bool { SourceOf(c).Some? }
  function SourceName(c: Candidate): string { SourceOf(c).GetOr("") }
  function OutliersOf(c: Candidate): seq<string> { c.outliers }
  function CandidatesOf(p: Plan): seq<Candidate> { p.candidates }

  function Sourced(cs: seq<Candidate>): seq<Candidate> {
    Members(cs, HasSource, true)
  }

  function Targets(cs: seq<Candidate>): seq<string> {
    DedupSort(FlatMap(cs, OutliersOf))
  }

  // ----- idempotency key, over any hash -----

  type Hash = string -> string

  function Join(lines: seq<string>): string {
    if lines == [] then ""
    else if |lines| == 1 then lines[0]
    else Join(lines[..|lines| - 1]) + "\n" + lines[|lines| - 1]
  }

  function MajorityPaths(c: Candidate): seq<string> { if c.groups == [] then [] else c.groups[0].paths }
  function MajoritySignature(c: Candidate): string { if c.groups == [] then "" else c.groups[0].signature.GetOr("") }
  function ContentLine(c: Candidate): string { c.symbolKey + "\t" + MajoritySignature(c) }
  function SignatureRow(c: Candidate): string {
    c.symbolKey + "\t" + DriftName(c.driftKind) + "\t" + MajoritySignature(c)
  }

  function SourceText(source: string, paths: seq<string>, lines: seq<string>): string {
    source + "\n" + Join(paths) + "\n" + Join(lines)
  }

  function SourceFileSha(hash: Hash, source: string, cs: seq<Candidate>): string {
    hash(SourceText(source, DedupSort(FlatMap(cs, MajorityPaths)), Sort(Map(cs, ContentLine), StrLe)))
  }

  function DriftSignature(hash: Hash, cs: seq<Candidate>): string {
    hash(Join(Sort(Map(cs, SignatureRow), StrLe)))
  }

  function IdempotencyKey(hash: Hash, source: string, cs: seq<Candidate>): string {
    hash(SourceFileSha(hash, source, cs) + DriftSignature(hash, cs))
  }

  // ----- the plans -----

  function PlanFor(hash: Hash, source: string, cs: seq<Candidate>): Plan {
    Plan(source, cs, Targets(cs), IdempotencyKey(hash, source, cs))
  }

  function PlanOf(hash: Hash, cs: seq<Candidate>): string -> seq<Plan> {
    (source: string) => [PlanFor(hash, source, Members(cs, SourceName, source))]
  }

  function PlanLe(a: Plan, b: Plan): bool { StrLe(a.source, b.source) }

  function Plans(hash: Hash, cs: seq<Candidate>): seq<Plan> {
    var sourced := Sourced(cs);
    Sort(FlatMap(Keys(sourced, SourceName), PlanOf(hash, sourced)), PlanLe)
  }

  /** `planDriftPrs`. */
  method PlanDriftPrs(hash: Hash, cs: seq<Candidate>) returns (plans: seq<Plan>)
    ensures plans == Plans(hash, cs)
  {
    var sourced := Sourced(cs);
    var order, bySource := GroupBy(sourced, SourceName);
    plans := [];
    ghost var planOf := PlanOf(hash, sourced);
    assert forall k :: k in order ==> planOf(k) == [PlanFor(hash, k, bySource[k])];
    for i := 0 to |order|
      invariant plans == FlatMap(order[..i], planOf)
    {
      FlatMapNext(order, i, planOf);
      var plan := MakePlan(hash, order[i], bySource[order[i]]);
      plans := plans + [plan];
    }
    assert order[..|order|] == order;
    plans := Sort(plans, PlanLe);
  }

  /** The body of its loop. */
  method MakePlan(hash: Hash, source: string, cs: seq<Candidate>) returns (p: Plan)
    ensures p == PlanFor(hash, source, cs)
  {
    var targets := Collect(cs, OutliersOf);
    var sha := ComputeSourceFileSha(hash, source, cs);
    p := Plan(source, cs, DedupSort(targets), hash(sha + DriftSignature(hash, cs)));
  }

  /** `computeSourceFileSha`: one loop fills the path set and the content lines. */
  method ComputeSourceFileSha(hash: Hash, source: string, cs: seq<Candidate>) returns (sha: string)
    ensures sha == SourceFileSha(hash, source, cs)
  {
    var paths: seq<string>, contentLines: seq<string> := [], [];
    for i := 0 to |cs|
      invariant paths == FlatMap(cs[..i], MajorityPaths)
      invariant contentLines == Map(cs[..i], ContentLine)
    {
      FlatMapNext(cs, i, MajorityPaths);
      assert cs[..i + 1][..i] == cs[..i];
      paths := paths + MajorityPaths(cs[i]);
      contentLines := contentLines + [ContentLine(cs[i])];
    }
    assert cs[..|cs|] == cs;
    sha := hash(source + "\n" + Join(DedupSort(paths)) + "\n" + Join(Sort(contentLines, StrLe)));
  }

  // ----- exact partition -----

  lemma PlansOfKeys(hash: Hash, cs: seq<Candidate>, keys: seq<string>)
    ensures FlatMap(FlatMap(keys, PlanOf(hash, cs)), CandidatesOf) == FlatMap(keys, Slice(cs, SourceName))
  {
    var f, h := PlanOf(hash, cs), Slice(cs, SourceName);
    forall k | k in keys ensures FlatMap(f(k), CandidatesOf) == h(k) {
      FlatMapOne(PlanFor(hash, k, Members(cs, SourceName, k)), CandidatesOf);
    }
    FlatMapTwice(keys, f, CandidatesOf, h);
  }

  /** The plans together hold exactly the candidates that have a source. */
  lemma PlansHoldSourced(hash: Hash, cs: seq<Candidate>)
    ensures multiset(FlatMap(Plans(hash, cs), CandidatesOf)) == multiset(Sourced(cs))
  {
    var sourced := Sourced(cs);
    var keys := Keys(sourced, SourceName);
    var plans := FlatMap(keys, PlanOf(hash, sourced));
    FlatMapPermuted(Sort(plans, PlanLe), plans, CandidatesOf, CandidatesOf);
    PlansOfKeys(hash, sourced, keys);
    GroupsPartition(sourced, SourceName);
  }

  lemma PlanSource(hash: Hash, cs: seq<Candidate>, p: Plan)
    requires p in Plans(hash, cs)
    ensures p == PlanFor(hash, p.source, Members(Sourced(cs), SourceName, p.source))
  {
    var sourced := Sourced(cs);
    var plans := FlatMap(Keys(sourced, SourceName), PlanOf(hash, sourced));
    SameElements(plans, Sort(plans, PlanLe));
    var k := FlatMapSource(Keys(sourced, SourceName), PlanOf(hash, sourced), p);
    assert PlanOf(hash, sourced)(k) == [PlanFor(hash, k, Members(sourced, SourceName, k))];
  }

  // ----- what compareDrift guarantees about sources and outliers -----

  /** The majority group has repositories, and none of them is an outlier. */
  ghost predicate Anchored(c: Candidate) {
    c.groups != [] && c.groups[0].repos != [] && forall r :: r in c.outliers ==> r !in c.groups[0].repos
  }

  lemma SkewAnchored(locale: Locale, key: string, name: string, kind: Kind, ms: seq<Observation>, c: Candidate)
    requires c in Skew(locale, key, name, kind, ms)
    ensures Anchored(c)
  {
    SkewGroups(locale, key, name, kind, ms, c);
    GroupHasRepos(ms, c.groups[0]);
    OutliersApart(c.groups);
  }

  lemma GroupHasRepos(ms: seq<Observation>, g: Group)
    requires g in Buckets(ms)
    ensures g.repos != []
  {
    var k := FromBucket(ms, g);
    BucketMember(ms, k);
    var bucket := Members(ms, BucketKey, k);
    DedupSortIff(Map(bucket, RepoOf), Map(bucket, RepoOf)[0]);
  }

  lemma OutliersApart(groups: seq<Group>)
    requires groups != []
    ensures forall r :: r in DedupSort(FlatMap(groups[1..], NotIn(groups[0].repos))) ==> r !in groups[0].repos
  {
    var all := FlatMap(groups[1..], NotIn(groups[0].repos));
    forall r | r in DedupSort(all) ensures r !in groups[0].repos {
      DedupSortIff(all, r);
      var g := FlatMapSource(groups[1..], NotIn(groups[0].repos), r);
    }
  }

  lemma RenameAnchored(key: string, name: string, kind: Kind, ms: seq<Observation>, peers: seq<string>, c: Candidate)
    requires c in Rename(key, name, kind, ms, peers)
    ensures Anchored(c)
  {
    var repos := Map(ms, RepoOf);
    var missing := Members(FirstSeen(peers), IsIn(repos), false);
    DedupSortApart(repos, missing);
    DedupSortApart(missing, repos);
    var present, absent := DedupSort(repos), DedupSort(missing);
    assert (c.groups[0].repos == present && c.outliers == absent)
        || (c.groups[0].repos == absent && c.outliers == present);
  }

  lemma DedupSortApart(a: seq<string>, b: seq<string>)
    requires a != [] && forall x :: x in b ==> x !in a
    ensures DedupSort(a) != [] && forall x :: x in DedupSort(b) ==> x !in DedupSort(a)
  {
    DedupSortIff(a, a[0]);
    forall x | x in DedupSort(b) ensures x !in DedupSort(a) {
      DedupSortIff(a, x);
      DedupSortIff(b, x);
    }
  }

  lemma ComparedAnchored(locale: Locale, peers: seq<string>, min: int, obs: seq<Observation>, c: Candidate)
    requires c in Compare(locale, peers, min, obs)
    ensures Anchored(c)
  {
    var cs := Candidates(locale, peers, min, obs);
    SameElements(cs, Sort(cs, CandidateLe(locale)));
    CandidateKey(locale, peers, min, obs, c);
    var key := c.symbolKey;
    var ms := Members(obs, SymbolKey, key);
    PartsAnchored(locale, peers, min, key, ms, c);
  }

  lemma PartsAnchored(locale: Locale, peers: seq<string>, min: int, key: string, ms: seq<Observation>, c: Candidate)
    requires c in OfSymbol(locale, peers, min, key, ms)
    ensures Anchored(c)
  {
    if c in Skew(locale, key, ms[0].name, ms[0].kind, ms) {
      SkewAnchored(locale, key, ms[0].name, ms[0].kind, ms, c);
    } else {
      RenameAnchored(key, ms[0].name, ms[0].kind, ms, peers, c);
    }
  }

  /** Exact partition: every candidate the comparator emits lands in exactly one plan,
      so the plan sizes add up. */
  lemma PlansPartition(hash: Hash, locale: Locale, peers: seq<string>, min: int, obs: seq<Observation>)
    ensures var cs := Compare(locale, peers, min, obs);
            var all := FlatMap(Plans(hash, cs), CandidatesOf);
            multiset(all) == multiset(cs) && |all| == |cs|
  {
    var cs := Compare(locale, peers, min, obs);
    forall c | c in cs ensures HasSource(c) { ComparedAnchored(locale, peers, min, obs, c); }
    AllMembers(cs, HasSource, true);
    PlansHoldSourced(hash, cs);
    SameElements(FlatMap(Plans(hash, cs), CandidatesOf), cs);
  }

  lemma {:induction false} AllMembers<V(!new), K>(xs: seq<V>, key: V -> K, k: K)
    requires forall x :: x in xs ==> key(x) == k
    ensures Members(xs, key, k) == xs
  {
    if xs != [] {
      var n := |xs| - 1;
      assert xs == xs[..n] + [xs[n]];
      AllMembers(xs[..n], key, k);
    }
  }

  /** A candidate is only in the plan of its own source. */
  lemma OnePlanEach(hash: Hash, cs: seq<Candidate>, p: Plan, q: Plan, c: Candidate)
    requires p in Plans(hash, cs) && q in Plans(hash, cs) && c in p.candidates && c in q.candidates
    ensures p == q && SourceOf(c) == Some(p.source)
  {
    PlanSource(hash, cs, p);
    PlanSource(hash, cs, q);
  }

  /** The source of truth is never among the repositories its plan would change. */
  lemma SourceIsNoTarget(hash: Hash, locale: Locale, peers: seq<string>, min: int, obs: seq<Observation>, p: Plan)
    requires p in Plans(hash, Compare(locale, peers, min, obs))
    ensures p.source !in p.targets
  {
    var cs := Compare(locale, peers, min, obs);
    PlanSource(hash, cs, p);
    DedupSortIff(FlatMap(p.candidates, OutliersOf), p.source);
    if p.source in FlatMap(p.candidates, OutliersOf) {
      var c := FlatMapSource(p.candidates, OutliersOf, p.source);
      ComparedAnchored(locale, peers, min, obs, c);
    }
  }

  /** A plan's source is the first repository, by name, of the majority of each of its
      candidates. */
  lemma SourceLeads(hash: Hash, locale: Locale, peers: seq<string>, min: int, obs: seq<Observation>, p: Plan,
                    c: Candidate)
    requires p in Plans(hash, Compare(locale, peers, min, obs)) && c in p.candidates
    ensures c.groups != [] && p.source in c.groups[0].repos
    ensures forall r :: r in c.groups[0].repos ==> StrLe(p.source, r)
  {
    PlanHolds(hash, Compare(locale, peers, min, obs), p, c);
    FirstListed(locale, peers, min, obs, c);
    StrOrder(c.groups[0].repos);
  }

  lemma FirstListed(locale: Locale, peers: seq<string>, min: int, obs: seq<Observation>, c: Candidate)
    requires c in Compare(locale, peers, min, obs)
    ensures c.groups != [] && Sorted(c.groups[0].repos, StrLe)
  {
    EveryCandidateTold(locale, peers, min, obs, c);
    assert c.groups[0] in c.groups && Listing(c.groups[0].repos);
  }

  // ----- targets and order -----

  lemma TargetsOf(cs: seq<Candidate>, r: string)
    ensures r in Targets(cs) <==> exists c :: c in cs && r in c.outliers
  {
    DedupSortIff(FlatMap(cs, OutliersOf), r);
    if r in FlatMap(cs, OutliersOf) {
      var c := FlatMapSource(cs, OutliersOf, r);
      assert r in c.outliers;
    }
    if exists c :: c in cs && r in c.outliers {
      var c :| c in cs && r in c.outliers;
      FlatMapHas(cs, OutliersOf, c, r);
    }
  }

  /** A repository is a target of a plan exactly if it is an outlier of one of its candidates. */
  lemma TargetIff(hash: Hash, cs: seq<Candidate>, p: Plan, r: string)
    requires p in Plans(hash, cs)
    ensures r in p.targets <==> exists c :: c in p.candidates && r in c.outliers
  {
    PlanSource(hash, cs, p);
    TargetsOf(p.candidates, r);
  }

  /** A plan holds exactly the candidates of its source. */
  lemma PlanHolds(hash: Hash, cs: seq<Candidate>, p: Plan, c: Candidate)
    requires p in Plans(hash, cs)
    ensures c in p.candidates <==> c in cs && SourceOf(c) == Some(p.source)
  {
    PlanSource(hash, cs, p);
  }

  function PlanName(p: Plan): string { p.source }

  lemma PlanOfTold(hash: Hash, cs: seq<Candidate>, keys: seq<string>)
    ensures Tagged(keys, PlanOf(hash, cs), PlanName)
    ensures forall k :: k in keys ==> NoRepeat(PlanOf(hash, cs)(k))
  {}

  lemma PlanOrder()
    ensures Preorder(PlanLe)
  {
    StrOrder([]);
  }

  lemma PlansSorted(hash: Hash, cs: seq<Candidate>)
    ensures Sorted(Plans(hash, cs), PlanLe) && NoRepeat(Plans(hash, cs))
  {
    var sourced := Sourced(cs);
    var keys, planOf := Keys(sourced, SourceName), PlanOf(hash, sourced);
    PlanOrder();
    SortSorts(FlatMap(keys, planOf), PlanLe);
    PlanOfTold(hash, sourced, keys);
    FlatMapNoRepeat(keys, planOf, PlanName);
    PermutedOnce(FlatMap(keys, planOf), Plans(hash, cs));
  }

  /** The plans come by source, one for each. */
  lemma PlansInOrder(hash: Hash, cs: seq<Candidate>, i: nat, j: nat)
    requires i < j < |Plans(hash, cs)|
    ensures StrLe(Plans(hash, cs)[i].source, Plans(hash, cs)[j].source)
    ensures Plans(hash, cs)[i].source != Plans(hash, cs)[j].source
  {
    var plans := Plans(hash, cs);
    PlansSorted(hash, cs);
    assert plans[i] in plans && plans[j] in plans && PlanLe(plans[i], plans[j]);
    PlanSource(hash, cs, plans[i]);
    PlanSource(hash, cs, plans[j]);
  }

  // ----- idempotency -----

  lemma LinesPermuted(cs: seq<Candidate>, cs': seq<Candidate>, line: Candidate -> string)
    requires multiset(cs) == multiset(cs')
    ensures Sort(Map(cs, line), StrLe) == Sort(Map(cs', line), StrLe)
  {
    MapPermuted(cs, cs', line);
    StrSortUnique(Map(cs, line), Map(cs', line));
  }

  lemma MapPermuted<V(!new), K>(xs: seq<V>, ys: seq<V>, line: V -> K)
    requires multiset(xs) == multiset(ys)
    ensures multiset(Map(xs, line)) == multiset(Map(ys, line))
  {
    var one := (x: V) => [line(x)];
    MapFlat(xs, line, one);
    MapFlat(ys, line, one);
    FlatMapPermuted(xs, ys, one, one);
  }

  lemma {:induction false} MapFlat<V, K>(xs: seq<V>, line: V -> K, one: V -> seq<K>)
    requires forall x :: x in xs ==> one(x) == [line(x)]
    ensures FlatMap(xs, one) == Map(xs, line)
  {
    if xs != [] { MapFlat(xs[..|xs| - 1], line, one); }
  }

  lemma SetPermuted(cs: seq<Candidate>, cs': seq<Candidate>, f: Candidate -> seq<string>)
    requires multiset(cs) == multiset(cs')
    ensures DedupSort(FlatMap(cs, f)) == DedupSort(FlatMap(cs', f))
  {
    FlatMapPermuted(cs, cs', f, f);
    SameElements(FlatMap(cs, f), FlatMap(cs', f));
    DedupSortSame(FlatMap(cs, f), FlatMap(cs', f));
  }

  /** A plan's idempotency key and targets do not depend on the order of its
      candidates, whatever the hash. */
  lemma PlanPermuted(hash: Hash, source: string, cs: seq<Candidate>, cs': seq<Candidate>)
    requires multiset(cs) == multiset(cs')
    ensures IdempotencyKey(hash, source, cs) == IdempotencyKey(hash, source, cs') && Targets(cs) == Targets(cs')
  {
    SetPermuted(cs, cs', MajorityPaths);
    SetPermuted(cs, cs', OutliersOf);
    LinesPermuted(cs, cs', ContentLine);
    LinesPermuted(cs, cs', SignatureRow);
  }
}
