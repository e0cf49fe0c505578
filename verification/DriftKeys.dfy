/** When two drift pull requests have one idempotency key. */
module DriftKeys {
  import opened Prelude
  import opened Ordering
  import opened Grouping
  import opened DriftCompare
  import opened DriftInvariance
  import opened DriftPlan

  /** What a plan says of one symbol: which drift, towards which signature. */
  datatype Entry = Entry(symbolKey: string, driftKind: DriftKind, signature: Option<string>)

  function EntryOf(c: Candidate): Entry {
    Entry(c.symbolKey, c.driftKind, if c.groups == [] then None else c.groups[0].signature)
  }

  /** The path is one of the majority's in some candidate. */
  predicate InMajority(cs: seq<Candidate>, path: string) {
    exists c :: c in cs && c.groups != [] && path in c.groups[0].paths
  }

  predicate Clean(s: string) {
    '\t' !in s && '\n' !in s
  }

  /** The majority has a signature of one line; symbol and paths have neither tab nor line break. */
  predicate Tidy(c: Candidate) {
    && Clean(c.symbolKey) && c.groups != [] && c.groups[0].signature.Some?
    && '\n' !in c.groups[0].signature.value
    && forall p :: p in c.groups[0].paths ==> p != "" && Clean(p)
  }

  predicate AllTidy(cs: seq<Candidate>) {
    forall c :: c in cs ==> Tidy(c)
  }

  /** Different texts have different hashes, all of one length. */
  ghost predicate Collisionless(hash: Hash, n: nat) {
    (forall a, b :: hash(a) == hash(b) ==> a == b) && (forall a :: |hash(a)| == n)
  }

  // ----- rows and content lines -----

  function RowText(e: Entry): string {
    e.symbolKey + "\t" + DriftName(e.driftKind) + "\t" + e.signature.GetOr("")
  }

  function ContentText(e: Entry): string {
    e.symbolKey + "\t" + e.signature.GetOr("")
  }

  predicate TidyEntry(e: Entry) {
    Clean(e.symbolKey) && e.signature.Some? && '\n' !in e.signature.value
  }

  lemma {:induction false} RowsOf(cs: seq<Candidate>)
    requires AllTidy(cs)
    ensures Map(cs, SignatureRow) == Map(Map(cs, EntryOf), RowText)
    ensures Map(cs, ContentLine) == Map(Map(cs, EntryOf), ContentText)
    ensures forall e :: e in Map(cs, EntryOf) ==> TidyEntry(e)
  {
    var es := Map(cs, EntryOf);
    forall i | 0 <= i < |cs|
      ensures SignatureRow(cs[i]) == RowText(es[i]) && ContentLine(cs[i]) == ContentText(es[i]) && TidyEntry(es[i])
    {
      assert cs[i] in cs && es[i] == EntryOf(cs[i]);
    }
  }

  /** Texts that agree have one part before the separator and one after it. */
  lemma SplitOnce(sep: char, p: string, s: string, q: string, t: string)
    requires sep !in p && sep !in q && p + [sep] + s == q + [sep] + t
    ensures p == q && s == t
  {
    var a, b := p + [sep] + s, q + [sep] + t;
    assert a[|p|] == sep && forall i :: 0 <= i < |p| ==> a[i] == p[i];
    assert b[|q|] == sep && forall i :: 0 <= i < |q| ==> b[i] == q[i];
    assert |p| == |q|;
    assert a[..|p|] == p && b[..|q|] == q && a[|p| + 1..] == s && b[|q| + 1..] == t;
  }

  lemma RowTellsEntry(e: Entry, f: Entry)
    requires TidyEntry(e) && TidyEntry(f) && RowText(e) == RowText(f)
    ensures e == f
  {
    var s, t := DriftName(e.driftKind) + "\t" + e.signature.value, DriftName(f.driftKind) + "\t" + f.signature.value;
    assert RowText(e) == e.symbolKey + ['\t'] + s && RowText(f) == f.symbolKey + ['\t'] + t;
    SplitOnce('\t', e.symbolKey, s, f.symbolKey, t);
    SplitOnce('\t', DriftName(e.driftKind), e.signature.value, DriftName(f.driftKind), f.signature.value);
    assert |DriftName(e.driftKind)| == |DriftName(f.driftKind)|;
  }

  lemma {:induction false} CountedAs<V, K>(xs: seq<V>, f: V -> K, x: V)
    requires forall y :: y in xs && f(y) == f(x) ==> y == x
    ensures multiset(Map(xs, f))[f(x)] == multiset(xs)[x]
  {
    if xs != [] {
      var n := |xs| - 1;
      assert xs == xs[..n] + [xs[n]] && xs[n] in xs;
      CountedAs(xs[..n], f, x);
    }
  }

  /** Equal rows, equal entries. */
  lemma RowsTellEntries(es: seq<Entry>, fs: seq<Entry>)
    requires (forall e :: e in es ==> TidyEntry(e)) && forall f :: f in fs ==> TidyEntry(f)
    requires multiset(Map(es, RowText)) == multiset(Map(fs, RowText))
    ensures multiset(es) == multiset(fs)
  {
    forall e ensures multiset(es)[e] == multiset(fs)[e] {
      if e in es || e in fs {
        RowCounts(es, e);
        RowCounts(fs, e);
      }
    }
  }

  lemma RowCounts(es: seq<Entry>, e: Entry)
    requires TidyEntry(e) && forall f :: f in es ==> TidyEntry(f)
    ensures multiset(Map(es, RowText))[RowText(e)] == multiset(es)[e]
  {
    forall f | f in es && RowText(f) == RowText(e) ensures f == e { RowTellsEntry(f, e); }
    CountedAs(es, RowText, e);
  }

  // ----- lines -----

  predicate Line(l: string) {
    l != "" && '\n' !in l
  }

  predicate AllLines(ls: seq<string>) {
    forall l :: l in ls ==> Line(l)
  }

  lemma JoinSplits(ls: seq<string>)
    requires AllLines(ls)
    ensures ls == [] <==> Join(ls) == ""
    ensures |ls| <= 1 <==> '\n' !in Join(ls)
  {
    if |ls| == 1 {
      assert ls[0] in ls;
    } else if |ls| > 1 {
      var n := |ls| - 1;
      assert Join(ls)[|Join(ls[..n])|] == '\n';
    }
  }

  /** Texts that agree around their last line break agree before and after it. */
  lemma LastBreak(p: string, l: string, q: string, m: string)
    requires '\n' !in l && '\n' !in m && p + "\n" + l == q + "\n" + m
    ensures p == q && l == m
  {
    var s, t := p + "\n" + l, q + "\n" + m;
    assert s[|p|] == '\n' && forall i :: |p| < i < |s| ==> s[i] == l[i - |p| - 1];
    assert t[|q|] == '\n' && forall i :: |q| < i < |t| ==> t[i] == m[i - |q| - 1];
    assert |p| == |q|;
    assert s[..|p|] == p && t[..|q|] == q && s[|p| + 1..] == l && t[|q| + 1..] == m;
  }

  lemma {:induction false} JoinTellsApart(a: seq<string>, b: seq<string>)
    requires AllLines(a) && AllLines(b) && Join(a) == Join(b)
    ensures a == b
    decreases |a|
  {
    JoinSplits(a);
    JoinSplits(b);
    if |a| > 1 {
      var n, m := |a| - 1, |b| - 1;
      assert a[n] in a && b[m] in b;
      LastBreak(Join(a[..n]), a[n], Join(b[..m]), b[m]);
      assert AllLines(a[..n]) && AllLines(b[..m]);
      JoinTellsApart(a[..n], b[..m]);
      assert a == a[..n] + [a[n]] && b == b[..m] + [b[m]];
    }
  }

  /** Where two lists of lines meet a line break stands. */
  lemma {:induction false} JoinAppend(a: seq<string>, b: seq<string>)
    requires a != [] && b != []
    ensures Join(a + b) == Join(a) + "\n" + Join(b)
    decreases |b|
  {
    var n := |b| - 1;
    assert (a + b)[..|a + b| - 1] == a + b[..n] && (a + b)[|a + b| - 1] == b[n];
    if n == 0 {
      assert a + b[..n] == a;
    } else {
      JoinAppend(a, b[..n]);
    }
  }

  /** Lines without a tab, then lines with one, over any join. */
  lemma TabsSplit(a: seq<string>, b: seq<string>, c: seq<string>, d: seq<string>)
    requires a + b == c + d
    requires (forall l :: l in a || l in c ==> '\t' !in l) && forall l :: l in b || l in d ==> '\t' in l
    ensures a == c && b == d
  {
    var x, y := a + b, c + d;
    assert forall k :: 0 <= k < |x| ==> ('\t' in x[k] <==> k >= |a|);
    assert forall k :: 0 <= k < |y| ==> ('\t' in y[k] <==> k >= |c|);
    assert |a| == |c| by {
      var k := if |a| < |c| then |a| else |c|;
      assert k < |x| ==> ('\t' in x[k] <==> '\t' in y[k]);
    }
    assert x[..|a|] == a && y[..|c|] == c && x[|a|..] == b && y[|c|..] == d;
  }

  lemma {:induction false} JoinStarts(a: seq<string>)
    requires AllLines(a) && a != []
    ensures Join(a) != "" && Join(a)[0] != '\n'
  {
    if |a| == 1 {
      assert a[0] in a;
    } else {
      assert AllLines(a[..|a| - 1]);
      JoinStarts(a[..|a| - 1]);
    }
  }

  /** A text of lines without tabs, a break, and lines with one tells both lists. */
  lemma ListsTold(a: seq<string>, b: seq<string>, c: seq<string>, d: seq<string>)
    requires AllLines(a) && AllLines(b) && AllLines(c) && AllLines(d) && b != [] && d != []
    requires (forall l :: l in a || l in c ==> '\t' !in l) && forall l :: l in b || l in d ==> '\t' in l
    requires Join(a) + "\n" + Join(b) == Join(c) + "\n" + Join(d)
    ensures a == c && b == d
  {
    StartsAlike(a, Join(b), c, Join(d));
    if a == [] {
      assert ("" + "\n" + Join(b))[1..] == Join(b) && ("" + "\n" + Join(d))[1..] == Join(d);
      JoinTellsApart(b, d);
    } else {
      JoinAppend(a, b);
      JoinAppend(c, d);
      JoinTellsApart(a + b, c + d);
      TabsSplit(a, b, c, d);
    }
  }

  lemma StartsAlike(a: seq<string>, s: string, c: seq<string>, t: string)
    requires AllLines(a) && AllLines(c) && Join(a) + "\n" + s == Join(c) + "\n" + t
    ensures a == [] <==> c == []
  {
    if a != [] { JoinStarts(a); }
    if c != [] { JoinStarts(c); }
    assert (Join(a) + "\n" + s)[0] == if a == [] then '\n' else Join(a)[0];
    assert (Join(c) + "\n" + t)[0] == if c == [] then '\n' else Join(c)[0];
  }

  // ----- the hashed texts -----

  lemma Halves(a: string, b: string, a': string, b': string)
    requires a + b == a' + b' && |a| == |a'|
    ensures a == a' && b == b'
  {
    assert (a + b)[..|a|] == a && (a' + b')[..|a|] == a';
    assert (a + b)[|a|..] == b && (a' + b')[|a|..] == b';
  }

  /** A key made of two hashes tells both hashed texts. */
  lemma KeyParts(hash: Hash, n: nat, a: string, b: string, a': string, b': string)
    requires Collisionless(hash, n) && hash(hash(a) + hash(b)) == hash(hash(a') + hash(b'))
    ensures a == a' && b == b'
  {
    Halves(hash(a), hash(b), hash(a'), hash(b'));
  }

  function PathList(cs: seq<Candidate>): seq<string> { DedupSort(FlatMap(cs, MajorityPaths)) }
  function ContentList(cs: seq<Candidate>): seq<string> { Sort(Map(cs, ContentLine), StrLe) }
  function RowList(cs: seq<Candidate>): seq<string> { Sort(Map(cs, SignatureRow), StrLe) }

  lemma KeyIs(hash: Hash, source: string, cs: seq<Candidate>)
    ensures IdempotencyKey(hash, source, cs)
      == hash(hash(SourceText(source, PathList(cs), ContentList(cs))) + hash(Join(RowList(cs))))
  {}

  lemma InPathList(cs: seq<Candidate>, p: string)
    ensures p in PathList(cs) <==> InMajority(cs, p)
  {
    DedupSortIff(FlatMap(cs, MajorityPaths), p);
    FlatMapIff(cs, MajorityPaths, p);
    if InMajority(cs, p) {
      var c :| c in cs && c.groups != [] && p in c.groups[0].paths;
      assert p in MajorityPaths(c);
    }
  }

  lemma PathLines(cs: seq<Candidate>)
    requires AllTidy(cs)
    ensures AllLines(PathList(cs)) && forall l :: l in PathList(cs) ==> '\t' !in l
  {
    forall l | l in PathList(cs) ensures Line(l) && '\t' !in l {
      InPathList(cs, l);
    }
  }

  lemma ContentLines(cs: seq<Candidate>)
    requires AllTidy(cs) && cs != []
    ensures ContentList(cs) != [] && AllLines(ContentList(cs)) && forall l :: l in ContentList(cs) ==> '\t' in l
  {
    var es := Map(cs, EntryOf);
    RowsOf(cs);
    SameElements(Map(cs, ContentLine), ContentList(cs));
    assert Map(cs, ContentLine)[0] in ContentList(cs);
    forall l | l in ContentList(cs) ensures Line(l) && '\t' in l {
      MapIff(es, ContentText, l);
      var e :| e in es && ContentText(e) == l;
      TidyText(e);
    }
  }

  lemma RowLines(cs: seq<Candidate>)
    requires AllTidy(cs)
    ensures AllLines(RowList(cs))
  {
    var es := Map(cs, EntryOf);
    RowsOf(cs);
    SameElements(Map(cs, SignatureRow), RowList(cs));
    forall l | l in RowList(cs) ensures Line(l) {
      MapIff(es, RowText, l);
      var e :| e in es && RowText(e) == l;
      TidyText(e);
    }
  }

  lemma TidyText(e: Entry)
    requires TidyEntry(e)
    ensures Line(RowText(e)) && Line(ContentText(e)) && '\t' in ContentText(e)
  {
    assert ContentText(e)[|e.symbolKey|] == '\t';
  }

  lemma SameRows(cs: seq<Candidate>, cs': seq<Candidate>)
    requires AllTidy(cs) && AllTidy(cs') && RowList(cs) == RowList(cs')
    ensures multiset(Map(cs, EntryOf)) == multiset(Map(cs', EntryOf))
  {
    RowsOf(cs);
    RowsOf(cs');
    assert multiset(Map(cs, SignatureRow)) == multiset(RowList(cs)) == multiset(Map(cs', SignatureRow));
    RowsTellEntries(Map(cs, EntryOf), Map(cs', EntryOf));
  }

  lemma SamePaths(cs: seq<Candidate>, cs': seq<Candidate>)
    ensures PathList(cs) == PathList(cs') <==> forall p :: InMajority(cs, p) <==> InMajority(cs', p)
  {
    forall p ensures p in PathList(cs) <==> InMajority(cs, p) { InPathList(cs, p); }
    forall p ensures p in PathList(cs') <==> InMajority(cs', p) { InPathList(cs', p); }
    if forall p :: InMajority(cs, p) <==> InMajority(cs', p) {
      var a, b := FlatMap(cs, MajorityPaths), FlatMap(cs', MajorityPaths);
      forall p ensures p in a <==> p in b {
        DedupSortIff(a, p);
        DedupSortIff(b, p);
        assert p in PathList(cs) <==> p in PathList(cs');
      }
      DedupSortSame(a, b);
    }
  }

  lemma SameLists(cs: seq<Candidate>, cs': seq<Candidate>)
    requires AllTidy(cs) && AllTidy(cs') && multiset(Map(cs, EntryOf)) == multiset(Map(cs', EntryOf))
    ensures RowList(cs) == RowList(cs') && ContentList(cs) == ContentList(cs')
  {
    RowsOf(cs);
    RowsOf(cs');
    MapPermuted(Map(cs, EntryOf), Map(cs', EntryOf), RowText);
    MapPermuted(Map(cs, EntryOf), Map(cs', EntryOf), ContentText);
    StrSortUnique(Map(cs, SignatureRow), Map(cs', SignatureRow));
    StrSortUnique(Map(cs, ContentLine), Map(cs', ContentLine));
  }

  lemma FirstBreak(p: string, u: string, v: string)
    ensures p + "\n" + u + "\n" + v == p + ['\n'] + (u + "\n" + v)
  {}

  lemma SourceSplit(source: string, a: seq<string>, b: seq<string>, source': string, c: seq<string>, d: seq<string>)
    requires SourceText(source, a, b) == SourceText(source', c, d) && '\n' !in source && '\n' !in source'
    ensures source == source' && Join(a) + "\n" + Join(b) == Join(c) + "\n" + Join(d)
  {
    var s, t := Join(a) + "\n" + Join(b), Join(c) + "\n" + Join(d);
    FirstBreak(source, Join(a), Join(b));
    FirstBreak(source', Join(c), Join(d));
    SplitOnce('\n', source, s, source', t);
  }

  lemma SourceTold(source: string, cs: seq<Candidate>, source': string, cs': seq<Candidate>)
    requires AllTidy(cs) && AllTidy(cs') && '\n' !in source && '\n' !in source'
    requires multiset(Map(cs, EntryOf)) == multiset(Map(cs', EntryOf))
    requires SourceText(source, PathList(cs), ContentList(cs)) == SourceText(source', PathList(cs'), ContentList(cs'))
    ensures source == source' && PathList(cs) == PathList(cs')
  {
    var a, b, c, d := PathList(cs), ContentList(cs), PathList(cs'), ContentList(cs');
    SourceSplit(source, a, b, source', c, d);
    assert |multiset(Map(cs, EntryOf))| == |cs| && |multiset(Map(cs', EntryOf))| == |cs'|;
    if cs != [] {
      PathLines(cs);
      PathLines(cs');
      ContentLines(cs);
      ContentLines(cs');
      ListsTold(a, b, c, d);
    }
  }

  /** For any hash without collisions: plans have one key if and only if they have one source,
      the same symbols with the same drift and majority signature, and the same source files. */
  lemma KeyIff(hash: Hash, n: nat, source: string, cs: seq<Candidate>, source': string, cs': seq<Candidate>)
    requires Collisionless(hash, n) && AllTidy(cs) && AllTidy(cs') && '\n' !in source && '\n' !in source'
    ensures IdempotencyKey(hash, source, cs) == IdempotencyKey(hash, source', cs') <==>
      && source == source' && multiset(Map(cs, EntryOf)) == multiset(Map(cs', EntryOf))
      && forall p :: InMajority(cs, p) <==> InMajority(cs', p)
  {
    KeyIs(hash, source, cs);
    KeyIs(hash, source', cs');
    SamePaths(cs, cs');
    if IdempotencyKey(hash, source, cs) == IdempotencyKey(hash, source', cs') {
      KeyParts(hash, n, SourceText(source, PathList(cs), ContentList(cs)), Join(RowList(cs)),
               SourceText(source', PathList(cs'), ContentList(cs')), Join(RowList(cs')));
      RowLines(cs);
      RowLines(cs');
      JoinTellsApart(RowList(cs), RowList(cs'));
      SameRows(cs, cs');
      SourceTold(source, cs, source', cs');
    } else if multiset(Map(cs, EntryOf)) == multiset(Map(cs', EntryOf)) {
      SameLists(cs, cs');
    }
  }
}
