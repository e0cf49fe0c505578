/** Issue labels and routing hints: the parser of src/queue/labels.ts and the printer
    of src/orchestrator/pipeline-bridge.ts. */
module Labels {
  import opened Prelude

  datatype Model = Opus | Sonnet | Haiku | Codex
  datatype Priority = Low | Normal | High
  datatype Autonomy = Auto | Review
  datatype Kind = Typecheck | Lint | Test | Playwright | Screenshot
  datatype Category = Security | Auth | Payments | Migration
  datatype Severity = Critical | Important | Cosmetic

  datatype Hints = Hints(
    priority: Priority,
    verify: seq<Kind>,
    autonomy: Autonomy,
    model: Option<Model>,
    category: Option<Category>,
    severity: Option<Severity>)

  const DEFAULT_VERIFY: seq<Kind> := [Typecheck, Lint, Test]

  // ----- words -----

  /** The words labels are written with, and `toLowerCase`. */
  datatype Lexicon = Lexicon(
    lower: string -> string,
    modelKey: string, priorityKey: string, autonomyKey: string, verifyKey: string,
    categoryKey: string, severityKey: string,
    model: Model -> string,
    priority: Priority -> string,
    autonomy: Autonomy -> string,
    kind: Kind -> string,
    category: Category -> string,
    severity: Severity -> string,
    none: string,
    ui: string)

  function ModelName(m: Model): string {
    match m case Opus => "opus" case Sonnet => "sonnet" case Haiku => "haiku" case Codex => "codex"
  }
  function PriorityName(p: Priority): string {
    match p case Low => "low" case Normal => "normal" case High => "high"
  }
  function AutonomyName(a: Autonomy): string {
    match a case Auto => "auto" case Review => "review"
  }
  function KindName(k: Kind): string {
    match k
    case Typecheck => "typecheck" case Lint => "lint" case Test => "test"
    case Playwright => "playwright" case Screenshot => "screenshot"
  }
  function CategoryName(c: Category): string {
    match c case Security => "security" case Auth => "auth" case Payments => "payments" case Migration => "migration"
  }
  function SeverityName(s: Severity): string {
    match s case Critical => "critical" case Important => "important" case Cosmetic => "cosmetic"
  }

  /** The words of the program. */
  function Words(lower: string -> string): Lexicon {
    Lexicon(lower, "model", "priority", "autonomy", "verify", "category", "severity",
            ModelName, PriorityName, AutonomyName, KindName, CategoryName, SeverityName, "none", "ui")
  }

  /** Lower-case letters only. */
  predicate Word(s: string) {
    s != "" && forall i :: 0 <= i < |s| ==> 'a' <= s[i] <= 'z'
  }

  /** Nothing but lower-case letters and colons. */
  predicate Plain(s: string) {
    forall i :: 0 <= i < |s| ==> 'a' <= s[i] <= 'z' || s[i] == ':'
  }

  /** `lower` leaves such a text alone; what it does to others does not matter. */
  ghost predicate KeepsPlain(lower: string -> string) {
    forall s :: Plain(s) ==> lower(s) == s
  }

  predicate KeysProper(x: Lexicon) {
    && Word(x.modelKey) && Word(x.priorityKey) && Word(x.autonomyKey)
    && Word(x.verifyKey) && Word(x.categoryKey) && Word(x.severityKey)
    && x.priorityKey != x.modelKey
    && x.autonomyKey != x.modelKey && x.autonomyKey != x.priorityKey
    && x.verifyKey != x.modelKey && x.verifyKey != x.priorityKey && x.verifyKey != x.autonomyKey
    && x.categoryKey != x.modelKey && x.categoryKey != x.priorityKey
    && x.categoryKey != x.autonomyKey && x.categoryKey != x.verifyKey
    && x.severityKey != x.modelKey && x.severityKey != x.priorityKey
    && x.severityKey != x.autonomyKey && x.severityKey != x.verifyKey
    && x.severityKey != x.categoryKey
  }

  predicate KindsProper(x: Lexicon) {
    && Word(x.none)
    && (forall k :: Word(x.kind(k)) && x.kind(k) != x.none && x.kind(k) != x.ui)
    && (forall j, k :: x.kind(j) == x.kind(k) ==> j == k)
  }

  predicate ValuesProper(x: Lexicon) {
    && (forall m :: Word(x.model(m))) && (forall l, m :: x.model(l) == x.model(m) ==> l == m)
    && (forall p :: Word(x.priority(p))) && (forall p, q :: x.priority(p) == x.priority(q) ==> p == q)
    && (forall a :: Word(x.autonomy(a))) && (forall a, b :: x.autonomy(a) == x.autonomy(b) ==> a == b)
    && (forall c :: Word(x.category(c))) && (forall c, d :: x.category(c) == x.category(d) ==> c == d)
    && (forall v :: Word(x.severity(v))) && (forall v, w :: x.severity(v) == x.severity(w) ==> v == w)
  }

  /** Keys are distinct words, and so are the values under one key. */
  ghost predicate Proper(x: Lexicon) {
    KeepsPlain(x.lower) && KeysProper(x) && KindsProper(x) && ValuesProper(x)
  }

  // ----- one label -----

  datatype Token =
    | SetModel(m: Model)
    | SetPriority(p: Priority)
    | SetAutonomy(a: Autonomy)
    | NoVerify
    | AddVerify(kinds: seq<Kind>)
    | SetCategory(c: Category)
    | SetSeverity(s: Severity)
    | Ignored

  function ModelToken(x: Lexicon, v: string): Token {
    if v == x.model(Opus) then SetModel(Opus) else if v == x.model(Sonnet) then SetModel(Sonnet)
    else if v == x.model(Haiku) then SetModel(Haiku) else if v == x.model(Codex) then SetModel(Codex) else Ignored
  }
  function PriorityToken(x: Lexicon, v: string): Token {
    if v == x.priority(Low) then SetPriority(Low) else if v == x.priority(Normal) then SetPriority(Normal)
    else if v == x.priority(High) then SetPriority(High) else Ignored
  }
  function AutonomyToken(x: Lexicon, v: string): Token {
    if v == x.autonomy(Auto) then SetAutonomy(Auto)
    else if v == x.autonomy(Review) then SetAutonomy(Review)
    else Ignored
  }
  function VerifyToken(x: Lexicon, v: string): Token {
    if v == x.none then NoVerify
    else if v == x.ui then AddVerify([Playwright, Screenshot])
    else if v == x.kind(Typecheck) then AddVerify([Typecheck]) else if v == x.kind(Lint) then AddVerify([Lint])
    else if v == x.kind(Test) then AddVerify([Test]) else if v == x.kind(Playwright) then AddVerify([Playwright])
    else if v == x.kind(Screenshot) then AddVerify([Screenshot]) else Ignored
  }
  function CategoryToken(x: Lexicon, v: string): Token {
    if v == x.category(Security) then SetCategory(Security) else if v == x.category(Auth) then SetCategory(Auth)
    else if v == x.category(Payments) then SetCategory(Payments)
    else if v == x.category(Migration) then SetCategory(Migration)
    else Ignored
  }
  function SeverityToken(x: Lexicon, v: string): Token {
    if v == x.severity(Critical) then SetSeverity(Critical)
    else if v == x.severity(Important) then SetSeverity(Important)
    else if v == x.severity(Cosmetic) then SetSeverity(Cosmetic) else Ignored
  }

  /** The meaning of `key:value`. */
  function Meaning(x: Lexicon, key: string, value: string): Token {
    if key == x.modelKey then ModelToken(x, value)
    else if key == x.priorityKey then PriorityToken(x, value)
    else if key == x.autonomyKey then AutonomyToken(x, value)
    else if key == x.verifyKey then VerifyToken(x, value)
    else if key == x.categoryKey then CategoryToken(x, value)
    else if key == x.severityKey then SeverityToken(x, value)
    else Ignored
  }

  function ColonAt(s: string): (i: nat)
    ensures i <= |s| && ':' !in s[..i] && (i < |s| ==> s[i] == ':')
  {
    if s == "" || s[0] == ':' then 0
    else
      var i := ColonAt(s[1..]) + 1;
      assert s[..i] == [s[0]] + s[1..][..i - 1];
      i
  }

  /** Key and value of a label; None when it has no colon. */
  function Split(x: Lexicon, raw: string): Option<(string, string)> {
    var text := Trim(x.lower(raw));
    var colon := ColonAt(text);
    if colon == |text| then None else Some((text[..colon], text[colon + 1..]))
  }

  function TokenOf(x: Lexicon, raw: string): Token {
    match Split(x, raw)
    case None => Ignored
    case Some((key, value)) => Meaning(x, key, value)
  }

  lemma TrimPlain(s: string)
    requires s != "" && !IsSpace(s[0]) && !IsSpace(s[|s| - 1])
    ensures Trim(s) == s
  {}

  lemma {:induction false} ColonAfter(key: string, rest: string)
    requires forall i :: 0 <= i < |key| ==> key[i] != ':'
    ensures ColonAt(key + ([':'] + rest)) == |key|
  {
    if key == "" {
      assert key + ([':'] + rest) == [':'] + rest;
    } else {
      assert (key + ([':'] + rest))[1..] == key[1..] + ([':'] + rest);
      ColonAfter(key[1..], rest);
    }
  }

  function Joined(key: string, value: string): string {
    key + ([':'] + value)
  }

  lemma JoinedPlain(key: string, value: string)
    requires Word(key) && Word(value)
    ensures Plain(Joined(key, value))
  {
    var s, n := Joined(key, value), |key|;
    forall i | 0 <= i < |s| ensures 'a' <= s[i] <= 'z' || s[i] == ':' {
      assert s[i] == if i < n then key[i] else if i == n then ':' else value[i - n - 1];
    }
  }

  lemma JoinedTrim(key: string, value: string)
    requires Word(key) && Word(value)
    ensures Trim(Joined(key, value)) == Joined(key, value)
  {
    var s := Joined(key, value);
    assert s[0] == key[0] && s[|s| - 1] == value[|value| - 1];
    TrimPlain(s);
  }

  lemma SplitJoined(x: Lexicon, key: string, value: string)
    requires KeepsPlain(x.lower) && Word(key) && Word(value)
    ensures Split(x, Joined(key, value)) == Some((key, value))
  {
    JoinedPlain(key, value);
    JoinedTrim(key, value);
    ColonAfter(key, value);
    JoinedSlices(key, value);
  }

  lemma JoinedSlices(key: string, value: string)
    ensures var s := Joined(key, value); |s| == |key| + 1 + |value| && s[..|key|] == key && s[|key| + 1..] == value
  {}

  // ----- reading all labels -----

  /** `mergeVerify`: append the kinds that are not there yet. */
  function Merged(current: seq<Kind>, additions: seq<Kind>): (r: seq<Kind>)
    ensures forall k :: k in r <==> k in current || k in additions
    ensures NoRepeat(current) ==> NoRepeat(r)
    ensures |r| >= |current| && (additions != [] ==> r != [])
    decreases |additions|
  {
    if additions == [] then current
    else
      assert additions == [additions[0]] + additions[1..];
      Merged(if additions[0] in current then current else current + [additions[0]], additions[1..])
  }

  method MergeVerify(current: Option<seq<Kind>>, additions: seq<Kind>) returns (next: seq<Kind>)
    ensures next == Merged(current.GetOr([]), additions)
  {
    next := current.GetOr([]);
    var i := 0;
    assert additions[0..] == additions;
    while i < |additions|
      invariant 0 <= i <= |additions|
      invariant Merged(next, additions[i..]) == Merged(current.GetOr([]), additions)
    {
      assert additions[i..][1..] == additions[i + 1..];
      if additions[i] !in next { next := next + [additions[i]]; }
      i := i + 1;
    }
  }

  /** The locals of the parser. */
  datatype Reading = Reading(
    model: Option<Model>,
    priority: Priority,
    autonomy: Autonomy,
    override: Option<seq<Kind>>,
    none: bool,
    category: Option<Category>,
    severity: Option<Severity>)

  const BLANK := Reading(None, Normal, Auto, None, false, None, None)

  function Read(r: Reading, t: Token): Reading {
    match t
    case SetModel(m) => r.(model := Some(m))
    case SetPriority(p) => r.(priority := p)
    case SetAutonomy(a) => r.(autonomy := a)
    case NoVerify => r.(none := true)
    case AddVerify(ks) => r.(override := Some(Merged(r.override.GetOr([]), ks)))
    case SetCategory(c) => if r.category.None? then r.(category := Some(c)) else r
    case SetSeverity(s) => if r.severity.None? then r.(severity := Some(s)) else r
    case Ignored => r
  }

  function ReadAll(r: Reading, ts: seq<Token>): Reading
    decreases |ts|
  {
    if ts == [] then r else ReadAll(Read(r, ts[0]), ts[1..])
  }

  function Map(f: string -> Token, labels: seq<string>): seq<Token> {
    if labels == [] then [] else [f(labels[0])] + Map(f, labels[1..])
  }

  function Settle(r: Reading): Hints {
    var verify := if r.none && r.autonomy.Auto? then [] else r.override.GetOr(DEFAULT_VERIFY);
    Hints(r.priority, verify, r.autonomy, r.model, r.category, r.severity)
  }

  function Reader(x: Lexicon): string -> Token {
    raw => TokenOf(x, raw)
  }

  function Parse(x: Lexicon, labels: seq<string>): Hints {
    Settle(ReadAll(BLANK, Map(Reader(x), labels)))
  }

  /** `parseLabels`. */
  method ParseLabels(x: Lexicon, labels: seq<string>) returns (hints: Hints)
    ensures hints == Parse(x, labels)
  {
    hints := ReadLabels(Reader(x), labels);
  }

  /** Its loop, whatever the labels mean one by one. */
  method ReadLabels(meaning: string -> Token, labels: seq<string>) returns (hints: Hints)
    ensures hints == Settle(ReadAll(BLANK, Map(meaning, labels)))
  {
    var model: Option<Model>, priority, autonomy := None, Normal, Auto;
    var verifyOverride: Option<seq<Kind>>, verifyNone := None, false;
    var category: Option<Category>, severity: Option<Severity> := None, None;
    var i := 0;
    assert labels[0..] == labels;
    while i < |labels|
      invariant 0 <= i <= |labels|
      invariant ReadAll(BLANK, Map(meaning, labels))
             == ReadAll(Reading(model, priority, autonomy, verifyOverride, verifyNone, category, severity),
                        Map(meaning, labels[i..]))
    {
      ghost var rest := labels[i..];
      assert rest[1..] == labels[i + 1..];
      assert Map(meaning, rest)[1..] == Map(meaning, labels[i + 1..]);
      match meaning(labels[i]) {
        case SetModel(m) => model := Some(m);
        case SetPriority(p) => priority := p;
        case SetAutonomy(a) => autonomy := a;
        case NoVerify => verifyNone := true;
        case AddVerify(kinds) =>
          var merged := MergeVerify(verifyOverride, kinds);
          verifyOverride := Some(merged);
        case SetCategory(c) => if category.None? { category := Some(c); }
        case SetSeverity(s) => if severity.None? { severity := Some(s); }
        case Ignored =>
      }
      i := i + 1;
    }
    var verify := if verifyNone && autonomy.Auto? then []
                  else if verifyOverride.Some? then verifyOverride.value else DEFAULT_VERIFY;
    hints := Hints(priority, verify, autonomy, model, category, severity);
  }

  // ----- the program's own labels -----

  function OwnModel(text: string): Token {
    if text == "model:opus" then SetModel(Opus) else if text == "model:sonnet" then SetModel(Sonnet)
    else if text == "model:haiku" then SetModel(Haiku) else if text == "model:codex" then SetModel(Codex) else Ignored
  }
  function OwnPriority(text: string): Token {
    if text == "priority:low" then SetPriority(Low) else if text == "priority:normal" then SetPriority(Normal)
    else if text == "priority:high" then SetPriority(High) else Ignored
  }
  function OwnAutonomy(text: string): Token {
    if text == "autonomy:auto" then SetAutonomy(Auto)
    else if text == "autonomy:review" then SetAutonomy(Review)
    else Ignored
  }
  function OwnVerify(text: string): Token {
    if text == "verify:none" then NoVerify
    else if text == "verify:ui" then AddVerify([Playwright, Screenshot])
    else if text == "verify:typecheck" then AddVerify([Typecheck])
    else if text == "verify:lint" then AddVerify([Lint])
    else if text == "verify:test" then AddVerify([Test])
    else if text == "verify:playwright" then AddVerify([Playwright])
    else if text == "verify:screenshot" then AddVerify([Screenshot])
    else Ignored
  }
  function OwnCategory(text: string): Token {
    if text == "category:security" then SetCategory(Security) else if text == "category:auth" then SetCategory(Auth)
    else if text == "category:payments" then SetCategory(Payments)
    else if text == "category:migration" then SetCategory(Migration)
    else Ignored
  }
  function OwnSeverity(text: string): Token {
    if text == "severity:critical" then SetSeverity(Critical)
    else if text == "severity:important" then SetSeverity(Important)
    else if text == "severity:cosmetic" then SetSeverity(Cosmetic)
    else Ignored
  }

  function Else(t: Token, u: Token): Token { if t.Ignored? then u else t }

  /** What the label texts that the program knows mean; any other text means nothing. */
  function OwnMeaning(text: string): Token {
    Else(OwnModel(text), Else(OwnPriority(text), Else(OwnAutonomy(text),
      Else(OwnVerify(text), Else(OwnCategory(text), OwnSeverity(text))))))
  }

  lemma JoinedIs(key: string, value: string, k: string, v: string)
    requires ':' !in key && ':' !in k
    ensures Joined(key, value) == Joined(k, v) <==> key == k && value == v
  {
    if Joined(key, value) == Joined(k, v) {
      ColonAfter(key, value);
      ColonAfter(k, v);
      JoinedSlices(key, value);
      JoinedSlices(k, v);
    }
  }

  lemma ModelText(lower: string -> string, key: string, value: string)
    requires ':' !in key
    ensures OwnModel(Joined(key, value)) == if key == "model" then ModelToken(Words(lower), value) else Ignored
  {
    assert Joined("model", "opus") == "model:opus" && Joined("model", "sonnet") == "model:sonnet";
    assert Joined("model", "haiku") == "model:haiku" && Joined("model", "codex") == "model:codex";
    JoinedIs(key, value, "model", "opus");
    JoinedIs(key, value, "model", "sonnet");
    JoinedIs(key, value, "model", "haiku");
    JoinedIs(key, value, "model", "codex");
  }

  lemma PriorityText(lower: string -> string, key: string, value: string)
    requires ':' !in key
    ensures OwnPriority(Joined(key, value)) == if key == "priority" then PriorityToken(Words(lower), value) else Ignored
  {
    assert Joined("priority", "low") == "priority:low" && Joined("priority", "normal") == "priority:normal";
    assert Joined("priority", "high") == "priority:high";
    JoinedIs(key, value, "priority", "low");
    JoinedIs(key, value, "priority", "normal");
    JoinedIs(key, value, "priority", "high");
  }

  lemma AutonomyText(lower: string -> string, key: string, value: string)
    requires ':' !in key
    ensures OwnAutonomy(Joined(key, value)) == if key == "autonomy" then AutonomyToken(Words(lower), value) else Ignored
  {
    assert Joined("autonomy", "auto") == "autonomy:auto" && Joined("autonomy", "review") == "autonomy:review";
    JoinedIs(key, value, "autonomy", "auto");
    JoinedIs(key, value, "autonomy", "review");
  }

  lemma VerifyText(lower: string -> string, key: string, value: string)
    requires ':' !in key
    ensures OwnVerify(Joined(key, value)) == if key == "verify" then VerifyToken(Words(lower), value) else Ignored
  {
    assert Joined("verify", "none") == "verify:none" && Joined("verify", "ui") == "verify:ui";
    assert Joined("verify", "typecheck") == "verify:typecheck" && Joined("verify", "lint") == "verify:lint";
    assert Joined("verify", "test") == "verify:test" && Joined("verify", "playwright") == "verify:playwright";
    assert Joined("verify", "screenshot") == "verify:screenshot";
    JoinedIs(key, value, "verify", "none");
    JoinedIs(key, value, "verify", "ui");
    JoinedIs(key, value, "verify", "typecheck");
    JoinedIs(key, value, "verify", "lint");
    JoinedIs(key, value, "verify", "test");
    JoinedIs(key, value, "verify", "playwright");
    JoinedIs(key, value, "verify", "screenshot");
  }

  lemma CategoryText(lower: string -> string, key: string, value: string)
    requires ':' !in key
    ensures OwnCategory(Joined(key, value)) == if key == "category" then CategoryToken(Words(lower), value) else Ignored
  {
    assert Joined("category", "security") == "category:security" && Joined("category", "auth") == "category:auth";
    assert Joined("category", "payments") == "category:payments";
    assert Joined("category", "migration") == "category:migration";
    JoinedIs(key, value, "category", "security");
    JoinedIs(key, value, "category", "auth");
    JoinedIs(key, value, "category", "payments");
    JoinedIs(key, value, "category", "migration");
  }

  lemma SeverityText(lower: string -> string, key: string, value: string)
    requires ':' !in key
    ensures OwnSeverity(Joined(key, value)) == if key == "severity" then SeverityToken(Words(lower), value) else Ignored
  {
    assert Joined("severity", "critical") == "severity:critical";
    assert Joined("severity", "important") == "severity:important";
    assert Joined("severity", "cosmetic") == "severity:cosmetic";
    JoinedIs(key, value, "severity", "critical");
    JoinedIs(key, value, "severity", "important");
    JoinedIs(key, value, "severity", "cosmetic");
  }

  lemma KeyedText(lower: string -> string, text: string, key: string, value: string)
    requires ':' !in key && text == Joined(key, value)
    ensures OwnMeaning(text) == Meaning(Words(lower), key, value)
  {
    ModelText(lower, key, value);
    PriorityText(lower, key, value);
    AutonomyText(lower, key, value);
    VerifyText(lower, key, value);
    CategoryText(lower, key, value);
    SeverityText(lower, key, value);
  }

  lemma NoColonNoMeaning(text: string)
    requires ':' !in text
    ensures OwnMeaning(text) == Ignored
  {
    assert "model:opus"[5] == "model:sonnet"[5] == "model:haiku"[5] == "model:codex"[5] == ':';
    assert "priority:low"[8] == "priority:normal"[8] == "priority:high"[8] == ':';
    assert "autonomy:auto"[8] == "autonomy:review"[8] == ':';
    assert "verify:none"[6] == "verify:ui"[6] == "verify:typecheck"[6] == "verify:lint"[6] == ':';
    assert "verify:test"[6] == "verify:playwright"[6] == "verify:screenshot"[6] == ':';
    assert "category:security"[8] == "category:auth"[8] == "category:payments"[8] == "category:migration"[8] == ':';
    assert "severity:critical"[8] == "severity:important"[8] == "severity:cosmetic"[8] == ':';
  }

  /** Key and value of a label with a colon. */
  lemma TokenKeyed(x: Lexicon, raw: string) returns (key: string, value: string)
    requires ':' in Trim(x.lower(raw))
    ensures ':' !in key && Trim(x.lower(raw)) == Joined(key, value)
    ensures TokenOf(x, raw) == Meaning(x, key, value)
  {
    var parts := Parts(Trim(x.lower(raw)));
    key, value := parts.0, parts.1;
  }

  lemma Parts(text: string) returns (parts: (string, string))
    requires ':' in text
    ensures ColonAt(text) < |text| && parts == (text[..ColonAt(text)], text[ColonAt(text) + 1..])
    ensures ':' !in parts.0 && text == Joined(parts.0, parts.1)
  {
    var colon := ColonAt(text);
    assert text[..|text|] == text;
    parts := (text[..colon], text[colon + 1..]);
    AtColon(text, colon);
  }

  lemma AtColon(text: string, colon: nat)
    requires colon < |text| && text[colon] == ':'
    ensures text == Joined(text[..colon], text[colon + 1..])
  {
    var rest := [':'] + text[colon + 1..];
    assert text[colon..] == rest;
    assert text == text[..colon] + rest;
  }

  lemma TokenUnkeyed(x: Lexicon, raw: string)
    requires ':' !in Trim(x.lower(raw))
    ensures TokenOf(x, raw) == Ignored
  {}

  /** With the program's words a label means what its text, lower-cased and trimmed, stands for. */
  lemma OwnLabels(lower: string -> string, raw: string)
    ensures TokenOf(Words(lower), raw) == OwnMeaning(Trim(lower(raw)))
  {
    var x, text := Words(lower), Trim(lower(raw));
    if ':' in text {
      var key, value := TokenKeyed(x, raw);
      KeyedText(lower, text, key, value);
    } else {
      TokenUnkeyed(x, raw);
      NoColonNoMeaning(text);
    }
  }

  // ----- which label wins -----

  datatype Field = ModelField | PriorityField | AutonomyField | NoneField | VerifyField | CategoryField | SeverityField
    | NoField

  function FieldOf(t: Token): Field {
    match t
    case SetModel(_) => ModelField
    case SetPriority(_) => PriorityField
    case SetAutonomy(_) => AutonomyField
    case NoVerify => NoneField
    case AddVerify(_) => VerifyField
    case SetCategory(_) => CategoryField
    case SetSeverity(_) => SeverityField
    case Ignored => NoField
  }

  /** `t` occurs, and nothing of its field comes later. */
  predicate Last(ts: seq<Token>, t: Token) {
    exists i :: 0 <= i < |ts| && ts[i] == t && Unset(ts[i + 1..], FieldOf(t))
  }

  /** `t` occurs, and nothing of its field comes earlier. */
  predicate First(ts: seq<Token>, t: Token) {
    exists i :: 0 <= i < |ts| && ts[i] == t && Unset(ts[..i], FieldOf(t))
  }

  predicate Unset(ts: seq<Token>, f: Field) {
    forall j :: 0 <= j < |ts| ==> FieldOf(ts[j]) != f
  }

  predicate Adds(ts: seq<Token>, k: Kind) {
    exists i :: 0 <= i < |ts| && ts[i].AddVerify? && k in ts[i].kinds
  }

  lemma LastSnoc(ts: seq<Token>, u: Token, t: Token)
    ensures Last(ts + [u], t) <==> u == t || (FieldOf(u) != FieldOf(t) && Last(ts, t))
  {
    var all, n := ts + [u], |ts|;
    if u == t {
      assert all[n] == t && all[n + 1..] == [];
    } else if Last(all, t) {
      WasLast(ts, u, t);
    } else if Last(ts, t) && FieldOf(u) != FieldOf(t) {
      StaysLast(ts, u, t);
    }
  }

  lemma WasLast(ts: seq<Token>, u: Token, t: Token)
    requires Last(ts + [u], t) && u != t
    ensures FieldOf(u) != FieldOf(t) && Last(ts, t)
  {
    var all := ts + [u];
    var i :| 0 <= i < |all| && all[i] == t && Unset(all[i + 1..], FieldOf(t));
    assert all[i + 1..] == ts[i + 1..] + [u];
    UnsetSnoc(ts[i + 1..], u, FieldOf(t));
    assert ts[i] == t;
  }

  lemma StaysLast(ts: seq<Token>, u: Token, t: Token)
    requires Last(ts, t) && FieldOf(u) != FieldOf(t)
    ensures Last(ts + [u], t)
  {
    var all := ts + [u];
    var i :| 0 <= i < |ts| && ts[i] == t && Unset(ts[i + 1..], FieldOf(t));
    assert all[i] == t && all[i + 1..] == ts[i + 1..] + [u];
    UnsetSnoc(ts[i + 1..], u, FieldOf(t));
  }

  lemma FirstSnoc(ts: seq<Token>, u: Token, t: Token)
    ensures First(ts + [u], t) <==> First(ts, t) || (u == t && Unset(ts, FieldOf(t)))
  {
    var all, n := ts + [u], |ts|;
    if First(all, t) {
      var i :| 0 <= i < |all| && all[i] == t && Unset(all[..i], FieldOf(t));
      assert i < n ==> ts[i] == t && ts[..i] == all[..i];
      assert i == n ==> all[..i] == ts;
    }
    if First(ts, t) {
      var i :| 0 <= i < |ts| && ts[i] == t && Unset(ts[..i], FieldOf(t));
      assert all[i] == t && all[..i] == ts[..i];
    }
    if u == t && Unset(ts, FieldOf(t)) {
      assert all[n] == t && all[..n] == ts;
    }
  }

  lemma UnsetSnoc(ts: seq<Token>, u: Token, f: Field)
    ensures Unset(ts + [u], f) <==> Unset(ts, f) && FieldOf(u) != f
  {
    var all := ts + [u];
    assert all[|ts|] == u && forall j :: 0 <= j < |ts| ==> all[j] == ts[j];
  }

  lemma AddsSnoc(ts: seq<Token>, u: Token, k: Kind)
    ensures Adds(ts + [u], k) <==> Adds(ts, k) || (u.AddVerify? && k in u.kinds)
  {
    var all := ts + [u];
    assert all[|ts|] == u && forall j :: 0 <= j < |ts| ==> all[j] == ts[j];
  }

  lemma {:induction false} ReadSnoc(r: Reading, ts: seq<Token>, u: Token)
    ensures ReadAll(r, ts + [u]) == Read(ReadAll(r, ts), u)
    decreases |ts|
  {
    if ts == [] {
      assert ts + [u] == [u] && [u][1..] == [];
    } else {
      assert (ts + [u])[1..] == ts[1..] + [u];
      ReadSnoc(Read(r, ts[0]), ts[1..], u);
    }
  }

  /** The last model, priority and autonomy win; the normal ones stand in when there is none. */
  ghost predicate LastWins(ts: seq<Token>, r: Reading) {
    && (forall m :: r.model == Some(m) <==> Last(ts, SetModel(m)))
    && (forall p :: r.priority == p <==> Last(ts, SetPriority(p)) || (p.Normal? && Unset(ts, PriorityField)))
    && (forall a :: r.autonomy == a <==> Last(ts, SetAutonomy(a)) || (a.Auto? && Unset(ts, AutonomyField)))
  }

  /** The first category and severity win. */
  ghost predicate FirstWins(ts: seq<Token>, r: Reading) {
    && (forall c :: r.category == Some(c) <==> First(ts, SetCategory(c)))
    && (forall v :: r.severity == Some(v) <==> First(ts, SetSeverity(v)))
    && (r.category.None? <==> Unset(ts, CategoryField))
    && (r.severity.None? <==> Unset(ts, SeverityField))
  }

  /** Verify kinds accumulate. */
  ghost predicate KindsAccumulate(ts: seq<Token>, r: Reading) {
    && (r.none <==> !Unset(ts, NoneField))
    && (r.override.None? <==> Unset(ts, VerifyField))
    && (forall k :: k in r.override.GetOr([]) <==> Adds(ts, k))
    && NoRepeat(r.override.GetOr([]))
  }

  lemma LastWinsSnoc(ts: seq<Token>, u: Token, r: Reading)
    requires LastWins(ts, r)
    ensures LastWins(ts + [u], Read(r, u))
  {
    forall m ensures Last(ts + [u], SetModel(m)) <==> u == SetModel(m) || (!u.SetModel? && Last(ts, SetModel(m))) {
      LastSnoc(ts, u, SetModel(m));
    }
    forall p ensures Last(ts + [u], SetPriority(p)) <==>
        u == SetPriority(p) || (!u.SetPriority? && Last(ts, SetPriority(p))) {
      LastSnoc(ts, u, SetPriority(p));
    }
    forall a ensures Last(ts + [u], SetAutonomy(a)) <==>
        u == SetAutonomy(a) || (!u.SetAutonomy? && Last(ts, SetAutonomy(a))) {
      LastSnoc(ts, u, SetAutonomy(a));
    }
    UnsetSnoc(ts, u, PriorityField);
    UnsetSnoc(ts, u, AutonomyField);
  }

  lemma FirstWinsSnoc(ts: seq<Token>, u: Token, r: Reading)
    requires FirstWins(ts, r)
    ensures FirstWins(ts + [u], Read(r, u))
  {
    forall c { FirstSnoc(ts, u, SetCategory(c)); }
    forall v { FirstSnoc(ts, u, SetSeverity(v)); }
    UnsetSnoc(ts, u, CategoryField);
    UnsetSnoc(ts, u, SeverityField);
  }

  lemma KindsSnoc(ts: seq<Token>, u: Token, r: Reading)
    requires KindsAccumulate(ts, r)
    ensures KindsAccumulate(ts + [u], Read(r, u))
  {
    forall k { AddsSnoc(ts, u, k); }
    UnsetSnoc(ts, u, NoneField);
    UnsetSnoc(ts, u, VerifyField);
  }

  /** Which label decides each hint, for any labels and whatever they mean one by one. */
  lemma {:induction false} Winners(ts: seq<Token>)
    ensures var r := ReadAll(BLANK, ts); LastWins(ts, r) && FirstWins(ts, r) && KindsAccumulate(ts, r)
  {
    if ts != [] {
      var n := |ts| - 1;
      var r := ReadAll(BLANK, ts[..n]);
      Winners(ts[..n]);
      ReadSnoc(BLANK, ts[..n], ts[n]);
      assert ts == ts[..n] + [ts[n]];
      LastWinsSnoc(ts[..n], ts[n], r);
      FirstWinsSnoc(ts[..n], ts[n], r);
      KindsSnoc(ts[..n], ts[n], r);
    }
  }

  // ----- printing -----

  predicate IsDefault(verify: seq<Kind>) {
    |verify| == 3 && forall k :: k in DEFAULT_VERIFY ==> k in verify
  }

  function PriorityLabel(x: Lexicon, p: Priority): string { Joined(x.priorityKey, x.priority(p)) }
  function ModelLabel(x: Lexicon, m: Model): string { Joined(x.modelKey, x.model(m)) }
  function AutonomyLabel(x: Lexicon, a: Autonomy): string { Joined(x.autonomyKey, x.autonomy(a)) }
  function CategoryLabel(x: Lexicon, c: Category): string { Joined(x.categoryKey, x.category(c)) }
  function SeverityLabel(x: Lexicon, v: Severity): string { Joined(x.severityKey, x.severity(v)) }
  function KindLabel(x: Lexicon, k: Kind): string { Joined(x.verifyKey, x.kind(k)) }
  function NoneLabel(x: Lexicon): string { Joined(x.verifyKey, x.none) }

  function PriorityPart(x: Lexicon, h: Hints): seq<string> {
    if h.priority.Normal? then [] else [PriorityLabel(x, h.priority)]
  }
  function ModelPart(x: Lexicon, h: Hints): seq<string> { if h.model.None? then [] else [ModelLabel(x, h.model.value)] }
  function AutonomyPart(x: Lexicon, h: Hints): seq<string> {
    if h.autonomy.Auto? then [] else [AutonomyLabel(x, h.autonomy)]
  }
  function CategoryPart(x: Lexicon, h: Hints): seq<string> {
    if h.category.None? then [] else [CategoryLabel(x, h.category.value)]
  }
  function SeverityPart(x: Lexicon, h: Hints): seq<string> {
    if h.severity.None? then [] else [SeverityLabel(x, h.severity.value)]
  }
  function VerifyPart(x: Lexicon, h: Hints): seq<string> {
    if h.verify == [] then [NoneLabel(x)] else if IsDefault(h.verify) then [] else KindLabels(x, h.verify)
  }

  function KindLabels(x: Lexicon, verify: seq<Kind>): seq<string> {
    if verify == [] then [] else [KindLabel(x, verify[0])] + KindLabels(x, verify[1..])
  }

  function Print(x: Lexicon, h: Hints): seq<string> {
    PriorityPart(x, h) + ModelPart(x, h) + AutonomyPart(x, h) + CategoryPart(x, h)
    + SeverityPart(x, h) + VerifyPart(x, h)
  }

  /** `routingHintsToLabels`. */
  method RoutingHintsToLabels(x: Lexicon, h: Hints) returns (labels: seq<string>)
    ensures labels == Print(x, h)
  {
    labels := [];
    if h.priority != Normal { labels := labels + [PriorityLabel(x, h.priority)]; }
    assert labels == PriorityPart(x, h);
    if h.model.Some? { labels := labels + [ModelLabel(x, h.model.value)]; }
    assert labels == PriorityPart(x, h) + ModelPart(x, h);
    if h.autonomy != Auto { labels := labels + [AutonomyLabel(x, h.autonomy)]; }
    assert labels == PriorityPart(x, h) + ModelPart(x, h) + AutonomyPart(x, h);
    if h.category.Some? { labels := labels + [CategoryLabel(x, h.category.value)]; }
    assert labels == PriorityPart(x, h) + ModelPart(x, h) + AutonomyPart(x, h) + CategoryPart(x, h);
    if h.severity.Some? { labels := labels + [SeverityLabel(x, h.severity.value)]; }
    assert labels == PriorityPart(x, h) + ModelPart(x, h) + AutonomyPart(x, h) + CategoryPart(x, h)
      + SeverityPart(x, h);
    var verify := PrintVerify(x, h);
    labels := labels + verify;
  }

  method PrintVerify(x: Lexicon, h: Hints) returns (labels: seq<string>)
    ensures labels == VerifyPart(x, h)
  {
    labels := [];
    if h.verify == [] { return [NoneLabel(x)]; }
    if IsDefault(h.verify) { return []; }
    var i := 0;
    assert h.verify[0..] == h.verify;
    while i < |h.verify|
      invariant 0 <= i <= |h.verify|
      invariant labels + KindLabels(x, h.verify[i..]) == KindLabels(x, h.verify)
    {
      assert h.verify[i..][1..] == h.verify[i + 1..];
      labels := labels + [KindLabel(x, h.verify[i])];
      i := i + 1;
    }
  }

  lemma {:induction false} KindLabelsIff(x: Lexicon, ks: seq<Kind>, l: string)
    ensures l in KindLabels(x, ks) <==> exists k :: k in ks && l == KindLabel(x, k)
  {
    if ks != [] {
      assert ks == [ks[0]] + ks[1..];
      KindLabelsIff(x, ks[1..], l);
    }
  }

  /** Exactly these labels are printed: nothing for what is the default. */
  lemma PrintedIff(x: Lexicon, h: Hints, l: string)
    ensures l in Print(x, h) <==>
      || (!h.priority.Normal? && l == PriorityLabel(x, h.priority))
      || (h.model.Some? && l == ModelLabel(x, h.model.value))
      || (h.autonomy.Review? && l == AutonomyLabel(x, Review))
      || (h.category.Some? && l == CategoryLabel(x, h.category.value))
      || (h.severity.Some? && l == SeverityLabel(x, h.severity.value))
      || (h.verify == [] && l == NoneLabel(x))
      || (!(|h.verify| == 3 && Typecheck in h.verify && Lint in h.verify && Test in h.verify)
          && exists k :: k in h.verify && l == KindLabel(x, k))
  {
    KindLabelsIff(x, h.verify, l);
    assert forall k :: k in DEFAULT_VERIFY <==> k.Typecheck? || k.Lint? || k.Test?;
  }

  // ----- the program's words are proper -----

  lemma KeysAreProper(lower: string -> string)
    ensures KeysProper(Words(lower))
  {}

  lemma ModelNames(l: Model, m: Model)
    ensures Word(ModelName(m)) && (ModelName(l) == ModelName(m) ==> l == m)
  {}

  lemma PriorityNames(p: Priority, q: Priority)
    ensures Word(PriorityName(p)) && (PriorityName(p) == PriorityName(q) ==> p == q)
  {}

  lemma AutonomyNames(a: Autonomy, b: Autonomy)
    ensures Word(AutonomyName(a)) && (AutonomyName(a) == AutonomyName(b) ==> a == b)
  {}

  lemma CategoryNames(c: Category, d: Category)
    ensures Word(CategoryName(c)) && (CategoryName(c) == CategoryName(d) ==> c == d)
  {}

  lemma SeverityNames(v: Severity, w: Severity)
    ensures Word(SeverityName(v)) && (SeverityName(v) == SeverityName(w) ==> v == w)
  {}

  lemma KindNames(j: Kind, k: Kind)
    ensures Word(KindName(j)) && (KindName(j) == KindName(k) ==> j == k)
  {}

  lemma KindOthers(k: Kind)
    ensures KindName(k) != "none" && KindName(k) != "ui" && Word("none")
  {}

  /** The program's words qualify with any lower-casing that keeps plain text. */
  lemma WordsProper(lower: string -> string)
    requires KeepsPlain(lower)
    ensures Proper(Words(lower))
  {
    var x := Words(lower);
    KeysAreProper(lower);
    assert KindsProper(x) by {
      forall k ensures Word(x.kind(k)) && x.kind(k) != x.none && x.kind(k) != x.ui { KindNames(k, k); KindOthers(k); }
      forall j, k ensures x.kind(j) == x.kind(k) ==> j == k { KindNames(j, k); }
      KindOthers(Test);
    }
    ValuesAreProper(x);
  }

  lemma ValuesAreProper(x: Lexicon)
    requires x.model == ModelName && x.priority == PriorityName && x.autonomy == AutonomyName
    requires x.category == CategoryName && x.severity == SeverityName
    ensures ValuesProper(x)
  {
    forall l, m ensures Word(x.model(m)) && (x.model(l) == x.model(m) ==> l == m) { ModelNames(l, m); }
    forall p, q ensures Word(x.priority(p)) && (x.priority(p) == x.priority(q) ==> p == q) { PriorityNames(p, q); }
    forall a, b ensures Word(x.autonomy(a)) && (x.autonomy(a) == x.autonomy(b) ==> a == b) { AutonomyNames(a, b); }
    forall c, d ensures Word(x.category(c)) && (x.category(c) == x.category(d) ==> c == d) { CategoryNames(c, d); }
    forall v, w ensures Word(x.severity(v)) && (x.severity(v) == x.severity(w) ==> v == w) { SeverityNames(v, w); }
  }

  // ----- each printed label is read as what it was printed for -----

  /** `f` reads the labels written with `x` as they were meant. */
  ghost predicate Faithful(f: string -> Token, x: Lexicon) {
    && (forall p :: f(PriorityLabel(x, p)) == SetPriority(p))
    && (forall m :: f(ModelLabel(x, m)) == SetModel(m))
    && (forall a :: f(AutonomyLabel(x, a)) == SetAutonomy(a))
    && (forall c :: f(CategoryLabel(x, c)) == SetCategory(c))
    && (forall v :: f(SeverityLabel(x, v)) == SetSeverity(v))
    && (forall k :: f(KindLabel(x, k)) == AddVerify([k]))
    && f(NoneLabel(x)) == NoVerify
  }

  lemma ReadsBack(x: Lexicon, key: string, value: string)
    requires KeepsPlain(x.lower) && Word(key) && Word(value)
    ensures Reader(x)(Joined(key, value)) == Meaning(x, key, value)
  {
    SplitJoined(x, key, value);
  }

  lemma PriorityBack(x: Lexicon, p: Priority)
    requires Proper(x)
    ensures Reader(x)(PriorityLabel(x, p)) == SetPriority(p)
  {
    ReadsBack(x, x.priorityKey, x.priority(p));
    PriorityByKey(x, x.priority(p));
    PriorityByValue(x, p);
  }

  lemma PriorityByKey(x: Lexicon, value: string)
    requires KeysProper(x)
    ensures Meaning(x, x.priorityKey, value) == PriorityToken(x, value)
  {}

  lemma PriorityByValue(x: Lexicon, p: Priority)
    requires ValuesProper(x)
    ensures PriorityToken(x, x.priority(p)) == SetPriority(p)
  {}

  lemma ModelByKey(x: Lexicon, value: string)
    requires KeysProper(x)
    ensures Meaning(x, x.modelKey, value) == ModelToken(x, value)
  {}

  lemma ModelByValue(x: Lexicon, m: Model)
    requires ValuesProper(x)
    ensures ModelToken(x, x.model(m)) == SetModel(m)
  {}

  lemma ModelBack(x: Lexicon, m: Model)
    requires Proper(x)
    ensures Reader(x)(ModelLabel(x, m)) == SetModel(m)
  {
    ReadsBack(x, x.modelKey, x.model(m));
    ModelByKey(x, x.model(m));
    ModelByValue(x, m);
  }

  lemma AutonomyBack(x: Lexicon, a: Autonomy)
    requires Proper(x)
    ensures Reader(x)(AutonomyLabel(x, a)) == SetAutonomy(a)
  {
    ReadsBack(x, x.autonomyKey, x.autonomy(a));
    assert AutonomyToken(x, x.autonomy(a)) == SetAutonomy(a);
  }

  lemma CategoryByKey(x: Lexicon, value: string)
    requires KeysProper(x)
    ensures Meaning(x, x.categoryKey, value) == CategoryToken(x, value)
  {}

  lemma CategoryByValue(x: Lexicon, c: Category)
    requires ValuesProper(x)
    ensures CategoryToken(x, x.category(c)) == SetCategory(c)
  {}

  lemma CategoryBack(x: Lexicon, c: Category)
    requires Proper(x)
    ensures Reader(x)(CategoryLabel(x, c)) == SetCategory(c)
  {
    ReadsBack(x, x.categoryKey, x.category(c));
    CategoryByKey(x, x.category(c));
    CategoryByValue(x, c);
  }

  lemma SeverityBack(x: Lexicon, v: Severity)
    requires Proper(x)
    ensures Reader(x)(SeverityLabel(x, v)) == SetSeverity(v)
  {
    ReadsBack(x, x.severityKey, x.severity(v));
    assert SeverityToken(x, x.severity(v)) == SetSeverity(v);
  }

  lemma KindByKey(x: Lexicon, value: string)
    requires KeysProper(x)
    ensures Meaning(x, x.verifyKey, value) == VerifyToken(x, value)
  {}

  lemma KindByValue(x: Lexicon, k: Kind)
    requires KindsProper(x)
    ensures VerifyToken(x, x.kind(k)) == AddVerify([k])
  {}

  lemma KindBack(x: Lexicon, k: Kind)
    requires Proper(x)
    ensures Reader(x)(KindLabel(x, k)) == AddVerify([k])
  {
    ReadsBack(x, x.verifyKey, x.kind(k));
    KindByKey(x, x.kind(k));
    KindByValue(x, k);
  }

  lemma NoneBack(x: Lexicon)
    requires Proper(x)
    ensures Reader(x)(NoneLabel(x)) == NoVerify
  {
    ReadsBack(x, x.verifyKey, x.none);
  }

  lemma ReaderFaithful(x: Lexicon)
    requires Proper(x)
    ensures Faithful(Reader(x), x)
  {
    forall p ensures Reader(x)(PriorityLabel(x, p)) == SetPriority(p) { PriorityBack(x, p); }
    forall m ensures Reader(x)(ModelLabel(x, m)) == SetModel(m) { ModelBack(x, m); }
    forall a ensures Reader(x)(AutonomyLabel(x, a)) == SetAutonomy(a) { AutonomyBack(x, a); }
    forall c ensures Reader(x)(CategoryLabel(x, c)) == SetCategory(c) { CategoryBack(x, c); }
    forall v ensures Reader(x)(SeverityLabel(x, v)) == SetSeverity(v) { SeverityBack(x, v); }
    forall k ensures Reader(x)(KindLabel(x, k)) == AddVerify([k]) { KindBack(x, k); }
    NoneBack(x);
  }

  // ----- round trip -----

  /** What reading `labels` after `r` gives. */
  function After(f: string -> Token, r: Reading, labels: seq<string>): Reading {
    ReadAll(r, Map(f, labels))
  }

  lemma AfterOne(f: string -> Token, r: Reading, labels: seq<string>)
    requires labels != []
    ensures After(f, r, labels) == After(f, Read(r, f(labels[0])), labels[1..])
  {
    assert Map(f, labels)[1..] == Map(f, labels[1..]);
  }

  lemma AfterSingle(f: string -> Token, r: Reading, one: string)
    ensures After(f, r, [one]) == Read(r, f(one))
  {
    AfterOne(f, r, [one]);
  }

  lemma {:induction false} AfterAppend(f: string -> Token, r: Reading, a: seq<string>, b: seq<string>)
    ensures After(f, r, a + b) == After(f, After(f, r, a), b)
    decreases |a|
  {
    if a == [] {
      assert a + b == b;
    } else {
      assert (a + b)[1..] == a[1..] + b;
      AfterOne(f, r, a + b);
      AfterOne(f, r, a);
      AfterAppend(f, Read(r, f(a[0])), a[1..], b);
    }
  }

  lemma MergedOne(current: seq<Kind>, k: Kind)
    ensures Merged(current, [k]) == if k in current then current else current + [k]
  {
    assert [k][1..] == [];
  }

  lemma {:induction false} KindsRead(f: string -> Token, x: Lexicon, r: Reading, ks: seq<Kind>)
    requires Faithful(f, x)
    ensures After(f, r, KindLabels(x, ks)) ==
      if ks == [] then r else r.(override := Some(Merged(r.override.GetOr([]), ks)))
    decreases |ks|
  {
    if ks != [] {
      var r1 := Read(r, AddVerify([ks[0]]));
      AfterOne(f, r, KindLabels(x, ks));
      KindsRead(f, x, r1, ks[1..]);
      MergedOne(r.override.GetOr([]), ks[0]);
    }
  }

  function OverrideOf(h: Hints): Option<seq<Kind>> {
    if h.verify == [] || IsDefault(h.verify) then None else Some(Merged([], h.verify))
  }

  lemma VerifyRestored(f: string -> Token, x: Lexicon, h: Hints, r: Reading)
    requires Faithful(f, x) && r.override.None? && !r.none
    ensures After(f, r, VerifyPart(x, h)) == r.(override := OverrideOf(h), none := h.verify == [])
  {
    if h.verify == [] {
      AfterSingle(f, r, NoneLabel(x));
    } else {
      KindsRead(f, x, r, h.verify);
    }
  }

  lemma PriorityRestored(f: string -> Token, x: Lexicon, h: Hints, r: Reading)
    requires Faithful(f, x) && r.priority.Normal?
    ensures After(f, r, PriorityPart(x, h)) == r.(priority := h.priority)
  {
    AfterSingle(f, r, PriorityLabel(x, h.priority));
  }

  lemma ModelRestored(f: string -> Token, x: Lexicon, h: Hints, r: Reading)
    requires Faithful(f, x) && r.model.None?
    ensures After(f, r, ModelPart(x, h)) == r.(model := h.model)
  {
    if h.model.Some? { AfterSingle(f, r, ModelLabel(x, h.model.value)); }
  }

  lemma AutonomyRestored(f: string -> Token, x: Lexicon, h: Hints, r: Reading)
    requires Faithful(f, x) && r.autonomy.Auto?
    ensures After(f, r, AutonomyPart(x, h)) == r.(autonomy := h.autonomy)
  {
    AfterSingle(f, r, AutonomyLabel(x, h.autonomy));
  }

  lemma CategoryRestored(f: string -> Token, x: Lexicon, h: Hints, r: Reading)
    requires Faithful(f, x) && r.category.None?
    ensures After(f, r, CategoryPart(x, h)) == r.(category := h.category)
  {
    if h.category.Some? { AfterSingle(f, r, CategoryLabel(x, h.category.value)); }
  }

  lemma SeverityRestored(f: string -> Token, x: Lexicon, h: Hints, r: Reading)
    requires Faithful(f, x) && r.severity.None?
    ensures After(f, r, SeverityPart(x, h)) == r.(severity := h.severity)
  {
    if h.severity.Some? { AfterSingle(f, r, SeverityLabel(x, h.severity.value)); }
  }

  lemma AllRestored(f: string -> Token, x: Lexicon, h: Hints)
    requires Faithful(f, x)
    ensures After(f, BLANK, Print(x, h))
         == Reading(h.model, h.priority, h.autonomy, OverrideOf(h), h.verify == [], h.category, h.severity)
  {
    var p, m, a := PriorityPart(x, h), ModelPart(x, h), AutonomyPart(x, h);
    var c, s := CategoryPart(x, h), SeverityPart(x, h);
    AfterAppend(f, BLANK, p + m + a + c + s, VerifyPart(x, h));
    AfterAppend(f, BLANK, p + m + a + c, s);
    AfterAppend(f, BLANK, p + m + a, c);
    AfterAppend(f, BLANK, p + m, a);
    AfterAppend(f, BLANK, p, m);
    PriorityRestored(f, x, h, BLANK);
    ModelRestored(f, x, h, After(f, BLANK, p));
    AutonomyRestored(f, x, h, After(f, BLANK, p + m));
    CategoryRestored(f, x, h, After(f, BLANK, p + m + a));
    SeverityRestored(f, x, h, After(f, BLANK, p + m + a + c));
    VerifyRestored(f, x, h, After(f, BLANK, p + m + a + c + s));
  }

  /** The hints that parsing the printed labels gives. */
  lemma ParsePrintIs(x: Lexicon, h: Hints)
    requires Proper(x)
    ensures Parse(x, Print(x, h)) == h.(verify := RestoredVerify(h))
  {
    ReaderFaithful(x);
    AllRestored(Reader(x), x, h);
  }

  /** Equal up to order and repetition of the verify kinds. */
  predicate Same(g: Hints, h: Hints) {
    g.(verify := []) == h.(verify := []) && forall k :: k in g.verify <==> k in h.verify
  }

  /** Printing hints and parsing the labels restores them, unless they ask for a human
      review with no verification at all: `verify:none` is then read as the default. */
  lemma ParsePrint(x: Lexicon, h: Hints)
    requires Proper(x)
    ensures Same(Parse(x, Print(x, h)), h) <==> !(h.verify == [] && h.autonomy.Review?)
  {
    ParsePrintIs(x, h);
    var verify := RestoredVerify(h);
    assert Parse(x, Print(x, h)) == h.(verify := verify);
    RestoredKinds(h);
  }

  /** The verify kinds that come back. */
  function RestoredVerify(h: Hints): seq<Kind> {
    if h.verify == [] then (if h.autonomy.Auto? then [] else DEFAULT_VERIFY)
    else if IsDefault(h.verify) then DEFAULT_VERIFY else Merged([], h.verify)
  }

  lemma RestoredKinds(h: Hints)
    ensures (forall k :: k in RestoredVerify(h) <==> k in h.verify) <==> !(h.verify == [] && h.autonomy.Review?)
  {
    if h.verify == [] {
      assert Typecheck in DEFAULT_VERIFY;
    } else if IsDefault(h.verify) {
      DefaultKinds(h.verify);
    }
  }

  lemma DefaultKinds(verify: seq<Kind>)
    requires IsDefault(verify)
    ensures forall k :: k in verify <==> k in DEFAULT_VERIFY
  {
    assert DEFAULT_VERIFY == [Typecheck, Lint, Test];
    assert Typecheck in DEFAULT_VERIFY && Lint in DEFAULT_VERIFY && Test in DEFAULT_VERIFY;
    assert verify == [verify[0], verify[1], verify[2]];
  }

  /** A parser's override is never empty and repeats nothing. */
  predicate Tidy(r: Reading) {
    r.override.Some? ==> r.override.value != [] && NoRepeat(r.override.value)
  }

  ghost predicate AddsSome(f: string -> Token) {
    forall raw :: f(raw).AddVerify? ==> f(raw).kinds != []
  }

  lemma VerifyAddsSome(x: Lexicon, value: string)
    ensures VerifyToken(x, value).AddVerify? ==> VerifyToken(x, value).kinds != []
  {}

  lemma MeaningAddsSome(x: Lexicon, key: string, value: string)
    ensures Meaning(x, key, value).AddVerify? ==> Meaning(x, key, value) == VerifyToken(x, value)
  {}

  lemma ReaderAddsSome(x: Lexicon)
    ensures AddsSome(Reader(x))
  {
    forall raw ensures Reader(x)(raw).AddVerify? ==> Reader(x)(raw).kinds != [] {
      if Split(x, raw).Some? {
        var (key, value) := Split(x, raw).value;
        MeaningAddsSome(x, key, value);
        VerifyAddsSome(x, value);
      }
    }
  }

  lemma {:induction false} AfterTidy(f: string -> Token, r: Reading, labels: seq<string>)
    requires AddsSome(f) && Tidy(r)
    ensures Tidy(After(f, r, labels))
    decreases |labels|
  {
    if labels != [] {
      AfterOne(f, r, labels);
      AfterTidy(f, Read(r, f(labels[0])), labels[1..]);
    }
  }

  /** Labels have a normal form: printing what any labels mean, and parsing that
      again, gives the same hints. */
  lemma NormalForm(x: Lexicon, labels: seq<string>)
    requires Proper(x)
    ensures Same(Parse(x, Print(x, Parse(x, labels))), Parse(x, labels))
  {
    ReaderAddsSome(x);
    AfterTidy(Reader(x), BLANK, labels);
    ParsePrint(x, Parse(x, labels));
  }

  lemma {:induction false} MergedTidy(current: seq<Kind>, ks: seq<Kind>)
    requires NoRepeat(current + ks)
    ensures Merged(current, ks) == current + ks
    decreases |ks|
  {
    if ks == [] {
      assert current + ks == current;
    } else {
      var k := ks[0];
      assert (current + ks)[|current|] == k;
      assert k !in current by {
        forall i | 0 <= i < |current| ensures current[i] != k { assert (current + ks)[i] == current[i]; }
      }
      assert (current + [k]) + ks[1..] == current + ks;
      MergedTidy(current + [k], ks[1..]);
    }
  }

  /** For hints without repeated kinds the round trip restores even their order, but
      for the three default kinds, which come back in their usual order. */
  lemma ParsePrintExact(x: Lexicon, h: Hints)
    requires Proper(x) && NoRepeat(h.verify) && !(h.verify == [] && h.autonomy.Review?)
    ensures Parse(x, Print(x, h)) == h.(verify := if IsDefault(h.verify) then DEFAULT_VERIFY else h.verify)
  {
    ParsePrintIs(x, h);
    assert [] + h.verify == h.verify;
    MergedTidy([], h.verify);
  }
}
