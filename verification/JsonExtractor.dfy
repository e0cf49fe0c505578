/** Finding the JSON object in a reviewer's prose (src/pipeline/diff-reviewer.ts),
    and the simpler slice of src/pipeline/plan-reviewer.ts. */
module JsonExtractor {
  import opened Prelude

  // ----- the scanner -----

  datatype Scan = Scan(depth: int, inString: bool, escaped: bool)

  const OUTSIDE := Scan(0, false, false)

  /** Effect of one character. */
  function Step(st: Scan, ch: char): Scan {
    if st.escaped then st.(escaped := false)
    else if ch == '\\' && st.inString then st.(escaped := true)
    else if ch == '"' then st.(inString := !st.inString)
    else if st.inString then st
    else if ch == '{' then st.(depth := st.depth + 1)
    else if ch == '}' then st.(depth := st.depth - 1)
    else st
  }

  function Read(st: Scan, text: string): Scan
    decreases |text|
  {
    if text == "" then st else Read(Step(st, text[0]), text[1..])
  }

  /** Does `ch` bring the depth back to zero? */
  predicate Closes(st: Scan, ch: char) {
    Step(st, ch).depth == 0 && Step(st, ch).depth < st.depth
  }

  /** Number of characters up to and including the first closing one. */
  function Closing(st: Scan, text: string): (n: Option<nat>)
    ensures n.Some? ==> 0 < n.value <= |text|
    decreases |text|
  {
    if text == "" then None
    else if Closes(st, text[0]) then Some(1)
    else match Closing(Step(st, text[0]), text[1..])
      case None => None
      case Some(n) => Some(n + 1)
  }

  function IndexOf(text: string, ch: char): (i: nat)
    ensures i <= |text| && ch !in text[..i] && (i < |text| ==> text[i] == ch)
  {
    if text == "" || text[0] == ch then 0
    else
      var i := IndexOf(text[1..], ch) + 1;
      assert text[..i] == [text[0]] + text[1..][..i - 1];
      i
  }

  function Extract(text: string): Option<string> {
    var rest := text[IndexOf(text, '{')..];
    match Closing(OUTSIDE, rest)
    case None => None
    case Some(n) => Some(rest[..n])
  }

  function Plus(n: Option<nat>, k: nat): Option<nat> {
    match n
    case None => None
    case Some(v) => Some(v + k)
  }

  /** `Closing` by index: the end of the object, counted from the start of `text`. */
  function ClosingAt(text: string, i: nat, st: Scan): Option<nat>
    requires i <= |text|
    decreases |text| - i
  {
    if i == |text| then None
    else if Closes(st, text[i]) then Some(i + 1)
    else ClosingAt(text, i + 1, Step(st, text[i]))
  }

  lemma {:induction false} ClosingAtIs(text: string, i: nat, st: Scan)
    requires i <= |text|
    ensures ClosingAt(text, i, st) == Plus(Closing(st, text[i..]), i)
    decreases |text| - i
  {
    if i < |text| {
      assert text[i..][1..] == text[i + 1..];
      ClosingAtIs(text, i + 1, Step(st, text[i]));
    }
  }

  /** The loop of `extractJsonObject`. */
  method FindClosing(text: string, start: nat) returns (end: Option<nat>)
    requires start <= |text|
    ensures end == ClosingAt(text, start, OUTSIDE)
  {
    var depth, inString, escaped := 0, false, false;
    var i := start;
    while i < |text|
      invariant start <= i <= |text|
      invariant ClosingAt(text, start, OUTSIDE) == ClosingAt(text, i, Scan(depth, inString, escaped))
    {
      var ch := text[i];
      i := i + 1;
      if escaped { escaped := false; continue; }
      if ch == '\\' && inString { escaped := true; continue; }
      if ch == '"' { inString := !inString; continue; }
      if inString { continue; }
      if ch == '{' { depth := depth + 1; }
      else if ch == '}' {
        depth := depth - 1;
        if depth == 0 { return Some(i); }
      }
    }
    end := None;
  }

  /** `extractJsonObject`. */
  method ExtractJsonObject(text: string) returns (r: Option<string>)
    ensures r == Extract(text)
  {
    var start := IndexOf(text, '{');
    ClosingAtIs(text, start, OUTSIDE);
    if start == |text| { return None; }
    var end := FindClosing(text, start);
    if end.None? { return None; }
    assert text[start..][..end.value - start] == text[start..end.value];
    r := Some(text[start..end.value]);
  }

  // ----- what is extracted -----

  lemma {:induction false} ReadSnoc(st: Scan, text: string, ch: char)
    ensures Read(st, text + [ch]) == Step(Read(st, text), ch)
    decreases |text|
  {
    if text == "" {
      assert text + [ch] == [ch];
    } else {
      assert (text + [ch])[1..] == text[1..] + [ch];
      ReadSnoc(Step(st, text[0]), text[1..], ch);
    }
  }

  /** From depth at least 1, the closing character is the first after which the
      braces outside strings balance. */
  lemma {:induction false} ClosingIsFirst(st: Scan, text: string)
    requires st.depth >= 1
    ensures match Closing(st, text)
            case None => forall k :: 0 <= k <= |text| ==> Read(st, text[..k]).depth >= 1
            case Some(n) => Read(st, text[..n]).depth == 0 && forall k :: 0 <= k < n ==> Read(st, text[..k]).depth >= 1
    decreases |text|
  {
    assert Read(st, text[..0]) == st;
    if text != "" {
      var st' := Step(st, text[0]);
      forall k | 0 < k <= |text| ensures Read(st, text[..k]) == Read(st', text[1..][..k - 1]) {
        assert text[..k][1..] == text[1..][..k - 1];
      }
      if !Closes(st, text[0]) {
        ClosingIsFirst(st', text[1..]);
      }
    }
  }

  /** What is extracted starts at the first opening brace and ends where the braces
      outside strings first balance; nothing is extracted exactly when they never do. */
  lemma ExtractFirstBalanced(text: string)
    ensures var rest := text[IndexOf(text, '{')..];
            match Extract(text)
            case None => forall k :: 0 < k <= |rest| ==> Read(OUTSIDE, rest[..k]).depth >= 1
            case Some(r) => r <= rest && r != "" && Read(OUTSIDE, r).depth == 0
                            && forall k :: 0 < k < |r| ==> Read(OUTSIDE, rest[..k]).depth >= 1
  {
    var rest := text[IndexOf(text, '{')..];
    if rest != "" {
      var st := Step(OUTSIDE, rest[0]);
      ClosingIsFirst(st, rest[1..]);
      forall k | 0 < k <= |rest| ensures Read(OUTSIDE, rest[..k]) == Read(st, rest[1..][..k - 1]) {
        assert rest[..k][1..] == rest[1..][..k - 1];
      }
    }
  }

  // ----- concrete JSON -----

  /** A character of a string literal: itself, or a backslash and what it escapes. */
  datatype StrChar = Plain(c: char) | Escape(c: char)

  /** JSON text with its white space: `Word` is a number, true, false or null. */
  datatype Json =
    | Word(text: string)
    | Text(chars: seq<StrChar>)
    | Array(open: string, elements: Elements)
    | Object(open: string, members: Members)

  datatype Elements = NoElements | Element(value: Json, after: string, rest: Elements)

  datatype Members = NoMembers | Member(key: seq<StrChar>, colon: string, value: Json, after: string, rest: Members)

  /** Text that is neither a brace nor starts or continues a string: white space,
      numbers and names. */
  predicate Bland(s: string) {
    '{' !in s && '}' !in s && '"' !in s
  }

  predicate Literal(chars: seq<StrChar>) {
    forall i :: 0 <= i < |chars| && chars[i].Plain? ==> chars[i].c != '"' && chars[i].c != '\\'
  }

  predicate Valid(v: Json) {
    match v
    case Word(text) => Bland(text)
    case Text(chars) => Literal(chars)
    case Array(open, elements) => Bland(open) && ValidElements(elements)
    case Object(open, members) => Bland(open) && ValidMembers(members)
  }

  predicate ValidElements(es: Elements) {
    match es
    case NoElements => true
    case Element(v, after, rest) => Valid(v) && Bland(after) && ValidElements(rest)
  }

  predicate ValidMembers(ms: Members) {
    match ms
    case NoMembers => true
    case Member(key, colon, v, after, rest) =>
      Literal(key) && Bland(colon) && Valid(v) && Bland(after) && ValidMembers(rest)
  }

  function PrintChars(chars: seq<StrChar>): string {
    if chars == [] then ""
    else (if chars[0].Plain? then [chars[0].c] else ['\\', chars[0].c]) + PrintChars(chars[1..])
  }

  function PrintText(chars: seq<StrChar>): string {
    ['"'] + PrintChars(chars) + ['"']
  }

  function Print(v: Json): string {
    match v
    case Word(text) => text
    case Text(chars) => PrintText(chars)
    case Array(open, elements) => "[" + open + PrintElements(elements) + "]"
    case Object(open, members) => "{" + PrintBody(open, members) + "}"
  }

  function PrintBody(open: string, members: Members): string
    decreases members, 1
  {
    open + PrintMembers(members)
  }

  /** `after` is what stands between this value and the next one, comma included. */
  function PrintElements(es: Elements): string {
    match es
    case NoElements => ""
    case Element(v, after, rest) => Print(v) + after + PrintElements(rest)
  }

  function PrintMembers(ms: Members): string
    decreases ms, 0
  {
    match ms
    case NoMembers => ""
    case Member(key, colon, v, after, rest) => PrintText(key) + colon + Print(v) + after + PrintMembers(rest)
  }

  // ----- round trip -----

  /** Scanning `s` outside a string at depth `d` neither closes nor changes anything. */
  predicate Neutral(s: string, d: int) {
    Closing(Scan(d, false, false), s).None? && Read(Scan(d, false, false), s) == Scan(d, false, false)
  }

  lemma {:induction false} ScanAppend(st: Scan, a: string, b: string)
    ensures Read(st, a + b) == Read(Read(st, a), b)
    ensures Closing(st, a).None? ==>
      Closing(st, a + b) == match Closing(Read(st, a), b) case None => None case Some(n) => Some(|a| + n)
    ensures Closing(st, a).Some? ==> Closing(st, a + b) == Closing(st, a)
    decreases |a|
  {
    if a == "" {
      assert a + b == b;
    } else {
      assert (a + b)[1..] == a[1..] + b;
      ScanAppend(Step(st, a[0]), a[1..], b);
    }
  }

  lemma NeutralAppend(a: string, b: string, d: int)
    requires Neutral(a, d) && Neutral(b, d)
    ensures Neutral(a + b, d)
  {
    ScanAppend(Scan(d, false, false), a, b);
  }

  lemma {:induction false} BlandNeutral(s: string, d: int)
    requires Bland(s)
    ensures Neutral(s, d)
  {
    if s != "" {
      assert s[0] in s && forall c :: c in s[1..] ==> c in s;
      BlandNeutral(s[1..], d);
    }
  }

  /** Inside a literal nothing closes, and the literal's end is not escaped. */
  lemma {:induction false} CharsInside(chars: seq<StrChar>, d: int)
    requires Literal(chars)
    ensures var st := Scan(d, true, false); Closing(st, PrintChars(chars)).None? && Read(st, PrintChars(chars)) == st
  {
    if chars != [] {
      var st, c := Scan(d, true, false), chars[0];
      var head := if c.Plain? then [c.c] else ['\\', c.c];
      assert Literal(chars[1..]) by {
        forall i | 0 <= i < |chars| - 1 && chars[1..][i].Plain?
          ensures chars[1..][i].c != '"' && chars[1..][i].c != '\\' {
          assert chars[1..][i] == chars[i + 1];
        }
      }
      CharsInside(chars[1..], d);
      HeadInside(c, d);
      ScanAppend(st, head, PrintChars(chars[1..]));
    }
  }

  lemma HeadInside(c: StrChar, d: int)
    requires c.Plain? ==> c.c != '"' && c.c != '\\'
    ensures var st, head := Scan(d, true, false), if c.Plain? then [c.c] else ['\\', c.c];
            Closing(st, head).None? && Read(st, head) == st
  {
    var st := Scan(d, true, false);
    ScanOne(st, c.c);
    if c.Escape? {
      ScanOne(st, '\\');
      ScanOne(Step(st, '\\'), c.c);
      ScanAppend(st, ['\\'], [c.c]);
      assert ['\\', c.c] == ['\\'] + [c.c];
    }
  }

  lemma ScanOne(st: Scan, ch: char)
    ensures Read(st, [ch]) == Step(st, ch)
    ensures Closing(st, [ch]) == if Closes(st, ch) then Some(1) else None
  {
    assert [ch][1..] == "";
    assert Read(Step(st, ch), "") == Step(st, ch) && Closing(Step(st, ch), "").None?;
  }

  lemma TextNeutral(chars: seq<StrChar>, d: int)
    requires Literal(chars)
    ensures Neutral(PrintText(chars), d)
  {
    var st, inside := Scan(d, false, false), Scan(d, true, false);
    CharsInside(chars, d);
    ScanOne(st, '"');
    ScanOne(inside, '"');
    ScanAppend(inside, PrintChars(chars), ['"']);
    ScanAppend(st, ['"'], PrintChars(chars) + ['"']);
    assert PrintText(chars) == ['"'] + (PrintChars(chars) + ['"']);
  }

  /** After an opening brace, a neutral body leads to the closing one. */
  lemma BodyScan(body: string, d: int)
    requires d >= 0 && Neutral(body, d + 1)
    ensures var inner := Scan(d + 1, false, false);
            && Read(inner, body + "}") == Scan(d, false, false)
            && Closing(inner, body + "}") == if d == 0 then Some(|body| + 1) else None
  {
    var inner := Scan(d + 1, false, false);
    ScanOne(inner, '}');
    ScanAppend(inner, body, "}");
  }

  /** An object read from depth 0 closes at its very end. */
  lemma ObjectCloses(body: string, suffix: string)
    requires Neutral(body, 1)
    ensures Closing(OUTSIDE, "{" + body + "}" + suffix) == Some(|body| + 2)
  {
    var p := "{" + (body + "}");
    ScanOne(OUTSIDE, '{');
    BodyScan(body, 0);
    ScanAppend(OUTSIDE, "{", body + "}");
    ScanAppend(OUTSIDE, p, suffix);
    assert "{" + body + "}" == p;
  }

  /** Inside something else it is neutral. */
  lemma ObjectNeutral(body: string, d: int)
    requires d > 0 && Neutral(body, d + 1)
    ensures Neutral("{" + body + "}", d)
  {
    var st := Scan(d, false, false);
    ScanOne(st, '{');
    BodyScan(body, d);
    ScanAppend(st, "{", body + "}");
    assert "{" + body + "}" == "{" + (body + "}");
  }

  lemma {:induction false} PrintNeutral(v: Json, d: int)
    requires Valid(v) && d >= 1
    ensures Neutral(Print(v), d)
  {
    match v
    case Word(text) => BlandNeutral(text, d);
    case Text(chars) => TextNeutral(chars, d);
    case Array(open, elements) =>
      BlandNeutral("[" + open, d);
      ElementsNeutral(elements, d);
      NeutralAppend("[" + open, PrintElements(elements), d);
      BlandNeutral("]", d);
      NeutralAppend("[" + open + PrintElements(elements), "]", d);
    case Object(open, members) =>
      BodyNeutral(open, members, d + 1);
      ObjectNeutral(PrintBody(open, members), d);
  }

  lemma {:induction false} BodyNeutral(open: string, members: Members, d: int)
    requires Bland(open) && ValidMembers(members) && d >= 1
    ensures Neutral(PrintBody(open, members), d)
    decreases members, 1
  {
    BlandNeutral(open, d);
    MembersNeutral(members, d);
    NeutralAppend(open, PrintMembers(members), d);
  }

  lemma {:induction false} ElementsNeutral(es: Elements, d: int)
    requires ValidElements(es) && d >= 1
    ensures Neutral(PrintElements(es), d)
  {
    match es
    case NoElements =>
    case Element(v, after, rest) =>
      PrintNeutral(v, d);
      BlandNeutral(after, d);
      NeutralAppend(Print(v), after, d);
      ElementsNeutral(rest, d);
      NeutralAppend(Print(v) + after, PrintElements(rest), d);
  }

  lemma {:induction false} MembersNeutral(ms: Members, d: int)
    requires ValidMembers(ms) && d >= 1
    ensures Neutral(PrintMembers(ms), d)
    decreases ms, 0
  {
    match ms
    case NoMembers =>
    case Member(key, colon, v, after, rest) =>
      TextNeutral(key, d);
      BlandNeutral(colon, d);
      NeutralAppend(PrintText(key), colon, d);
      PrintNeutral(v, d);
      NeutralAppend(PrintText(key) + colon, Print(v), d);
      BlandNeutral(after, d);
      NeutralAppend(PrintText(key) + colon + Print(v), after, d);
      MembersNeutral(rest, d);
      NeutralAppend(PrintText(key) + colon + Print(v) + after, PrintMembers(rest), d);
  }

  lemma {:induction false} IndexOfPrefix(prefix: string, text: string, ch: char)
    requires ch !in prefix && text != "" && text[0] == ch
    ensures IndexOf(prefix + text, ch) == |prefix|
  {
    if prefix == "" {
      assert prefix + text == text;
    } else {
      assert (prefix + text)[1..] == prefix[1..] + text;
      assert prefix[0] in prefix && forall c :: c in prefix[1..] ==> c in prefix;
      IndexOfPrefix(prefix[1..], text, ch);
    }
  }

  /** Round trip: an object, nested as it may be, with any escapes in its strings, is
      found between any prose without an opening brace and any prose at all. */
  lemma ExtractPrint(prefix: string, v: Json, suffix: string)
    requires '{' !in prefix && v.Object? && Valid(v)
    ensures Extract(prefix + Print(v) + suffix) == Some(Print(v))
  {
    var body, rest := PrintBody(v.open, v.members), Print(v) + suffix;
    BodyNeutral(v.open, v.members, 1);
    ObjectCloses(body, suffix);
    assert prefix + Print(v) + suffix == prefix + rest;
    IndexOfPrefix(prefix, rest, '{');
    assert (prefix + rest)[|prefix|..] == rest;
    assert rest[..|Print(v)|] == Print(v);
  }

  /** Extracting again changes nothing. */
  lemma ExtractIdempotent(text: string)
    requires Extract(text).Some?
    ensures Extract(Extract(text).value) == Extract(text)
  {
    var rest := text[IndexOf(text, '{')..];
    var n := Closing(OUTSIDE, rest).value;
    var r := rest[..n];
    assert rest == r + rest[n..];
    ScanAppend(OUTSIDE, r, rest[n..]);
    assert r[0] == '{' && IndexOf(r, '{') == 0;
    assert r[0..] == r && r[..n] == r;
    ClosingPrefix(OUTSIDE, rest);
  }

  lemma {:induction false} ClosingPrefix(st: Scan, text: string)
    requires Closing(st, text).Some?
    ensures Closing(st, text[..Closing(st, text).value]) == Closing(st, text)
    decreases |text|
  {
    var n := Closing(st, text).value;
    if !Closes(st, text[0]) {
      ClosingPrefix(Step(st, text[0]), text[1..]);
      assert text[..n][1..] == text[1..][..n - 1];
    }
  }

  // ----- the plan-reviewer's slice -----

  /** Index of the last `ch`; the length of the text when there is none. */
  function LastIndexOf(text: string, ch: char): (i: nat)
    ensures i <= |text| && (i < |text| ==> text[i] == ch && ch !in text[i + 1..])
    ensures i == |text| ==> ch !in text
  {
    if text == "" then 0
    else
      var n := |text| - 1;
      assert text == text[..n] + [text[n]];
      if text[n] == ch then n
      else
        var i := LastIndexOf(text[..n], ch);
        if i == n then |text|
        else
          assert text[i + 1..] == text[..n][i + 1..] + [text[n]];
          i
  }

  /** From the first opening to the last closing brace. */
  function ExtractSlice(text: string): Option<string> {
    var start, end := IndexOf(text, '{'), LastIndexOf(text, '}');
    if start == |text| || end == |text| || end <= start then None else Some(text[start..end + 1])
  }

  lemma SliceAround(prefix: string, p: string, suffix: string)
    requires '{' !in prefix && |p| >= 2 && p[0] == '{' && p[|p| - 1] == '}'
    ensures var text := prefix + (p + suffix);
            && ExtractSlice(text).Some? && |prefix| + |p| <= LastIndexOf(text, '}') + 1
            && ExtractSlice(text) == Some(text[|prefix|..LastIndexOf(text, '}') + 1])
  {
    var text := prefix + (p + suffix);
    IndexOfPrefix(prefix, p + suffix, '{');
    assert text[|prefix| + |p| - 1] == '}';
    LastIndexAtLeast(text, '}', |prefix| + |p| - 1);
  }

  lemma SliceClean(prefix: string, p: string, suffix: string)
    requires '{' !in prefix && |p| >= 2 && p[0] == '{' && p[|p| - 1] == '}' && '}' !in suffix
    ensures ExtractSlice(prefix + (p + suffix)) == Some(p)
  {
    var text := prefix + (p + suffix);
    SliceAround(prefix, p, suffix);
    var last := LastIndexOf(text, '}');
    assert forall j :: |prefix| + |p| <= j < |text| ==> text[j] == suffix[j - |prefix| - |p|];
    assert text[|prefix|..|prefix| + |p|] == p;
  }

  lemma SliceDirty(prefix: string, p: string, suffix: string)
    requires '{' !in prefix && |p| >= 2 && p[0] == '{' && p[|p| - 1] == '}' && '}' in suffix
    ensures ExtractSlice(prefix + (p + suffix)) != Some(p)
  {
    var text := prefix + (p + suffix);
    SliceAround(prefix, p, suffix);
    BraceAfter(prefix, p, suffix);
    assert |ExtractSlice(text).value| > |p|;
  }

  lemma BraceAfter(prefix: string, p: string, suffix: string)
    requires '}' in suffix
    ensures var text := prefix + (p + suffix);
            var last := LastIndexOf(text, '}');
            |prefix| + |p| <= last < |text| && text[last] == '}'
  {
    var k :| 0 <= k < |suffix| && suffix[k] == '}';
    var text := prefix + (p + suffix);
    assert text[|prefix| + |p| + k] == '}';
    LastIndexAtLeast(text, '}', |prefix| + |p| + k);
  }

  /** The slice finds the object exactly when no closing brace follows it. */
  lemma SlicePrint(prefix: string, v: Json, suffix: string)
    requires '{' !in prefix && v.Object? && Valid(v)
    ensures ExtractSlice(prefix + Print(v) + suffix) == Some(Print(v)) <==> '}' !in suffix
  {
    var p := Print(v);
    assert prefix + p + suffix == prefix + (p + suffix);
    if '}' in suffix {
      SliceDirty(prefix, p, suffix);
    } else {
      SliceClean(prefix, p, suffix);
    }
  }

  /** Otherwise the slice goes on to the last closing brace. */
  lemma SliceTrailing(prefix: string, v: Json, suffix: string) returns (x: string)
    requires '{' !in prefix && v.Object? && Valid(v) && '}' in suffix
    ensures x != "" && x[|x| - 1] == '}' && ExtractSlice(prefix + Print(v) + suffix) == Some(Print(v) + x)
  {
    var p := Print(v);
    var text := prefix + (p + suffix);
    assert prefix + p + suffix == text;
    SliceAround(prefix, p, suffix);
    BraceAfter(prefix, p, suffix);
    x := CutAfter(prefix, p, suffix, LastIndexOf(text, '}'));
  }

  lemma CutAfter(prefix: string, p: string, suffix: string, last: nat) returns (x: string)
    requires |prefix| + |p| <= last < |prefix| + |p| + |suffix|
    ensures var text := prefix + (p + suffix);
            x != "" && x[|x| - 1] == text[last] && text[|prefix|..last + 1] == p + x
  {
    x := suffix[..last + 1 - |prefix| - |p|];
    assert (prefix + (p + suffix))[|prefix|..] == p + suffix;
    assert (p + suffix)[..last + 1 - |prefix|] == p + x;
  }

  lemma LastIndexAtLeast(text: string, ch: char, k: nat)
    requires k < |text| && text[k] == ch
    ensures k <= LastIndexOf(text, ch) < |text|
  {
    var last := LastIndexOf(text, ch);
    assert forall j :: last < j < |text| ==> text[last + 1..][j - last - 1] == text[j];
  }
}
