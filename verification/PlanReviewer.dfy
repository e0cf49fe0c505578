/** The plan-reviewer step: when its answer counts, and how its JSON is read. */
module PlanReviewer {
  import opened Prelude
  import opened Pipeline
  import JsonExtractor

  datatype Json =
    | JNull
    | JBool(b: bool)
    | JNumber(n: real)
    | JString(s: string)
    | JArray(items: seq<Json>)
    | JObject(fields: map<string, Json>)
  {
    /** Property read of the source language: a missing key is `undefined`. */
    function Get(key: string): Option<Json> {
      if JObject? && key in fields then Some(fields[key]) else None
    }
  }

  datatype ReasonKind = Invariant | FailureMode | Scope | Feasibility

  /** A veto reason stated by the reviewer, or the synthetic feasibility reason
      that replaces output the parser could not use. */
  datatype VetoReason =
    | Stated(kind: ReasonKind, message: string, revision: string)
    | MalformedOutput

  datatype PlanReview = Approve | Veto(reasons: seq<VetoReason>)

  /** What is left of the worker's text after looking for an object and parsing it. */
  datatype ParsedText = NoObject | NotJson | Parsed(value: Json)

  function KindOf(j: Option<Json>): Option<ReasonKind> {
    match j
    case Some(JString("invariant")) => Some(Invariant)
    case Some(JString("failure-mode")) => Some(FailureMode)
    case Some(JString("scope")) => Some(Scope)
    case Some(JString("feasibility")) => Some(Feasibility)
    case _ => None
  }

  function ReasonOf(j: Json): Option<VetoReason> {
    match (KindOf(j.Get("kind")), j.Get("message"), j.Get("suggested_revision"))
    case (Some(k), Some(JString(m)), Some(JString(r))) => Some(Stated(k, m, r))
    case _ => None
  }

  /** The well-formed entries of `items`, in order. */
  function WellFormed(items: seq<Json>): (rs: seq<VetoReason>)
    ensures forall r :: r in rs <==> exists i :: 0 <= i < |items| && ReasonOf(items[i]) == Some(r)
  {
    if items == [] then []
    else
      var init, last := items[..|items| - 1], items[|items| - 1];
      assert items == init + [last];
      WellFormed(init) + (match ReasonOf(last) case Some(r) => [r] case None => [])
  }

  function ReviewOf(p: ParsedText): PlanReview {
    if !p.Parsed? then Veto([MalformedOutput])
    else match p.value.Get("decision")
      case Some(JString("approve")) => Approve
      case Some(JString("veto")) =>
        (match p.value.Get("reasons")
         case Some(JArray(items)) =>
           if WellFormed(items) == [] then Veto([MalformedOutput]) else Veto(WellFormed(items))
         case _ => Veto([MalformedOutput]))
      case _ => Veto([MalformedOutput])
  }

  /** `JSON.parse`: none if it throws. */
  type Decoder = string -> Option<Json>

  function ReadText(decode: Decoder, text: string): ParsedText {
    match JsonExtractor.ExtractSlice(text)
    case None => NoObject
    case Some(slice) => match decode(slice) case None => NotJson case Some(value) => Parsed(value)
  }

  /** `parsePlanReview`. The review approves only
      on an explicit `"approve"`; every other output vetoes with a reason. */
  method ParsePlanReview(decode: Decoder, text: string) returns (r: PlanReview)
    ensures r == ReviewOf(ReadText(decode, text))
    ensures r.Approve? <==>
      ReadText(decode, text).Parsed? && ReadText(decode, text).value.Get("decision") == Some(JString("approve"))
    ensures r.Veto? ==> r.reasons != []
  {
    var slice := JsonExtractor.ExtractSlice(text);
    if slice.None? {
      return Veto([MalformedOutput]);
    }
    var parsed := decode(slice.value);
    if parsed.None? || !parsed.value.JObject? {
      return Veto([MalformedOutput]);
    }
    r := JudgeObject(parsed.value);
  }

  /** Its second half: the decision of the object that was found. */
  method JudgeObject(value: Json) returns (r: PlanReview)
    requires value.JObject?
    ensures r == ReviewOf(Parsed(value))
    ensures r.Approve? <==> value.Get("decision") == Some(JString("approve"))
    ensures r.Veto? ==> r.reasons != []
  {
    var decision := value.Get("decision");
    if decision == Some(JString("approve")) {
      return Approve;
    }
    if decision != Some(JString("veto")) {
      return Veto([MalformedOutput]);
    }
    var field := value.Get("reasons");
    if field.None? || !field.value.JArray? || field.value.items == [] {
      return Veto([MalformedOutput]);
    }
    var reasons := CollectReasons(field.value.items);
    r := if reasons == [] then Veto([MalformedOutput]) else Veto(reasons);
  }

  /** The loop over the stated reasons: entries that are not well-formed are dropped. */
  method CollectReasons(items: seq<Json>) returns (reasons: seq<VetoReason>)
    ensures reasons == WellFormed(items)
  {
    reasons := [];
    for i := 0 to |items|
      invariant reasons == WellFormed(items[..i])
    {
      assert items[..i + 1][..i] == items[..i];
      var entry := ReasonOf(items[i]);
      if entry.Some? {
        reasons := reasons + [entry.value];
      }
    }
    assert items[..|items|] == items;
  }

  // ----- what a reviewer writes is what is read -----

  /** The words of the reviewer's format. */
  function KindWord(k: ReasonKind): string {
    match k
    case Invariant => "invariant"
    case FailureMode => "failure-mode"
    case Scope => "scope"
    case Feasibility => "feasibility"
  }

  function PrintReason(kind: ReasonKind, message: string, revision: string): Json {
    JObject(map["kind" := JString(KindWord(kind)), "message" := JString(message),
                "suggested_revision" := JString(revision)])
  }

  function PrintReasons(rs: seq<VetoReason>): seq<Json>
    requires forall r :: r in rs ==> r.Stated?
  {
    if rs == [] then []
    else
      var n := |rs| - 1;
      assert rs == rs[..n] + [rs[n]];
      PrintReasons(rs[..n]) + [PrintReason(rs[n].kind, rs[n].message, rs[n].revision)]
  }

  function PrintVeto(rs: seq<VetoReason>): Json
    requires forall r :: r in rs ==> r.Stated?
  {
    JObject(map["decision" := JString("veto"), "reasons" := JArray(PrintReasons(rs))])
  }

  /** An entry is a reason exactly if it has a known word as kind and texts as message and
      suggested revision; further fields do not matter. */
  lemma ReasonIff(j: Json, kind: ReasonKind, message: string, revision: string)
    ensures ReasonOf(j) == Some(Stated(kind, message, revision)) <==>
      && j.Get("kind") == Some(JString(KindWord(kind))) && j.Get("message") == Some(JString(message))
      && j.Get("suggested_revision") == Some(JString(revision))
  {
    KindIff(j.Get("kind"), kind);
  }

  lemma KindIff(j: Option<Json>, kind: ReasonKind)
    ensures KindOf(j) == Some(kind) <==> j == Some(JString(KindWord(kind)))
  {}

  lemma {:induction false} ReasonsBack(rs: seq<VetoReason>)
    requires forall r :: r in rs ==> r.Stated?
    ensures WellFormed(PrintReasons(rs)) == rs && |PrintReasons(rs)| == |rs|
  {
    if rs != [] {
      var n := |rs| - 1;
      assert rs == rs[..n] + [rs[n]];
      ReasonsBack(rs[..n]);
      ReasonBack(rs[n]);
      WellFormedNext(PrintReasons(rs[..n]), PrintReason(rs[n].kind, rs[n].message, rs[n].revision));
    }
  }

  lemma ReasonBack(r: VetoReason)
    requires r.Stated?
    ensures ReasonOf(PrintReason(r.kind, r.message, r.revision)) == Some(r)
  {
    ReasonIff(PrintReason(r.kind, r.message, r.revision), r.kind, r.message, r.revision);
  }

  lemma WellFormedNext(items: seq<Json>, last: Json)
    ensures WellFormed(items + [last]) == WellFormed(items) + match ReasonOf(last) case Some(r) => [r] case None => []
  {
    assert (items + [last])[..|items|] == items;
  }

  /** Round trip: a veto with its reasons in the reviewer's format is read as that veto. */
  lemma VetoBack(rs: seq<VetoReason>)
    requires rs != [] && forall r :: r in rs ==> r.Stated?
    ensures ReviewOf(Parsed(PrintVeto(rs))) == Veto(rs)
  {
    ReasonsBack(rs);
    VetoFields(PrintReasons(rs));
    ReadVeto(PrintVeto(rs), PrintReasons(rs));
  }

  lemma VetoFields(items: seq<Json>)
    ensures var value := JObject(map["decision" := JString("veto"), "reasons" := JArray(items)]);
            value.Get("decision") == Some(JString("veto")) && value.Get("reasons") == Some(JArray(items))
  {}

  lemma ReadVeto(value: Json, items: seq<Json>)
    requires value.Get("decision") == Some(JString("veto")) && value.Get("reasons") == Some(JArray(items))
    requires WellFormed(items) != []
    ensures ReviewOf(Parsed(value)) == Veto(WellFormed(items))
  {}

  /** An object followed by more text that ends in a closing brace does not decode. */
  ghost predicate Exclusive(decode: Decoder, p: string) {
    forall x: string :: x != "" && x[|x| - 1] == '}' ==> decode(p + x).None?
  }

  /** A review that the worker prints after prose without an opening brace is read as it
      was meant exactly when no closing brace follows; otherwise it counts as malformed. */
  lemma PrintedReview(decode: Decoder, prefix: string, v: JsonExtractor.Json, suffix: string, meant: Json)
    requires '{' !in prefix && v.Object? && JsonExtractor.Valid(v)
    requires decode(JsonExtractor.Print(v)) == Some(meant) && Exclusive(decode, JsonExtractor.Print(v))
    ensures ReadText(decode, prefix + JsonExtractor.Print(v) + suffix) ==
      if '}' in suffix then NotJson else Parsed(meant)
  {
    var p := JsonExtractor.Print(v);
    if '}' in suffix {
      var x := JsonExtractor.SliceTrailing(prefix, v, suffix);
    } else {
      JsonExtractor.SlicePrint(prefix, v, suffix);
    }
  }

  /** What the plan-reviewer's worker came back with; `review` is its output as
      `ParsePlanReview` reads it. */
  datatype WorkerAnswer =
    | WorkerThrew
    | WorkerRan(ok: bool, rateLimitHits: nat, cost: Option<real>, tokens: Option<nat>, review: PlanReview)

  datatype SkipReason = RateLimit | CostCap | WorkerError

  datatype ReviewStep = ReviewStep(attempt: Attempt, review: PlanReview, skipped: Option<SkipReason>)

  function Skip(reason: SkipReason, cost: Option<real>): ReviewStep {
    ReviewStep(Attempt(Reviewer, false, cost, None), Approve, Some(reason))
  }

  /** `runPlanReviewer` after the worker answered. */
  function RunPlanReviewer(w: WorkerAnswer, architectCost: Option<real>, capMultiplier: real): (s: ReviewStep)
    ensures s.skipped.Some? <==>
      || w.WorkerThrew?
      || !w.ok
      || w.rateLimitHits > 0
      || (architectCost.Some? && w.cost.Some? && w.cost.value > architectCost.value * capMultiplier)
    ensures s.review.Veto? ==> s.skipped.None? && s.attempt.ok && s.review == w.review
    ensures s.attempt.role == Reviewer
  {
    if w.WorkerThrew? || !w.ok then Skip(WorkerError, None)
    else if w.rateLimitHits > 0 then Skip(RateLimit, w.cost)
    else if architectCost.Some? && w.cost.Some? && w.cost.value > architectCost.value * capMultiplier then
      Skip(CostCap, w.cost)
    else
      ReviewStep(Attempt(Reviewer, true, w.cost, w.tokens), w.review, None)
  }

  /** Why a review was skipped, and how the attempt is booked: an error first, then a rate
      limit, then the cost cap; only a rate-limited or too dear run keeps its cost. */
  lemma SkipReasons(w: WorkerAnswer, architectCost: Option<real>, capMultiplier: real)
    ensures var s := RunPlanReviewer(w, architectCost, capMultiplier);
            && (s.skipped == Some(WorkerError) <==> w.WorkerThrew? || !w.ok)
            && (s.skipped == Some(RateLimit) <==> w.WorkerRan? && w.ok && w.rateLimitHits > 0)
            && (s.attempt.ok <==> s.skipped.None?)
            && (s.skipped.None? ==> s.attempt.tokens == w.tokens)
            && s.attempt.cost == (if s.skipped == Some(WorkerError) then None else w.cost)
            && (s.skipped.Some? ==> s.review.Approve? && s.attempt.tokens.None?)
  {}
}
