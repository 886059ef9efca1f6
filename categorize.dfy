/** The categorisers and dashboard metrics of lib/ai-categorize.ts. The
    model calls (OpenRouter and Gemini) are oracles: an OpenRouter call
    answers a schema-checked categorisation or throws; a Gemini call answers
    text or throws, and the text is read for its JSON object. */
module Categorize {
  import opened Wrappers
  import Text
  import opened Batching

  const OpenRouterFallback := Categorization(Some("personal"), 0.5, "Failed to categorize, defaulting to personal")
  const GeminiFallback := Categorization(Some("personal"), 0.5, "Failed to categorize with Gemini, defaulting to personal")
  const GeminiDefaultReasoning := "Categorized by Gemini AI"
  const NoKey := "Gemini API key not configured"

  /** `categorizeEmails`: `ask` is the OpenRouter call (`None` when it throws). */
  method CategorizeEmails(emails: seq<EmailItem>, ask: EmailItem -> Option<Categorization>)
    returns (results: map<string, Categorization>)
    ensures results == ResultsOf(emails, EmailKey, ask, OpenRouterFallback)
    ensures results.Keys == Ids(emails, EmailKey)
  {
    results := CategorizeInBatches(emails, EmailKey, ask, OpenRouterFallback);
  }

  /** `categorizeFiles`, the same loop over files. */
  method CategorizeFiles(files: seq<FileItem>, ask: FileItem -> Option<Categorization>)
    returns (results: map<string, Categorization>)
    ensures results == ResultsOf(files, FileKey, ask, OpenRouterFallback)
    ensures results.Keys == Ids(files, FileKey)
  {
    results := CategorizeInBatches(files, FileKey, ask, OpenRouterFallback);
  }

  /** The last index of `c` in `s`. */
  function LastIndex(s: string, c: char): (i: nat)
    requires c in s
    ensures i < |s| && s[i] == c && c !in s[i + 1..]
  {
    if s[|s| - 1] == c then |s| - 1
    else
      var i := LastIndex(s[..|s| - 1], c);
      assert s[i + 1..] == s[..|s| - 1][i + 1..] + [s[|s| - 1]];
      i
  }

  /** `text.match(/\{[\s\S]*\}/)`: from the first '{' to the last '}' after
      it; `None` when there is no such pair. */
  function JsonSpan(text: string): (r: Option<string>)
    ensures r.Some? ==> |r.value| >= 2 && r.value[0] == '{' && r.value[|r.value| - 1] == '}'
  {
    if '{' !in text then None
    else
      var rest := text[Text.FirstIndex(text, '{')..];
      if '}' !in rest then None
      else
        var j := LastIndex(rest, '}');
        Some(rest[..j + 1])
  }

  /** A reply made of text without '{', a JSON object, and text without
      '}' yields exactly that object, whatever the object holds. */
  lemma JsonSpanOf(before: string, obj: string, after: string)
    requires '{' !in before && '}' !in after
    requires |obj| >= 2 && obj[0] == '{' && obj[|obj| - 1] == '}'
    ensures JsonSpan(before + obj + after) == Some(obj)
  {
    var text := before + obj + after;
    assert text[|before|] == '{';
    assert text[..|before|] == before;
    Text.FirstIndexAt(text, '{', |before|);
    var rest := text[|before|..];
    assert rest == obj + after;
    assert rest[|obj| - 1] == '}';
    var j := LastIndex(rest, '}');
    assert rest[..j + 1] == obj;
  }

  /** No JSON object is found exactly when no '}' follows the first '{'. */
  lemma JsonSpanNone(text: string)
    ensures JsonSpan(text).None? <==>
      ('{' !in text || '}' !in text[Text.FirstIndex(text, '{')..])
  {
  }

  /** What a Gemini answer's JSON holds; a confidence that is missing or not
      a number is `None`. */
  datatype GeminiFields = GeminiFields(category: Option<string>, confidence: Option<real>, reasoning: Option<string>)

  /** `Math.min(1, Math.max(0, confidence || 0.5))` */
  function ClampConfidence(c: Option<real>): (r: real)
    ensures 0.0 <= r <= 1.0
    ensures c.None? || c.value == 0.0 ==> r == 0.5
    ensures c.Some? && 0.0 < c.value <= 1.0 ==> r == c.value
    ensures c.Some? && c.value < 0.0 ==> r == 0.0
    ensures c.Some? && c.value > 1.0 ==> r == 1.0
  {
    var x := if c.None? || c.value == 0.0 then 0.5 else c.value;
    if x < 0.0 then 0.0 else if x > 1.0 then 1.0 else x
  }

  function Normalize(f: GeminiFields): (c: Categorization)
    ensures c.category == f.category && 0.0 <= c.confidence <= 1.0 && c.reasoning != ""
    ensures c.confidence == ClampConfidence(f.confidence)
    ensures Truthy(f.reasoning) ==> c.reasoning == f.reasoning.value
    ensures !Truthy(f.reasoning) ==> c.reasoning == GeminiDefaultReasoning
  {
    Categorization(f.category, ClampConfidence(f.confidence), OrElse(f.reasoning, GeminiDefaultReasoning))
  }

  /** A Gemini answer read for its JSON: `reply` is the answer text (`None`
      when the call throws) and `parse` is `JSON.parse` (`None` when it
      throws). */
  function GeminiJson<F>(reply: Option<string>, parse: string -> Option<F>): (r: Option<F>)
    ensures r.Some? <==> reply.Some? && JsonSpan(reply.value).Some? && parse(JsonSpan(reply.value).value).Some?
    ensures r.Some? ==> r == parse(JsonSpan(reply.value).value)
  {
    if reply.None? then None
    else
      match JsonSpan(reply.value)
      case None => None
      case Some(span) => parse(span)
  }

  /** `categorizeEmailWithGemini`: throws (`None`) without a key and on any
      failure. */
  function GeminiEmail(configured: bool, reply: Option<string>, parse: string -> Option<GeminiFields>)
    : (r: Option<Categorization>)
    ensures !configured ==> r.None?
    ensures configured ==> (r.Some? <==> GeminiJson(reply, parse).Some?)
    ensures r.Some? ==> r.value == Normalize(GeminiJson(reply, parse).value)
  {
    if !configured then None
    else
      match GeminiJson(reply, parse)
      case None => None
      case Some(f) => Some(Normalize(f))
  }

  /** `categorizeFileWithGemini`: throws without a key, but answers the
      fallback itself on a failed call or answer. */
  function GeminiFile(configured: bool, reply: Option<string>, parse: string -> Option<GeminiFields>)
    : (r: Option<Categorization>)
    ensures r.Some? <==> configured
    ensures configured && GeminiJson(reply, parse).None? ==> r == Some(GeminiFallback)
    ensures configured && GeminiJson(reply, parse).Some? ==> r == Some(Normalize(GeminiJson(reply, parse).value))
  {
    if !configured then None
    else
      match GeminiJson(reply, parse)
      case None => Some(GeminiFallback)
      case Some(f) => Some(Normalize(f))
  }

  /** The two Gemini categorisers fail differently, yet once their loop
      applies its fallback each item ends up with the same result; without
      a key both throw. */
  lemma GeminiVariantsAgree(configured: bool, reply: Option<string>, parse: string -> Option<GeminiFields>)
    ensures GeminiEmail(configured, reply, parse).GetOr(GeminiFallback)
         == GeminiFile(configured, reply, parse).GetOr(GeminiFallback)
    ensures !configured <==> GeminiFile(configured, reply, parse).None?
    ensures !configured ==> GeminiEmail(configured, reply, parse).None?
    ensures GeminiEmail(configured, reply, parse).Some? ==>
      var c := GeminiEmail(configured, reply, parse).value;
      0.0 <= c.confidence <= 1.0 && c.reasoning != ""
  {
  }

  /** The per-item Gemini calls as the loops see them: `generate` asks about
      one item. */
  function GeminiEmailAsk(configured: bool, generate: EmailItem -> Option<string>,
                          parse: string -> Option<GeminiFields>): EmailItem -> Option<Categorization>
  {
    (e: EmailItem) => GeminiEmail(configured, generate(e), parse)
  }

  function GeminiFileAsk(configured: bool, generate: FileItem -> Option<string>,
                         parse: string -> Option<GeminiFields>): FileItem -> Option<Categorization>
  {
    (f: FileItem) => GeminiFile(configured, generate(f), parse)
  }

  /** `categorizeEmailsWithGemini` */
  method CategorizeEmailsWithGemini(emails: seq<EmailItem>, configured: bool, generate: EmailItem -> Option<string>,
                                    parse: string -> Option<GeminiFields>)
    returns (results: map<string, Categorization>)
    ensures results == ResultsOf(emails, EmailKey, GeminiEmailAsk(configured, generate, parse), GeminiFallback)
    ensures results.Keys == Ids(emails, EmailKey)
  {
    results := CategorizeInBatches(emails, EmailKey, GeminiEmailAsk(configured, generate, parse), GeminiFallback);
  }

  /** `categorizeFilesWithGemini` */
  method CategorizeFilesWithGemini(files: seq<FileItem>, configured: bool, generate: FileItem -> Option<string>,
                                   parse: string -> Option<GeminiFields>)
    returns (results: map<string, Categorization>)
    ensures results == ResultsOf(files, FileKey, GeminiFileAsk(configured, generate, parse), GeminiFallback)
    ensures results.Keys == Ids(files, FileKey)
  {
    results := CategorizeInBatches(files, FileKey, GeminiFileAsk(configured, generate, parse), GeminiFallback);
  }

  /** Without a key every email is given the Gemini fallback, whichever of
      the emails sharing an id is processed last. */
  lemma {:induction false} NoKeyFallsBack(emails: seq<EmailItem>, generate: EmailItem -> Option<string>,
                                          parse: string -> Option<GeminiFields>)
    ensures var r := ResultsOf(emails, EmailKey, GeminiEmailAsk(false, generate, parse), GeminiFallback);
      r.Keys == Ids(emails, EmailKey) && forall x :: x in r ==> r[x] == GeminiFallback
    decreases |emails|
  {
    ResultsKeys(emails, EmailKey, GeminiEmailAsk(false, generate, parse), GeminiFallback);
    if emails != [] {
      NoKeyFallsBack(emails[..|emails| - 1], generate, parse);
    }
  }

  datatype Kind = EmailKind | FileKind

  datatype ScoredItem = ScoredItem(category: string, confidence: real)

  datatype KeyMetrics = KeyMetrics(totalItems: nat, personalItems: nat, workItems: nat, uselessItems: nat,
                                   personalPercentage: nat, workPercentage: nat, recommendation: string)

  datatype DashboardInsights = DashboardInsights(summary: string, keyMetrics: KeyMetrics)

  /** What a Gemini insights answer's JSON holds. */
  datatype InsightFields = InsightFields(summary: Option<string>, recommendation: Option<string>)

  /** The third category: "useless" for files, "spam_promotion" for emails. */
  function UselessCategory(kind: Kind): string {
    match kind
    case FileKind => "useless"
    case EmailKind => "spam_promotion"
  }

  function CountCategory(items: seq<ScoredItem>, category: string): (n: nat)
    ensures n <= |items|
    ensures n == |items| <==> forall k :: 0 <= k < |items| ==> items[k].category == category
    ensures n == 0 <==> forall k :: 0 <= k < |items| ==> items[k].category != category
  {
    if items == [] then 0
    else (if items[0].category == category then 1 else 0) + CountCategory(items[1..], category)
  }

  /** Items of any of three distinct categories are counted at most once
      between them. */
  lemma {:induction false} CountsDisjoint(items: seq<ScoredItem>, a: string, b: string, c: string)
    requires a != b && b != c && a != c
    ensures CountCategory(items, a) + CountCategory(items, b) + CountCategory(items, c) <= |items|
  {
    if items != [] {
      CountsDisjoint(items[1..], a, b, c);
    }
  }

  /** `Math.round(count / total * 100)`, or 0 when there are no items: the
      whole number nearest 100·count/total, halves rounded up. */
  function Percentage(count: nat, total: nat): (p: nat)
    ensures total == 0 ==> p == 0
    ensures total > 0 ==> 2 * total * p <= 200 * count + total < 2 * total * p + 2 * total
  {
    if total > 0 then (200 * count + total) / (2 * total) else 0
  }

  lemma PercentageAtMost100(count: nat, total: nat)
    requires count <= total
    ensures Percentage(count, total) <= 100
  {
    if total > 0 {
      var p := Percentage(count, total);
      assert 2 * total * p <= 201 * total;
      CancelFactor(total, 2 * p, 201);
    }
  }

  /** t·x <= t·y with t > 0 gives x <= y. */
  lemma CancelFactor(t: int, x: int, y: int)
    requires t > 0 && t * x <= t * y
    ensures x <= y
  {
  }

  /** Rounding each share on its own can make the two shown percentages add
      up to 101, so the remainder the prompt shows for the third category
      can be -1 (eight items, one personal and seven work). */
  lemma PercentagesMayReach101()
    ensures Percentage(1, 8) + Percentage(7, 8) == 101
  {
  }

  lemma PercentagesAtMost101(p: nat, w: nat, total: nat)
    requires p + w <= total
    ensures Percentage(p, total) + Percentage(w, total) <= 101
  {
    if total > 0 {
      var a, b := Percentage(p, total), Percentage(w, total);
      assert 2 * total * (a + b) <= 200 * (p + w) + 2 * total;
      assert 2 * total * (a + b) <= 2 * total * 101;
      CancelFactor(2 * total, a + b, 101);
    }
  }

  function Metrics(kind: Kind, items: seq<ScoredItem>, recommendation: string): KeyMetrics {
    var personal := CountCategory(items, "personal");
    var work := CountCategory(items, "work");
    KeyMetrics(|items|, personal, work, CountCategory(items, UselessCategory(kind)),
               Percentage(personal, |items|), Percentage(work, |items|), recommendation)
  }

  /** `generateDashboardInsights`: without a key it throws (`Err`) before
      computing anything; otherwise the metrics are computed and Gemini's
      summary and recommendation are added, or fixed texts when the answer
      fails. */
  function DashboardInsightsOf(kind: Kind, items: seq<ScoredItem>, configured: bool, reply: Option<string>,
                               parse: string -> Option<InsightFields>): Result<DashboardInsights, string>
  {
    if !configured then Err(NoKey)
    else
      match GeminiJson(reply, parse)
      case None => Ok(DashboardInsights("Analytics unavailable", Metrics(kind, items, "Please try again later")))
      case Some(f) =>
        Ok(DashboardInsights(OrElse(f.summary, "Unable to generate summary"),
                             Metrics(kind, items, OrElse(f.recommendation, "Review and organize regularly"))))
  }

  /** The counts are by category, the three never exceed the total, each
      percentage is within 0..100, the two shown add up to at most 101, and
      with no items both are 0. */
  lemma MetricsBounds(kind: Kind, items: seq<ScoredItem>, recommendation: string)
    ensures var m := Metrics(kind, items, recommendation);
      m.totalItems == |items|
      && m.personalItems == CountCategory(items, "personal")
      && m.workItems == CountCategory(items, "work")
      && m.uselessItems == CountCategory(items, UselessCategory(kind))
      && m.personalItems + m.workItems + m.uselessItems <= m.totalItems
      && m.personalPercentage <= 100 && m.workPercentage <= 100
      && m.personalPercentage + m.workPercentage <= 101
      && (m.totalItems == 0 ==> m.personalPercentage == 0 && m.workPercentage == 0)
      && m.recommendation == recommendation
  {
    var personal, work := CountCategory(items, "personal"), CountCategory(items, "work");
    CountsDisjoint(items, "personal", "work", UselessCategory(kind));
    PercentageAtMost100(personal, |items|);
    PercentageAtMost100(work, |items|);
    PercentagesAtMost101(personal, work, |items|);
  }

  /** Without a key nothing is computed; otherwise the metrics are the same
      whatever the answer, and a failed answer gives the fixed texts. */
  lemma InsightsOutcomes(kind: Kind, items: seq<ScoredItem>, configured: bool, reply: Option<string>,
                         parse: string -> Option<InsightFields>)
    ensures var r := DashboardInsightsOf(kind, items, configured, reply, parse);
      (r.Err? <==> !configured)
      && (r.Err? ==> r.error == NoKey)
      && (r.Ok? ==> r.value.keyMetrics == Metrics(kind, items, r.value.keyMetrics.recommendation)
                    && r.value.summary != "" && r.value.keyMetrics.recommendation != "")
      && (configured && GeminiJson(reply, parse).None? ==>
            r.value.summary == "Analytics unavailable" && r.value.keyMetrics.recommendation == "Please try again later")
  {
  }
}
