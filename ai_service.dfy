/** The AI insight service: a configured model or none, the two fixed
    fallback answers, and the cleaning of the model's reply before it is
    decoded as JSON.

    The Gemini call is a parameter (`Reply`: the reply text or the message
    of the exception it raised), and so is `json.loads`, as a function that
    yields the decoded document or `None` for a `JSONDecodeError`. The prompt
    text is not modelled. */
module AiService {
  import opened Common
  import opened Report
  import AnalysisInsights

  const ModelName: string := "gemini-flash-latest"
  const Unavailable: string := "AI Insights " + "unavailable" + " (API Key missing)."
  const ErrorSummary: string := "Error " + "analyzing " + "data with AI."
  const ErrorAdvice: string := "Check server logs for details."
  const ParseFinding: string := "Could not parse AI response structured data."
  const ParseAdvice: string := "Review full logs."

  /** What the model call produced: its text, or the exception it raised. */
  datatype Reply = Text(text: string) | Raised(message: string)

  /** What `generate_insights` returns: the decoded JSON document, or one of
      the fixed insight dictionaries. */
  datatype Outcome<J> = Decoded(doc: J) | Fixed(insights: AIInsights)

  // ---------------------------------------------------------------------
  // str.strip

  /** Python's `str.isspace` for one character. */
  predicate IsSpace(c: char) {
    ('\t' <= c <= '\r') || ('\U{1C}' <= c <= ' ')
    || c == '\U{85}' || c == '\U{A0}' || c == '\U{1680}'
    || ('\U{2000}' <= c <= '\U{200A}')
    || c == '\U{2028}' || c == '\U{2029}' || c == '\U{202F}' || c == '\U{205F}' || c == '\U{3000}'
  }

  predicate AllSpace(s: string) {
    forall i :: 0 <= i < |s| ==> IsSpace(s[i])
  }

  /** Leading whitespace removed. */
  function StripStart(s: string): (r: string)
    ensures |r| <= |s| && r == s[|s| - |r|..]
    ensures AllSpace(s[..|s| - |r|])
    ensures r == [] || !IsSpace(r[0])
    decreases |s|
  {
    if s != [] && IsSpace(s[0]) then StripStart(s[1..]) else s
  }

  /** Trailing whitespace removed. */
  function StripEnd(s: string): (r: string)
    ensures |r| <= |s| && r == s[..|r|]
    ensures AllSpace(s[|r|..])
    ensures r == [] || !IsSpace(r[|r| - 1])
    decreases |s|
  {
    if s != [] && IsSpace(s[|s| - 1]) then
      var r := StripEnd(s[..|s| - 1]);
      assert s[|r|..] == s[..|s| - 1][|r|..] + [s[|s| - 1]];
      r
    else s
  }

  /** `str.strip()`: the text between the leading and the trailing
      whitespace. */
  function Strip(s: string): (r: string)
    ensures |r| <= |s|
    ensures r == [] || (!IsSpace(r[0]) && !IsSpace(r[|r| - 1]))
  {
    StripEnd(StripStart(s))
  }

  /** What `Strip` removes is whitespace on either side. */
  lemma StripRemovesPadding(s: string) returns (pre: string, post: string)
    ensures AllSpace(pre) && AllSpace(post) && s == pre + Strip(s) + post
  {
    var t := StripStart(s);
    pre := StripStartSplit(s);
    post := StripEndSplit(t);
  }

  lemma StripStartSplit(s: string) returns (pre: string)
    ensures AllSpace(pre) && s == pre + StripStart(s)
  {
    var t := StripStart(s);
    var k := |s| - |t|;
    SplitAt(s, k);
    pre := s[..k];
  }

  lemma StripEndSplit(t: string) returns (post: string)
    ensures AllSpace(post) && t == StripEnd(t) + post
  {
    var r := StripEnd(t);
    SplitAt(t, |r|);
    post := t[|r|..];
  }

  /** Stripping whitespace-padded text gives back the text, whatever the
      padding. */
  lemma StripPadded(pre: string, t: string, post: string)
    requires AllSpace(pre) && AllSpace(post)
    requires t == [] || (!IsSpace(t[0]) && !IsSpace(t[|t| - 1]))
    ensures Strip(pre + t + post) == t
  {
    if t == [] {
      StripStartSpaces(pre + t + post);
    } else {
      assert pre + t + post == pre + (t + post);
      StripStartPadded(pre, t + post);
      StripEndPadded(t, post);
    }
  }

  lemma {:induction false} StripStartPadded(pre: string, rest: string)
    requires AllSpace(pre)
    requires rest == [] || !IsSpace(rest[0])
    ensures StripStart(pre + rest) == rest
    decreases |pre|
  {
    if pre == [] {
      assert pre + rest == rest;
    } else {
      assert (pre + rest)[1..] == pre[1..] + rest;
      StripStartPadded(pre[1..], rest);
    }
  }

  lemma {:induction false} StripStartSpaces(s: string)
    requires AllSpace(s)
    ensures StripStart(s) == []
    decreases |s|
  {
    if s != [] {
      StripStartSpaces(s[1..]);
    }
  }

  lemma {:induction false} StripEndPadded(t: string, post: string)
    requires AllSpace(post)
    requires t != [] && !IsSpace(t[|t| - 1])
    ensures StripEnd(t + post) == t
    decreases |post|
  {
    if post == [] {
      assert t + post == t;
    } else {
      assert (t + post)[..|t + post| - 1] == t + post[..|post| - 1];
      StripEndPadded(t, post[..|post| - 1]);
    }
  }

  lemma StripIdempotent(s: string)
    ensures Strip(Strip(s)) == Strip(s)
  {
  }

  // ---------------------------------------------------------------------
  // _parse_response

  const Fence: string := "```"
  const JsonFence: string := "```json"

  /** `s[len(prefix):]` when `s` starts with `prefix`, else `s`. */
  function DropPrefix(s: string, prefix: string): (r: string)
    ensures StartsWith(s, prefix) ==> s == prefix + r
    ensures !StartsWith(s, prefix) ==> r == s
  {
    if StartsWith(s, prefix) then s[|prefix|..] else s
  }

  /** `s[:-len(suffix)]` when `s` ends with `suffix`, else `s`. */
  function DropSuffix(s: string, suffix: string): (r: string)
    ensures EndsWith(s, suffix) ==> s == r + suffix
    ensures !EndsWith(s, suffix) ==> r == s
  {
    if EndsWith(s, suffix) then s[..|s| - |suffix|] else s
  }

  /** The text handed to `json.loads`: stripped, then a leading "```json"
      removed, then a leading "```", then a trailing "```", each at most once
      and in that order. */
  function CleanResponse(text: string): string {
    DropSuffix(DropPrefix(DropPrefix(Strip(text), JsonFence), Fence), Fence)
  }

  lemma JsonFenceIsFence(s: string)
    requires StartsWith(s, JsonFence)
    ensures StartsWith(s, Fence)
  {
    assert s[..3] == s[..7][..3];
  }

  /** Text without fences reaches the parser only stripped, and any fence
      changes what it receives. */
  lemma UnfencedOnlyStripped(text: string)
    ensures CleanResponse(text) == Strip(text) <==>
              !StartsWith(Strip(text), Fence) && !EndsWith(Strip(text), Fence)
  {
    var s0 := Strip(text);
    var s1 := DropPrefix(s0, JsonFence);
    var s2 := DropPrefix(s1, Fence);
    var s3 := DropSuffix(s2, Fence);
    assert |s3| <= |s2| <= |s1| <= |s0|;
    if StartsWith(s0, JsonFence) {
      JsonFenceIsFence(s0);
      assert |s1| < |s0|;
    } else if StartsWith(s0, Fence) {
      assert |s2| < |s1|;
    } else if EndsWith(s0, Fence) {
      assert |s3| < |s2|;
    }
  }

  /** The body after an opening fence whose body does not itself begin with
      a backtick, closing fence included, loses only the closing fence. */
  lemma ClosingFenceRemoved(body: string)
    requires body == [] || body[0] != '`'
    ensures DropSuffix(DropPrefix(body + Fence, Fence), Fence) == body
  {
    if body == [] {
      assert body + Fence == Fence;
    } else {
      assert (body + Fence)[0] == body[0];
      assert !StartsWith(body + Fence, Fence);
      assert EndsWith(body + Fence, Fence);
    }
  }

  /** A reply wrapped in a "```json" fence is unwrapped to its body. */
  lemma JsonFenceRemoved(pre: string, body: string, post: string)
    requires AllSpace(pre) && AllSpace(post)
    requires body == [] || body[0] != '`'
    ensures CleanResponse(pre + (JsonFence + body + Fence) + post) == body
  {
    var fenced := JsonFence + (body + Fence);
    assert JsonFence + body + Fence == fenced;
    assert fenced[0] == '`' && fenced[|fenced| - 1] == '`';
    StripPadded(pre, fenced, post);
    assert StartsWith(fenced, JsonFence);
    ClosingFenceRemoved(body);
  }

  lemma OpeningFenceNotJson(body: string)
    requires !StartsWith(body, "json")
    ensures !StartsWith(Fence + (body + Fence), JsonFence)
  {
    var f := Fence + (body + Fence);
    if |body| >= 4 {
      assert f[3..7] == body[..4];
    } else {
      assert f[3 + |body|] == '`';
    }
  }

  /** A reply wrapped in a bare "```" fence is unwrapped to its body. */
  lemma PlainFenceRemoved(pre: string, body: string, post: string)
    requires AllSpace(pre) && AllSpace(post)
    requires body == [] || body[0] != '`'
    requires !StartsWith(body, "json")
    ensures CleanResponse(pre + (Fence + body + Fence) + post) == body
  {
    var fenced := Fence + (body + Fence);
    assert Fence + body + Fence == fenced;
    assert fenced[0] == '`' && fenced[|fenced| - 1] == '`';
    StripPadded(pre, fenced, post);
    OpeningFenceNotJson(body);
    assert StartsWith(fenced, Fence);
    ClosingFenceRemoved(body);
  }

  /** Python's `text[:n]`. */
  function Prefix(text: string, n: nat): (r: string)
    ensures |r| <= n && StartsWith(text, r)
    ensures |text| >= n ==> |r| == n
    ensures |text| < n ==> r == text
  {
    if |text| <= n then text else text[..n]
  }

  /** The fallback when the cleaned reply is not valid JSON. */
  function ParseFallback(text: string): AIInsights {
    AIInsights(Prefix(text, 250) + "...", [ParseFinding], [ParseAdvice])
  }

  /** `_parse_response`: the decoded cleaned text, or the fallback built
      from the ORIGINAL text. */
  function ParseResponse<J>(text: string, loads: string -> Option<J>): (r: Outcome<J>)
    ensures r.Decoded? <==> loads(CleanResponse(text)).Some?
    ensures r.Decoded? ==> loads(CleanResponse(text)) == Some(r.doc)
    ensures r.Fixed? ==>
              var s := r.insights.summary;
              |s| <= 253 && EndsWith(s, "...") && s[..|s| - 3] == Prefix(text, 250)
              && (|text| < 250 ==> s == text + "...")
              && (|text| >= 250 ==> s == text[..250] + "...")
              && r.insights.keyFindings == [ParseFinding]
              && r.insights.recommendations == [ParseAdvice]
    ensures r.Fixed? ==> r.insights == ParseFallback(text)
  {
    match loads(CleanResponse(text))
    case Some(doc) => Decoded(doc)
    case None =>
      var f := ParseFallback(text);
      assert f.summary[..|f.summary| - 3] == Prefix(text, 250);
      Fixed(f)
  }

  // ---------------------------------------------------------------------
  // The service

  class AIService {
    /** The configured model's name, or `None` without an API key. */
    var model: Option<string>

    /** `__init__`: a model exactly when `GEMINI_API_KEY` is set and
        non-empty. */
    constructor(apiKey: Option<string>)
      ensures model.None? <==> (apiKey.None? || apiKey.value == "")
      ensures model.Some? ==> model.value == ModelName
    {
      if apiKey.None? || apiKey.value == "" {
        model := None;
      } else {
        model := Some(ModelName);
      }
    }

    /** `generate_insights`, with the model's answer given as `reply`. */
    function GenerateInsights<J>(reply: Reply, loads: string -> Option<J>): (r: Outcome<J>)
      reads this
      ensures model.None? ==> r == Fixed(AIInsights(Unavailable, [], []))
      ensures model.Some? && reply.Raised? ==>
                r == Fixed(AIInsights(ErrorSummary, ["Error Details: " + reply.message], [ErrorAdvice]))
      ensures model.Some? && reply.Text? ==> r == ParseResponse(reply.text, loads)
    {
      if model.None? then Fixed(AIInsights(Unavailable, [], []))
      else
        match reply
        case Raised(message) => Fixed(AIInsights(ErrorSummary, ["Error Details: " + message], [ErrorAdvice]))
        case Text(text) => ParseResponse(text, loads)
    }
  }

  // ---------------------------------------------------------------------
  // What the dashboard makes of the fallbacks

  /** Without a model the dashboard shows the rule-based view, since the
      sentinel summary contains "unavailable". */
  lemma MissingKeyShowsRuleBased(service: AIService, reply: Reply, loads: string -> Option<AIInsights>)
    requires service.model.None?
    ensures var r := service.GenerateInsights(reply, loads);
            r.Fixed? && !AnalysisInsights.UsesAIView(Some(r.insights))
  {
    ContainsMiddle("AI Insights ", "unavailable", " (API Key missing).");
  }

  lemma ErrorSummaryAvailable()
    ensures !Contains(ErrorSummary, "unavailable")
  {
    assert 'v' !in "Error ";
    assert 'v' !in "analyzing ";
    assert 'v' !in "data with AI.";
    assert 'v' in "unavailable";
    NotContainsWithout(ErrorSummary, "unavailable", 'v');
  }

  /** A failed model call is shown in AI mode: its summary lacks
      "unavailable". */
  lemma FailedCallShowsAI(service: AIService, message: string, loads: string -> Option<AIInsights>)
    requires service.model.Some?
    ensures var r := service.GenerateInsights(Raised(message), loads);
            r.Fixed? && |r.insights.keyFindings| == 1 && |r.insights.recommendations| == 1
            && AnalysisInsights.UsesAIView(Some(r.insights))
  {
    ErrorSummaryAvailable();
  }

  /** An unparsable reply is shown in AI mode unless its first 250
      characters contain "unavailable". */
  lemma UnparsableReplyView<J>(text: string, loads: string -> Option<J>)
    requires loads(CleanResponse(text)).None?
    ensures var r := ParseResponse(text, loads);
            r.Fixed? && (AnalysisInsights.UsesAIView(Some(r.insights)) <==> !Contains(Prefix(text, 250), "unavailable"))
  {
    FallbackView(text);
  }

  /** The fallback's summary contains "unavailable" iff its first 250
      characters do: the appended "..." cannot complete the word. */
  lemma FallbackView(text: string)
    ensures AnalysisInsights.UsesAIView(Some(ParseFallback(text))) <==> !Contains(Prefix(text, 250), "unavailable")
  {
    var p := Prefix(text, 250);
    var s := p + "...";
    if Contains(s, "unavailable") {
      var i :| 0 <= i <= |s| - 11 && OccursAt(s, "unavailable", i);
      assert s[i + 10] == 'e';
      assert i + 10 < |p|;
      assert p[i..i + 11] == s[i..i + 11];
      ContainsWitness(p, "unavailable", i);
    }
    if Contains(p, "unavailable") {
      var i :| 0 <= i <= |p| - 11 && OccursAt(p, "unavailable", i);
      assert s[i..i + 11] == p[i..i + 11];
      ContainsWitness(s, "unavailable", i);
    }
  }
}
