/** backend/groq_service.py: the cached client, the clean-up of the model's
    reply, the capitalised severity and the two fixed fallback analyses. The
    chat-completion call is an input (`Reply`) and `json.loads` is the
    parameter `parse`. */
module Groq {
  import opened Wrappers
  import opened Text
  import opened PyValue

  /** A created client; the module-level `client` variable caches one. */
  datatype Client = Client(apiKey: string)

  /** `get_client()`: the returned client and the cache afterwards. */
  function GetClient(cache: Option<Client>, apiKey: Option<string>): (r: (Option<Client>, Option<Client>))
    ensures cache.Some? ==> r == (cache, cache)
    ensures cache.None? && !Present(apiKey) ==> r == (None, None)
    ensures cache.None? && Present(apiKey) ==> r.0 == Some(Client(apiKey.value)) && r.1 == r.0
  {
    if cache.Some? then (cache, cache)
    else if !Present(apiKey) then (None, None)
    else (Some(Client(apiKey.value)), Some(Client(apiKey.value)))
  }

  /** Once a client exists, later calls return that same client even if the
      key in the environment has changed or gone. */
  lemma ClientCached(apiKey: Option<string>, laterKey: Option<string>)
    requires Present(apiKey)
    ensures var first := GetClient(None, apiKey);
            GetClient(first.1, laterKey).0 == first.0
  {
  }

  // ---------------------------------------------------------------------
  // Reply clean-up.
  // ---------------------------------------------------------------------

  /** Some '{' comes before some '}': the regular expression `\{.*\}`
      (with DOTALL) matches. */
  ghost predicate HasObject(text: string) {
    exists i, j :: 0 <= i < j < |text| && text[i] == '{' && text[j] == '}'
  }

  /** The greedy `\{.*\}` match, or the text unchanged when there is none:
      from the first '{' to the last '}' inclusive. */
  function ExtractObject(text: string): (r: string)
    ensures !HasObject(text) ==> r == text
    ensures HasObject(text) ==>
              && |r| >= 2 && r[0] == '{' && r[|r| - 1] == '}'
              && exists i :: OccursAt(text, r, i) && '{' !in text[..i] && '}' !in text[i + |r|..]
  {
    match FirstIndexOf(text, '{')
    case None => text
    case Some(i) =>
      match LastIndexOf(text, '}')
      case None => text
      case Some(j) =>
        if i < j then
          assert OccursAt(text, text[i..j + 1], i);
          text[i..j + 1]
        else
          assert !HasObject(text) by {
            forall a, b | 0 <= a < b < |text| && text[a] == '{'
              ensures text[b] != '}'
            {
              if b > j {
                assert text[j + 1..][b - j - 1] == text[b];
              }
            }
          }
          text
  }

  /** Extracting from an extracted object changes nothing. */
  lemma ExtractIdempotent(text: string)
    ensures ExtractObject(ExtractObject(text)) == ExtractObject(text)
  {
    var r := ExtractObject(text);
    if HasObject(text) {
      assert HasObject(r) by {
        assert r[0] == '{' && r[|r| - 1] == '}';
      }
      var i :| OccursAt(text, r, i) && '{' !in text[..i] && '}' !in text[i + |r|..];
      var r2 := ExtractObject(r);
      var k :| OccursAt(r, r2, k) && '{' !in r[..k] && '}' !in r[k + |r2|..];
      assert k == 0;
      assert |r2| == |r|;
    }
  }

  // ---------------------------------------------------------------------
  // analyze_defect.
  // ---------------------------------------------------------------------

  /** The chat-completion call: it raised (`CallFailed`, which also covers a
      reply whose content is not text), or it returned this content. */
  datatype Reply = CallFailed | Content(text: string)

  /** The analysis returned without an API key. */
  const MissingKeyFallback: Dict := map[
    "root_cause" := Str("API Key Missing"),
    "severity" := Str("High"),
    "immediate_action" := Str("Check Server Configuration"),
    "resolution_steps" := Str("Add GROQ_API_KEY to .env file"),
    "preventive_recommendations" := Str("N/A")]

  /** The analysis returned when anything in the call or the parsing raises. */
  const FailureFallback: Dict := map[
    "root_cause" := Str("AI Analysis Failed"),
    "severity" := Str("High"),
    "immediate_action" := Str("Manual Inspection Required"),
    "resolution_steps" := Str("Contact Technical Support"),
    "preventive_recommendations" := Str("Check API Quota or Connection")]

  /** The text handed to `json.loads`. */
  function CleanReply(content: string): string {
    ExtractObject(PyStrip(content))
  }

  /** A parsed reply with its severity capitalised; `None` when the severity
      is not a string, where `.capitalize()` raises. */
  function CapitalizeSeverity(d: Dict): (r: Option<Dict>)
    ensures "severity" !in d ==> r == Some(d)
    ensures "severity" in d ==> (r.Some? <==> d["severity"].Str?)
    ensures r.Some? ==> r.value.Keys == d.Keys
                        && forall k :: k in d && k != "severity" ==> r.value[k] == d[k]
    ensures r.Some? && "severity" in d ==> r.value["severity"] == Str(Capitalize(d["severity"].s))
  {
    if "severity" !in d then Some(d)
    else if d["severity"].Str? then Some(d["severity" := Str(Capitalize(d["severity"].s))])
    else None
  }

  /** `analyze_defect(defect_type, confidence, location_info)`: the analysis
      and the client cache afterwards. */
  function AnalyzeDefect(
    cache: Option<Client>, apiKey: Option<string>, reply: Reply, parse: string -> Option<Dict>)
    : (r: (Dict, Option<Client>))
    ensures r.1 == GetClient(cache, apiKey).1
    ensures GetClient(cache, apiKey).0.None? ==> r.0 == MissingKeyFallback
    ensures GetClient(cache, apiKey).0.Some? && reply.CallFailed? ==> r.0 == FailureFallback
    ensures GetClient(cache, apiKey).0.Some? && reply.Content? ==>
              match parse(CleanReply(reply.text))
              case None => r.0 == FailureFallback
              case Some(d) => r.0 == CapitalizeSeverity(d).GetOr(FailureFallback)
  {
    var (client, cache') := GetClient(cache, apiKey);
    if client.None? then (MissingKeyFallback, cache')
    else match reply
      case CallFailed => (FailureFallback, cache')
      case Content(text) =>
        match parse(CleanReply(text))
        case None => (FailureFallback, cache')
        case Some(d) => (CapitalizeSeverity(d).GetOr(FailureFallback), cache')
  }

  /** Without a key and a cached client the reply is never consulted: every
      reply gives the same fallback. */
  lemma NoKeyNoCall(apiKey: Option<string>, r1: Reply, r2: Reply, parse: string -> Option<Dict>)
    requires !Present(apiKey)
    ensures AnalyzeDefect(None, apiKey, r1, parse) == AnalyzeDefect(None, apiKey, r2, parse)
    ensures AnalyzeDefect(None, apiKey, r1, parse).0["severity"] == Str("High")
  {
  }

  /** Whatever happens, a severity in the returned analysis is a string that
      capitalising leaves unchanged. */
  lemma SeverityCapitalized(
    cache: Option<Client>, apiKey: Option<string>, reply: Reply, parse: string -> Option<Dict>)
    ensures var a := AnalyzeDefect(cache, apiKey, reply, parse).0;
            "severity" in a ==> a["severity"].Str? && Capitalize(a["severity"].s) == a["severity"].s
  {
    var a := AnalyzeDefect(cache, apiKey, reply, parse).0;
    if "severity" in a {
      if a == MissingKeyFallback || a == FailureFallback {
        assert a["severity"] == Str("High");
        assert Capitalize("High") == "High";
      } else {
        var d := parse(CleanReply(reply.text)).value;
        CapitalizeIdempotent(d["severity"].s);
      }
    }
  }
}
