/** The inference-endpoint provider (`HuggingFaceProvider`): it wraps a
    prompt in the Mistral instruction delimiters, posts it to the hosted
    inference API, pulls a JSON-looking substring out of the generated
    text, and accepts an embedding only when it is a flat numeric array. */
module HuggingFace {
  import opened Types
  import opened Strings

  const ApiUrl: string := "https://api-inference.huggingface.co/models/"
  const DefaultTextModel: string := "mistralai/Mistral-7B-Instruct-v0.3"
  const DefaultEmbedModel: string := "sentence-transformers/all-MiniLM-L6-v2"
  const MissingKeyText: string := "HuggingFace API Key missing."
  const MaxNewTokens: nat := 512
  const JsonInstructionHead: string := "You are a strict JSON generator. Output valid JSON only. "
  const InstOpen: string := "<s>[INST] "
  const InstClose: string := " [/INST]"

  /** The provider's configuration, fixed at construction. */
  datatype HuggingFaceProvider = HuggingFaceProvider(apiKey: Option<string>, textModel: string, embedModel: string)

  /** The constructor with its default model names. */
  function New(apiKey: Option<string>): (p: HuggingFaceProvider)
    ensures p.apiKey == apiKey
    ensures p.textModel == DefaultTextModel && p.embedModel == DefaultEmbedModel
  {
    HuggingFaceProvider(apiKey, DefaultTextModel, DefaultEmbedModel)
  }

  /** The Mistral instruction format. The prompt sits right before the
      closing delimiter; a given system instruction sits right after the
      opening one, separated from the prompt by a blank line. */
  function FormatPrompt(prompt: string, system: Option<string>): (r: string)
    ensures StartsWith(r, InstOpen)
    ensures |r| >= |InstClose| + |prompt| && r[|r| - |InstClose|..] == InstClose
    ensures r[|r| - |InstClose| - |prompt|..|r| - |InstClose|] == prompt
    ensures Given(system) ==>
      |r| == |InstOpen| + |system.value| + 2 + |prompt| + |InstClose|
      && r[|InstOpen|..|InstOpen| + |system.value|] == system.value
      && r[|InstOpen| + |system.value|..|InstOpen| + |system.value| + 2] == "\n\n"
    ensures !Given(system) ==> |r| == |InstOpen| + |prompt| + |InstClose|
  {
    if Given(system) then InstOpen + system.value + "\n\n" + prompt + InstClose
    else InstOpen + prompt + InstClose
  }

  /** The message a non-2xx reply raises: "Model is loading" when the
      body's `error` is a string or array that includes "loading", a
      TypeError when `error` has no callable `includes`, and otherwise
      "HF Error <status>: <body>". */
  function ClassifyFailure(status: int, errorBody: Json): (e: Error)
    ensures e == ModelLoading <==>
      (exists t :: Field(errorBody, "error") == Some(Str(t)) && Contains(t, "loading"))
      || (exists xs :: Field(errorBody, "error") == Some(Arr(xs)) && Str("loading") in xs)
    ensures e == TypeError <==>
      Field(errorBody, "error").Some?
      && (Field(errorBody, "error").value.Bool? || Field(errorBody, "error").value.Number?
          || Field(errorBody, "error").value.Obj?)
    ensures e != ModelLoading && e != TypeError ==> e == HfHttpError(status, errorBody)
  {
    match Field(errorBody, "error")
    case Some(Str(t)) => if Contains(t, "loading") then ModelLoading else HfHttpError(status, errorBody)
    case Some(Arr(xs)) => if Str("loading") in xs then ModelLoading else HfHttpError(status, errorBody)
    case Some(Bool(_)) => TypeError
    case Some(Number(_)) => TypeError
    case Some(Obj(_)) => TypeError
    case _ => HfHttpError(status, errorBody)
  }

  /** The private `query`: refuses without a key, otherwise posts one
      request and turns the reply into its parsed body or an error. An
      unreadable error body counts as `{}`. */
  function Query(p: HuggingFaceProvider, model: string, payload: HfPayload, env: Backends): (r: Reply<Json>)
    ensures !Given(p.apiKey) ==> r == Reply(Err(HfKeyNotConfigured), [])
    ensures Given(p.apiKey) ==> r.sent == [ToHf(HfRequest(ApiUrl + model, "Bearer " + p.apiKey.value, payload))]
    ensures Given(p.apiKey) ==> var resp := env.hf(r.sent[0].hf);
      && (r.result.Ok? <==> resp.OkBody? && resp.body.Some?)
      && (r.result.Ok? ==> r.result.value == resp.body.value)
      && (resp.NotOk? ==> r.result == Err(ClassifyFailure(resp.status, if resp.errorBody.Some? then resp.errorBody.value else EmptyObject)))
      && (resp.NetworkFailure? ==> r.result == Err(NetworkError))
      && (resp.OkBody? && resp.body.None? ==> r.result == Err(InvalidResponseBody))
  {
    if !Given(p.apiKey) then Reply(Err(HfKeyNotConfigured), [])
    else
      var req := HfRequest(ApiUrl + model, "Bearer " + p.apiKey.value, payload);
      var result :=
        match env.hf(req)
        case NetworkFailure => Err(NetworkError)
        case NotOk(status, body) =>
          Err(ClassifyFailure(status, if body.Some? then body.value else EmptyObject))
        case OkBody(None) => Err(InvalidResponseBody)
        case OkBody(Some(j)) => Ok(j);
      Reply(result, [ToHf(req)])
  }

  /** `result[0]?.generated_text` of a parsed reply, when the reply is a
      non-empty array whose first element carries that field. */
  function FirstGenerated(j: Json): Option<Json>
  {
    if j.Arr? && |j.items| > 0 then Field(j.items[0], "generated_text") else None
  }

  /** What `generateText` makes of a parsed reply: the trimmed
      `generated_text` of the first element of an array when that is a
      string, `""` when it is missing or falsy, and a TypeError when it is
      truthy but not a string (`trim` is not a function). */
  function GeneratedText(j: Json): (r: Result<string>)
    ensures FirstGenerated(j).Some? && FirstGenerated(j).value.Str? ==>
      r == Ok(Trim(FirstGenerated(j).value.s))
    ensures !(FirstGenerated(j).Some? && Truthy(FirstGenerated(j).value)) ==> r == Ok("")
    ensures r.Err? <==>
      FirstGenerated(j).Some? && Truthy(FirstGenerated(j).value) && !FirstGenerated(j).value.Str?
    ensures r.Err? ==> r.error == TypeError
    ensures r.Ok? ==> Trimmed(r.value)
  {
    match FirstGenerated(j)
    case Some(g) =>
      if g.Str? then
        assert g.s == "" ==> Trim(g.s) == "";
        Ok(Trim(g.s))
      else if !Truthy(g) then Ok("")
      else Err(TypeError)
    case None => Ok("")
  }

  /** `generateText`: without a key the fixed placeholder and no request;
      otherwise one text-generation request carrying the wrapped prompt,
      whose errors propagate unchanged. */
  function GenerateText(p: HuggingFaceProvider, prompt: string, system: Option<string>, env: Backends): (r: Reply<string>)
    ensures !Given(p.apiKey) ==> r == Reply(Ok(MissingKeyText), [])
    ensures Given(p.apiKey) ==>
      |r.sent| == 1 && r.sent[0].ToHf?
      && r.sent[0].hf.payload == TextGeneration(FormatPrompt(prompt, system), MaxNewTokens, false)
      && r.sent[0].hf.url == ApiUrl + p.textModel
    ensures Given(p.apiKey) ==> var q := Query(p, p.textModel, r.sent[0].hf.payload, env);
      && (q.result.Err? ==> r.result == Err(q.result.error))
      && (q.result.Ok? ==> r.result == GeneratedText(q.result.value))
  {
    if !Given(p.apiKey) then Reply(Ok(MissingKeyText), [])
    else
      var q := Query(p, p.textModel, TextGeneration(FormatPrompt(prompt, system), MaxNewTokens, false), env);
      match q.result
      case Err(e) => Reply(Err(e), q.sent)
      case Ok(j) => Reply(GeneratedText(j), q.sent)
  }

  predicate IsOpener(c: char)
  {
    c == '{' || c == '['
  }

  /** The closing bracket the pattern pairs with an opening one. */
  function CloserOf(c: char): char
  {
    if c == '{' then '}' else ']'
  }

  /** Some `closer` occurs strictly after position `i`. */
  predicate CloserAfter(s: string, i: nat, closer: char)
  {
    exists j | i < j < |s| :: s[j] == closer
  }

  /** A match of `/\{[\s\S]*\}|\[[\s\S]*\]/` can start at `i`. */
  predicate OpensAt(s: string, i: nat)
  {
    i < |s| && IsOpener(s[i]) && CloserAfter(s, i, CloserOf(s[i]))
  }

  /** `s.lastIndexOf(c)`, -1 when `c` does not occur. */
  function LastIndexOf(s: string, c: char): (k: int)
    ensures -1 <= k < |s|
    ensures k >= 0 ==> s[k] == c
    ensures forall j | k < j < |s| :: s[j] != c
  {
    if s == [] then -1
    else if s[|s| - 1] == c then |s| - 1
    else LastIndexOf(s[..|s| - 1], c)
  }

  /** The first position at or after `from` where a match can start,
      `|s|` when there is none. */
  function FirstOpener(s: string, from: nat): (k: nat)
    requires from <= |s|
    ensures from <= k <= |s|
    ensures k < |s| ==> OpensAt(s, k)
    ensures forall j | from <= j < k :: !OpensAt(s, j)
    decreases |s| - from
  {
    if from == |s| then |s|
    else if OpensAt(s, from) then from
    else FirstOpener(s, from + 1)
  }

  /** The half-open range `s[start..end]` of a regex match. */
  datatype Span = Span(start: nat, end: nat)

  /** Where the regex matches: from the leftmost opener that has a later
      closer of its kind, greedily to the last such closer in the text. */
  function JsonSpan(s: string): (r: Option<Span>)
    ensures r.None? <==> forall i | 0 <= i < |s| :: !OpensAt(s, i)
    ensures r.Some? ==>
      && r.value.start + 2 <= r.value.end <= |s|
      && OpensAt(s, r.value.start)
      && (forall i | 0 <= i < r.value.start :: !OpensAt(s, i))
      && s[r.value.end - 1] == CloserOf(s[r.value.start])
      && (forall j | r.value.end <= j < |s| :: s[j] != CloserOf(s[r.value.start]))
  {
    var k := FirstOpener(s, 0);
    if k == |s| then None
    else
      var last := LastIndexOf(s, CloserOf(s[k]));
      assert k < last by {
        var j :| k < j < |s| && s[j] == CloserOf(s[k]);
      }
      Some(Span(k, last + 1))
  }

  /** `responseText.match(...)[0]`, or `None` when the regex does not match. */
  function ExtractJson(s: string): (r: Option<string>)
    ensures r.Some? ==> |r.value| >= 2 && IsOpener(r.value[0]) && r.value[|r.value| - 1] == CloserOf(r.value[0])
    ensures r.Some? ==> JsonSpan(s).Some? && r.value == s[JsonSpan(s).value.start..JsonSpan(s).value.end]
    ensures r.None? <==> forall i | 0 <= i < |s| :: !OpensAt(s, i)
  {
    match JsonSpan(s)
    case None => None
    case Some(sp) =>
      Some(s[sp.start..sp.end])
  }

  /** Text that is already one bracketed value passes through unchanged. */
  lemma ExtractJsonKeepsBracketed(s: string)
    requires |s| >= 2 && IsOpener(s[0]) && s[|s| - 1] == CloserOf(s[0])
    ensures ExtractJson(s) == Some(s)
  {
    assert s[|s| - 1] == CloserOf(s[0]);
    assert OpensAt(s, 0);
    var sp := JsonSpan(s).value;
    assert sp.start == 0;
    assert sp.end == |s|;
    assert s[sp.start..sp.end] == s;
  }

  /** The text extraction finds nothing in: no opener has a later closer of
      its kind. */
  predicate NoBracketedSpan(s: string)
  {
    forall i, j | 0 <= i < j < |s| :: !(IsOpener(s[i]) && s[j] == CloserOf(s[i]))
  }

  /** The regex fails exactly on text without an opener followed later by
      its closer. */
  lemma ExtractJsonNoneIff(s: string)
    ensures ExtractJson(s).None? <==> NoBracketedSpan(s)
  {
    if ExtractJson(s).None? {
      forall i, j | 0 <= i < j < |s| && IsOpener(s[i])
        ensures s[j] != CloserOf(s[i])
      {
        assert !OpensAt(s, i);
      }
    } else {
      var k := JsonSpan(s).value.start;
      assert OpensAt(s, k);
      var j :| k < j < |s| && s[j] == CloserOf(s[k]);
    }
  }

  /** `generateJSON`: ask for text under a strict-JSON instruction, keep
      the regex match (or the whole text), and parse it. Transport errors
      propagate; any parse failure becomes one fixed error. */
  function GenerateJson(p: HuggingFaceProvider, prompt: string, schema: string, env: Backends): (r: Reply<Json>)
    ensures var t := GenerateText(p, prompt, Some(JsonInstructionHead + schema), env);
      && r.sent == t.sent
      && (t.result.Err? ==> r.result == Err(t.result.error))
      && (t.result.Ok? ==>
            var clean := if ExtractJson(t.result.value).Some? then ExtractJson(t.result.value).value else t.result.value;
            && (env.parse(clean).None? ==> r.result == Err(HfParseFailure))
            && (env.parse(clean).Some? ==> r.result == Ok(env.parse(clean).value)))
    ensures r.result.Err? ==> r.result.error != JsonSyntaxError
  {
    var t := GenerateText(p, prompt, Some(JsonInstructionHead + schema), env);
    match t.result
    case Err(e) => Reply(Err(e), t.sent)
    case Ok(text) =>
      var clean := match ExtractJson(text) case Some(m) => m case None => text;
      match env.parse(clean)
      case None => Reply(Err(HfParseFailure), t.sent)
      case Some(v) => Reply(Ok(v), t.sent)
  }

  /** `embed`: without a key `[]` and no request; otherwise one
      feature-extraction request that waits for the model, whose reply is
      kept only when it is an array whose first element is a number.
      Never throws. */
  function Embed(p: HuggingFaceProvider, text: string, env: Backends): (r: Reply<Vector>)
    ensures r.result.Ok?
    ensures !Given(p.apiKey) ==> r == Reply(Ok([]), [])
    ensures Given(p.apiKey) ==>
      r.sent == [ToHf(HfRequest(ApiUrl + p.embedModel, "Bearer " + p.apiKey.value, FeatureExtraction(text, true)))]
    ensures r.result.value != [] ==> r.result.value[0].Number?
    ensures Given(p.apiKey) ==> var resp := env.hf(r.sent[0].hf);
      && (r.result.value != [] <==>
            resp.OkBody? && resp.body.Some? && resp.body.value.Arr?
            && |resp.body.value.items| > 0 && resp.body.value.items[0].Number?)
      && (r.result.value != [] ==> r.result.value == resp.body.value.items)
  {
    if !Given(p.apiKey) then Reply(Ok([]), [])
    else
      var q := Query(p, p.embedModel, FeatureExtraction(text, true), env);
      match q.result
      case Err(_) => Reply(Ok([]), q.sent)
      case Ok(j) =>
        if j.Arr? && |j.items| > 0 && j.items[0].Number? then Reply(Ok(j.items), q.sent)
        else Reply(Ok([]), q.sent)
  }

  /** A nested (batched) embedding is not unwrapped: it yields `[]`. */
  lemma EmbedRejectsNested(p: HuggingFaceProvider, text: string, env: Backends, inner: seq<Json>)
    requires Given(p.apiKey)
    requires env.hf(HfRequest(ApiUrl + p.embedModel, "Bearer " + p.apiKey.value, FeatureExtraction(text, true)))
      == OkBody(Some(Arr([Arr(inner)])))
    ensures Embed(p, text, env).result == Ok([])
  {
  }

  /** The first character of any text `JSON.parse` accepts, once leading
      whitespace is skipped. */
  predicate JsonStart(c: char)
  {
    c in "{[\"-0123456789tfn"
  }

  /** `JSON.parse` only accepts text whose first non-blank character can
      begin a JSON value. */
  ghost predicate ParsesOnlyJsonText(parse: string -> Option<Json>)
  {
    forall s :: parse(s).Some? ==> TrimStart(s) != [] && JsonStart(TrimStart(s)[0])
  }

  lemma MissingKeyTextHasNoBrackets()
    ensures ExtractJson(MissingKeyText).None?
  {
    var s := MissingKeyText;
    assert '{' !in s && '[' !in s;
    forall i | 0 <= i < |s| ensures !OpensAt(s, i) {
      assert s[i] in s;
    }
  }

  /** The no-key placeholder is not JSON text. */
  lemma MissingKeyTextIsNotJson(parse: string -> Option<Json>)
    requires ParsesOnlyJsonText(parse)
    ensures parse(MissingKeyText).None?
  {
    var s := MissingKeyText;
    assert s[0] == 'H';
    assert TrimStart(s) == s;
    assert !JsonStart(s[0]);
  }

  /** Without a key, `generateJSON` throws rather than returning an empty
      value: the placeholder text has no brackets and is not JSON. */
  lemma GenerateJsonWithoutKeyFails(p: HuggingFaceProvider, prompt: string, schema: string, env: Backends)
    requires !Given(p.apiKey)
    requires ParsesOnlyJsonText(env.parse)
    ensures GenerateJson(p, prompt, schema, env) == Reply(Err(HfParseFailure), [])
  {
    var t := GenerateText(p, prompt, Some(JsonInstructionHead + schema), env);
    assert t == Reply(Ok(MissingKeyText), []);
    MissingKeyTextHasNoBrackets();
    MissingKeyTextIsNotJson(env.parse);
  }
}
