/** The hosted-LLM provider (`GeminiProvider`): it prepends the system
    instruction, asks for JSON by appending an instruction, strips code
    fences from the reply before parsing, and swallows embedding errors. */
module Gemini {
  import opened Types
  import opened Strings

  const DefaultModelName: string := "gemini-2.0-flash"
  const EmbeddingModel: string := "text-embedding-004"
  const MissingKeyText: string := "Gemini API Key missing."
  const JsonFence: string := "```json"
  const JsonRequestHead: string := "\n\nOutput ONLY a valid JSON object matching this description: "
  const JsonRequestTail: string := ". Do not use markdown code blocks."

  /** The provider's configuration, fixed at construction; the SDK client
      exists exactly when the key is given. */
  datatype GeminiProvider = GeminiProvider(apiKey: Option<string>, modelName: string)

  function New(apiKey: Option<string>): (p: GeminiProvider)
    ensures p.apiKey == apiKey && p.modelName == DefaultModelName
  {
    GeminiProvider(apiKey, DefaultModelName)
  }

  /** The text prompt: a given system instruction, a blank line, then the
      prompt; the prompt alone otherwise. The prompt always ends it. */
  function ComposePrompt(prompt: string, system: Option<string>): (r: string)
    ensures |r| >= |prompt| && r[|r| - |prompt|..] == prompt
    ensures !Given(system) ==> r == prompt
    ensures Given(system) ==>
      |r| == |system.value| + 2 + |prompt| && StartsWith(r, system.value)
      && r[|system.value|..|system.value| + 2] == "\n\n"
  {
    if Given(system) then system.value + "\n\n" + prompt else prompt
  }

  /** The JSON prompt: the prompt, then the request for a bare JSON object
      described by `schema`. */
  function JsonPrompt(prompt: string, schema: string): (r: string)
    ensures StartsWith(r, prompt)
    ensures |r| == |prompt| + |JsonRequestHead| + |schema| + |JsonRequestTail|
    ensures r[|prompt|..|prompt| + |JsonRequestHead|] == JsonRequestHead
    ensures r[|prompt| + |JsonRequestHead|..|prompt| + |JsonRequestHead| + |schema|] == schema
    ensures r[|r| - |JsonRequestTail|..] == JsonRequestTail
  {
    prompt + JsonRequestHead + schema + JsonRequestTail
  }

  /** The reply's sanitisation: drop every "```json", then every "```",
      then trim. The result holds no fence and no outer whitespace. */
  function Sanitize(text: string): (r: string)
    ensures !Contains(r, Fence)
    ensures Trimmed(r)
    ensures |r| <= |text|
  {
    var unfenced := RemoveAll(RemoveAll(text, JsonFence), Fence);
    RemoveAllFencesLeavesNone(RemoveAll(text, JsonFence));
    TrimKeepsAbsence(unfenced, Fence);
    Trim(unfenced)
  }

  /** A fenced JSON block sanitises to exactly what the fence enclosed,
      when that has no backtick and no outer whitespace. */
  lemma SanitizeUnfences(x: string)
    requires forall i | 0 <= i < |x| :: x[i] != '`'
    requires Trimmed(x)
    ensures Sanitize(JsonFence + "\n" + x + "\n" + Fence) == x
  {
    var body := "\n" + x + "\n";
    var s := JsonFence + "\n" + x + "\n" + Fence;
    assert s == JsonFence + (body + Fence);
    assert StartsWith(s, JsonFence);
    assert s[|JsonFence|..] == body + Fence;
    RemoveAllPlainPrefix(body, Fence, JsonFence);
    assert !Contains(Fence, JsonFence) by {
      assert !StartsWith(Fence, JsonFence);
      assert !StartsWith(Fence[1..], JsonFence);
      assert !StartsWith(Fence[1..][1..], JsonFence);
      assert !StartsWith(Fence[1..][1..][1..], JsonFence);
    }
    assert RemoveAll(s, JsonFence) == body + Fence;
    RemoveAllPlainPrefix(body, Fence, Fence);
    assert RemoveAll(Fence, Fence) == RemoveAll([], Fence);
    assert RemoveAll(body + Fence, Fence) == body;
    assert AllWhitespace("\n");
    TrimPadded("\n", x, "\n");
  }

  /** The worked example: a ```json block around {"a":1} sanitises to the
      bare object text. */
  lemma SanitizeExample()
    ensures Sanitize("```json\n{\"a\":1}\n```") == "{\"a\":1}"
  {
    var x := "{\"a\":1}";
    assert '`' !in x;
    forall i | 0 <= i < |x| ensures x[i] != '`' {
      assert x[i] in x;
    }
    assert "```json\n{\"a\":1}\n```" == JsonFence + "\n" + x + "\n" + Fence;
    SanitizeUnfences(x);
  }

  /** `generateText`: without a key the fixed placeholder and no request;
      otherwise one generation request carrying the composed prompt, whose
      text comes back as is and whose failure propagates. */
  function GenerateText(p: GeminiProvider, prompt: string, system: Option<string>, env: Backends): (r: Reply<string>)
    ensures !Given(p.apiKey) ==> r == Reply(Ok(MissingKeyText), [])
    ensures Given(p.apiKey) ==>
      && r.sent == [ToGemini(GenerateContent(p.modelName, ComposePrompt(prompt, system)))]
      && (r.result.Ok? <==> env.gemini(r.sent[0].gemini).Text?)
      && (r.result.Ok? ==> r.result.value == env.gemini(r.sent[0].gemini).text)
      && (r.result.Err? ==> r.result.error == GeminiRequestFailed)
  {
    if !Given(p.apiKey) then Reply(Ok(MissingKeyText), [])
    else
      var req := GenerateContent(p.modelName, ComposePrompt(prompt, system));
      match env.gemini(req)
      case Text(t) => Reply(Ok(t), [ToGemini(req)])
      case _ => Reply(Err(GeminiRequestFailed), [ToGemini(req)])
  }

  /** `generateJSON`: without a key `{}` and no request; otherwise one
      generation request carrying the JSON prompt. The sanitised reply is
      parsed as a whole (no substring is extracted); a parse failure and a
      transport failure both propagate. */
  function GenerateJson(p: GeminiProvider, prompt: string, schema: string, env: Backends): (r: Reply<Json>)
    ensures !Given(p.apiKey) ==> r == Reply(Ok(EmptyObject), [])
    ensures Given(p.apiKey) ==>
      && r.sent == [ToGemini(GenerateContent(p.modelName, JsonPrompt(prompt, schema)))]
      && var resp := env.gemini(r.sent[0].gemini);
      && (!resp.Text? ==> r.result == Err(GeminiRequestFailed))
      && (resp.Text? ==>
            && (env.parse(Sanitize(resp.text)).None? ==> r.result == Err(JsonSyntaxError))
            && (env.parse(Sanitize(resp.text)).Some? ==> r.result == Ok(env.parse(Sanitize(resp.text)).value)))
  {
    if !Given(p.apiKey) then Reply(Ok(EmptyObject), [])
    else
      var req := GenerateContent(p.modelName, JsonPrompt(prompt, schema));
      match env.gemini(req)
      case Text(t) =>
        (match env.parse(Sanitize(t))
         case None => Reply(Err(JsonSyntaxError), [ToGemini(req)])
         case Some(v) => Reply(Ok(v), [ToGemini(req)]))
      case _ => Reply(Err(GeminiRequestFailed), [ToGemini(req)])
  }

  /** The SDK's embedding values as the vector the layer hands on. */
  function ToVector(values: seq<real>): (v: Vector)
    ensures |v| == |values|
    ensures forall i | 0 <= i < |v| :: v[i] == Number(values[i])
  {
    seq(|values|, i requires 0 <= i < |values| => Number(values[i]))
  }

  /** `embed`: without a key `[]` and no request; otherwise one request to
      the embedding model, whose values come back and whose failure gives
      `[]`. Never throws. */
  function Embed(p: GeminiProvider, text: string, env: Backends): (r: Reply<Vector>)
    ensures r.result.Ok?
    ensures !Given(p.apiKey) ==> r == Reply(Ok([]), [])
    ensures Given(p.apiKey) ==>
      && r.sent == [ToGemini(EmbedContent(EmbeddingModel, text))]
      && var resp := env.gemini(r.sent[0].gemini);
      && (resp.Values? ==> r.result.value == ToVector(resp.values))
      && (!resp.Values? ==> r.result.value == [])
  {
    if !Given(p.apiKey) then Reply(Ok([]), [])
    else
      var req := EmbedContent(EmbeddingModel, text);
      match env.gemini(req)
      case Values(vs) => Reply(Ok(ToVector(vs)), [ToGemini(req)])
      case _ => Reply(Ok([]), [ToGemini(req)])
  }
}
