/** The orchestrator (`AIOrchestrator`): one instance of each provider and a
    fixed routing and fallback policy per task. Each task returns, beside
    its outcome, the provider calls it made in order, so that "called once"
    and "not called" can be stated. */
module Orchestrator {
  import opened Types
  import opened Strings
  import HuggingFace
  import Gemini

  const ExtractionCharLimit: nat := 3000
  const InterviewCharLimit: nat := 1000

  const TailorHead: string := "You are an expert Resume Tailor. Rewrite the following RESUME to match the JOB DESCRIPTION.\n      \n      RESUME:\n      "
  const TailorMiddle: string := "\n\n      JOB DESCRIPTION:\n      "
  const TailorTail: string := "\n\n      Output only the rewritten resume in Markdown format."

  const ExtractionHead: string := "Extract the following details from the JOB DESCRIPTION.\n      \n      JOB DESCRIPTION:\n      "
  const ExtractionTail: string := "\n\n      Return JSON with keys: 'company', 'position', 'location', 'salary'.\n      If a field is not found, use \"Unknown\" or \"\".\n      For salary, provide a range if available."
  const ExtractionSchema: string := "JSON object with keys: company, position, location, salary"

  const InterviewHead: string := "Generate 5 likely interview questions and concise answers based on the candidate's RESUME and the JOB DESCRIPTION.\n      \n      RESUME:\n      "
  const InterviewMiddle: string := "\n\n      JOB DESCRIPTION:\n      "
  const InterviewTail: string := "\n\n      Return the Output as a JSON Array of objects with 'question' and 'answer' keys."
  const InterviewSchema: string := "Array of objects with question and answer keys"

  datatype AIOrchestrator = AIOrchestrator(gemini: Gemini.GeminiProvider, huggingFace: HuggingFace.HuggingFaceProvider)

  /** The constructor: each provider gets its own key and its default models. */
  function New(geminiKey: Option<string>, huggingFaceKey: Option<string>): (o: AIOrchestrator)
    ensures o.gemini == Gemini.New(geminiKey) && o.huggingFace == HuggingFace.New(huggingFaceKey)
  {
    AIOrchestrator(Gemini.New(geminiKey), HuggingFace.New(huggingFaceKey))
  }

  /** A provider method invocation. */
  datatype Call =
    | HfGenerateJson(prompt: string, schema: string)
    | HfEmbed(text: string)
    | GeminiGenerateText(prompt: string, system: Option<string>)
    | GeminiGenerateJson(prompt: string, schema: string)
    | GeminiEmbed(text: string)
  {
    predicate IsGemini()
    {
      GeminiGenerateText? || GeminiGenerateJson? || GeminiEmbed?
    }
  }

  /** A task's outcome, the provider calls it made and the requests sent. */
  datatype Traced<+T> = Traced(result: Result<T>, calls: seq<Call>, sent: seq<Request>)

  /** How many of `calls` go to Gemini. */
  function GeminiCalls(calls: seq<Call>): (n: nat)
    ensures n <= |calls|
    ensures n == 0 <==> forall i | 0 <= i < |calls| :: !calls[i].IsGemini()
  {
    if calls == [] then 0
    else (if calls[0].IsGemini() then 1 else 0) + GeminiCalls(calls[1..])
  }

  function TailorPrompt(resume: string, jobDescription: string): string
  {
    TailorHead + resume + TailorMiddle + jobDescription + TailorTail
  }

  function ExtractionPrompt(description: string): string
  {
    ExtractionHead + Take(description, ExtractionCharLimit) + ExtractionTail
  }

  function InterviewPrompt(resume: string, jobDescription: string): string
  {
    InterviewHead + Take(resume, InterviewCharLimit) + InterviewMiddle
      + Take(jobDescription, InterviewCharLimit) + InterviewTail
  }

  /** The tailoring prompt carries both texts whole, untruncated, in their
      places. */
  lemma TailorPromptKeepsInputs(resume: string, jobDescription: string)
    ensures var p := TailorPrompt(resume, jobDescription);
      && |p| == |TailorHead| + |resume| + |TailorMiddle| + |jobDescription| + |TailorTail|
      && p[|TailorHead|..|TailorHead| + |resume|] == resume
      && p[|TailorHead| + |resume| + |TailorMiddle|..|p| - |TailorTail|] == jobDescription
  {
    var p := TailorPrompt(resume, jobDescription);
    assert p == TailorHead + resume + TailorMiddle + jobDescription + TailorTail;
  }

  /** The extraction prompt sees only the first 3000 characters of the
      description: they sit right after the head, and nothing later in the
      description changes the prompt. */
  lemma ExtractionPromptTruncates(description: string, other: string)
    ensures var p := ExtractionPrompt(description);
      && |p| <= |ExtractionHead| + ExtractionCharLimit + |ExtractionTail|
      && p[|ExtractionHead|..|p| - |ExtractionTail|] == Take(description, ExtractionCharLimit)
    ensures Take(description, ExtractionCharLimit) == Take(other, ExtractionCharLimit) ==>
      ExtractionPrompt(description) == ExtractionPrompt(other)
  {
    var p := ExtractionPrompt(description);
    assert p == ExtractionHead + Take(description, ExtractionCharLimit) + ExtractionTail;
  }

  /** The interview prompt sees only the first 1000 characters of the resume
      and of the job description. */
  lemma InterviewPromptTruncates(resume: string, jobDescription: string, resume': string, jobDescription': string)
    ensures |InterviewPrompt(resume, jobDescription)|
      <= |InterviewHead| + |InterviewMiddle| + |InterviewTail| + 2 * InterviewCharLimit
    ensures var p := InterviewPrompt(resume, jobDescription);
      p[|InterviewHead|..|InterviewHead| + |Take(resume, InterviewCharLimit)|] == Take(resume, InterviewCharLimit)
    ensures Take(resume, InterviewCharLimit) == Take(resume', InterviewCharLimit)
      && Take(jobDescription, InterviewCharLimit) == Take(jobDescription', InterviewCharLimit)
      ==> InterviewPrompt(resume, jobDescription) == InterviewPrompt(resume', jobDescription')
  {
    var p := InterviewPrompt(resume, jobDescription);
    var r := Take(resume, InterviewCharLimit);
    assert p == InterviewHead + r + (InterviewMiddle + Take(jobDescription, InterviewCharLimit) + InterviewTail);
  }

  /** `tailorResume`: Gemini text generation only, with no system
      instruction and no truncation; its outcome passes through. */
  function TailorResume(o: AIOrchestrator, env: Backends, resume: string, jobDescription: string): (r: Traced<string>)
    ensures r.calls == [GeminiGenerateText(TailorPrompt(resume, jobDescription), None)]
    ensures var g := Gemini.GenerateText(o.gemini, TailorPrompt(resume, jobDescription), None, env);
      r.result == g.result && r.sent == g.sent
  {
    var prompt := TailorPrompt(resume, jobDescription);
    var g := Gemini.GenerateText(o.gemini, prompt, None, env);
    Traced(g.result, [GeminiGenerateText(prompt, None)], g.sent)
  }

  /** `extractJobDetails`: Gemini JSON generation only, on a prompt holding
      at most the first 3000 characters of the description; its outcome
      passes through with no field defaulting. */
  function ExtractJobDetails(o: AIOrchestrator, env: Backends, description: string): (r: Traced<Json>)
    ensures |r.calls| == 1 && r.calls[0].GeminiGenerateJson? && r.calls[0].schema == ExtractionSchema
    ensures r.calls[0].prompt == ExtractionPrompt(description)
    ensures var g := Gemini.GenerateJson(o.gemini, r.calls[0].prompt, ExtractionSchema, env);
      r.result == g.result && r.sent == g.sent
  {
    var prompt := ExtractionPrompt(description);
    var g := Gemini.GenerateJson(o.gemini, prompt, ExtractionSchema, env);
    Traced(g.result, [GeminiGenerateJson(prompt, ExtractionSchema)], g.sent)
  }

  /** `generateInterviewQuestions`: HF first; on any error from HF, Gemini
      once with the same prompt and schema, whose outcome is final. */
  function GenerateInterviewQuestions(o: AIOrchestrator, env: Backends, resume: string, jobDescription: string): (r: Traced<Json>)
    ensures var prompt := InterviewPrompt(resume, jobDescription);
      var h := HuggingFace.GenerateJson(o.huggingFace, prompt, InterviewSchema, env);
      var g := Gemini.GenerateJson(o.gemini, prompt, InterviewSchema, env);
      && (h.result.Ok? ==> r.result == h.result && r.calls == [HfGenerateJson(prompt, InterviewSchema)] && r.sent == h.sent)
      && (h.result.Err? ==>
            && r.result == g.result
            && r.calls == [HfGenerateJson(prompt, InterviewSchema), GeminiGenerateJson(prompt, InterviewSchema)]
            && r.sent == h.sent + g.sent)
    ensures GeminiCalls(r.calls) <= 1
  {
    var prompt := InterviewPrompt(resume, jobDescription);
    var h := HuggingFace.GenerateJson(o.huggingFace, prompt, InterviewSchema, env);
    if h.result.Ok? then
      Traced(h.result, [HfGenerateJson(prompt, InterviewSchema)], h.sent)
    else
      var g := Gemini.GenerateJson(o.gemini, prompt, InterviewSchema, env);
      var calls := [HfGenerateJson(prompt, InterviewSchema), GeminiGenerateJson(prompt, InterviewSchema)];
      assert calls[1..][1..] == [];
      Traced(g.result, calls, h.sent + g.sent)
  }

  /** Gemini is consulted for interview questions exactly when HF failed. */
  lemma InterviewFallbackOnlyOnFailure(o: AIOrchestrator, env: Backends, resume: string, jobDescription: string)
    ensures var r := GenerateInterviewQuestions(o, env, resume, jobDescription);
      GeminiCalls(r.calls) == 1 <==>
        HuggingFace.GenerateJson(o.huggingFace, InterviewPrompt(resume, jobDescription), InterviewSchema, env).result.Err?
  {
    var r := GenerateInterviewQuestions(o, env, resume, jobDescription);
    if |r.calls| == 2 {
      assert r.calls[1..][1..] == [];
    }
  }

  /** With no key configured anywhere the interview path sends nothing, HF's
      placeholder fails to parse, and Gemini's `{}` is what comes back:
      an object, not the array of questions the caller expects. */
  lemma InterviewWithoutKeys(env: Backends, resume: string, jobDescription: string)
    requires HuggingFace.ParsesOnlyJsonText(env.parse)
    ensures var o := New(None, None);
      var r := GenerateInterviewQuestions(o, env, resume, jobDescription);
      r.result == Ok(EmptyObject) && r.sent == [] && GeminiCalls(r.calls) == 1
  {
    var o := New(None, None);
    HuggingFace.GenerateJsonWithoutKeyFails(o.huggingFace, InterviewPrompt(resume, jobDescription), InterviewSchema, env);
    InterviewFallbackOnlyOnFailure(o, env, resume, jobDescription);
  }

  /** `getEmbedding`: a non-empty HF embedding is returned without calling
      Gemini; an empty one sends the same text to Gemini, whose answer is
      returned as is. Never throws. */
  function GetEmbedding(o: AIOrchestrator, env: Backends, text: string): (r: Traced<Vector>)
    ensures r.result.Ok?
    ensures var h := HuggingFace.Embed(o.huggingFace, text, env);
      var g := Gemini.Embed(o.gemini, text, env);
      && (h.result.value != [] ==> r.result.value == h.result.value && r.calls == [HfEmbed(text)] && r.sent == h.sent)
      && (h.result.value == [] ==>
            r.result.value == g.result.value && r.calls == [HfEmbed(text), GeminiEmbed(text)] && r.sent == h.sent + g.sent)
  {
    var h := HuggingFace.Embed(o.huggingFace, text, env);
    match h.result
    case Err(_) => Traced(Ok([]), [HfEmbed(text)], h.sent)
    case Ok(v) =>
      if |v| > 0 then Traced(Ok(v), [HfEmbed(text)], h.sent)
      else
        var g := Gemini.Embed(o.gemini, text, env);
        match g.result
        case Err(_) => Traced(Ok([]), [HfEmbed(text), GeminiEmbed(text)], h.sent + g.sent)
        case Ok(w) => Traced(Ok(w), [HfEmbed(text), GeminiEmbed(text)], h.sent + g.sent)
  }
}
