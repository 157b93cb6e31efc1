# AI provider layer of Job-Aligner, modelled in Dafny

Job-Aligner lets a user paste a resume and a job description and get back
a match score, a tailored resume, interview questions and extracted job
details. All AI work goes through a small provider layer:

- `HuggingFaceProvider`: the inference-endpoint provider. It wraps prompts
  in the Mistral `<s>[INST] … [/INST]` format. It pulls the first
  JSON-looking substring out of generated text. It accepts an embedding
  only when it is an array whose first element is a number.
- `GeminiProvider`: the hosted-LLM provider. It prepends the system
  instruction and appends a "JSON only" request. It strips code fences
  before parsing and turns embedding errors into `[]`.
- `AIOrchestrator`: a fixed routing policy per task.
  - Tailoring and job-detail extraction go to Gemini, with no fallback.
  - Interview questions go to HF first, then to Gemini once if HF throws.
  - Embeddings go to HF first, then to Gemini if HF returns nothing.
- `HybridAIService`: the facade.
  - It scores a resume against a job description from two embeddings.
  - It boosts that score for the tailored result.
  - It delegates the other two tasks to the orchestrator.

Every file of the layer is pure apart from its backend calls, so the model
uses datatypes, functions and lemmas. Each provider's configuration is a
datatype (its fields are fixed at construction). Each provider operation
is a function that returns its outcome (`Ok` or the error it throws)
together with the requests it sent. Each orchestrator and facade operation
also returns the provider calls it made, in order. This lets the model
state "Gemini is called exactly once" and "no request is sent".

The outside world is a parameter, `Backends` in `types.dfy`:

- the inference endpoint is a function from request to response;
- the Gemini SDK is a function from request to response;
- `JSON.parse` is a function from text to `Option<Json>`.

`cosineSimilarity` (from `@/lib/utils`, which is not part of this model)
is a parameter returning `Option<real>`; `None` stands for a throw.

Files: `types.dfy` (shared values and errors), `strings.dfy` (the
JavaScript string built-ins used: `trim`, `slice(0, n)`, `includes`,
`replace(/…/g, "")`), `huggingface.dfy`, `gemini.dfy`, `orchestrator.dfy`,
`local_service.dfy`.

## Where the code does less than one might expect

The model follows the code in each of these cases.

- HF `generateJSON` throws "Failed to parse JSON from HF model" when no
  key is configured (src/lib/ai/providers/huggingface.ts:45, 71, 75-80).
  It does not return an empty value: the placeholder text has no brackets
  and is not JSON (`GenerateJsonWithoutKeyFails`).
- HF `generateJSON` does not strip code fences. It only takes the regex
  match, or the whole text when nothing matches
  (src/lib/ai/providers/huggingface.ts:75-77).
- Gemini `generateJSON` does no substring extraction. It parses the whole
  sanitised reply (src/lib/ai/providers/gemini.ts:47-49).
- HF `embed` does not unwrap a nested (batched) array, although the
  code's own comment at src/lib/ai/providers/huggingface.ts:92 names that
  shape. Only an array whose first element is a number is kept (line 93),
  so a nested array gives `[]` (`EmbedRejectsNested`).
- `extractJobDetails` does not default missing fields. It returns
  Gemini's result as is (src/lib/ai/orchestrator.ts:51), so without a
  Gemini key the result is `{}` (`ExtractJobDetailsWithoutGeminiKey`).
- The tailored score is `Math.min(score + 15, 99)`
  (src/lib/ai/local-service.ts:40). A raw score of 100 therefore comes
  back as 99, below the unadjusted score (`BoostedScore`).
- Without any key, the interview path returns Gemini's `{}`, not an array
  (src/lib/ai/orchestrator.ts:71-74 with
  src/lib/ai/providers/gemini.ts:37; `InterviewWithoutKeys`).

## Model

| member | source | states |
|---|---|---|
| `Strings.TrimStart` | src/lib/ai/providers/huggingface.ts:59 | the result is the suffix left after dropping a run of leading whitespace, and it does not start with whitespace |
| `Strings.TrimEnd` | src/lib/ai/providers/huggingface.ts:59 | the result is the prefix left after dropping a run of trailing whitespace, and it does not end with whitespace |
| `Strings.Trim` | src/lib/ai/providers/huggingface.ts:59 | `trim()` never lengthens the text and leaves no whitespace at either end |
| `Strings.TrimIsInfix` | src/lib/ai/providers/huggingface.ts:59 | what `trim()` keeps is an infix of the input, and both dropped ends are all whitespace |
| `Strings.TrimStartPadded` | src/lib/ai/providers/gemini.ts:47 | dropping leading whitespace from whitespace followed by a text that does not start with whitespace gives that text |
| `Strings.TrimEndPadded` | src/lib/ai/providers/gemini.ts:47 | dropping trailing whitespace from a text that does not end with whitespace, followed by whitespace, gives that text |
| `Strings.TrimPadded` | src/lib/ai/providers/gemini.ts:47 | trimming whitespace padding around an already trimmed text gives that text back |
| `Strings.TrimStartKeepsAbsence` | src/lib/ai/providers/gemini.ts:47 | dropping leading whitespace never creates an occurrence of a pattern |
| `Strings.TrimEndKeepsAbsence` | src/lib/ai/providers/gemini.ts:47 | dropping trailing whitespace never creates an occurrence of a pattern |
| `Strings.TrimKeepsAbsence` | src/lib/ai/providers/gemini.ts:47 | trimming never creates an occurrence of a pattern |
| `Strings.Take` | src/lib/ai/orchestrator.ts:45 | `slice(0, n)` is a prefix of length `min(n, |s|)`, and the whole text when it is short enough |
| `Strings.RemoveAll` | src/lib/ai/providers/gemini.ts:47 | removing every occurrence never lengthens the text and leaves text without an occurrence unchanged |
| `Strings.ContainsInfix` | src/lib/ai/providers/gemini.ts:47 | an occurrence inside an infix is an occurrence in the whole text |
| `Strings.RemoveAllPlainPrefix` | src/lib/ai/providers/gemini.ts:47 | a prefix with no pattern-start character passes through removal untouched |
| `Strings.RemoveAllFencesLeavesNone` | src/lib/ai/providers/gemini.ts:47 | after every "```" is removed, no "```" is left, even where removals join backticks |
| `HuggingFace.New` | src/lib/ai/providers/huggingface.ts:10-18 | the constructor keeps the key and uses the two default model names |
| `HuggingFace.FormatPrompt` | src/lib/ai/providers/huggingface.ts:49-51 | the input opens with `<s>[INST] `, ends with ` [/INST]`, and has the prompt right before the close; a non-empty system instruction sits right after the open, followed by a blank line |
| `HuggingFace.ClassifyFailure` | src/lib/ai/providers/huggingface.ts:32-38 | a non-OK reply raises "Model is loading" exactly when its `error` is a string or array including "loading"; it raises a TypeError exactly when `error` is a boolean, number or object; otherwise it raises "HF Error" with the status and body |
| `HuggingFace.Query` | src/lib/ai/providers/huggingface.ts:20-42 | without a key it throws and sends nothing; otherwise it sends one authorised POST to the model URL and yields the body exactly when the reply is 2xx JSON; a non-OK reply is classified with `{}` standing in for an unreadable body |
| `HuggingFace.GeneratedText` | src/lib/ai/providers/huggingface.ts:58-61 | a string `generated_text` on the first array element comes back trimmed; a missing or falsy one gives `""`; a TypeError comes exactly when it is truthy but not a string; every result is trimmed |
| `HuggingFace.GenerateText` | src/lib/ai/providers/huggingface.ts:44-66 | without a key it returns "HuggingFace API Key missing." and sends no request; otherwise it sends one request with the wrapped prompt, 512 new tokens and no full text; query errors propagate unchanged |
| `HuggingFace.LastIndexOf` | src/lib/ai/providers/huggingface.ts:75 | the index holds the character and no later index does; it is -1 exactly when the character is absent |
| `HuggingFace.FirstOpener` | src/lib/ai/providers/huggingface.ts:75 | the index is where a match can start, and no earlier index from the starting point is |
| `HuggingFace.JsonSpan` | src/lib/ai/providers/huggingface.ts:75 | the match starts at the leftmost opener that has a later closer of its kind and ends at the last such closer; there is no match exactly when no opener qualifies |
| `HuggingFace.ExtractJson` | src/lib/ai/providers/huggingface.ts:75-76 | the match is that span of the text, at least two characters long, opening with `{` or `[` and closing with its partner |
| `HuggingFace.ExtractJsonKeepsBracketed` | src/lib/ai/providers/huggingface.ts:75-76 | text already of the form `{…}` or `[…]` passes through unchanged |
| `HuggingFace.ExtractJsonNoneIff` | src/lib/ai/providers/huggingface.ts:75-76 | the regex fails exactly when no opener is followed later by its closer, so the whole text is parsed |
| `HuggingFace.MissingKeyTextHasNoBrackets` | src/lib/ai/providers/huggingface.ts:45 | the no-key placeholder has no bracketed span |
| `HuggingFace.MissingKeyTextIsNotJson` | src/lib/ai/providers/huggingface.ts:45 | the no-key placeholder does not start, after leading whitespace, with a character any JSON text can start with, so a parser that accepts only JSON text rejects it |
| `HuggingFace.GenerateJson` | src/lib/ai/providers/huggingface.ts:68-82 | it generates under the strict-JSON system instruction; text errors propagate; it parses the match or the whole text; any parse failure becomes "Failed to parse JSON from HF model", never a raw syntax error |
| `HuggingFace.GenerateJsonWithoutKeyFails` | src/lib/ai/providers/huggingface.ts:68-81 | without a key `generateJSON` throws the parse error and sends nothing, for any parser that only accepts JSON text |
| `HuggingFace.Embed` | src/lib/ai/providers/huggingface.ts:84-101 | it never throws; without a key it returns `[]` and sends nothing; otherwise it sends one request that waits for the model, and the result is non-empty exactly when the reply is an array whose first element is a number, in which case it is that array |
| `HuggingFace.EmbedRejectsNested` | src/lib/ai/providers/huggingface.ts:92-96 | a nested (batched) array reply gives `[]` |
| `Gemini.New` | src/lib/ai/providers/gemini.ts:8-13 | the constructor keeps the key and uses the default model name |
| `Gemini.ComposePrompt` | src/lib/ai/providers/gemini.ts:25 | the prompt always ends the text; a non-empty system instruction starts it, followed by a blank line; otherwise the prompt is unchanged |
| `Gemini.JsonPrompt` | src/lib/ai/providers/gemini.ts:40 | the JSON prompt is the prompt, then "\n\nOutput ONLY a valid JSON object matching this description: ", then the schema description, then ". Do not use markdown code blocks.", each at its exact position |
| `Gemini.Sanitize` | src/lib/ai/providers/gemini.ts:47 | sanitised text holds no "```", has no outer whitespace and is no longer than the reply |
| `Gemini.SanitizeUnfences` | src/lib/ai/providers/gemini.ts:47 | a ```json fenced block around backtick-free trimmed text sanitises to exactly that text |
| `Gemini.SanitizeExample` | src/lib/ai/providers/gemini.ts:47 | ```` ```json\n{"a":1}\n``` ```` sanitises to `{"a":1}` |
| `Gemini.GenerateText` | src/lib/ai/providers/gemini.ts:20-34 | without a key it returns "Gemini API Key missing." and sends nothing; otherwise it sends one request with the composed prompt and returns its text, and an SDK failure propagates |
| `Gemini.GenerateJson` | src/lib/ai/providers/gemini.ts:36-54 | without a key it returns `{}` and sends nothing; otherwise it parses the sanitised reply whole, and both parse and SDK failures propagate |
| `Gemini.ToVector` | src/lib/ai/providers/gemini.ts:61 | the SDK's values become a vector of the same numbers in the same order |
| `Gemini.Embed` | src/lib/ai/providers/gemini.ts:56-66 | it never throws; without a key it returns `[]`; otherwise it asks `text-embedding-004` once, and any failure gives `[]` |
| `Orchestrator.New` | src/lib/ai/orchestrator.ts:14-17 | each provider is built from its own key |
| `Orchestrator.GeminiCalls` | src/lib/ai/orchestrator.ts:69-75 | the count is zero exactly when no call goes to Gemini |
| `Orchestrator.TailorPromptKeepsInputs` | src/lib/ai/orchestrator.ts:24-32 | the tailoring prompt holds the resume and the job description whole, in place |
| `Orchestrator.ExtractionPromptTruncates` | src/lib/ai/orchestrator.ts:42-49 | the extraction prompt holds the first 3000 characters of the description and depends on nothing after them |
| `Orchestrator.InterviewPromptTruncates` | src/lib/ai/orchestrator.ts:59-67 | the interview prompt holds at most the first 1000 characters of each text and depends on nothing after them |
| `Orchestrator.TailorResume` | src/lib/ai/orchestrator.ts:23-35 | exactly one call, to Gemini `generateText` with no system instruction; its outcome passes through |
| `Orchestrator.ExtractJobDetails` | src/lib/ai/orchestrator.ts:41-52 | exactly one call, to Gemini `generateJSON` with the extraction schema; its outcome passes through |
| `Orchestrator.GenerateInterviewQuestions` | src/lib/ai/orchestrator.ts:58-76 | an HF success is returned without calling Gemini; any HF error leads to one Gemini call with the same prompt and schema, whose value or error is final |
| `Orchestrator.InterviewFallbackOnlyOnFailure` | src/lib/ai/orchestrator.ts:69-75 | Gemini is called once exactly when HF failed |
| `Orchestrator.InterviewWithoutKeys` | src/lib/ai/orchestrator.ts:69-75 | with no keys the interview path sends nothing and returns Gemini's `{}` after one fallback |
| `Orchestrator.GetEmbedding` | src/lib/ai/orchestrator.ts:83-94 | it never throws; a non-empty HF embedding is returned without calling Gemini; an empty one leads to one Gemini call whose result is returned as is |
| `LocalService.ServiceOrchestrator` | src/lib/ai/local-service.ts:6-9 | the singleton's Gemini provider holds the Gemini key and the HF provider holds the HF key, each with its default models |
| `LocalService.Round` | src/lib/ai/local-service.ts:25 | `Math.round` gives the integer `n` with `n - 1/2 <= x < n + 1/2` |
| `LocalService.PercentFromCosine` | src/lib/ai/local-service.ts:24-25 | the score is the rounded `(c + 1) * 50`; on [-1, 1] it is in [0, 100], with 1 giving 100 and -1 giving 0 |
| `LocalService.PercentFromCosineMonotone` | src/lib/ai/local-service.ts:25 | a larger cosine never gives a lower score |
| `LocalService.BoostedScore` | src/lib/ai/local-service.ts:40 | the boosted score is `min(raw + 15, 99)`: at most both, and equal to one of them; it is at least the raw score up to 99; 100 drops to 99; on [0, 100] it lies in [15, 99] |
| `LocalService.CalculateMatchScore` | src/lib/ai/local-service.ts:13-30 | it never throws; it embeds only the first 1000 characters of each text; an empty embedding or a throwing similarity gives 0; otherwise it gives the percentage, which lies in [0, 100] for a bounded cosine |
| `LocalService.MatchScoreWithoutKeys` | src/lib/ai/local-service.ts:22 | with no keys the score is 0 and nothing is sent |
| `LocalService.MatchScoreExtremes` | src/lib/ai/local-service.ts:24-25 | with both embeddings present, cosine 1 scores 100 and cosine -1 scores 0 |
| `LocalService.GenerateTailoredResume` | src/lib/ai/local-service.ts:32-44 | a tailoring error propagates; otherwise the content is the tailoring output, `missingKeywords` is empty, and the score is the boosted match score: at most 99, and at least 15 for a bounded cosine |
| `LocalService.TailoredScoreAfterFailedScoring` | src/lib/ai/local-service.ts:40 | a failed score of 0 is still reported as 15 |
| `LocalService.GenerateInterviewQuestions` | src/lib/ai/local-service.ts:46-48 | the orchestrator's outcome is returned unchanged, so Gemini is called at most once |
| `LocalService.ExtractJobDetails` | src/lib/ai/local-service.ts:50-52 | the orchestrator's outcome is returned unchanged, with no truncation or defaulting added |
| `LocalService.ExtractJobDetailsWithoutGeminiKey` | src/lib/ai/local-service.ts:50-52 | without a Gemini key the result is `{}`, with no company or salary field, and nothing is sent |

## Left out

- Network I/O: `fetch` and the `@google/generative-ai` SDK are the
  functions in `Backends`. They are deterministic, so the same request
  always gets the same reply.
- `JSON.parse` is the function `Backends.parse`. `JSON.stringify` of an
  HF error body is not modelled: `HfHttpError` carries the parsed body
  instead of its text.
- `cosineSimilarity` and IEEE-754 arithmetic are not modelled.
  Similarity is a parameter; scores use exact reals; `Math.round` is
  `floor(x + 1/2)`. NaN and infinities do not arise.
- `Promise.all` in `calculateMatchScore` and `generateTailoredResume` is
  modelled sequentially. The branches share no state. The order of calls
  in the trace is one possible interleaving.
- `console.*` logging and the reading of environment variables are left
  out. The keys are parameters.
- Strings are sequences of Unicode scalar values. `slice(0, n)` in the
  source counts UTF-16 code units, so `Take` differs on text outside the
  Basic Multilingual Plane.
- An SDK reply of the wrong kind is modelled as a rejection: text for an
  embedding request, or values for a generation request.
- Optional parameters with defaults (`schemaDescription = ""`, model
  names) are always passed explicitly.
- Dead branches: the "Hugging Face API Key not configured" branch of
  `query` is modelled, but no public operation reaches it. So the `getEmbedding`
  catch branch and the `calculateMatchScore` catch branch (apart from a
  throwing similarity) are dead code in the model, as they are in the
  source.
