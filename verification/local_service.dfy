/** The facade (`HybridAIService`): the match score from two embeddings,
    the tailored-resume result with its boosted score, and two operations
    handed straight to the orchestrator. The module-level orchestrator
    singleton is the `o` every operation takes. */
module LocalService {
  import opened Types
  import opened Strings
  import Orchestrator
  import Gemini
  import HuggingFace

  const EmbeddingCharLimit: nat := 1000
  const TailoringBoost: int := 15
  const ScoreCeiling: int := 99

  /** The result record of a tailoring call. */
  datatype AIAnalysisResult = AIAnalysisResult(score: int, tailoredContent: string, missingKeywords: seq<string>)

  /** The module-level singleton, built from the two environment keys. */
  function ServiceOrchestrator(geminiKey: Option<string>, huggingFaceKey: Option<string>): (o: Orchestrator.AIOrchestrator)
    ensures o.gemini.apiKey == geminiKey && o.huggingFace.apiKey == huggingFaceKey
    ensures o.gemini.modelName == Gemini.DefaultModelName
    ensures o.huggingFace.textModel == HuggingFace.DefaultTextModel
    ensures o.huggingFace.embedModel == HuggingFace.DefaultEmbedModel
  {
    Orchestrator.New(geminiKey, huggingFaceKey)
  }

  /** `Math.round`: the nearest integer, halves rounded up. */
  function Round(x: real): (n: int)
    ensures n as real - 0.5 <= x < n as real + 0.5
  {
    (x + 0.5).Floor
  }

  /** The cosine mapped linearly onto a percentage and rounded. On [-1, 1]
      it lies in [0, 100], with 1 giving 100 and -1 giving 0. */
  function PercentFromCosine(c: real): (p: int)
    ensures p as real - 0.5 <= (c + 1.0) * 50.0 < p as real + 0.5
    ensures -1.0 <= c <= 1.0 ==> 0 <= p <= 100
    ensures c == 1.0 ==> p == 100
    ensures c == -1.0 ==> p == 0
  {
    Round(((c + 1.0) / 2.0) * 100.0)
  }

  /** A closer cosine never gives a lower percentage. */
  lemma PercentFromCosineMonotone(c: real, d: real)
    requires c <= d
    ensures PercentFromCosine(c) <= PercentFromCosine(d)
  {
    var p, q := PercentFromCosine(c), PercentFromCosine(d);
    assert p as real - 0.5 < q as real + 0.5;
  }

  /** The tailored score: the raw score plus 15, capped at 99. */
  function BoostedScore(raw: int): (s: int)
    ensures s <= ScoreCeiling
    ensures s <= raw + TailoringBoost
    ensures s == raw + TailoringBoost || s == ScoreCeiling
    ensures raw <= ScoreCeiling ==> s >= raw
    ensures raw == 100 ==> s == 99 && s < raw
    ensures 0 <= raw <= 100 ==> 15 <= s <= 99
  {
    if raw + TailoringBoost < ScoreCeiling then raw + TailoringBoost else ScoreCeiling
  }

  /** `cosineSimilarity` stays within [-1, 1] whenever it returns. */
  ghost predicate CosineBounded(cosine: (Vector, Vector) -> Option<real>)
  {
    forall a, b :: cosine(a, b).Some? ==> -1.0 <= cosine(a, b).value <= 1.0
  }

  /** `calculateMatchScore`: embed the first 1000 characters of each text;
      0 when either embedding is empty or the similarity throws (`cosine`
      gives `None`), otherwise the percentage. Never throws. */
  function CalculateMatchScore(o: Orchestrator.AIOrchestrator, env: Backends,
                               cosine: (Vector, Vector) -> Option<real>,
                               resumeText: string, jobDescription: string): (r: Orchestrator.Traced<int>)
    ensures r.result.Ok?
    ensures var a := Orchestrator.GetEmbedding(o, env, Take(resumeText, EmbeddingCharLimit));
      var b := Orchestrator.GetEmbedding(o, env, Take(jobDescription, EmbeddingCharLimit));
      && r.calls == a.calls + b.calls
      && (a.result.value == [] || b.result.value == [] ==> r.result.value == 0)
      && (a.result.value != [] && b.result.value != [] ==>
            r.result.value == (if cosine(a.result.value, b.result.value).Some?
                               then PercentFromCosine(cosine(a.result.value, b.result.value).value) else 0))
    ensures CosineBounded(cosine) ==> 0 <= r.result.value <= 100
    ensures forall i | 0 <= i < |r.calls| ::
      (r.calls[i].HfEmbed? || r.calls[i].GeminiEmbed?) && |r.calls[i].text| <= EmbeddingCharLimit
  {
    var a := Orchestrator.GetEmbedding(o, env, Take(resumeText, EmbeddingCharLimit));
    var b := Orchestrator.GetEmbedding(o, env, Take(jobDescription, EmbeddingCharLimit));
    var calls := a.calls + b.calls;
    var sent := a.sent + b.sent;
    var resVec, jobVec := a.result.value, b.result.value;
    if |resVec| == 0 || |jobVec| == 0 then Orchestrator.Traced(Ok(0), calls, sent)
    else
      match cosine(resVec, jobVec)
      case None => Orchestrator.Traced(Ok(0), calls, sent)
      case Some(c) => Orchestrator.Traced(Ok(PercentFromCosine(c)), calls, sent)
  }

  /** With no key configured neither provider yields an embedding, so the
      score is 0 and nothing is sent. */
  lemma MatchScoreWithoutKeys(env: Backends, cosine: (Vector, Vector) -> Option<real>,
                              resumeText: string, jobDescription: string)
    ensures var r := CalculateMatchScore(ServiceOrchestrator(None, None), env, cosine, resumeText, jobDescription);
      r.result == Ok(0) && r.sent == []
  {
  }

  /** Identical embeddings (cosine 1) score 100; opposite ones (cosine -1)
      score 0. */
  lemma MatchScoreExtremes(o: Orchestrator.AIOrchestrator, env: Backends,
                           cosine: (Vector, Vector) -> Option<real>,
                           resumeText: string, jobDescription: string)
    requires Orchestrator.GetEmbedding(o, env, Take(resumeText, EmbeddingCharLimit)).result.value != []
    requires Orchestrator.GetEmbedding(o, env, Take(jobDescription, EmbeddingCharLimit)).result.value != []
    ensures var a := Orchestrator.GetEmbedding(o, env, Take(resumeText, EmbeddingCharLimit)).result.value;
      var b := Orchestrator.GetEmbedding(o, env, Take(jobDescription, EmbeddingCharLimit)).result.value;
      var s := CalculateMatchScore(o, env, cosine, resumeText, jobDescription).result.value;
      && (cosine(a, b) == Some(1.0) ==> s == 100)
      && (cosine(a, b) == Some(-1.0) ==> s == 0)
  {
  }

  /** `generateTailoredResume`: the score and the tailoring run side by
      side (modelled one after the other; they share no state). A tailoring
      error propagates; otherwise the result carries the tailored text as
      is, the boosted score and no missing keywords. */
  function GenerateTailoredResume(o: Orchestrator.AIOrchestrator, env: Backends,
                                  cosine: (Vector, Vector) -> Option<real>,
                                  resumeText: string, jobDescription: string): (r: Orchestrator.Traced<AIAnalysisResult>)
    ensures var s := CalculateMatchScore(o, env, cosine, resumeText, jobDescription);
      var t := Orchestrator.TailorResume(o, env, resumeText, jobDescription);
      && (r.result.Ok? <==> t.result.Ok?)
      && (t.result.Err? ==> r.result.error == t.result.error)
      && (t.result.Ok? ==>
            && r.result.value.tailoredContent == t.result.value
            && r.result.value.missingKeywords == []
            && r.result.value.score == BoostedScore(s.result.value))
      && r.calls == s.calls + t.calls
    ensures r.result.Ok? ==> r.result.value.score <= ScoreCeiling
    ensures r.result.Ok? && CosineBounded(cosine) ==> 15 <= r.result.value.score <= 99
  {
    var s := CalculateMatchScore(o, env, cosine, resumeText, jobDescription);
    var t := Orchestrator.TailorResume(o, env, resumeText, jobDescription);
    var calls := s.calls + t.calls;
    var sent := s.sent + t.sent;
    match t.result
    case Err(e) => Orchestrator.Traced(Err(e), calls, sent)
    case Ok(content) =>
      Orchestrator.Traced(Ok(AIAnalysisResult(BoostedScore(s.result.value), content, [])), calls, sent)
  }

  /** A tailoring run always reports at least 15, even when scoring failed:
      a failed score of 0 is boosted like any other. */
  lemma TailoredScoreAfterFailedScoring(o: Orchestrator.AIOrchestrator, env: Backends,
                                        cosine: (Vector, Vector) -> Option<real>,
                                        resumeText: string, jobDescription: string)
    requires CalculateMatchScore(o, env, cosine, resumeText, jobDescription).result == Ok(0)
    requires Orchestrator.TailorResume(o, env, resumeText, jobDescription).result.Ok?
    ensures GenerateTailoredResume(o, env, cosine, resumeText, jobDescription).result.value.score == 15
  {
  }

  /** `generateInterviewQuestions`: the orchestrator's outcome unchanged. */
  function GenerateInterviewQuestions(o: Orchestrator.AIOrchestrator, env: Backends,
                                      resumeText: string, jobDescription: string): (r: Orchestrator.Traced<Json>)
    ensures r == Orchestrator.GenerateInterviewQuestions(o, env, resumeText, jobDescription)
    ensures Orchestrator.GeminiCalls(r.calls) <= 1
  {
    Orchestrator.GenerateInterviewQuestions(o, env, resumeText, jobDescription)
  }

  /** `extractJobDetails`: the orchestrator's outcome unchanged, with no
      field defaulting. */
  function ExtractJobDetails(o: Orchestrator.AIOrchestrator, env: Backends, description: string): (r: Orchestrator.Traced<Json>)
    ensures r == Orchestrator.ExtractJobDetails(o, env, description)
    ensures |r.calls| == 1 && r.calls[0].GeminiGenerateJson?
  {
    Orchestrator.ExtractJobDetails(o, env, description)
  }

  /** Without a Gemini key, job-detail extraction returns `{}` whatever the
      description: none of company, position, location or salary is
      filled in. */
  lemma ExtractJobDetailsWithoutGeminiKey(huggingFaceKey: Option<string>, env: Backends, description: string)
    ensures var r := ExtractJobDetails(ServiceOrchestrator(None, huggingFaceKey), env, description);
      r.result == Ok(EmptyObject) && r.sent == []
      && Field(r.result.value, "company") == None && Field(r.result.value, "salary") == None
  {
  }
}
