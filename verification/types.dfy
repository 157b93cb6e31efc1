/** Values shared by the two providers, the orchestrator and the facade:
    parsed JSON, the errors the layer raises, and what travels to and from
    the two backends. The backends and `JSON.parse` are not modelled: they
    are the total functions bundled in `Backends`. */
module Types {

  datatype Option<+T> = None | Some(value: T)

  /** A call that returns `value` or throws `error`. */
  datatype Result<+T> = Ok(value: T) | Err(error: Error)

  /** A value as `JSON.parse` produces it. */
  datatype Json =
    | Null
    | Bool(b: bool)
    | Number(n: real)
    | Str(s: string)
    | Arr(items: seq<Json>)
    | Obj(fields: map<string, Json>)

  /** The `{}` literal. */
  const EmptyObject: Json := Obj(map[])

  /** Property access `j.key`; `None` is `undefined`. Only objects have
      properties that parsed JSON can reach. */
  function Field(j: Json, key: string): Option<Json>
  {
    if j.Obj? && key in j.fields then Some(j.fields[key]) else None
  }

  /** JavaScript truthiness of a parsed value. */
  predicate Truthy(j: Json)
  {
    match j
    case Null => false
    case Bool(b) => b
    case Number(n) => n != 0.0
    case Str(s) => s != ""
    case Arr(_) => true
    case Obj(_) => true
  }

  /** JavaScript truthiness of an optional string (an API key, a system
      instruction): `undefined` and `""` are both falsy. */
  predicate Given(s: Option<string>)
  {
    s.Some? && s.value != ""
  }

  /** An embedding as the layer hands it on: the elements of the array the
      backend returned. */
  type Vector = seq<Json>

  /** Everything the layer can throw. */
  datatype Error =
    | HfKeyNotConfigured      // "Hugging Face API Key not configured"
    | ModelLoading            // "Model is loading"
    | HfHttpError(status: int, body: Json)  // "HF Error <status>: <body>"
    | NetworkError            // the request itself was rejected
    | InvalidResponseBody     // a 2xx reply whose body is not JSON
    | TypeError               // a method called on a value of the wrong type
    | HfParseFailure          // "Failed to parse JSON from HF model"
    | JsonSyntaxError         // `JSON.parse` rejected the text
    | GeminiRequestFailed     // the Gemini SDK rejected the call

  /** The `parameters`/`options` part of an inference-endpoint request. */
  datatype HfPayload =
    | TextGeneration(inputs: string, maxNewTokens: nat, returnFullText: bool)
    | FeatureExtraction(inputs: string, waitForModel: bool)

  datatype HfRequest = HfRequest(url: string, authorization: string, payload: HfPayload)

  /** What a POST to the inference endpoint yields: the fetch is rejected,
      a non-2xx status with its body (`None` when the body is not JSON),
      or a 2xx status with its body. */
  datatype HfResponse =
    | NetworkFailure
    | NotOk(status: int, errorBody: Option<Json>)
    | OkBody(body: Option<Json>)

  datatype GeminiRequest =
    | GenerateContent(model: string, prompt: string)
    | EmbedContent(model: string, text: string)

  /** What the Gemini SDK yields: generated text, embedding values, or a
      rejection (transport error, blocked response, wrong reply kind). */
  datatype GeminiResponse = Text(text: string) | Values(values: seq<real>) | Rejected

  datatype Request = ToHf(hf: HfRequest) | ToGemini(gemini: GeminiRequest)

  /** The world outside the layer: each backend answers a request, and
      `parse` is `JSON.parse` (`None` when it throws). */
  datatype Backends = Backends(
    hf: HfRequest -> HfResponse,
    gemini: GeminiRequest -> GeminiResponse,
    parse: string -> Option<Json>)

  /** A provider call's outcome together with the requests it sent. */
  datatype Reply<+T> = Reply(result: Result<T>, sent: seq<Request>)
}
