/** `CodeReviewService`: resolving its credential and model from explicit
    arguments and the process environment, rejecting blank code, dispatching one
    request to the completion service and mapping the response to the review
    text and its metadata. */
module Reviewer {
  import opened Wrappers
  import opened Text
  import opened Prompt

  /** The process environment after `.env` has been loaded: variable name to value. */
  type Environment = map<string, string>

  const ApiKeyVariable: string := "ANTHROPIC_API_KEY"
  const ModelVariable: string := "ANTHROPIC_MODEL"
  const DefaultModel: string := "claude-sonnet-4-5-20250929"
  const MaxTokens: nat := 2000
  const Temperature: int := 0
  const MissingKeyMessage: string :=
    "ANTHROPIC_API_KEY is not set. Create a .env file or export it before running the reviewer."
  const NoCodeMessage: string := "No code provided for review."
  const EmptyResponseText: string := "Claude returned an empty response."

  /** `os.getenv(name)`: the value when the variable is set, even if empty. */
  function GetEnv(env: Environment, name: string): (r: Option<string>)
    ensures r.Some? <==> name in env
    ensures r.Some? ==> r.value == env[name]
  {
    if name in env then Some(env[name]) else None
  }

  /** `MissingAPIKeyError`. */
  datatype ConfigError = MissingApiKey(message: string)

  /** One message of the conversation sent to the completion service. */
  datatype Message = Message(role: string, content: string)

  /** The arguments of one `messages.create` call. */
  datatype Request = Request(model: string, maxTokens: nat, temperature: int,
                             system: string, messages: seq<Message>)

  datatype ContentBlock = TextBlock(text: string)
  datatype Usage = Usage(inputTokens: nat, outputTokens: nat)

  /** What the completion service returns on success. */
  datatype Response = Response(content: seq<ContentBlock>, usage: Usage, model: string)

  /** The service's failure (`anthropic.APIError`), carried as it was raised. */
  datatype ApiError = ApiError(message: string)

  /** `ReviewMetadata`. */
  datatype ReviewMetadata = ReviewMetadata(inputTokens: nat, outputTokens: nat, model: string)

  /** What `review` raises: `ValueError` for blank code, or the service's error re-raised. */
  datatype ReviewError = InvalidInput(message: string) | ServiceFailure(error: ApiError)

  /** The completion endpoint as seen through a client holding `apiKey`. */
  type Transport = (string, Request) -> Result<Response, ApiError>

  /** `api_key or os.getenv("ANTHROPIC_API_KEY")`, failing when that is absent or empty. */
  function ResolveApiKey(apiKey: Option<string>, env: Environment): (r: Result<string, ConfigError>)
    ensures r.Ok? <==> Truthy(apiKey) || Truthy(GetEnv(env, ApiKeyVariable))
    ensures r.Ok? ==> r.value != ""
    ensures Truthy(apiKey) ==> r == Ok(apiKey.value)
    ensures !Truthy(apiKey) && r.Ok? ==> r.value == env[ApiKeyVariable]
    ensures r.Err? ==> r.error == MissingApiKey(MissingKeyMessage)
  {
    var resolved := if Truthy(apiKey) then apiKey else GetEnv(env, ApiKeyVariable);
    if !Truthy(resolved) then Err(MissingApiKey(MissingKeyMessage)) else Ok(resolved.value)
  }

  /** `model or os.getenv("ANTHROPIC_MODEL", default_model)`: a set but empty
      variable yields the empty model name. */
  function ResolveModel(model: Option<string>, env: Environment): (r: string)
    ensures Truthy(model) ==> r == model.value
    ensures !Truthy(model) && ModelVariable in env ==> r == env[ModelVariable]
    ensures !Truthy(model) && ModelVariable !in env ==> r == DefaultModel
    ensures r == "" ==> !Truthy(model) && GetEnv(env, ModelVariable) == Some("")
  {
    if Truthy(model) then model.value
    else match GetEnv(env, ModelVariable) {
      case Some(v) => v
      case None => DefaultModel
    }
  }

  /** The review text and the metadata taken from a successful response. */
  function MapResponse(response: Response): (r: (string, ReviewMetadata))
    ensures |response.content| > 0 ==> r.0 == response.content[0].text
    ensures |response.content| == 0 ==> r.0 == EmptyResponseText
    ensures r.1.inputTokens == response.usage.inputTokens
    ensures r.1.outputTokens == response.usage.outputTokens
    ensures r.1.model == response.model
  {
    var text := if |response.content| > 0 then response.content[0].text else EmptyResponseText;
    (text, ReviewMetadata(response.usage.inputTokens, response.usage.outputTokens, response.model))
  }

  /** `Anthropic(api_key=...)`: only the credential it authenticates with is modelled. */
  class Client {
    const apiKey: string

    constructor (apiKey: string)
      ensures this.apiKey == apiKey
    {
      this.apiKey := apiKey;
    }
  }

  class CodeReviewService {
    const client: Client
    const model: string

    constructor (client: Client, model: string)
      requires client.apiKey != ""
      ensures this.client == client && this.model == model
    {
      this.client := client;
      this.model := model;
    }

    /** `CodeReviewService(api_key, model)`: fails before any client exists when
        no non-empty credential can be found. */
    static method Create(apiKey: Option<string>, model: Option<string>, env: Environment)
      returns (r: Result<CodeReviewService, ConfigError>)
      ensures r.Err? <==> ResolveApiKey(apiKey, env).Err?
      ensures r.Err? ==> r.error == MissingApiKey(MissingKeyMessage)
      ensures r.Err? ==> forall c: Client {:trigger allocated(c)} :: allocated(c) ==> old(allocated(c))
      ensures r.Err? ==> forall c: CodeReviewService {:trigger allocated(c)} :: allocated(c) ==> old(allocated(c))
      ensures r.Ok? ==> fresh(r.value) && fresh(r.value.client)
      ensures r.Ok? ==> r.value.client.apiKey == ResolveApiKey(apiKey, env).value
      ensures r.Ok? ==> r.value.model == ResolveModel(model, env)
    {
      var key := ResolveApiKey(apiKey, env);
      if key.Err? {
        return Err(key.error);
      }
      var client := new Client(key.value);
      var service := new CodeReviewService(client, ResolveModel(model, env));
      r := Ok(service);
    }

    /** `review(code, filename, language, notes)`: blank code is rejected before
        any prompt is built or request sent; otherwise exactly one request is
        sent and its outcome mapped. `sent` is that request, if any. */
    method Review(code: string, filename: Option<string>, language: Option<string>,
                  notes: Option<string>, transport: Transport)
      returns (r: Result<(string, ReviewMetadata), ReviewError>, sent: Option<Request>)
      ensures sent.None? <==> AllSpace(code)
      ensures AllSpace(code) ==> r == Err(InvalidInput(NoCodeMessage))
      ensures sent.Some? ==> sent.value == Request(model, MaxTokens, Temperature, SystemInstructions,
                                                   [Message("user", BuildPrompt(code, filename, language, notes))])
      ensures sent.Some? ==> match transport(client.apiKey, sent.value) {
        case Ok(response) => r == Ok(MapResponse(response))
        case Err(e) => r == Err(ServiceFailure(e))
      }
    {
      if Strip(code) == "" {
        return Err(InvalidInput(NoCodeMessage)), None;
      }
      var prompt := BuildPrompt(code, filename, language, notes);
      var request := Request(model, MaxTokens, Temperature, SystemInstructions, [Message("user", prompt)]);
      sent := Some(request);
      var outcome := transport(client.apiKey, request);
      match outcome {
        case Err(e) => r := Err(ServiceFailure(e));
        case Ok(response) => r := Ok(MapResponse(response));
      }
    }
  }
}
