/** Values shared by the providers and the command line: keyword options,
    chat messages and payloads, the replies of the HTTP endpoints, and the
    errors the program raises. */
module LlmTypes {
  import opened Wrappers

  /** A Python `float` passed through unchanged (temperatures). The model
      never computes with it, so it is kept as its literal text. */
  datatype Float = Float(literal: string)

  /** The keyword options a provider and its calls accept. A field is `None`
      when the key is absent from the `**kwargs` dictionary. Keys no part of
      the core reads (such as `include_technical`) are not represented. */
  datatype Kwargs = Kwargs(
    model: Option<string>,
    baseUrl: Option<string>,
    temperature: Option<Float>,
    maxTokens: Option<int>,
    language: Option<string>,
    promptType: Option<string>,
    changedFiles: Option<seq<string>>,
    commitMessages: Option<seq<string>>,
    repoName: Option<string>)

  /** `{}` */
  const NoKwargs := Kwargs(None, None, None, None, None, None, None, None, None)

  datatype Role = System | User

  datatype Message = Message(role: Role, content: string)

  /** The JSON body posted to `/chat/completions`. `stream` is `None` when
      the key is not sent at all. */
  datatype Payload = Payload(
    model: string,
    messages: seq<Message>,
    temperature: Float,
    maxTokens: int,
    stream: Option<bool>)

  /** One chat request: the endpoint, the bearer token and the body. */
  datatype ChatRequest = ChatRequest(url: string, bearer: string, payload: Payload)

  /** What an HTTP call returned: no response at all (connection failure), or
      a status code and, when the body is JSON of the expected shape, the
      `content` of each entry of `choices` (for a chat call) or the
      `access_token` (for the OAuth call). */
  datatype Reply<T> = NoResponse | Response(status: int, body: Option<T>)

  /** The remote services, as functions of the request. */
  datatype Network = Network(
    chat: ChatRequest -> Reply<seq<string>>,
    token: string -> Reply<string>)

  /** Why a remote call failed. */
  datatype Cause =
    | Unreachable
    | HttpStatus(status: int)
    | MalformedBody
    | NoChoices

  /** The exceptions the core raises. */
  datatype Error =
    | GitFailed(command: seq<string>)
    | NotARepository
    | NoChanges(branch: string)
    | UnknownTemplate(key: string)
    | MissingPlaceholder(name: string)
    | TokenFailed(cause: Cause)
    | GenerationFailed(provider: string, cause: Cause)
    | UnsupportedProvider(name: string)

  /** `response.raise_for_status()`: client and server error codes raise. */
  predicate IsErrorStatus(status: int) {
    400 <= status < 600
  }

  /** The fields every provider keeps from its constructor. */
  datatype ProviderBase = ProviderBase(apiKey: string, config: Kwargs)

  /** `LLMProvider.__init__`: the key and the options are stored as given. */
  function NewBase(apiKey: string, options: Kwargs): (b: ProviderBase)
    ensures b.apiKey == apiKey && b.config == options
  {
    ProviderBase(apiKey, options)
  }

  /** `validate_api_key`: the truth value of the key string. */
  function ValidateApiKey(b: ProviderBase): (valid: bool)
    ensures valid <==> b.apiKey != ""
  {
    |b.apiKey| > 0
  }
}
