/** The DeepSeek provider (providers/deepseek_provider.py): prompt selection
    and rendering, the chat payload, the reply handling and the model name.
    The HTTP call is the `chat` function of a `Network`. */
module DeepSeekProvider {
  import opened Wrappers
  import opened Text
  import opened Templates
  import opened LlmTypes
  import opened Config

  const DefaultBaseUrl := "https://api.deepseek.com/v1"
  const DefaultModel := "deepseek-chat"
  const DefaultTemperature := Float("0.7")
  const DefaultMaxTokens := 1000

  /** The system message sent ahead of every prompt. */
  const SystemInstruction := "You are a helpful assistant that generates clear and professional merge request descriptions based on git diffs."

  datatype DeepSeek = DeepSeek(base: ProviderBase, baseUrl: string, model: string, temperature: Float)

  /** `DeepSeekProvider.__init__`: options override the defaults one by one. */
  function New(apiKey: string, options: Kwargs): (p: DeepSeek)
    ensures p.base.apiKey == apiKey && p.base.config == options
    ensures options.model.None? ==> p.model == DefaultModel
    ensures options.model.Some? ==> p.model == options.model.value
    ensures options.baseUrl.None? ==> p.baseUrl == DefaultBaseUrl
    ensures options.baseUrl.Some? ==> p.baseUrl == options.baseUrl.value
    ensures options.temperature.None? ==> p.temperature == DefaultTemperature
    ensures options.temperature.Some? ==> p.temperature == options.temperature.value
  {
    DeepSeek(
      NewBase(apiKey, options),
      options.baseUrl.GetOr(DefaultBaseUrl),
      options.model.GetOr(DefaultModel),
      options.temperature.GetOr(DefaultTemperature))
  }

  /** The stored defaults of `DEFAULT_CONFIGS["deepseek"]` build the same
      provider settings as no options at all. */
  lemma StoredDefaultsAgree(apiKey: string)
    ensures var p := New(apiKey, GetProviderConfig("deepseek"));
            var q := New(apiKey, NoKwargs);
            p.baseUrl == q.baseUrl && p.model == q.model && p.temperature == q.temperature
  {
  }

  // ---------------------------------------------------------------- the prompt

  /** The template key `_build_prompt` looks up: `{prompt_type}_{language}`
      when the table has it, otherwise `basic_{language}`. */
  function SelectKey(promptType: string, language: string): (r: string)
    ensures promptType in PromptKinds && language in Languages ==> r == TemplateKey(promptType, language)
    ensures promptType !in PromptKinds || language !in Languages ==> r == TemplateKey("basic", language)
    ensures r in PromptTemplates <==> language in Languages
  {
    KeyInTable(promptType, language);
    KeyInTable("basic", language);
    var key := TemplateKey(promptType, language);
    if key in PromptTemplates then key else TemplateKey("basic", language)
  }

  /** `_build_prompt`. The language defaults to `ru` and the prompt type to
      `detailed`. A lookup of a missing key raises `KeyError`; a render
      that raises `KeyError` is retried with only the branch name and the
      diff. */
  function BuildPrompt(diff: string, branch: string, options: Kwargs): (r: Result<string, Error>)
    ensures r.Ok? <==> options.language.GetOr("ru") in Languages
    ensures r.Ok? ==> Contains(r.value, diff) && Contains(r.value, branch)
    ensures r.Err? ==> r.error == UnknownTemplate(TemplateKey("basic", options.language.GetOr("ru")))
  {
    var language := options.language.GetOr("ru");
    var key := SelectKey(options.promptType.GetOr("detailed"), language);
    KeyInTable(options.promptType.GetOr("detailed"), language);
    KeyInTable("basic", language);
    if key !in PromptTemplates then Err(UnknownTemplate(key))
    else
      var template := PromptTemplates[key];
      TemplatePlaceholders(key);
      match Render(template, FormatArguments(diff, branch, options))
      case Ok(prompt) =>
        RenderContainsBinding(template, FormatArguments(diff, branch, options), BranchName);
        RenderContainsBinding(template, FormatArguments(diff, branch, options), DiffContent);
        Ok(prompt)
      case Err(_) =>
        match Render(template, BasicArguments(diff, branch))
        case Ok(prompt) => Ok(prompt)
        case Err(name) => Err(MissingPlaceholder(name))
  }

  /** Which template is rendered: for a known language, the one named by the
      prompt type when that type is known, else the basic one; it is filled
      on the first attempt. */
  lemma {:induction false} PromptTemplateChoice(diff: string, branch: string, options: Kwargs)
    requires options.language.GetOr("ru") in Languages
    ensures var language := options.language.GetOr("ru");
            var promptType := options.promptType.GetOr("detailed");
            var key := if promptType in PromptKinds then TemplateKey(promptType, language) else TemplateKey("basic", language);
            && key in PromptTemplates
            && Render(PromptTemplates[key], FormatArguments(diff, branch, options)).Ok?
            && BuildPrompt(diff, branch, options) == Ok(Render(PromptTemplates[key], FormatArguments(diff, branch, options)).value)
  {
    var language := options.language.GetOr("ru");
    var promptType := options.promptType.GetOr("detailed");
    KeyInTable(promptType, language);
    KeyInTable("basic", language);
    var key := SelectKey(promptType, language);
    TemplatePlaceholders(key);
  }

  /** The retry after `KeyError` never produces a prompt: any template the
      full argument set cannot fill, the smaller one cannot fill either. */
  lemma FallbackNeverRescues(template: Template, diff: string, branch: string, options: Kwargs)
    requires Render(template, FormatArguments(diff, branch, options)).Err?
    ensures Render(template, BasicArguments(diff, branch)).Err?
  {
    RetryCannotRescue(template, FormatArguments(diff, branch, options), BasicArguments(diff, branch));
  }

  /** With no options the detailed Russian template is filled, with the
      repository name `Unknown` and two zero counts. */
  lemma DefaultPrompt(diff: string, branch: string)
    ensures var env := FormatArguments(diff, branch, NoKwargs);
            && env[RepoName] == "Unknown" && env[ChangedFilesCount] == "0" && env[CommitsCount] == "0"
            && Render(PromptTemplates["detailed_ru"], env).Ok?
            && BuildPrompt(diff, branch, NoKwargs) == Ok(Render(PromptTemplates["detailed_ru"], env).value)
  {
    DefaultArguments(diff, branch, FormatArguments(diff, branch, NoKwargs));
    DefaultTemplate(diff, branch);
  }

  /** With no options the repository name is `Unknown` and both counts are
      zero. */
  lemma DefaultArguments(diff: string, branch: string, env: Bindings)
    requires env == FormatArguments(diff, branch, NoKwargs)
    ensures env[RepoName] == "Unknown" && env[ChangedFilesCount] == "0" && env[CommitsCount] == "0"
  {
    assert NatToString(0) == "0";
  }

  /** With no options the detailed Russian template is chosen and filled. */
  lemma DefaultTemplate(diff: string, branch: string)
    ensures Render(PromptTemplates["detailed_ru"], FormatArguments(diff, branch, NoKwargs)).Ok?
    ensures BuildPrompt(diff, branch, NoKwargs)
            == Ok(Render(PromptTemplates["detailed_ru"], FormatArguments(diff, branch, NoKwargs)).value)
  {
    var options := NoKwargs;
    assert options.language.GetOr("ru") == "ru" && options.promptType.GetOr("detailed") == "detailed";
    ChosenTemplate(diff, branch, options, "detailed", "ru", "detailed_ru");
  }

  /** `PromptTemplateChoice` for a known prompt type, with its key spelled. */
  lemma ChosenTemplate(diff: string, branch: string, options: Kwargs, promptType: string, language: string, key: string)
    requires options.language.GetOr("ru") == language && options.promptType.GetOr("detailed") == promptType
    requires promptType in PromptKinds && language in Languages && key == TemplateKey(promptType, language)
    ensures key in PromptTemplates
    ensures Render(PromptTemplates[key], FormatArguments(diff, branch, options)).Ok?
    ensures BuildPrompt(diff, branch, options) == Ok(Render(PromptTemplates[key], FormatArguments(diff, branch, options)).value)
  {
    PromptTemplateChoice(diff, branch, options);
  }

  // ---------------------------------------------------------------- the request

  /** The chat payload: the system message, then the prompt as the user
      message; `max_tokens` from the call's options, 1000 by default;
      streaming off. */
  function RequestPayload(p: DeepSeek, prompt: string, options: Kwargs): (payload: Payload)
    ensures payload.messages == [Message(System, SystemInstruction), Message(User, prompt)]
    ensures options.maxTokens.None? ==> payload.maxTokens == DefaultMaxTokens
    ensures options.maxTokens.Some? ==> payload.maxTokens == options.maxTokens.value
    ensures payload.stream == Some(false)
    ensures payload.model == p.model && payload.temperature == p.temperature
  {
    Payload(p.model, [Message(System, SystemInstruction), Message(User, prompt)],
            p.temperature, options.maxTokens.GetOr(DefaultMaxTokens), Some(false))
  }

  /** `response.raise_for_status()` then `result['choices'][0]['message']['content'].strip()`. */
  function ChatContent(reply: Reply<seq<string>>): (r: Result<string, Cause>)
    ensures r.Ok? <==> reply.Response? && !IsErrorStatus(reply.status) && reply.body.Some? && |reply.body.value| > 0
    ensures r.Ok? ==> r.value == Strip(reply.body.value[0])
  {
    match reply
    case NoResponse => Err(Unreachable)
    case Response(status, body) =>
      if IsErrorStatus(status) then Err(HttpStatus(status))
      else if body.None? then Err(MalformedBody)
      else if |body.value| == 0 then Err(NoChoices)
      else Ok(Strip(body.value[0]))
  }

  /** The request `generate_description` sends for a prompt. */
  function ChatFor(p: DeepSeek, prompt: string, options: Kwargs): ChatRequest {
    ChatRequest(p.baseUrl + "/chat/completions", p.base.apiKey, RequestPayload(p, prompt, options))
  }

  /** `generate_description`: build the prompt (its `KeyError` escapes
      unwrapped), post it, and return the stripped first choice; any failure
      of the call is reported as a DeepSeek generation error. */
  function GenerateDescription(p: DeepSeek, diff: string, branch: string, options: Kwargs, net: Network)
    : (r: Result<string, Error>)
    ensures BuildPrompt(diff, branch, options).Err? ==> r == Err(BuildPrompt(diff, branch, options).error)
    ensures BuildPrompt(diff, branch, options).Ok? ==>
              var reply := net.chat(ChatFor(p, BuildPrompt(diff, branch, options).value, options));
              && (r.Ok? <==> ChatContent(reply).Ok?)
              && (r.Ok? ==> r.value == ChatContent(reply).value)
              && (r.Err? ==> r.error == GenerationFailed("DeepSeek", ChatContent(reply).error))
    ensures r.Ok? ==> Strip(r.value) == r.value
  {
    var prompt :- BuildPrompt(diff, branch, options);
    var reply := net.chat(ChatFor(p, prompt, options));
    match ChatContent(reply)
    case Ok(content) =>
      StripIdempotent(content);
      Ok(content)
    case Err(cause) => Err(GenerationFailed("DeepSeek", cause))
  }

  /** `get_model_name` */
  function ModelName(p: DeepSeek): (name: string)
    ensures StartsWith(name, "DeepSeek-")
    ensures name[|"DeepSeek-"|..] == p.model
  {
    "DeepSeek-" + p.model
  }

  /** A provider built without a model option reports `DeepSeek-deepseek-chat`. */
  lemma DefaultModelName(apiKey: string, options: Kwargs)
    requires options.model.None?
    ensures ModelName(New(apiKey, options)) == "DeepSeek-deepseek-chat"
  {
  }
}
