/** The GigaChat provider (providers/gigachat_provider.py): the merge-request
    type classifier, the prompt, the OAuth access-token cache, the chat
    payload and the model name. Both HTTP endpoints are functions of a
    `Network`. */
module GigaChatProvider {
  import opened Wrappers
  import opened Text
  import opened Templates
  import opened LlmTypes
  import opened Config
  import DeepSeekProvider

  const DefaultBaseUrl := "https://gigachat.devices.sberbank.ru/api/v1"
  const DefaultModel := "GigaChat"
  const DefaultTemperature := Float("0.7")
  const DefaultMaxTokens := 1000

  /** The provider's fields. `accessToken` is the cached OAuth token, `None`
      until the first successful token request. */
  datatype GigaChat = GigaChat(
    base: ProviderBase,
    baseUrl: string,
    model: string,
    temperature: Float,
    accessToken: Option<string>)

  /** `GigaChatProvider.__init__`: options override the defaults one by one,
      and no token is cached yet. */
  function New(apiKey: string, options: Kwargs): (p: GigaChat)
    ensures p.base.apiKey == apiKey && p.base.config == options
    ensures options.model.None? ==> p.model == DefaultModel
    ensures options.model.Some? ==> p.model == options.model.value
    ensures options.baseUrl.None? ==> p.baseUrl == DefaultBaseUrl
    ensures options.baseUrl.Some? ==> p.baseUrl == options.baseUrl.value
    ensures options.temperature.None? ==> p.temperature == DefaultTemperature
    ensures options.temperature.Some? ==> p.temperature == options.temperature.value
    ensures p.accessToken.None?
  {
    GigaChat(
      NewBase(apiKey, options),
      options.baseUrl.GetOr(DefaultBaseUrl),
      options.model.GetOr(DefaultModel),
      options.temperature.GetOr(DefaultTemperature),
      None)
  }

  /** The stored defaults of `DEFAULT_CONFIGS["gigachat"]` build the same
      provider settings as no options at all. */
  lemma StoredDefaultsAgree(apiKey: string)
    ensures var p := New(apiKey, GetProviderConfig("gigachat"));
            var q := New(apiKey, NoKwargs);
            p.baseUrl == q.baseUrl && p.model == q.model && p.temperature == q.temperature
  {
  }

  // ---------------------------------------------------------------- the MR type

  datatype MrType = Infrastructure | Bugfix | Refactor | Docs | Feature | Default

  const FixWords: seq<string> := ["fix", "bug", "исправ", "bagfix", "hotfix"]
  const FeatWords: seq<string> := ["feat", "add", "new", "добав", "feature"]
  const RefactorWords: seq<string> := ["refactor", "clean", "рефактор", "restructure"]
  const DocsWords: seq<string> := ["docs", "documentation", "readme", "документ"]

  /** A path that marks CI or deployment work. `.github`, `.yml` and `.yaml`
      are matched as written, the others after lowercasing. */
  predicate IsCiPath(f: string) {
    Contains(f, ".github") || Contains(Lower(f), "ci") || Contains(Lower(f), "docker")
    || Contains(Lower(f), "makefile") || Contains(f, ".yml") || Contains(f, ".yaml")
  }

  predicate IsTestPath(f: string) {
    Contains(Lower(f), "test") || Contains(Lower(f), "spec")
  }

  predicate IsDocsPath(f: string) {
    Contains(Lower(f), "readme") || Contains(Lower(f), ".md")
  }

  predicate IsConfigPath(f: string) {
    Contains(Lower(f), "config") || Contains(f, ".json") || Contains(f, ".toml")
    || Contains(f, ".env") || Contains(f, "requirements")
  }

  /** `' '.join(commit_messages).lower()` */
  function CommitsText(commits: seq<string>): string {
    Lower(Join(commits, ' '))
  }

  predicate MentionsAny(text: string, words: seq<string>) {
    exists w | w in words :: Contains(text, w)
  }

  /** Everything `_detect_mr_type` computes before deciding. */
  datatype Signals = Signals(
    hasCi: bool,
    hasTests: bool,
    hasDocs: bool,
    hasConfig: bool,
    isFix: bool,
    isFeat: bool,
    isRefactor: bool,
    isDocs: bool,
    mentionsDocker: bool,
    mentionsDeploy: bool,
    mentionsNew: bool,
    fileCount: nat)

  function Analyse(files: seq<string>, commits: seq<string>): Signals {
    var text := CommitsText(commits);
    Signals(
      exists f | f in files :: IsCiPath(f),
      exists f | f in files :: IsTestPath(f),
      exists f | f in files :: IsDocsPath(f),
      exists f | f in files :: IsConfigPath(f),
      MentionsAny(text, FixWords),
      MentionsAny(text, FeatWords),
      MentionsAny(text, RefactorWords),
      MentionsAny(text, DocsWords),
      Contains(text, "docker"),
      Contains(text, "deploy"),
      Contains(text, "new"),
      |files|)
  }

  /** The decision chain, in priority order. */
  function Classify(s: Signals): MrType {
    if s.hasCi || s.mentionsDocker || s.mentionsDeploy then Infrastructure
    else if s.isFix && !s.isFeat then Bugfix
    else if s.isRefactor && !s.isFeat then Refactor
    else if s.hasDocs && s.isDocs && s.fileCount <= 5 then Docs
    else if s.isFeat || s.mentionsNew then Feature
    else Default
  }

  /** `_detect_mr_type`: a CI or deployment path always makes the request
      infrastructure work, and the documentation type needs a documentation
      file among at most five changed files. */
  function DetectMrType(files: seq<string>, commits: seq<string>): (r: MrType)
    ensures (exists f | f in files :: IsCiPath(f)) ==> r == Infrastructure
    ensures r == Docs ==> |files| <= 5 && exists f | f in files :: IsDocsPath(f)
    ensures |files| == 0 && |commits| == 0 ==> r == Default
  {
    Classify(Analyse(files, commits))
  }

  /** The test-file and config-file signals are computed but never decide
      anything. */
  lemma {:induction false} TestsAndConfigIgnored(s: Signals, hasTests: bool, hasConfig: bool)
    ensures Classify(s.(hasTests := hasTests, hasConfig := hasConfig)) == Classify(s)
  {
  }

  /** Some commit message, lowercased, contains one of `words`: the reference
      reading of the keyword tests, one message at a time. */
  predicate CommitSays(commits: seq<string>, words: seq<string>) {
    exists c, w | c in commits && w in words :: Contains(Lower(c), w)
  }

  /** A keyword without spaces occurs in the joined, lowercased commit text
      exactly when it occurs in one lowercased message: the join never
      creates a match across two messages. */
  lemma {:induction false} CommitMentions(commits: seq<string>, w: string)
    requires |w| > 0 && ' ' !in w
    ensures Contains(CommitsText(commits), w) <==> CommitSays(commits, [w])
  {
    var lowered := seq(|commits|, i requires 0 <= i < |commits| => Lower(commits[i]));
    LowerJoin(commits);
    ContainsInJoin(lowered, w);
    if Contains(CommitsText(commits), w) {
      var k :| 0 <= k < |lowered| && Contains(lowered[k], w);
      assert commits[k] in commits && w in [w];
    }
    if CommitSays(commits, [w]) {
      var c, w' :| c in commits && w' in [w] && Contains(Lower(c), w');
      var k :| 0 <= k < |commits| && commits[k] == c;
      assert Contains(lowered[k], w);
    }
  }

  lemma {:induction false} CommitMentionsAny(commits: seq<string>, words: seq<string>)
    requires forall w | w in words :: |w| > 0 && ' ' !in w
    ensures MentionsAny(CommitsText(commits), words) <==> CommitSays(commits, words)
  {
    forall w | w in words
      ensures Contains(CommitsText(commits), w) <==> CommitSays(commits, [w])
    {
      CommitMentions(commits, w);
    }
    if CommitSays(commits, words) {
      var c, w :| c in commits && w in words && Contains(Lower(c), w);
      assert CommitSays(commits, [w]) by {
        assert w in [w];
      }
    }
    if MentionsAny(CommitsText(commits), words) {
      var w :| w in words && Contains(CommitsText(commits), w);
      var c, w' :| c in commits && w' in [w] && Contains(Lower(c), w');
    }
  }

  /** Nonempty words without spaces: what `CommitMentions` needs. */
  predicate AreKeywords(words: seq<string>) {
    forall w | w in words :: |w| > 0 && ' ' !in w
  }

  lemma FixKeywords() ensures AreKeywords(FixWords) {}
  lemma FeatKeywords() ensures AreKeywords(FeatWords) {}
  lemma RefactorKeywords() ensures AreKeywords(RefactorWords) {}
  lemma DocsKeywords() ensures AreKeywords(DocsWords) {}
  lemma InfraKeywords() ensures AreKeywords(["docker", "deploy"]) {}

  lemma FixFeatSignals(commits: seq<string>)
    ensures MentionsAny(CommitsText(commits), FixWords) <==> CommitSays(commits, FixWords)
    ensures MentionsAny(CommitsText(commits), FeatWords) <==> CommitSays(commits, FeatWords)
    ensures Contains(CommitsText(commits), "new") ==> MentionsAny(CommitsText(commits), FeatWords)
  {
    FixKeywords();
    CommitMentionsAny(commits, FixWords);
    FeatKeywords();
    CommitMentionsAny(commits, FeatWords);
    assert FeatWords[2] == "new";
  }

  lemma RefactorDocsSignals(commits: seq<string>)
    ensures MentionsAny(CommitsText(commits), RefactorWords) <==> CommitSays(commits, RefactorWords)
    ensures MentionsAny(CommitsText(commits), DocsWords) <==> CommitSays(commits, DocsWords)
  {
    RefactorKeywords();
    CommitMentionsAny(commits, RefactorWords);
    DocsKeywords();
    CommitMentionsAny(commits, DocsWords);
  }

  lemma InfraSignals(commits: seq<string>)
    ensures Contains(CommitsText(commits), "docker") || Contains(CommitsText(commits), "deploy")
            <==> CommitSays(commits, ["docker", "deploy"])
  {
    InfraKeywords();
    CommitMentionsAny(commits, ["docker", "deploy"]);
    var text := CommitsText(commits);
    assert MentionsAny(text, ["docker", "deploy"]) <==> Contains(text, "docker") || Contains(text, "deploy");
  }

  /** The commit signals, read one message at a time. */
  lemma CommitSignals(files: seq<string>, commits: seq<string>)
    ensures var s := Analyse(files, commits);
            && (s.isFix <==> CommitSays(commits, FixWords))
            && (s.isFeat <==> CommitSays(commits, FeatWords))
            && (s.isRefactor <==> CommitSays(commits, RefactorWords))
            && (s.isDocs <==> CommitSays(commits, DocsWords))
            && (s.mentionsDocker || s.mentionsDeploy <==> CommitSays(commits, ["docker", "deploy"]))
            && (s.mentionsNew ==> s.isFeat)
  {
    FixFeatSignals(commits);
    RefactorDocsSignals(commits);
    InfraSignals(commits);
  }

  /** Each type, stated through the files and the individual commit messages
      rather than the decision chain. Infrastructure beats everything; a
      feature keyword blocks the bug-fix and refactor types; the extra `new`
      test adds nothing, since `new` is a feature keyword. */
  lemma DetectMrTypeCases(files: seq<string>, commits: seq<string>)
    ensures var infra := (exists f | f in files :: IsCiPath(f)) || CommitSays(commits, ["docker", "deploy"]);
            var fix := CommitSays(commits, FixWords);
            var feat := CommitSays(commits, FeatWords);
            var refactor := CommitSays(commits, RefactorWords);
            var docs := (exists f | f in files :: IsDocsPath(f)) && CommitSays(commits, DocsWords) && |files| <= 5;
            var t := DetectMrType(files, commits);
            && (t == Infrastructure <==> infra)
            && (t == Bugfix <==> !infra && fix && !feat)
            && (t == Refactor <==> !infra && refactor && !feat && !fix)
            && (t == Docs <==> !infra && (feat || (!fix && !refactor)) && docs)
            && (t == Feature <==> !infra && feat && !docs)
            && (t == Default <==> !infra && !feat && !fix && !refactor && !docs)
  {
    CommitSignals(files, commits);
  }

  /** The type depends on the commit messages only through which messages
      occur: neither their order nor repetitions matter. */
  lemma SameMessagesSameType(files: seq<string>, commits: seq<string>, others: seq<string>)
    requires forall c :: c in commits <==> c in others
    ensures DetectMrType(files, commits) == DetectMrType(files, others)
  {
    DetectMrTypeCases(files, commits);
    DetectMrTypeCases(files, others);
  }

  // ---------------------------------------------------------------- the prompt

  /** `_get_specialized_prompt`. Its body is, line for line, the body of
      `DeepSeekProvider._build_prompt`; the MR type is accepted and unused. */
  function SpecializedPrompt(mrType: MrType, diff: string, branch: string, options: Kwargs): (r: Result<string, Error>)
    ensures r.Ok? <==> options.language.GetOr("ru") in Languages
    ensures r.Ok? ==> Contains(r.value, diff) && Contains(r.value, branch)
  {
    DeepSeekProvider.BuildPrompt(diff, branch, options)
  }

  /** `_build_prompt`: classify, then ask for the specialised prompt. */
  function BuildPrompt(diff: string, branch: string, options: Kwargs): (r: Result<string, Error>)
    ensures r.Ok? <==> options.language.GetOr("ru") in Languages
    ensures r.Ok? ==> Contains(r.value, diff) && Contains(r.value, branch)
  {
    var mrType := DetectMrType(options.changedFiles.GetOr([]), options.commitMessages.GetOr([]));
    SpecializedPrompt(mrType, diff, branch, options)
  }

  /** The detected type never changes the prompt: whatever the changed
      files and commits classify as, GigaChat sends the prompt DeepSeek
      would send. */
  lemma SameAsDeepSeek(mrType: MrType, other: MrType, diff: string, branch: string, options: Kwargs)
    ensures SpecializedPrompt(mrType, diff, branch, options) == SpecializedPrompt(other, diff, branch, options)
    ensures BuildPrompt(diff, branch, options) == DeepSeekProvider.BuildPrompt(diff, branch, options)
  {
  }

  // ---------------------------------------------------------------- the token

  /** A cached token is used when it is truthy, that is present and
      non-empty. */
  predicate HasToken(p: GigaChat) {
    p.accessToken.Some? && p.accessToken.value != ""
  }

  /** `_get_access_token`: the cached token, or a fresh one from the OAuth
      endpoint (authorised by the API key), which is then cached. */
  function AccessToken(p: GigaChat, net: Network): (r: Result<(string, GigaChat), Error>)
    ensures HasToken(p) ==> r == Ok((p.accessToken.value, p))
    ensures r.Ok? ==> r.value.1 == p.(accessToken := Some(r.value.0))
    ensures r.Err? ==> !HasToken(p) && r.error.TokenFailed?
    ensures !HasToken(p) ==>
              var reply := net.token(p.base.apiKey);
              && (r.Ok? <==> reply.Response? && !IsErrorStatus(reply.status) && reply.body.Some?)
              && (r.Ok? ==> r.value.0 == reply.body.value)
  {
    if HasToken(p) then Ok((p.accessToken.value, p))
    else
      match net.token(p.base.apiKey)
      case NoResponse => Err(TokenFailed(Unreachable))
      case Response(status, body) =>
        if IsErrorStatus(status) then Err(TokenFailed(HttpStatus(status)))
        else if body.None? then Err(TokenFailed(MalformedBody))
        else Ok((body.value, p.(accessToken := Some(body.value))))
  }

  /** Once a non-empty token has been obtained, every later request reuses it
      without contacting the OAuth endpoint, whatever that endpoint would
      answer. */
  lemma TokenReused(p: GigaChat, net: Network, later: Network)
    requires AccessToken(p, net).Ok? && AccessToken(p, net).value.0 != ""
    ensures var (token, p') := AccessToken(p, net).value;
            AccessToken(p', later) == Ok((token, p'))
  {
  }

  // ---------------------------------------------------------------- the request

  /** The chat payload: the prompt as the only (user) message, `max_tokens`
      from the call's options, 1000 by default, and no `stream` key. */
  function RequestPayload(p: GigaChat, prompt: string, options: Kwargs): (payload: Payload)
    ensures payload.messages == [Message(User, prompt)]
    ensures options.maxTokens.None? ==> payload.maxTokens == DefaultMaxTokens
    ensures options.maxTokens.Some? ==> payload.maxTokens == options.maxTokens.value
    ensures payload.stream.None?
    ensures payload.model == p.model && payload.temperature == p.temperature
  {
    Payload(p.model, [Message(User, prompt)], p.temperature, options.maxTokens.GetOr(DefaultMaxTokens), None)
  }

  /** `generate_description`. The prompt is built first and the token is
      fetched while the headers are built, both outside the `try`: their
      failures escape unwrapped. A failure of the chat call is reported as a
      GigaChat generation error. The provider is returned with its token
      cache as the call left it, also when the call failed. */
  function GenerateDescription(p: GigaChat, diff: string, branch: string, options: Kwargs, net: Network)
    : (r: (Result<string, Error>, GigaChat))
    ensures BuildPrompt(diff, branch, options).Err? ==> r == (Err(BuildPrompt(diff, branch, options).error), p)
    ensures BuildPrompt(diff, branch, options).Ok? && AccessToken(p, net).Err? ==> r == (Err(AccessToken(p, net).error), p)
    ensures AccessToken(p, net).Ok? && BuildPrompt(diff, branch, options).Ok? ==> r.1 == AccessToken(p, net).value.1
    ensures r.0.Ok? ==> Strip(r.0.value) == r.0.value
    ensures r.0.Err? && r.0.error.GenerationFailed? ==> r.0.error.provider == "GigaChat"
  {
    match BuildPrompt(diff, branch, options)
    case Err(e) => (Err(e), p)
    case Ok(prompt) =>
      match AccessToken(p, net)
      case Err(e) => (Err(e), p)
      case Ok((token, p')) => (Chat(p, token, prompt, options, net), p')
  }

  /** The `try` block of `generate_description`: the chat call with the
      token, whose failures become GigaChat generation errors. */
  function Chat(p: GigaChat, token: string, prompt: string, options: Kwargs, net: Network): (r: Result<string, Error>)
    ensures r.Ok? ==> Strip(r.value) == r.value
    ensures r.Err? ==> r.error.GenerationFailed? && r.error.provider == "GigaChat"
  {
    var request := ChatRequest(p.baseUrl + "/chat/completions", token, RequestPayload(p, prompt, options));
    match DeepSeekProvider.ChatContent(net.chat(request))
    case Ok(content) =>
      StripIdempotent(content);
      Ok(content)
    case Err(cause) => Err(GenerationFailed("GigaChat", cause))
  }

  /** With a prompt and a token in hand, the chat request goes to the
      provider's own endpoint with that token as bearer and the prompt as
      the only message; the description is the reply's stripped first
      choice, and any failure of the call is a GigaChat generation error. */
  lemma ChatWithToken(p: GigaChat, diff: string, branch: string, options: Kwargs, net: Network)
    requires BuildPrompt(diff, branch, options).Ok? && AccessToken(p, net).Ok?
    ensures var prompt := BuildPrompt(diff, branch, options).value;
            var token := AccessToken(p, net).value.0;
            var request := ChatRequest(p.baseUrl + "/chat/completions", token, RequestPayload(p, prompt, options));
            var content := DeepSeekProvider.ChatContent(net.chat(request));
            var r := GenerateDescription(p, diff, branch, options, net).0;
            && request.payload.messages == [Message(User, prompt)]
            && (r.Ok? <==> content.Ok?)
            && (r.Ok? ==> r.value == content.value)
            && (r.Err? ==> r.error == GenerationFailed("GigaChat", content.error))
  {
  }

  /** `get_model_name` */
  function ModelName(p: GigaChat): (name: string)
    ensures StartsWith(name, "GigaChat-")
    ensures name[|"GigaChat-"|..] == p.model
  {
    "GigaChat-" + p.model
  }

  /** A provider built without a model option reports `GigaChat-GigaChat`. */
  lemma DefaultModelName(apiKey: string, options: Kwargs)
    requires options.model.None?
    ensures ModelName(New(apiKey, options)) == "GigaChat-GigaChat"
  {
  }
}
