/** The command-line front end (cli.py, `MRDescriptionGenerator`): choosing
    the provider, the size policy that decides whether a diff is summarised,
    where a description is saved, and the order of the steps that turn a
    branch into a description. Git is the `run` function of `GitHelper`;
    the language-model services are a `Network`. */
module Cli {
  import opened Wrappers
  import opened Text
  import opened LlmTypes
  import opened GitHelper
  import opened LlmProvider
  import Config
  import GigaChatProvider
  import DeepSeekProvider
  import DiffTruncator

  // ---------------------------------------------------------------- providers

  /** The keys of `SUPPORTED_PROVIDERS`. */
  const SupportedProviders: set<string> := {"gigachat", "deepseek"}

  /** `create_provider`: the named provider, built from the API key and the
      caller's options; any other name raises `ValueError`. */
  function CreateProvider(providerName: string, apiKey: string, options: Kwargs): (r: Result<Provider, Error>)
    ensures r.Ok? <==> providerName in SupportedProviders
    ensures r.Err? ==> r.error == UnsupportedProvider(providerName)
    ensures r.Ok? ==> Base(r.value) == ProviderBase(apiKey, options)
    ensures r.Ok? ==> (r.value.GigaChatModel? <==> providerName == "gigachat")
    ensures r.Ok? && r.value.GigaChatModel? ==> r.value.gigaChat.accessToken.None?
  {
    if providerName == "gigachat" then Ok(GigaChatModel(GigaChatProvider.New(apiKey, options)))
    else if providerName == "deepseek" then Ok(DeepSeekModel(DeepSeekProvider.New(apiKey, options)))
    else Err(UnsupportedProvider(providerName))
  }

  /** A provider created without a model option reports its vendor's
      default model. */
  lemma CreatedModelName(providerName: string, apiKey: string, options: Kwargs)
    requires providerName in SupportedProviders && options.model.None?
    ensures var p := CreateProvider(providerName, apiKey, options).value;
            ModelName(p) == if providerName == "gigachat" then "GigaChat-GigaChat" else "DeepSeek-deepseek-chat"
  {
    if providerName == "gigachat" {
      GigaChatProvider.DefaultModelName(apiKey, options);
    } else {
      DeepSeekProvider.DefaultModelName(apiKey, options);
    }
  }

  // ---------------------------------------------------------------- size policy

  /** Above 100,000 characters a diff is summarised down to a 50,000 limit;
      above 50,000, to a 30,000 limit; otherwise it is sent as it is. */
  function SizePolicy(size: nat): (limit: Option<nat>)
    ensures limit.None? <==> size <= 50000
    ensures limit.Some? ==> limit.value < size
    ensures limit.Some? ==> (limit.value == 50000 <==> size > 100000)
    ensures limit.Some? ==> (limit.value == 30000 <==> size <= 100000)
  {
    if size > 100000 then Some(50000)
    else if size > 50000 then Some(30000)
    else None
  }

  /** The policy passes a diff through exactly when it is within the
      configured `MAX_DIFF_SIZE`, which the command line repeats as a
      literal rather than reading it. */
  lemma PolicyMatchesMaxDiffSize(size: nat)
    ensures SizePolicy(size).None? <==> size <= Config.GetMaxDiffSize()
    ensures SizePolicy(size).Some? ==> SizePolicy(size).value <= Config.GetMaxDiffSize()
  {
  }

  /** The diff the provider receives. */
  function ApplySizePolicy(diff: string): (r: string)
    ensures |diff| <= 50000 ==> r == diff
  {
    match SizePolicy(|diff|)
    case None => diff
    case Some(limit) => DiffTruncator.SmartTruncate(diff, limit)
  }

  /** A diff the policy catches is always summarised, never passed through:
      each limit is below the size that selected it. The provider then sees
      the summary report, which opens with its banner and keeps the diff's
      file headers up to the fifteenth. */
  lemma {:induction false} LargeDiffIsSummarised(diff: string)
    requires |diff| > 50000
    ensures var limit := SizePolicy(|diff|).value;
            var lines := Split(ApplySizePolicy(diff), '\n');
            && lines == DiffTruncator.Report(|diff|, DiffTruncator.ExpectedSummary(Split(diff, '\n'), limit))
            && lines[0] == "=== УМНОЕ РЕЗЮМЕ DIFF'А ==="
            && DiffTruncator.Headers(DiffTruncator.ExpectedSummary(Split(diff, '\n'), limit).retained)
               == Seqs.Min(DiffTruncator.Headers(Split(diff, '\n')), DiffTruncator.MaxFilesToShow)
  {
    var limit := SizePolicy(|diff|).value;
    DiffTruncator.SummaryLines(diff, limit);
    DiffTruncator.TrailerIffTooManyFiles(diff, limit);
    DiffTruncator.StructureRetained(Split(diff, '\n'), limit);
  }

  // ---------------------------------------------------------------- saving

  datatype Destination = Console | File(path: string)

  const GeneratedDir := "generated/"

  /** The path written to: an absolute path, or one already under
      `generated/`, as given; any other path under `generated/`. */
  function OutputPath(outputFile: string): (path: string)
    ensures EndsWith(path, outputFile)
  {
    if StartsWith(outputFile, "/") || StartsWith(outputFile, GeneratedDir) then outputFile
    else GeneratedDir + outputFile
  }

  /** `save_description`: no file name, or an empty one, prints the
      description; any other is resolved by `OutputPath`. */
  function SaveTarget(outputFile: Option<string>): (d: Destination)
    ensures d.Console? <==> outputFile.None? || outputFile.value == ""
    ensures d.File? ==> d.path == OutputPath(outputFile.value)
  {
    if outputFile.None? || outputFile.value == "" then Console else File(OutputPath(outputFile.value))
  }

  /** Every file is written at an absolute path or under `generated/`, and
      resolving a resolved path changes nothing. */
  lemma OutputPathPlaced(outputFile: string)
    ensures StartsWith(OutputPath(outputFile), "/") || StartsWith(OutputPath(outputFile), GeneratedDir)
    ensures OutputPath(OutputPath(outputFile)) == OutputPath(outputFile)
  {
    var path := OutputPath(outputFile);
    if !(StartsWith(outputFile, "/") || StartsWith(outputFile, GeneratedDir)) {
      assert path[..|GeneratedDir|] == GeneratedDir;
    }
  }

  /** A path is kept as given exactly when it is absolute or already under
      `generated/`; any other is `generated/` followed by the name. */
  lemma OutputPathRelative(outputFile: string)
    ensures OutputPath(outputFile) == outputFile <==> StartsWith(outputFile, "/") || StartsWith(outputFile, GeneratedDir)
    ensures !(StartsWith(outputFile, "/") || StartsWith(outputFile, GeneratedDir)) ==> OutputPath(outputFile) == GeneratedDir + outputFile
  {
    if !StartsWith(outputFile, "/") && !StartsWith(outputFile, GeneratedDir) {
      assert |OutputPath(outputFile)| == |GeneratedDir| + |outputFile|;
    }
  }

  // ---------------------------------------------------------------- generation

  /** The options `generate_description` passes on to the provider: the
      caller's, with the changed files, the commit subjects and the
      repository name (empty when the remote has none) added. */
  function WithContext(options: Kwargs, files: seq<string>, commits: seq<string>, info: RepoInfo): (o: Kwargs)
    ensures o.changedFiles == Some(files) && o.commitMessages == Some(commits)
    ensures o.repoName == Some(info.repoName.GetOr(""))
    ensures o.language == options.language && o.promptType == options.promptType && o.maxTokens == options.maxTokens
  {
    options.(changedFiles := Some(files), commitMessages := Some(commits), repoName := Some(info.repoName.GetOr("")))
  }

  /** The prompt the provider fills always describes the actual repository:
      the name placeholder gets the remote's name (never the `Unknown`
      default) and the counts are those of the lists git returned. */
  lemma ContextReachesPrompt(diff: string, branch: string, options: Kwargs, files: seq<string>, commits: seq<string>, info: RepoInfo)
    ensures var env := Config.FormatArguments(diff, branch, WithContext(options, files, commits, info));
            && env[Config.RepoName] == info.repoName.GetOr("")
            && env[Config.ChangedFilesCount] == NatToString(|files|)
            && env[Config.CommitsCount] == NatToString(|commits|)
            && DigitsValue(env[Config.ChangedFilesCount]) == |files|
            && DigitsValue(env[Config.CommitsCount]) == |commits|
  {
    NatToStringValue(|files|);
    NatToStringValue(|commits|);
  }

  /** `MRDescriptionGenerator.generate_description`: check the repository,
      read its information and the diff, refuse an empty diff, apply the
      size policy, read the changed files and the commit subjects, create
      the provider from the caller's options, and ask it for a description
      with the repository context added to those options. Each step's
      exception ends the run. */
  function GenerateDescription(run: Git, net: Network, branch: string, providerName: string, apiKey: string,
                               baseBranch: Option<string>, options: Kwargs): (r: Result<string, Error>)
    ensures !IsGitRepo(run) ==> r == Err(NotARepository)
    ensures r.Ok? ==> IsGitRepo(run) && providerName in SupportedProviders
    ensures r.Ok? ==> GetDiff(run, branch, baseBranch).Ok? && Strip(GetDiff(run, branch, baseBranch).value) != ""
    ensures IsGitRepo(run) && GetDiff(run, branch, baseBranch).Err? ==> r == Err(GetDiff(run, branch, baseBranch).error)
    ensures (IsGitRepo(run) && GetDiff(run, branch, baseBranch).Ok? && Strip(GetDiff(run, branch, baseBranch).value) == "")
            ==> r == Err(NoChanges(branch))
    ensures (IsGitRepo(run) && GetDiff(run, branch, baseBranch).Ok? && Strip(GetDiff(run, branch, baseBranch).value) != ""
             && GetChangedFiles(run, branch, baseBranch).Err?)
            ==> r == Err(GetChangedFiles(run, branch, baseBranch).error)
    ensures (IsGitRepo(run) && GetDiff(run, branch, baseBranch).Ok? && Strip(GetDiff(run, branch, baseBranch).value) != ""
             && GetChangedFiles(run, branch, baseBranch).Ok? && GetCommitMessages(run, branch, baseBranch).Err?)
            ==> r == Err(GetCommitMessages(run, branch, baseBranch).error)
    ensures r.Ok? ==> Strip(r.value) == r.value
    ensures r.Err? && r.error.GenerationFailed? ==> providerName in SupportedProviders
  {
    if !IsGitRepo(run) then Err(NotARepository)
    else
      // `get_repo_info` repeats the repository check, which has passed.
      var info := GetRepoInfo(run).value;
      var diff :- GetDiff(run, branch, baseBranch);
      if Strip(diff) == "" then Err(NoChanges(branch))
      else
        var content := ApplySizePolicy(diff);
        var files :- GetChangedFiles(run, branch, baseBranch);
        var commits :- GetCommitMessages(run, branch, baseBranch);
        var provider :- CreateProvider(providerName, apiKey, options);
        LlmProvider.GenerateDescription(provider, content, branch, WithContext(options, files, commits, info), net).0
  }

  /** An unsupported provider is reported only once git has produced a
      non-empty diff and the two lists: the provider is created last. */
  lemma {:induction false} UnsupportedProviderReportedLast(run: Git, net: Network, branch: string, providerName: string,
                                                           apiKey: string, baseBranch: Option<string>, options: Kwargs)
    requires providerName !in SupportedProviders
    requires IsGitRepo(run) && GetDiff(run, branch, baseBranch).Ok? && Strip(GetDiff(run, branch, baseBranch).value) != ""
    requires GetChangedFiles(run, branch, baseBranch).Ok? && GetCommitMessages(run, branch, baseBranch).Ok?
    ensures GenerateDescription(run, net, branch, providerName, apiKey, baseBranch, options) == Err(UnsupportedProvider(providerName))
  {
    assert GetRepoInfo(run).Ok?;
  }

  /** Everything before the model call depends only on git: with a working
      provider name, the provider is asked about the size-limited diff (the
      diff itself up to 50,000 characters) with the repository context. */
  lemma {:induction false} ProviderSeesPreparedCall(run: Git, net: Network, branch: string, providerName: string,
                                                    apiKey: string, baseBranch: Option<string>, options: Kwargs)
    requires providerName in SupportedProviders
    requires IsGitRepo(run) && GetDiff(run, branch, baseBranch).Ok? && Strip(GetDiff(run, branch, baseBranch).value) != ""
    requires GetChangedFiles(run, branch, baseBranch).Ok? && GetCommitMessages(run, branch, baseBranch).Ok?
    ensures var diff := GetDiff(run, branch, baseBranch).value;
            var callOptions := WithContext(options, GetChangedFiles(run, branch, baseBranch).value,
                                           GetCommitMessages(run, branch, baseBranch).value, GetRepoInfo(run).value);
            GenerateDescription(run, net, branch, providerName, apiKey, baseBranch, options)
            == LlmProvider.GenerateDescription(CreateProvider(providerName, apiKey, options).value,
                                               ApplySizePolicy(diff), branch, callOptions, net).0
  {
  }
}
