# mr-generator in Dafny

This project models the core of **mr-generator**, a command-line tool that
writes merge-request descriptions. It reads the difference between a branch
and its base through `git`, shrinks a large diff to a structured summary,
fills a prompt template with the diff and some repository context, and asks
one of two chat-completion services for the text. The services are GigaChat,
which needs an OAuth token that it caches, and DeepSeek. The description is
then printed, or saved under `generated/`.

The modules follow the program's files:

| module | file | what it holds |
|---|---|---|
| `DiffTruncator` | `cli.py` (`_smart_truncate_diff`) | the diff summariser: a closed form, the single pass over the lines proved equal to it, and its properties |
| `Cli` | `cli.py` | provider creation, the size policy, the save path rule, and the `generate_description` orchestration |
| `GitHelper` | `core/git_helper.py` | every `git` query, over an abstract `run` function |
| `LlmTypes`, `LlmProvider` | `core/base_provider.py` | the shared provider fields, and the provider interface as a sum type |
| `GigaChatProvider` | `providers/gigachat_provider.py` | the MR-type classifier, the prompt, the token cache, the payload and the reply |
| `DeepSeekProvider` | `providers/deepseek_provider.py` | template choice and rendering, the payload and the reply |
| `Config` | `config.py` | the provider defaults, the six templates (their placeholders), the size limit and the exclude list |
| `Templates` | (Python's `str.format`) | templates with named holes, and rendering with `KeyError` on a missing name |
| `Text`, `Seqs`, `Wrappers` | (Python built-ins) | `strip`, `startswith`, `in`, `lower`, `split`, `join`, `{:,}` formatting; filter and map; `Option` and `Result` |

Effects become parameters. `git` is a function `Git = seq<string> ->
Completed` from the argument vector to the exit status and the standard
output. The two HTTP endpoints are the two functions of a `Network`. A raised
exception is the `Err` of a `Result`, and `LlmTypes.Error` names each
exception the core raises. GigaChat's token cache is state, so its
`GenerateDescription` returns the provider as the call left it.

Where the code and its own description disagree, the model follows the code:

- The summary's file count does not report the true total. The scan stops at
  the 16th `diff --git` line, so the count saturates at 16.
  `DiffTruncator.ExpectedSummary` states this, and `TrailerIffTooManyFiles`
  proves that the trailer therefore always reports one omitted file.
- The summary is not bounded by `max_size`. Only content lines are
  budgeted, and the budget is `max_size // 2` lines, not characters.
  `ContentWithinBudget` states the bound that does hold.
- GigaChat's `_get_specialized_prompt` ignores the MR type it is given. Its
  body is DeepSeek's `_build_prompt` line for line, so the model reuses that
  function, and `GigaChatProvider.SameAsDeepSeek` proves that the detected
  type never changes the prompt.
- The abstract class `LLMProvider` is modelled as the closed sum type
  `LlmProvider.Provider`, with one variant per subclass.

## Model

| member | source | states |
|---|---|---|
| `DiffTruncator.TruncateDiff` | src/mr_generator/cli.py:125-207 | the single-pass summariser returns exactly the closed-form `SmartTruncate` |
| `DiffTruncator.ScanLines` | src/mr_generator/cli.py:141-183 | the loop over the lines, stopping at the 16th file header, yields the expected counts (file count capped at 16, additions and deletions of the scanned part) and the expected kept lines |
| `DiffTruncator.StepPreserves` | src/mr_generator/cli.py:146-182 | one turn of the `if`/`elif` chain on any line before the stop keeps the scan's invariant |
| `DiffTruncator.StopsAtCap` | src/mr_generator/cli.py:148-155 | the scan breaks on a line exactly when that line is the 16th file header |
| `DiffTruncator.LineKinds` | src/mr_generator/cli.py:148-182 | the branch a line takes agrees with its shape: `+++` and `---` lines are metadata, not additions or deletions; structural, added and deleted lines are never blank |
| `DiffTruncator.SmartTruncate` | src/mr_generator/cli.py:128-129 | a diff within `max_size` characters is returned unchanged |
| `DiffTruncator.Report` | src/mr_generator/cli.py:185-205 | the summary has nine header lines, then the kept lines in place, then four trailer lines exactly when more than 15 files were counted, whose notice gives the number beyond 15 |
| `DiffTruncator.HeaderCounts` | src/mr_generator/cli.py:185-195 | with thousands separators dropped, the size, file, added and deleted lines of the header read as the original size, the file count, the additions and the deletions, and the shown-files line reads as the smaller of the files shown and 15, then the file count |
| `DiffTruncator.SummaryHeaderCounts` | src/mr_generator/cli.py:125-195 | above the limit, the header lines of the result read as the diff's length, the number of file headers saturated at 16, the added and deleted lines of the scanned files, and the number of file headers capped at 15 out of the saturated count |
| `DiffTruncator.SummaryLines` | src/mr_generator/cli.py:184-207 | above the limit, splitting the result on newlines gives back exactly the report lines |
| `DiffTruncator.ReportLinesSingle` | src/mr_generator/cli.py:185-205 | no report line contains a newline when no kept line does |
| `DiffTruncator.TrailerIffTooManyFiles` | src/mr_generator/cli.py:148-205 | the result opens with the banner, and ends with the trailer exactly when the diff has more than 15 file headers; that trailer always reports a single omitted file |
| `DiffTruncator.ScannedHeaders` | src/mr_generator/cli.py:148-155 | the scan reads the first 15 files, or the whole diff when it has at most 15 |
| `DiffTruncator.RetainedIsSubsequence` | src/mr_generator/cli.py:146-182 | the kept lines occur in the diff, in diff order |
| `DiffTruncator.StructureRetained` | src/mr_generator/cli.py:148-166 | every header, metadata and hunk line of the first 15 files is kept whatever the budget, so the kept lines name exactly the files the summary says it shows |
| `DiffTruncator.ContentWithinBudget` | src/mr_generator/cli.py:167-182 | at most `max_size // 2` content lines are kept, no blank line is kept, and every non-blank line is kept when the budget allows |
| `Cli.CreateProvider` | src/mr_generator/cli.py:41-48 | a provider exactly for the two supported names, built from the key and the options, else `UnsupportedProvider` naming the request |
| `Cli.CreatedModelName` | src/mr_generator/cli.py:47-48 | a provider created without a model option reports `GigaChat-GigaChat` or `DeepSeek-deepseek-chat` |
| `Cli.SizePolicy` | src/mr_generator/cli.py:93-100 | a diff over 100,000 characters gets a 50,000 limit, one over 50,000 gets 30,000, and others none; each limit is below the size that chose it |
| `Cli.PolicyMatchesMaxDiffSize` | src/mr_generator/config.py:318 | the policy passes a diff through exactly when it is within the configured `MAX_DIFF_SIZE` |
| `Cli.ApplySizePolicy` | src/mr_generator/cli.py:92-100 | a diff of at most 50,000 characters reaches the provider unchanged |
| `Cli.LargeDiffIsSummarised` | src/mr_generator/cli.py:93-100 | a diff over 50,000 characters always reaches the provider as a summary report that opens with the banner and keeps the file headers of up to 15 files |
| `Cli.SaveTarget` | src/mr_generator/cli.py:209-224 | no file name, or an empty one, prints the description; any other name is written to the resolved path |
| `Cli.OutputPath` | src/mr_generator/cli.py:216-219 | the resolved path ends with the name given |
| `Cli.OutputPathPlaced` | src/mr_generator/cli.py:216-219 | every file is written at an absolute path or under `generated/`, and resolving twice is resolving once |
| `Cli.OutputPathRelative` | src/mr_generator/cli.py:218-219 | a path is kept as given exactly when it is absolute or already under `generated/`; any other becomes exactly `generated/` followed by the name |
| `Cli.WithContext` | src/mr_generator/cli.py:113-118 | the provider's options gain the changed files, the commit subjects and the repository name (empty when there is no remote), and keep the caller's language, prompt type and token limit |
| `Cli.ContextReachesPrompt` | src/mr_generator/cli.py:113-121 | the prompt's repository name is the remote's, and its two counts are the decimal lengths of the lists git returned |
| `Cli.GenerateDescription` | src/mr_generator/cli.py:50-123 | fails with `NotARepository` outside a repository, passes on a `git diff` failure, refuses a blank diff with `NoChanges`, then passes on a failure of the changed-files query and, after it, of the commit-log query, and returns only stripped text from a supported provider |
| `Cli.UnsupportedProviderReportedLast` | src/mr_generator/cli.py:102-110 | an unsupported provider is reported only after git has given a non-blank diff, the changed files and the commits |
| `Cli.ProviderSeesPreparedCall` | src/mr_generator/cli.py:83-121 | with a supported provider, the result is the provider's answer on the size-limited diff with the repository context added |
| `LlmTypes.NewBase` | src/mr_generator/core/base_provider.py:12-14 | the key and the options are stored as given |
| `LlmTypes.ValidateApiKey` | src/mr_generator/core/base_provider.py:38-40 | a key is valid exactly when it is not empty |
| `LlmProvider.ModelName` | src/mr_generator/core/base_provider.py:33-36 | the vendor prefix tells the providers apart, and the rest of the name is the model |
| `LlmProvider.GenerateDescription` | src/mr_generator/core/base_provider.py:16-31 | each variant's result is that variant's own `generate_description`; the provider keeps its variant, key, options and model; a description is stripped; a failed chat names the provider it came from |
| `LlmProvider.SamePromptFailures` | src/mr_generator/providers/gigachat_provider.py:126-142 | for an unknown language both providers fail alike, on the missing `basic_` key, before any request |
| `Config.GetProviderConfig` | src/mr_generator/config.py:341-344 | for `gigachat` and `deepseek`, the stored model, temperature 0.7, base URL and 1000 tokens and nothing else; no options for any other name |
| `Config.TemplateKeys` | src/mr_generator/config.py:22-315 | the table has exactly six templates, one per prompt type (`basic`, `detailed`, `concise`) and language (`ru`, `en`) |
| `Config.KeyInTable` | src/mr_generator/config.py:22-315 | `{prompt_type}_{language}` names a template exactly when both parts are known |
| `Config.TemplatePlaceholders` | src/mr_generator/config.py:22-315 | every template asks for the branch name and the diff; exactly the detailed ones also ask for the repository name and the two counts; none asks for anything else |
| `Config.GetPromptTemplate` | src/mr_generator/config.py:346-349 | the named template, or `basic_ru` for a name not in the table |
| `Config.GetMaxDiffSize` | src/mr_generator/config.py:351-354 | the size limit is positive |
| `Config.GetExcludeFiles` | src/mr_generator/config.py:356-359 | thirteen distinct non-empty patterns, including the npm, yarn and pipenv lock files |
| `Config.FormatArguments` | src/mr_generator/providers/deepseek_provider.py:73-86 | the first `format` call binds exactly the five names, with the branch and the diff as given |
| `Config.BasicArguments` | src/mr_generator/providers/deepseek_provider.py:87-92 | the retry binds only the branch and the diff |
| `Templates.Render` | src/mr_generator/providers/deepseek_provider.py:79-92 | `format` succeeds exactly when every placeholder has a binding; a `KeyError` names a placeholder without one |
| `Templates.RenderContainsBinding` | src/mr_generator/providers/deepseek_provider.py:79-86 | a rendered prompt contains the value bound to each of its placeholders |
| `Templates.RetryCannotRescue` | src/mr_generator/providers/deepseek_provider.py:87-92 | a render that failed with some bindings fails with any subset of them |
| `DeepSeekProvider.New` | src/mr_generator/providers/deepseek_provider.py:13-17 | the base URL, the model and the temperature each take the option's value when one is given and the provider's default otherwise |
| `DeepSeekProvider.SelectKey` | src/mr_generator/providers/deepseek_provider.py:64-69 | the `{prompt_type}_{language}` key when both are known, otherwise the `basic_{language}` key; the chosen key is in the table exactly when the language is known |
| `DeepSeekProvider.StoredDefaultsAgree` | src/mr_generator/config.py:13-18 | the stored DeepSeek defaults build the same settings as no options |
| `DeepSeekProvider.BuildPrompt` | src/mr_generator/providers/deepseek_provider.py:55-92 | a prompt exactly when the language (default `ru`) is known, containing the diff and the branch; otherwise `KeyError` on the `basic_` key |
| `DeepSeekProvider.PromptTemplateChoice` | src/mr_generator/providers/deepseek_provider.py:58-86 | for a known language, the template of the prompt type if known, else the basic one, filled on the first attempt |
| `DeepSeekProvider.FallbackNeverRescues` | src/mr_generator/providers/deepseek_provider.py:87-92 | the retry after `KeyError` never produces a prompt |
| `DeepSeekProvider.DefaultPrompt` | src/mr_generator/providers/deepseek_provider.py:58-86 | with no options the `detailed_ru` template is filled with repository `Unknown` and zero counts |
| `DeepSeekProvider.RequestPayload` | src/mr_generator/providers/deepseek_provider.py:30-45 | a system message and then the prompt, the provider's model and temperature, `max_tokens` as given or 1000 when absent, streaming off |
| `DeepSeekProvider.ChatContent` | src/mr_generator/providers/deepseek_provider.py:48-51 | a reply yields text exactly when it arrived with a non-error status and at least one choice; the text is the first choice stripped |
| `DeepSeekProvider.GenerateDescription` | src/mr_generator/providers/deepseek_provider.py:19-53 | a prompt error escapes as it is; otherwise the call succeeds exactly when the reply has a first choice under a non-error status, the answer is that choice stripped, and any chat failure is a DeepSeek generation error |
| `DeepSeekProvider.ModelName` | src/mr_generator/providers/deepseek_provider.py:94-96 | `DeepSeek-` followed by the model |
| `DeepSeekProvider.DefaultModelName` | src/mr_generator/providers/deepseek_provider.py:16 | without a model option the name is `DeepSeek-deepseek-chat` |
| `GigaChatProvider.New` | src/mr_generator/providers/gigachat_provider.py:15-20 | the base URL, the model and the temperature each take the option's value when one is given and the provider's default otherwise, and no token is cached |
| `GigaChatProvider.StoredDefaultsAgree` | src/mr_generator/config.py:7-12 | the stored GigaChat defaults build the same settings as no options |
| `GigaChatProvider.TestsAndConfigIgnored` | src/mr_generator/providers/gigachat_provider.py:100-124 | the test-file and config-file signals never change the type |
| `GigaChatProvider.CommitMentions` | src/mr_generator/providers/gigachat_provider.py:106-110 | a keyword without spaces occurs in the joined, lowercased commit text exactly when it occurs in one lowercased message |
| `GigaChatProvider.CommitSignals` | src/mr_generator/providers/gigachat_provider.py:105-113 | each commit signal holds exactly when some single message carries one of its keywords, and `new` implies the feature signal |
| `GigaChatProvider.DetectMrType` | src/mr_generator/providers/gigachat_provider.py:94-124 | a CI or deployment path always gives infrastructure; documentation needs a documentation file among at most five files; no files and no commits give the default type |
| `GigaChatProvider.DetectMrTypeCases` | src/mr_generator/providers/gigachat_provider.py:94-124 | each of the six types, stated through the files and the individual messages, in both directions |
| `GigaChatProvider.SameMessagesSameType` | src/mr_generator/providers/gigachat_provider.py:106-124 | the type does not depend on the order or repetition of the commit messages |
| `GigaChatProvider.SpecializedPrompt` | src/mr_generator/providers/gigachat_provider.py:126-163 | a prompt exactly when the language is known, containing the diff and the branch |
| `GigaChatProvider.BuildPrompt` | src/mr_generator/providers/gigachat_provider.py:80-92 | a prompt exactly when the language is known, containing the diff and the branch |
| `GigaChatProvider.SameAsDeepSeek` | src/mr_generator/providers/gigachat_provider.py:126-163 | the MR type never changes the prompt, which is the one DeepSeek builds |
| `GigaChatProvider.AccessToken` | src/mr_generator/providers/gigachat_provider.py:22-46 | a cached non-empty token is returned without a request; otherwise the OAuth endpoint is asked with the key, and the call succeeds exactly when it answers with a non-error status and a token, which is returned and cached; a failure is a token error and happens only when no token was cached |
| `GigaChatProvider.TokenReused` | src/mr_generator/providers/gigachat_provider.py:24-25 | once a non-empty token is obtained, later calls reuse it whatever the OAuth endpoint would say |
| `GigaChatProvider.RequestPayload` | src/mr_generator/providers/gigachat_provider.py:60-70 | the prompt is the only message, with the provider's model and temperature, `max_tokens` as given or 1000 when absent, and no `stream` key |
| `GigaChatProvider.Chat` | src/mr_generator/providers/gigachat_provider.py:72-78 | a successful answer is already stripped, and every failure is a GigaChat generation error |
| `GigaChatProvider.GenerateDescription` | src/mr_generator/providers/gigachat_provider.py:48-78 | prompt and token failures escape unwrapped and leave the provider as it was; otherwise the provider keeps the token it obtained; a description is stripped and a chat failure names GigaChat |
| `GigaChatProvider.ChatWithToken` | src/mr_generator/providers/gigachat_provider.py:53-78 | with a prompt and a token, the answer is the stripped first choice of the reply, and any chat failure is a GigaChat generation error |
| `GigaChatProvider.ModelName` | src/mr_generator/providers/gigachat_provider.py:368-370 | `GigaChat-` followed by the model |
| `GigaChatProvider.DefaultModelName` | src/mr_generator/providers/gigachat_provider.py:18 | without a model option the name is `GigaChat-GigaChat` |
| `GitHelper.Checked` | src/mr_generator/core/git_helper.py:19-25 | a `check=True` run succeeds exactly on exit status 0, with the process's output |
| `GitHelper.GetCurrentBranch` | src/mr_generator/core/git_helper.py:16-28 | the stripped output of `rev-parse --abbrev-ref HEAD`, or a failure |
| `GitHelper.FirstMerging` | src/mr_generator/core/git_helper.py:35-50 | the result is a candidate or `master`; it is the candidate whose probe succeeds when every earlier probe failed, and `master` when every probe fails |
| `GitHelper.GetBaseBranch` | src/mr_generator/core/git_helper.py:30-50 | `main` exactly when it shares history; `develop` exactly when neither `main` nor `master` does but it does; `master` otherwise |
| `GitHelper.ResolveBase` | src/mr_generator/core/git_helper.py:63-64 | a given non-empty base is used as it is; otherwise one of the three candidates |
| `GitHelper.GetDiff` | src/mr_generator/core/git_helper.py:52-89 | the diff from the stripped merge base to the branch, failing exactly when either command does |
| `GitHelper.CleanLines` | src/mr_generator/core/git_helper.py:116 | no more lines come out than went in, and each is non-empty and already stripped |
| `GitHelper.CleanLinesAreStrippedTextLines` | src/mr_generator/core/git_helper.py:116 | the cleaned lines are the stripped non-blank lines, one per such line, in order |
| `GitHelper.CleanLinesKeepsAbsent` | src/mr_generator/core/git_helper.py:144 | cleaning introduces no character that no line holds |
| `GitHelper.OutputLines` | src/mr_generator/core/git_helper.py:116 | every line read back is non-empty, stripped and free of newlines |
| `GitHelper.OutputLinesRoundTrip` | src/mr_generator/core/git_helper.py:144 | items printed one per line are read back unchanged when each is non-empty, stripped and newline-free |
| `GitHelper.GetCommitMessages` | src/mr_generator/core/git_helper.py:91-119 | the cleaned lines of `git log base..branch`, failing exactly when the command does |
| `GitHelper.GetChangedFiles` | src/mr_generator/core/git_helper.py:121-147 | the cleaned lines of `git diff --name-only base...branch`, failing exactly when the command does |
| `GitHelper.RepoName` | src/mr_generator/core/git_helper.py:182-184 | the name contains no `/` |
| `GitHelper.IsGitRepo` | src/mr_generator/core/git_helper.py:149-160 | true exactly when `git rev-parse --git-dir` exits with status 0 |
| `GitHelper.RepoNameOfUrl` | src/mr_generator/core/git_helper.py:181-185 | the name is the URL's last path segment after `/`: a `.git` suffix is dropped, and a name without it comes back whole, however short |
| `GitHelper.RepoNameWithoutSlash` | src/mr_generator/core/git_helper.py:181-185 | a URL without `/` names itself, less one trailing `.git` |
| `GitHelper.GetRepoInfo` | src/mr_generator/core/git_helper.py:162-203 | raises outside a repository; the URL and name are present exactly when the remote is configured; a branch failure is recorded under `error`, ends the collection and keeps the remote; otherwise the last commit is present exactly when `git log -1` succeeds, as its stripped output |

## Left out

- Processes and I/O: `subprocess`, `requests`, file writing and `mkdir` are not modelled. Git and the two HTTP endpoints are abstract functions, and saving is modelled as the choice of destination only.
- HTTP details that do not affect the result are not modelled: the `RqUID` uuid, the `Content-Type` and `Accept` headers, the OAuth scope, `verify=False` and the timeout.
- Console output (`print` banners and progress lines), `argparse`, `load_dotenv` and the `main` entry point are not modelled. They are outside the core.
- Temperatures are Python floats. They are passed through as opaque literals, because nothing computes with them.
- `_get_russian_prompt`, `_get_default_russian_prompt` and `_get_english_prompt` are not modelled. Nothing calls them.
- The prose of the six templates is not modelled, only where their placeholders are. The prose never affects which placeholders exist, and so never affects whether `format` succeeds.
- Exception messages (`str(e)`, the Russian texts) are not modelled. Each exception becomes one constructor of `LlmTypes.Error` that carries its cause.
- Python options of unexpected types (a non-list `changed_files`, say) are not modelled. `Kwargs` is a typed record.
- `Text.Strip` treats ASCII whitespace and U+001C..U+001F as whitespace. Python's `str.strip` also removes the other Unicode spaces, such as U+0085, U+00A0 and U+2000..U+200A.
- `Text.Lower` lowercases ASCII and the basic Cyrillic capitals. Python's `str.lower` covers all of Unicode. The classifier's keywords and the paths it inspects are Latin or basic Cyrillic.
- Cli.OutputPath: `pathlib` normalisation is not modelled. `Path("./x")` becomes `x` and repeated slashes collapse, so the model compares the name as given.
- Cli.GenerateDescription: it fixes the repository info by the first successful repository check. A repository that vanishes between the two checks is not modelled.
