/** The static configuration (config.py): per-provider defaults, the six
    prompt templates and the diff size limit, with the `Config` accessors.
    Only the placeholder structure of each template is modelled; its prose
    is an opaque literal per gap between placeholders. */
module Config {
  import opened Wrappers
  import opened Text
  import opened Templates
  import opened LlmTypes

  // ---------------------------------------------------------------- provider defaults

  const GigaChatDefaults := NoKwargs.(
    model := Some("GigaChat"),
    temperature := Some(Float("0.7")),
    baseUrl := Some("https://gigachat.devices.sberbank.ru/api/v1"),
    maxTokens := Some(1000))

  const DeepSeekDefaults := NoKwargs.(
    model := Some("deepseek-chat"),
    temperature := Some(Float("0.7")),
    baseUrl := Some("https://api.deepseek.com/v1"),
    maxTokens := Some(1000))

  /** `DEFAULT_CONFIGS` */
  const DefaultConfigs: map<string, Kwargs> := map[
    "gigachat" := GigaChatDefaults,
    "deepseek" := DeepSeekDefaults
  ]

  /** `Config.get_provider_config`: the stored defaults of a known provider,
      and no options at all for any other name. */
  function GetProviderConfig(providerName: string): (r: Kwargs)
    ensures providerName == "gigachat" ==>
              && r.model == Some("GigaChat") && r.temperature == Some(Float("0.7"))
              && r.baseUrl == Some("https://gigachat.devices.sberbank.ru/api/v1") && r.maxTokens == Some(1000)
    ensures providerName == "deepseek" ==>
              && r.model == Some("deepseek-chat") && r.temperature == Some(Float("0.7"))
              && r.baseUrl == Some("https://api.deepseek.com/v1") && r.maxTokens == Some(1000)
    ensures providerName !in {"gigachat", "deepseek"} ==> r == NoKwargs
    ensures r.language.None? && r.promptType.None? && r.repoName.None?
    ensures r.changedFiles.None? && r.commitMessages.None?
  {
    if providerName in DefaultConfigs then DefaultConfigs[providerName] else NoKwargs
  }

  // ---------------------------------------------------------------- prompt templates

  /** The names `_build_prompt` passes to `format`. */
  const BranchName := "branch_name"
  const DiffContent := "diff_content"
  const RepoName := "repo_name"
  const ChangedFilesCount := "changed_files_count"
  const CommitsCount := "commits_count"

  const PromptKinds: set<string> := {"basic", "detailed", "concise"}
  const Languages: set<string> := {"ru", "en"}

  /** `f"{prompt_type}_{language}"` */
  function TemplateKey(kind: string, language: string): string {
    kind + "_" + language
  }

  /** The prose between two placeholders of the template `key`. */
  function Prose(key: string, gap: nat): Segment {
    Lit(key + "#" + NatToString(gap))
  }

  /** `basic_*` and `concise_*`: the branch name, then the diff. */
  function Short(key: string): Template {
    [Prose(key, 0), Hole(BranchName), Prose(key, 1), Hole(DiffContent), Prose(key, 2)]
  }

  /** `detailed_*`: the branch name, the repository context line (name, file
      count, commit count), then the diff. */
  function Detailed(key: string): Template {
    [Prose(key, 0), Hole(BranchName), Prose(key, 1), Hole(RepoName), Prose(key, 2),
     Hole(ChangedFilesCount), Prose(key, 3), Hole(CommitsCount), Prose(key, 4),
     Hole(DiffContent), Prose(key, 5)]
  }

  /** `PROMPT_TEMPLATES` */
  const PromptTemplates: map<string, Template> := map[
    "basic_ru" := Short("basic_ru"),
    "basic_en" := Short("basic_en"),
    "detailed_ru" := Detailed("detailed_ru"),
    "detailed_en" := Detailed("detailed_en"),
    "concise_ru" := Short("concise_ru"),
    "concise_en" := Short("concise_en")
  ]

  lemma ShortHoles(key: string)
    ensures Holes(Short(key)) == {BranchName, DiffContent}
  {
    var t := Short(key);
    assert t == [t[0]] + [t[1]] + [t[2]] + [t[3]] + [t[4]];
    HolesConcat([t[0]] + [t[1]] + [t[2]] + [t[3]], [t[4]]);
    HolesConcat([t[0]] + [t[1]] + [t[2]], [t[3]]);
    HolesConcat([t[0]] + [t[1]], [t[2]]);
    HolesConcat([t[0]], [t[1]]);
    HolesSingle(t[0]);
    HolesSingle(t[1]);
    HolesSingle(t[2]);
    HolesSingle(t[3]);
    HolesSingle(t[4]);
  }

  lemma DetailedHoles(key: string)
    ensures Holes(Detailed(key)) == {BranchName, RepoName, ChangedFilesCount, CommitsCount, DiffContent}
  {
    var t := Detailed(key);
    assert t == [t[0], t[1], t[2]] + [t[3], t[4], t[5], t[6], t[7], t[8]] + [t[9], t[10]];
    HolesConcat([t[0], t[1], t[2]] + [t[3], t[4], t[5], t[6], t[7], t[8]], [t[9], t[10]]);
    HolesConcat([t[0], t[1], t[2]], [t[3], t[4], t[5], t[6], t[7], t[8]]);
    HolesOfPairs(t[0], t[1], t[2], t[3], t[4], t[5], t[6], t[7], t[8], t[9], t[10]);
  }

  lemma HolesOfPairs(s0: Segment, s1: Segment, s2: Segment, s3: Segment, s4: Segment, s5: Segment,
                     s6: Segment, s7: Segment, s8: Segment, s9: Segment, s10: Segment)
    requires s0.Lit? && s2.Lit? && s4.Lit? && s6.Lit? && s8.Lit? && s10.Lit?
    requires s1.Hole? && s3.Hole? && s5.Hole? && s7.Hole? && s9.Hole?
    ensures Holes([s0, s1, s2]) == {s1.name}
    ensures Holes([s3, s4, s5, s6, s7, s8]) == {s3.name, s5.name, s7.name}
    ensures Holes([s9, s10]) == {s9.name}
  {
    HolesConcat([s0], [s1, s2]);
    HolesConcat([s1], [s2]);
    HolesConcat([s3, s4], [s5, s6, s7, s8]);
    HolesConcat([s3], [s4]);
    HolesConcat([s5, s6], [s7, s8]);
    HolesConcat([s5], [s6]);
    HolesConcat([s7], [s8]);
    HolesConcat([s9], [s10]);
    HolesSingle(s0); HolesSingle(s1); HolesSingle(s2); HolesSingle(s3); HolesSingle(s4);
    HolesSingle(s5); HolesSingle(s6); HolesSingle(s7); HolesSingle(s8); HolesSingle(s9); HolesSingle(s10);
  }

  /** The key of a known kind and language is one of the six. */
  lemma KnownKey(kind: string, language: string)
    requires kind in PromptKinds && language in Languages
    ensures TemplateKey(kind, language) in PromptTemplates
  {
    if kind == "basic" {
      assert TemplateKey(kind, "ru") == "basic_ru" && TemplateKey(kind, "en") == "basic_en";
    } else if kind == "detailed" {
      assert TemplateKey(kind, "ru") == "detailed_ru" && TemplateKey(kind, "en") == "detailed_en";
    } else {
      assert TemplateKey(kind, "ru") == "concise_ru" && TemplateKey(kind, "en") == "concise_en";
    }
  }

  /** Each of the six keys is spelled by a known kind and language. */
  lemma KeyParts(key: string) returns (kind: string, language: string)
    requires key in PromptTemplates
    ensures kind in PromptKinds && language in Languages && key == TemplateKey(kind, language)
  {
    language := if key in {"basic_ru", "detailed_ru", "concise_ru"} then "ru" else "en";
    kind := if key in {"basic_ru", "basic_en"} then "basic" else if key in {"detailed_ru", "detailed_en"} then "detailed" else "concise";
  }

  /** The table holds exactly one template per prompt kind and language. */
  lemma TemplateKeys()
    ensures PromptTemplates.Keys == set kind, language | kind in PromptKinds && language in Languages :: TemplateKey(kind, language)
    ensures |PromptTemplates.Keys| == 6
  {
    var keys := set kind, language | kind in PromptKinds && language in Languages :: TemplateKey(kind, language);
    forall kind, language | kind in PromptKinds && language in Languages
      ensures TemplateKey(kind, language) in PromptTemplates
    {
      KnownKey(kind, language);
    }
    forall key | key in PromptTemplates
      ensures key in keys
    {
      var kind, language := KeyParts(key);
    }
    TemplateCount();
  }

  lemma TemplateCount()
    ensures |PromptTemplates.Keys| == 6
  {
    assert PromptTemplates.Keys == {"basic_ru", "basic_en", "detailed_ru", "detailed_en", "concise_ru", "concise_en"};
  }

  /** The keys of the detailed templates. */
  predicate IsDetailedKey(key: string) {
    key == "detailed_ru" || key == "detailed_en"
  }

  /** Each table entry is the short or the detailed shape, keyed by itself. */
  lemma TemplateShape(key: string)
    requires key in PromptTemplates
    ensures PromptTemplates[key] == if IsDetailedKey(key) then Detailed(key) else Short(key)
  {
  }

  /** What each template asks `format` for: all of them the branch name and
      the diff; only the detailed ones the repository name and the two counts;
      none anything beyond the five names `_build_prompt` supplies. */
  lemma TemplatePlaceholders(key: string)
    requires key in PromptTemplates
    ensures {BranchName, DiffContent} <= Holes(PromptTemplates[key])
    ensures Holes(PromptTemplates[key]) <= {BranchName, DiffContent, RepoName, ChangedFilesCount, CommitsCount}
    ensures RepoName in Holes(PromptTemplates[key]) <==> IsDetailedKey(key)
    ensures ChangedFilesCount in Holes(PromptTemplates[key]) <==> IsDetailedKey(key)
    ensures CommitsCount in Holes(PromptTemplates[key]) <==> IsDetailedKey(key)
  {
    TemplateShape(key);
    if IsDetailedKey(key) {
      DetailedHoles(key);
    } else {
      ShortHoles(key);
      assert RepoName != BranchName && RepoName != DiffContent;
    }
  }

  /** A `{prompt_type}_{language}` key names a template exactly when the
      prompt type and the language are both known: no other pair of strings
      spells one of the six keys. */
  lemma KeyInTable(kind: string, language: string)
    ensures TemplateKey(kind, language) in PromptTemplates <==> kind in PromptKinds && language in Languages
  {
    TemplateKeys();
    if TemplateKey(kind, language) in PromptTemplates {
      var k, l :| k in PromptKinds && l in Languages && TemplateKey(kind, language) == TemplateKey(k, l);
      assert '_' !in k && '_' !in l;
      SeparatorSplitsUniquely(kind, language, k, l, '_');
    }
  }

  /** The keyword arguments of the first `format` call of `_build_prompt`:
      the repository name defaults to `Unknown` and the two lists to empty. */
  function FormatArguments(diff: string, branch: string, options: Kwargs): (env: Bindings)
    ensures env.Keys == {BranchName, DiffContent, RepoName, ChangedFilesCount, CommitsCount}
    ensures env[BranchName] == branch && env[DiffContent] == diff
  {
    map[
      BranchName := branch,
      DiffContent := diff,
      RepoName := options.repoName.GetOr("Unknown"),
      ChangedFilesCount := NatToString(|options.changedFiles.GetOr([])|),
      CommitsCount := NatToString(|options.commitMessages.GetOr([])|)
    ]
  }

  /** The keyword arguments of the retry after a `KeyError`. */
  function BasicArguments(diff: string, branch: string): (env: Bindings)
    ensures env.Keys == {BranchName, DiffContent}
    ensures env[BranchName] == branch && env[DiffContent] == diff
  {
    map[BranchName := branch, DiffContent := diff]
  }

  /** `Config.get_prompt_template`: the named template, and `basic_ru` for
      any name not in the table, whatever language the name asked for. */
  function GetPromptTemplate(templateName: string): (t: Template)
    ensures templateName in PromptTemplates ==> t == PromptTemplates[templateName]
    ensures templateName !in PromptTemplates ==> t == PromptTemplates["basic_ru"]
    ensures {BranchName, DiffContent} <= Holes(t)
  {
    var key := if templateName in PromptTemplates then templateName else "basic_ru";
    TemplatePlaceholders(key);
    PromptTemplates[key]
  }

  // ---------------------------------------------------------------- size limit

  /** `MAX_DIFF_SIZE`, in characters. */
  const MaxDiffSize: nat := 50000

  /** `Config.get_max_diff_size` */
  function GetMaxDiffSize(): (r: nat)
    ensures r > 0
  {
    MaxDiffSize
  }

  // ---------------------------------------------------------------- excluded files

  /** `EXCLUDE_FILES`: glob patterns of generated and vendored files. */
  const ExcludeFiles: seq<string> := [
    "*.lock", "*.log", "*.tmp", "*.cache", "*.pyc", "__pycache__/*", "node_modules/*",
    ".git/*", "*.min.js", "*.min.css", "package-lock.json", "yarn.lock", "Pipfile.lock"
  ]

  /** `Config.get_exclude_files`: thirteen distinct, non-empty patterns, the
      lock files of npm, yarn and pipenv among them. */
  function GetExcludeFiles(): (r: seq<string>)
    ensures |r| == 13
    ensures forall i | 0 <= i < |r| :: r[i] != ""
    ensures forall i, j | 0 <= i < j < |r| :: r[i] != r[j]
    ensures "package-lock.json" in r && "yarn.lock" in r && "Pipfile.lock" in r
  {
    ExcludeFiles
  }
}
