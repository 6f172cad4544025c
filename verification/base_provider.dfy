/** The provider interface (core/base_provider.py). The abstract class and
    its two subclasses become one sum type; the abstract methods dispatch
    on the variant. The shared constructor and `validate_api_key` are
    `LlmTypes.NewBase` and `LlmTypes.ValidateApiKey`. */
module LlmProvider {
  import opened Wrappers
  import opened Text
  import opened LlmTypes
  import GigaChatProvider
  import DeepSeekProvider
  import Config

  datatype Provider =
    | GigaChatModel(gigaChat: GigaChatProvider.GigaChat)
    | DeepSeekModel(deepSeek: DeepSeekProvider.DeepSeek)

  /** The fields `LLMProvider.__init__` stored. */
  function Base(p: Provider): ProviderBase {
    match p
    case GigaChatModel(g) => g.base
    case DeepSeekModel(d) => d.base
  }

  /** The model a provider talks to. */
  function Model(p: Provider): string {
    match p
    case GigaChatModel(g) => g.model
    case DeepSeekModel(d) => d.model
  }

  /** `get_model_name`: the vendor's prefix, then the model; the prefix
      tells the two providers apart. */
  function ModelName(p: Provider): (name: string)
    ensures p.GigaChatModel? <==> StartsWith(name, "GigaChat-")
    ensures p.DeepSeekModel? <==> StartsWith(name, "DeepSeek-")
    ensures p.GigaChatModel? ==> name[|"GigaChat-"|..] == Model(p)
    ensures p.DeepSeekModel? ==> name[|"DeepSeek-"|..] == Model(p)
  {
    match p
    case GigaChatModel(g) =>
      var name := GigaChatProvider.ModelName(g);
      assert name[0] == 'G';
      name
    case DeepSeekModel(d) =>
      var name := DeepSeekProvider.ModelName(d);
      assert name[0] == 'D';
      name
  }

  /** `generate_description`. A description is stripped; a failed call
      names the provider it came from. The provider comes back with the
      same key, options and model: only GigaChat's token cache can change. */
  function GenerateDescription(p: Provider, diff: string, branch: string, options: Kwargs, net: Network)
    : (r: (Result<string, Error>, Provider))
    ensures r.1.GigaChatModel? <==> p.GigaChatModel?
    ensures Base(r.1) == Base(p) && Model(r.1) == Model(p)
    ensures p.DeepSeekModel? ==> r.1 == p
    ensures r.0.Ok? ==> Strip(r.0.value) == r.0.value
    ensures r.0.Err? && r.0.error.GenerationFailed? ==>
              r.0.error.provider == (if p.GigaChatModel? then "GigaChat" else "DeepSeek")
    ensures p.DeepSeekModel? ==> r.0 == DeepSeekProvider.GenerateDescription(p.deepSeek, diff, branch, options, net)
    ensures p.GigaChatModel? ==>
              var (result, g') := GigaChatProvider.GenerateDescription(p.gigaChat, diff, branch, options, net);
              r == (result, GigaChatModel(g'))
  {
    match p
    case GigaChatModel(g) =>
      var (result, g') := GigaChatProvider.GenerateDescription(g, diff, branch, options, net);
      (result, GigaChatModel(g'))
    case DeepSeekModel(d) =>
      (DeepSeekProvider.GenerateDescription(d, diff, branch, options, net), p)
  }

  /** The two providers render the same prompt for the same call, so they
      fail on the same calls before any request is made. */
  lemma SamePromptFailures(p: Provider, q: Provider, diff: string, branch: string, options: Kwargs, net: Network)
    requires options.language.GetOr("ru") !in Config.Languages
    ensures GenerateDescription(p, diff, branch, options, net).0 == Err(UnknownTemplate(Config.TemplateKey("basic", options.language.GetOr("ru"))))
    ensures GenerateDescription(p, diff, branch, options, net).0 == GenerateDescription(q, diff, branch, options, net).0
  {
    GigaChatProvider.SameAsDeepSeek(GigaChatProvider.Default, GigaChatProvider.Default, diff, branch, options);
  }
}
