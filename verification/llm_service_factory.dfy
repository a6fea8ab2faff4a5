/** `LlmServiceFactory`: resolve the configuration from the request's
    context alone, answer 404 when none resolves, and otherwise hand the
    resolved configuration and the untouched request to the orchestrator of
    the provider's type, returning its response as it is. */
module Router {
  import opened Base
  import opened Domain
  import opened Api
  import opened ConfigurationService
  import opened OllamaChat

  /** The orchestrators a request can be routed to. */
  datatype Service = OllamaService

  /** `getServiceForProvider`: a switch over the closed provider enumeration,
      so every provider type has an orchestrator. */
  function ServiceFor(providerType: ProviderType): Service
  {
    match providerType
    case Ollama => OllamaService
  }

  /** `chat`: `fetch` stands for the candidate query by filter key. No
      orchestrator runs (no trace) when no configuration resolves; otherwise
      the response and trace are those of `chat` for the resolved
      configuration and the original request. */
  method Dispatch(request: ChatRequestDto, fetch: Option<string> -> seq<Configuration>, env: Environment, settings: DispatchSettings)
    returns (result: Response, trace: Option<Trace>)
    requires RequestFilterValue(request.requestContext).Some? ==>
      forall c :: c in fetch(RequestFilterKey(request.requestContext)) ==> HasPlainPattern(c)
    ensures result == NotFound <==> FindConfiguration(request.requestContext, fetch).None?
    ensures trace.None? <==> FindConfiguration(request.requestContext, fetch).None?
    ensures FindConfiguration(request.requestContext, fetch).Some? ==>
      trace.Some? && ChatOutcome(FindConfiguration(request.requestContext, fetch).value, request, env, settings, result, trace.value)
  {
    var configuration := FindConfiguration(request.requestContext, fetch);
    if configuration.None? {
      result := NotFound;
      trace := None;
      return;
    }
    match ServiceFor(configuration.value.provider.providerType)
    case OllamaService =>
      var t;
      result, t := Chat(configuration.value, request, env, settings);
      trace := Some(t);
  }
}
