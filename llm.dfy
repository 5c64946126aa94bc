/** The language-model service (`MinimalNaturalLLM`). A message is answered
    by Azure OpenAI when it is configured, else by OpenAI when it is
    configured, else by a fixed reply picked by keywords. A blank message is
    answered at once. The network is a parameter: a function from the request
    sent to the outcome of the `fetch` call. */
module Llm {
  import opened Text
  import opened Results

  const BlankReply := "Oi! Em que posso ajudar?"
  const DefaultApiVersion := "2024-06-01"
  const DefaultOpenAiModel := "gpt-4o-mini"
  const OpenAiUrl := "https://api.openai.com/v1/chat/completions"
  const MaxTokens := 800
  const Temperature := 0.7

  /** `config.azure`; an empty string stands for a missing or empty field,
      which JavaScript treats alike in `||` and in a condition. A missing
      `deployment` is written into the URL as `undefined`. */
  datatype AzureConfig = AzureConfig(endpoint: string, apiKey: string, deployment: Option<string>, apiVersion: string)

  /** `config.openai`. */
  datatype OpenAiConfig = OpenAiConfig(apiKey: string, model: string)

  datatype LlmConfig = LlmConfig(azure: Option<AzureConfig>, openai: Option<OpenAiConfig>)

  datatype ChatMessage = ChatMessage(role: string, content: string)

  /** A chat-completion request: where it goes, its headers and its JSON body. */
  datatype Request = Request(
    url: string,
    headers: seq<(string, string)>,
    model: Option<string>,
    messages: seq<ChatMessage>,
    maxTokens: nat,
    temperature: real)

  /** How a `fetch` call ends: it throws (or its body is not JSON), the status
      is not 2xx, or it completes with `choices[0].message.content`, which may
      be missing. */
  datatype HttpOutcome = Failed | ErrorStatus | Completed(content: Option<string>)

  type Network = Request -> HttpOutcome

  /** `buildMinimalPrompt()`. */
  const SystemPrompt: string := JoinLines([
    "Você é o MESH, analista sênior de BPO Financeiro da Wfinance há 5 anos.",
    "",
    "Converse naturalmente como um profissional experiente conversaria. Seja direto, prático e útil.",
    "",
    "Suas principais atividades:",
    "- Análise de fluxo de caixa",
    "- Conciliação bancária  ",
    "- Relatórios financeiros",
    "- Integração de sistemas (Cosmos DB, APIs ERP, Nibo)",
    "",
    "Responda em português brasileiro, de forma natural e profissional."])

  // ---------------------------------------------------------------
  // Requests
  // ---------------------------------------------------------------

  /** `endpoint.replace(/\/$/, '')`: at most one trailing slash goes. */
  function StripTrailingSlash(s: string): (r: string)
    ensures |s| > 0 && s[|s| - 1] == '/' ==> s == r + "/"
    ensures !(|s| > 0 && s[|s| - 1] == '/') ==> r == s
  {
    if |s| > 0 && s[|s| - 1] == '/' then s[..|s| - 1] else s
  }

  function Deployment(azure: AzureConfig): string
  {
    match azure.deployment
    case Some(d) => d
    case None => "undefined"
  }

  function ApiVersion(azure: AzureConfig): string
  {
    if azure.apiVersion == "" then DefaultApiVersion else azure.apiVersion
  }

  /** The URL of an Azure chat completion for the configured deployment. */
  function AzureUrl(azure: AzureConfig): string
  {
    StripTrailingSlash(azure.endpoint) + "/openai/deployments/" + Deployment(azure)
      + "/chat/completions?api-version=" + ApiVersion(azure)
  }

  function Conversation(text: string): seq<ChatMessage>
  {
    [ChatMessage("system", SystemPrompt), ChatMessage("user", text)]
  }

  function AzureRequest(text: string, azure: AzureConfig): (r: Request)
    ensures r.url == AzureUrl(azure) && r.model == None
    ensures ("api-key", azure.apiKey) in r.headers
    ensures r.messages == Conversation(text)
  {
    Request(AzureUrl(azure), [("Content-Type", "application/json"), ("api-key", azure.apiKey)],
      None, Conversation(text), MaxTokens, Temperature)
  }

  function OpenAiModel(openai: OpenAiConfig): string
  {
    if openai.model == "" then DefaultOpenAiModel else openai.model
  }

  function OpenAiRequest(text: string, openai: OpenAiConfig): (r: Request)
    ensures r.url == OpenAiUrl && r.model == Some(OpenAiModel(openai))
    ensures ("Authorization", "Bearer " + openai.apiKey) in r.headers
    ensures r.messages == Conversation(text)
  {
    Request(OpenAiUrl, [("Content-Type", "application/json"), ("Authorization", "Bearer " + openai.apiKey)],
      Some(OpenAiModel(openai)), Conversation(text), MaxTokens, Temperature)
  }

  /** What `tryAzure` and `tryOpenAI` resolve to: the trimmed content, or
      nothing when the call throws, fails or has no content. */
  function ProviderResult(outcome: HttpOutcome): (r: Option<string>)
    ensures r.Some? <==> outcome.Completed? && outcome.content.Some?
    ensures r.Some? ==> r.value == Trim(outcome.content.value)
  {
    match outcome
    case Completed(Some(c)) => Some(Trim(c))
    case _ => None
  }

  /** A provider result the chain accepts: present and not empty. */
  predicate Usable(r: Option<string>)
  {
    r.Some? && r.value != ""
  }

  predicate AzureEnabled(config: LlmConfig)
  {
    config.azure.Some? && config.azure.value.endpoint != "" && config.azure.value.apiKey != ""
  }

  predicate OpenAiEnabled(config: LlmConfig)
  {
    config.openai.Some? && config.openai.value.apiKey != ""
  }

  /** `!text?.trim()`: the text is missing or white space only. */
  predicate Blank(text: Option<string>)
  {
    text.None? || Trim(text.value) == ""
  }

  // ---------------------------------------------------------------
  // The keyword fallback
  // ---------------------------------------------------------------

  const CashFlowReply := "Para fluxo de caixa, posso analisar qualquer período. Qual você precisa?"
  const ReconciliationReply := "Conciliação bancária é algo que faço bastante. Qual banco?"
  const ReportReply := "Que tipo de relatório você está pensando?"
  const HelpReply := "Trabalho com análises financeiras, conciliações e relatórios. O que você precisa?"
  const GeneralReply := "Como posso ajudar? Trabalho principalmente com processos financeiros."

  predicate AsksCashFlow(lower: string)
  {
    Contains(lower, "fluxo") && Contains(lower, "caixa")
  }

  predicate AsksReconciliation(lower: string)
  {
    Contains(lower, "conciliação") || Contains(lower, "conciliacao")
  }

  predicate AsksReport(lower: string)
  {
    Contains(lower, "relatório") || Contains(lower, "relatorio")
  }

  predicate AsksHelp(lower: string)
  {
    Contains(lower, "help") || Contains(lower, "ajuda")
  }

  /** `simpleFallback(text)`: the first topic the lower-cased text mentions,
      in the order cash flow, reconciliation, report, help, picks one of five
      fixed replies. */
  function SimpleFallback(text: string): (r: string)
    ensures r in {CashFlowReply, ReconciliationReply, ReportReply, HelpReply, GeneralReply} && r != ""
    ensures r == CashFlowReply <==> AsksCashFlow(Lower(text))
    ensures r == ReconciliationReply <==> !AsksCashFlow(Lower(text)) && AsksReconciliation(Lower(text))
    ensures r == ReportReply <==>
      !AsksCashFlow(Lower(text)) && !AsksReconciliation(Lower(text)) && AsksReport(Lower(text))
    ensures r == HelpReply <==>
      !AsksCashFlow(Lower(text)) && !AsksReconciliation(Lower(text)) && !AsksReport(Lower(text))
      && AsksHelp(Lower(text))
    ensures r == GeneralReply <==>
      !AsksCashFlow(Lower(text)) && !AsksReconciliation(Lower(text)) && !AsksReport(Lower(text))
      && !AsksHelp(Lower(text))
  {
    FallbackRepliesDistinct();
    var lower := Lower(text);
    if AsksCashFlow(lower) then CashFlowReply
    else if AsksReconciliation(lower) then ReconciliationReply
    else if AsksReport(lower) then ReportReply
    else if AsksHelp(lower) then HelpReply
    else GeneralReply
  }

  /** The five replies are different texts, so each names its branch. */
  lemma FallbackRepliesDistinct()
    ensures CashFlowReply != ReconciliationReply && CashFlowReply != ReportReply
    ensures CashFlowReply != HelpReply && CashFlowReply != GeneralReply
    ensures ReconciliationReply != ReportReply && ReconciliationReply != HelpReply
    ensures ReconciliationReply != GeneralReply
    ensures ReportReply != HelpReply && ReportReply != GeneralReply
    ensures HelpReply != GeneralReply
    ensures "" !in {CashFlowReply, ReconciliationReply, ReportReply, HelpReply, GeneralReply}
  {
    assert |CashFlowReply| == 72 && |ReconciliationReply| == 58 && |ReportReply| == 41;
    assert |HelpReply| == 81 && |GeneralReply| == 69;
  }

  // ---------------------------------------------------------------
  // The service
  // ---------------------------------------------------------------

  class MinimalNaturalLlm {
    /** Whether a `fetch` implementation was found at construction. */
    const fetchAvailable: bool
    var initialized: bool

    constructor(fetchAvailable: bool)
      ensures this.fetchAvailable == fetchAvailable && !initialized
    {
      this.fetchAvailable := fetchAvailable;
      initialized := false;
    }

    method Initialize()
      modifies this
      ensures initialized
    {
      initialized := true;
    }

    /** `processMessage(text, config)`. It never throws: every path ends in a
        non-empty reply. `sent` lists the requests made, in order: Azure's
        when Azure is configured, then OpenAI's when OpenAI is configured and
        Azure gave nothing usable. */
    method ProcessMessage(text: Option<string>, config: LlmConfig, network: Network)
      returns (reply: string, sent: seq<Request>)
      ensures reply != ""
      ensures Blank(text) ==> reply == BlankReply && sent == []
      ensures !Blank(text) && !fetchAvailable ==> reply == SimpleFallback(text.value) && sent == []
      ensures !Blank(text) && fetchAvailable && Usable(AzureResult(text.value, config, network)) ==>
        reply == AzureResult(text.value, config, network).value
        && sent == [AzureRequest(text.value, config.azure.value)]
      ensures !Blank(text) && fetchAvailable && !Usable(AzureResult(text.value, config, network)) ==>
        && sent == AzureRequests(text.value, config) + OpenAiRequests(text.value, config)
        && reply == (if Usable(OpenAiResult(text.value, config, network))
                     then OpenAiResult(text.value, config, network).value
                     else SimpleFallback(text.value))
    {
      if Blank(text) {
        return BlankReply, [];
      }
      if !fetchAvailable {
        return SimpleFallback(text.value), [];
      }
      reply, sent := TryProviders(text.value, config, network);
    }

    /** The provider chain of `processMessage` for a text that is not blank,
        with `fetch` available: Azure, then OpenAI, then the keyword
        fallback. */
    method TryProviders(t: string, config: LlmConfig, network: Network)
      returns (reply: string, sent: seq<Request>)
      ensures reply != ""
      ensures Usable(AzureResult(t, config, network)) ==>
        reply == AzureResult(t, config, network).value && sent == [AzureRequest(t, config.azure.value)]
      ensures !Usable(AzureResult(t, config, network)) ==>
        && sent == AzureRequests(t, config) + OpenAiRequests(t, config)
        && reply == (if Usable(OpenAiResult(t, config, network))
                     then OpenAiResult(t, config, network).value
                     else SimpleFallback(t))
    {
      sent := [];
      if AzureEnabled(config) {
        var request := AzureRequest(t, config.azure.value);
        sent := [request];
        var result := ProviderResult(network(request));
        if Usable(result) {
          return result.value, sent;
        }
      }
      assert sent == AzureRequests(t, config);
      if OpenAiEnabled(config) {
        var request := OpenAiRequest(t, config.openai.value);
        sent := sent + [request];
        var result := ProviderResult(network(request));
        if Usable(result) {
          return result.value, sent;
        }
      }
      return SimpleFallback(t), sent;
    }
  }

  /** What Azure gives for the text: nothing unless it is configured. */
  function AzureResult(text: string, config: LlmConfig, network: Network): (r: Option<string>)
    ensures !AzureEnabled(config) ==> r == None
  {
    if AzureEnabled(config) then ProviderResult(network(AzureRequest(text, config.azure.value))) else None
  }

  function AzureRequests(text: string, config: LlmConfig): seq<Request>
  {
    if AzureEnabled(config) then [AzureRequest(text, config.azure.value)] else []
  }

  /** What OpenAI gives for the text: nothing unless it is configured. */
  function OpenAiResult(text: string, config: LlmConfig, network: Network): (r: Option<string>)
    ensures !OpenAiEnabled(config) ==> r == None
  {
    if OpenAiEnabled(config) then ProviderResult(network(OpenAiRequest(text, config.openai.value))) else None
  }

  function OpenAiRequests(text: string, config: LlmConfig): seq<Request>
  {
    if OpenAiEnabled(config) then [OpenAiRequest(text, config.openai.value)] else []
  }

  // ---------------------------------------------------------------
  // Properties of the request and the fallback
  // ---------------------------------------------------------------

  /** An endpoint written with or without one trailing slash yields the same
      URL, and a second slash is kept. */
  lemma AzureUrlTrailingSlash(azure: AzureConfig, e: string)
    requires !(|e| > 0 && e[|e| - 1] == '/')
    ensures AzureUrl(azure.(endpoint := e + "/")) == AzureUrl(azure.(endpoint := e))
    ensures StripTrailingSlash(e + "//") == e + "/"
  {
    assert (e + "/")[..|e|] == e;
    assert (e + "//")[..|e| + 1] == e + "/";
  }

  /** The URL names the deployment and ends with the API version, which is
      2024-06-01 unless one is configured. */
  lemma AzureUrlVersion(azure: AzureConfig)
    ensures var u := AzureUrl(azure);
      var tail := "/chat/completions?api-version=" + ApiVersion(azure);
      |tail| <= |u| && u[|u| - |tail|..] == tail
    ensures azure.apiVersion == "" ==> ApiVersion(azure) == DefaultApiVersion
    ensures azure.apiVersion != "" ==> ApiVersion(azure) == azure.apiVersion
  {
    var head := StripTrailingSlash(azure.endpoint) + "/openai/deployments/" + Deployment(azure);
    var tail := "/chat/completions?api-version=" + ApiVersion(azure);
    assert AzureUrl(azure) == head + tail;
  }

  /** A reply accepted from a provider is its content without surrounding
      white space, and content that trims to nothing is not accepted. */
  lemma ProviderContentTrimmed(c: string)
    ensures Usable(ProviderResult(Completed(Some(c)))) <==> !AllSpace(c)
    ensures Usable(ProviderResult(Completed(Some(c)))) ==> ProviderResult(Completed(Some(c))).value == Trim(c)
  {
    TrimEmptyIff(c);
  }

  /** The fallback reads the text without regard to case. */
  lemma FallbackCaseInsensitive(text: string)
    ensures SimpleFallback(Lower(text)) == SimpleFallback(text)
  {
    LowerIdempotent(text);
  }
}
