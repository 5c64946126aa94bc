/** The MESH persona (`MeshPersonalityCore`): a fixed identity and expertise,
    and a response context chosen by keywords in the user's message. */
module MeshPersona {
  import opened Text
  import opened Results

  datatype Identity = Identity(name: string, company: string, role: string)
  datatype Expertise = Expertise(primary: seq<string>, technical: seq<string>)
  datatype ResponseContext = ResponseContext(style: string, format: string, expertise: string)
  datatype Persona = Persona(identity: Identity, expertise: Expertise, responseContexts: map<string, ResponseContext>)

  const FinancialAnalysis := "financial_analysis"
  const BpoProcesses := "bpo_processes"
  const GeneralHelp := "general_help"
  const ErrorSituation := "error_situation"

  /** `meshPersonality`. */
  const MeshPersonality := Persona(
    Identity("MESH", "Wfinance", "Analista Sênior de BPO Financeiro"),
    Expertise(
      ["Conciliação Financeira", "Análise de Fluxo de Caixa", "Otimização de Processos BPO",
       "Compliance e Auditoria", "Automação Financeira"],
      ["Cosmos DB", "Blob Storage", "APIs ERP", "Nibo Integration", "Relatórios Automatizados",
       "Processamento de Dados Financeiros"]),
    map[
      FinancialAnalysis := ResponseContext("técnico-preciso", "dados estruturados", "alta"),
      BpoProcesses := ResponseContext("processo-orientado", "etapas detalhadas", "especialista"),
      GeneralHelp := ResponseContext("profissional", "explicação clara", "adaptável"),
      ErrorSituation := ResponseContext("diagnóstico técnico", "análise e solução", "troubleshooting")])

  const FinancialKeywords: seq<string> := [
    "conciliação", "fluxo de caixa", "relatório financeiro",
    "receita", "despesa", "balanço", "dre", "contas", "pagamento"]

  const BpoKeywords: seq<string> := [
    "processo", "workflow", "automação", "bpo", "otimização", "procedimento", "rotina"]

  /** `detectContext(userMessage)`: financial keywords first, then process
      keywords, else general help; the message is lower-cased first. */
  function DetectContext(userMessage: string): (r: string)
    ensures r in {FinancialAnalysis, BpoProcesses, GeneralHelp}
    ensures r in MeshPersonality.responseContexts
    ensures r == FinancialAnalysis <==> ContainsAny(Lower(userMessage), FinancialKeywords)
    ensures r == BpoProcesses <==>
      !ContainsAny(Lower(userMessage), FinancialKeywords) && ContainsAny(Lower(userMessage), BpoKeywords)
  {
    assert FinancialAnalysis[0] == 'f' && BpoProcesses[0] == 'b' && GeneralHelp[0] == 'g';
    var message := Lower(userMessage);
    if ContainsAny(message, FinancialKeywords) then FinancialAnalysis
    else if ContainsAny(message, BpoKeywords) then BpoProcesses
    else GeneralHelp
  }

  datatype GeneratedContext = GeneratedContext(identity: Identity, conversationContext: ResponseContext, expertise: Expertise)

  /** `generateContext(userMessage)`: a missing message counts as the empty one. */
  function GenerateContext(userMessage: Option<string>): (r: GeneratedContext)
    ensures r.identity == MeshPersonality.identity && r.expertise == MeshPersonality.expertise
    ensures r.conversationContext == MeshPersonality.responseContexts[DetectContext(userMessage.GetOr(""))]
  {
    var key := DetectContext(userMessage.GetOr(""));
    GeneratedContext(MeshPersonality.identity, MeshPersonality.responseContexts[key], MeshPersonality.expertise)
  }

  /** The empty message, and so a missing one, asks for general help. */
  lemma EmptyIsGeneralHelp()
    ensures DetectContext("") == GeneralHelp
    ensures GenerateContext(None).conversationContext == ResponseContext("profissional", "explicação clara", "adaptável")
  {
    assert forall k | 0 <= k < |FinancialKeywords| :: |FinancialKeywords[k]| > 0;
    assert forall k | 0 <= k < |BpoKeywords| :: |BpoKeywords[k]| > 0;
  }

  /** Matching ignores case. */
  lemma DetectContextCaseInsensitive(userMessage: string)
    ensures DetectContext(Lower(userMessage)) == DetectContext(userMessage)
  {
    LowerIdempotent(userMessage);
  }

  /** Any text with a financial keyword is financial, whatever process words it has. */
  lemma FinancialOverProcess(before: string, k: int, after: string)
    requires 0 <= k < |FinancialKeywords|
    ensures DetectContext(before + FinancialKeywords[k] + after) == FinancialAnalysis
  {
    var w := FinancialKeywords[k];
    var s := before + w + after;
    LowerConcat(before + w, after);
    LowerConcat(before, w);
    LowerOfLower(w);
    assert Lower(s) == Lower(before) + w + Lower(after);
    assert OccursAt(Lower(s), w, |before|);
  }
}
