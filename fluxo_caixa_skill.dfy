/** The cash-flow skill (`FluxoCaixaSkill`): it claims any message whose
    lower-case form mentions the cash flow or a report, and answers with a
    fixed cash-flow report whatever it is asked. */
module FluxoCaixaSkill {
  import opened Text
  import opened Results
  import BaseSkill

  const Name := "fluxo_caixa"
  const Description := "Geração de relatórios de fluxo de caixa"
  const Keywords: seq<string> := ["fluxo", "caixa", "cash flow", "relatório"]

  /** `canHandle(intent, context)`: some keyword occurs in the lower-cased intent. */
  predicate CanHandle(intent: string)
  {
    ContainsAny(Lower(intent), Keywords)
  }

  /** The lines of the report literal. */
  const ReportLines: seq<string> := [
    "\U{1F4CA} **Relatório de Fluxo de Caixa**",
    "",
    "**Período:** Últimos 30 dias",
    "**Entradas:** R$ 150.000,00",
    "**Saídas:** R$ 120.000,00",
    "**Saldo:** R$ 30.000,00",
    "",
    "\U{2705} Relatório gerado com sucesso!"]

  /** `execute(parameters, context)`: a successful result tagged `fluxo_caixa`
      whose text carries the period, inflow, outflow and balance lines. */
  function Execute(): (r: BaseSkill.SkillResult)
    ensures r.success && r.resultType == Name
    ensures Contains(r.data, "**Período:** Últimos 30 dias")
    ensures Contains(r.data, "**Entradas:** R$ 150.000,00")
    ensures Contains(r.data, "**Saídas:** R$ 120.000,00")
    ensures Contains(r.data, "**Saldo:** R$ 30.000,00")
  {
    JoinLinesContains(ReportLines, 2);
    JoinLinesContains(ReportLines, 3);
    JoinLinesContains(ReportLines, 4);
    JoinLinesContains(ReportLines, 5);
    BaseSkill.SkillResult(true, JoinLines(ReportLines), Name)
  }

  function Claims(intent: string, context: BaseSkill.Context): Attempt<bool>
  {
    Ok(CanHandle(intent))
  }

  function Run(parameters: BaseSkill.Parameters, context: BaseSkill.Context): Attempt<BaseSkill.SkillResult>
  {
    Ok(Execute())
  }

  /** `new FluxoCaixaSkill()`: the base skill with both behaviours overridden;
      neither looks at the context or the parameters. */
  function Skill(): (s: BaseSkill.Skill)
    ensures s.name == Name && s.description == Description && s.config == map[]
    ensures forall intent, context :: s.canHandle(intent, context) == Ok(CanHandle(intent))
    ensures forall parameters, context :: s.execute(parameters, context) == Ok(Execute())
  {
    BaseSkill.Create(Name, Description).(canHandle := Claims, execute := Run)
  }

  /** The skill claims a message exactly when one of its four keywords occurs
      in the lower-cased message. */
  lemma CanHandleIff(intent: string)
    ensures CanHandle(intent) <==>
      || Contains(Lower(intent), "fluxo")
      || Contains(Lower(intent), "caixa")
      || Contains(Lower(intent), "cash flow")
      || Contains(Lower(intent), "relatório")
  {
    assert Keywords[0] == "fluxo" && Keywords[1] == "caixa";
    assert Keywords[2] == "cash flow" && Keywords[3] == "relatório";
  }

  /** Matching ignores case: a message and its lower-case form are claimed alike. */
  lemma CaseInsensitive(intent: string)
    ensures CanHandle(Lower(intent)) == CanHandle(intent)
  {
    LowerIdempotent(intent);
  }

  /** A message with a keyword anywhere in it is claimed, whatever else it
      says; in particular every request that mentions a report. */
  lemma ClaimsKeyword(before: string, k: int, after: string)
    requires 0 <= k < |Keywords|
    ensures CanHandle(before + Keywords[k] + after)
  {
    WordInContext(before, Keywords, k, after);
  }

  /** The request "Preciso do fluxo de caixa de dezembro" is claimed. */
  lemma ClaimsCashFlowRequest()
    ensures CanHandle("Preciso do fluxo de caixa de dezembro")
  {
    assert "Preciso do fluxo de caixa de dezembro" == "Preciso do " + Keywords[0] + " de caixa de dezembro";
    ClaimsKeyword("Preciso do ", 0, " de caixa de dezembro");
  }

  /** A message with no keyword in it, such as the empty one, is not claimed. */
  lemma EmptyNotClaimed()
    ensures !CanHandle("")
  {
    assert forall k | 0 <= k < |Keywords| :: |Keywords[k]| > 0;
  }
}
