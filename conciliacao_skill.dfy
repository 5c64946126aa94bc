/** The bank-reconciliation skill (`ConciliacaoSkill`): it claims any message
    whose lower-case form mentions a reconciliation or a bank, and answers with
    a fixed reconciliation status whatever it is asked. */
module ConciliacaoSkill {
  import opened Text
  import opened Results
  import BaseSkill

  const Name := "conciliacao"
  const Description := "Conciliação bancária automatizada"
  const Keywords: seq<string> := ["conciliação", "conciliacao", "banco", "bancária"]

  /** `canHandle(intent, context)`: some keyword occurs in the lower-cased intent. */
  predicate CanHandle(intent: string)
  {
    ContainsAny(Lower(intent), Keywords)
  }

  /** The lines of the status literal. */
  const StatusLines: seq<string> := [
    "\U{1F3E6} **Conciliação Bancária**",
    "",
    "**Status:** Processando...",
    "**Divergências encontradas:** 3",
    "**Valor total:** R$ 2.450,00",
    "",
    "\U{1F504} Conciliação em andamento!"]

  /** `execute(parameters, context)`: a successful result tagged `conciliacao`
      whose text reports the status, three discrepancies and the total. */
  function Execute(): (r: BaseSkill.SkillResult)
    ensures r.success && r.resultType == Name
    ensures Contains(r.data, "**Status:** Processando...")
    ensures Contains(r.data, "**Divergências encontradas:** 3")
    ensures Contains(r.data, "**Valor total:** R$ 2.450,00")
  {
    JoinLinesContains(StatusLines, 2);
    JoinLinesContains(StatusLines, 3);
    JoinLinesContains(StatusLines, 4);
    BaseSkill.SkillResult(true, JoinLines(StatusLines), Name)
  }

  function Claims(intent: string, context: BaseSkill.Context): Attempt<bool>
  {
    Ok(CanHandle(intent))
  }

  function Run(parameters: BaseSkill.Parameters, context: BaseSkill.Context): Attempt<BaseSkill.SkillResult>
  {
    Ok(Execute())
  }

  /** `new ConciliacaoSkill()`: the base skill with both behaviours overridden;
      neither looks at the context or the parameters. */
  function Skill(): (s: BaseSkill.Skill)
    ensures s.name == Name && s.description == Description && s.config == map[]
    ensures forall intent, context :: s.canHandle(intent, context) == Ok(CanHandle(intent))
    ensures forall parameters, context :: s.execute(parameters, context) == Ok(Execute())
  {
    BaseSkill.Create(Name, Description).(canHandle := Claims, execute := Run)
  }

  /** The skill claims a message exactly when one of its four keywords occurs
      in the lower-cased message. */
  lemma CanHandleIff(intent: string)
    ensures CanHandle(intent) <==>
      || Contains(Lower(intent), "conciliação")
      || Contains(Lower(intent), "conciliacao")
      || Contains(Lower(intent), "banco")
      || Contains(Lower(intent), "bancária")
  {
    assert Keywords[0] == "conciliação" && Keywords[1] == "conciliacao";
    assert Keywords[2] == "banco" && Keywords[3] == "bancária";
  }

  /** Matching ignores case: a message and its lower-case form are claimed alike. */
  lemma CaseInsensitive(intent: string)
    ensures CanHandle(Lower(intent)) == CanHandle(intent)
  {
    LowerIdempotent(intent);
  }

  /** A message with a keyword anywhere in it is claimed, whatever else it says. */
  lemma ClaimsKeyword(before: string, k: int, after: string)
    requires 0 <= k < |Keywords|
    ensures CanHandle(before + Keywords[k] + after)
  {
    WordInContext(before, Keywords, k, after);
  }

  /** A message with no keyword in it, such as the empty one, is not claimed. */
  lemma EmptyNotClaimed()
    ensures !CanHandle("")
  {
    assert forall k | 0 <= k < |Keywords| :: |Keywords[k]| > 0;
  }
}
