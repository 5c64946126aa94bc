/** The keyword-driven MESH bot (`MeshBotPureNatural`). A message is
    classified, in this order, as a greeting, a financial topic or a question,
    and answered with a fixed reply for its class; greetings and unclassified
    messages get one of three replies picked at random. The random number is
    a parameter `roll` in [0, 1), as `Math.random()` returns. */
module MeshBot {
  import opened Text
  import opened Results

  const Name := "MESH"
  const Role := "Analista Sênior de BPO Financeiro"
  const Company := "Wfinance"
  const Experience := "5 anos"

  const BlankReply := "Oi! Em que posso ajudar?"
  const ErrorReply := "Tive um problema técnico. Pode tentar novamente?"

  const GreetingWords: seq<string> := ["oi", "olá", "ola", "hello", "hi", "e aí", "tudo bem"]
  const FinancialTerms: seq<string> := [
    "fluxo", "caixa", "conciliação", "conciliacao", "bancária", "bancaria",
    "relatório", "relatorio", "dre", "balanço", "balanco", "financeiro"]

  const GreetingReplies: seq<string> := [
    "Oi! Sou o MESH, analista financeiro da Wfinance. Como posso ajudar?",
    "Olá! Em que posso ajudar hoje?",
    "Oi! Tudo bem? No que posso ser útil?"]

  const CashFlowReply := "Para análise de fluxo de caixa, posso ajudar com projeções e análise de sazonalidade. Qual período você precisa?"
  const ReconciliationReply := "Conciliação bancária é uma das minhas especialidades! De qual banco você precisa?"
  const ReportReply := "Posso ajudar com relatórios financeiros: DRE, balanço, indicadores. Qual tipo você precisa?"
  const FinanceReply := "Trabalho com análises financeiras, conciliações, relatórios e projeções. O que exatamente você precisa?"
  const QuestionReply := "Boa pergunta! Como analista financeiro, posso ajudar com diversas questões de negócio. Pode me dar mais detalhes do que precisa?"

  const DefaultReplies: seq<string> := [
    "Entendi. Como posso ajudar com isso?",
    "Certo. Me conte mais sobre o que você precisa...",
    "Interessante. No que posso ser útil especificamente?"]

  /** `options[Math.floor(roll * options.length)]`. */
  function Pick(options: seq<string>, roll: real): (r: string)
    requires |options| > 0 && 0.0 <= roll < 1.0
    ensures r in options
  {
    var i := (roll * |options| as real).Floor;
    assert 0 <= i < |options| by {
      assert 0.0 <= roll * |options| as real < |options| as real;
    }
    options[i]
  }

  // ---------------------------------------------------------------
  // Classification (applied to the lower-cased text)
  // ---------------------------------------------------------------

  predicate IsGreeting(lower: string)
  {
    ContainsAny(lower, GreetingWords)
  }

  predicate IsFinancialTopic(lower: string)
  {
    ContainsAny(lower, FinancialTerms)
  }

  /** `text.includes('?') || text.startsWith('como')`. */
  predicate IsQuestion(lower: string)
  {
    Contains(lower, "?") || StartsWith(lower, "como")
  }

  // ---------------------------------------------------------------
  // Replies
  // ---------------------------------------------------------------

  function GenerateGreetingResponse(roll: real): (r: string)
    requires 0.0 <= roll < 1.0
    ensures r in GreetingReplies
  {
    Pick(GreetingReplies, roll)
  }

  function GenerateDefaultResponse(roll: real): (r: string)
    requires 0.0 <= roll < 1.0
    ensures r in DefaultReplies
  {
    Pick(DefaultReplies, roll)
  }

  /** `generateFinancialResponse(lower)`: cash flow (both words), then
      reconciliation, then report, then a general financial reply. */
  function GenerateFinancialResponse(lower: string): (r: string)
    ensures r in {CashFlowReply, ReconciliationReply, ReportReply, FinanceReply}
    ensures r == CashFlowReply <==> Contains(lower, "fluxo") && Contains(lower, "caixa")
    ensures r == ReconciliationReply <==>
      !(Contains(lower, "fluxo") && Contains(lower, "caixa"))
      && (Contains(lower, "conciliação") || Contains(lower, "conciliacao"))
    ensures r == ReportReply <==>
      !(Contains(lower, "fluxo") && Contains(lower, "caixa"))
      && !(Contains(lower, "conciliação") || Contains(lower, "conciliacao"))
      && (Contains(lower, "relatório") || Contains(lower, "relatorio"))
  {
    RepliesDistinct();
    if Contains(lower, "fluxo") && Contains(lower, "caixa") then CashFlowReply
    else if Contains(lower, "conciliação") || Contains(lower, "conciliacao") then ReconciliationReply
    else if Contains(lower, "relatório") || Contains(lower, "relatorio") then ReportReply
    else FinanceReply
  }

  /** The replies of different classes are different texts. */
  lemma RepliesDistinct()
    ensures |GreetingReplies[0]| == 67 && |GreetingReplies[1]| == 30 && |GreetingReplies[2]| == 36
    ensures |CashFlowReply| == 112 && |ReconciliationReply| == 81 && |ReportReply| == 91
    ensures |FinanceReply| == 103 && |QuestionReply| == 128
    ensures |DefaultReplies[0]| == 36 && |DefaultReplies[1]| == 48 && |DefaultReplies[2]| == 52
    ensures GreetingReplies[2] != DefaultReplies[0]
    ensures |BlankReply| == 24
  {
    assert GreetingReplies[2][0] == 'O' && DefaultReplies[0][0] == 'E';
  }

  /** The financial replies are none of the greeting, question or default ones. */
  lemma ClassesDisjoint()
    ensures forall i | 0 <= i < 3 :: GreetingReplies[i] !in DefaultReplies
    ensures forall x | x in {CashFlowReply, ReconciliationReply, ReportReply, FinanceReply} ::
      x !in GreetingReplies && x !in DefaultReplies && x != QuestionReply
    ensures QuestionReply !in GreetingReplies && QuestionReply !in DefaultReplies
  {
    RepliesDistinct();
  }

  /** `generateNaturalResponse(text)`: greeting before financial topic before
      question before the default, each checked against the lower-cased text. The
      reply tells the class apart: each class has its own replies. */
  function GenerateNaturalResponse(text: string, roll: real): (r: string)
    requires 0.0 <= roll < 1.0
    ensures var lower := Lower(text);
      && (r in GreetingReplies <==> IsGreeting(lower))
      && (!IsGreeting(lower) && IsFinancialTopic(lower) <==> r == GenerateFinancialResponse(lower))
      && (r == QuestionReply <==> !IsGreeting(lower) && !IsFinancialTopic(lower) && IsQuestion(lower))
      && (r in DefaultReplies <==> !IsGreeting(lower) && !IsFinancialTopic(lower) && !IsQuestion(lower))
  {
    ClassesDisjoint();
    var lower := Lower(text);
    if IsGreeting(lower) then GenerateGreetingResponse(roll)
    else if IsFinancialTopic(lower) then GenerateFinancialResponse(lower)
    else if IsQuestion(lower) then QuestionReply
    else GenerateDefaultResponse(roll)
  }

  /** `processNaturalMessage(context)`: the text sent back for an activity
      text (missing is the empty text). Blank text is answered without being
      classified. */
  function ProcessNaturalMessage(text: Option<string>, roll: real): (r: string)
    requires 0.0 <= roll < 1.0
    ensures text.None? || Trim(text.value) == [] ==> r == BlankReply
    ensures text.Some? && Trim(text.value) != [] ==> r == GenerateNaturalResponse(Trim(text.value), roll)
    ensures r != BlankReply <==> text.Some? && !AllSpace(text.value)
  {
    TrimEmptyIff(text.GetOr(""));
    var t := if text.Some? then Trim(text.value) else "";
    if t == [] then BlankReply else NaturalResponseNotBlank(t, roll); GenerateNaturalResponse(t, roll)
  }

  /** No classified reply is the blank-message reply. */
  lemma NaturalResponseNotBlank(text: string, roll: real)
    requires 0.0 <= roll < 1.0
    ensures GenerateNaturalResponse(text, roll) != BlankReply
  {
    RepliesDistinct();
    var lower := Lower(text);
    if IsGreeting(lower) {
      assert GenerateNaturalResponse(text, roll) in GreetingReplies;
    } else if IsFinancialTopic(lower) {
      assert GenerateNaturalResponse(text, roll) == GenerateFinancialResponse(lower);
    } else if !IsQuestion(lower) {
      assert GenerateNaturalResponse(text, roll) in DefaultReplies;
    }
  }

  /** What follows the name in the welcome text. */
  const WelcomeTail := "! Sou o MESH, analista financeiro da Wfinance. Como posso ajudar?"

  /** `handleNewMember`: the welcome text, with `colega` for a member without
      a name. The name can be read back from between the fixed greeting and
      the fixed tail. */
  function WelcomeMessage(memberName: string): (r: string)
    ensures var name := if memberName == "" then "colega" else memberName;
      && |r| == 3 + |name| + |WelcomeTail|
      && r[..3] == "Oi " && r[3..3 + |name|] == name && r[3 + |name|..] == WelcomeTail
    ensures StartsWith(r, "Oi ") && Contains(r, if memberName == "" then "colega" else memberName)
  {
    var name := if memberName == "" then "colega" else memberName;
    var r := "Oi " + name + WelcomeTail;
    assert r[..3] == "Oi ";
    assert r[3..3 + |name|] == name;
    assert r[3 + |name|..] == WelcomeTail;
    assert OccursAt(r, name, 3);
    r
  }

  // ---------------------------------------------------------------
  // Properties
  // ---------------------------------------------------------------

  /** A word of `words` inside a text occurs in its lower-cased form. */
  lemma LowerKeepsWord(before: string, w: string, after: string)
    requires IsLower(w)
    ensures Contains(Lower(before + w + after), w)
  {
    LowerConcat(before + w, after);
    LowerConcat(before, w);
    LowerOfLower(w);
    assert Lower(before + w + after) == Lower(before) + w + Lower(after);
    assert OccursAt(Lower(before + w + after), w, |before|);
  }

  /** Greeting detection is plain containment: any message with "oi" or "hi"
      in it, such as "pois" or "which", is answered as a greeting, even when
      it names a financial topic. */
  lemma GreetingShadowsFinance(before: string, k: int, after: string, roll: real)
    requires k == 0 || k == 4
    requires 0.0 <= roll < 1.0
    ensures GenerateNaturalResponse(before + GreetingWords[k] + after, roll) in GreetingReplies
  {
    LowerKeepsWord(before, GreetingWords[k], after);
  }

  /** A financial question that is no greeting gets the financial reply, not
      the question reply. */
  lemma FinanceBeforeQuestion(text: string, roll: real)
    requires 0.0 <= roll < 1.0
    requires !IsGreeting(Lower(text)) && IsFinancialTopic(Lower(text)) && IsQuestion(Lower(text))
    ensures GenerateNaturalResponse(text, roll) != QuestionReply
    ensures GenerateNaturalResponse(text, roll) == GenerateFinancialResponse(Lower(text))
  {
  }

  /** Lower-casing the message first changes nothing. */
  lemma NaturalResponseCaseInsensitive(text: string, roll: real)
    requires 0.0 <= roll < 1.0
    ensures GenerateNaturalResponse(Lower(text), roll) == GenerateNaturalResponse(text, roll)
  {
    LowerIdempotent(text);
  }

  /** Every message starting with "como" is at least a question. */
  lemma ComoIsQuestion(rest: string)
    ensures IsQuestion(Lower("como" + rest))
  {
    LowerConcat("como", rest);
    LowerOfLower("como");
    assert Lower("como" + rest)[..4] == "como";
  }
}
