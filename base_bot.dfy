/** The message dispatch of the bot (`BaseBot`). Registered skills are kept
    in a map ordered by first registration. A message goes to the first skill
    that claims it and then answers, then to the language-model service if one
    is attached, and otherwise gets a fixed greeting. Answers from a skill or
    the service are handed to the memory manager, if one is attached. */
module BaseBot {
  import opened Text
  import opened Results
  import opened OrderedMaps
  import BaseSkill
  import FluxoCaixaSkill
  import ConciliacaoSkill

  type Skill = BaseSkill.Skill
  type Context = BaseSkill.Context

  const DefaultReply := "Olá! Como posso ajudá-lo?"
  const AnonymousUser := "unknown"

  /** The language-model service: `processMessage(text, config, context)`
      resolves to a reply or rejects. */
  type LlmService = (string, map<string, string>, Context) -> Attempt<string>

  /** `(context.activity.text || '').trim()`. */
  function MessageText(context: Context): string
  {
    match context.text
    case None => ""
    case Some(t) => Trim(t)
  }

  /** `context.activity.from?.id || 'unknown'`. */
  function UserIdOf(context: Context): (r: string)
    ensures r != ""
    ensures context.fromId.Some? && context.fromId.value != "" ==> r == context.fromId.value
    ensures context.fromId.None? || context.fromId.value == "" ==> r == AnonymousUser
  {
    match context.fromId
    case Some(id) => if id == "" then AnonymousUser else id
    case None => AnonymousUser
  }

  /** `handleNewMember(context, member)`: the welcome text, with `usuário`
      for a member whose name is missing or empty. The name can be read back
      from between the fixed greeting and the closing `!`. */
  function WelcomeText(memberName: Option<string>): (r: string)
    ensures var name := if memberName.Some? && memberName.value != "" then memberName.value else "usuário";
      && |r| == |name| + 12
      && r[..11] == "Bem-vindo, " && r[11..|r| - 1] == name && r[|r| - 1] == '!'
  {
    var name := if memberName.Some? && memberName.value != "" then memberName.value else "usuário";
    var r := "Bem-vindo, " + name + "!";
    assert r[11..|r| - 1] == name;
    r
  }

  // ---------------------------------------------------------------
  // The skill loop
  // ---------------------------------------------------------------

  /** How the skill loop ends: a skill answered, every skill let the message
      through, or a `canHandle` threw (it is called outside the `try`, so the
      exception leaves `processMessage`). */
  datatype Route = Answered(index: nat, data: string) | Unclaimed | Raised(index: nat, error: string)

  /** A skill the loop steps past: it declines the message, or claims it and
      then throws from `execute` (caught and logged). */
  predicate PassesOver(s: Skill, text: string, context: Context)
  {
    || s.canHandle(text, context) == Ok(false)
    || (s.canHandle(text, context) == Ok(true) && s.execute(map[], context).Fail?)
  }

  /** The loop from position `i` on. */
  function RouteFrom(skills: seq<Skill>, text: string, context: Context, i: nat): Route
    decreases |skills| - i
  {
    if i >= |skills| then Unclaimed
    else match skills[i].canHandle(text, context)
      case Fail(e) => Raised(i, e)
      case Ok(claimed) =>
        if claimed && skills[i].execute(map[], context).Ok? then
          Answered(i, skills[i].execute(map[], context).value.data)
        else RouteFrom(skills, text, context, i + 1)
  }

  function RouteSkills(skills: seq<Skill>, text: string, context: Context): Route
  {
    RouteFrom(skills, text, context, 0)
  }

  /** What happens to a message: a skill or the service answered (the text is
      sent and handed to memory), the default greeting was sent (nothing is
      handed to memory), or processing threw before anything was sent. */
  datatype Reply = Answer(text: string) | Fallback | Rejected(error: string)
  {
    /** The text sent back to the user, if any. */
    function Sent(): Option<string>
    {
      match this
      case Answer(t) => Some(t)
      case Fallback => Some(DefaultReply)
      case Rejected(_) => None
    }
  }

  /** `processMessage` as a function of the skills in dispatch order, the
      attached service and the turn. */
  function Respond(skills: seq<Skill>, llm: Option<LlmService>, config: map<string, string>, context: Context): Reply
  {
    var text := MessageText(context);
    match RouteSkills(skills, text, context)
    case Answered(_, data) => Answer(data)
    case Raised(_, e) => Rejected(e)
    case Unclaimed =>
      match llm
      case None => Fallback
      case Some(service) =>
        match service(text, config, context)
        case Ok(response) => Answer(response)
        case Fail(_) => Fallback
  }

  /** A conversation handed to `memoryManager.saveConversation`: the user's
      text and the answer, under the user's id. */
  datatype Exchange = Exchange(userId: string, input: string, output: string)

  /** What `processMessage` hands to memory for a given reply. */
  function Saved(connected: bool, context: Context, reply: Reply): seq<Exchange>
  {
    if connected && reply.Answer? then [Exchange(UserIdOf(context), MessageText(context), reply.text)] else []
  }

  // ---------------------------------------------------------------
  // The bot
  // ---------------------------------------------------------------

  class Bot {
    const config: map<string, string>
    var skills: OrderedMap<string, Skill>
    var llmService: Option<LlmService>
    /** Whether a memory manager is attached. */
    var memoryConnected: bool
    /** Every conversation handed to the memory manager so far. Whether the
        manager stores it or throws is not visible to the bot. */
    var memoryLog: seq<Exchange>

    /** Every skill is registered under its own name. */
    ghost predicate Valid()
      reads this
    {
      && skills.Valid()
      && (forall k | k in skills.items :: skills.items[k].name == k)
    }

    constructor(config: map<string, string>)
      ensures Valid()
      ensures this.config == config && skills == Empty()
      ensures llmService == None && !memoryConnected && memoryLog == []
    {
      this.config := config;
      skills := Empty();
      llmService := None;
      memoryConnected := false;
      memoryLog := [];
    }

    /** `registerSkill(skill)`: `skills.set(skill.name, skill)`. */
    method RegisterSkill(skill: Skill)
      requires Valid()
      modifies this
      ensures Valid()
      ensures skills == old(skills).Set(skill.name, skill)
      ensures llmService == old(llmService) && memoryConnected == old(memoryConnected)
      ensures memoryLog == old(memoryLog)
    {
      skills := skills.Set(skill.name, skill);
    }

    method SetLlmService(service: Option<LlmService>)
      requires Valid()
      modifies this
      ensures Valid()
      ensures llmService == service
      ensures skills == old(skills) && memoryConnected == old(memoryConnected)
      ensures memoryLog == old(memoryLog)
    {
      llmService := service;
    }

    /** `setMemoryManager(m)`: `connected` says whether `m` is a manager. */
    method SetMemoryManager(connected: bool)
      requires Valid()
      modifies this
      ensures Valid()
      ensures memoryConnected == connected
      ensures skills == old(skills) && llmService == old(llmService)
      ensures memoryLog == old(memoryLog)
    {
      memoryConnected := connected;
    }

    /** `saveToMemory(userId, input, output)`: hands the exchange over when a
        manager is attached; a failure inside the manager is swallowed. */
    method SaveToMemory(userId: string, input: string, output: string)
      requires Valid()
      modifies this
      ensures Valid()
      ensures memoryLog == old(memoryLog) + (if memoryConnected then [Exchange(userId, input, output)] else [])
      ensures skills == old(skills) && llmService == old(llmService)
      ensures memoryConnected == old(memoryConnected)
    {
      if memoryConnected {
        memoryLog := memoryLog + [Exchange(userId, input, output)];
      }
    }

    /** `processMessage(context)`: the skills in registration order, then the
        service, then the default greeting. */
    method ProcessMessage(context: Context) returns (reply: Reply)
      requires Valid()
      modifies this
      ensures Valid()
      ensures reply == Respond(old(skills.Values()), llmService, config, context)
      ensures memoryLog == old(memoryLog) + Saved(memoryConnected, context, reply)
      ensures skills == old(skills) && llmService == old(llmService)
      ensures memoryConnected == old(memoryConnected)
    {
      var text := MessageText(context);
      var userId := UserIdOf(context);
      var all := skills.Values();
      var i := 0;
      while i < |all|
        invariant 0 <= i <= |all|
        invariant Valid() && all == skills.Values()
        invariant RouteSkills(all, text, context) == RouteFrom(all, text, context, i)
        invariant skills == old(skills) && llmService == old(llmService)
        invariant memoryConnected == old(memoryConnected) && memoryLog == old(memoryLog)
      {
        var skill := all[i];
        var claim := skill.canHandle(text, context);
        if claim.Fail? {
          return Rejected(claim.error);
        }
        if claim.value {
          var result := skill.execute(map[], context);
          if result.Ok? {
            SaveToMemory(userId, text, result.value.data);
            return Answer(result.value.data);
          }
        }
        i := i + 1;
      }
      if llmService.Some? {
        var response := llmService.value(text, config, context);
        if response.Ok? {
          SaveToMemory(userId, text, response.value);
          return Answer(response.value);
        }
      }
      return Fallback;
    }
  }

  // ---------------------------------------------------------------
  // Properties of the dispatch
  // ---------------------------------------------------------------

  /** The loop from `i` on stops at a skill at or after `i`, and every skill
      it passed let the message through; it reports no skill only when every
      remaining skill let the message through. */
  lemma {:induction false} RouteFromSpec(skills: seq<Skill>, text: string, context: Context, i: nat)
    ensures var r := RouteFrom(skills, text, context, i);
      && (r.Answered? ==>
            && i <= r.index < |skills|
            && skills[r.index].canHandle(text, context) == Ok(true)
            && skills[r.index].execute(map[], context).Ok?
            && r.data == skills[r.index].execute(map[], context).value.data
            && (forall j | i <= j < r.index :: PassesOver(skills[j], text, context)))
      && (r.Raised? ==>
            && i <= r.index < |skills|
            && skills[r.index].canHandle(text, context) == Fail(r.error)
            && (forall j | i <= j < r.index :: PassesOver(skills[j], text, context)))
      && (r.Unclaimed? <==> forall j | i <= j < |skills| :: PassesOver(skills[j], text, context))
    decreases |skills| - i
  {
    if i < |skills| {
      RouteFromSpec(skills, text, context, i + 1);
      if PassesOver(skills[i], text, context) {
        assert RouteFrom(skills, text, context, i) == RouteFrom(skills, text, context, i + 1);
      } else {
        assert !(forall j | i <= j < |skills| :: PassesOver(skills[j], text, context));
      }
    }
  }

  /** The loop from `k` reaches skill `i` when every skill in between lets the
      message through. */
  lemma {:induction false} PassThrough(skills: seq<Skill>, text: string, context: Context, k: nat, i: nat)
    requires k <= i <= |skills|
    requires forall j | k <= j < i :: PassesOver(skills[j], text, context)
    ensures RouteFrom(skills, text, context, k) == RouteFrom(skills, text, context, i)
    decreases i - k
  {
    if k < i {
      assert PassesOver(skills[k], text, context);
      PassThrough(skills, text, context, k + 1, i);
    }
  }

  /** First match wins: skill `i` answers whenever it claims the message and
      answers, and every skill registered before it let the message through,
      whatever the skills after it would do. */
  lemma FirstMatchWins(skills: seq<Skill>, text: string, context: Context, i: nat)
    requires i < |skills|
    requires skills[i].canHandle(text, context) == Ok(true) && skills[i].execute(map[], context).Ok?
    requires forall j | 0 <= j < i :: PassesOver(skills[j], text, context)
    ensures RouteSkills(skills, text, context) == Answered(i, skills[i].execute(map[], context).value.data)
  {
    PassThrough(skills, text, context, 0, i);
  }

  /** A skill that answers keeps the service out of it: the reply is the
      skill's data whatever service is attached. */
  lemma SkillAnswerSkipsService(skills: seq<Skill>, llm: Option<LlmService>, config: map<string, string>, context: Context)
    requires RouteSkills(skills, MessageText(context), context).Answered?
    ensures Respond(skills, llm, config, context) == Answer(RouteSkills(skills, MessageText(context), context).data)
    ensures Respond(skills, llm, config, context) == Respond(skills, None, config, context)
  {
  }

  /** With no skill answering, the service's reply is sent and saved; when
      the service is missing or throws, the default greeting is sent and
      nothing is saved. */
  lemma ServiceOrGreeting(skills: seq<Skill>, llm: Option<LlmService>, config: map<string, string>, connected: bool, context: Context)
    requires forall j | 0 <= j < |skills| :: PassesOver(skills[j], MessageText(context), context)
    ensures var reply := Respond(skills, llm, config, context);
      && (llm.Some? && llm.value(MessageText(context), config, context).Ok? ==>
            && reply == Answer(llm.value(MessageText(context), config, context).value)
            && Saved(connected, context, reply) == (if connected then [Exchange(UserIdOf(context), MessageText(context), reply.text)] else []))
      && (llm.None? || llm.value(MessageText(context), config, context).Fail? ==>
            && reply.Sent() == Some(DefaultReply)
            && Saved(connected, context, reply) == [])
  {
    RouteFromSpec(skills, MessageText(context), context, 0);
  }

  /** A skill built from the base class alone throws from `canHandle`. Once
      the loop reaches it the whole message fails: no later skill, no
      service and no greeting is tried, and nothing is sent. */
  lemma AbstractSkillAborts(skills: seq<Skill>, llm: Option<LlmService>, config: map<string, string>, context: Context, i: nat)
    requires i < |skills|
    requires skills[i] == BaseSkill.Create(skills[i].name, skills[i].description, skills[i].config)
    requires forall j | 0 <= j < i :: PassesOver(skills[j], MessageText(context), context)
    ensures Respond(skills, llm, config, context) == Rejected(BaseSkill.CanHandleError)
    ensures Respond(skills, llm, config, context).Sent() == None
  {
    var text := MessageText(context);
    PassThrough(skills, text, context, 0, i);
    assert skills[i].canHandle(text, context) == Fail(BaseSkill.CanHandleError);
  }

  /** The text is trimmed and a missing text is the empty text, which is not
      answered specially: it runs through the same skills, service and
      greeting as any other message. */
  lemma EmptyTextDispatched(skills: seq<Skill>, llm: Option<LlmService>, config: map<string, string>, fromId: Option<string>)
    ensures MessageText(BaseSkill.Context(None, fromId)) == ""
    ensures forall t | AllSpace(t) :: MessageText(BaseSkill.Context(Some(t), fromId)) == ""
  {
    forall t | AllSpace(t)
      ensures Trim(t) == ""
    {
      TrimEmptyIff(t);
    }
  }

  /** Registering a new name puts its skill last in dispatch order. */
  lemma RegisterNewGoesLast(m: OrderedMap<string, Skill>, s: Skill)
    requires m.Valid() && s.name !in m.items
    ensures m.Set(s.name, s).Values() == m.Values() + [s]
  {
  }

  /** Registering an existing name replaces that skill in place: it keeps the
      dispatch position of the skill it replaces, and the others keep theirs. */
  lemma RegisterExistingKeepsPosition(m: OrderedMap<string, Skill>, s: Skill, i: nat)
    requires m.Valid() && i < |m.keys| && m.keys[i] == s.name
    ensures |m.Set(s.name, s).Values()| == |m.Values()|
    ensures m.Set(s.name, s).Values()[i] == s
    ensures forall j | 0 <= j < |m.keys| && j != i :: m.Set(s.name, s).Values()[j] == m.Values()[j]
  {
    SetKeepsPosition(m, s.name, s, i);
  }

  /** The financial skills in the order the bot registers them. */
  function FinancialSkills(): seq<Skill>
  {
    [FluxoCaixaSkill.Skill(), ConciliacaoSkill.Skill()]
  }

  /** Whatever the cash-flow skill claims, it answers, before the
      reconciliation skill is asked. */
  lemma CashFlowClaimsFirst(llm: Option<LlmService>, config: map<string, string>, context: Context)
    requires FluxoCaixaSkill.CanHandle(MessageText(context))
    ensures Respond(FinancialSkills(), llm, config, context) == Answer(FluxoCaixaSkill.Execute().data)
  {
    var skills := FinancialSkills();
    var text := MessageText(context);
    assert skills[0].canHandle(text, context) == Ok(true);
    assert skills[0].execute(map[], context) == Ok(FluxoCaixaSkill.Execute());
    FirstMatchWins(skills, text, context, 0);
  }

  /** Any message that asks for a report gets the cash-flow report, even a
      request for a reconciliation report: the cash-flow skill is registered
      first and claims the word "relatório". */
  lemma ReportRequestGoesToCashFlow(llm: Option<LlmService>, config: map<string, string>, context: Context, before: string, after: string)
    requires MessageText(context) == before + FluxoCaixaSkill.Keywords[3] + after
    ensures Respond(FinancialSkills(), llm, config, context) == Answer(FluxoCaixaSkill.Execute().data)
  {
    FluxoCaixaSkill.ClaimsKeyword(before, 3, after);
    CashFlowClaimsFirst(llm, config, context);
  }

  /** A message the cash-flow skill declines and the reconciliation skill
      claims gets the reconciliation status. */
  lemma ReconciliationAnswersSecond(llm: Option<LlmService>, config: map<string, string>, context: Context)
    requires !FluxoCaixaSkill.CanHandle(MessageText(context))
    requires ConciliacaoSkill.CanHandle(MessageText(context))
    ensures Respond(FinancialSkills(), llm, config, context) == Answer(ConciliacaoSkill.Execute().data)
  {
    ReconciliationRoute(MessageText(context), context);
  }

  lemma ReconciliationRoute(text: string, context: Context)
    requires !FluxoCaixaSkill.CanHandle(text) && ConciliacaoSkill.CanHandle(text)
    ensures RouteSkills(FinancialSkills(), text, context) == Answered(1, ConciliacaoSkill.Execute().data)
  {
    var skills := FinancialSkills();
    assert skills[0].canHandle(text, context) == Ok(false);
    assert PassesOver(skills[0], text, context);
    assert skills[1].canHandle(text, context) == Ok(true);
    assert skills[1].execute(map[], context) == Ok(ConciliacaoSkill.Execute());
    FirstMatchWins(skills, text, context, 1);
  }
}
