/** The skill interface of the bot (`BaseSkill`): a named capability with a
    predicate saying whether it handles a message and an action producing the
    answer. Both are asynchronous in the source and may throw; here each is a
    total function to an `Attempt`. The base class implements neither, so a
    skill built from it alone throws on both. */
module BaseSkill {
  import opened Results

  /** The part of the Bot Framework turn context a skill may read: the
      activity's text and the sender's id, either of which may be missing. */
  datatype Context = Context(text: Option<string>, fromId: Option<string>)

  /** What `execute` resolves to: the answer text in `data`, and the
      `metadata.type` tag. */
  datatype SkillResult = SkillResult(success: bool, data: string, resultType: string)

  /** What `validate` resolves to. */
  datatype Validation = Validation(valid: bool, errors: seq<string>)

  type Parameters = map<string, string>

  datatype Skill = Skill(
    name: string,
    description: string,
    config: map<string, string>,
    canHandle: (string, Context) -> Attempt<bool>,
    execute: (Parameters, Context) -> Attempt<SkillResult>)

  const CanHandleError := "canHandle must be implemented"
  const ExecuteError := "execute must be implemented"

  function Unimplemented(intent: string, context: Context): Attempt<bool>
  {
    Fail(CanHandleError)
  }

  function NotExecutable(parameters: Parameters, context: Context): Attempt<SkillResult>
  {
    Fail(ExecuteError)
  }

  /** `new BaseSkill(name, description, config = {})`. */
  function Create(name: string, description: string, config: map<string, string> := map[]): (s: Skill)
    ensures s.name == name && s.description == description && s.config == config
    ensures forall intent, context :: s.canHandle(intent, context) == Fail(CanHandleError)
    ensures forall parameters, context :: s.execute(parameters, context) == Fail(ExecuteError)
  {
    Skill(name, description, config, Unimplemented, NotExecutable)
  }

  /** `validate(parameters)`: every parameter set is accepted. */
  function Validate(parameters: Parameters): (r: Validation)
    ensures r.valid && r.errors == []
  {
    Validation(true, [])
  }
}
