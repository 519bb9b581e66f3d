/** backend/agents/jd_match.py: the job-description match analyst. */
module JdMatch {
  import opened Wrappers
  import opened Values
  import opened Llm
  import opened State
  import Text

  /** Every element of the list is a string. */
  predicate AllStrings(items: seq<Value>) {
    forall i :: 0 <= i < |items| ==> items[i].Str?
  }

  /** The strings of a list of strings. */
  function Strings(items: seq<Value>): (r: seq<string>)
    requires AllStrings(items)
    ensures |r| == |items| && forall i :: 0 <= i < |items| ==> Str(r[i]) == items[i]
  {
    seq(|items|, i requires 0 <= i < |items| => items[i].s)
  }

  /** The one-character strings of `s`: what iterating a string yields. */
  function Chars(s: string): (r: seq<string>)
    ensures |r| == |s| && forall i :: 0 <= i < |s| ==> r[i] == [s[i]]
  {
    seq(|s|, i requires 0 <= i < |s| => [s[i]])
  }

  /** `", ".join(skills) if skills else "None specified"`. A false value
      renders as `"None specified"`; a list joins its elements, which must
      all be strings; a string joins its characters; a number or `True` is
      not iterable and raises `TypeError`. A non-empty dict joins its keys
      in insertion order, which a `map` does not keep: the text is then
      `None`. */
  function SkillsText(skills: Value): (r: Result<Option<string>, Error>)
    ensures !Truthy(skills) ==> r == Ok(Some("None specified"))
    ensures Truthy(skills) && skills.Arr? && AllStrings(skills.items) ==>
      r == Ok(Some(Text.Join(Strings(skills.items), ", ")))
    ensures Truthy(skills) && skills.Str? ==> r == Ok(Some(Text.Join(Chars(skills.s), ", ")))
    ensures r.Err? <==> Truthy(skills) && (skills.Num? || skills.Bool? || (skills.Arr? && !AllStrings(skills.items)))
    ensures r.Err? ==> r.error == TypeError
  {
    if !Truthy(skills) then Ok(Some("None specified"))
    else match skills
      case Arr(items) =>
        if AllStrings(items) then Ok(Some(Text.Join(Strings(items), ", "))) else Err(TypeError)
      case Str(s) => Ok(Some(Text.Join(Chars(s), ", ")))
      case Obj(_) => Ok(None)
      case _ => Err(TypeError)
  }

  /** The values the function reads and the texts it renders for the
      prompt. */
  datatype Inputs = Inputs(
    resumeText: Value,
    requiredSkills: Value,
    niceToHave: Value,
    requiredText: Option<string>,
    niceToHaveText: Option<string>)

  /** The inputs with their defaults: an empty resume text and empty skill
      lists. A malformed entry raises `AttributeError`; a skill value that
      cannot be joined raises `TypeError`. */
  function ReadInputs(app: Value): (r: Result<Inputs, Error>)
    ensures !PathOk(app, "resume") || !PathOk(app, "job_description") ==> r == Err(AttributeError)
    ensures r.Ok? ==> (r.value.resumeText ==
      if Has(app, "resume", "text") then app.fields["resume"].fields["text"] else Str(""))
    ensures r.Ok? ==> (r.value.requiredSkills ==
      if Has(app, "job_description", "skills_required")
      then app.fields["job_description"].fields["skills_required"] else Arr([]))
    ensures r.Ok? ==> (r.value.niceToHave ==
      if Has(app, "job_description", "skills_nice_to_have")
      then app.fields["job_description"].fields["skills_nice_to_have"] else Arr([]))
    ensures r.Ok? ==> SkillsText(r.value.requiredSkills) == Ok(r.value.requiredText)
    ensures r.Ok? ==> SkillsText(r.value.niceToHave) == Ok(r.value.niceToHaveText)
    ensures PathOk(app, "resume") && PathOk(app, "job_description") ==>
      (r.Ok? <==> (
        var jd := Get(app, "job_description", EmptyObj).value;
        SkillsText(Get(jd, "skills_required", Arr([])).value).Ok? &&
        SkillsText(Get(jd, "skills_nice_to_have", Arr([])).value).Ok?))
    ensures PathOk(app, "resume") && PathOk(app, "job_description") && r.Err? ==> r.error == TypeError
  {
    var resumeText :- GetPath(app, "resume", "text", Str(""));
    var jd := Get(app, "job_description", EmptyObj).value;
    if !jd.Obj? then Err(AttributeError)
    else
      var required := Get(jd, "skills_required", Arr([])).value;
      var nice := Get(jd, "skills_nice_to_have", Arr([])).value;
      var requiredText :- SkillsText(required);
      var niceText :- SkillsText(nice);
      Ok(Inputs(resumeText, required, nice, requiredText, niceText))
  }

  /** The neutral record returned when the call fails: nothing matched and
      every required skill missing. */
  function Fallback(requiredSkills: Value, thought: string): (v: Value)
    ensures && HasField(v, "score", Num(0.0))
            && HasField(v, "match_percentage", Num(0.0))
            && HasField(v, "required_skills_matched", Arr([]))
            && HasField(v, "required_skills_missing", requiredSkills)
  {
    Obj(map[
      "score" := Num(0.0),
      "required_skills_matched" := Arr([]),
      "required_skills_missing" := requiredSkills,
      "nice_to_have_matched" := Arr([]),
      "match_percentage" := Num(0.0),
      "skill_depth_assessment" := Str("Unknown"),
      "thought_process" := Str(thought)])
  }

  /** The explanation of the record returned when the reply is not JSON. */
  const DecodeThought := "I encountered an error while analyzing the skill match. Please check the format."

  /** What the `try` block returns: the reply as it is, or the neutral
      record that lists the required skills, exactly as read, as missing. */
  function Reply(outcome: Outcome, requiredSkills: Value): (v: Value)
    ensures outcome.Parsed? ==> v == outcome.reply
    ensures !outcome.Parsed? ==> && HasField(v, "score", Num(0.0))
                                 && HasField(v, "match_percentage", Num(0.0))
                                 && HasField(v, "required_skills_matched", Arr([]))
                                 && HasField(v, "required_skills_missing", requiredSkills)
  {
    match outcome
    case Parsed(reply) => reply
    case DecodeError =>
      Fallback(requiredSkills,
        DecodeThought)
    case OtherError(message) =>
      Fallback(requiredSkills, "I encountered an error: " + message)
  }

  /** `jd_match_analyst(state)`: the value it returns under
      `jd_match_score`. */
  function JdMatchAnalyst(st: AgentGraphState, apiKey: Option<string>, outcome: Outcome): (r: Result<Value, Error>)
    ensures InitializeLlm(apiKey).Err? ==> r == Err(InitializeLlm(apiKey).error)
    ensures r.Err? <==> InitializeLlm(apiKey).Err? || ReadInputs(st.jobApplication).Err?
    ensures InitializeLlm(apiKey).Ok? && ReadInputs(st.jobApplication).Err? ==> r == Err(ReadInputs(st.jobApplication).error)
    ensures r.Ok? ==> r.value == Reply(outcome, ReadInputs(st.jobApplication).value.requiredSkills)
  {
    var llm := InitializeLlm(apiKey);
    if llm.Err? then Err(llm.error)
    else
      var inputs := ReadInputs(st.jobApplication);
      if inputs.Err? then Err(inputs.error)
      else Ok(Reply(outcome, inputs.value.requiredSkills))
  }
}
