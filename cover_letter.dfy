/** backend/agents/cover_letter.py: the cover-letter analyst. */
module CoverLetter {
  import opened Wrappers
  import opened Values
  import opened Llm
  import opened State

  /** The values handed to the prompt. */
  datatype Inputs = Inputs(coverLetterText: Value, companyName: Value, role: Value)

  /** The prompt inputs with their defaults: an empty text,
      `"Unknown Company"` and `"Unknown Role"`. A `cover_letter` or
      `job_description` entry that is not a dict raises `AttributeError`. */
  function ReadInputs(app: Value): (r: Result<Inputs, Error>)
    ensures r.Ok? <==> PathOk(app, "cover_letter") && PathOk(app, "job_description")
    ensures r.Err? ==> r.error == AttributeError
    ensures r.Ok? ==> (r.value.coverLetterText ==
      if Has(app, "cover_letter", "text") then app.fields["cover_letter"].fields["text"] else Str(""))
    ensures r.Ok? ==> (r.value.companyName ==
      if Has(app, "job_description", "company_name")
      then app.fields["job_description"].fields["company_name"] else Str("Unknown Company"))
    ensures r.Ok? ==> (r.value.role ==
      if Has(app, "job_description", "role")
      then app.fields["job_description"].fields["role"] else Str("Unknown Role"))
  {
    var text :- GetPath(app, "cover_letter", "text", Str(""));
    var company :- GetPath(app, "job_description", "company_name", Str("Unknown Company"));
    var role := GetPath(app, "job_description", "role", Str("Unknown Role")).value;
    Ok(Inputs(text, company, role))
  }

  /** The neutral record returned when the call fails; `flag` is its one
      entry in `red_flags`. */
  function Fallback(flag: string, thought: string): (v: Value)
    ensures IsNeutral(v) && HasField(v, "red_flags", Arr([Str(flag)]))
  {
    Obj(map[
      "score" := Num(0.0),
      "clarity_rating" := Num(0.0),
      "motivation_level" := Str("Unknown"),
      "company_mention_specificity" := Str("Unknown"),
      "red_flags" := Arr([Str(flag)]),
      "strengths" := Arr([]),
      "thought_process" := Str(thought)])
  }

  /** The neutral values every failed call reports. */
  predicate IsNeutral(v: Value) {
    && HasField(v, "score", Num(0.0))
    && HasField(v, "clarity_rating", Num(0.0))
    && HasField(v, "motivation_level", Str("Unknown"))
    && HasField(v, "company_mention_specificity", Str("Unknown"))
    && HasField(v, "strengths", Arr([]))
  }

  /** The explanation of the record returned when the reply is not JSON. */
  const DecodeThought := "I encountered an error while analyzing the cover letter. Please check the format."

  /** What the `try` block returns for a call outcome: the reply as it is,
      or the neutral record whose single red flag names the failure. */
  function Reply(outcome: Outcome): (v: Value)
    ensures outcome.Parsed? ==> v == outcome.reply
    ensures !outcome.Parsed? ==> IsNeutral(v)
    ensures outcome.DecodeError? ==> HasField(v, "red_flags", Arr([Str("Failed to parse cover letter")]))
    ensures outcome.OtherError? ==> HasField(v, "red_flags", Arr([Str("Error: " + outcome.message)]))
  {
    match outcome
    case Parsed(reply) => reply
    case DecodeError =>
      Fallback("Failed to parse cover letter",
        DecodeThought)
    case OtherError(message) =>
      Fallback("Error: " + message, "I encountered an error: " + message)
  }

  /** `cover_letter_analyst(state)`: the value it returns under
      `cover_letter_score`. Client creation and the input reads happen
      before the `try`, so their errors escape. */
  function CoverLetterAnalyst(st: AgentGraphState, apiKey: Option<string>, outcome: Outcome): (r: Result<Value, Error>)
    ensures InitializeLlm(apiKey).Err? ==> r == Err(InitializeLlm(apiKey).error)
    ensures r.Err? <==> InitializeLlm(apiKey).Err? || ReadInputs(st.jobApplication).Err?
    ensures InitializeLlm(apiKey).Ok? && ReadInputs(st.jobApplication).Err? ==> r == Err(ReadInputs(st.jobApplication).error)
    ensures r.Ok? ==> r.value == Reply(outcome)
  {
    var llm := InitializeLlm(apiKey);
    if llm.Err? then Err(llm.error)
    else
      var inputs := ReadInputs(st.jobApplication);
      if inputs.Err? then Err(inputs.error)
      else Ok(Reply(outcome))
  }
}
