/** backend/agents/resume.py: the resume analyst. The model call is
    represented by its outcome; what the function itself decides is which
    inputs it reads, with which defaults, and what it returns when the call
    fails. */
module Resume {
  import opened Wrappers
  import opened Values
  import opened Llm
  import opened State

  /** The values handed to the prompt. */
  datatype Inputs = Inputs(resumeText: Value, jdText: Value, jdSeniority: Value)

  /** The prompt inputs, read from the application with their defaults: an
      empty resume text and description, and seniority `"Mid-Level"`. A
      `resume` or `job_description` entry that is not a dict raises
      `AttributeError`. */
  function ReadInputs(app: Value): (r: Result<Inputs, Error>)
    ensures r.Ok? <==> PathOk(app, "resume") && PathOk(app, "job_description")
    ensures r.Err? ==> r.error == AttributeError
    ensures r.Ok? ==> (r.value.resumeText ==
      if Has(app, "resume", "text") then app.fields["resume"].fields["text"] else Str(""))
    ensures r.Ok? ==> (r.value.jdText ==
      if Has(app, "job_description", "description")
      then app.fields["job_description"].fields["description"] else Str(""))
    ensures r.Ok? ==> (r.value.jdSeniority ==
      if Has(app, "job_description", "seniority_level")
      then app.fields["job_description"].fields["seniority_level"] else Str("Mid-Level"))
  {
    var resumeText :- GetPath(app, "resume", "text", Str(""));
    var jd := Get(app, "job_description", EmptyObj).value;
    if !jd.Obj? then Err(AttributeError)
    else
      Ok(Inputs(resumeText,
        Get(jd, "description", Str("")).value,
        Get(jd, "seniority_level", Str("Mid-Level")).value))
  }

  /** The neutral record returned when the call fails; `weakness` is its one
      entry in `weaknesses` and `thought` its explanation. */
  function Fallback(weakness: string, thought: string): (v: Value)
    ensures IsNeutral(v) && HasField(v, "weaknesses", Arr([Str(weakness)]))
  {
    Obj(map[
      "score" := Num(0.0),
      "strengths" := Arr([]),
      "weaknesses" := Arr([Str(weakness)]),
      "seniority_fit" := Str("Unknown"),
      "experience_years" := Num(0.0),
      "thought_process" := Str(thought)])
  }

  /** The neutral values every failed call reports. */
  predicate IsNeutral(v: Value) {
    && HasField(v, "score", Num(0.0))
    && HasField(v, "strengths", Arr([]))
    && HasField(v, "seniority_fit", Str("Unknown"))
    && HasField(v, "experience_years", Num(0.0))
  }

  /** The explanation of the record returned when the reply is not JSON. */
  const DecodeThought := "I encountered an error while analyzing the resume. Please check the format."

  /** What the `try` block returns for a call outcome: the reply as it is,
      or the neutral record whose single weakness names the failure. */
  function Reply(outcome: Outcome): (v: Value)
    ensures outcome.Parsed? ==> v == outcome.reply
    ensures !outcome.Parsed? ==> IsNeutral(v)
    ensures outcome.DecodeError? ==> HasField(v, "weaknesses", Arr([Str("Failed to parse resume")]))
    ensures outcome.OtherError? ==> HasField(v, "weaknesses", Arr([Str("Error: " + outcome.message)]))
  {
    match outcome
    case Parsed(reply) => reply
    case DecodeError =>
      Fallback("Failed to parse resume",
        DecodeThought)
    case OtherError(message) =>
      Fallback("Error: " + message, "I encountered an error: " + message)
  }

  /** `resume_analyst(state)`: the value it returns under `resume_score`.
      The client is created before the `try`, so a missing key escapes as an
      error, and so does a malformed application; otherwise the `try` block
      decides. */
  function ResumeAnalyst(st: AgentGraphState, apiKey: Option<string>, outcome: Outcome): (r: Result<Value, Error>)
    ensures InitializeLlm(apiKey).Err? ==> r == Err(InitializeLlm(apiKey).error)
    ensures r.Err? <==> InitializeLlm(apiKey).Err? || ReadInputs(st.jobApplication).Err?
    ensures InitializeLlm(apiKey).Ok? && ReadInputs(st.jobApplication).Err? ==> r == Err(ReadInputs(st.jobApplication).error)
    ensures r.Ok? ==> r.value == Reply(outcome)
  {
    var llm := InitializeLlm(apiKey);
    if llm.Err? then Err(llm.error)
    else
      var inputs := ReadInputs(st.jobApplication);
      if inputs.Err? then Err(inputs.error)
      else Ok(Reply(outcome))
  }
}
