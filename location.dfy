/** backend/agents/location.py: the location coordinator. */
module Location {
  import opened Wrappers
  import opened Values
  import opened Llm
  import opened State

  /** The values handed to the prompt. */
  datatype Inputs = Inputs(
    applicantCity: Value,
    applicantCountry: Value,
    willingToRelocate: Value,
    jobLocationType: Value,
    jobCity: Value,
    jobCountry: Value)

  /** The `location` dict inside the entry `outer`, `{}` when missing. */
  function LocationEntry(app: Value, outer: string): Value {
    FieldOr(FieldOr(app, outer, EmptyObj), "location", EmptyObj)
  }

  /** The inputs with their defaults: `"Unknown"` for every city, country
      and location type, `False` for the willingness to relocate. Every
      level read on the way must be a dict, or `AttributeError` is
      raised. */
  function ReadInputs(app: Value): (r: Result<Inputs, Error>)
    ensures r.Ok? <==>
      && PathOk(app, "personal_info") && PathOk(app, "job_description")
      && LocationEntry(app, "personal_info").Obj? && LocationEntry(app, "job_description").Obj?
    ensures r.Err? ==> r.error == AttributeError
    ensures r.Ok? ==> r.value.applicantCity == FieldOr(LocationEntry(app, "personal_info"), "city", Str("Unknown"))
    ensures r.Ok? ==> r.value.applicantCountry == FieldOr(LocationEntry(app, "personal_info"), "country", Str("Unknown"))
    ensures r.Ok? ==> r.value.willingToRelocate == FieldOr(FieldOr(app, "personal_info", EmptyObj), "willing_to_relocate", Bool(false))
    ensures r.Ok? ==> r.value.jobLocationType == FieldOr(FieldOr(app, "job_description", EmptyObj), "location_type", Str("Unknown"))
    ensures r.Ok? ==> r.value.jobCity == FieldOr(LocationEntry(app, "job_description"), "city", Str("Unknown"))
    ensures r.Ok? ==> r.value.jobCountry == FieldOr(LocationEntry(app, "job_description"), "country", Str("Unknown"))
  {
    var applicantLocation :- GetPath(app, "personal_info", "location", EmptyObj);
    var applicantCity :- Get(applicantLocation, "city", Str("Unknown"));
    var applicantCountry := Get(applicantLocation, "country", Str("Unknown")).value;
    var willing := GetPath(app, "personal_info", "willing_to_relocate", Bool(false)).value;
    var jd := Get(app, "job_description", EmptyObj).value;
    if !jd.Obj? then Err(AttributeError)
    else
      var locationType := Get(jd, "location_type", Str("Unknown")).value;
      var jobLocation := Get(jd, "location", EmptyObj).value;
      if !jobLocation.Obj? then Err(AttributeError)
      else
        Ok(Inputs(applicantCity, applicantCountry, willing, locationType,
          Get(jobLocation, "city", Str("Unknown")).value,
          Get(jobLocation, "country", Str("Unknown")).value))
  }

  /** The neutral values every failed call reports: a middling score of
      50, where the other analysts report 0. */
  predicate IsNeutral(v: Value) {
    && HasField(v, "score", Num(50.0))
    && HasField(v, "feasibility", Str("Unknown"))
    && HasField(v, "relocation_required", Bool(false))
    && HasField(v, "visa_sponsorship_needed", Bool(false))
  }

  /** The record returned when the call fails; `risk` is its one risk
      factor. */
  function Fallback(risk: string, thought: string): (v: Value)
    ensures IsNeutral(v) && HasField(v, "risk_factors", Arr([Str(risk)]))
  {
    Obj(map[
      "score" := Num(50.0),
      "location_match" := Str("Unknown"),
      "feasibility" := Str("Unknown"),
      "relocation_required" := Bool(false),
      "visa_sponsorship_needed" := Bool(false),
      "commute_feasibility" := Str("Unknown"),
      "risk_factors" := Arr([Str(risk)]),
      "thought_process" := Str(thought)])
  }

  /** The explanation of the record returned when the reply is not JSON. */
  const DecodeThought := "I encountered an error while analyzing location fit. Please check the data format."

  /** What the `try` block returns: the reply as it is, or the neutral
      record with a single risk factor naming the failure. */
  function Reply(outcome: Outcome): (v: Value)
    ensures outcome.Parsed? ==> v == outcome.reply
    ensures !outcome.Parsed? ==> IsNeutral(v)
    ensures outcome.DecodeError? ==> HasField(v, "risk_factors", Arr([Str("Failed to parse location data")]))
    ensures outcome.OtherError? ==> HasField(v, "risk_factors", Arr([Str("Error: " + outcome.message)]))
  {
    match outcome
    case Parsed(reply) => reply
    case DecodeError =>
      Fallback("Failed to parse location data",
        DecodeThought)
    case OtherError(message) =>
      Fallback("Error: " + message, "I encountered an error: " + message)
  }

  /** `location_coordinator(state)`: the value it returns under
      `location_score`. */
  function LocationCoordinator(st: AgentGraphState, apiKey: Option<string>, outcome: Outcome): (r: Result<Value, Error>)
    ensures InitializeLlm(apiKey).Err? ==> r == Err(InitializeLlm(apiKey).error)
    ensures r.Err? <==> InitializeLlm(apiKey).Err? || ReadInputs(st.jobApplication).Err?
    ensures InitializeLlm(apiKey).Ok? && ReadInputs(st.jobApplication).Err? ==> r == Err(ReadInputs(st.jobApplication).error)
    ensures r.Ok? ==> r.value == Reply(outcome)
  {
    var llm := InitializeLlm(apiKey);
    if llm.Err? then Err(llm.error)
    else
      var inputs := ReadInputs(st.jobApplication);
      if inputs.Err? then Err(inputs.error)
      else Ok(Reply(outcome))
  }
}
