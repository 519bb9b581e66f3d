/** backend/agents/fairness.py: the fairness auditor, the one Layer-2
    agent. It reads the five Layer-1 results and the candidate's personal
    details. */
module Fairness {
  import opened Wrappers
  import opened Values
  import opened Llm
  import opened State

  /** The values handed to the prompt. */
  datatype Inputs = Inputs(
    candidateName: Value,
    candidateLocation: Value,
    gender: Value,
    age: Value,
    scoresSummary: Value)

  /** The five `score` entries, keyed by their slot's name, each read as 0
      when missing. A slot that is not a dict raises `AttributeError`. */
  function ScoresSummary(st: AgentGraphState): (r: Result<Value, Error>)
    ensures r.Ok? <==> && st.resumeScore.Obj? && st.coverLetterScore.Obj? && st.jdMatchScore.Obj?
                       && st.githubScore.Obj? && st.locationScore.Obj?
    ensures r.Err? ==> r.error == AttributeError
    ensures r.Ok? ==> r.value == Obj(map[
      "resume_score" := FieldOr(st.resumeScore, "score", Num(0.0)),
      "cover_letter_score" := FieldOr(st.coverLetterScore, "score", Num(0.0)),
      "jd_match_score" := FieldOr(st.jdMatchScore, "score", Num(0.0)),
      "github_score" := FieldOr(st.githubScore, "score", Num(0.0)),
      "location_score" := FieldOr(st.locationScore, "score", Num(0.0))])
  {
    var resume :- Get(st.resumeScore, "score", Num(0.0));
    var coverLetter :- Get(st.coverLetterScore, "score", Num(0.0));
    var jdMatch :- Get(st.jdMatchScore, "score", Num(0.0));
    var github :- Get(st.githubScore, "score", Num(0.0));
    var location :- Get(st.locationScore, "score", Num(0.0));
    Ok(Obj(map[
      "resume_score" := resume,
      "cover_letter_score" := coverLetter,
      "jd_match_score" := jdMatch,
      "github_score" := github,
      "location_score" := location]))
  }

  /** The inputs with their defaults: name `"Unknown"`, location `{}`,
      gender and age `"Not disclosed"`. */
  function ReadInputs(st: AgentGraphState): (r: Result<Inputs, Error>)
    ensures r.Ok? <==> PathOk(st.jobApplication, "personal_info") && ScoresSummary(st).Ok?
    ensures r.Err? ==> r.error == AttributeError
    ensures r.Ok? ==> var info := FieldOr(st.jobApplication, "personal_info", EmptyObj);
      && r.value.candidateName == FieldOr(info, "name", Str("Unknown"))
      && r.value.candidateLocation == FieldOr(info, "location", EmptyObj)
      && r.value.gender == FieldOr(info, "gender", Str("Not disclosed"))
      && r.value.age == FieldOr(info, "age", Str("Not disclosed"))
      && r.value.scoresSummary == ScoresSummary(st).value
  {
    var info :- Get(st.jobApplication, "personal_info", EmptyObj);
    var name :- Get(info, "name", Str("Unknown"));
    var location := Get(info, "location", EmptyObj).value;
    var gender := Get(info, "gender", Str("Not disclosed")).value;
    var age := Get(info, "age", Str("Not disclosed")).value;
    var summary :- ScoresSummary(st);
    Ok(Inputs(name, location, gender, age, summary))
  }

  /** Five zero adjustments, one per Layer-1 agent. */
  const ZeroAdjustments: Value := Obj(map[
    "resume_adjustment" := Num(0.0),
    "github_adjustment" := Num(0.0),
    "jd_match_adjustment" := Num(0.0),
    "cover_letter_adjustment" := Num(0.0),
    "location_adjustment" := Num(0.0)])

  /** The sum of the five adjustment entries of an audit, each read as 0
      when missing or not a number. */
  function AdjustmentSum(audit: Value): real {
    var adj := FieldOr(audit, "score_adjustments", EmptyObj);
    NumberOr(FieldOr(adj, "resume_adjustment", Num(0.0)))
    + NumberOr(FieldOr(adj, "github_adjustment", Num(0.0)))
    + NumberOr(FieldOr(adj, "jd_match_adjustment", Num(0.0)))
    + NumberOr(FieldOr(adj, "cover_letter_adjustment", Num(0.0)))
    + NumberOr(FieldOr(adj, "location_adjustment", Num(0.0)))
  }

  function NumberOr(v: Value): real {
    if v.Num? then v.n else 0.0
  }

  /** The audit an unsuccessful call reports: no bias, no adjustment. */
  predicate IsNeutral(v: Value) {
    && HasField(v, "bias_detected", Bool(false))
    && HasField(v, "bias_types_found", Arr([]))
    && HasField(v, "score_adjustments", ZeroAdjustments)
    && HasField(v, "total_adjustment", Num(0.0))
  }

  /** The neutral audit with a single concern. */
  function Fallback(concern: string, recommendations: seq<Value>, thought: string): (v: Value)
    ensures IsNeutral(v) && HasField(v, "concerns", Arr([Str(concern)]))
  {
    Obj(map[
      "bias_detected" := Bool(false),
      "bias_types_found" := Arr([]),
      "score_adjustments" := ZeroAdjustments,
      "total_adjustment" := Num(0.0),
      "concerns" := Arr([Str(concern)]),
      "recommendations" := Arr(recommendations),
      "thought_process" := Str(thought)])
  }

  /** The explanation of the record returned when the reply is not JSON. */
  const DecodeThought := "I encountered an error while performing the fairness audit. Please check the data format."

  /** What the `try` block returns: the reply as it is, or the neutral
      audit whose single concern names the failure. */
  function Reply(outcome: Outcome): (v: Value)
    ensures outcome.Parsed? ==> v == outcome.reply
    ensures !outcome.Parsed? ==> IsNeutral(v)
    ensures outcome.DecodeError? ==> HasField(v, "concerns", Arr([Str("Failed to parse fairness audit")]))
    ensures outcome.OtherError? ==> HasField(v, "concerns", Arr([Str("Error: " + outcome.message)]))
  {
    match outcome
    case Parsed(reply) => reply
    case DecodeError =>
      Fallback("Failed to parse fairness audit", [Str("Please check data format")],
        DecodeThought)
    case OtherError(message) =>
      Fallback("Error: " + message, [], "I encountered an error: " + message)
  }

  /** The neutral audit is consistent: its total is the sum of its
      adjustments, both zero. */
  lemma NeutralTotalIsSum(v: Value)
    requires IsNeutral(v)
    ensures HasField(v, "total_adjustment", Num(AdjustmentSum(v)))
  {
    var adj := ZeroAdjustments;
    assert FieldOr(adj, "resume_adjustment", Num(0.0)) == Num(0.0);
    assert FieldOr(adj, "location_adjustment", Num(0.0)) == Num(0.0);
  }

  /** A reply is not checked: one whose total disagrees with its
      adjustments, and whose adjustment lies outside [-10, 10], is passed
      on unchanged. */
  lemma ReplyNotChecked()
    ensures var reply := Obj(map[
        "score_adjustments" := Obj(map["resume_adjustment" := Num(25.0)]),
        "total_adjustment" := Num(-3.0)]);
      && Reply(Parsed(reply)) == reply
      && AdjustmentSum(reply) == 25.0
  {
  }

  /** `fairness_auditor(state)`: the value it returns under
      `fairness_audit`. */
  function FairnessAuditor(st: AgentGraphState, apiKey: Option<string>, outcome: Outcome): (r: Result<Value, Error>)
    ensures InitializeLlm(apiKey).Err? ==> r == Err(InitializeLlm(apiKey).error)
    ensures r.Err? <==> InitializeLlm(apiKey).Err? || ReadInputs(st).Err?
    ensures InitializeLlm(apiKey).Ok? && ReadInputs(st).Err? ==> r == Err(ReadInputs(st).error)
    ensures r.Ok? ==> r.value == Reply(outcome)
  {
    var llm := InitializeLlm(apiKey);
    if llm.Err? then Err(llm.error)
    else
      var inputs := ReadInputs(st);
      if inputs.Err? then Err(inputs.error)
      else Ok(Reply(outcome))
  }
}
