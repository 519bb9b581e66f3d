/** backend/agents/referee.py: the referee, the Layer-3 agent. Everything
    it computes itself happens before the model call: the five Layer-1
    scores, the normalised weights, the weighted score before fairness and
    the audit's total adjustment. The model's reply, if it is JSON, is the
    verdict; otherwise the verdict is assembled from those numbers. */
module Referee {
  import opened Wrappers
  import opened Values
  import opened Llm
  import opened State

  /** One value per Layer-1 source. */
  datatype Sources<T> = Sources(resume: T, coverLetter: T, jdMatch: T, github: T, location: T)

  /** The five `score` entries, each read as 0 when missing. A slot that is
      not a dict raises `AttributeError`. */
  function ReadScores(st: AgentGraphState): (r: Result<Sources<Value>, Error>)
    ensures r.Ok? <==> && st.resumeScore.Obj? && st.coverLetterScore.Obj? && st.jdMatchScore.Obj?
                       && st.githubScore.Obj? && st.locationScore.Obj?
    ensures r.Err? ==> r.error == AttributeError
    ensures r.Ok? ==> r.value == Sources(
      FieldOr(st.resumeScore, "score", Num(0.0)),
      FieldOr(st.coverLetterScore, "score", Num(0.0)),
      FieldOr(st.jdMatchScore, "score", Num(0.0)),
      FieldOr(st.githubScore, "score", Num(0.0)),
      FieldOr(st.locationScore, "score", Num(0.0)))
  {
    var resume :- Get(st.resumeScore, "score", Num(0.0));
    var coverLetter :- Get(st.coverLetterScore, "score", Num(0.0));
    var jdMatch :- Get(st.jdMatchScore, "score", Num(0.0));
    var github :- Get(st.githubScore, "score", Num(0.0));
    var location :- Get(st.locationScore, "score", Num(0.0));
    Ok(Sources(resume, coverLetter, jdMatch, github, location))
  }

  /** The scores as operands of `*`: a score that is not a number raises
      `TypeError`. */
  function Numbers(s: Sources<Value>): (r: Result<Sources<real>, Error>)
    ensures r.Ok? <==> && AsNumber(s.resume).Ok? && AsNumber(s.coverLetter).Ok?
                       && AsNumber(s.jdMatch).Ok? && AsNumber(s.github).Ok? && AsNumber(s.location).Ok?
    ensures r.Err? ==> r.error == TypeError
    ensures r.Ok? ==> r.value == Sources(
      AsNumber(s.resume).value, AsNumber(s.coverLetter).value, AsNumber(s.jdMatch).value,
      AsNumber(s.github).value, AsNumber(s.location).value)
  {
    var resume :- AsNumber(s.resume);
    var coverLetter :- AsNumber(s.coverLetter);
    var jdMatch :- AsNumber(s.jdMatch);
    var github :- AsNumber(s.github);
    var location :- AsNumber(s.location);
    Ok(Sources(resume, coverLetter, jdMatch, github, location))
  }

  /** The configured weights, or the default ones when `weights` is
      absent. */
  function ConfiguredWeights(c: Criteria): seq<(string, Value)> {
    c.weights.GetOr(DefaultWeights)
  }

  /** The weights as numbers, which `sum(weights.values())` needs: a value
      that is not a number raises `TypeError`. */
  function NumericWeights(ws: seq<(string, Value)>): (r: Result<seq<(string, real)>, Error>)
    ensures r.Ok? <==> forall i :: 0 <= i < |ws| ==> AsNumber(ws[i].1).Ok?
    ensures r.Err? ==> r.error == TypeError
    ensures r.Ok? ==> (|r.value| == |ws| &&
      forall i :: 0 <= i < |ws| ==> r.value[i] == (ws[i].0, AsNumber(ws[i].1).value))
  {
    if ws == [] then Ok([])
    else
      var w :- AsNumber(ws[0].1);
      var rest :- NumericWeights(ws[1..]);
      Ok([(ws[0].0, w)] + rest)
  }

  /** `sum(weights.values())`. */
  function Sum(ws: seq<(string, real)>): real {
    if ws == [] then 0.0 else ws[0].1 + Sum(ws[1..])
  }

  /** Every weight divided by `t`. */
  function Scale(ws: seq<(string, real)>, t: real): (r: seq<(string, real)>)
    requires t != 0.0
    ensures |r| == |ws| && forall i :: 0 <= i < |ws| ==> r[i] == (ws[i].0, ws[i].1 / t)
  {
    seq(|ws|, i requires 0 <= i < |ws| => (ws[i].0, ws[i].1 / t))
  }

  /** Dividing every weight by `t` divides their sum by `t`. */
  lemma {:induction false} SumScale(ws: seq<(string, real)>, t: real)
    requires t != 0.0
    ensures Sum(Scale(ws, t)) == Sum(ws) / t
  {
    if ws != [] {
      assert Scale(ws, t)[1..] == Scale(ws[1..], t);
      SumScale(ws[1..], t);
    }
  }

  /** Lines 37-39: when the weights sum to `t > 0` each becomes `w / t`, so
      that they sum to 1; otherwise they are left as they are. The keys and
      their order do not change. */
  function Normalise(ws: seq<(string, real)>): (r: seq<(string, real)>)
    ensures |r| == |ws| && forall i :: 0 <= i < |ws| ==> r[i].0 == ws[i].0
    ensures Sum(ws) > 0.0 ==> Sum(r) == 1.0
    ensures Sum(ws) > 0.0 ==> forall i :: 0 <= i < |ws| ==> r[i].1 == ws[i].1 / Sum(ws)
    ensures Sum(ws) <= 0.0 ==> r == ws
  {
    var t := Sum(ws);
    if t > 0.0 then
      SumScale(ws, t);
      Scale(ws, t)
    else ws
  }

  /** `weights.get(key, default)` on the weights dict. */
  function Lookup(ws: seq<(string, real)>, key: string, default: real): (r: real)
    ensures (forall i :: 0 <= i < |ws| ==> ws[i].0 != key) ==> r == default
    ensures (exists i :: 0 <= i < |ws| && ws[i].0 == key) ==> exists i :: 0 <= i < |ws| && ws[i] == (key, r)
  {
    if ws == [] then default
    else if ws[0].0 == key then ws[0].1
    else
      var r := Lookup(ws[1..], key, default);
      assert forall i :: 0 <= i < |ws| - 1 ==> ws[1..][i] == ws[i + 1];
      r
  }

  /** The weight each source gets: its entry in the normalised weights, or
      its default 0.2/0.15/0.3/0.2/0.15 when absent. The default is applied
      after normalisation, so it is not rescaled. */
  function Effective(ws: seq<(string, real)>): Sources<real> {
    Sources(
      Lookup(ws, "resume", 0.2),
      Lookup(ws, "cover_letter", 0.15),
      Lookup(ws, "jd_match", 0.3),
      Lookup(ws, "github", 0.2),
      Lookup(ws, "location", 0.15))
  }

  /** Score times weight, per source. */
  function Products(s: Sources<real>, w: Sources<real>): Sources<real> {
    Sources(s.resume * w.resume, s.coverLetter * w.coverLetter, s.jdMatch * w.jdMatch,
      s.github * w.github, s.location * w.location)
  }

  /** The sum over the five sources. */
  function Total(p: Sources<real>): real {
    p.jdMatch + p.github + p.resume + p.coverLetter + p.location
  }

  /** What the referee has computed when it makes the call: the numeric
      scores, the effective weights and the audit's total adjustment as
      reported. */
  datatype Decision = Decision(scores: Sources<real>, weights: Sources<real>, adjustment: Value) {
    /** `weighted_before_fairness`. */
    function PreFairness(): real {
      Total(Products(scores, weights))
    }
  }

  /** The numeric weights of the criteria, normalised. */
  function NormalisedWeights(c: Criteria): Result<seq<(string, real)>, Error> {
    var raw :- NumericWeights(ConfiguredWeights(c));
    Ok(Normalise(raw))
  }

  /** The entries of the application that only reach the prompt; reading
      them raises `AttributeError` when a level is not a dict. */
  function ReadApplication(app: Value): (r: Result<(Value, Value, Value), Error>)
    ensures r.Ok? <==> PathOk(app, "personal_info") && PathOk(app, "job_description")
    ensures r.Err? ==> r.error == AttributeError
  {
    var name :- GetPath(app, "personal_info", "name", Str("Unknown"));
    var role :- GetPath(app, "job_description", "role", Str("Unknown"));
    var company := GetPath(app, "job_description", "company_name", Str("Unknown")).value;
    Ok((name, role, company))
  }

  /** Everything the referee computes before the `try`, in the order of
      the code (lines 18-44 and 126-133); the first failing step decides
      the error. The total adjustment is taken as the audit reports it
      (default 0): it is not recomputed from the adjustments, nor
      clamped. */
  function Prepare(st: AgentGraphState): (r: Result<Decision, Error>)
    ensures r.Ok? <==> && ReadScores(st).Ok? && NormalisedWeights(st.hiringCriteria).Ok?
                       && st.fairnessAudit.Obj? && ReadApplication(st.jobApplication).Ok?
                       && Numbers(ReadScores(st).value).Ok?
    ensures ReadScores(st).Err? ==> r == Err(AttributeError)
    ensures ReadScores(st).Ok? && NormalisedWeights(st.hiringCriteria).Err? ==> r == Err(TypeError)
    ensures ReadScores(st).Ok? && NormalisedWeights(st.hiringCriteria).Ok? ==>
      && (!st.fairnessAudit.Obj? || ReadApplication(st.jobApplication).Err? ==> r == Err(AttributeError))
      && (st.fairnessAudit.Obj? && ReadApplication(st.jobApplication).Ok? && r.Err? ==> r.error == TypeError)
    ensures r.Ok? ==> r.value.scores == Numbers(ReadScores(st).value).value
    ensures r.Ok? ==> r.value.weights == Effective(NormalisedWeights(st.hiringCriteria).value)
    ensures r.Ok? ==> r.value.adjustment == FieldOr(st.fairnessAudit, "total_adjustment", Num(0.0))
  {
    var scores :- ReadScores(st);
    var weights :- NormalisedWeights(st.hiringCriteria);
    if !st.fairnessAudit.Obj? then Err(AttributeError)
    else
      var adjustment := FieldOr(st.fairnessAudit, "total_adjustment", Num(0.0));
      var _ :- ReadApplication(st.jobApplication);
      var numbers :- Numbers(scores);
      Ok(Decision(numbers, Effective(weights), adjustment))
  }

  /** The per-source weighted scores of a fallback verdict. */
  function WeightedScores(d: Decision): Value {
    var p := Products(d.scores, d.weights);
    Obj(map[
      "jd_match_weighted" := Num(p.jdMatch),
      "github_weighted" := Num(p.github),
      "resume_weighted" := Num(p.resume),
      "cover_letter_weighted" := Num(p.coverLetter),
      "location_weighted" := Num(p.location)])
  }

  const DecodeReasoning := "Unable to parse full reasoning due to data format error."
  const DecodeNextSteps := "Please review data and rerun analysis."
  const DecodeThought := "I encountered an error while making the final decision using the custom weights. The preliminary weighted score is approximately the calculated value, but please check the data format."
  const ErrorNextSteps := "Please review the error and rerun analysis."
  const ErrorThought := "I encountered an error while applying custom weights: "

  /** The verdict a fallback reports, given the texts that differ between
      the two `except` branches. */
  predicate IsFallbackVerdict(v: Value, d: Decision, concern: string) {
    && AsNumber(d.adjustment).Ok?
    && HasField(v, "final_score", Num(d.PreFairness() + AsNumber(d.adjustment).value))
    && HasField(v, "verdict", Str("MAYBE"))
    && HasField(v, "weighted_scores", WeightedScores(d))
    && HasField(v, "fairness_adjustment_applied", d.adjustment)
    && HasField(v, "key_concerns", Arr([Str(concern)]))
    && HasField(v, "key_strengths", Arr([]))
  }

  /** The verdict assembled in an `except` branch. `final_score` adds the
      adjustment to the weighted score inside the handler, so an adjustment
      that is not a number raises `TypeError` there, uncaught. */
  function Fallback(d: Decision, reasoning: string, concern: string, nextSteps: string, thought: string): (r: Result<Value, Error>)
    ensures r.Err? <==> AsNumber(d.adjustment).Err?
    ensures r.Err? ==> r.error == TypeError
    ensures r.Ok? ==> IsFallbackVerdict(r.value, d, concern)
  {
    var adjustment :- AsNumber(d.adjustment);
    Ok(Obj(map[
      "final_score" := Num(d.PreFairness() + adjustment),
      "verdict" := Str("MAYBE"),
      "weighted_scores" := WeightedScores(d),
      "fairness_adjustment_applied" := d.adjustment,
      "decision_reasoning" := Str(reasoning),
      "key_strengths" := Arr([]),
      "key_concerns" := Arr([Str(concern)]),
      "next_steps" := Str(nextSteps),
      "thought_process" := Str(thought)]))
  }

  /** What the `try` block returns: the reply as it is, with no check of
      its score or label, or the fallback verdict. */
  function Reply(outcome: Outcome, d: Decision): (r: Result<Value, Error>)
    ensures outcome.Parsed? ==> r == Ok(outcome.reply)
    ensures !outcome.Parsed? ==> (r.Err? <==> AsNumber(d.adjustment).Err?)
    ensures outcome.DecodeError? && r.Ok? ==> IsFallbackVerdict(r.value, d, "Data format error in analysis")
    ensures outcome.OtherError? && r.Ok? ==> IsFallbackVerdict(r.value, d, "Error: " + outcome.message)
  {
    match outcome
    case Parsed(reply) => Ok(reply)
    case DecodeError =>
      Fallback(d, DecodeReasoning, "Data format error in analysis", DecodeNextSteps, DecodeThought)
    case OtherError(message) =>
      Fallback(d, "Error: " + message, "Error: " + message, ErrorNextSteps, ErrorThought + message)
  }

  /** `referee_agent(state)`: the value it returns under `final_verdict`.
      A missing key, a malformed state or a non-numeric score or weight
      escapes as an error; so does a non-numeric adjustment when the call
      fails. */
  function RefereeAgent(st: AgentGraphState, apiKey: Option<string>, outcome: Outcome): (r: Result<Value, Error>)
    ensures InitializeLlm(apiKey).Err? ==> r == Err(InitializeLlm(apiKey).error)
    ensures InitializeLlm(apiKey).Ok? && Prepare(st).Err? ==> r == Err(Prepare(st).error)
    ensures InitializeLlm(apiKey).Ok? && Prepare(st).Ok? ==> r == Reply(outcome, Prepare(st).value)
  {
    var llm := InitializeLlm(apiKey);
    if llm.Err? then Err(llm.error)
    else
      var d := Prepare(st);
      if d.Err? then Err(d.error)
      else Reply(outcome, d.value)
  }

  /** No key occurs twice, as in any dict. */
  predicate DistinctKeys(ws: seq<(string, real)>) {
    forall i, j :: 0 <= i < j < |ws| ==> ws[i].0 != ws[j].0
  }

  /** With distinct keys, looking up a key finds its one entry. */
  lemma LookupFinds(ws: seq<(string, real)>, i: nat, default: real)
    requires DistinctKeys(ws) && i < |ws|
    ensures Lookup(ws, ws[i].0, default) == ws[i].1
  {
    var r := Lookup(ws, ws[i].0, default);
    var j :| 0 <= j < |ws| && ws[j] == (ws[i].0, r);
  }

  /** Five weights keyed by the five sources, in the order of the default
      dict. */
  predicate InSourceOrder(ws: seq<(string, real)>) {
    && |ws| == 5
    && ws[0].0 == "resume" && ws[1].0 == "cover_letter" && ws[2].0 == "jd_match"
    && ws[3].0 == "github" && ws[4].0 == "location"
  }

  /** When all five sources are configured, each gets its own weight and
      no default is used. */
  lemma EffectiveInSourceOrder(ws: seq<(string, real)>)
    requires InSourceOrder(ws)
    ensures Effective(ws) == Sources(ws[0].1, ws[1].1, ws[2].1, ws[3].1, ws[4].1)
  {
    assert DistinctKeys(ws);
    LookupFinds(ws, 0, 0.2);
    LookupFinds(ws, 1, 0.15);
    LookupFinds(ws, 2, 0.3);
    LookupFinds(ws, 3, 0.2);
    LookupFinds(ws, 4, 0.15);
  }

  /** The sum of five weights, written out. */
  lemma SumOfFive(ws: seq<(string, real)>)
    requires |ws| == 5
    ensures Sum(ws) == ws[0].1 + ws[1].1 + ws[2].1 + ws[3].1 + ws[4].1
  {
    SumStep(ws, 0);
    SumStep(ws, 1);
    SumStep(ws, 2);
    SumStep(ws, 3);
    SumStep(ws, 4);
  }

  /** One step of the sum over a suffix. */
  lemma SumStep(ws: seq<(string, real)>, k: nat)
    requires k < |ws|
    ensures Sum(ws[k..]) == ws[k].1 + Sum(ws[k + 1..])
  {
    assert ws[k..][1..] == ws[k + 1..];
  }

  /** Weights given as numbers convert to those numbers. */
  lemma NumericOfNumbers(ws: seq<(string, Value)>, ns: seq<(string, real)>)
    requires |ws| == |ns| && forall i :: 0 <= i < |ws| ==> ws[i] == (ns[i].0, Num(ns[i].1))
    ensures NumericWeights(ws) == Ok(ns)
  {
    var r := NumericWeights(ws);
    assert r.Ok?;
    assert r.value == ns;
  }

  /** The default weights, as numbers. */
  const DefaultNumbers: seq<(string, real)> :=
    [("resume", 0.2), ("cover_letter", 0.15), ("jd_match", 0.3), ("github", 0.2), ("location", 0.15)]

  /** The default weights are numeric and already sum to 1, so normalising
      leaves each of them where it is. */
  lemma DefaultWeightsSumToOne()
    ensures NumericWeights(DefaultWeights) == Ok(DefaultNumbers)
    ensures Sum(DefaultNumbers) == 1.0
    ensures NormalisedWeights(DefaultCriteria) == Ok(DefaultNumbers)
    ensures Effective(DefaultNumbers) == Sources(0.2, 0.15, 0.3, 0.2, 0.15)
  {
    NumericOfNumbers(DefaultWeights, DefaultNumbers);
    SumOfFive(DefaultNumbers);
    NormaliseUnit(DefaultNumbers);
    EffectiveInSourceOrder(DefaultNumbers);
  }

  /** Weights that already sum to 1 are left as they are. */
  lemma NormaliseUnit(ws: seq<(string, real)>)
    requires Sum(ws) == 1.0
    ensures Normalise(ws) == ws
  {
    var n := Normalise(ws);
    assert forall i :: 0 <= i < |ws| ==> n[i].1 == ws[i].1 / 1.0;
    assert forall i :: 0 <= i < |ws| ==> n[i] == ws[i];
  }

  /** A source missing from the configured weights keeps its default after
      the others are normalised, so the effective weights need not sum to
      1: with only `resume` configured, they sum to 1.8. */
  lemma MissingKeysKeepDefaults()
    ensures var c := Criteria(Some([("resume", Num(3.0))]), None);
      && NormalisedWeights(c) == Ok([("resume", 1.0)])
      && Effective([("resume", 1.0)]) == Sources(1.0, 0.15, 0.3, 0.2, 0.15)
      && Total(Effective([("resume", 1.0)])) == 1.8
  {
    var c := Criteria(Some([("resume", Num(3.0))]), None);
    NumericOfNumbers(ConfiguredWeights(c), [("resume", 3.0)]);
    assert Sum([("resume", 3.0)]) == 3.0;
    var n := Normalise([("resume", 3.0)]);
    assert n[0] == ("resume", 1.0);
    assert n == [("resume", 1.0)];
    var one := [("resume", 1.0)];
    assert forall i :: 0 <= i < |one| ==>
      one[i].0 != "cover_letter" && one[i].0 != "jd_match" && one[i].0 != "github" && one[i].0 != "location";
    LookupFinds(one, 0, 0.2);
  }

  /** An empty weights dict sums to 0, so nothing is normalised and every
      source takes its default: the run is weighted exactly as with no
      criteria at all, not by zero weights. */
  lemma EmptyWeightsUseDefaults(strictness: Option<Value>)
    ensures var c := Criteria(Some([]), strictness);
      NormalisedWeights(c) == Ok([]) && Effective([]) == Sources(0.2, 0.15, 0.3, 0.2, 0.15)
  {
  }

  /** When the call's reply is not JSON and the adjustment is a number,
      the verdict is `MAYBE` with the weighted score plus the adjustment. */
  lemma DecodeFallbackScore(d: Decision, adjustment: real)
    requires d.adjustment == Num(adjustment)
    ensures Reply(DecodeError, d).Ok?
    ensures HasField(Reply(DecodeError, d).value, "final_score", Num(d.PreFairness() + adjustment))
    ensures HasField(Reply(DecodeError, d).value, "verdict", Str("MAYBE"))
  {
  }

  /** All five weights zero. */
  const ZeroNumbers: seq<(string, real)> :=
    [("resume", 0.0), ("cover_letter", 0.0), ("jd_match", 0.0), ("github", 0.0), ("location", 0.0)]

  lemma ZeroSum()
    ensures Sum(ZeroNumbers) == 0.0
  {
    SumOfFive(ZeroNumbers);
  }

  lemma ZeroEffective()
    ensures Effective(ZeroNumbers) == Sources(0.0, 0.0, 0.0, 0.0, 0.0)
  {
    EffectiveInSourceOrder(ZeroNumbers);
  }

  /** Five zero weights sum to 0 and stay zero, so the weighted score is 0
      for any scores, and the fallback score is the adjustment alone: 50
      for an adjustment of 50. */
  lemma ZeroWeightsScenario(scores: Sources<real>)
    ensures Effective(Normalise(ZeroNumbers)) == Sources(0.0, 0.0, 0.0, 0.0, 0.0)
    ensures var d := Decision(scores, Sources(0.0, 0.0, 0.0, 0.0, 0.0), Num(50.0));
      && d.PreFairness() == 0.0
      && Reply(DecodeError, d).Ok?
      && HasField(Reply(DecodeError, d).value, "final_score", Num(50.0))
  {
    ZeroSum();
    ZeroEffective();
    var d := Decision(scores, Sources(0.0, 0.0, 0.0, 0.0, 0.0), Num(50.0));
    assert d.PreFairness() == 0.0;
    DecodeFallbackScore(d, 50.0);
  }

  /** With the default weights, scores 80/70/90/60/100 and no adjustment,
      the weighted score is 80.5; when the call fails the verdict carries
      that score with the label `MAYBE`, as no threshold is applied in
      code. */
  lemma DefaultWeightsScenario()
    ensures var d := Decision(Sources(80.0, 70.0, 90.0, 60.0, 100.0),
                              Effective(NormalisedWeights(DefaultCriteria).value), Num(0.0));
      && d.PreFairness() == 80.5
      && Reply(DecodeError, d).Ok?
      && HasField(Reply(DecodeError, d).value, "final_score", Num(80.5))
      && HasField(Reply(DecodeError, d).value, "verdict", Str("MAYBE"))
  {
    DefaultWeightsSumToOne();
    var d := Decision(Sources(80.0, 70.0, 90.0, 60.0, 100.0), Sources(0.2, 0.15, 0.3, 0.2, 0.15), Num(0.0));
    assert d.PreFairness() == 80.5;
    DecodeFallbackScore(d, 0.0);
  }

  /** In a fallback verdict, the final score is the sum of the five
      reported weighted scores plus the adjustment that is reported as
      applied. */
  lemma FallbackScoreAddsUp(v: Value, d: Decision, concern: string)
    requires IsFallbackVerdict(v, d, concern)
    ensures var w := v.fields["weighted_scores"].fields;
      && w.Keys == {"jd_match_weighted", "github_weighted", "resume_weighted", "cover_letter_weighted", "location_weighted"}
      && v.fields["final_score"].n ==
         w["jd_match_weighted"].n + w["github_weighted"].n + w["resume_weighted"].n
         + w["cover_letter_weighted"].n + w["location_weighted"].n
         + AsNumber(v.fields["fairness_adjustment_applied"]).value
  {
  }
}
