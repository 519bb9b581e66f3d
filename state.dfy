/** The shared graph state of backend/state.py and the way backend/main.py
    fills it before a run. */
module State {
  import opened Wrappers
  import opened Values

  /** The `hiring_criteria` dict: the `weights` dict as its items in
      insertion order (keys are distinct, as in any dict), and `strictness`.
      `None` stands for a key that is absent. */
  datatype Criteria = Criteria(weights: Option<seq<(string, Value)>>, strictness: Option<Value>)

  /** The five Layer-1 weights every default in the code spells out. */
  const DefaultWeights: seq<(string, Value)> := [
    ("resume", Num(0.2)),
    ("cover_letter", Num(0.15)),
    ("jd_match", Num(0.3)),
    ("github", Num(0.2)),
    ("location", Num(0.15))
  ]

  /** The criteria used when the caller supplies none. */
  const DefaultCriteria: Criteria := Criteria(Some(DefaultWeights), Some(Str("medium")))

  /** `AgentGraphState`: the application, the criteria, and one result slot
      per agent. */
  datatype AgentGraphState = AgentGraphState(
    jobApplication: Value,
    hiringCriteria: Criteria,
    resumeScore: Value,
    coverLetterScore: Value,
    jdMatchScore: Value,
    githubScore: Value,
    locationScore: Value,
    fairnessAudit: Value,
    finalVerdict: Value)

  /** The seven result slots. */
  datatype Slot =
    | ResumeScore | CoverLetterScore | JdMatchScore | GithubScore | LocationScore
    | FairnessAudit | FinalVerdict

  /** The state key of a slot; an agent returns its result under this key. */
  function SlotKey(slot: Slot): string {
    match slot
    case ResumeScore => "resume_score"
    case CoverLetterScore => "cover_letter_score"
    case JdMatchScore => "jd_match_score"
    case GithubScore => "github_score"
    case LocationScore => "location_score"
    case FairnessAudit => "fairness_audit"
    case FinalVerdict => "final_verdict"
  }

  /** Different slots have different keys. */
  lemma SlotKeyInjective(a: Slot, b: Slot)
    ensures SlotKey(a) == SlotKey(b) <==> a == b
  {
  }

  function Read(st: AgentGraphState, slot: Slot): Value {
    match slot
    case ResumeScore => st.resumeScore
    case CoverLetterScore => st.coverLetterScore
    case JdMatchScore => st.jdMatchScore
    case GithubScore => st.githubScore
    case LocationScore => st.locationScore
    case FairnessAudit => st.fairnessAudit
    case FinalVerdict => st.finalVerdict
  }

  /** Merging an agent's `{key: value}` update into the state: the named
      slot takes the value and nothing else changes. */
  function Write(st: AgentGraphState, slot: Slot, v: Value): (r: AgentGraphState)
    ensures Read(r, slot) == v
    ensures forall other :: other != slot ==> Read(r, other) == Read(st, other)
    ensures r.jobApplication == st.jobApplication && r.hiringCriteria == st.hiringCriteria
  {
    match slot
    case ResumeScore => st.(resumeScore := v)
    case CoverLetterScore => st.(coverLetterScore := v)
    case JdMatchScore => st.(jdMatchScore := v)
    case GithubScore => st.(githubScore := v)
    case LocationScore => st.(locationScore := v)
    case FairnessAudit => st.(fairnessAudit := v)
    case FinalVerdict => st.(finalVerdict := v)
  }

  /** The initial state of `stream_agent_analysis`: the given criteria, or
      the defaults when none are given, and every result slot an empty
      dict. */
  function InitialState(app: Value, criteria: Option<Criteria>): (st: AgentGraphState)
    ensures st.jobApplication == app
    ensures st.hiringCriteria == criteria.GetOr(DefaultCriteria)
    ensures forall slot :: Read(st, slot) == EmptyObj
  {
    AgentGraphState(app, criteria.GetOr(DefaultCriteria),
      EmptyObj, EmptyObj, EmptyObj, EmptyObj, EmptyObj, EmptyObj, EmptyObj)
  }
}
