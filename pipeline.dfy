/** The run that backend/main.py drives: the initial state, the seven agents
    executed in the order the graph allows, each agent's result merged into
    its slot and announced by an `on_chain_end` event, and the messages
    those events yield. The executor is sequential here: the first agent
    that raises ends the run, and no event follows it. */
module Pipeline {
  import opened Wrappers
  import opened Values
  import opened Llm
  import opened State
  import opened Graph
  import Stream
  import Preprocessor
  import Resume
  import CoverLetter
  import JdMatch
  import Github
  import Location
  import Fairness
  import Referee

  /** The outcome of each agent's model call in one run. */
  datatype Calls = Calls(
    resume: Outcome, coverLetter: Outcome, jdMatch: Outcome, github: Outcome,
    location: Outcome, fairness: Outcome, referee: Outcome)

  /** The slot an agent node returns its result under. */
  function SlotOf(n: Node): Slot
    requires IsAgent(n)
  {
    match n
    case ResumeAnalyst => ResumeScore
    case CoverLetterAnalyst => CoverLetterScore
    case JdMatchAnalyst => JdMatchScore
    case GithubAnalyst => GithubScore
    case LocationCoordinator => LocationScore
    case FairnessAuditor => FairnessAudit
    case _ => FinalVerdict
  }

  /** The name a node is registered under is the name the stream knows it
      by, and the key the stream looks its result up under is the key of
      the slot the node writes. */
  lemma NodeNames(n: Node)
    requires IsAgent(n)
    ensures Name(n) in Stream.DisplayNames
    ensures Stream.ScoreKey(Name(n)) == SlotKey(SlotOf(n))
  {
  }

  /** Different agents write different slots. */
  lemma SlotOfInjective(a: Node, b: Node)
    requires IsAgent(a) && IsAgent(b)
    ensures SlotOf(a) == SlotOf(b) <==> a == b
  {
  }

  /** Running one node on the current state with the outcome of its call:
      the function the node is registered with in backend/graph.py. A
      missing key fails every node the same way. */
  function Step(st: AgentGraphState, n: Node, apiKey: Option<string>, calls: Calls): (r: Result<Value, Error>)
    requires IsAgent(n)
    ensures InitializeLlm(apiKey).Err? ==> r == Err(ValueError(MissingKeyMessage))
  {
    match n
    case ResumeAnalyst => Resume.ResumeAnalyst(st, apiKey, calls.resume)
    case CoverLetterAnalyst => CoverLetter.CoverLetterAnalyst(st, apiKey, calls.coverLetter)
    case JdMatchAnalyst => JdMatch.JdMatchAnalyst(st, apiKey, calls.jdMatch)
    case GithubAnalyst => Github.GithubAnalyst(st, apiKey, calls.github)
    case LocationCoordinator => Location.LocationCoordinator(st, apiKey, calls.location)
    case FairnessAuditor => Fairness.FairnessAuditor(st, apiKey, calls.fairness)
    case _ => Referee.RefereeAgent(st, apiKey, calls.referee)
  }

  /** The five analysts read the application only, never a result slot, so
      what they return does not depend on which agents ran before them. */
  lemma AnalystsReadApplicationOnly(st: AgentGraphState, st': AgentGraphState, n: Node,
                                    apiKey: Option<string>, calls: Calls)
    requires IsAnalyst(n) && st.jobApplication == st'.jobApplication
    ensures Step(st, n, apiKey, calls) == Step(st', n, apiKey, calls)
  {
  }

  /** The event the executor emits when node `n` returns `{key: v}`. */
  function NodeEvent(n: Node, v: Value): Value
    requires IsAgent(n)
  {
    Obj(map[
      "event" := Str("on_chain_end"),
      "metadata" := Obj(map["langgraph_node" := Str(Name(n))]),
      "data" := Obj(map["output" := Obj(map[SlotKey(SlotOf(n)) := v])])])
  }

  /** The event of a node that returned a dict yields that node's message. */
  lemma NodeEventYields(n: Node, v: Value)
    requires IsAgent(n) && v.Obj?
    ensures Name(n) in Stream.DisplayNames
    ensures Stream.Translate(NodeEvent(n, v)) == Ok(Some(Stream.MessageFor(Name(n), v)))
  {
    NodeNames(n);
    var e := NodeEvent(n, v);
    assert Stream.NodeOf(e) == Str(Name(n));
    assert Stream.OutputOf(e) == Obj(map[SlotKey(SlotOf(n)) := v]);
    assert Stream.ResultOf(e) == v;
  }

  /** A run: the nodes that returned, each with its result, the state
      after them, and the exception that ended the run, if any. */
  datatype Run = Run(steps: seq<(Node, Value)>, state: AgentGraphState, raised: Option<Error>)

  /** Executing `order[from..]` on `st`, where `agent(s, n)` is what node
      `n` returns on state `s`: each node's result is written to its slot
      before the next node runs; a node that raises ends the run with the
      state as it was. */
  function Execute(st: AgentGraphState, order: seq<Node>, from: nat,
                   agent: (AgentGraphState, Node) --> Result<Value, Error>): (r: Run)
    requires from <= |order| && forall i :: from <= i < |order| ==> IsAgent(order[i])
    requires forall s, n :: IsAgent(n) ==> agent.requires(s, n)
    ensures r.state.jobApplication == st.jobApplication && r.state.hiringCriteria == st.hiringCriteria
    ensures |r.steps| <= |order| - from
    ensures r.raised.None? <==> |r.steps| == |order| - from
    ensures forall i :: 0 <= i < |r.steps| ==> r.steps[i].0 == order[from + i]
    decreases |order| - from
  {
    if from == |order| then Run([], st, None)
    else
      var n := order[from];
      match agent(st, n)
      case Err(e) => Run([], st, Some(e))
      case Ok(v) =>
        var rest := Execute(Write(st, SlotOf(n), v), order, from + 1, agent);
        Run([(n, v)] + rest.steps, rest.state, rest.raised)
  }

  /** Unfolding one successful step of a run. */
  lemma ExecuteStep(st: AgentGraphState, order: seq<Node>, from: nat,
                    agent: (AgentGraphState, Node) --> Result<Value, Error>, v: Value)
    requires from < |order| && forall i :: from <= i < |order| ==> IsAgent(order[i])
    requires forall s, n :: IsAgent(n) ==> agent.requires(s, n)
    requires agent(st, order[from]) == Ok(v)
    ensures var rest := Execute(Write(st, SlotOf(order[from]), v), order, from + 1, agent);
      Execute(st, order, from, agent) == Run([(order[from], v)] + rest.steps, rest.state, rest.raised)
  {
  }

  /** A property of the state that each node of `order[from..]` keeps,
      moving it from position `k` to position `k + 1`, while returning a
      dict: the run then completes, every step holds a dict, and the final
      state has the property at the end of the order. */
  lemma {:induction false} ExecuteKeeps(st: AgentGraphState, order: seq<Node>, from: nat,
                                        agent: (AgentGraphState, Node) --> Result<Value, Error>,
                                        inv: (AgentGraphState, nat) -> bool)
    requires from <= |order| && forall i :: from <= i < |order| ==> IsAgent(order[i])
    requires forall s, n :: IsAgent(n) ==> agent.requires(s, n)
    requires inv(st, from)
    requires forall s, k :: from <= k < |order| && inv(s, k) ==>
      agent(s, order[k]).Ok? && agent(s, order[k]).value.Obj?
      && inv(Write(s, SlotOf(order[k]), agent(s, order[k]).value), k + 1)
    ensures var run := Execute(st, order, from, agent);
      && run.raised.None? && |run.steps| == |order| - from
      && (forall i :: 0 <= i < |run.steps| ==> run.steps[i].1.Obj?)
      && inv(run.state, |order|)
    decreases |order| - from
  {
    if from < |order| {
      var v := agent(st, order[from]).value;
      ExecuteStep(st, order, from, agent, v);
      ExecuteKeeps(Write(st, SlotOf(order[from]), v), order, from + 1, agent, inv);
    }
  }

  /** A run that completes ends in a state whose slot of the last node
      holds that node's result: nothing runs after it to overwrite it. */
  lemma {:induction false} LastResultKept(st: AgentGraphState, order: seq<Node>, from: nat,
                                          agent: (AgentGraphState, Node) --> Result<Value, Error>)
    requires from < |order| && forall i :: from <= i < |order| ==> IsAgent(order[i])
    requires forall s, n :: IsAgent(n) ==> agent.requires(s, n)
    requires Execute(st, order, from, agent).raised.None?
    ensures var run := Execute(st, order, from, agent);
      |run.steps| > 0 && run.steps[|run.steps| - 1] == (order[|order| - 1], Read(run.state, SlotOf(order[|order| - 1])))
    decreases |order| - from
  {
    var n := order[from];
    var v := agent(st, n).value;
    ExecuteStep(st, order, from, agent, v);
    if from + 1 < |order| {
      LastResultKept(Write(st, SlotOf(n), v), order, from + 1, agent);
    }
  }

  /** The events of a run's steps, in order. */
  function Events(steps: seq<(Node, Value)>): (events: seq<Value>)
    requires forall i :: 0 <= i < |steps| ==> IsAgent(steps[i].0)
    ensures |events| == |steps|
    ensures forall i :: 0 <= i < |steps| ==> events[i] == NodeEvent(steps[i].0, steps[i].1)
  {
    seq(|steps|, i requires 0 <= i < |steps| => NodeEvent(steps[i].0, steps[i].1))
  }

  /** The agents of a run, each with its call outcome. */
  function Agent(apiKey: Option<string>, calls: Calls): (AgentGraphState, Node) --> Result<Value, Error> {
    (st: AgentGraphState, n: Node) requires IsAgent(n) => Step(st, n, apiKey, calls)
  }

  /** The run of the compiled graph from the initial state, in the order
      the nodes are registered, which is an order the graph allows. */
  function RunGraph(app: Value, criteria: Option<Criteria>, apiKey: Option<string>, calls: Calls): Run {
    Execute(InitialState(app, criteria), Agents, 0, Agent(apiKey, calls))
  }

  /** `stream_agent_analysis` over that run: the messages of its events,
      then the error message if an agent raised, or the completion
      message. */
  function Analyse(app: Value, criteria: Option<Criteria>, apiKey: Option<string>, calls: Calls): seq<Stream.Message> {
    var run := RunGraph(app, criteria, apiKey, calls);
    Stream.Stream(Events(run.steps), run.raised)
  }

  /** Without a key the first agent raises before anything is emitted:
      the stream is the single error message. */
  lemma NoKeySingleError(app: Value, criteria: Option<Criteria>, apiKey: Option<string>, calls: Calls)
    requires apiKey == None || apiKey == Some("")
    ensures Analyse(app, criteria, apiKey, calls) ==
      [Stream.Failure("Error during analysis: " + ErrorText(ValueError(MissingKeyMessage)))]
  {
    assert Agents[0] == ResumeAnalyst;
    assert RunGraph(app, criteria, apiKey, calls).steps == [];
  }

  /** Every model call fails after the client is created. */
  predicate AllFail(calls: Calls) {
    && !calls.resume.Parsed? && !calls.coverLetter.Parsed? && !calls.jdMatch.Parsed?
    && !calls.github.Parsed? && !calls.location.Parsed? && !calls.fairness.Parsed?
    && !calls.referee.Parsed?
  }

  /** Every analyst can read what it needs from the application without
      raising. */
  predicate AnalystsReadable(app: Value) {
    && Resume.ReadInputs(app).Ok? && CoverLetter.ReadInputs(app).Ok? && JdMatch.ReadInputs(app).Ok?
    && Github.ReadInputs(app).Ok? && Len(Github.ReadInputs(app).value.repos).Ok?
    && Location.ReadInputs(app).Ok?
  }

  /** Every agent can read what it needs from the application without
      raising. */
  predicate Readable(app: Value) {
    AnalystsReadable(app) && Referee.ReadApplication(app).Ok?
  }

  /** The score of an analyst's neutral record: 50 for the location
      coordinator, 0 for the other four. */
  function NeutralScore(n: Node): real {
    if n == LocationCoordinator then 50.0 else 0.0
  }

  /** The five slots hold the analysts' neutral scores. */
  predicate NeutralScores(s: AgentGraphState) {
    && HasField(s.resumeScore, "score", Num(0.0))
    && HasField(s.coverLetterScore, "score", Num(0.0))
    && HasField(s.jdMatchScore, "score", Num(0.0))
    && HasField(s.githubScore, "score", Num(0.0))
    && HasField(s.locationScore, "score", Num(50.0))
  }

  /** On the application `app`, every analyst returns a dict with its
      neutral score, whatever ran before it. */
  ghost predicate AnalystsNeutral(agent: (AgentGraphState, Node) --> Result<Value, Error>, app: Value)
    requires forall s, n :: IsAgent(n) ==> agent.requires(s, n)
  {
    forall s: AgentGraphState, n: Node :: IsAnalyst(n) && s.jobApplication == app ==>
      assert IsAgent(n);
      agent(s, n).Ok? && HasField(agent(s, n).value, "score", Num(NeutralScore(n)))
  }

  /** Once the analysts have written their neutral records, the auditor
      returns the neutral audit. */
  ghost predicate AuditNeutral(agent: (AgentGraphState, Node) --> Result<Value, Error>, app: Value)
    requires forall s, n :: IsAgent(n) ==> agent.requires(s, n)
  {
    forall s: AgentGraphState :: s.jobApplication == app && NeutralScores(s) ==>
      assert IsAgent(FairnessAuditor);
      agent(s, FairnessAuditor).Ok? && Fairness.IsNeutral(agent(s, FairnessAuditor).value)
  }

  /** The verdict the referee reaches on neutral scores under the default
      weights: `MAYBE` at 7.5. */
  predicate MaybeAtNeutral(v: Value) {
    HasField(v, "final_score", Num(7.5)) && HasField(v, "verdict", Str("MAYBE"))
  }

  /** Under the default criteria, once the slots hold the neutral scores and
      the audit adjusts nothing, the referee returns `MAYBE` at 7.5. */
  ghost predicate VerdictAtNeutral(agent: (AgentGraphState, Node) --> Result<Value, Error>, app: Value)
    requires forall s, n :: IsAgent(n) ==> agent.requires(s, n)
  {
    forall s: AgentGraphState ::
      (&& s.jobApplication == app && s.hiringCriteria == DefaultCriteria && NeutralScores(s)
       && HasField(s.fairnessAudit, "total_adjustment", Num(0.0))) ==>
      assert IsAgent(RefereeAgent);
      agent(s, RefereeAgent).Ok? && MaybeAtNeutral(agent(s, RefereeAgent).value)
  }

  /** The seven agents in the order the run takes them. */
  lemma AgentsInOrder()
    ensures Agents == [ResumeAnalyst, CoverLetterAnalyst, JdMatchAnalyst, GithubAnalyst,
                       LocationCoordinator, FairnessAuditor, RefereeAgent]
  {
  }

  /** The run has seven agents. */
  lemma AgentsLength()
    ensures |Agents| == 7 && forall i :: 0 <= i < 7 ==> IsAgent(Agents[i])
    ensures Agents[6] == RefereeAgent
  {
    AgentsInOrder();
  }

  /** The first `k` analysts' slots hold their neutral records. */
  ghost predicate NeutralUpTo(s: AgentGraphState, k: nat)
    requires k <= 5
  {
    AgentsInOrder();
    forall j :: 0 <= j < k ==> HasField(Read(s, SlotOf(Agents[j])), "score", Num(NeutralScore(Agents[j])))
  }

  /** Once all five analysts have run, the slots hold the neutral scores. */
  lemma NeutralUpToAll(st: AgentGraphState)
    requires NeutralUpTo(st, 5)
    ensures NeutralScores(st)
  {
    AgentsInOrder();
    assert forall j :: 0 <= j < 5 ==> HasField(Read(st, SlotOf(Agents[j])), "score", Num(NeutralScore(Agents[j])));
    assert Read(st, SlotOf(Agents[0])) == st.resumeScore;
    assert Read(st, SlotOf(Agents[1])) == st.coverLetterScore;
    assert Read(st, SlotOf(Agents[2])) == st.jdMatchScore;
    assert Read(st, SlotOf(Agents[3])) == st.githubScore;
    assert Read(st, SlotOf(Agents[4])) == st.locationScore;
  }

  /** What holds once the first `k` agents of a run on `app` under the
      default criteria have returned their neutral records. */
  ghost predicate Reached(app: Value, st: AgentGraphState, k: nat)
    requires k <= 7
  {
    && st.jobApplication == app && st.hiringCriteria == DefaultCriteria
    && (if k <= 5 then NeutralUpTo(st, k) else NeutralScores(st))
    && (k >= 6 ==> HasField(st.fairnessAudit, "total_adjustment", Num(0.0)))
    && (k == 7 ==> MaybeAtNeutral(st.finalVerdict))
  }

  /** The `k`-th analyst returns its neutral record, which joins those of the
      analysts before it. */
  lemma NextAnalyst(app: Value, agent: (AgentGraphState, Node) --> Result<Value, Error>,
                    st: AgentGraphState, k: nat)
    requires forall s, n :: IsAgent(n) ==> agent.requires(s, n)
    requires AnalystsNeutral(agent, app)
    requires k < 5 && Reached(app, st, k)
    ensures IsAgent(Agents[k]) && agent(st, Agents[k]).Ok? && agent(st, Agents[k]).value.Obj?
    ensures Reached(app, Write(st, SlotOf(Agents[k]), agent(st, Agents[k]).value), k + 1)
  {
    AgentsInOrder();
    var n := Agents[k];
    assert IsAnalyst(n);
    var st' := Write(st, SlotOf(n), agent(st, n).value);
    forall j | 0 <= j < k + 1
      ensures HasField(Read(st', SlotOf(Agents[j])), "score", Num(NeutralScore(Agents[j])))
    {
      if j < k { SlotOfInjective(Agents[j], n); }
    }
    if k == 4 {
      assert NeutralUpTo(st', 5);
      NeutralUpToAll(st');
    }
  }

  /** The auditor returns the neutral audit. */
  lemma NextAudit(app: Value, agent: (AgentGraphState, Node) --> Result<Value, Error>,
                  st: AgentGraphState, k: nat)
    requires forall s, n :: IsAgent(n) ==> agent.requires(s, n)
    requires AuditNeutral(agent, app)
    requires k == 5 && Reached(app, st, k)
    ensures IsAgent(Agents[k]) && agent(st, Agents[k]).Ok? && agent(st, Agents[k]).value.Obj?
    ensures Reached(app, Write(st, SlotOf(Agents[k]), agent(st, Agents[k]).value), k + 1)
  {
    AgentsInOrder();
    NeutralUpToAll(st);
  }

  /** The referee returns `MAYBE` at 7.5. */
  lemma NextVerdict(app: Value, agent: (AgentGraphState, Node) --> Result<Value, Error>,
                    st: AgentGraphState, k: nat)
    requires forall s, n :: IsAgent(n) ==> agent.requires(s, n)
    requires VerdictAtNeutral(agent, app)
    requires k == 6 && Reached(app, st, k)
    ensures IsAgent(Agents[k]) && agent(st, Agents[k]).Ok? && agent(st, Agents[k]).value.Obj?
    ensures Reached(app, Write(st, SlotOf(Agents[k]), agent(st, Agents[k]).value), k + 1)
  {
    AgentsInOrder();
  }

  /** The `k`-th agent returns a dict and the run moves on. */
  lemma NextAgent(app: Value, agent: (AgentGraphState, Node) --> Result<Value, Error>,
                  st: AgentGraphState, k: nat)
    requires forall s, n :: IsAgent(n) ==> agent.requires(s, n)
    requires AnalystsNeutral(agent, app) && AuditNeutral(agent, app) && VerdictAtNeutral(agent, app)
    requires k < 7 && Reached(app, st, k)
    ensures IsAgent(Agents[k]) && agent(st, Agents[k]).Ok? && agent(st, Agents[k]).value.Obj?
    ensures Reached(app, Write(st, SlotOf(Agents[k]), agent(st, Agents[k]).value), k + 1)
  {
    if k < 5 {
      NextAnalyst(app, agent, st, k);
    } else if k == 5 {
      NextAudit(app, agent, st, k);
    } else {
      NextVerdict(app, agent, st, k);
    }
  }

  /** `Reached` as a property of a state and a position. */
  ghost function ReachedAt(app: Value): (AgentGraphState, nat) -> bool {
    (s: AgentGraphState, k: nat) => k <= 7 && Reached(app, s, k)
  }

  /** Each agent keeps `Reached`, moving it one position on, while
      returning a dict. */
  lemma AgentsKeepReached(app: Value, agent: (AgentGraphState, Node) --> Result<Value, Error>)
    requires forall s, n :: IsAgent(n) ==> agent.requires(s, n)
    requires AnalystsNeutral(agent, app) && AuditNeutral(agent, app) && VerdictAtNeutral(agent, app)
    ensures |Agents| == 7 && forall i :: 0 <= i < 7 ==> IsAgent(Agents[i])
    ensures forall s, k :: 0 <= k < |Agents| && ReachedAt(app)(s, k) ==>
      agent(s, Agents[k]).Ok? && agent(s, Agents[k]).value.Obj?
      && ReachedAt(app)(Write(s, SlotOf(Agents[k]), agent(s, Agents[k]).value), k + 1)
  {
    AgentsLength();
    forall s: AgentGraphState, k: nat | k < 7 && ReachedAt(app)(s, k)
      ensures agent(s, Agents[k]).Ok? && agent(s, Agents[k]).value.Obj?
      ensures ReachedAt(app)(Write(s, SlotOf(Agents[k]), agent(s, Agents[k]).value), k + 1)
    {
      NextAgent(app, agent, s, k);
    }
  }

  /** The referee runs last and writes the final verdict. */
  lemma LastAgent()
    ensures |Agents| == 7 && Agents[6] == RefereeAgent && SlotOf(Agents[6]) == FinalVerdict
  {
    AgentsInOrder();
  }

  /** At the end of the order, the final verdict is `MAYBE` at 7.5. */
  lemma ReachedEnd(app: Value, st: AgentGraphState)
    requires ReachedAt(app)(st, 7)
    ensures MaybeAtNeutral(Read(st, FinalVerdict))
  {
  }

  /** A run under the default criteria of agents that behave as above: no
      agent raises, all seven return dicts, and the verdict, the last
      result, is `MAYBE` at 7.5. */
  lemma NeutralRun(app: Value, agent: (AgentGraphState, Node) --> Result<Value, Error>)
    requires forall s, n :: IsAgent(n) ==> agent.requires(s, n)
    requires AnalystsNeutral(agent, app) && AuditNeutral(agent, app) && VerdictAtNeutral(agent, app)
    ensures var run := Execute(InitialState(app, None), Agents, 0, agent);
      && run.raised.None? && |run.steps| == 7
      && (forall i :: 0 <= i < 7 ==> run.steps[i].1.Obj?)
      && run.steps[6] == (RefereeAgent, run.state.finalVerdict)
      && MaybeAtNeutral(run.state.finalVerdict)
  {
    var st := InitialState(app, None);
    AgentsKeepReached(app, agent);
    assert ReachedAt(app)(st, 0);
    ExecuteKeeps(st, Agents, 0, agent, ReachedAt(app));
    var run := Execute(st, Agents, 0, agent);
    assert run.raised.None? && |run.steps| == 7;
    LastResultKept(st, Agents, 0, agent);
    LastAgent();
    assert run.steps[6] == (RefereeAgent, Read(run.state, FinalVerdict));
    ReachedEnd(app, run.state);
  }

  /** Every agent node can be run. */
  lemma AgentRuns(apiKey: Option<string>, calls: Calls)
    ensures forall s, n :: IsAgent(n) ==> Agent(apiKey, calls).requires(s, n)
  {
  }

  /** The function each agent node is registered with, run with the
      outcome of that node's call. */
  lemma StepDispatch(st: AgentGraphState, n: Node, apiKey: Option<string>, calls: Calls)
    requires IsAgent(n)
    ensures n == ResumeAnalyst ==> Step(st, n, apiKey, calls) == Resume.ResumeAnalyst(st, apiKey, calls.resume)
    ensures n == CoverLetterAnalyst ==>
      Step(st, n, apiKey, calls) == CoverLetter.CoverLetterAnalyst(st, apiKey, calls.coverLetter)
    ensures n == JdMatchAnalyst ==> Step(st, n, apiKey, calls) == JdMatch.JdMatchAnalyst(st, apiKey, calls.jdMatch)
    ensures n == GithubAnalyst ==> Step(st, n, apiKey, calls) == Github.GithubAnalyst(st, apiKey, calls.github)
    ensures n == LocationCoordinator ==>
      Step(st, n, apiKey, calls) == Location.LocationCoordinator(st, apiKey, calls.location)
    ensures n == FairnessAuditor ==>
      Step(st, n, apiKey, calls) == Fairness.FairnessAuditor(st, apiKey, calls.fairness)
    ensures n == RefereeAgent ==> Step(st, n, apiKey, calls) == Referee.RefereeAgent(st, apiKey, calls.referee)
  {
  }

  /** With a key and every call failing, the five analysts that can read
      the application return their neutral records: score 0, and 50 for
      the location coordinator. */
  lemma NeutralAnalysts(st: AgentGraphState, apiKey: Option<string>, calls: Calls)
    requires AnalystsReadable(st.jobApplication) && InitializeLlm(apiKey).Ok? && AllFail(calls)
    ensures var r := Resume.ResumeAnalyst(st, apiKey, calls.resume);
      r.Ok? && HasField(r.value, "score", Num(0.0))
    ensures var r := CoverLetter.CoverLetterAnalyst(st, apiKey, calls.coverLetter);
      r.Ok? && HasField(r.value, "score", Num(0.0))
    ensures var r := JdMatch.JdMatchAnalyst(st, apiKey, calls.jdMatch);
      r.Ok? && HasField(r.value, "score", Num(0.0))
    ensures var r := Github.GithubAnalyst(st, apiKey, calls.github);
      r.Ok? && HasField(r.value, "score", Num(0.0))
    ensures var r := Location.LocationCoordinator(st, apiKey, calls.location);
      r.Ok? && HasField(r.value, "score", Num(50.0))
  {
  }

  /** The same, for the analyst nodes of a run whose calls all fail. */
  lemma FailingAnalyst(app: Value, apiKey: Option<string>, calls: Calls, st: AgentGraphState, n: Node)
    requires AnalystsReadable(app) && InitializeLlm(apiKey).Ok? && AllFail(calls)
    requires IsAnalyst(n) && st.jobApplication == app
    ensures Step(st, n, apiKey, calls).Ok?
    ensures HasField(Step(st, n, apiKey, calls).value, "score", Num(NeutralScore(n)))
  {
    StepDispatch(st, n, apiKey, calls);
    NeutralAnalysts(st, apiKey, calls);
  }

  /** An auditor whose call fails, finding the neutral scores, returns the
      neutral audit. */
  lemma NeutralAudit(st: AgentGraphState, apiKey: Option<string>, outcome: Outcome)
    requires InitializeLlm(apiKey).Ok? && !outcome.Parsed?
    requires PathOk(st.jobApplication, "personal_info") && NeutralScores(st)
    ensures Fairness.FairnessAuditor(st, apiKey, outcome).Ok?
    ensures Fairness.IsNeutral(Fairness.FairnessAuditor(st, apiKey, outcome).value)
  {
  }

  /** The five neutral scores, read and taken as numbers. */
  lemma NeutralNumbers(st: AgentGraphState)
    requires NeutralScores(st)
    ensures Referee.ReadScores(st) == Ok(Referee.Sources(Num(0.0), Num(0.0), Num(0.0), Num(0.0), Num(50.0)))
    ensures Referee.Numbers(Referee.ReadScores(st).value) == Ok(Referee.Sources(0.0, 0.0, 0.0, 0.0, 50.0))
  {
  }

  /** The decision the referee prepares from the neutral scores and audit
      under the default weights. */
  lemma NeutralDecision(st: AgentGraphState)
    requires Referee.ReadApplication(st.jobApplication).Ok?
    requires st.hiringCriteria == DefaultCriteria && NeutralScores(st)
    requires HasField(st.fairnessAudit, "total_adjustment", Num(0.0))
    ensures Referee.Prepare(st) == Ok(Referee.Decision(Referee.Sources(0.0, 0.0, 0.0, 0.0, 50.0),
                                                       Referee.Sources(0.2, 0.15, 0.3, 0.2, 0.15), Num(0.0)))
  {
    Referee.DefaultWeightsSumToOne();
    NeutralNumbers(st);
  }

  /** Its weighted score: 0.2 * 0 + 0.15 * 0 + 0.3 * 0 + 0.2 * 0 + 0.15 * 50. */
  lemma NeutralWeightedScore()
    ensures Referee.Decision(Referee.Sources(0.0, 0.0, 0.0, 0.0, 50.0),
                             Referee.Sources(0.2, 0.15, 0.3, 0.2, 0.15), Num(0.0)).PreFairness() == 7.5
  {
  }

  /** A referee whose call fails, finding the neutral scores and audit
      under the default weights, reports `MAYBE` at
      0.2 * 0 + 0.15 * 0 + 0.3 * 0 + 0.2 * 0 + 0.15 * 50 = 7.5. */
  lemma NeutralVerdict(st: AgentGraphState, apiKey: Option<string>, outcome: Outcome)
    requires InitializeLlm(apiKey).Ok? && !outcome.Parsed?
    requires Referee.ReadApplication(st.jobApplication).Ok?
    requires st.hiringCriteria == DefaultCriteria && NeutralScores(st)
    requires HasField(st.fairnessAudit, "total_adjustment", Num(0.0))
    ensures Referee.RefereeAgent(st, apiKey, outcome).Ok?
    ensures MaybeAtNeutral(Referee.RefereeAgent(st, apiKey, outcome).value)
  {
    NeutralDecision(st);
    NeutralWeightedScore();
  }

  /** The concrete analysts, with a key and every call failing, behave as
      the run lemma needs. */
  lemma FailingAnalystsNeutral(app: Value, apiKey: Option<string>, calls: Calls)
    requires AnalystsReadable(app) && InitializeLlm(apiKey).Ok? && AllFail(calls)
    ensures forall s, n :: IsAgent(n) ==> Agent(apiKey, calls).requires(s, n)
    ensures AnalystsNeutral(Agent(apiKey, calls), app)
  {
    AgentRuns(apiKey, calls);
    var agent := Agent(apiKey, calls);
    forall s: AgentGraphState, n: Node | IsAnalyst(n) && s.jobApplication == app
      ensures agent(s, n).Ok? && HasField(agent(s, n).value, "score", Num(NeutralScore(n)))
    {
      FailingAnalyst(app, apiKey, calls, s, n);
    }
  }

  /** The concrete auditor, likewise. */
  lemma FailingAuditNeutral(app: Value, apiKey: Option<string>, calls: Calls)
    requires PathOk(app, "personal_info") && InitializeLlm(apiKey).Ok? && !calls.fairness.Parsed?
    ensures forall s, n :: IsAgent(n) ==> Agent(apiKey, calls).requires(s, n)
    ensures AuditNeutral(Agent(apiKey, calls), app)
  {
    AgentRuns(apiKey, calls);
    var agent := Agent(apiKey, calls);
    forall s: AgentGraphState | s.jobApplication == app && NeutralScores(s)
      ensures agent(s, FairnessAuditor).Ok? && Fairness.IsNeutral(agent(s, FairnessAuditor).value)
    {
      StepDispatch(s, FairnessAuditor, apiKey, calls);
      NeutralAudit(s, apiKey, calls.fairness);
    }
  }

  /** The concrete referee, likewise. */
  lemma FailingVerdictNeutral(app: Value, apiKey: Option<string>, calls: Calls)
    requires Referee.ReadApplication(app).Ok? && InitializeLlm(apiKey).Ok? && !calls.referee.Parsed?
    ensures forall s, n :: IsAgent(n) ==> Agent(apiKey, calls).requires(s, n)
    ensures VerdictAtNeutral(Agent(apiKey, calls), app)
  {
    AgentRuns(apiKey, calls);
    var agent := Agent(apiKey, calls);
    forall s: AgentGraphState | && s.jobApplication == app && s.hiringCriteria == DefaultCriteria
                                && NeutralScores(s) && HasField(s.fairnessAudit, "total_adjustment", Num(0.0))
      ensures agent(s, RefereeAgent).Ok? && MaybeAtNeutral(agent(s, RefereeAgent).value)
    {
      StepDispatch(s, RefereeAgent, apiKey, calls);
      NeutralVerdict(s, apiKey, calls.referee);
    }
  }

  /** The degraded run of main.py: with a key, no criteria and every model
      call failing, an application every agent can read still runs to the
      end, all seven agents return their fallback records, and the verdict
      is `MAYBE` at 7.5. */
  lemma FallbackRun(app: Value, apiKey: Option<string>, calls: Calls)
    requires Readable(app) && InitializeLlm(apiKey).Ok? && AllFail(calls)
    ensures var run := RunGraph(app, None, apiKey, calls);
      && run.raised.None? && |run.steps| == 7
      && (forall i :: 0 <= i < 7 ==> run.steps[i].1.Obj?)
      && run.steps[6] == (RefereeAgent, run.state.finalVerdict)
      && MaybeAtNeutral(run.state.finalVerdict)
  {
    FailingAnalystsNeutral(app, apiKey, calls);
    FailingAuditNeutral(app, apiKey, calls);
    FailingVerdictNeutral(app, apiKey, calls);
    NeutralRun(app, Agent(apiKey, calls));
  }

  /** A run whose every step returned a dict streams one message per step,
      in order, then the completion message. */
  lemma DictStepsStream(steps: seq<(Node, Value)>)
    requires forall i :: 0 <= i < |steps| ==> IsAgent(steps[i].0) && steps[i].1.Obj?
    ensures var out := Stream.Stream(Events(steps), None);
      && |out| == |steps| + 1 && out[|steps|] == Stream.Completion
      && forall i :: 0 <= i < |steps| ==>
           Name(steps[i].0) in Stream.DisplayNames && out[i] == Stream.MessageFor(Name(steps[i].0), steps[i].1)
  {
    var events := Events(steps);
    forall i | 0 <= i < |steps|
      ensures Name(steps[i].0) in Stream.DisplayNames
      ensures Stream.Translate(events[i]) == Ok(Some(Stream.MessageFor(Name(steps[i].0), steps[i].1)))
    {
      NodeEventYields(steps[i].0, steps[i].1);
    }
    Stream.EveryEventYields(events);
  }

  /** The referee's message for a `MAYBE` verdict at 7.5. */
  lemma VerdictMessage(v: Value)
    requires MaybeAtNeutral(v)
    ensures var m := Stream.MessageFor(Name(RefereeAgent), v);
      m.Verdict? && m.verdict == Str("MAYBE") && m.finalScore == Num(7.5) && m.fullVerdict == v
  {
  }

  /** The stream of the degraded run: a message from each of the six
      other agents in the order they ran, the referee's `MAYBE` at 7.5,
      then the completion message. */
  predicate NeutralStream(out: seq<Stream.Message>) {
    && |out| == 8 && out[7] == Stream.Completion
    && (forall i :: 0 <= i < 6 ==> out[i].Analysis?)
    && (forall i :: 0 <= i < 7 ==> (out[i].Analysis? || out[i].Verdict?) && Name(Agents[i]) in Stream.DisplayNames
                                    && out[i].agent == Stream.DisplayNames[Name(Agents[i])])
    && out[6].Verdict? && out[6].verdict == Str("MAYBE") && out[6].finalScore == Num(7.5)
  }

  /** A run shaped like the degraded one streams as described above. */
  lemma NeutralRunStream(run: Run)
    requires run.raised.None? && |run.steps| == 7
    requires forall i :: 0 <= i < 7 ==> run.steps[i].0 == Agents[i] && run.steps[i].1.Obj?
    requires run.steps[6] == (RefereeAgent, run.state.finalVerdict) && MaybeAtNeutral(run.state.finalVerdict)
    ensures forall i :: 0 <= i < 7 ==> IsAgent(run.steps[i].0)
    ensures NeutralStream(Stream.Stream(Events(run.steps), run.raised))
  {
    AgentsInOrder();
    DictStepsStream(run.steps);
    VerdictMessage(run.state.finalVerdict);
    AgentsDistinct();
    var out := Stream.Stream(Events(run.steps), run.raised);
    forall i | 0 <= i < 6
      ensures out[i].Analysis?
    {
      assert Name(Agents[i]) != Name(Agents[6]);
    }
  }

  /** What the client sees of the degraded run. */
  lemma FallbackStream(app: Value, apiKey: Option<string>, calls: Calls)
    requires Readable(app) && InitializeLlm(apiKey).Ok? && AllFail(calls)
    ensures NeutralStream(Analyse(app, None, apiKey, calls))
  {
    FallbackRun(app, apiKey, calls);
    NeutralRunStream(RunGraph(app, None, apiKey, calls));
  }

  /** Every agent can read the application `enrich_candidate_data`
      assembles, whatever the uploaded texts and the fetched repositories. */
  lemma EnrichedReadable(resumeText: string, fileName: Value, githubUrl: string, coverLetterText: string,
                         jdText: string, fetched: (string, seq<Preprocessor.Repo>))
    ensures Readable(Preprocessor.EnrichCandidateData(resumeText, fileName, githubUrl, coverLetterText, jdText, fetched))
  {
    var app := Preprocessor.EnrichCandidateData(resumeText, fileName, githubUrl, coverLetterText, jdText, fetched);
    EnrichedShaped(resumeText, fileName, githubUrl, coverLetterText, jdText, fetched);
    ShapedReadable(app);
  }

  /** The levels of an application the agents read: every entry a dict,
      both `location` entries dicts, no skills listed and a list of
      repositories. */
  predicate Shaped(app: Value) {
    && PathOk(app, "resume") && PathOk(app, "cover_letter") && PathOk(app, "job_description")
    && PathOk(app, "github") && PathOk(app, "personal_info")
    && Location.LocationEntry(app, "personal_info").Obj? && Location.LocationEntry(app, "job_description").Obj?
    && FieldOr(FieldOr(app, "job_description", EmptyObj), "skills_required", Arr([])) == Arr([])
    && FieldOr(FieldOr(app, "job_description", EmptyObj), "skills_nice_to_have", Arr([])) == Arr([])
    && FieldOr(FieldOr(app, "github", EmptyObj), "repo_list", Arr([])).Arr?
  }

  /** Every agent can read an application of that shape. */
  lemma ShapedReadable(app: Value)
    requires Shaped(app)
    ensures Readable(app)
  {
    assert JdMatch.SkillsText(Arr([])).Ok?;
  }

  /** The application `enrich_candidate_data` assembles has that shape. */
  lemma EnrichedShaped(resumeText: string, fileName: Value, githubUrl: string, coverLetterText: string,
                       jdText: string, fetched: (string, seq<Preprocessor.Repo>))
    ensures Shaped(Preprocessor.EnrichCandidateData(resumeText, fileName, githubUrl, coverLetterText, jdText, fetched))
  {
    var app := Preprocessor.EnrichCandidateData(resumeText, fileName, githubUrl, coverLetterText, jdText, fetched);
    Preprocessor.ParsedPlaceholders(jdText);
    assert Location.LocationEntry(app, "job_description") == EmptyObj;
  }

  /** What the agents read from that application: the parsed description
      names the role under `role_title`, so the cover-letter expert reads
      the role as `"Unknown Role"`; the description has no location, so the
      location coordinator reads the job's city as `"Unknown"`; the GitHub
      analyst reads the fetched repositories. */
  lemma EnrichedInputs(resumeText: string, fileName: Value, githubUrl: string, coverLetterText: string,
                       jdText: string, fetched: (string, seq<Preprocessor.Repo>))
    ensures var app := Preprocessor.EnrichCandidateData(resumeText, fileName, githubUrl, coverLetterText, jdText, fetched);
      && CoverLetter.ReadInputs(app).Ok? && CoverLetter.ReadInputs(app).value.role == Str("Unknown Role")
      && CoverLetter.ReadInputs(app).value.coverLetterText == Str(coverLetterText)
      && Location.ReadInputs(app).Ok? && Location.ReadInputs(app).value.jobCity == Str("Unknown")
      && Location.ReadInputs(app).value.applicantCity == Str("Unknown")
      && Github.ReadInputs(app).Ok? && Github.ReadInputs(app).value.repos == Arr(Preprocessor.RepoValues(fetched.1))
      && Resume.ReadInputs(app).Ok? && Resume.ReadInputs(app).value.resumeText == Str(resumeText)
      && JdMatch.ReadInputs(app).Ok? && JdMatch.ReadInputs(app).value.requiredSkills == Arr([])
  {
    EnrichedReadable(resumeText, fileName, githubUrl, coverLetterText, jdText, fetched);
    Preprocessor.ParsedPlaceholders(jdText);
    var app := Preprocessor.EnrichCandidateData(resumeText, fileName, githubUrl, coverLetterText, jdText, fetched);
    assert Location.LocationEntry(app, "job_description") == EmptyObj;
  }

  /** An uploaded application analysed with a key while every model call
      fails still streams all seven agents and the `MAYBE` verdict at 7.5. */
  lemma EnrichedFallbackStream(resumeText: string, fileName: Value, githubUrl: string, coverLetterText: string,
                               jdText: string, fetched: (string, seq<Preprocessor.Repo>),
                               apiKey: Option<string>, calls: Calls)
    requires InitializeLlm(apiKey).Ok? && AllFail(calls)
    ensures NeutralStream(Analyse(
      Preprocessor.EnrichCandidateData(resumeText, fileName, githubUrl, coverLetterText, jdText, fetched),
      None, apiKey, calls))
  {
    EnrichedReadable(resumeText, fileName, githubUrl, coverLetterText, jdText, fetched);
    FallbackStream(Preprocessor.EnrichCandidateData(resumeText, fileName, githubUrl, coverLetterText, jdText, fetched),
      apiKey, calls);
  }
}
