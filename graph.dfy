/** backend/graph.py: the three-layer hiring graph. `build_hiring_graph`
    registers seven nodes and twelve edges on a builder; the compiled
    graph runs a node once every node with an edge into it has finished. */
module Graph {

  /** The nodes of the graph, with LangGraph's two virtual endpoints. */
  datatype Node =
    | Start | End
    | ResumeAnalyst | CoverLetterAnalyst | JdMatchAnalyst | GithubAnalyst | LocationCoordinator
    | FairnessAuditor | RefereeAgent

  /** The name a node is registered under. */
  function Name(n: Node): string {
    match n
    case Start => "__start__"
    case End => "__end__"
    case ResumeAnalyst => "resume_analyst"
    case CoverLetterAnalyst => "cover_letter_analyst"
    case JdMatchAnalyst => "jd_match_analyst"
    case GithubAnalyst => "github_analyst"
    case LocationCoordinator => "location_coordinator"
    case FairnessAuditor => "fairness_auditor"
    case RefereeAgent => "referee_agent"
  }

  /** The Layer-1 analysts. */
  predicate IsAnalyst(n: Node) {
    n.ResumeAnalyst? || n.CoverLetterAnalyst? || n.JdMatchAnalyst? || n.GithubAnalyst?
    || n.LocationCoordinator?
  }

  /** A node that runs an agent, as opposed to the two endpoints. */
  predicate IsAgent(n: Node) {
    !n.Start? && !n.End?
  }

  const Analysts: seq<Node> :=
    [ResumeAnalyst, CoverLetterAnalyst, JdMatchAnalyst, GithubAnalyst, LocationCoordinator]

  /** The nodes in registration order. */
  const Agents: seq<Node> := Analysts + [FairnessAuditor, RefereeAgent]

  /** Layer 1: START to each analyst. */
  const FanOutEdges: seq<(Node, Node)> := [
    (Start, ResumeAnalyst), (Start, CoverLetterAnalyst), (Start, JdMatchAnalyst),
    (Start, GithubAnalyst), (Start, LocationCoordinator)
  ]

  /** Layer 2: each analyst to the auditor. */
  const FanInEdges: seq<(Node, Node)> := [
    (ResumeAnalyst, FairnessAuditor), (CoverLetterAnalyst, FairnessAuditor),
    (JdMatchAnalyst, FairnessAuditor), (GithubAnalyst, FairnessAuditor),
    (LocationCoordinator, FairnessAuditor)
  ]

  /** The edges in the order they are added. */
  const Edges: seq<(Node, Node)> :=
    FanOutEdges + FanInEdges + [(FairnessAuditor, RefereeAgent), (RefereeAgent, End)]

  /** The `StateGraph` builder: the nodes and edges added so far, in the
      order of the calls. */
  class Workflow {
    var nodes: seq<Node>
    var edges: seq<(Node, Node)>

    constructor ()
      ensures nodes == [] && edges == []
    {
      nodes := [];
      edges := [];
    }

    /** `add_node(name, fn)`. */
    method AddNode(n: Node)
      modifies this
      ensures nodes == old(nodes) + [n]
      ensures edges == old(edges)
    {
      nodes := nodes + [n];
    }

    /** `add_edge(source, target)`. */
    method AddEdge(source: Node, target: Node)
      modifies this
      ensures edges == old(edges) + [(source, target)]
      ensures nodes == old(nodes)
    {
      edges := edges + [(source, target)];
    }
  }

  /** `build_hiring_graph` up to `compile()`: the builder ends up holding
      the seven agents and the twelve edges. */
  method BuildHiringGraph() returns (w: Workflow)
    ensures fresh(w)
    ensures w.nodes == Agents
    ensures w.edges == Edges
  {
    w := new Workflow();
    AddAgents(w);
    AddFanOut(w);
    AddFanIn(w);
    w.AddEdge(FairnessAuditor, RefereeAgent);
    w.AddEdge(RefereeAgent, End);
  }

  /** The seven `add_node` calls. */
  method AddAgents(w: Workflow)
    modifies w
    ensures w.nodes == old(w.nodes) + Agents
    ensures w.edges == old(w.edges)
  {
    w.AddNode(ResumeAnalyst);
    w.AddNode(CoverLetterAnalyst);
    w.AddNode(JdMatchAnalyst);
    w.AddNode(GithubAnalyst);
    w.AddNode(LocationCoordinator);
    w.AddNode(FairnessAuditor);
    w.AddNode(RefereeAgent);
  }

  /** Layer 1: an edge from START to each analyst. */
  method AddFanOut(w: Workflow)
    modifies w
    ensures w.edges == old(w.edges) + FanOutEdges
    ensures w.nodes == old(w.nodes)
  {
    w.AddEdge(Start, ResumeAnalyst);
    w.AddEdge(Start, CoverLetterAnalyst);
    w.AddEdge(Start, JdMatchAnalyst);
    w.AddEdge(Start, GithubAnalyst);
    w.AddEdge(Start, LocationCoordinator);
  }

  /** Layer 2: an edge from each analyst to the auditor. */
  method AddFanIn(w: Workflow)
    modifies w
    ensures w.edges == old(w.edges) + FanInEdges
    ensures w.nodes == old(w.nodes)
  {
    w.AddEdge(ResumeAnalyst, FairnessAuditor);
    w.AddEdge(CoverLetterAnalyst, FairnessAuditor);
    w.AddEdge(JdMatchAnalyst, FairnessAuditor);
    w.AddEdge(GithubAnalyst, FairnessAuditor);
    w.AddEdge(LocationCoordinator, FairnessAuditor);
  }

  /** Different nodes are registered under different names. */
  lemma NameInjective(a: Node, b: Node)
    ensures Name(a) == Name(b) <==> a == b
  {
    if Name(a) == Name(b) {
      assert |Name(a)| == |Name(b)| && Name(a)[0] == Name(b)[0];
    }
  }

  /** Exactly seven agents are registered, under distinct names, and
      neither endpoint is among them. */
  lemma AgentsDistinct()
    ensures |Agents| == 7
    ensures forall i, j :: 0 <= i < j < |Agents| ==> Name(Agents[i]) != Name(Agents[j])
    ensures forall n :: n in Agents <==> IsAgent(n)
  {
    forall i, j | 0 <= i < j < |Agents|
      ensures Name(Agents[i]) != Name(Agents[j])
    {
      NameInjective(Agents[i], Agents[j]);
    }
  }

  /** START fans out to exactly the five analysts. */
  lemma FanOut()
    ensures forall m :: (Start, m) in Edges <==> IsAnalyst(m)
  {
  }

  /** Each analyst leads to the auditor and nowhere else. */
  lemma FanIn()
    ensures forall n, m :: IsAnalyst(n) ==> ((n, m) in Edges <==> m == FairnessAuditor)
  {
  }

  /** The auditor leads only to the referee, the referee only to END, and
      nothing leaves END. */
  lemma FinalLayers()
    ensures forall m :: (FairnessAuditor, m) in Edges <==> m == RefereeAgent
    ensures forall m :: (RefereeAgent, m) in Edges <==> m == End
    ensures forall m :: (End, m) !in Edges
  {
  }

  /** No edge is added twice, so each edge above is a single one. */
  lemma NoDuplicateEdges()
    ensures forall i, j :: 0 <= i < j < |Edges| ==> Edges[i] != Edges[j]
  {
  }

  /** The layer of a node: each edge goes from one layer to a later one. */
  function Layer(n: Node): nat {
    match n
    case Start => 0
    case FairnessAuditor => 2
    case RefereeAgent => 3
    case End => 4
    case _ => 1
  }

  lemma EdgesClimb()
    ensures forall e :: e in Edges ==> Layer(e.0) < Layer(e.1)
  {
  }

  /** `p` follows the edges of the graph. */
  predicate IsPath(p: seq<Node>) {
    forall i :: 0 <= i < |p| - 1 ==> (p[i], p[i + 1]) in Edges
  }

  /** Along a path the layer strictly grows, so no path of one edge or
      more returns to the node it started from: the graph is acyclic. */
  lemma {:induction false} Acyclic(p: seq<Node>)
    requires IsPath(p) && |p| >= 2
    ensures Layer(p[0]) < Layer(p[|p| - 1])
    ensures p[0] != p[|p| - 1]
    decreases |p|
  {
    EdgesClimb();
    assert (p[0], p[1]) in Edges;
    if |p| > 2 {
      assert IsPath(p[1..]);
      Acyclic(p[1..]);
    }
  }

  /** Every agent lies on a path from START to END. */
  lemma OnStartEndPath(n: Node)
    requires IsAgent(n)
    ensures exists p :: IsPath(p) && |p| == 5 && p[0] == Start && p[4] == End && n in p
  {
    var a := if IsAnalyst(n) then n else ResumeAnalyst;
    var p := [Start, a, FairnessAuditor, RefereeAgent, End];
    assert (p[0], p[1]) in Edges;
    assert IsPath(p);
  }

  /** The agents with an edge into `n`. */
  function Preds(n: Node): seq<Node> {
    match n
    case FairnessAuditor => Analysts
    case RefereeAgent => [FairnessAuditor]
    case End => [RefereeAgent]
    case _ => []
  }

  lemma PredsAreEdgeSources()
    ensures forall a, n :: a in Preds(n) <==> (a, n) in Edges && a != Start
  {
  }

  /** A node may run once every agent with an edge into it is done; START
      counts as done from the beginning. */
  predicate Ready(done: seq<Node>, n: Node) {
    forall a :: a in Preds(n) ==> a in done
  }

  /** `order` runs each agent exactly once, and each only when it is
      ready. */
  predicate ValidOrder(order: seq<Node>) {
    && |order| == 7
    && (forall i, j :: 0 <= i < j < |order| ==> order[i] != order[j])
    && (forall n :: n in order <==> IsAgent(n))
    && (forall i :: 0 <= i < |order| ==> Ready(order[..i], order[i]))
  }

  /** The first five steps run the five analysts, each once, then the
      auditor runs, then the referee. */
  predicate AnalystsFirst(order: seq<Node>) {
    && |order| == 7
    && (forall i, j :: 0 <= i < j < 5 ==> order[i] != order[j])
    && (forall n :: IsAnalyst(n) <==> n in order[..5])
    && order[5] == FairnessAuditor
    && order[6] == RefereeAgent
  }

  /** The execution orders the graph allows are exactly these: the five
      analysts in any order, then the fairness auditor, then the referee. */
  lemma OrderCharacterised(order: seq<Node>)
    ensures ValidOrder(order) <==> AnalystsFirst(order)
  {
    if ValidOrder(order) {
      ValidOrderShape(order);
    }
    if AnalystsFirst(order) {
      LayeredOrderValid(order);
    }
  }

  /** The order the nodes are registered in is one the graph allows. */
  lemma RegistrationOrderValid()
    ensures ValidOrder(Agents)
  {
    assert Agents[..5] == Analysts;
    LayeredOrderValid(Agents);
  }

  lemma ValidOrderShape(order: seq<Node>)
    requires ValidOrder(order)
    ensures AnalystsFirst(order)
  {
    assert FairnessAuditor in order && RefereeAgent in order;
    var k :| 0 <= k < 7 && order[k] == FairnessAuditor;
    var m :| 0 <= m < 7 && order[m] == RefereeAgent;
    assert Ready(order[..m], RefereeAgent);
    assert FairnessAuditor in order[..m];
    assert k < m;
    assert Ready(order[..k], FairnessAuditor);
    forall n | IsAnalyst(n)
      ensures n in order[..k]
    {
      assert n in Preds(FairnessAuditor);
    }
    // after the auditor only the referee can run
    forall j | k < j < 7
      ensures order[j] == RefereeAgent
    {
      var x := order[j];
      assert x in order;
      assert forall i :: 0 <= i < k ==> order[i] != x;
      assert x !in order[..k];
    }
    assert order[5] != order[6];
    assert k == 5 && m == 6;
    forall n
      ensures IsAnalyst(n) <==> n in order[..5]
    {
      if n in order[..5] {
        var i :| 0 <= i < 5 && order[..5][i] == n;
        assert n in order && order[i] != order[5] && order[i] != order[6];
      }
    }
  }

  lemma LayeredOrderValid(order: seq<Node>)
    requires AnalystsFirst(order)
    ensures ValidOrder(order)
  {
    forall i, j | 0 <= i < j < 7
      ensures order[i] != order[j]
    {
      if j >= 5 && i < 5 {
        assert order[i] in order[..5];
      }
    }
    forall n
      ensures n in order <==> IsAgent(n)
    {
      if IsAnalyst(n) {
        var i :| 0 <= i < 5 && order[..5][i] == n;
        assert order[i] == n;
      } else if n in order {
        var i :| 0 <= i < 7 && order[i] == n;
      }
    }
    forall i | 0 <= i < 7
      ensures Ready(order[..i], order[i])
    {
      if i < 5 {
        assert order[i] in order[..5];
      } else if i == 5 {
        assert order[..5] == order[..i];
      } else {
        assert order[5] in order[..i];
      }
    }
  }
}
