/** backend/main.py, `stream_agent_analysis`: the graph's events turned
    into the messages sent to the browser. The events are taken as given
    (the executor that produces them is not modelled); an exception the
    executor raises after some events is the parameter `raised`. */
module Stream {
  import opened Wrappers
  import opened Values

  /** The display name of each known node. */
  const DisplayNames: map<string, string> := map[
    "resume_analyst" := "Resume Analyst",
    "cover_letter_analyst" := "Cover Letter Expert",
    "jd_match_analyst" := "JD Match Manager",
    "github_analyst" := "GitHub Analyst",
    "location_coordinator" := "Location Coordinator",
    "fairness_auditor" := "Fairness Auditor",
    "referee_agent" := "Referee Agent"
  ]

  /** The state key under which a known node's output is looked up. */
  function ScoreKey(node: string): string
    requires node in DisplayNames
  {
    if node == "resume_analyst" then "resume_score"
    else if node == "cover_letter_analyst" then "cover_letter_score"
    else if node == "jd_match_analyst" then "jd_match_score"
    else if node == "github_analyst" then "github_score"
    else if node == "location_coordinator" then "location_score"
    else if node == "fairness_auditor" then "fairness_audit"
    else "final_verdict"
  }

  /** One message of the stream, before `json.dumps` and the `data: `
      framing. */
  datatype Message =
    | Analysis(agent: string, message: Value, score: Value)
    | Verdict(agent: string, message: Value, verdict: Value, finalScore: Value, fullVerdict: Value)
    | Completion
    | Failure(text: string)

  /** The `status` field of a message. */
  function Status(m: Message): string {
    match m
    case Analysis(_, _, _) => "done"
    case Verdict(_, _, _, _, _) => "complete"
    case Completion => "complete"
    case Failure(_) => "error"
  }

  /** The `type` field of a message. */
  function Kind(m: Message): string {
    match m
    case Analysis(_, _, _) => "analysis"
    case Verdict(_, _, _, _, _) => "verdict"
    case Completion => "system"
    case Failure(_) => "error"
  }

  /** The messages that end the stream, both sent as agent `System`. */
  predicate IsTerminal(m: Message) {
    m.Completion? || m.Failure?
  }

  const CompletionText := "All agents have completed analysis."

  /** The dict that is serialised for a message. Every message carries
      its agent, text, status and type; the verdict adds the verdict, the
      final score and the whole record, an analysis adds the score, and
      the two terminal messages come from the agent `System`. */
  function Payload(m: Message): (p: Value)
    ensures HasField(p, "status", Str(Status(m))) && HasField(p, "type", Str(Kind(m)))
    ensures IsTerminal(m) ==> HasField(p, "agent", Str("System"))
    ensures m.Completion? ==> HasField(p, "message", Str(CompletionText))
    ensures m.Failure? ==> HasField(p, "message", Str(m.text))
    ensures m.Analysis? ==> HasField(p, "agent", Str(m.agent)) && HasField(p, "score", m.score)
    ensures m.Verdict? ==> && HasField(p, "agent", Str(m.agent)) && HasField(p, "verdict", m.verdict)
                           && HasField(p, "final_score", m.finalScore) && HasField(p, "full_verdict", m.fullVerdict)
    ensures !m.Verdict? ==> "verdict" !in p.fields && "final_score" !in p.fields
  {
    var common := map["status" := Str(Status(m)), "type" := Str(Kind(m))];
    match m
    case Analysis(agent, message, score) =>
      Obj(common + map["agent" := Str(agent), "message" := message, "score" := score])
    case Verdict(agent, message, verdict, finalScore, fullVerdict) =>
      Obj(common + map["agent" := Str(agent), "message" := message, "verdict" := verdict,
        "final_score" := finalScore, "full_verdict" := fullVerdict])
    case Completion =>
      Obj(common + map["agent" := Str("System"), "message" := Str(CompletionText)])
    case Failure(text) =>
      Obj(common + map["agent" := Str("System"), "message" := Str(text)])
  }

  /** The error message for an exception. */
  function FailureFor(e: Error): (m: Message)
    ensures m.Failure? && m.text == "Error during analysis: " + ErrorText(e)
  {
    Failure("Error during analysis: " + ErrorText(e))
  }

  /** `event["metadata"]["langgraph_node"]` with the defaults the loop
      uses. */
  function NodeOf(event: Value): Value {
    FieldOr(FieldOr(event, "metadata", EmptyObj), "langgraph_node", Str(""))
  }

  /** `event["data"]["output"]` with the defaults the loop uses. */
  function OutputOf(event: Value): Value {
    FieldOr(FieldOr(event, "data", EmptyObj), "output", EmptyObj)
  }

  predicate IsChainEnd(event: Value) {
    HasField(event, "event", Str("on_chain_end"))
  }

  /** The event names one of the seven nodes. */
  predicate KnownNode(event: Value) {
    NodeOf(event).Str? && NodeOf(event).s in DisplayNames
  }

  /** The output holds the node's score key. */
  predicate HasResult(event: Value)
    requires KnownNode(event)
  {
    OutputOf(event).Obj? && ScoreKey(NodeOf(event).s) in OutputOf(event).fields
  }

  /** The node's result in the output. */
  function ResultOf(event: Value): Value
    requires KnownNode(event)
  {
    FieldOr(OutputOf(event), ScoreKey(NodeOf(event).s), Null)
  }

  /** The message a known node's result yields: the referee's is the
      verdict, with `"UNKNOWN"` and 0 for a missing verdict or score;
      every other node's is an analysis, with 0 for a missing score. */
  function MessageFor(node: string, result: Value): (m: Message)
    requires node in DisplayNames && result.Obj?
    ensures (m.Analysis? || m.Verdict?) && m.agent == DisplayNames[node]
    ensures m.message == FieldOr(result, "thought_process", Str(""))
    ensures m.Verdict? <==> node == "referee_agent"
    ensures m.Analysis? <==> node != "referee_agent"
    ensures m.Verdict? ==> m.fullVerdict == result
    ensures m.Verdict? && "verdict" !in result.fields ==> m.verdict == Str("UNKNOWN")
    ensures m.Verdict? && "final_score" !in result.fields ==> m.finalScore == Num(0.0)
    ensures m.Analysis? && "score" !in result.fields ==> m.score == Num(0.0)
  {
    var thought := FieldOr(result, "thought_process", Str(""));
    if node == "referee_agent" then
      Verdict(DisplayNames[node], thought,
        FieldOr(result, "verdict", Str("UNKNOWN")), FieldOr(result, "final_score", Num(0.0)), result)
    else
      Analysis(DisplayNames[node], thought, FieldOr(result, "score", Num(0.0)))
  }

  /** One turn of the loop: no message, one message, or the exception the
      turn raises. A node name that is a list or dict raises `TypeError`
      when it is looked up in the name table; an output that is a list or
      string holding the key raises `TypeError` when it is indexed by it;
      a `.get` on a value that is not a dict raises `AttributeError`. */
  function Translate(event: Value): (r: Result<Option<Message>, Error>)
    ensures !event.Obj? ==> r == Err(AttributeError)
    ensures event.Obj? && !IsChainEnd(event) ==> r == Ok(None)
    ensures r.Ok? && r.value.Some? ==>
      && IsChainEnd(event) && KnownNode(event) && HasResult(event) && ResultOf(event).Obj?
      && r.value.value == MessageFor(NodeOf(event).s, ResultOf(event))
    ensures IsChainEnd(event) && KnownNode(event) && HasResult(event) && ResultOf(event).Obj? ==>
      r == Ok(Some(MessageFor(NodeOf(event).s, ResultOf(event))))
    ensures r.Ok? && r.value.None? && IsChainEnd(event) && KnownNode(event) && OutputOf(event).Obj? ==>
      !HasResult(event)
  {
    var eventType := Get(event, "event", Null);
    if eventType.Err? then Err(eventType.error)
    else if eventType.value != Str("on_chain_end") then Ok(None)
    else
      var data := Get(event, "data", EmptyObj).value;
      var metadata := Get(event, "metadata", EmptyObj).value;
      var node :- Get(metadata, "langgraph_node", Str(""));
      if !Truthy(node) then Ok(None)
      else if node.Arr? || node.Obj? then Err(TypeError)
      else if !node.Str? || node.s !in DisplayNames then Ok(None)
      else
        var output :- Get(data, "output", EmptyObj);
        var key := ScoreKey(node.s);
        var present :- In(key, output);
        if !present then Ok(None)
        else
          var result :- Subscript(output, key);
          var thought :- Get(result, "thought_process", Str(""));
          Ok(Some(MessageFor(node.s, result)))
  }

  /** The messages of the loop over `events`, and the exception that
      stopped it, if any: no event after a failing one is looked at. */
  function Messages(events: seq<Value>): (r: (seq<Message>, Option<Error>))
    ensures forall m :: m in r.0 ==> m.Analysis? || m.Verdict?
    ensures |r.0| <= |events|
    decreases |events|
  {
    if events == [] then ([], None)
    else
      var before := Messages(events[..|events| - 1]);
      if before.1.Some? then before
      else
        match Translate(events[|events| - 1])
        case Err(e) => (before.0, Some(e))
        case Ok(None) => before
        case Ok(Some(m)) => (before.0 + [m], None)
  }

  /** The whole stream: the messages, then the error message if the loop
      or the executor raised, or the completion message otherwise. */
  function Stream(events: seq<Value>, raised: Option<Error>): seq<Message> {
    var (messages, failed) := Messages(events);
    var error := if failed.Some? then failed else raised;
    messages + [if error.Some? then FailureFor(error.value) else Completion]
  }

  /** A failure stays: the messages of a longer run are those of the
      prefix that failed. */
  lemma {:induction false} FailureSticks(events: seq<Value>, k: nat)
    requires k <= |events| && Messages(events[..k]).1.Some?
    ensures Messages(events) == Messages(events[..k])
    decreases |events|
  {
    if k == |events| {
      assert events[..k] == events;
    } else {
      var init := events[..|events| - 1];
      assert init[..k] == events[..k];
      FailureSticks(init, k);
    }
  }

  /** When every event yields a message, the loop sends one message per
      event, in the order of the events, and does not fail. */
  lemma {:induction false} EveryEventYields(events: seq<Value>)
    requires forall i :: 0 <= i < |events| ==> Translate(events[i]).Ok? && Translate(events[i]).value.Some?
    ensures Messages(events).1.None?
    ensures |Messages(events).0| == |events|
    ensures forall i :: 0 <= i < |events| ==> Messages(events).0[i] == Translate(events[i]).value.value
    decreases |events|
  {
    if events != [] {
      var init := events[..|events| - 1];
      assert forall i :: 0 <= i < |init| ==> init[i] == events[i];
      EveryEventYields(init);
      var last := Translate(events[|events| - 1]);
      assert last.Ok? && last.value.Some?;
      var before := Messages(init).0;
      assert Messages(events) == (before + [last.value.value], None);
      forall i | 0 <= i < |events|
        ensures Messages(events).0[i] == Translate(events[i]).value.value
      {
        if i < |init| {
          assert Messages(events).0[i] == before[i];
        }
      }
    }
  }

  /** `stream_agent_analysis`: the loop appends a message for each event
      that yields one; an exception inside it or from the executor ends
      the stream with the error message, a normal exit with the
      completion message. */
  method StreamAgentAnalysis(events: seq<Value>, raised: Option<Error>) returns (out: seq<Message>)
    ensures out == Stream(events, raised)
  {
    out := [];
    var i := 0;
    while i < |events|
      invariant 0 <= i <= |events|
      invariant Messages(events[..i]) == (out, None)
    {
      assert events[..i + 1][..i] == events[..i];
      var turn := Translate(events[i]);
      if turn.Err? {
        FailureSticks(events, i + 1);
        out := out + [FailureFor(turn.error)];
        return;
      }
      if turn.value.Some? {
        out := out + [turn.value.value];
      }
      i := i + 1;
    }
    assert events[..i] == events;
    if raised.Some? {
      out := out + [FailureFor(raised.value)];
    } else {
      out := out + [Completion];
    }
  }

  /** The stream ends with exactly one terminal message. */
  lemma OneTerminalLast(events: seq<Value>, raised: Option<Error>)
    ensures var s := Stream(events, raised);
      && |s| >= 1
      && IsTerminal(s[|s| - 1])
      && (forall i :: 0 <= i < |s| - 1 ==> !IsTerminal(s[i]))
  {
    var s := Stream(events, raised);
    assert s[..|s| - 1] == Messages(events).0;
    forall i | 0 <= i < |s| - 1
      ensures !IsTerminal(s[i])
    {
      assert s[i] in Messages(events).0;
    }
  }

  /** The completion message is sent exactly when nothing raised; when
      something did, the stream ends with that error's message instead. */
  lemma CompletionIffNoError(events: seq<Value>, raised: Option<Error>)
    ensures var s := Stream(events, raised);
      && (Completion in s <==> Messages(events).1.None? && raised.None?)
      && (Messages(events).1.Some? ==> s[|s| - 1] == FailureFor(Messages(events).1.value))
      && (Messages(events).1.None? && raised.Some? ==> s[|s| - 1] == FailureFor(raised.value))
  {
    var s := Stream(events, raised);
    assert s[..|s| - 1] == Messages(events).0;
    forall i | 0 <= i < |s| - 1
      ensures s[i] != Completion
    {
      assert s[i] in Messages(events).0;
    }
  }

  /** `index[k]` is the event that message `k` of `messages` comes from,
      and the indices grow. */
  predicate FromEvents(events: seq<Value>, messages: seq<Message>, index: seq<nat>) {
    && |index| == |messages|
    && (forall k :: 0 <= k < |index| ==> index[k] < |events|)
    && (forall k, l :: 0 <= k < l < |index| ==> index[k] < index[l])
    && (forall k :: 0 <= k < |index| ==> Translate(events[index[k]]) == Ok(Some(messages[k])))
  }

  /** The messages come from the events in the order the events arrive. */
  lemma {:induction false} MessagesInEventOrder(events: seq<Value>) returns (index: seq<nat>)
    ensures FromEvents(events, Messages(events).0, index)
    decreases |events|
  {
    if events == [] {
      index := [];
    } else {
      var init := events[..|events| - 1];
      index := MessagesInEventOrder(init);
      assert forall k :: 0 <= k < |index| ==> events[index[k]] == init[index[k]];
      var before := Messages(init);
      if before.1.None? {
        var turn := Translate(events[|events| - 1]);
        if turn.Ok? && turn.value.Some? {
          assert Messages(events).0 == before.0 + [turn.value.value];
          index := index + [|events| - 1];
        }
      }
    }
  }
}
