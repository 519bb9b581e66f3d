/** backend/agents/github.py: the GitHub analyst. */
module Github {
  import opened Wrappers
  import opened Values
  import opened Llm
  import opened State

  /** The values the function reads: the repository list (default `[]`)
      and the username (default `"Unknown"`). */
  datatype Inputs = Inputs(repos: Value, username: Value)

  /** A `github` entry that is not a dict raises `AttributeError`. */
  function ReadInputs(app: Value): (r: Result<Inputs, Error>)
    ensures r.Ok? <==> PathOk(app, "github")
    ensures r.Err? ==> r.error == AttributeError
    ensures r.Ok? ==> (r.value.repos ==
      if Has(app, "github", "repo_list") then app.fields["github"].fields["repo_list"] else Arr([]))
    ensures r.Ok? ==> (r.value.username ==
      if Has(app, "github", "username") then app.fields["github"].fields["username"] else Str("Unknown"))
  {
    var repos :- GetPath(app, "github", "repo_list", Arr([]));
    var username := GetPath(app, "github", "username", Str("Unknown")).value;
    Ok(Inputs(repos, username))
  }

  /** The repository text of the prompt: `"No repositories found"` for a
      false value; otherwise the JSON text of the list, which is not
      modelled (`None`). */
  function ReposText(repos: Value): (r: Option<string>)
    ensures r == Some("No repositories found") <==> !Truthy(repos)
  {
    if Truthy(repos) then None else Some("No repositories found")
  }

  /** The neutral record returned when the call fails. */
  function Fallback(totalRepos: nat, flag: string, thought: string): (v: Value)
    ensures HasField(v, "score", Num(0.0))
    ensures HasField(v, "total_repos", Num(totalRepos as real))
    ensures HasField(v, "portfolio_strength", Str("Unknown"))
  {
    Obj(map[
      "score" := Num(0.0),
      "total_repos" := Num(totalRepos as real),
      "high_quality_repos" := Arr([]),
      "recent_activity" := Str("Unknown"),
      "language_diversity" := Arr([]),
      "portfolio_strength" := Str("Unknown"),
      "red_flags" := Arr([Str(flag)]),
      "thought_process" := Str(thought)])
  }

  /** The explanation of the record returned when the reply is not JSON. */
  const DecodeThought := "I encountered an error while analyzing the GitHub profile. Please check the data format."

  /** What the `try` block returns. The neutral record counts the
      repositories with `len(repos)`, evaluated inside the `except`
      handler: a value without a length raises `TypeError` there, and
      nothing catches it. */
  function Reply(outcome: Outcome, repos: Value): (r: Result<Value, Error>)
    ensures outcome.Parsed? ==> r == Ok(outcome.reply)
    ensures !outcome.Parsed? ==> (r.Err? <==> Len(repos).Err?)
    ensures !outcome.Parsed? && r.Ok? ==>
      && HasField(r.value, "score", Num(0.0))
      && HasField(r.value, "total_repos", Num(Len(repos).value as real))
      && HasField(r.value, "portfolio_strength", Str("Unknown"))
    ensures !outcome.Parsed? && repos.Arr? ==> HasField(r.value, "total_repos", Num(|repos.items| as real))
  {
    match outcome
    case Parsed(reply) => Ok(reply)
    case DecodeError =>
      var n :- Len(repos);
      Ok(Fallback(n, "Failed to parse GitHub data",
        DecodeThought))
    case OtherError(message) =>
      var n :- Len(repos);
      Ok(Fallback(n, "Error: " + message, "I encountered an error: " + message))
  }

  /** `github_analyst(state)`: the value it returns under `github_score`. */
  function GithubAnalyst(st: AgentGraphState, apiKey: Option<string>, outcome: Outcome): (r: Result<Value, Error>)
    ensures InitializeLlm(apiKey).Err? ==> r == Err(InitializeLlm(apiKey).error)
    ensures InitializeLlm(apiKey).Ok? && ReadInputs(st.jobApplication).Err? ==> r == Err(AttributeError)
    ensures InitializeLlm(apiKey).Ok? && ReadInputs(st.jobApplication).Ok? ==>
      r == Reply(outcome, ReadInputs(st.jobApplication).value.repos)
  {
    var llm := InitializeLlm(apiKey);
    if llm.Err? then Err(llm.error)
    else
      var inputs := ReadInputs(st.jobApplication);
      if inputs.Err? then Err(inputs.error)
      else Reply(outcome, inputs.value.repos)
  }
}
