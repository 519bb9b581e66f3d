# HackSorter hiring pipeline in Dafny

A model of the core of the HackSorter multi-agent hiring system. A job
application runs through a fixed three-layer graph of seven agents:

- Layer 1: five analysts (resume, cover letter, job-description match, GitHub, location).
- Layer 2: a fairness auditor.
- Layer 3: a referee that reaches the verdict.

Each agent asks a language model for a JSON reply. When the call fails, it
falls back to a fixed record. `stream_agent_analysis` turns the graph's
completion events into the messages the browser receives. The preprocessor
turns the uploaded inputs into the application record.

The model takes the code's own form:

- The agents, the preprocessor's parsing and the stream are functions on
  values.
- A Python value is `Values.Value`, and a Python exception is an `Err` of
  `Values.Error`.
- The graph builder is a class whose methods append to its node and edge
  lists.
- The two loops are methods with loop invariants, each proved against a
  function: the stream loop in `main.py` and the repository loop of
  `fetch_github_repos`.

Every model call is represented by its outcome (`Llm.Outcome`): a parsed
reply, a JSON decode error, or another exception with its text. The
following are parameters:

- the `GROQ_API_KEY` environment variable;
- the GitHub API's answer;
- the PDF text.

The main results:

- The graph allows exactly the orders in which the five analysts run
  first, then the auditor, then the referee (`Graph.OrderCharacterised`).
- The stream ends with exactly one terminal message. The completion
  message is sent exactly when nothing raised (`Stream.OneTerminalLast`,
  `Stream.CompletionIffNoError`).
- The referee's weight normalisation and the weighted score are derived,
  and so are the default-weight, zero-weight and missing-key cases
  (`Referee.*`).
- A run with a key and every model call failing still completes. The
  stream then carries one message per agent and ends with a `MAYBE`
  verdict at 7.5 (`Pipeline.FallbackRun`, `Pipeline.FallbackStream`). This
  holds for every application `enrich_candidate_data` assembles
  (`Pipeline.EnrichedFallbackStream`).
- Without a key, the stream is the single error message
  (`Pipeline.NoKeySingleError`).

Files:

- `wrappers.dfy`: Option and Result.
- `values.dfy`: Python values and the dict operations used on them.
- `text.dfy`: the string operations (`lower`, `strip`, `rstrip`, `split(...)[-1]`, `in`, `join`).
- `llm.dfy`: `initialize_llm`.
- `state.dfy`: the graph state.
- `resume.dfy`, `cover_letter.dfy`, `jd_match.dfy`, `github.dfy`, `location.dfy`, `fairness.dfy`, `referee.dfy`: the seven agents.
- `graph.dfy`: the graph.
- `stream.dfy`: `stream_agent_analysis`.
- `preprocessor.dfy`: the preprocessor.
- `pipeline.dfy`: the whole run.

The prompts promise more than the code checks. The referee prompt sets
strictness thresholds and decision bands (backend/agents/referee.py:83-100).
The agents' prompts ask for a `<0-100 numeric score>`. The auditor's prompt
asks for `"total_adjustment": <sum of all adjustments>`
(backend/agents/fairness.py:75). Where these promises and the code disagree,
the model follows the code:

- The referee applies no strictness threshold. Its verdict is the model's
  reply, or `MAYBE` whatever the score (`Referee.DefaultWeightsScenario`).
- The audit's `total_adjustment` is used as reported. It is not
  recomputed from the five adjustments and not clamped
  (`Fairness.ReplyNotChecked`).
- Scores are not clamped to [0, 100].
- When the weights sum to 0, they are left as they are. An empty weights
  dict therefore gives the default weights, not zero weights
  (`Referee.EmptyWeightsUseDefaults`).
- A source missing from the configured weights keeps its un-normalised
  default (`Referee.MissingKeysKeepDefaults`).
- `initialize_llm` is called before each agent's `try`. A missing key
  therefore escapes the agent and ends the whole stream with an error. It
  does not produce a fallback record.
- The cover-letter analyst reads the role under `role`, but the parsed
  description stores it under `role_title`. An uploaded application is
  therefore always analysed for `"Unknown Role"` (`Pipeline.EnrichedInputs`).

## Model

| member | source | states |
|---|---|---|
| Values.Get | backend/agents/resume.py:19 | `d.get(key, default)`: the entry when present, the default when absent, `AttributeError` exactly when `d` is not a dict |
| Values.GetPath | backend/agents/resume.py:19 | `d.get(outer, {}).get(inner, default)`: the nested entry or the default; `AttributeError` exactly when a level on the way is not a dict |
| Values.Len | backend/agents/github.py:82 | `len(v)` is defined on strings, lists and dicts, and is the number of characters, items or keys; it raises `TypeError` on anything else |
| Text.Lower | backend/utils/preprocessor.py:116 | `str.lower()` keeps the length and lowers each character |
| Text.LowerIdempotent | backend/utils/preprocessor.py:116 | lowering twice is lowering once |
| Text.ContainsIff | backend/utils/preprocessor.py:120 | `pat in s` holds exactly when `pat` matches at some index of `s` |
| Text.RStripChar | backend/utils/preprocessor.py:51 | `s.rstrip(c)` is the longest prefix of `s` not ending in `c` such that everything dropped is `c` |
| Text.RStripSpace | backend/utils/preprocessor.py:53 | `s.rstrip()` is a prefix of `s` not ending in whitespace, and everything dropped is whitespace |
| Text.LStripSpace | backend/utils/preprocessor.py:53 | `s.lstrip()` is a suffix of `s` not starting with whitespace, and everything dropped is whitespace |
| Text.Strip | backend/utils/preprocessor.py:53 | `s.strip()` is a slice of `s` that neither starts nor ends with whitespace, with only whitespace cut on either side |
| Text.SplitLast | backend/utils/preprocessor.py:51 | `s.split(sep)[-1]` is a suffix of `s` |
| Text.SplitLastSpec | backend/utils/preprocessor.py:51 | the last piece of the split holds no separator; a separator directly precedes it unless it is all of `s`; it is `s` when `sep` never occurs; this fixes the piece only for a separator that cannot overlap itself, as `github.com/` cannot |
| Text.Join | backend/agents/jd_match.py:25 | `sep.join(items)`: empty for no items, the item itself for one, and otherwise the items' lengths plus one separator between neighbours |
| Text.JoinAppend | backend/agents/jd_match.py:25 | joining two non-empty runs of items is joining each with one separator between them, so the items appear in order with `sep` exactly between neighbours |
| Text.JoinSnoc | backend/agents/jd_match.py:25 | appending an item to a non-empty list appends the separator and the item |
| Llm.InitializeLlm | backend/utils/llm.py:5-28 | an unset or empty key raises `ValueError("GROQ_API_KEY environment variable is not set")`; otherwise the client is `llama3-70b-8192` at temperature 0 with that key |
| State.SlotKeyInjective | backend/state.py:20-30 | the seven result slots have seven distinct state keys |
| State.Write | backend/state.py:4-12 | merging an agent's update sets its slot and leaves every other slot, the application and the criteria unchanged |
| State.InitialState | backend/main.py:56-80 | the initial state holds the application, the given criteria or the default ones, and an empty dict in each of the seven slots |
| Resume.ReadInputs | backend/agents/resume.py:18-22 | the resume text, description and seniority with defaults `""`, `""`, `"Mid-Level"`; `AttributeError` exactly when the `resume` or `job_description` entry is not a dict |
| Resume.Fallback | backend/agents/resume.py:64-86 | the fallback record scores 0 with no strengths, seniority fit `Unknown`, 0 years, and the failure as its single weakness |
| Resume.Reply | backend/agents/resume.py:51-86 | a parsed reply is returned verbatim; a decode error gives the neutral record with weakness `Failed to parse resume`; another error gives the one with `Error: <text>` |
| Resume.ResumeAnalyst | backend/agents/resume.py:8-86 | fails with the key error when there is no key; otherwise fails exactly when the inputs cannot be read, with the read's own error, and else returns the `try` block's value |
| CoverLetter.ReadInputs | backend/agents/cover_letter.py:18-21 | the letter text, company and role with defaults `""`, `"Unknown Company"`, `"Unknown Role"`; `AttributeError` exactly when `cover_letter` or `job_description` is not a dict |
| CoverLetter.Fallback | backend/agents/cover_letter.py:68-91 | the fallback record is neutral (score 0, clarity 0, motivation and specificity `Unknown`, no strengths) with the failure as its single red flag |
| CoverLetter.Reply | backend/agents/cover_letter.py:56-91 | a parsed reply is returned verbatim; a decode error gives red flag `Failed to parse cover letter`, another error `Error: <text>` |
| CoverLetter.CoverLetterAnalyst | backend/agents/cover_letter.py:8-91 | key error first; otherwise fails exactly when the inputs cannot be read, with the read's own error, else the `try` block's value |
| JdMatch.Strings | backend/agents/jd_match.py:25 | the texts of a list of strings, element by element |
| JdMatch.Chars | backend/agents/jd_match.py:25 | iterating a string yields its one-character strings, in order |
| JdMatch.SkillsText | backend/agents/jd_match.py:25-26 | a false value renders as `None specified`; a list of strings joins its items with `", "` and a string its characters; `TypeError` exactly for a true number or boolean or a list with a non-string |
| JdMatch.ReadInputs | backend/agents/jd_match.py:18-26 | resume text and both skill lists with their defaults; `AttributeError` on a malformed entry; otherwise succeeds exactly when both skill values can be joined, and a value that cannot be joined raises `TypeError` |
| JdMatch.Fallback | backend/agents/jd_match.py:71-94 | the fallback record scores 0 at 0 percent, matched nothing, and lists the required skills, exactly as read, as missing |
| JdMatch.Reply | backend/agents/jd_match.py:59-94 | a parsed reply is returned verbatim; a failed call gives that fallback record |
| JdMatch.JdMatchAnalyst | backend/agents/jd_match.py:8-94 | key error first; otherwise fails exactly when the inputs cannot be read or joined, with that error, else the `try` block's value with the skills as read |
| Github.ReadInputs | backend/agents/github.py:19-22 | the repository list (default `[]`) and username (default `Unknown`); `AttributeError` exactly when `github` is not a dict |
| Github.ReposText | backend/agents/github.py:25-28 | the prompt says `No repositories found` exactly when the list is false |
| Github.Fallback | backend/agents/github.py:78-103 | the fallback record scores 0, counts the repositories and rates the portfolio `Unknown` |
| Github.Reply | backend/agents/github.py:66-103 | a parsed reply is returned verbatim; on a failed call `len(repos)` inside the handler raises `TypeError` exactly when the value has no length; else the record counts the repositories |
| Github.GithubAnalyst | backend/agents/github.py:9-103 | key error first; `AttributeError` on a malformed entry; else the `try` block's outcome |
| Location.ReadInputs | backend/agents/location.py:18-31 | the six location inputs with defaults `Unknown` and `False`; `AttributeError` exactly when a level read on the way is not a dict |
| Location.Fallback | backend/agents/location.py:95-120 | the fallback record scores 50, feasibility `Unknown`, no relocation or visa needed, the failure as its single risk factor |
| Location.Reply | backend/agents/location.py:80-120 | a parsed reply is returned verbatim; a decode error gives risk `Failed to parse location data`, another error `Error: <text>` |
| Location.LocationCoordinator | backend/agents/location.py:8-120 | key error first; otherwise fails exactly when the inputs cannot be read, with the read's own error, else the `try` block's value |
| Fairness.ScoresSummary | backend/agents/fairness.py:26-39 | the five `score` entries keyed by slot, 0 when missing; `AttributeError` exactly when a slot is not a dict |
| Fairness.ReadInputs | backend/agents/fairness.py:18-39 | name, location, gender and age with their defaults and the score summary; fails, with `AttributeError`, exactly when `personal_info` or a slot is not a dict |
| Fairness.Fallback | backend/agents/fairness.py:107-142 | the fallback audit finds no bias, adjusts every source by 0, totals 0, and names the failure as its single concern |
| Fairness.Reply | backend/agents/fairness.py:102-142 | a parsed reply is returned verbatim; a decode error gives concern `Failed to parse fairness audit`, another error `Error: <text>` |
| Fairness.NeutralTotalIsSum | backend/agents/fairness.py:112-119 | in the neutral audit the total adjustment is the sum of the five adjustments |
| Fairness.ReplyNotChecked | backend/agents/fairness.py:102-106 | a reply whose total disagrees with its adjustments, and whose adjustment exceeds 10, is passed on unchanged |
| Fairness.FairnessAuditor | backend/agents/fairness.py:8-142 | key error first; otherwise fails exactly when the inputs cannot be read, with the read's own error, else the `try` block's value |
| Referee.ReadScores | backend/agents/referee.py:19-23 | the five scores, 0 when missing; `AttributeError` exactly when a slot is not a dict |
| Referee.Numbers | backend/agents/referee.py:127-133 | the scores as operands of `*`: `TypeError` exactly when one is not a number |
| Referee.NumericWeights | backend/agents/referee.py:37 | `sum(weights.values())` needs numbers: `TypeError` exactly when a weight is not one; else the same keys with their numbers |
| Referee.Scale | backend/agents/referee.py:39 | every weight divided by the total, keys kept |
| Referee.SumScale | backend/agents/referee.py:37-39 | dividing every weight by `t` divides their sum by `t` |
| Referee.Normalise | backend/agents/referee.py:37-39 | keys and order are kept; a positive total yields each weight over the total, summing to 1; otherwise the weights are unchanged |
| Referee.Lookup | backend/agents/referee.py:128-132 | `weights.get(key, default)`: the default when the key is absent, else an entry with that key |
| Referee.LookupFinds | backend/agents/referee.py:128-132 | with distinct keys the lookup finds that key's own weight |
| Referee.EffectiveInSourceOrder | backend/agents/referee.py:127-133 | with all five sources configured each gets its own weight and no default applies |
| Referee.ReadApplication | backend/agents/referee.py:48-51 | the prompt-only entries can be read exactly when `personal_info` and `job_description` are dicts; otherwise `AttributeError` |
| Referee.Prepare | backend/agents/referee.py:18-51 | succeeds exactly when slots, weights, audit and application can be read and the scores are numbers; the decision holds the numeric scores, the normalised weights with per-source defaults, and the reported total adjustment; the first failing step decides the error: `AttributeError` for a slot, the audit or the application that is not a dict, `TypeError` for a non-numeric weight or score |
| Referee.Fallback | backend/agents/referee.py:157-196 | the fallback verdict is `MAYBE` with final score = weighted score + adjustment and the per-source weighted scores; `TypeError` exactly when the adjustment is not a number |
| Referee.Reply | backend/agents/referee.py:135-196 | a parsed reply is returned verbatim, unchecked; a failed call gives the fallback verdict with the failure as its concern |
| Referee.RefereeAgent | backend/agents/referee.py:8-196 | key error first; then any error of the preparation; else the `try` block's outcome on the prepared decision |
| Referee.DefaultWeightsSumToOne | backend/agents/referee.py:27-39 | the default weights are numeric, sum to 1, are unchanged by normalisation and give 0.2/0.15/0.3/0.2/0.15 |
| Referee.NormaliseUnit | backend/agents/referee.py:37-39 | weights that sum to 1 are left as they are |
| Referee.MissingKeysKeepDefaults | backend/agents/referee.py:37-39 | with only `resume: 3` configured it normalises to 1 while the other four keep their defaults: effective weights sum to 1.8 |
| Referee.EmptyWeightsUseDefaults | backend/agents/referee.py:37-39 | an empty weights dict is not normalised and every source takes its default weight |
| Referee.DecodeFallbackScore | backend/agents/referee.py:157-176 | a reply that is not JSON gives `MAYBE` with the weighted score plus the numeric adjustment |
| Referee.ZeroWeightsScenario | backend/agents/referee.py:37-39 | five zero weights stay zero, the weighted score is 0 for any scores, and the fallback score is the adjustment alone (50) |
| Referee.DefaultWeightsScenario | backend/agents/referee.py:126-176 | default weights and scores 80/70/90/60/100 weigh to 80.5; a failed call reports 80.5 as `MAYBE` |
| Referee.FallbackScoreAddsUp | backend/agents/referee.py:158-169 | in a fallback verdict the final score is the sum of the five reported weighted scores plus the adjustment reported as applied |
| Graph.Workflow.constructor | backend/graph.py:36 | a new builder has no nodes and no edges |
| Graph.Workflow.AddNode | backend/graph.py:39 | `add_node` appends the node and leaves the edges |
| Graph.Workflow.AddEdge | backend/graph.py:48 | `add_edge` appends the edge and leaves the nodes |
| Graph.AddAgents | backend/graph.py:39-45 | the seven nodes are added in registration order |
| Graph.AddFanOut | backend/graph.py:48-52 | START gets an edge to each analyst |
| Graph.AddFanIn | backend/graph.py:55-59 | each analyst gets an edge to the auditor |
| Graph.BuildHiringGraph | backend/graph.py:12-70 | the builder ends with the seven agents and the twelve edges in the order they are added |
| Graph.NameInjective | backend/graph.py:39-45 | different nodes are registered under different names |
| Graph.AgentsDistinct | backend/graph.py:39-45 | seven agents with distinct names are registered, and they are exactly the non-endpoint nodes |
| Graph.FanOut | backend/graph.py:48-52 | START leads to exactly the five analysts |
| Graph.FanIn | backend/graph.py:55-59 | each analyst leads to the auditor and nowhere else |
| Graph.FinalLayers | backend/graph.py:62-65 | the auditor leads only to the referee, the referee only to END, nothing leaves END |
| Graph.NoDuplicateEdges | backend/graph.py:48-65 | no edge is added twice |
| Graph.EdgesClimb | backend/graph.py:28-32 | every edge goes from a layer to a later one |
| Graph.Acyclic | backend/graph.py:28-32 | along any path of one edge or more the layer grows, so no path returns to its start |
| Graph.OnStartEndPath | backend/graph.py:28-32 | every agent lies on a START-to-END path of five nodes |
| Graph.PredsAreEdgeSources | backend/graph.py:54-62 | the agents a node waits for are exactly the non-START sources of its incoming edges |
| Graph.OrderCharacterised | backend/graph.py:28-32 | an order runs each agent once, each only after its predecessors, exactly when it runs the five analysts first, then the auditor, then the referee |
| Graph.RegistrationOrderValid | backend/graph.py:39-45 | the registration order is an order the graph allows |
| Stream.Payload | backend/main.py:148-188 | every message carries its status and type; terminal messages come from `System`; analysis messages carry the score, the verdict message the verdict, final score and full record; only the verdict has `verdict`/`final_score` |
| Stream.FailureFor | backend/main.py:180-188 | the error message reads `Error during analysis: <text>` |
| Stream.MessageFor | backend/main.py:139-169 | the referee's result yields a verdict message (`UNKNOWN` and 0 for a missing verdict or score), every other node's an analysis message (0 for a missing score), under the node's display name with its `thought_process` |
| Stream.Translate | backend/main.py:104-169 | a non-dict event raises; a non-`on_chain_end` event yields nothing; a message is yielded exactly for a known node whose output holds its dict result under the node's key |
| Stream.Messages | backend/main.py:100-169 | the loop yields only analysis and verdict messages, at most one per event |
| Stream.FailureSticks | backend/main.py:180-188 | once a turn raises, no later event changes the messages |
| Stream.EveryEventYields | backend/main.py:100-169 | when every event yields a message the loop sends one per event in event order and does not fail |
| Stream.StreamAgentAnalysis | backend/main.py:97-188 | the loop sends the messages of the events, then the error message if the loop or the executor raised, or the completion message |
| Stream.OneTerminalLast | backend/main.py:171-188 | the stream ends with exactly one terminal message and has no other |
| Stream.CompletionIffNoError | backend/main.py:171-188 | the completion message appears exactly when nothing raised; otherwise the last message is the first error's |
| Stream.MessagesInEventOrder | backend/main.py:100-169 | each message comes from its own event, in increasing event order |
| Preprocessor.ExtractUsername | backend/utils/preprocessor.py:50-53 | with the marker the username does not end in `/`; without it, it is the input with only surrounding whitespace removed |
| Preprocessor.UsernameAfterLastMarker | backend/utils/preprocessor.py:50-51 | with the marker, the username is the text after its last occurrence with trailing slashes removed |
| Preprocessor.Project | backend/utils/preprocessor.py:77-85 | each of the six kept fields is the item's entry when present, and otherwise its default: `""` for name, description, update time and URL, `Unknown` for the language, 0 stars |
| Preprocessor.RepoValue | backend/utils/preprocessor.py:78-85 | the kept repository as a dict with exactly the keys `name`, `description`, `language`, `stars`, `last_updated` and `url`, holding its six fields |
| Preprocessor.RepoValues | backend/utils/preprocessor.py:76-85 | the dicts of the repositories, in order |
| Preprocessor.Projection | backend/utils/preprocessor.py:76-85 | one kept repository per item, in order |
| Preprocessor.RepoItems | backend/utils/preprocessor.py:73-79 | iterating without raising happens exactly for a list of dicts, whose items are visited in order, and for an empty string or dict, which visit nothing; a list with a non-dict, a non-empty string or dict, and a scalar raise |
| Preprocessor.Insert | backend/utils/preprocessor.py:88 | inserting adds exactly that repository |
| Preprocessor.SortByStars | backend/utils/preprocessor.py:88 | the sort is a permutation of its input |
| Preprocessor.InsertDescending | backend/utils/preprocessor.py:88 | inserting into a descending list keeps it descending |
| Preprocessor.SortDescending | backend/utils/preprocessor.py:88 | the sorted repositories have non-increasing stars |
| Preprocessor.InsertKeepsTies | backend/utils/preprocessor.py:88 | inserting keeps the order among repositories with equal stars, the new one first |
| Preprocessor.SortStable | backend/utils/preprocessor.py:88 | the sort is stable: equal-star repositories keep their relative order |
| Preprocessor.ProjectRepos | backend/utils/preprocessor.py:76-85 | the loop completes exactly when every item is a dict, and then builds the projection |
| Preprocessor.FetchGithubRepos | backend/utils/preprocessor.py:37-100 | the method returns what `fetch_github_repos` returns for each response: input and no repositories on a request, JSON, item or comparison failure; username and none on a non-200 status; username and the sorted repositories otherwise |
| Preprocessor.FailedStatusKeepsUsername | backend/utils/preprocessor.py:66-71 | a non-200 status gives the extracted username and no repositories |
| Preprocessor.FetchedReposSorted | backend/utils/preprocessor.py:73-90 | a 200 list of dicts with comparable stars gives the username and a stable, descending permutation of the projected repositories |
| Preprocessor.RoleTitle | backend/utils/preprocessor.py:118-125 | the role is the first of `senior`, `junior`, `engineer` found, each case exactly; `Unknown Role` exactly when none is found |
| Preprocessor.LocationType | backend/utils/preprocessor.py:127-134 | the location type is the first of `remote`, `on-site`/`onsite`, `hybrid` found, each case exactly; `Unknown` exactly when none is found |
| Preprocessor.ParseJobDescription | backend/utils/preprocessor.py:103-145 | the parsed description is a dict |
| Preprocessor.ParsedText | backend/utils/preprocessor.py:137-140 | the raw text is kept twice, as `raw_text` and `description` |
| Preprocessor.ParsedClassification | backend/utils/preprocessor.py:116-139 | role and location type are the keyword classifications of the lowered text |
| Preprocessor.ParsedPlaceholders | backend/utils/preprocessor.py:141-144 | empty skills, placeholder company and seniority, and no `role` or `location` entry |
| Preprocessor.ClassificationIgnoresCase | backend/utils/preprocessor.py:116 | a text and its lowered form get the same role and location type |
| Preprocessor.ContainsLowered | backend/utils/preprocessor.py:116-134 | a keyword written in any case is found in the lowered text |
| Preprocessor.PersonalInfo | backend/utils/preprocessor.py:181-192 | the whole dict: placeholder name and email, no relocation, the profile URL, an `Unknown` location, and `Not disclosed` gender and age, with no other key |
| Preprocessor.GithubEntry | backend/utils/preprocessor.py:200-204 | the fetched username, the URL and the repositories as dicts |
| Preprocessor.EnrichCandidateData | backend/utils/preprocessor.py:148-208 | the application holds the personal details, the resume text and file name, the cover letter, the GitHub entry and the parsed description |
| Pipeline.NodeNames | backend/main.py:83-136 | each node's registered name has a display name, and the stream looks its result up under the key of the slot the node writes |
| Pipeline.SlotOfInjective | backend/state.py:20-30 | different agents write different slots |
| Pipeline.Step | backend/graph.py:39-45 | a node runs the function it is registered with; without a key every node fails with the key error |
| Pipeline.StepDispatch | backend/graph.py:39-45 | each node runs its own agent with its own call's outcome |
| Pipeline.AnalystsReadApplicationOnly | backend/graph.py:17-23 | an analyst's result depends only on the application, not on what ran before it |
| Pipeline.NodeEventYields | backend/main.py:107-169 | the completion event of a node that returned a dict yields that node's message |
| Pipeline.Execute | backend/main.py:100-103 | a run keeps application and criteria, takes the nodes in order, and completes exactly when no node raised |
| Pipeline.ExecuteStep | backend/main.py:100-103 | a node that returns writes its slot before the rest of the run |
| Pipeline.ExecuteKeeps | backend/main.py:100-103 | a state property each node carries one position on while returning a dict makes the run complete with dicts and the property at the end |
| Pipeline.LastResultKept | backend/state.py:28-30 | in a completed run the last node's result is still in its slot |
| Pipeline.Events | backend/main.py:100-107 | one completion event per step, in order |
| Pipeline.NoKeySingleError | backend/main.py:180-188 | without a key the stream is the single message `Error during analysis: GROQ_API_KEY environment variable is not set` |
| Pipeline.AgentsLength | backend/graph.py:39-45 | seven agents, the referee last |
| Pipeline.NextAnalyst | backend/graph.py:48-59 | each analyst adds its neutral record to those before it |
| Pipeline.NextAudit | backend/agents/fairness.py:107-124 | after the analysts' neutral records the auditor gives the neutral audit |
| Pipeline.NextVerdict | backend/agents/referee.py:157-176 | on neutral records and audit the referee gives `MAYBE` at 7.5 |
| Pipeline.NextAgent | backend/graph.py:28-32 | each agent in turn returns a dict and moves the run on |
| Pipeline.AgentsKeepReached | backend/graph.py:28-32 | all seven agents do so |
| Pipeline.NeutralRun | backend/main.py:100-103 | agents behaving neutrally run to completion with seven dicts and the verdict `MAYBE` at 7.5 last |
| Pipeline.NeutralAnalysts | backend/agents/resume.py:64-86 | with a key and failing calls the five analysts return their handlers' records, scoring 0, 0, 0, 0 and 50 (also backend/agents/cover_letter.py:68-91, backend/agents/jd_match.py:71-94, backend/agents/github.py:78-103, backend/agents/location.py:95-120) |
| Pipeline.FailingAnalyst | backend/graph.py:39-43 | so does each analyst node |
| Pipeline.NeutralAudit | backend/agents/fairness.py:107-124 | a failing auditor on readable details returns the neutral audit |
| Pipeline.NeutralNumbers | backend/agents/referee.py:19-23 | the neutral records read as the scores 0, 0, 0, 0, 50 |
| Pipeline.NeutralDecision | backend/agents/referee.py:18-44 | under the default criteria the referee prepares those scores with the default weights and adjustment 0 |
| Pipeline.NeutralWeightedScore | backend/agents/referee.py:127-133 | their weighted score is 7.5 |
| Pipeline.NeutralVerdict | backend/agents/referee.py:157-176 | a failing referee on them reports `MAYBE` at 7.5 |
| Pipeline.FailingAnalystsNeutral | backend/graph.py:39-43 | the registered analysts, all calls failing, behave neutrally |
| Pipeline.FailingAuditNeutral | backend/graph.py:44 | the registered auditor, its call failing, gives the neutral audit |
| Pipeline.FailingVerdictNeutral | backend/graph.py:45 | the registered referee, its call failing, gives `MAYBE` at 7.5 |
| Pipeline.FallbackRun | backend/main.py:56-103 | with a key, no criteria and every call failing, a readable application runs to completion with seven dicts and the verdict `MAYBE` at 7.5 |
| Pipeline.DictStepsStream | backend/main.py:100-178 | a run of dicts streams one message per step, in order, then the completion message |
| Pipeline.VerdictMessage | backend/main.py:144-158 | the referee's message for that verdict carries `MAYBE`, 7.5 and the record |
| Pipeline.NeutralRunStream | backend/main.py:100-178 | such a run streams six analysis messages, the verdict, then completion, under the display names in order |
| Pipeline.FallbackStream | backend/main.py:37-188 | the degraded run's stream: six analyses, `MAYBE` at 7.5, completion |
| Pipeline.EnrichedReadable | backend/utils/preprocessor.py:180-206 | every agent can read any application `enrich_candidate_data` assembles |
| Pipeline.ShapedReadable | backend/utils/preprocessor.py:180-206 | an application with dict entries, no skills and a repository list is readable |
| Pipeline.EnrichedShaped | backend/utils/preprocessor.py:180-206 | the assembled application has that shape |
| Pipeline.EnrichedInputs | backend/utils/preprocessor.py:136-145 | the agents read the uploaded texts, role `Unknown Role`, job city `Unknown` and the fetched repositories from it |
| Pipeline.EnrichedFallbackStream | backend/main.py:37-188 | an uploaded application analysed with every call failing streams all seven agents and `MAYBE` at 7.5 |

## Left out

- State.Criteria: the weights are a sequence of key-value pairs, so the type
  admits repeated keys, which no Python dict has. For such input
  `Referee.Lookup` takes the first entry while `Referee.Sum` counts every
  entry. The lemmas that need distinct keys (`Referee.LookupFinds`) require
  them.
- The web endpoints (`/analyze`, `/analyze-json`, `/health`, `/`), the `JobApplication` request model, and the SSE framing (`json.dumps` and `data: …\n\n`) are not modelled. A message is modelled as the dict that would be serialised. `/analyze` passes the default criteria explicitly, which gives the same initial state as passing none (`State.InitialState`).
- LangGraph's executor is modelled as sequential: the agents run one at a time in registration order, which is an order the graph allows. The parallel Layer 1, the executor's own events (graph start, node start, LangChain's internal chain events) and partial progress of a node that raises are not modelled. The first node that raises ends the run.
- `extract_pdf_text` is not modelled: PDF parsing is foreign, and its text is a parameter. So are the HTTP request of `fetch_github_repos` (its outcome is `HttpResult`), the model client and its calls (`Outcome`), the environment variable, and `datetime.now()`.
- The prompt templates, and what they render, are not modelled. This includes the referee's `weights_str`, the strictness table and the fairness auditor's `json.dumps` of the scores. Only the reads that can raise are modelled.
- `Values.ErrorText`: the text Python gives an `AttributeError` or a `TypeError` names the offending type; the model uses a fixed text.
- Python ints and floats are both `real`. Floating-point rounding is not modelled, so 0.2 + 0.15 + 0.3 + 0.2 + 0.15 is exactly 1 here.
- Python's `str.lower()` and `str.isspace()` are modelled on ASCII only.
- `hiring_criteria` is a dict whose `weights` entry is a dict of named values. A criteria or weights value that is not a dict is not modelled. Weight keys are strings.
- The application and the agents' replies are JSON values. Python operations on non-JSON values (sets, tuples, objects) are not modelled. Neither are `*` and `+` on a string or list operand (repetition and concatenation); a non-numeric score raises `TypeError` here.
- `JdMatch.SkillsText`: joining a non-empty dict of skills joins its keys in insertion order, which a map does not keep. The rendered text is then left unknown (`None`), though it can still be read without error.
- `Github.ReposText`: the JSON text of a non-empty repository list is not modelled.
- `Preprocessor.FetchGithubRepos`: Python can also sort star counts that are all strings or all lists. The model treats any non-numeric star count among two or more repositories as the comparison error that ends the fetch with no repositories.
- `completed_agents` and `final_verdict` in `stream_agent_analysis` are local variables that nothing reads. They are not modelled.
- `compile()` checks of the graph (unknown or duplicate nodes) are not modelled. The graph is fixed and `Graph.NoDuplicateEdges` and `Graph.AgentsDistinct` state what those checks would find.
- `scripts/generate_data.py` is not part of this model.
