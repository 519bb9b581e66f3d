/** backend/utils/preprocessor.py: turning the uploaded inputs into the
    application record. The PDF text and the GitHub API's answer are
    inputs here; what is modelled is what the code does with them. */
module Preprocessor {
  import opened Wrappers
  import opened Values
  import opened Text

  const GithubMarker := "github.com/"

  /** The username `fetch_github_repos` derives from a profile URL or a
      bare username: after a `github.com/` marker the text after the last
      one, without trailing slashes; otherwise the input stripped of
      surrounding whitespace. */
  function ExtractUsername(githubUrl: string): (username: string)
    ensures Contains(githubUrl, GithubMarker) ==> username == [] || username[|username| - 1] != '/'
    ensures !Contains(githubUrl, GithubMarker) ==>
      && (username == [] || (!IsSpace(username[0]) && !IsSpace(username[|username| - 1])))
      && exists i | 0 <= i <= |githubUrl| - |username| :: TrimmedAt(githubUrl, username, i)
  {
    if Contains(githubUrl, GithubMarker) then RStripChar(SplitLast(githubUrl, GithubMarker), '/')
    else Strip(githubUrl)
  }

  /** With the marker present, the username is what follows its last
      occurrence, with the trailing slashes removed. */
  lemma UsernameAfterLastMarker(githubUrl: string)
    requires Contains(githubUrl, GithubMarker)
    ensures exists p ::
      && |GithubMarker| <= p <= |githubUrl|
      && MatchAt(githubUrl, GithubMarker, p - |GithubMarker|)
      && (forall j :: p <= j ==> !MatchAt(githubUrl, GithubMarker, j))
      && ExtractUsername(githubUrl) == RStripChar(githubUrl[p..], '/')
  {
    var r := SplitLast(githubUrl, GithubMarker);
    SplitLastSpec(githubUrl, GithubMarker);
    ContainsIff(githubUrl, GithubMarker);
    var p := |githubUrl| - |r|;
    assert githubUrl[p..] == r;
    var i :| MatchAt(githubUrl, GithubMarker, i);
    assert i < p;
  }

  /** What the request to the GitHub API gave: no response at all (a
      timeout or another request error), or a status code and the body,
      `None` when the body is not JSON. */
  datatype HttpResult = NetworkError | Response(status: int, body: Option<Value>)

  /** A repository as `fetch_github_repos` keeps it. */
  datatype Repo = Repo(
    name: Value, description: Value, language: Value, stars: Value, lastUpdated: Value, url: Value)

  /** The fields kept from one repository object, each with its default. */
  function Project(item: Value): (r: Repo)
    requires item.Obj?
    ensures r.name == if "name" in item.fields then item.fields["name"] else Str("")
    ensures r.description == if "description" in item.fields then item.fields["description"] else Str("")
    ensures r.language == if "language" in item.fields then item.fields["language"] else Str("Unknown")
    ensures r.stars ==
      if "stargazers_count" in item.fields then item.fields["stargazers_count"] else Num(0.0)
    ensures r.lastUpdated == if "updated_at" in item.fields then item.fields["updated_at"] else Str("")
    ensures r.url == if "html_url" in item.fields then item.fields["html_url"] else Str("")
  {
    Repo(
      FieldOr(item, "name", Str("")),
      FieldOr(item, "description", Str("")),
      FieldOr(item, "language", Str("Unknown")),
      FieldOr(item, "stargazers_count", Num(0.0)),
      FieldOr(item, "updated_at", Str("")),
      FieldOr(item, "html_url", Str("")))
  }

  /** The repository as the dict the rest of the system reads: the API's
      `stargazers_count`, `updated_at` and `html_url` are renamed `stars`,
      `last_updated` and `url`. */
  function RepoValue(r: Repo): (v: Value)
    ensures HasField(v, "stars", r.stars) && HasField(v, "name", r.name)
    ensures HasField(v, "description", r.description) && HasField(v, "language", r.language)
    ensures HasField(v, "last_updated", r.lastUpdated) && HasField(v, "url", r.url)
    ensures v.Obj? && v.fields.Keys == {"name", "description", "language", "stars", "last_updated", "url"}
  {
    Obj(map[
      "name" := r.name,
      "description" := r.description,
      "language" := r.language,
      "stars" := r.stars,
      "last_updated" := r.lastUpdated,
      "url" := r.url])
  }

  function RepoValues(repos: seq<Repo>): (vs: seq<Value>)
    ensures |vs| == |repos| && forall i :: 0 <= i < |repos| ==> vs[i] == RepoValue(repos[i])
  {
    seq(|repos|, i requires 0 <= i < |repos| => RepoValue(repos[i]))
  }

  predicate AllObjects(items: seq<Value>) {
    forall i :: 0 <= i < |items| ==> items[i].Obj?
  }

  function Projection(items: seq<Value>): (repos: seq<Repo>)
    requires AllObjects(items)
    ensures |repos| == |items| && forall i :: 0 <= i < |items| ==> repos[i] == Project(items[i])
  {
    seq(|items|, i requires 0 <= i < |items| => Project(items[i]))
  }

  /** The items `for repo in repos_data` visits when every `.get` on them
      succeeds: the elements of a list of dicts, or nothing for an empty
      string or dict. A non-empty string or dict yields strings, whose
      `.get` raises, and other values cannot be iterated: `None`. */
  function RepoItems(data: Value): (r: Option<seq<Value>>)
    ensures r.Some? ==> AllObjects(r.value)
    ensures data.Arr? && AllObjects(data.items) ==> r == Some(data.items)
    ensures r.Some? <==> (data.Arr? && AllObjects(data.items)) || data == Str("") || data == Obj(map[])
    ensures r.Some? && !data.Arr? ==> r.value == []
  {
    match data
    case Arr(items) => if AllObjects(items) then Some(items) else None
    case Str(s) => if s == "" then Some([]) else None
    case Obj(fields) => if fields == map[] then Some([]) else None
    case _ => None
  }

  /** A star count Python can compare with a number. */
  predicate Comparable(v: Value) {
    v.Num? || v.Bool?
  }

  /** The number a comparable star count stands for. */
  function StarKey(v: Value): real {
    match v
    case Num(n) => n
    case Bool(b) => if b then 1.0 else 0.0
    case _ => 0.0
  }

  predicate AllComparable(repos: seq<Repo>) {
    forall i :: 0 <= i < |repos| ==> Comparable(repos[i].stars)
  }

  /** `x` placed before the first repository with at most its stars. */
  function Insert(x: Repo, sorted: seq<Repo>): (r: seq<Repo>)
    ensures multiset(r) == multiset(sorted) + multiset{x}
    ensures |r| == |sorted| + 1
  {
    if sorted == [] then [x]
    else if StarKey(sorted[0].stars) <= StarKey(x.stars) then [x] + sorted
    else
      assert sorted == [sorted[0]] + sorted[1..];
      [sorted[0]] + Insert(x, sorted[1..])
  }

  /** `sorted(repos, key=lambda x: x["stars"], reverse=True)`, for star
      counts that compare as numbers. */
  function SortByStars(repos: seq<Repo>): (r: seq<Repo>)
    ensures multiset(r) == multiset(repos)
  {
    if repos == [] then []
    else
      assert repos == [repos[0]] + repos[1..];
      Insert(repos[0], SortByStars(repos[1..]))
  }

  predicate Descending(repos: seq<Repo>) {
    forall i, j :: 0 <= i < j < |repos| ==> StarKey(repos[i].stars) >= StarKey(repos[j].stars)
  }

  lemma {:induction false} InsertDescending(x: Repo, sorted: seq<Repo>)
    requires Descending(sorted)
    ensures Descending(Insert(x, sorted))
    decreases |sorted|
  {
    if sorted != [] && StarKey(sorted[0].stars) > StarKey(x.stars) {
      InsertDescending(x, sorted[1..]);
      var rest := Insert(x, sorted[1..]);
      assert multiset(rest) == multiset(sorted[1..]) + multiset{x};
      forall j | 0 <= j < |rest|
        ensures StarKey(sorted[0].stars) >= StarKey(rest[j].stars)
      {
        assert rest[j] in multiset(rest);
        if rest[j] != x {
          assert rest[j] in sorted[1..];
        }
      }
    }
  }

  /** The sorted repositories have non-increasing star counts. */
  lemma {:induction false} SortDescending(repos: seq<Repo>)
    ensures Descending(SortByStars(repos))
    decreases |repos|
  {
    if repos != [] {
      SortDescending(repos[1..]);
      InsertDescending(repos[0], SortByStars(repos[1..]));
    }
  }

  /** The repositories whose star key is `k`, in order. */
  function WithStars(repos: seq<Repo>, k: real): seq<Repo> {
    if repos == [] then []
    else (if StarKey(repos[0].stars) == k then [repos[0]] else []) + WithStars(repos[1..], k)
  }

  lemma {:induction false} InsertKeepsTies(x: Repo, sorted: seq<Repo>, k: real)
    ensures WithStars(Insert(x, sorted), k)
      == (if StarKey(x.stars) == k then [x] else []) + WithStars(sorted, k)
    decreases |sorted|
  {
    if sorted == [] {
    } else if StarKey(sorted[0].stars) <= StarKey(x.stars) {
      assert ([x] + sorted)[1..] == sorted;
    } else {
      var rest := Insert(x, sorted[1..]);
      InsertKeepsTies(x, sorted[1..], k);
      assert ([sorted[0]] + rest)[1..] == rest;
      if StarKey(x.stars) == k {
        assert WithStars(sorted, k) == WithStars(sorted[1..], k);
        assert WithStars([sorted[0]] + rest, k) == WithStars(rest, k);
      } else {
        assert WithStars(rest, k) == WithStars(sorted[1..], k);
      }
    }
  }

  /** The sort is stable: repositories with equal stars keep their
      relative order. */
  lemma {:induction false} SortStable(repos: seq<Repo>, k: real)
    ensures WithStars(SortByStars(repos), k) == WithStars(repos, k)
    decreases |repos|
  {
    if repos != [] {
      SortStable(repos[1..], k);
      InsertKeepsTies(repos[0], SortByStars(repos[1..]), k);
    }
  }

  /** What `fetch_github_repos` returns. */
  function FetchSpec(githubUrl: string, response: HttpResult): (string, seq<Repo>) {
    if response.NetworkError? then (githubUrl, [])
    else if response.status != 200 then (ExtractUsername(githubUrl), [])
    else if response.body.None? then (githubUrl, [])
    else
      match RepoItems(response.body.value)
      case None => (githubUrl, [])
      case Some(items) =>
        var projected := Projection(items);
        if |projected| >= 2 && !AllComparable(projected) then (githubUrl, [])
        else (ExtractUsername(githubUrl), SortByStars(projected))
  }

  /** The loop of `fetch_github_repos` over a list: each element's fields
      appended in turn; the first element that is not a dict stops it (its
      `.get` raises). */
  method ProjectRepos(items: seq<Value>) returns (allDicts: bool, projected: seq<Repo>)
    ensures allDicts <==> AllObjects(items)
    ensures allDicts ==> projected == Projection(items)
  {
    projected := [];
    var i := 0;
    while i < |items|
      invariant 0 <= i <= |items|
      invariant AllObjects(items[..i])
      invariant projected == Projection(items[..i])
    {
      var item := items[i];
      if !item.Obj? {
        return false, projected;
      }
      projected := projected + [Project(item)];
      i := i + 1;
    }
    assert items[..i] == items;
    return true, projected;
  }

  /** `fetch_github_repos`, with the request's outcome as a parameter: a
      failed request, a body that is not JSON, a repository that is not a
      dict or star counts that cannot be compared give the input back with
      no repositories; a status other than 200 gives the username and no
      repositories. */
  method FetchGithubRepos(githubUrl: string, response: HttpResult) returns (username: string, repos: seq<Repo>)
    ensures (username, repos) == FetchSpec(githubUrl, response)
  {
    var extracted := ExtractUsername(githubUrl);
    if response.NetworkError? {
      return githubUrl, [];
    }
    if response.status == 404 {
      return extracted, [];
    }
    if response.status != 200 {
      return extracted, [];
    }
    if response.body.None? {
      return githubUrl, [];
    }
    var data := response.body.value;
    var projected: seq<Repo> := [];
    if data.Arr? {
      var allDicts;
      allDicts, projected := ProjectRepos(data.items);
      if !allDicts {
        return githubUrl, [];
      }
    } else if data != Str("") && data != EmptyObj {
      return githubUrl, [];
    }
    if |projected| >= 2 && !AllComparable(projected) {
      return githubUrl, [];
    }
    return extracted, SortByStars(projected);
  }

  /** A non-200 status keeps the username and drops the repositories. */
  lemma FailedStatusKeepsUsername(githubUrl: string, status: int, body: Option<Value>)
    requires status != 200
    ensures FetchSpec(githubUrl, Response(status, body)) == (ExtractUsername(githubUrl), [])
  {
  }

  /** A successful fetch returns the projected repositories, sorted, stably,
      by descending stars. */
  lemma FetchedReposSorted(githubUrl: string, items: seq<Value>)
    requires AllObjects(items) && AllComparable(Projection(items))
    ensures var (username, repos) := FetchSpec(githubUrl, Response(200, Some(Arr(items))));
      && username == ExtractUsername(githubUrl)
      && multiset(repos) == multiset(Projection(items))
      && Descending(repos)
      && (forall k :: WithStars(repos, k) == WithStars(Projection(items), k))
  {
    SortDescending(Projection(items));
    forall k: real
      ensures WithStars(SortByStars(Projection(items)), k) == WithStars(Projection(items), k)
    {
      SortStable(Projection(items), k);
    }
  }

  /** `role_title`: the first of the keywords found in the lowered text. */
  function RoleTitle(lowered: string): (title: string)
    ensures title == "Senior Engineer" <==> Contains(lowered, "senior")
    ensures title == "Junior Engineer" <==> !Contains(lowered, "senior") && Contains(lowered, "junior")
    ensures title == "Engineer" <==>
      !Contains(lowered, "senior") && !Contains(lowered, "junior") && Contains(lowered, "engineer")
    ensures title == "Unknown Role" <==>
      !Contains(lowered, "senior") && !Contains(lowered, "junior") && !Contains(lowered, "engineer")
  {
    if Contains(lowered, "senior") then "Senior Engineer"
    else if Contains(lowered, "junior") then "Junior Engineer"
    else if Contains(lowered, "engineer") then "Engineer"
    else "Unknown Role"
  }

  /** `location_type`: the first of the keywords found in the lowered
      text. */
  function LocationType(lowered: string): (kind: string)
    ensures kind == "Remote" <==> Contains(lowered, "remote")
    ensures kind == "On-site" <==>
      !Contains(lowered, "remote") && (Contains(lowered, "on-site") || Contains(lowered, "onsite"))
    ensures kind == "Hybrid" <==>
      && !Contains(lowered, "remote") && !Contains(lowered, "on-site") && !Contains(lowered, "onsite")
      && Contains(lowered, "hybrid")
    ensures kind == "Unknown" <==>
      && !Contains(lowered, "remote") && !Contains(lowered, "on-site") && !Contains(lowered, "onsite")
      && !Contains(lowered, "hybrid")
  {
    if Contains(lowered, "remote") then "Remote"
    else if Contains(lowered, "on-site") || Contains(lowered, "onsite") then "On-site"
    else if Contains(lowered, "hybrid") then "Hybrid"
    else "Unknown"
  }

  /** `parse_job_description`: the raw text twice, the two keyword
      classifications, and fixed values for the rest. */
  function ParseJobDescription(jdText: string): (jd: Value)
    ensures jd.Obj?
  {
    var lowered := Lower(jdText);
    Obj(map[
      "raw_text" := Str(jdText),
      "role_title" := Str(RoleTitle(lowered)),
      "location_type" := Str(LocationType(lowered)),
      "description" := Str(jdText),
      "skills_required" := Arr([]),
      "skills_nice_to_have" := Arr([]),
      "company_name" := Str("Unknown Company"),
      "seniority_level" := Str("Mid-Level")])
  }

  /** The raw text is kept twice, as `raw_text` and as `description`. */
  lemma ParsedText(jdText: string)
    ensures var jd := ParseJobDescription(jdText);
      HasField(jd, "raw_text", Str(jdText)) && HasField(jd, "description", Str(jdText))
  {
  }

  /** The role and location type are the keyword classifications of the
      lowered text. */
  lemma ParsedClassification(jdText: string)
    ensures var jd := ParseJobDescription(jdText);
      && HasField(jd, "role_title", Str(RoleTitle(Lower(jdText))))
      && HasField(jd, "location_type", Str(LocationType(Lower(jdText))))
  {
  }

  /** Skills are left empty, company and seniority are placeholders, and
      there is no `role` or `location` entry. */
  lemma ParsedPlaceholders(jdText: string)
    ensures var jd := ParseJobDescription(jdText);
      && HasField(jd, "skills_required", Arr([])) && HasField(jd, "skills_nice_to_have", Arr([]))
      && HasField(jd, "company_name", Str("Unknown Company"))
      && HasField(jd, "seniority_level", Str("Mid-Level"))
      && "role" !in jd.fields && "location" !in jd.fields
  {
  }

  /** The classification ignores case: a text and its lowered form get the
      same role and location type. */
  lemma ClassificationIgnoresCase(jdText: string)
    ensures RoleTitle(Lower(Lower(jdText))) == RoleTitle(Lower(jdText))
    ensures LocationType(Lower(Lower(jdText))) == LocationType(Lower(jdText))
  {
    LowerIdempotent(jdText);
  }

  /** A keyword written in any case is found: an occurrence of `pat` in the
      text is an occurrence of its lowered form in the lowered text. */
  lemma ContainsLowered(s: string, pat: string)
    requires Contains(s, pat)
    ensures Contains(Lower(s), Lower(pat))
  {
    ContainsIff(s, pat);
    var i :| MatchAt(s, pat, i);
    forall k | 0 <= k < |pat|
      ensures Lower(s)[i..i + |pat|][k] == Lower(pat)[k]
    {
      assert s[i + k] == s[i..i + |pat|][k];
    }
    assert MatchAt(Lower(s), Lower(pat), i);
    ContainsIff(Lower(s), Lower(pat));
  }

  /** The `personal_info` entry: fixed placeholders and the profile URL. */
  function PersonalInfo(githubUrl: string): (info: Value)
    ensures HasField(info, "name", Str("Candidate"))
    ensures HasField(info, "willing_to_relocate", Bool(false))
    ensures HasField(info, "github_url", Str(githubUrl))
    ensures HasField(info, "location", Obj(map["city" := Str("Unknown"), "country" := Str("Unknown")]))
    ensures HasField(info, "email", Str("candidate@example.com"))
    ensures HasField(info, "gender", Str("Not disclosed")) && HasField(info, "age", Str("Not disclosed"))
    ensures info.Obj? && info.fields.Keys
      == {"name", "email", "location", "github_url", "willing_to_relocate", "gender", "age"}
  {
    Obj(map[
      "name" := Str("Candidate"),
      "email" := Str("candidate@example.com"),
      "location" := Obj(map["city" := Str("Unknown"), "country" := Str("Unknown")]),
      "github_url" := Str(githubUrl),
      "willing_to_relocate" := Bool(false),
      "gender" := Str("Not disclosed"),
      "age" := Str("Not disclosed")])
  }

  /** The `github` entry: the fetched username and repositories. */
  function GithubEntry(githubUrl: string, fetched: (string, seq<Repo>)): (entry: Value)
    ensures HasField(entry, "username", Str(fetched.0))
    ensures HasField(entry, "url", Str(githubUrl))
    ensures HasField(entry, "repo_list", Arr(RepoValues(fetched.1)))
  {
    Obj(map[
      "username" := Str(fetched.0),
      "url" := Str(githubUrl),
      "repo_list" := Arr(RepoValues(fetched.1))])
  }

  /** The record `enrich_candidate_data` assembles from the resume text,
      the uploaded file's name, the profile URL, the cover letter, the job
      description and what `fetch_github_repos` returned. */
  function EnrichCandidateData(resumeText: string, fileName: Value, githubUrl: string,
                               coverLetterText: string, jdText: string,
                               fetched: (string, seq<Repo>)): (app: Value)
    ensures HasField(app, "personal_info", PersonalInfo(githubUrl))
    ensures HasField(app, "resume", Obj(map["text" := Str(resumeText), "file_name" := fileName]))
    ensures HasField(app, "cover_letter", Obj(map["text" := Str(coverLetterText)]))
    ensures HasField(app, "github", GithubEntry(githubUrl, fetched))
    ensures HasField(app, "job_description", ParseJobDescription(jdText))
  {
    Obj(map[
      "personal_info" := PersonalInfo(githubUrl),
      "resume" := Obj(map["text" := Str(resumeText), "file_name" := fileName]),
      "cover_letter" := Obj(map["text" := Str(coverLetterText)]),
      "github" := GithubEntry(githubUrl, fetched),
      "job_description" := ParseJobDescription(jdText)])
  }
}
