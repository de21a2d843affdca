/** The enricher protocol: an enricher takes the current payload and returns
    a payload with more information in it, or raises. */
module Protocols {
  import opened Results
  import opened PyValues

  /** `IssueEnricher.enrich`; an exception escaping it is an `Err`. */
  type Enricher = Payload -> Result<Payload>
}

/** `GitHubEnricher` and `ZenhubEnricher`: each looks up the issue a webhook
    names and adds one record to a copy of the payload, or returns the payload
    as it came when something is missing or a remote call fails. The clients
    they hold are parameters: a fetch maps its arguments to the decoded
    response, or to the exception it raised. */
module Enrichers {
  import opened Results
  import opened PyValues
  import opened Protocols

  /** `github_client.get_issue_details(owner, repo, number)`. */
  type IssueFetch = (Value, Value, int) -> Result<Value>
  /** `github_client.get_repository_id(owner, repo)`. */
  type RepoIdFetch = (Value, Value) -> Result<Value>
  /** `zenhub_client.get_issue_data(workspace_id, repo_id, number)`. */
  type BoardFetch = (Value, Value, int) -> Result<Value>

  const GitHubKey := "github_issue"
  const ZenhubKey := "zenhub_issue"

  /** `v if isinstance(v, str) else v[0]`: form-encoded fields arrive as lists
      and contribute their first element. Only strings and non-empty lists
      get through; indexing anything else with `0` raises. */
  function Scalar(v: Value): (r: Result<Value>)
    ensures r.Ok? <==> v.Str? || (v.Lst? && v.items != [])
    ensures v.Str? ==> r == Ok(v)
    ensures v.Lst? && v.items != [] ==> r == Ok(v.items[0])
  {
    match v
    case Str(_) => Ok(v)
    case Lst(items) => if items == [] then Err("IndexError") else Ok(items[0])
    case Obj(_) => Err("KeyError")
    case _ => Err("TypeError")
  }

  /** `v[key]` with a string key: only a dictionary holding the key answers. */
  function Subscript(v: Value, key: string): (r: Result<Value>)
    ensures r.Ok? <==> v.Obj? && key in v.fields
    ensures r.Ok? ==> r.value == v.fields[key]
  {
    match v
    case Obj(fields) => if key in fields then Ok(fields[key]) else Err("KeyError")
    case _ => Err("TypeError")
  }

  /** `[x[key] for x in items]`: succeeds exactly when every element is a
      dictionary with that key, and then keeps the elements' order. */
  function FieldOfEach(items: seq<Value>, key: string): (r: Result<seq<Value>>)
    ensures r.Ok? <==> forall i :: 0 <= i < |items| ==> items[i].Obj? && key in items[i].fields
    ensures r.Ok? ==> |r.value| == |items|
    ensures r.Ok? ==> forall i :: 0 <= i < |items| ==> r.value[i] == items[i].fields[key]
    decreases |items|
  {
    if items == [] then Ok([])
    else
      var x :- Subscript(items[0], key);
      var rest :- FieldOfEach(items[1..], key);
      Ok([x] + rest)
  }

  /** `[x[key] for x in v]` for any value `v`. */
  function Names(v: Value, key: string): Result<seq<Value>> {
    var items :- Iterate(v);
    FieldOfEach(items, key)
  }

  /** `d.get('milestone', {}).get('title') if d.get('milestone') else None`. */
  function MilestoneTitle(m: Value): (r: Result<Value>)
    ensures !Truthy(m) ==> r == Ok(Null)
    ensures Truthy(m) ==> (r.Ok? <==> m.Obj?)
  {
    if Truthy(m) then GetOn(m, "title", Null) else Ok(Null)
  }

  /** The record stored under `github_issue`. */
  predicate IsIssueRecord(v: Value) {
    && v.Obj?
    && v.fields.Keys == {"title", "body", "labels", "state", "html_url", "assignees", "milestone"}
    && v.fields["labels"].Lst?
    && v.fields["assignees"].Lst?
  }

  /** The projection of a GitHub issue response into the `github_issue` record. */
  function ProjectIssue(data: Value): (r: Result<Value>)
    ensures r.Ok? ==> data.Obj? && IsIssueRecord(r.value)
    ensures r.Ok? ==> forall k :: k in {"title", "body", "state", "html_url"} ==>
      r.value.fields[k] == Get(data.fields, k, Null)
  {
    if !data.Obj? then Err("AttributeError")
    else
      var d := data.fields;
      var labels :- Names(Get(d, "labels", Lst([])), "name");
      var assignees :- Names(Get(d, "assignees", Lst([])), "login");
      var milestone :- MilestoneTitle(Get(d, "milestone", Null));
      Ok(Obj(map[
        "title" := Get(d, "title", Null),
        "body" := Get(d, "body", Null),
        "labels" := Lst(labels),
        "state" := Get(d, "state", Null),
        "html_url" := Get(d, "html_url", Null),
        "assignees" := Lst(assignees),
        "milestone" := milestone]))
  }

  /** The `try` block of `GitHubEnricher.enrich`. */
  function FetchIssue(fetch: IssueFetch, owner: Value, repo: Value, number: Value): Result<Value> {
    var n :- PyInt(number);
    var data :- fetch(owner, repo, n);
    ProjectIssue(data)
  }

  /** `GitHubEnricher.enrich`. The normalisation of the three fields runs
      before the `try`, so an exception there escapes; anything that fails
      inside the `try` gives back the payload unchanged. */
  function GitHubEnrich(payload: Payload, fetch: IssueFetch): (r: Result<Payload>)
    ensures r.Ok? ==> ChangesOnly(payload, r.value, {GitHubKey})
    ensures r.Ok? && r.value != payload ==> GitHubKey in r.value && IsIssueRecord(r.value[GitHubKey])
  {
    var owner := Get(payload, "organization", Null);
    var repo := Get(payload, "repo", Null);
    var number := Get(payload, "issue_number", Null);
    if !(Truthy(owner) && Truthy(repo) && Truthy(number)) then Ok(payload)
    else
      var o :- Scalar(owner);
      var p :- Scalar(repo);
      var n :- Scalar(number);
      match FetchIssue(fetch, o, p, n)
      case Ok(issue) => Ok(payload[GitHubKey := issue])
      case Err(_) => Ok(payload)
  }

  /** A `GitHubEnricher` holding the given client. */
  function GitHubEnricher(fetch: IssueFetch): Enricher {
    p => GitHubEnrich(p, fetch)
  }

  /** The projection of a Zenhub board response into the `zenhub_issue`
      record: the estimate's value, the pipeline's name, the epic flag
      (default `False`) and the epic. */
  function ProjectBoard(data: Value): (r: Result<Value>)
    ensures r.Ok? <==> (data.Obj? && Get(data.fields, "estimate", Obj(map[])).Obj?
                        && Get(data.fields, "pipeline", Obj(map[])).Obj?)
    ensures r.Ok? ==> r.value.Obj? && r.value.fields.Keys == {"estimate", "pipeline", "is_epic", "epic"}
  {
    if !data.Obj? then Err("AttributeError")
    else
      var d := data.fields;
      var estimate :- GetOn(Get(d, "estimate", Obj(map[])), "value", Null);
      var pipeline :- GetOn(Get(d, "pipeline", Obj(map[])), "name", Null);
      Ok(Obj(map[
        "estimate" := estimate,
        "pipeline" := pipeline,
        "is_epic" := Get(d, "is_epic", Bool(false)),
        "epic" := Get(d, "epic", Null)]))
  }

  /** The `try` block of `ZenhubEnricher.enrich`: the repository id first, then
      the number, then the board data. */
  function FetchBoard(repoId: RepoIdFetch, board: BoardFetch, owner: Value, repo: Value,
                      number: Value, workspace: Value): Result<Value> {
    var id :- repoId(owner, repo);
    var n :- PyInt(number);
    var data :- board(workspace, id, n);
    ProjectBoard(data)
  }

  /** A token is configured when it is present and not empty. */
  predicate HasToken(token: Option<string>) {
    token.Some? && token.value != ""
  }

  /** `ZenhubEnricher.enrich`. */
  function ZenhubEnrich(payload: Payload, token: Option<string>, repoId: RepoIdFetch,
                        board: BoardFetch): (r: Result<Payload>)
    ensures r.Ok? ==> ChangesOnly(payload, r.value, {ZenhubKey})
    ensures !HasToken(token) ==> r == Ok(payload)
  {
    if !HasToken(token) then Ok(payload)
    else
      var owner := Get(payload, "organization", Null);
      var repo := Get(payload, "repo", Null);
      var number := Get(payload, "issue_number", Null);
      var workspace := Get(payload, "workspace_id", Null);
      if !(Truthy(owner) && Truthy(repo) && Truthy(number) && Truthy(workspace)) then Ok(payload)
      else
        var o :- Scalar(owner);
        var p :- Scalar(repo);
        var n :- Scalar(number);
        var w :- Scalar(workspace);
        match FetchBoard(repoId, board, o, p, n, w)
        case Ok(issue) => Ok(payload[ZenhubKey := issue])
        case Err(_) => Ok(payload)
  }

  /** A `ZenhubEnricher` holding the given clients and token. */
  function ZenhubEnricher(token: Option<string>, repoId: RepoIdFetch, board: BoardFetch): Enricher {
    p => ZenhubEnrich(p, token, repoId, board)
  }

  // ---------------------------------------------------------------------------
  // Properties

  /** Without all three of organization, repo and issue number the GitHub
      enricher hands the payload back untouched. */
  lemma GitHubSkipsIncompletePayload(payload: Payload, fetch: IssueFetch)
    requires !Truthy(Get(payload, "organization", Null)) || !Truthy(Get(payload, "repo", Null))
      || !Truthy(Get(payload, "issue_number", Null))
    ensures GitHubEnrich(payload, fetch) == Ok(payload)
  {
  }

  /** The three fields are complete and in a shape the normalisation accepts. */
  predicate GitHubReady(payload: Payload) {
    && Truthy(Get(payload, "organization", Null))
    && Truthy(Get(payload, "repo", Null))
    && Truthy(Get(payload, "issue_number", Null))
    && Scalar(Get(payload, "organization", Null)).Ok?
    && Scalar(Get(payload, "repo", Null)).Ok?
    && Scalar(Get(payload, "issue_number", Null)).Ok?
  }

  /** The fetch is asked about the first element of each field, with the issue
      number converted by `int`; its projected answer is stored under
      `github_issue` in a copy of the payload, and any failure on the way
      leaves the payload as it was. */
  lemma GitHubOutcome(payload: Payload, fetch: IssueFetch)
    requires GitHubReady(payload)
    ensures var o := Scalar(Get(payload, "organization", Null)).value;
            var p := Scalar(Get(payload, "repo", Null)).value;
            var n := Scalar(Get(payload, "issue_number", Null)).value;
            && (PyInt(n).Ok? && fetch(o, p, PyInt(n).value).Ok? &&
                ProjectIssue(fetch(o, p, PyInt(n).value).value).Ok? ==>
                  GitHubEnrich(payload, fetch) ==
                    Ok(payload[GitHubKey := ProjectIssue(fetch(o, p, PyInt(n).value).value).value]))
            && (PyInt(n).Err? || fetch(o, p, PyInt(n).value).Err? ||
                ProjectIssue(fetch(o, p, PyInt(n).value).value).Err? ==>
                  GitHubEnrich(payload, fetch) == Ok(payload))
  {
  }

  /** Fields that arrive form-encoded, each a one-element list, are read
      as the strings they hold: the GitHub enricher asks the same question
      and stores the same `github_issue` as for the plain strings. */
  lemma FormFieldsReadAsScalars(payload: Payload, fetch: IssueFetch, owner: string, repo: string, number: string)
    requires owner != "" && repo != "" && number != ""
    ensures var plain := payload["organization" := Str(owner)]["repo" := Str(repo)]["issue_number" := Str(number)];
            var form := payload["organization" := Lst([Str(owner)])]["repo" := Lst([Str(repo)])]
                               ["issue_number" := Lst([Str(number)])];
            && GitHubEnrich(plain, fetch).Ok? && GitHubEnrich(form, fetch).Ok?
            && Get(GitHubEnrich(plain, fetch).value, GitHubKey, Null) == Get(GitHubEnrich(form, fetch).value, GitHubKey, Null)
  {
    var plain := payload["organization" := Str(owner)]["repo" := Str(repo)]["issue_number" := Str(number)];
    var form := payload["organization" := Lst([Str(owner)])]["repo" := Lst([Str(repo)])]
                       ["issue_number" := Lst([Str(number)])];
    assert Get(plain, GitHubKey, Null) == Get(form, GitHubKey, Null);
    assert Scalar(Get(form, "organization", Null)) == Scalar(Get(plain, "organization", Null));
    assert Scalar(Get(form, "repo", Null)) == Scalar(Get(plain, "repo", Null));
    assert Scalar(Get(form, "issue_number", Null)) == Scalar(Get(plain, "issue_number", Null));
  }

  /** A field whose normalisation raises (a number, a dictionary) is not
      caught by the enricher: the exception escapes to the caller. */
  lemma GitHubNormalisationEscapes(payload: Payload, fetch: IssueFetch)
    requires Truthy(Get(payload, "organization", Null)) && Truthy(Get(payload, "repo", Null))
      && Truthy(Get(payload, "issue_number", Null))
    requires !GitHubReady(payload)
    ensures GitHubEnrich(payload, fetch).Err?
  {
  }

  /** The `labels` of the record are the label names in the response's order,
      the `assignees` the logins in order, and the milestone its title. */
  lemma {:induction false} ProjectIssueFields(data: Value, labels: seq<Value>, assignees: seq<Value>)
    requires data.Obj?
    requires Get(data.fields, "labels", Lst([])) == Lst(labels)
    requires Get(data.fields, "assignees", Lst([])) == Lst(assignees)
    requires forall i :: 0 <= i < |labels| ==> labels[i].Obj? && "name" in labels[i].fields
    requires forall i :: 0 <= i < |assignees| ==> assignees[i].Obj? && "login" in assignees[i].fields
    requires var m := Get(data.fields, "milestone", Null); !Truthy(m) || m.Obj?
    ensures ProjectIssue(data).Ok?
    ensures var rec := ProjectIssue(data).value.fields;
            && rec["labels"] == Lst(seq(|labels|, i requires 0 <= i < |labels| => labels[i].fields["name"]))
            && rec["assignees"] == Lst(seq(|assignees|, i requires 0 <= i < |assignees| => assignees[i].fields["login"]))
            && rec["milestone"] == (var m := Get(data.fields, "milestone", Null);
                                    if Truthy(m) then Get(m.fields, "title", Null) else Null)
  {
    var ls := FieldOfEach(labels, "name");
    var logins := FieldOfEach(assignees, "login");
    assert ls.value == seq(|labels|, i requires 0 <= i < |labels| => labels[i].fields["name"]);
    assert logins.value == seq(|assignees|, i requires 0 <= i < |assignees| => assignees[i].fields["login"]);
  }

  /** A label without a `name` (or that is not a dictionary) makes the
      projection fail, so the enricher falls back to the payload it got. */
  lemma ProjectIssueRejectsNamelessLabel(data: Value, labels: seq<Value>, i: nat)
    requires data.Obj? && Get(data.fields, "labels", Lst([])) == Lst(labels)
    requires i < |labels| && !(labels[i].Obj? && "name" in labels[i].fields)
    ensures ProjectIssue(data).Err?
  {
  }

  /** With no token (`None` or the empty string) the Zenhub enricher returns
      its input whatever it holds and whatever the clients would answer. */
  lemma ZenhubWithoutToken(payload: Payload, token: Option<string>, repoId: RepoIdFetch, board: BoardFetch)
    requires token.None? || token == Some("")
    ensures ZenhubEnricher(token, repoId, board)(payload) == Ok(payload)
  {
  }

  /** The Zenhub enricher also needs a workspace id; without any of the four
      fields it hands the payload back untouched. */
  lemma ZenhubSkipsIncompletePayload(payload: Payload, token: Option<string>, repoId: RepoIdFetch, board: BoardFetch)
    requires !Truthy(Get(payload, "organization", Null)) || !Truthy(Get(payload, "repo", Null))
      || !Truthy(Get(payload, "issue_number", Null)) || !Truthy(Get(payload, "workspace_id", Null))
    ensures ZenhubEnrich(payload, token, repoId, board) == Ok(payload)
  {
  }

  /** The repository id comes first; the board is asked with the workspace,
      that id and the number; the projected answer is stored under
      `zenhub_issue`, and a failure of any step leaves the payload as it was. */
  lemma ZenhubOutcome(payload: Payload, token: Option<string>, repoId: RepoIdFetch, board: BoardFetch,
                      o: Value, p: Value, n: Value, w: Value)
    requires HasToken(token)
    requires Truthy(Get(payload, "workspace_id", Null)) && GitHubReady(payload)
    requires Scalar(Get(payload, "workspace_id", Null)) == Ok(w)
    requires Scalar(Get(payload, "organization", Null)) == Ok(o)
    requires Scalar(Get(payload, "repo", Null)) == Ok(p)
    requires Scalar(Get(payload, "issue_number", Null)) == Ok(n)
    ensures repoId(o, p).Err? || PyInt(n).Err? ==> ZenhubEnrich(payload, token, repoId, board) == Ok(payload)
    ensures repoId(o, p).Ok? && PyInt(n).Ok? ==>
      var data := board(w, repoId(o, p).value, PyInt(n).value);
      && (data.Ok? && ProjectBoard(data.value).Ok? ==>
            ZenhubEnrich(payload, token, repoId, board) == Ok(payload[ZenhubKey := ProjectBoard(data.value).value]))
      && (data.Err? || ProjectBoard(data.value).Err? ==> ZenhubEnrich(payload, token, repoId, board) == Ok(payload))
  {
  }

  /** The Zenhub record holds the estimate's value and the pipeline's name as
      they are, not the nested objects, whatever other keys those objects
      carry; a missing estimate or pipeline reads as an empty object. */
  lemma ProjectBoardFields(data: Value)
    requires data.Obj?
    requires Get(data.fields, "estimate", Obj(map[])).Obj? && Get(data.fields, "pipeline", Obj(map[])).Obj?
    ensures ProjectBoard(data).Ok?
    ensures ProjectBoard(data).value.fields["estimate"] ==
            Get(Get(data.fields, "estimate", Obj(map[])).fields, "value", Null)
    ensures ProjectBoard(data).value.fields["pipeline"] ==
            Get(Get(data.fields, "pipeline", Obj(map[])).fields, "name", Null)
    ensures ProjectBoard(data).value.fields["is_epic"] == Get(data.fields, "is_epic", Bool(false))
    ensures ProjectBoard(data).value.fields["epic"] == Get(data.fields, "epic", Null)
  {
  }

  /** A board response whose estimate or pipeline is `null` rather than an
      object makes the projection raise, and the enricher adds nothing. */
  lemma ProjectBoardRejectsNullEstimate(data: Value)
    requires data.Obj? && "estimate" in data.fields && data.fields["estimate"] == Null
    ensures ProjectBoard(data).Err?
  {
  }
}
