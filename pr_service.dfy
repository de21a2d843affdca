/** `PRService.handle_issue_moved`: for an enriched webhook that passes the
    gate, create a feature branch, commit the issue's context file to it and
    open a draft pull request against the base branch.

    The GitHub client is a parameter: a function from the request made to its
    response (`Err` for a request that raises). The method returns, besides
    its result, the requests it made, in order. */
module PrService {
  import opened Results
  import opened Text
  import opened PyValues
  import opened Lines
  import PrGate
  import BranchName
  import ContextFile
  import PrBody
  import Enrichers

  const DefaultBaseBranch := "develop"

  /** The three GitHub requests the service makes. */
  datatype Call =
    | CreateBranch(owner: string, repo: string, branch: string, base: string, token: string)
    | CreateFile(owner: string, repo: string, path: string, content: string, message: string,
                 branch: string, token: string)
    | CreatePullRequest(owner: string, repo: string, title: string, head: string, base: string,
                        body: string, draft: bool, token: string)

  /** The response the client gives to each request. */
  type GitHubClient = Call -> Result<Value>

  /** The dictionary returned for a created pull request. */
  datatype Automation = Automation(branch: string, prNumber: Value, prUrl: Value)

  /** What one handling produced: its result (`Ok(None)` for "skipped" or
      "failed", `Err` for an exception that escapes) and the requests made. */
  datatype Outcome = Outcome(result: Result<Option<Automation>>, calls: seq<Call>)

  /** `f".github/ISSUE_{issue_number}.md"`. */
  function ContextPath(issueNumber: int): string {
    ".github/ISSUE_" + IntToString(issueNumber) + ".md"
  }

  /** `f"chore: add issue context for #{issue_number}"`. */
  function CommitMessage(issueNumber: int): string {
    "chore: add issue context for #" + IntToString(issueNumber)
  }

  /** `f"[WIP] {title}"`. */
  function PrTitle(title: string): string {
    "[WIP] " + title
  }

  /** The issue number the handler works with: `int(payload.get("issue_number", 0))`. */
  function IssueNumber(payload: Payload): Result<int> {
    PyInt(Get(payload, "issue_number", Num(0)))
  }

  /** The title the handler works with; the default names the issue. */
  function IssueTitle(payload: Payload, issueNumber: int): Result<Value> {
    GetOn(Issue(payload), "title", Str("Issue #" + IntToString(issueNumber)))
  }

  /** The handling, as a function of the payload, the service's settings,
      the client's responses and the clock. The gate, the number and the
      title are outside the `try`: their exceptions escape. */
  function Handle(payload: Payload, owner: string, repo: string, token: string, base: string,
                  client: GitHubClient, now: string): (r: Outcome)
    ensures |r.calls| <= 3
    ensures r.result.Err? ==> r.calls == []
  {
    match PrGate.ShouldCreatePr(payload)
    case Err(e) => Outcome(Err(e), [])
    case Ok(go) =>
      if !go then Outcome(Ok(None), [])
      else
        match IssueNumber(payload)
        case Err(e) => Outcome(Err(e), [])
        case Ok(n) =>
          match IssueTitle(payload, n)
          case Err(e) => Outcome(Err(e), [])
          case Ok(title) =>
            var content := ContextFile.ContextFile(payload, n, now);
            var body := PrBody.PrBody(payload);
            AttemptFollowsPlan(owner, repo, token, base, client, n, title, content, body);
            Attempt(owner, repo, token, base, client, n, title, content, body)
  }

  /** A request made before the rest of the handling. */
  function Then(call: Call, rest: Outcome): Outcome {
    Outcome(rest.result, [call] + rest.calls)
  }

  /** The `try` block: each step runs only when the one before it succeeded,
      and any exception ends the handling with `None`. A title that is not a
      string fails while the branch name is made, before any request. The
      context file and the body are given as the generators' results (they
      depend on the payload alone); each is used only once its step is
      reached. */
  function Attempt(owner: string, repo: string, token: string, base: string, client: GitHubClient,
                   n: int, title: Value, content: Result<string>, body: Result<string>): Outcome
  {
    if !title.Str? then Outcome(Ok(None), [])
    else
      var branch := BranchName.BranchName(n, title.s);
      var c1 := CreateBranch(owner, repo, branch, base, token);
      if client(c1).Err? then Outcome(Ok(None), [c1])
      else Then(c1, CommitContext(owner, repo, token, base, client, n, title.s, branch, content, body))
  }

  /** The context file, committed to the new branch. */
  function CommitContext(owner: string, repo: string, token: string, base: string, client: GitHubClient,
                         n: int, title: string, branch: string, content: Result<string>, body: Result<string>): Outcome
  {
    match content
    case Err(_) => Outcome(Ok(None), [])
    case Ok(text) =>
      var c2 := CreateFile(owner, repo, ContextPath(n), text, CommitMessage(n), branch, token);
      if client(c2).Err? then Outcome(Ok(None), [c2])
      else Then(c2, OpenPullRequest(owner, repo, token, base, client, title, branch, body))
  }

  /** The draft pull request, and the dictionary made from its response. */
  function OpenPullRequest(owner: string, repo: string, token: string, base: string, client: GitHubClient,
                           title: string, branch: string, body: Result<string>): Outcome
  {
    match body
    case Err(_) => Outcome(Ok(None), [])
    case Ok(text) =>
      var c3 := CreatePullRequest(owner, repo, PrTitle(title), branch, base, text, true, token);
      match client(c3)
      case Err(_) => Outcome(Ok(None), [c3])
      case Ok(pr) =>
        var number := Enrichers.Subscript(pr, "number");
        var url := Enrichers.Subscript(pr, "html_url");
        if number.Err? || url.Err? then Outcome(Ok(None), [c3])
        else Outcome(Ok(Some(Automation(branch, number.value, url.value))), [c3])
  }

  /** A branch that cannot be created ends the `try` block after that one
      request. */
  lemma BranchFails(owner: string, repo: string, token: string, base: string, client: GitHubClient,
                    n: int, title: string, content: Result<string>, body: Result<string>)
    requires client(CreateBranch(owner, repo, BranchName.BranchName(n, title), base, token)).Err?
    ensures Attempt(owner, repo, token, base, client, n, Str(title), content, body) ==
      Outcome(Ok(None), [CreateBranch(owner, repo, BranchName.BranchName(n, title), base, token)])
  {
  }

  /** Once the branch exists, the rest of the `try` block is the context
      stage, whose requests follow the branch's. */
  lemma AttemptAfterBranch(owner: string, repo: string, token: string, base: string, client: GitHubClient,
                           n: int, title: string, content: Result<string>, body: Result<string>,
                           result: Result<Option<Automation>>, rest: seq<Call>)
    requires client(CreateBranch(owner, repo, BranchName.BranchName(n, title), base, token)).Ok?
    requires Outcome(result, rest) ==
      CommitContext(owner, repo, token, base, client, n, title, BranchName.BranchName(n, title), content, body)
    ensures Attempt(owner, repo, token, base, client, n, Str(title), content, body) ==
      Outcome(result, [CreateBranch(owner, repo, BranchName.BranchName(n, title), base, token)] + rest)
  {
  }

  // ---------------------------------------------------------------------------
  // Properties of the handling

  /** The requests of a successful handling, in order: the branch, then the
      context file on it, then the draft pull request from it, each made only
      once what it carries was generated. A handling makes a prefix of these. */
  predicate Planned(owner: string, repo: string, token: string, base: string, n: int, title: string,
                    content: Result<string>, body: Result<string>, calls: seq<Call>)
  {
    var branch := BranchName.BranchName(n, title);
    && |calls| <= 3
    && (|calls| >= 1 ==> calls[0] == CreateBranch(owner, repo, branch, base, token))
    && (|calls| >= 2 ==> (content.Ok? &&
          calls[1] == CreateFile(owner, repo, ContextPath(n), content.value, CommitMessage(n), branch, token)))
    && (|calls| >= 3 ==> (body.Ok? &&
          calls[2] == CreatePullRequest(owner, repo, PrTitle(title), branch, base, body.value, true, token)))
  }

  /** Every request but the last one made got a response. */
  predicate StopsAtFirstFailure(client: GitHubClient, calls: seq<Call>) {
    forall i :: 0 <= i < |calls| - 1 ==> client(calls[i]).Ok?
  }

  /** The `try` block never lets an exception out, makes a prefix of the
      planned requests, and stops at the first one that fails. */
  lemma AttemptFollowsPlan(owner: string, repo: string, token: string, base: string, client: GitHubClient,
                           n: int, title: Value, content: Result<string>, body: Result<string>)
    ensures var o := Attempt(owner, repo, token, base, client, n, title, content, body);
      && o.result.Ok?
      && (title.Str? ==> Planned(owner, repo, token, base, n, title.s, content, body, o.calls))
      && (!title.Str? ==> o.calls == [])
      && StopsAtFirstFailure(client, o.calls)
  {
  }

  /** The handling succeeds exactly when all three requests were made and
      answered and the pull request's response has a number and a URL; the
      result then names the branch that was created and the pull request's
      number and URL. */
  lemma AttemptSucceedsExactly(owner: string, repo: string, token: string, base: string, client: GitHubClient,
                               n: int, title: Value, content: Result<string>, body: Result<string>)
    ensures var o := Attempt(owner, repo, token, base, client, n, title, content, body);
      o.result.Ok? && o.result.value.Some? <==>
        && |o.calls| == 3
        && client(o.calls[2]).Ok?
        && Enrichers.Subscript(client(o.calls[2]).value, "number").Ok?
        && Enrichers.Subscript(client(o.calls[2]).value, "html_url").Ok?
    ensures var o := Attempt(owner, repo, token, base, client, n, title, content, body);
      o.result.Ok? && o.result.value.Some? ==>
        && o.calls[0].CreateBranch? && o.result.value.value.branch == o.calls[0].branch
        && o.calls[2].CreatePullRequest? && o.calls[2].head == o.calls[0].branch && o.calls[2].draft
        && o.result.value.value.prNumber == client(o.calls[2]).value.fields["number"]
        && o.result.value.value.prUrl == client(o.calls[2]).value.fields["html_url"]
  {
  }

  /** No request is made when the gate is closed. */
  lemma GateClosedNoRequests(payload: Payload, owner: string, repo: string, token: string, base: string,
                             client: GitHubClient, now: string)
    requires PrGate.ShouldCreatePr(payload) == Ok(false)
    ensures Handle(payload, owner, repo, token, base, client, now) == Outcome(Ok(None), [])
  {
  }

  /** Only the gate and the conversion of the issue number can raise out of
      the handler; every failure after them, a request's included, ends with
      `None`. No request is made before those two have succeeded. */
  lemma HandleRaisesExactly(payload: Payload, owner: string, repo: string, token: string, base: string,
                            client: GitHubClient, now: string)
    ensures var o := Handle(payload, owner, repo, token, base, client, now);
      o.result.Err? <==>
        PrGate.ShouldCreatePr(payload).Err? || (PrGate.ShouldCreatePr(payload) == Ok(true) && IssueNumber(payload).Err?)
    ensures var o := Handle(payload, owner, repo, token, base, client, now);
      o.calls != [] ==> PrGate.ShouldCreatePr(payload) == Ok(true) && IssueNumber(payload).Ok?
  {
    if PrGate.ShouldCreatePr(payload) == Ok(true) && IssueNumber(payload).Ok? {
      var n := IssueNumber(payload).value;
      assert IssueTitle(payload, n).Ok?;
      AttemptFollowsPlan(owner, repo, token, base, client, n, IssueTitle(payload, n).value,
                         ContextFile.ContextFile(payload, n, now), PrBody.PrBody(payload));
    }
  }

  /** The branch created for an issue with a non-negative number gives that
      number back. */
  lemma BranchNamesTheIssue(payload: Payload, owner: string, repo: string, token: string, base: string,
                            client: GitHubClient, now: string)
    requires PrGate.ShouldCreatePr(payload) == Ok(true)
    requires IssueNumber(payload).Ok? && IssueNumber(payload).value >= 0
    ensures var o := Handle(payload, owner, repo, token, base, client, now);
      o.calls != [] ==> (o.calls[0].CreateBranch? &&
                         BranchName.BranchNumber(o.calls[0].branch) == Some(IssueNumber(payload).value))
  {
    var n := IssueNumber(payload).value;
    var title := IssueTitle(payload, n).value;
    AttemptFollowsPlan(owner, repo, token, base, client, n, title,
                       ContextFile.ContextFile(payload, n, now), PrBody.PrBody(payload));
    if title.Str? {
      BranchName.BranchNumberRoundTrip(n, title.s);
    }
  }

  /** The service: a token and a base branch, fixed at construction. */
  class PrService {
    const githubToken: string
    const baseBranch: string

    constructor(githubToken: string, baseBranch: string := DefaultBaseBranch)
      ensures this.githubToken == githubToken && this.baseBranch == baseBranch
    {
      this.githubToken := githubToken;
      this.baseBranch := baseBranch;
    }

    /** `handle_issue_moved` as written, request after request. */
    method HandleIssueMoved(payload: Payload, owner: string, repo: string, client: GitHubClient, now: string)
      returns (result: Result<Option<Automation>>, calls: seq<Call>)
      ensures Outcome(result, calls) == Handle(payload, owner, repo, githubToken, baseBranch, client, now)
    {
      calls := [];
      var go := PrGate.ShouldCreatePr(payload);
      if go.Err? {
        return Err(go.error), calls;
      }
      if !go.value {
        return Ok(None), calls;
      }
      var number := IssueNumber(payload);
      if number.Err? {
        return Err(number.error), calls;
      }
      var n := number.value;
      var title := IssueTitle(payload, n);
      if title.Err? {
        return Err(title.error), calls;
      }
      var content := ContextFile.GenerateContextFile(payload, n, now);
      var body := PrBody.GeneratePrBody(payload);
      result, calls := Try(owner, repo, client, n, title.value, content, body);
    }

    /** The `try` block of `handle_issue_moved`, from the branch name on,
        given what the two generators give. */
    method Try(owner: string, repo: string, client: GitHubClient, n: int, title: Value,
               content: Result<string>, body: Result<string>)
      returns (result: Result<Option<Automation>>, calls: seq<Call>)
      ensures Outcome(result, calls) == Attempt(owner, repo, githubToken, baseBranch, client, n, title, content, body)
    {
      calls := [];
      if !title.Str? {
        return Ok(None), calls;
      }
      var branch := BranchName.BranchName(n, title.s);
      var createBranch := CreateBranch(owner, repo, branch, baseBranch, githubToken);
      calls := calls + [createBranch];
      if client(createBranch).Err? {
        BranchFails(owner, repo, githubToken, baseBranch, client, n, title.s, content, body);
        return Ok(None), calls;
      }
      var rest: seq<Call>;
      result, rest := TryCommitContext(owner, repo, client, n, title.s, branch, content, body);
      calls := calls + rest;
      AttemptAfterBranch(owner, repo, githubToken, baseBranch, client, n, title.s, content, body, result, rest);
    }

    /** The context file step: the generated file is committed to the branch. */
    method TryCommitContext(owner: string, repo: string, client: GitHubClient, n: int, title: string,
                            branch: string, content: Result<string>, body: Result<string>)
      returns (result: Result<Option<Automation>>, calls: seq<Call>)
      ensures Outcome(result, calls) == CommitContext(owner, repo, githubToken, baseBranch, client, n, title, branch,
                                                      content, body)
    {
      calls := [];
      if content.Err? {
        return Ok(None), calls;
      }
      var createFile := CreateFile(owner, repo, ContextPath(n), content.value, CommitMessage(n), branch, githubToken);
      calls := calls + [createFile];
      if client(createFile).Err? {
        return Ok(None), calls;
      }
      var rest: seq<Call>;
      result, rest := TryOpenPullRequest(owner, repo, client, title, branch, body);
      calls := calls + rest;
    }

    /** The pull request step: the draft pull request is opened with the
        generated body, and its number and URL are read from the response. */
    method TryOpenPullRequest(owner: string, repo: string, client: GitHubClient,
                              title: string, branch: string, body: Result<string>)
      returns (result: Result<Option<Automation>>, calls: seq<Call>)
      ensures Outcome(result, calls) == OpenPullRequest(owner, repo, githubToken, baseBranch, client, title, branch, body)
    {
      calls := [];
      if body.Err? {
        return Ok(None), calls;
      }
      var createPr := CreatePullRequest(owner, repo, PrTitle(title), branch, baseBranch, body.value, true, githubToken);
      calls := calls + [createPr];
      var pr := client(createPr);
      if pr.Err? {
        return Ok(None), calls;
      }
      var prNumber := Enrichers.Subscript(pr.value, "number");
      var prUrl := Enrichers.Subscript(pr.value, "html_url");
      if prNumber.Err? || prUrl.Err? {
        return Ok(None), calls;
      }
      result := Ok(Some(Automation(branch, prNumber.value, prUrl.value)));
    }
  }
}
