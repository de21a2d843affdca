/** `PRService._generate_context_file`: the Markdown file committed to the new
    branch as `.github/ISSUE_{n}.md`. A header with the issue's number and
    title and the moment of the move, the GitHub metadata, the labels,
    assignees and milestone when there are any, a Zenhub section when the
    payload has Zenhub data, the issue description when it is not blank, and
    a fixed trailer with the automation metadata. The clock reading is a
    parameter (`now`, the ISO-8601 text of the current UTC time). */
module ContextFile {
  import opened Results
  import opened Text
  import opened PyValues
  import opened Lines
  import Enrichers
  import PrBody

  const TitlePrefix := "# Issue #"
  const MovedPrefix := "**Moved to In Progress:** "
  const GitHubHeader := "## GitHub Metadata"
  const LabelsCaption := "**Labels:** "
  const AssigneesCaption := "**Assignees:** "
  const MilestoneCaption := "**Milestone:** "
  const ZenhubHeader := "## Zenhub Metadata"
  const EstimateCaption := "**Estimate:** "
  const PipelineCaption := "**Pipeline:** "
  const EpicCaption := "**Epic:** #"
  const DescriptionHeader := "## Issue Description"
  const AutomationHeader := "## Automation Metadata"
  const Footer := "*This file was auto-generated by zenhub-bot when the issue was moved to 'In Progress'.*"

  /** `github_issue.get("title", "Untitled")`. */
  function Title(issue: map<string, Value>): Value {
    Get(issue, "title", Str("Untitled"))
  }

  /** The first line: the issue's number and title. */
  function TitleLine(issueNumber: int, issue: map<string, Value>): string {
    TitlePrefix + IntToString(issueNumber) + ": " + Render(Title(issue))
  }

  function HeaderLines(issueNumber: int, issue: map<string, Value>, now: string): seq<string> {
    [TitleLine(issueNumber, issue), "", MovedPrefix + now, ""]
  }

  function MetadataLines(issue: map<string, Value>): seq<string> {
    [GitHubHeader, "",
     "- **URL:** " + Render(Get(issue, "html_url", Str("N/A"))),
     "- **State:** " + Render(Get(issue, "state", Str("N/A"))),
     "- **Created:** " + Render(Get(issue, "created_at", Str("N/A"))),
     "- **Updated:** " + Render(Get(issue, "updated_at", Str("N/A"))),
     ""]
  }

  /** What one label contributes: a dictionary its `name` (default
      "unknown"), a string itself. */
  function LabelEntry(item: Value): Option<Value> {
    if item.Obj? then Some(Get(item.fields, "name", Str("unknown")))
    else if item.Str? then Some(item)
    else None
  }

  /** What one assignee contributes: a dictionary its `login` (default
      "unknown", whatever its value), a string itself. */
  function AssigneeEntry(item: Value): Option<Value> {
    if item.Obj? then Some(Get(item.fields, "login", Str("unknown")))
    else if item.Str? then Some(item)
    else None
  }

  /** A captioned one-line listing, when there are entries. */
  function ListingLines(caption: string, entries: seq<Value>, before: string, after: string): seq<string> {
    if entries != [] then [caption + Listing(entries, before, after), ""] else []
  }

  /** The milestone: a dictionary's `title`, or the value itself; shown when
      both it and the title are truthy. */
  function MilestoneLines(issue: map<string, Value>): seq<string> {
    var milestone := Get(issue, "milestone", Null);
    if Truthy(milestone) then
      var title := if milestone.Obj? then Get(milestone.fields, "title", Null) else milestone;
      if Truthy(title) then [MilestoneCaption + Render(title), ""] else []
    else []
  }

  /** The estimate: shown whenever it is not `None`, so a zero estimate is
      shown. */
  function EstimateLines(board: map<string, Value>): seq<string> {
    var estimate := Get(board, "estimate", Null);
    if estimate != Null then
      var value := if estimate.Obj? then Get(estimate.fields, "value", Null) else estimate;
      if value != Null then [EstimateCaption + Render(value) + " points", ""] else []
    else []
  }

  /** The pipeline: only a dictionary's truthy `name` is shown. */
  function PipelineLines(board: map<string, Value>): seq<string> {
    var pipeline := Get(board, "pipeline", Obj(map[]));
    if pipeline.Obj? then
      var name := Get(pipeline.fields, "name", Null);
      if Truthy(name) then [PipelineCaption + Render(name), ""] else []
    else []
  }

  /** The epic: only a dictionary's truthy `issue_number` is shown. */
  function EpicLines(board: map<string, Value>): seq<string> {
    var epic := Get(board, "epic", Null);
    if Truthy(epic) then
      var number := if epic.Obj? then Get(epic.fields, "issue_number", Null) else Null;
      if Truthy(number) then [EpicCaption + Render(number), ""] else []
    else []
  }

  /** The Zenhub section: present exactly when `zenhub_issue` is truthy,
      opening with its header; a truthy value that is not a dictionary
      raises. */
  function ZenhubLines(board: Value): (r: Result<seq<string>>)
    ensures r.Err? <==> Truthy(board) && !board.Obj?
    ensures r.Ok? ==> (r.value != [] <==> Truthy(board))
    ensures r.Ok? && r.value != [] ==> r.value[0] == ZenhubHeader
  {
    if !Truthy(board) then Ok([])
    else if !board.Obj? then Err("AttributeError")
    else Ok([ZenhubHeader, ""] + (EstimateLines(board.fields) + (PipelineLines(board.fields) + EpicLines(board.fields))))
  }

  /** The description: present exactly when the body is a string that is not
      blank; a truthy body that is not a string has no `strip` and raises. */
  function DescriptionLines(issue: map<string, Value>): (r: Result<seq<string>>)
    ensures var body := Get(issue, "body", Str(""));
      && (r.Err? <==> Truthy(body) && !body.Str?)
      && (r.Ok? ==> (r.value != [] <==> body.Str? && !AllSpace(body.s)))
      && (r.Ok? && r.value != [] ==> r.value == [DescriptionHeader, "", body.s, ""])
  {
    var body := Get(issue, "body", Str(""));
    if !Truthy(body) then Ok([])
    else if !body.Str? then Err("AttributeError")
    else if Strip(body.s) == "" then Ok([])
    else Ok([DescriptionHeader, "", body.s, ""])
  }

  function TrailerLines(payload: Payload): seq<string> {
    ["---", "", AutomationHeader, "",
     "- **Workflow:** " + Render(Get(payload, "type", Str("unknown"))),
     "- **Repository:** " + Render(Get(payload, "organization", Str("N/A"))) + "/" + Render(Get(payload, "repo", Str("N/A"))),
     "- **Workspace:** " + Render(Get(payload, "workspace_name", Str("N/A"))),
     "- **From Pipeline:** " + Render(Get(payload, "from_pipeline_name", Str("N/A"))),
     "- **To Pipeline:** " + Render(Get(payload, "to_pipeline_name", Str("N/A"))),
     "",
     Footer]
  }

  /** The lines of the file, or the exception the generator raises, in the
      order it would raise them: `github_issue` that is not a dictionary,
      labels or assignees that cannot be iterated, a truthy `zenhub_issue`
      that is not a dictionary, a truthy body that is not a string. */
  function ContextLines(payload: Payload, issueNumber: int, now: string): Result<seq<string>> {
    var issue := Issue(payload);
    if !issue.Obj? then Err("AttributeError")
    else
      var labels :- Entries(Get(issue.fields, "labels", Lst([])), LabelEntry);
      var assignees :- Entries(Get(issue.fields, "assignees", Lst([])), AssigneeEntry);
      var zenhub :- ZenhubLines(Board(payload));
      var description :- DescriptionLines(issue.fields);
      Ok(HeaderLines(issueNumber, issue.fields, now) +
        (MetadataLines(issue.fields) +
        (ListingLines(LabelsCaption, labels, "`", "`") +
        (ListingLines(AssigneesCaption, assignees, "@", "") +
        (MilestoneLines(issue.fields) +
        (zenhub +
        (description +
         TrailerLines(payload))))))))
  }

  /** The file `_generate_context_file` returns: it opens with the issue's
      number and title and ends with the auto-generation note. */
  function ContextFile(payload: Payload, issueNumber: int, now: string): (r: Result<string>)
    ensures r.Ok? ==> Issue(payload).Obj? && StartsWith(r.value, TitleLine(issueNumber, Issue(payload).fields))
    ensures r.Ok? ==> EndsWith(r.value, Footer)
  {
    var lines :- ContextLines(payload, issueNumber, now);
    ContextLinesShape(payload, issueNumber, now);
    JoinStartsWithFirst("\n", lines);
    JoinEndsWithLast("\n", lines);
    Ok(Join("\n", lines))
  }

  /** Whatever the issue holds, the lines open with the header, the GitHub
      metadata always follow it (with "N/A" for a missing field), and the
      automation metadata always close the file. */
  lemma ContextLinesShape(payload: Payload, issueNumber: int, now: string)
    requires ContextLines(payload, issueNumber, now).Ok?
    ensures var lines := ContextLines(payload, issueNumber, now).value;
            var issue := Issue(payload).fields;
            && |lines| >= 22
            && lines[4..11] == MetadataLines(issue)
            && lines[|lines| - 11..] == TrailerLines(payload)
            && lines[0] == TitleLine(issueNumber, issue)
            && lines[|lines| - 1] == Footer
  {
    var issue := Issue(payload).fields;
    var lines := ContextLines(payload, issueNumber, now).value;
    ContextLinesSections(payload, issueNumber, now);
    SectionLengths(payload, issue, issueNumber, now);
    SectionsSplit(HeaderLines(issueNumber, issue, now), MetadataLines(issue),
                  ListingLines(LabelsCaption, Entries(Get(issue, "labels", Lst([])), LabelEntry).value, "`", "`"),
                  ListingLines(AssigneesCaption, Entries(Get(issue, "assignees", Lst([])), AssigneeEntry).value, "@", ""),
                  MilestoneLines(issue), ZenhubLines(Board(payload)).value, DescriptionLines(issue).value,
                  TrailerLines(payload), lines);
  }

  /** The lines, section by section. */
  lemma ContextLinesSections(payload: Payload, issueNumber: int, now: string)
    requires ContextLines(payload, issueNumber, now).Ok?
    ensures var issue := Issue(payload).fields;
            && Issue(payload).Obj?
            && Entries(Get(issue, "labels", Lst([])), LabelEntry).Ok?
            && Entries(Get(issue, "assignees", Lst([])), AssigneeEntry).Ok?
            && ZenhubLines(Board(payload)).Ok? && DescriptionLines(issue).Ok?
            && ContextLines(payload, issueNumber, now).value ==
                 HeaderLines(issueNumber, issue, now) +
                 (MetadataLines(issue) +
                 (ListingLines(LabelsCaption, Entries(Get(issue, "labels", Lst([])), LabelEntry).value, "`", "`") +
                 (ListingLines(AssigneesCaption, Entries(Get(issue, "assignees", Lst([])), AssigneeEntry).value, "@", "") +
                 (MilestoneLines(issue) +
                 (ZenhubLines(Board(payload)).value +
                 (DescriptionLines(issue).value +
                  TrailerLines(payload)))))))
  {
  }

  /** The fixed sections' sizes and their first and last lines. */
  lemma SectionLengths(payload: Payload, issue: map<string, Value>, issueNumber: int, now: string)
    ensures && |HeaderLines(issueNumber, issue, now)| == 4
            && HeaderLines(issueNumber, issue, now)[0] == TitleLine(issueNumber, issue)
            && |MetadataLines(issue)| == 7
            && |TrailerLines(payload)| == 11 && TrailerLines(payload)[10] == Footer
  {
  }

  lemma SectionsSplit(h: seq<string>, m: seq<string>, l: seq<string>, a: seq<string>, ms: seq<string>,
                      z: seq<string>, d: seq<string>, t: seq<string>, lines: seq<string>)
    requires lines == h + (m + (l + (a + (ms + (z + (d + t))))))
    requires h != [] && t != []
    ensures |lines| >= |h| + |m| + |t|
    ensures lines[..|h|] == h && lines[|h|..|h| + |m|] == m && lines[|lines| - |t|..] == t
    ensures lines[0] == h[0] && lines[|lines| - 1] == t[|t| - 1]
  {
    assert lines == (h + m + (l + a + ms + z + d)) + t;
  }

  // ---------------------------------------------------------------------------
  // The generator, line by line

  /** The loop over labels: each formatted as `f"`{name}`"`. */
  method FormatLabels(labels: seq<Value>) returns (names: seq<string>)
    ensures names == Formatted(Collect(labels, LabelEntry), "`", "`")
  {
    names := [];
    for k := 0 to |labels|
      invariant names == Formatted(Collect(labels[..k], LabelEntry), "`", "`")
    {
      var item := labels[k];
      assert labels[..k + 1][..k] == labels[..k];
      if item.Obj? {
        var name := Get(item.fields, "name", Str("unknown"));
        FormattedSnoc(Collect(labels[..k], LabelEntry), name, "`", "`");
        names := names + ["`" + Render(name) + "`"];
      } else if item.Str? {
        FormattedSnoc(Collect(labels[..k], LabelEntry), item, "`", "`");
        names := names + ["`" + item.s + "`"];
      }
    }
    assert labels[..|labels|] == labels;
  }

  /** The loop over assignees: each formatted as `f"@{login}"`. */
  method FormatAssignees(assignees: seq<Value>) returns (names: seq<string>)
    ensures names == Formatted(Collect(assignees, AssigneeEntry), "@", "")
  {
    names := [];
    for k := 0 to |assignees|
      invariant names == Formatted(Collect(assignees[..k], AssigneeEntry), "@", "")
    {
      var assignee := assignees[k];
      assert assignees[..k + 1][..k] == assignees[..k];
      if assignee.Obj? {
        var login := Get(assignee.fields, "login", Str("unknown"));
        FormattedSnoc(Collect(assignees[..k], AssigneeEntry), login, "@", "");
        names := names + ["@" + Render(login) + ""];
      } else if assignee.Str? {
        FormattedSnoc(Collect(assignees[..k], AssigneeEntry), assignee, "@", "");
        names := names + ["@" + assignee.s + ""];
      }
    }
    assert assignees[..|assignees|] == assignees;
  }

  method AppendMilestone(lines: seq<string>, issue: map<string, Value>) returns (out: seq<string>)
    ensures out == lines + MilestoneLines(issue)
  {
    out := lines;
    var milestone := Get(issue, "milestone", Null);
    if Truthy(milestone) {
      var title := if milestone.Obj? then Get(milestone.fields, "title", Null) else milestone;
      if Truthy(title) {
        out := out + [MilestoneCaption + Render(title)];
        out := out + [""];
      }
    }
  }

  method AppendEstimate(lines: seq<string>, board: map<string, Value>) returns (out: seq<string>)
    ensures out == lines + EstimateLines(board)
  {
    out := lines;
    var estimate := Get(board, "estimate", Null);
    if estimate != Null {
      var value := if estimate.Obj? then Get(estimate.fields, "value", Null) else estimate;
      if value != Null {
        out := out + [EstimateCaption + Render(value) + " points"];
        out := out + [""];
      }
    }
  }

  method AppendPipeline(lines: seq<string>, board: map<string, Value>) returns (out: seq<string>)
    ensures out == lines + PipelineLines(board)
  {
    out := lines;
    var pipeline := Get(board, "pipeline", Obj(map[]));
    if pipeline.Obj? {
      var name := Get(pipeline.fields, "name", Null);
      if Truthy(name) {
        out := out + [PipelineCaption + Render(name)];
        out := out + [""];
      }
    }
  }

  method AppendEpic(lines: seq<string>, board: map<string, Value>) returns (out: seq<string>)
    ensures out == lines + EpicLines(board)
  {
    out := lines;
    var epic := Get(board, "epic", Null);
    if Truthy(epic) {
      var number := if epic.Obj? then Get(epic.fields, "issue_number", Null) else Null;
      if Truthy(number) {
        out := out + [EpicCaption + Render(number)];
        out := out + [""];
      }
    }
  }

  lemma Regroup(lines: seq<string>, a: seq<string>, b: seq<string>, c: seq<string>, d: seq<string>, e: seq<string>)
    ensures lines + a + b + c + d + e == lines + ((a + b) + (c + (d + e)))
  {
  }

  /** The Zenhub section, appended when `zenhub_issue` is truthy. */
  method AppendZenhub(lines: seq<string>, board: Value) returns (r: Result<seq<string>>)
    ensures ZenhubLines(board).Err? ==> r == Err("AttributeError")
    ensures ZenhubLines(board).Ok? ==> r == Ok(lines + ZenhubLines(board).value)
  {
    assert lines + [] == lines;
    var out := lines;
    if Truthy(board) {
      if !board.Obj? {
        return Err("AttributeError");
      }
      out := out + [ZenhubHeader];
      out := out + [""];
      out := AppendEstimate(out, board.fields);
      out := AppendPipeline(out, board.fields);
      out := AppendEpic(out, board.fields);
      Regroup(lines, [ZenhubHeader], [""], EstimateLines(board.fields), PipelineLines(board.fields), EpicLines(board.fields));
      assert [ZenhubHeader] + [""] == [ZenhubHeader, ""];
    } else {
      assert ZenhubLines(board) == Ok([]);
    }
    return Ok(out);
  }

  /** The description section's four lines. */
  method AppendBody(lines: seq<string>, body: string) returns (out: seq<string>)
    ensures out == lines + [DescriptionHeader, "", body, ""]
  {
    out := lines;
    out := out + [DescriptionHeader];
    out := out + [""];
    out := out + [body];
    out := out + [""];
  }

  /** The description, appended when the body is a string that is not blank. */
  method AppendDescription(lines: seq<string>, issue: map<string, Value>) returns (r: Result<seq<string>>)
    ensures DescriptionLines(issue).Err? ==> r == Err("AttributeError")
    ensures DescriptionLines(issue).Ok? ==> r == Ok(lines + DescriptionLines(issue).value)
  {
    assert lines + [] == lines;
    var out := lines;
    var body := Get(issue, "body", Str(""));
    if Truthy(body) {
      if !body.Str? {
        assert DescriptionLines(issue) == Err("AttributeError");
        return Err("AttributeError");
      }
      if Strip(body.s) != "" {
        out := AppendBody(out, body.s);
        assert DescriptionLines(issue) == Ok([DescriptionHeader, "", body.s, ""]);
      } else {
        assert DescriptionLines(issue) == Ok([]);
      }
    } else {
      assert DescriptionLines(issue) == Ok([]);
    }
    return Ok(out);
  }

  method AppendHeader(lines: seq<string>, issueNumber: int, issue: map<string, Value>, now: string)
    returns (out: seq<string>)
    ensures out == lines + HeaderLines(issueNumber, issue, now)
  {
    out := lines;
    out := out + [TitlePrefix + IntToString(issueNumber) + ": " + Render(Get(issue, "title", Str("Untitled")))];
    out := out + [""];
    out := out + [MovedPrefix + now];
    out := out + [""];
  }

  method AppendMetadata(lines: seq<string>, issue: map<string, Value>) returns (out: seq<string>)
    ensures out == lines + MetadataLines(issue)
  {
    out := lines;
    out := out + [GitHubHeader];
    out := out + [""];
    out := out + ["- **URL:** " + Render(Get(issue, "html_url", Str("N/A")))];
    out := out + ["- **State:** " + Render(Get(issue, "state", Str("N/A")))];
    out := out + ["- **Created:** " + Render(Get(issue, "created_at", Str("N/A")))];
    out := out + ["- **Updated:** " + Render(Get(issue, "updated_at", Str("N/A")))];
    out := out + [""];
  }

  /** The labels line, appended when some label contributes an entry. */
  method AppendLabels(lines: seq<string>, issue: map<string, Value>) returns (r: Result<seq<string>>)
    ensures Entries(Get(issue, "labels", Lst([])), LabelEntry).Err? ==>
      r == Err(Entries(Get(issue, "labels", Lst([])), LabelEntry).error)
    ensures Entries(Get(issue, "labels", Lst([])), LabelEntry).Ok? ==>
      r == Ok(lines + ListingLines(LabelsCaption, Entries(Get(issue, "labels", Lst([])), LabelEntry).value, "`", "`"))
  {
    assert lines + [] == lines;
    var out := lines;
    var labels := Get(issue, "labels", Lst([]));
    if Truthy(labels) {
      var items :- Iterate(labels);
      var labelNames := FormatLabels(items);
      assert Entries(labels, LabelEntry) == Ok(Collect(items, LabelEntry));
      if labelNames != [] {
        out := out + [LabelsCaption + Join(", ", labelNames)];
        out := out + [""];
        assert out == lines + ListingLines(LabelsCaption, Collect(items, LabelEntry), "`", "`");
      } else {
        assert Collect(items, LabelEntry) == [];
      }
    }
    return Ok(out);
  }

  /** The assignees line, appended when some assignee contributes an entry. */
  method AppendAssignees(lines: seq<string>, issue: map<string, Value>) returns (r: Result<seq<string>>)
    ensures Entries(Get(issue, "assignees", Lst([])), AssigneeEntry).Err? ==>
      r == Err(Entries(Get(issue, "assignees", Lst([])), AssigneeEntry).error)
    ensures Entries(Get(issue, "assignees", Lst([])), AssigneeEntry).Ok? ==>
      r == Ok(lines + ListingLines(AssigneesCaption, Entries(Get(issue, "assignees", Lst([])), AssigneeEntry).value, "@", ""))
  {
    assert lines + [] == lines;
    var out := lines;
    var assignees := Get(issue, "assignees", Lst([]));
    if Truthy(assignees) {
      var items :- Iterate(assignees);
      var assigneeNames := FormatAssignees(items);
      assert Entries(assignees, AssigneeEntry) == Ok(Collect(items, AssigneeEntry));
      if assigneeNames != [] {
        out := out + [AssigneesCaption + Join(", ", assigneeNames)];
        out := out + [""];
        assert out == lines + ListingLines(AssigneesCaption, Collect(items, AssigneeEntry), "@", "");
      } else {
        assert Collect(items, AssigneeEntry) == [];
      }
    }
    return Ok(out);
  }

  method AppendTrailer(lines: seq<string>, payload: Payload) returns (out: seq<string>)
    ensures out == lines + TrailerLines(payload)
  {
    out := lines;
    out := out + ["---"];
    out := out + [""];
    out := out + [AutomationHeader];
    out := out + [""];
    out := out + ["- **Workflow:** " + Render(Get(payload, "type", Str("unknown")))];
    out := out + ["- **Repository:** " + Render(Get(payload, "organization", Str("N/A"))) + "/" + Render(Get(payload, "repo", Str("N/A")))];
    out := out + ["- **Workspace:** " + Render(Get(payload, "workspace_name", Str("N/A")))];
    out := out + ["- **From Pipeline:** " + Render(Get(payload, "from_pipeline_name", Str("N/A")))];
    out := out + ["- **To Pipeline:** " + Render(Get(payload, "to_pipeline_name", Str("N/A")))];
    out := out + [""];
    out := out + [Footer];
  }

  lemma AppendSections(h: seq<string>, m: seq<string>, l: seq<string>, a: seq<string>, ms: seq<string>,
                       z: seq<string>, d: seq<string>, t: seq<string>)
    ensures [] + h + m + l + a + ms + z + d + t == h + (m + (l + (a + (ms + (z + (d + t))))))
  {
  }

  /** `_generate_context_file` as written: appends every section in turn
      and joins the lines. It produces exactly `ContextFile`, and raises what
      it raises. */
  method GenerateContextFile(payload: Payload, issueNumber: int, now: string) returns (r: Result<string>)
    ensures r == ContextFile(payload, issueNumber, now)
  {
    var issue := Issue(payload);
    var board := Board(payload);
    if !issue.Obj? {
      return Err("AttributeError");
    }
    var gi := issue.fields;
    var lines: seq<string> := [];
    lines := AppendHeader(lines, issueNumber, gi, now);
    lines := AppendMetadata(lines, gi);
    lines :- AppendLabels(lines, gi);
    lines :- AppendAssignees(lines, gi);
    lines := AppendMilestone(lines, gi);
    lines :- AppendZenhub(lines, board);
    lines :- AppendDescription(lines, gi);
    lines := AppendTrailer(lines, payload);

    AppendSections(HeaderLines(issueNumber, gi, now), MetadataLines(gi),
      ListingLines(LabelsCaption, Entries(Get(gi, "labels", Lst([])), LabelEntry).value, "`", "`"),
      ListingLines(AssigneesCaption, Entries(Get(gi, "assignees", Lst([])), AssigneeEntry).value, "@", ""),
      MilestoneLines(gi), ZenhubLines(board).value, DescriptionLines(gi).value, TrailerLines(payload));
    r := Ok(Join("\n", lines));
  }

  // ---------------------------------------------------------------------------
  // Properties of the file

  /** A metadata field the issue or the webhook lacks is shown as "N/A"
      (the workflow as "unknown"), never left out. */
  lemma MissingIssueMetadataShown(issue: map<string, Value>)
    ensures "html_url" !in issue ==> MetadataLines(issue)[2] == "- **URL:** N/A"
    ensures "state" !in issue ==> MetadataLines(issue)[3] == "- **State:** N/A"
    ensures "created_at" !in issue ==> MetadataLines(issue)[4] == "- **Created:** N/A"
    ensures "updated_at" !in issue ==> MetadataLines(issue)[5] == "- **Updated:** N/A"
  {
  }

  lemma MissingWebhookMetadataShown(payload: Payload)
    ensures "type" !in payload ==> TrailerLines(payload)[4] == "- **Workflow:** unknown"
    ensures "workspace_name" !in payload ==> TrailerLines(payload)[6] == "- **Workspace:** N/A"
    ensures "to_pipeline_name" !in payload ==> TrailerLines(payload)[8] == "- **To Pipeline:** N/A"
  {
  }

  /** The generator raises exactly when `github_issue` is not a dictionary,
      the labels or the assignees cannot be iterated, a truthy `zenhub_issue`
      is not a dictionary, or a truthy body is not a string. */
  lemma ContextRaisesExactly(payload: Payload, issueNumber: int, now: string)
    ensures ContextFile(payload, issueNumber, now).Err? <==>
      || !Issue(payload).Obj?
      || Entries(Get(Issue(payload).fields, "labels", Lst([])), LabelEntry).Err?
      || Entries(Get(Issue(payload).fields, "assignees", Lst([])), AssigneeEntry).Err?
      || (Truthy(Board(payload)) && !Board(payload).Obj?)
      || (Truthy(Get(Issue(payload).fields, "body", Str(""))) && !Get(Issue(payload).fields, "body", Str("")).Str?)
  {
  }

  /** A payload shaped like the enrichers' output (an issue record with
      list-valued labels and assignees and a string body, and a board record
      or none) never makes the generator raise. */
  lemma EnrichedContextRenders(payload: Payload, issueNumber: int, now: string)
    requires Enrichers.IsIssueRecord(Issue(payload))
    requires Issue(payload).fields["body"].Str?
    requires Truthy(Board(payload)) ==> Board(payload).Obj?
    ensures ContextFile(payload, issueNumber, now).Ok?
  {
    ContextRaisesExactly(payload, issueNumber, now);
  }

  /** The two generators disagree on a zero estimate: the context file shows
      it (it tests `is not None`), the pull-request body leaves it out (it
      tests truthiness). */
  lemma ZeroEstimateOnlyInContext(board: map<string, Value>)
    requires Get(board, "estimate", Null) == Num(0)
    ensures EstimateLines(board) == ["**Estimate:** 0 points", ""]
    ensures PrBody.EstimateText(board) == None
  {
    assert IntToString(0) == "0";
    assert Render(Num(0)) == "0";
    assert EstimateCaption + "0" + " points" == "**Estimate:** 0 points";
  }

  /** A board record as `ZenhubEnricher` stores it keeps the pipeline's bare
      name, not a dictionary, so the context file never shows a pipeline for
      it; a `pipeline` dictionary with a non-empty string name, as in the raw
      Zenhub data, is shown. */
  lemma EnrichedPipelineNeverShown(data: Value)
    requires Enrichers.ProjectBoard(data).Ok?
    requires !Enrichers.ProjectBoard(data).value.fields["pipeline"].Obj?
    ensures PipelineLines(Enrichers.ProjectBoard(data).value.fields) == []
  {
  }

  lemma RawPipelineShown(board: map<string, Value>, name: string)
    requires Get(board, "pipeline", Obj(map[])).Obj?
    requires Get(Get(board, "pipeline", Obj(map[])).fields, "name", Null) == Str(name) && name != ""
    ensures PipelineLines(board) == [PipelineCaption + name, ""]
  {
  }

  /** Labels given as strings are listed one for one, in order, each in
      backquotes, as in the pull-request body. */
  lemma StringLabelsQuoted(items: seq<Value>)
    requires forall i :: 0 <= i < |items| ==> items[i].Str?
    ensures Entries(Lst(items), LabelEntry) == Ok(items)
  {
    CollectAll(items, LabelEntry);
    assert Collect(items, LabelEntry) == items;
  }

  /** An assignee dictionary without a usable login is listed as "@unknown"
      (no `login`) or with the login's rendering (a falsy one), where the
      pull-request body leaves it out. */
  lemma LoginlessAssigneeListed(assignee: map<string, Value>)
    requires "login" in assignee ==> !Truthy(assignee["login"])
    ensures AssigneeEntry(Obj(assignee)) == Some(Get(assignee, "login", Str("unknown")))
    ensures PrBody.AssigneeLogin(Obj(assignee)) == None
  {
  }
}
