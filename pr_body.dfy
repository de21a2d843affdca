/** `PRService._generate_pr_body`: the Markdown description of the draft pull
    request. Up to six sections, in a fixed order, each printed only when the
    enriched payload has something for it: the closing reference, the issue
    description, the labels, the estimate, the assignees and the milestone.
    The lines are joined with newlines.

    The document is described in two steps: `BodyViewOf` reads, for each
    section, the text it will print (or that it is omitted); `Layout` turns
    such a view into lines. `ParseBody` reads a view back from the lines. */
module PrBody {
  import opened Results
  import opened Text
  import opened PyValues
  import opened Lines

  const ClosesPrefix := "Closes #"
  const DescriptionHeader := "## Issue Description"
  const LabelsHeader := "## Labels"
  const EstimatePrefix := "**Estimate:** "
  const EstimateSuffix := " points"
  const AssigneesHeader := "## Assignees"
  const MilestonePrefix := "**Milestone:** "

  /** Each section as it is printed, or `None` when it is left out. */
  datatype BodyView = BodyView(
    closes: Option<string>,
    description: Option<Value>,
    labels: Option<string>,
    estimate: Option<string>,
    assignees: Option<string>,
    milestone: Option<string>)

  /** What one label contributes: a dictionary its `name`, a string itself. */
  function LabelName(item: Value): Option<Value> {
    if item.Obj? && "name" in item.fields then Some(item.fields["name"])
    else if item.Str? then Some(item)
    else None
  }

  /** What one assignee contributes: a dictionary its `login` when that is
      truthy, a string itself. */
  function AssigneeLogin(assignee: Value): Option<Value> {
    if assignee.Obj? then
      var login := Get(assignee.fields, "login", Null);
      if Truthy(login) then Some(login) else None
    else if assignee.Str? then Some(assignee)
    else None
  }

  /** The estimate shown: a dictionary's `value`, or the number itself (a
      `bool` is an `int` too); anything else shows nothing. */
  function EstimateOf(data: Value): Value {
    if data.Obj? then Get(data.fields, "value", Null)
    else if data.Num? || data.Bool? then data
    else Null
  }

  /** The milestone shown: a dictionary's `title`, or the value as a string. */
  function MilestoneText(milestone: Value): string {
    if milestone.Obj? then Render(Get(milestone.fields, "title", Null)) else Render(milestone)
  }

  /** The sections of the body, read from the enriched payload. `Err` is the
      exception the reading raises: `github_issue` or `zenhub_issue` that is
      not a dictionary, or labels or assignees that cannot be iterated. */
  function BodyViewOf(payload: Payload): (r: Result<BodyView>)
    ensures r.Ok? ==> Issue(payload).Obj? && Board(payload).Obj?
    ensures (&& Issue(payload).Obj? && Board(payload).Obj?
             && Entries(Get(Issue(payload).fields, "labels", Lst([])), LabelName).Ok?
             && Entries(Get(Issue(payload).fields, "assignees", Lst([])), AssigneeLogin).Ok?)
            ==> r.Ok?
    ensures r.Ok? ==> var issue := Issue(payload).fields;
      && (r.value.closes.Some? <==> Truthy(Get(issue, "html_url", Str(""))))
      && (r.value.closes.Some? ==> r.value.closes.value == Render(Get(payload, "issue_number", Str(""))))
      && (r.value.description.Some? <==> Truthy(Get(issue, "body", Str(""))))
      && (r.value.description.Some? ==> r.value.description.value == Get(issue, "body", Str("")))
      && (r.value.estimate.Some? <==> Truthy(EstimateOf(Get(Board(payload).fields, "estimate", Null))))
      && (r.value.milestone.Some? <==> Truthy(Get(issue, "milestone", Null)))
    ensures r.Ok? ==> var issue := Issue(payload).fields;
      && (r.value.estimate.Some? ==>
            r.value.estimate.value == Render(EstimateOf(Get(Board(payload).fields, "estimate", Null))))
      && (r.value.milestone.Some? ==> r.value.milestone.value == MilestoneText(Get(issue, "milestone", Null)))
    ensures r.Ok? ==> var issue := Issue(payload).fields;
      var names := Entries(Get(issue, "labels", Lst([])), LabelName);
      var logins := Entries(Get(issue, "assignees", Lst([])), AssigneeLogin);
      && names.Ok? && logins.Ok?
      && (r.value.labels.Some? <==> names.value != [])
      && (r.value.labels.Some? ==> r.value.labels.value == Listing(names.value, "`", "`"))
      && (r.value.assignees.Some? <==> logins.value != [])
      && (r.value.assignees.Some? ==> r.value.assignees.value == Listing(logins.value, "@", ""))
  {
    var issue := Issue(payload);
    var board := Board(payload);
    if !issue.Obj? then Err("AttributeError")
    else
      var labelNames :- Entries(Get(issue.fields, "labels", Lst([])), LabelName);
      if !board.Obj? then Err("AttributeError")
      else
        var logins :- Entries(Get(issue.fields, "assignees", Lst([])), AssigneeLogin);
        Ok(BodyView(
          ClosesText(payload, issue.fields),
          DescriptionOf(issue.fields),
          ListingOf(labelNames, "`", "`"),
          EstimateText(board.fields),
          ListingOf(logins, "@", ""),
          MilestoneOf(issue.fields)))
  }

  /** The generator raises exactly when `github_issue` or `zenhub_issue` is
      not a dictionary, the labels or the assignees cannot be iterated, or a
      truthy body is not a string. */
  lemma PrBodyRaisesExactly(payload: Payload)
    ensures PrBody(payload).Err? <==>
      || !Issue(payload).Obj?
      || !Board(payload).Obj?
      || Entries(Get(Issue(payload).fields, "labels", Lst([])), LabelName).Err?
      || Entries(Get(Issue(payload).fields, "assignees", Lst([])), AssigneeLogin).Err?
      || (Truthy(Get(Issue(payload).fields, "body", Str(""))) && !Get(Issue(payload).fields, "body", Str("")).Str?)
  {
  }

  /** The issue number, when the issue has a truthy `html_url`. */
  function ClosesText(payload: Payload, issue: map<string, Value>): Option<string> {
    if Truthy(Get(issue, "html_url", Str(""))) then Some(Render(Get(payload, "issue_number", Str("")))) else None
  }

  /** The issue body, when it is truthy. */
  function DescriptionOf(issue: map<string, Value>): Option<Value> {
    var body := Get(issue, "body", Str(""));
    if Truthy(body) then Some(body) else None
  }

  /** The listing of the collected entries, when there are any. */
  function ListingOf(entries: seq<Value>, before: string, after: string): Option<string> {
    if entries != [] then Some(Listing(entries, before, after)) else None
  }

  /** The estimate, when it is truthy. */
  function EstimateText(board: map<string, Value>): Option<string> {
    var estimate := EstimateOf(Get(board, "estimate", Null));
    if Truthy(estimate) then Some(Render(estimate)) else None
  }

  /** The milestone, when it is truthy. */
  function MilestoneOf(issue: map<string, Value>): Option<string> {
    var milestone := Get(issue, "milestone", Null);
    if Truthy(milestone) then Some(MilestoneText(milestone)) else None
  }

  function PrefixedBlock(prefix: string, text: Option<string>, suffix: string): seq<Value> {
    if text.Some? then [Str(prefix + text.value + suffix), Str("")] else []
  }

  function HeadedBlock(header: string, line: Option<string>): seq<Value> {
    if line.Some? then [Str(header), Str(line.value), Str("")] else []
  }

  function DescriptionBlock(body: Option<Value>): seq<Value> {
    if body.Some? then [Str(DescriptionHeader), body.value, Str("")] else []
  }

  /** The lines of a body, section after section. */
  function Layout(v: BodyView): seq<Value> {
    PrefixedBlock(ClosesPrefix, v.closes, "") +
    (DescriptionBlock(v.description) +
    (HeadedBlock(LabelsHeader, v.labels) +
    (PrefixedBlock(EstimatePrefix, v.estimate, EstimateSuffix) +
    (HeadedBlock(AssigneesHeader, v.assignees) +
     PrefixedBlock(MilestonePrefix, v.milestone, "")))))
  }

  /** The body `_generate_pr_body` returns, or the exception it raises (the
      join raises `TypeError` on an issue body that is not a string). */
  function PrBody(payload: Payload): (r: Result<string>)
    ensures r.Ok? <==> (BodyViewOf(payload).Ok? &&
                        var body := Get(Issue(payload).fields, "body", Str(""));
                        Truthy(body) ==> body.Str?)
  {
    var v :- BodyViewOf(payload);
    LayoutStringsExactly(v);
    JoinStrings("\n", Layout(v))
  }

  /** Every line of a layout is a string exactly when its description is. */
  lemma LayoutStringsExactly(v: BodyView)
    ensures (forall i :: 0 <= i < |Layout(v)| ==> Layout(v)[i].Str?) <==>
            (v.description.Some? ==> v.description.value.Str?)
  {
    if v.description.Some? && !v.description.value.Str? {
      var k := |PrefixedBlock(ClosesPrefix, v.closes, "")| + 1;
      assert Layout(v) == PrefixedBlock(ClosesPrefix, v.closes, "") + (DescriptionBlock(v.description) + Tail3(v));
      assert Layout(v)[k] == v.description.value;
    } else {
      LayoutLinesAreStrings(v);
    }
  }

  // ---------------------------------------------------------------------------
  // The generator, line by line

  /** The loop over labels: dictionaries with a `name` give it, strings give
      themselves, anything else is skipped. */
  method CollectLabelNames(labels: seq<Value>) returns (names: seq<Value>)
    ensures names == Collect(labels, LabelName)
  {
    names := [];
    for k := 0 to |labels|
      invariant names == Collect(labels[..k], LabelName)
    {
      var item := labels[k];
      if item.Obj? && "name" in item.fields {
        names := names + [item.fields["name"]];
      } else if item.Str? {
        names := names + [item];
      }
      assert labels[..k + 1][..k] == labels[..k];
    }
    assert labels[..|labels|] == labels;
  }

  /** The loop over assignees: dictionaries give a truthy `login`, strings
      give themselves, anything else is skipped. */
  method CollectLogins(assignees: seq<Value>) returns (logins: seq<Value>)
    ensures logins == Collect(assignees, AssigneeLogin)
  {
    logins := [];
    for k := 0 to |assignees|
      invariant logins == Collect(assignees[..k], AssigneeLogin)
    {
      var a := assignees[k];
      if a.Obj? {
        var login := Get(a.fields, "login", Null);
        if Truthy(login) {
          logins := logins + [login];
        }
      } else if a.Str? {
        logins := logins + [a];
      }
      assert assignees[..k + 1][..k] == assignees[..k];
    }
    assert assignees[..|assignees|] == assignees;
  }

  method AppendCloses(lines: seq<Value>, payload: Payload, issue: map<string, Value>) returns (out: seq<Value>)
    ensures out == lines + PrefixedBlock(ClosesPrefix, ClosesText(payload, issue), "")
  {
    out := lines;
    var url := Get(issue, "html_url", Str(""));
    var number := Get(payload, "issue_number", Str(""));
    if Truthy(url) {
      out := out + [Str(ClosesPrefix + Render(number))];
      out := out + [Str("")];
      assert ClosesPrefix + Render(number) + "" == ClosesPrefix + Render(number);
    }
  }

  method AppendDescription(lines: seq<Value>, issue: map<string, Value>) returns (out: seq<Value>)
    ensures out == lines + DescriptionBlock(DescriptionOf(issue))
  {
    out := lines;
    var body := Get(issue, "body", Str(""));
    if Truthy(body) {
      out := out + [Str(DescriptionHeader)];
      out := out + [body];
      out := out + [Str("")];
    }
  }

  method AppendListing(lines: seq<Value>, header: string, entries: seq<Value>, before: string, after: string)
    returns (out: seq<Value>)
    ensures out == lines + HeadedBlock(header, ListingOf(entries, before, after))
  {
    out := lines;
    if entries != [] {
      out := out + [Str(header)];
      out := out + [Str(Listing(entries, before, after))];
      out := out + [Str("")];
    }
  }

  method AppendEstimate(lines: seq<Value>, board: map<string, Value>) returns (out: seq<Value>)
    ensures out == lines + PrefixedBlock(EstimatePrefix, EstimateText(board), EstimateSuffix)
  {
    out := lines;
    var estimateData := Get(board, "estimate", Null);
    var estimate := Null;
    if estimateData.Obj? {
      estimate := Get(estimateData.fields, "value", Null);
    } else if estimateData.Num? || estimateData.Bool? {
      estimate := estimateData;
    }
    if Truthy(estimate) {
      out := out + [Str(EstimatePrefix + Render(estimate) + EstimateSuffix)];
      out := out + [Str("")];
    }
  }

  method AppendMilestone(lines: seq<Value>, issue: map<string, Value>) returns (out: seq<Value>)
    ensures out == lines + PrefixedBlock(MilestonePrefix, MilestoneOf(issue), "")
  {
    out := lines;
    var milestone := Get(issue, "milestone", Null);
    if Truthy(milestone) {
      var title := if milestone.Obj? then Render(Get(milestone.fields, "title", Null)) else Render(milestone);
      out := out + [Str(MilestonePrefix + title)];
      out := out + [Str("")];
      assert MilestonePrefix + title + "" == MilestonePrefix + title;
    }
  }

  lemma AppendBlocks(b1: seq<Value>, b2: seq<Value>, b3: seq<Value>, b4: seq<Value>, b5: seq<Value>, b6: seq<Value>)
    ensures [] + b1 + b2 + b3 + b4 + b5 + b6 == b1 + (b2 + (b3 + (b4 + (b5 + b6))))
  {
  }

  /** `_generate_pr_body` as written: appends the lines of each section in
      turn and joins them. It produces exactly `PrBody`, and raises what it
      raises, where it raises it. */
  method GeneratePrBody(payload: Payload) returns (r: Result<string>)
    ensures r == PrBody(payload)
  {
    var issue := Issue(payload);
    var board := Board(payload);
    if !issue.Obj? {
      return Err("AttributeError");
    }
    var lines: seq<Value> := [];
    lines := AppendCloses(lines, payload, issue.fields);
    lines := AppendDescription(lines, issue.fields);

    var labels := Get(issue.fields, "labels", Lst([]));
    var labelNames: seq<Value> := [];
    if Truthy(labels) {
      var items :- Iterate(labels);
      labelNames := CollectLabelNames(items);
    }
    assert Entries(labels, LabelName) == Ok(labelNames);
    lines := AppendListing(lines, LabelsHeader, labelNames, "`", "`");

    if !board.Obj? {
      return Err("AttributeError");
    }
    lines := AppendEstimate(lines, board.fields);

    var assignees := Get(issue.fields, "assignees", Lst([]));
    var logins: seq<Value> := [];
    if Truthy(assignees) {
      var items :- Iterate(assignees);
      logins := CollectLogins(items);
    }
    assert Entries(assignees, AssigneeLogin) == Ok(logins);
    lines := AppendListing(lines, AssigneesHeader, logins, "@", "");

    lines := AppendMilestone(lines, issue.fields);

    ghost var v := BodyViewOf(payload).value;
    AppendBlocks(PrefixedBlock(ClosesPrefix, v.closes, ""), DescriptionBlock(v.description),
      HeadedBlock(LabelsHeader, v.labels), PrefixedBlock(EstimatePrefix, v.estimate, EstimateSuffix),
      HeadedBlock(AssigneesHeader, v.assignees), PrefixedBlock(MilestonePrefix, v.milestone, ""));
    r := JoinStrings("\n", lines);
  }

  // ---------------------------------------------------------------------------
  // Reading a body back

  function ReadPrefixed(lines: seq<Value>, prefix: string, suffix: string): (Option<string>, seq<Value>) {
    if |lines| >= 2 && lines[0].Str? && |prefix| + |suffix| <= |lines[0].s| &&
       StartsWith(lines[0].s, prefix) && EndsWith(lines[0].s, suffix) && lines[1] == Str("")
    then (Some(lines[0].s[|prefix|..|lines[0].s| - |suffix|]), lines[2..])
    else (None, lines)
  }

  function ReadHeaded(lines: seq<Value>, header: string): (Option<string>, seq<Value>) {
    if |lines| >= 3 && lines[0] == Str(header) && lines[1].Str? && lines[2] == Str("")
    then (Some(lines[1].s), lines[3..])
    else (None, lines)
  }

  function ReadDescription(lines: seq<Value>): (Option<Value>, seq<Value>) {
    if |lines| >= 3 && lines[0] == Str(DescriptionHeader) && lines[2] == Str("")
    then (Some(lines[1]), lines[3..])
    else (None, lines)
  }

  /** The sections of a body, read from its lines in order; `None` when
      lines are left over. */
  function ParseBody(lines: seq<Value>): Option<BodyView> {
    var (closes, rest1) := ReadPrefixed(lines, ClosesPrefix, "");
    var (description, rest2) := ReadDescription(rest1);
    var (labels, rest3) := ReadHeaded(rest2, LabelsHeader);
    var (estimate, rest4) := ReadPrefixed(rest3, EstimatePrefix, EstimateSuffix);
    var (assignees, rest5) := ReadHeaded(rest4, AssigneesHeader);
    var (milestone, rest6) := ReadPrefixed(rest5, MilestonePrefix, "");
    if rest6 == [] then Some(BodyView(closes, description, labels, estimate, assignees, milestone))
    else None
  }

  lemma ReadPrefixedBlock(prefix: string, text: string, suffix: string, rest: seq<Value>)
    ensures ReadPrefixed(PrefixedBlock(prefix, Some(text), suffix) + rest, prefix, suffix) == (Some(text), rest)
  {
    Between(prefix, text, suffix);
    var lines := PrefixedBlock(prefix, Some(text), suffix) + rest;
    assert lines[2..] == rest;
  }

  lemma ReadHeadedBlock(header: string, line: string, rest: seq<Value>)
    ensures ReadHeaded(HeadedBlock(header, Some(line)) + rest, header) == (Some(line), rest)
  {
    assert (HeadedBlock(header, Some(line)) + rest)[3..] == rest;
  }

  lemma ReadDescriptionBlock(body: Value, rest: seq<Value>)
    ensures ReadDescription(DescriptionBlock(Some(body)) + rest) == (Some(body), rest)
  {
    assert (DescriptionBlock(Some(body)) + rest)[3..] == rest;
  }

  /** A line that differs from the prefix at some position within both is not
      read as that section. */
  lemma ReadPrefixedSkips(lines: seq<Value>, prefix: string, suffix: string, i: nat)
    requires lines == [] || (lines[0].Str? && i < |prefix| && i < |lines[0].s| && lines[0].s[i] != prefix[i])
    ensures ReadPrefixed(lines, prefix, suffix) == (None, lines)
  {
    if lines != [] && StartsWith(lines[0].s, prefix) {
      StartsWithChar(lines[0].s, prefix, i);
    }
  }

  lemma PrefixedFirstChar(prefix: string, text: string, suffix: string, i: nat)
    requires i < |prefix|
    ensures (prefix + text + suffix)[i] == prefix[i]
  {
  }
  /** Facts about the section openings the skipping steps below rely on. */
  lemma Openings()
    ensures ClosesPrefix[0] == 'C' && DescriptionHeader[0] == '#' && LabelsHeader[0] == '#'
    ensures EstimatePrefix[0] == '*' && EstimatePrefix[2] == 'E'
    ensures AssigneesHeader[0] == '#' && MilestonePrefix[0] == '*' && MilestonePrefix[2] == 'M'
    ensures |DescriptionHeader| == 20 && |LabelsHeader| == 9 && |AssigneesHeader| == 12
  {
  }

  /** The lines after the estimate section never read as an estimate. */
  lemma SkipEstimate(v: BodyView, t5: seq<Value>)
    requires v.estimate.None?
    requires t5 == HeadedBlock(AssigneesHeader, v.assignees) + PrefixedBlock(MilestonePrefix, v.milestone, "")
    ensures ReadPrefixed(t5, EstimatePrefix, EstimateSuffix) == (None, t5)
  {
    Openings();
    if v.assignees.Some? {
      assert t5[0] == Str(AssigneesHeader);
      ReadPrefixedSkips(t5, EstimatePrefix, EstimateSuffix, 0);
    } else if v.milestone.Some? {
      assert t5[0] == Str(MilestonePrefix + v.milestone.value + "");
      PrefixedFirstChar(MilestonePrefix, v.milestone.value, "", 2);
      ReadPrefixedSkips(t5, EstimatePrefix, EstimateSuffix, 2);
    } else {
      assert t5 == [];
    }
  }

  /** The lines after the labels section never read as labels. */
  lemma SkipLabels(v: BodyView, t4: seq<Value>, t5: seq<Value>)
    requires v.labels.None?
    requires t5 == HeadedBlock(AssigneesHeader, v.assignees) + PrefixedBlock(MilestonePrefix, v.milestone, "")
    requires t4 == PrefixedBlock(EstimatePrefix, v.estimate, EstimateSuffix) + t5
    ensures ReadHeaded(t4, LabelsHeader) == (None, t4)
  {
    Openings();
    if v.estimate.Some? {
      assert t4[0] == Str(EstimatePrefix + v.estimate.value + EstimateSuffix);
      PrefixedFirstChar(EstimatePrefix, v.estimate.value, EstimateSuffix, 0);
    } else if v.assignees.Some? {
      assert t4[0] == Str(AssigneesHeader);
    } else if v.milestone.Some? {
      assert t4[0] == Str(MilestonePrefix + v.milestone.value + "");
      PrefixedFirstChar(MilestonePrefix, v.milestone.value, "", 0);
    } else {
      assert t4 == [];
    }
  }

  /** The lines after the description never read as a description. */
  lemma SkipDescription(v: BodyView, t3: seq<Value>, t4: seq<Value>, t5: seq<Value>)
    requires v.description.None?
    requires t5 == HeadedBlock(AssigneesHeader, v.assignees) + PrefixedBlock(MilestonePrefix, v.milestone, "")
    requires t4 == PrefixedBlock(EstimatePrefix, v.estimate, EstimateSuffix) + t5
    requires t3 == HeadedBlock(LabelsHeader, v.labels) + t4
    ensures ReadDescription(t3) == (None, t3)
  {
    Openings();
    if v.labels.Some? {
      assert t3[0] == Str(LabelsHeader);
    } else if v.estimate.Some? {
      assert t3[0] == Str(EstimatePrefix + v.estimate.value + EstimateSuffix);
      PrefixedFirstChar(EstimatePrefix, v.estimate.value, EstimateSuffix, 0);
    } else if v.assignees.Some? {
      assert t3[0] == Str(AssigneesHeader);
    } else if v.milestone.Some? {
      assert t3[0] == Str(MilestonePrefix + v.milestone.value + "");
      PrefixedFirstChar(MilestonePrefix, v.milestone.value, "", 0);
    } else {
      assert t3 == [];
    }
  }

  /** Every section but the closing reference opens with '#' or '*', so the
      lines after it never read as one. */
  lemma SkipCloses(v: BodyView, t2: seq<Value>, t3: seq<Value>, t4: seq<Value>, t5: seq<Value>)
    requires v.closes.None?
    requires t5 == HeadedBlock(AssigneesHeader, v.assignees) + PrefixedBlock(MilestonePrefix, v.milestone, "")
    requires t4 == PrefixedBlock(EstimatePrefix, v.estimate, EstimateSuffix) + t5
    requires t3 == HeadedBlock(LabelsHeader, v.labels) + t4
    requires t2 == DescriptionBlock(v.description) + t3
    ensures ReadPrefixed(t2, ClosesPrefix, "") == (None, t2)
  {
    Openings();
    if v.description.Some? {
      assert t2[0] == Str(DescriptionHeader);
    } else if v.labels.Some? {
      assert t2[0] == Str(LabelsHeader);
    } else if v.estimate.Some? {
      assert t2[0] == Str(EstimatePrefix + v.estimate.value + EstimateSuffix);
      PrefixedFirstChar(EstimatePrefix, v.estimate.value, EstimateSuffix, 0);
    } else if v.assignees.Some? {
      assert t2[0] == Str(AssigneesHeader);
    } else if v.milestone.Some? {
      assert t2[0] == Str(MilestonePrefix + v.milestone.value + "");
      PrefixedFirstChar(MilestonePrefix, v.milestone.value, "", 0);
    } else {
      assert t2 == [];
    }
    ReadPrefixedSkips(t2, ClosesPrefix, "", 0);
  }

  // The lines from each section on.
  function Tail6(v: BodyView): seq<Value> { PrefixedBlock(MilestonePrefix, v.milestone, "") }
  function Tail5(v: BodyView): seq<Value> { HeadedBlock(AssigneesHeader, v.assignees) + Tail6(v) }
  function Tail4(v: BodyView): seq<Value> { PrefixedBlock(EstimatePrefix, v.estimate, EstimateSuffix) + Tail5(v) }
  function Tail3(v: BodyView): seq<Value> { HeadedBlock(LabelsHeader, v.labels) + Tail4(v) }
  function Tail2(v: BodyView): seq<Value> { DescriptionBlock(v.description) + Tail3(v) }

  lemma ReadMilestone(v: BodyView)
    ensures ReadPrefixed(Tail6(v), MilestonePrefix, "") == (v.milestone, [])
  {
    if v.milestone.Some? {
      ReadPrefixedBlock(MilestonePrefix, v.milestone.value, "", []);
      assert Tail6(v) + [] == Tail6(v);
    }
  }

  lemma ReadAssignees(v: BodyView)
    ensures ReadHeaded(Tail5(v), AssigneesHeader) == (v.assignees, Tail6(v))
  {
    if v.assignees.Some? {
      ReadHeadedBlock(AssigneesHeader, v.assignees.value, Tail6(v));
    } else if v.milestone.Some? {
      Openings();
      PrefixedFirstChar(MilestonePrefix, v.milestone.value, "", 0);
      assert Tail5(v) == Tail6(v);
      assert Tail5(v)[0].s[0] == '*';
    } else {
      assert Tail5(v) == [];
    }
  }

  lemma ReadEstimate(v: BodyView)
    ensures ReadPrefixed(Tail4(v), EstimatePrefix, EstimateSuffix) == (v.estimate, Tail5(v))
  {
    if v.estimate.Some? {
      ReadPrefixedBlock(EstimatePrefix, v.estimate.value, EstimateSuffix, Tail5(v));
    } else {
      assert Tail4(v) == Tail5(v);
      SkipEstimate(v, Tail5(v));
    }
  }

  lemma ReadLabels(v: BodyView)
    ensures ReadHeaded(Tail3(v), LabelsHeader) == (v.labels, Tail4(v))
  {
    if v.labels.Some? {
      ReadHeadedBlock(LabelsHeader, v.labels.value, Tail4(v));
    } else {
      assert Tail3(v) == Tail4(v);
      SkipLabels(v, Tail4(v), Tail5(v));
    }
  }

  lemma ReadDescriptionSection(v: BodyView)
    ensures ReadDescription(Tail2(v)) == (v.description, Tail3(v))
  {
    if v.description.Some? {
      ReadDescriptionBlock(v.description.value, Tail3(v));
    } else {
      assert Tail2(v) == Tail3(v);
      SkipDescription(v, Tail3(v), Tail4(v), Tail5(v));
    }
  }

  lemma ReadCloses(v: BodyView)
    ensures ReadPrefixed(Layout(v), ClosesPrefix, "") == (v.closes, Tail2(v))
  {
    assert Layout(v) == PrefixedBlock(ClosesPrefix, v.closes, "") + Tail2(v);
    if v.closes.Some? {
      ReadPrefixedBlock(ClosesPrefix, v.closes.value, "", Tail2(v));
    } else {
      assert Layout(v) == Tail2(v);
      SkipCloses(v, Tail2(v), Tail3(v), Tail4(v), Tail5(v));
    }
  }

  /** A view is read back from its own layout: each section is recognised by
      its first line, the sections come in one fixed order, and an omitted
      section leaves no line behind. */
  lemma ParseLayout(v: BodyView)
    ensures ParseBody(Layout(v)) == Some(v)
  {
    ReadCloses(v);
    ReadDescriptionSection(v);
    ReadLabels(v);
    ReadEstimate(v);
    ReadAssignees(v);
    ReadMilestone(v);
  }

  // ---------------------------------------------------------------------------
  // Properties of the body

  lemma StartsWithTrans(a: string, b: string, c: string)
    requires StartsWith(a, b) && StartsWith(b, c)
    ensures StartsWith(a, c)
  {
    assert a[..|c|] == a[..|b|][..|c|];
  }

  /** Without a closing reference, the first line opens with '#' or '*'. */
  lemma OpeningChar(v: BodyView)
    requires v.closes.None? && Layout(v) != []
    ensures Layout(v)[0].Str? && |Layout(v)[0].s| > 0
    ensures Layout(v)[0].s[0] == '#' || Layout(v)[0].s[0] == '*'
  {
    Openings();
    assert Layout(v) == Tail2(v);
    if v.description.None? && v.labels.None? {
      if v.estimate.Some? {
        PrefixedFirstChar(EstimatePrefix, v.estimate.value, EstimateSuffix, 0);
      } else if v.assignees.None? {
        PrefixedFirstChar(MilestonePrefix, v.milestone.value, "", 0);
      }
    }
  }

  /** The body opens with "Closes #" exactly when the issue has a URL. */
  lemma BodyOpensWithCloses(payload: Payload)
    requires PrBody(payload).Ok?
    ensures StartsWith(PrBody(payload).value, ClosesPrefix) <==> Truthy(Get(Issue(payload).fields, "html_url", Str("")))
  {
    var v := BodyViewOf(payload).value;
    var lines := Layout(v);
    var body := PrBody(payload).value;
    var strs := StringsOf(lines);
    assert body == Join("\n", strs);
    if v.closes.Some? {
      Between(ClosesPrefix, v.closes.value, "");
      JoinStartsWithFirst("\n", strs);
      StartsWithTrans(body, strs[0], ClosesPrefix);
    } else if lines != [] {
      OpeningChar(v);
      JoinStartsWithFirst("\n", strs);
      Openings();
      StartsWithChar(body, strs[0], 0);
      assert body[0] != ClosesPrefix[0];
    }
  }

  /** Every line is a string when the description is. */
  lemma LayoutLinesAreStrings(v: BodyView)
    requires v.description.Some? ==> v.description.value.Str?
    ensures forall i :: 0 <= i < |Layout(v)| ==> Layout(v)[i].Str?
  {
    AllStringsConcat(HeadedBlock(AssigneesHeader, v.assignees), Tail6(v));
    AllStringsConcat(PrefixedBlock(EstimatePrefix, v.estimate, EstimateSuffix), Tail5(v));
    AllStringsConcat(HeadedBlock(LabelsHeader, v.labels), Tail4(v));
    AllStringsConcat(DescriptionBlock(v.description), Tail3(v));
    AllStringsConcat(PrefixedBlock(ClosesPrefix, v.closes, ""), Tail2(v));
  }

  lemma AllStringsConcat(a: seq<Value>, b: seq<Value>)
    requires forall i :: 0 <= i < |a| ==> a[i].Str?
    requires forall i :: 0 <= i < |b| ==> b[i].Str?
    ensures forall i :: 0 <= i < |a + b| ==> (a + b)[i].Str?
  {
  }

  /** A payload shaped like the enrichers' output (an issue record whose
      labels and assignees are lists and whose body is a string, and a board
      record) never makes the generator raise. */
  lemma EnrichedBodyRenders(payload: Payload)
    requires Issue(payload).Obj? && Board(payload).Obj?
    requires Get(Issue(payload).fields, "labels", Lst([])).Lst?
    requires Get(Issue(payload).fields, "assignees", Lst([])).Lst?
    requires Get(Issue(payload).fields, "body", Str("")).Str?
    ensures PrBody(payload).Ok?
  {
    LayoutLinesAreStrings(BodyViewOf(payload).value);
  }

  /** Labels given as strings (as `GitHubEnricher` stores their names) are
      listed one for one, in order, each in backquotes. */
  lemma StringLabelsListed(payload: Payload, items: seq<Value>)
    requires Issue(payload).Obj? && Get(Issue(payload).fields, "labels", Lst([])) == Lst(items)
    requires items != [] && forall i :: 0 <= i < |items| ==> items[i].Str?
    requires BodyViewOf(payload).Ok?
    ensures BodyViewOf(payload).value.labels == Some(Listing(items, "`", "`"))
  {
    CollectAll(items, LabelName);
    assert Collect(items, LabelName) == items;
    assert Entries(Lst(items), LabelName) == Ok(items);
  }

  /** Assignees given as strings (as `GitHubEnricher` stores their logins)
      are listed one for one, in order, each after an '@'. */
  lemma StringAssigneesListed(payload: Payload, items: seq<Value>)
    requires Issue(payload).Obj? && Get(Issue(payload).fields, "assignees", Lst([])) == Lst(items)
    requires items != [] && forall i :: 0 <= i < |items| ==> items[i].Str?
    requires BodyViewOf(payload).Ok?
    ensures BodyViewOf(payload).value.assignees == Some(Listing(items, "@", ""))
  {
    CollectAll(items, AssigneeLogin);
    assert Collect(items, AssigneeLogin) == items;
    assert Entries(Lst(items), AssigneeLogin) == Ok(items);
  }

  /** A label without a usable name (neither a dictionary with `name` nor a
      string) is dropped from the listing, not shown as an error. */
  lemma NamelessLabelsDropped(items: seq<Value>)
    requires forall i :: 0 <= i < |items| ==> !items[i].Str? && !(items[i].Obj? && "name" in items[i].fields)
    ensures Collect(items, LabelName) == []
  {
    CollectNone(items, LabelName);
  }
}
