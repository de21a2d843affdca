/** `PRService._should_create_pr`: the gate that decides whether an enriched
    webhook asks for a branch and a draft pull request. An event of the right
    type, an issue that moved to "In Progress", and at least one assignee. */
module PrGate {
  import opened Results
  import opened Text
  import opened PyValues
  import Enrichers

  const ValidEvents: seq<string> := ["issue.transfer", "issue_transfer", "github_assigned"]
  const TargetPipeline := "in progress"

  /** `event_type in valid_events`: only a string equal to one of them. */
  predicate IsValidEvent(eventType: Value) {
    eventType.Str? && eventType.s in ValidEvents
  }

  /** The pipeline the issue moved to: `to_pipeline_name` when it is truthy,
      otherwise `zenhub_issue.get("pipeline", {}).get("name", "")`, which
      raises `AttributeError` when either level is not a dictionary. */
  function Destination(payload: Payload): (r: Result<Value>)
    ensures Truthy(Get(payload, "to_pipeline_name", Str(""))) ==> r == Ok(Get(payload, "to_pipeline_name", Str("")))
    ensures var board := Get(payload, "zenhub_issue", Obj(map[]));
            !Truthy(Get(payload, "to_pipeline_name", Str(""))) ==>
              && (r.Ok? <==> board.Obj? && Get(board.fields, "pipeline", Obj(map[])).Obj?)
              && (r.Ok? ==> r.value == Get(Get(board.fields, "pipeline", Obj(map[])).fields, "name", Str("")))
  {
    var to := Get(payload, "to_pipeline_name", Str(""));
    if Truthy(to) then Ok(to)
    else
      var pipeline :- GetOn(Get(payload, "zenhub_issue", Obj(map[])), "pipeline", Obj(map[]));
      GetOn(pipeline, "name", Str(""))
  }

  /** The gate. `Err` is an exception the gate itself raises: a destination
      that is not a string has no `lower`, and a `github_issue` that is not a
      dictionary has no `get`. */
  function ShouldCreatePr(payload: Payload): (r: Result<bool>)
    ensures !IsValidEvent(Get(payload, "type", Str(""))) ==> r == Ok(false)
    ensures r == Ok(true) ==> Get(payload, "github_issue", Obj(map[])).Obj?
  {
    if !IsValidEvent(Get(payload, "type", Str(""))) then Ok(false)
    else
      var destination :- Destination(payload);
      if !destination.Str? then Err("AttributeError")
      else if AsciiLower(destination.s) != TargetPipeline then Ok(false)
      else
        var assignees :- GetOn(Get(payload, "github_issue", Obj(map[])), "assignees", Lst([]));
        Ok(Truthy(assignees))
  }

  // ---------------------------------------------------------------------------
  // Properties

  /** The pipeline condition: the destination is a string that reads
      "in progress" once lower-cased. */
  predicate MovedToInProgress(payload: Payload) {
    Destination(payload).Ok? && Destination(payload).value.Str? &&
    AsciiLower(Destination(payload).value.s) == TargetPipeline
  }

  /** The assignee condition: `github_issue` is a dictionary with a non-empty
      `assignees`. */
  predicate HasAssignees(payload: Payload) {
    var issue := Get(payload, "github_issue", Obj(map[]));
    issue.Obj? && Truthy(Get(issue.fields, "assignees", Lst([])))
  }

  /** The gate opens exactly when all three conditions hold. */
  lemma GateOpensExactly(payload: Payload)
    ensures ShouldCreatePr(payload) == Ok(true) <==>
      IsValidEvent(Get(payload, "type", Str(""))) && MovedToInProgress(payload) && HasAssignees(payload)
  {
  }

  /** A payload of the right type that moved to "In Progress" but whose issue
      has no assignees (missing or empty) is turned away. */
  lemma NoAssigneesNoPr(payload: Payload)
    requires IsValidEvent(Get(payload, "type", Str(""))) && MovedToInProgress(payload)
    requires Get(payload, "github_issue", Obj(map[])).Obj?
    requires !HasAssignees(payload)
    ensures ShouldCreatePr(payload) == Ok(false)
  {
  }

  /** Any other destination (compared after lower-casing) is turned away. */
  lemma OtherPipelineNoPr(payload: Payload, pipeline: string)
    requires IsValidEvent(Get(payload, "type", Str("")))
    requires pipeline != "" && AsciiLower(pipeline) != TargetPipeline
    ensures ShouldCreatePr(payload["to_pipeline_name" := Str(pipeline)]) == Ok(false)
  {
  }

  /** The comparison ignores case: two spellings of the destination that
      lower-case alike give the same decision. */
  lemma GateIgnoresCase(payload: Payload, a: string, b: string)
    requires a != "" && b != "" && AsciiLower(a) == AsciiLower(b)
    ensures ShouldCreatePr(payload["to_pipeline_name" := Str(a)]) ==
            ShouldCreatePr(payload["to_pipeline_name" := Str(b)])
  {
  }

  /** "In Progress", "IN PROGRESS" and "in progress" all open the gate for an
      assigned issue. */
  lemma InProgressSpellings(payload: Payload, pipeline: string)
    requires IsValidEvent(Get(payload, "type", Str(""))) && HasAssignees(payload)
    requires pipeline in ["In Progress", "IN PROGRESS", "in progress"]
    ensures ShouldCreatePr(payload["to_pipeline_name" := Str(pipeline)]) == Ok(true)
  {
    InProgressLowers(pipeline);
  }

  lemma InProgressLowers(pipeline: string)
    requires pipeline in ["In Progress", "IN PROGRESS", "in progress"]
    ensures AsciiLower(pipeline) == TargetPipeline
  {
    var lowered := AsciiLower(pipeline);
    assert |lowered| == |TargetPipeline|;
    forall i | 0 <= i < |lowered|
      ensures lowered[i] == TargetPipeline[i]
    {
    }
  }

  /** A `github_assigned` event carries no `to_pipeline_name`; the gate then
      reads the pipeline's `name` inside `zenhub_issue`, and an assigned issue
      whose board record names "In Progress" there opens it. */
  lemma AssignedThroughBoardPipeline(payload: Payload)
    requires Get(payload, "type", Str("")) == Str("github_assigned")
    requires "to_pipeline_name" !in payload
    requires Get(payload, "zenhub_issue", Obj(map[])) == Obj(map["pipeline" := Obj(map["name" := Str("In Progress")])])
    requires HasAssignees(payload)
    ensures ShouldCreatePr(payload) == Ok(true)
  {
    InProgressLowers("In Progress");
    assert Destination(payload) == Ok(Str("In Progress"));
  }

  /** The record `ZenhubEnricher` stores keeps the pipeline's bare name, but
      the gate's fallback reads a `name` inside it. For an event without
      `to_pipeline_name`, a name that is not itself a dictionary (a string, or
      `None`) makes the gate raise instead of deciding. */
  lemma GateRaisesOnEnrichedPipeline(payload: Payload, board: Value)
    requires IsValidEvent(Get(payload, "type", Str("")))
    requires !Truthy(Get(payload, "to_pipeline_name", Str("")))
    requires Enrichers.ProjectBoard(board).Ok?
    requires !Enrichers.ProjectBoard(board).value.fields["pipeline"].Obj?
    ensures ShouldCreatePr(payload[Enrichers.ZenhubKey := Enrichers.ProjectBoard(board).value]).Err?
  {
    var q := payload[Enrichers.ZenhubKey := Enrichers.ProjectBoard(board).value];
    assert Get(q, "type", Str("")) == Get(payload, "type", Str(""));
    assert Get(q, "to_pipeline_name", Str("")) == Get(payload, "to_pipeline_name", Str(""));
  }
}
