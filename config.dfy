/** The comma-separated list settings: `GITHUB_REPOS` (validated when the
    settings are loaded, then read with `get_repos`) and
    `ZENHUB_WORKSPACE_IDS` (read with `get_workspace_ids`). Only the string
    logic is modelled; loading the settings from the environment is not. */
module Config {
  import opened Results
  import opened Text

  const EmptyReposMessage := "GITHUB_REPOS must contain at least one repo in owner/repo format"

  function InvalidRepoMessage(repo: string): string {
    "Invalid repo format: " + repo + ". Expected owner/repo"
  }

  /** `[part.strip() for part in value.split(",")]`. */
  function StrippedParts(value: string): (parts: seq<string>)
    ensures |parts| == |Split(value, ',')| >= 1
    ensures forall i :: 0 <= i < |parts| ==> parts[i] == Strip(Split(value, ',')[i])
  {
    var raw := Split(value, ',');
    seq(|raw|, i requires 0 <= i < |raw| => Strip(raw[i]))
  }

  /** The position of the first part that lacks a '/', if there is one. */
  function FirstWithoutSlash(parts: seq<string>): (r: Option<nat>)
    ensures r.None? <==> forall i :: 0 <= i < |parts| ==> '/' in parts[i]
    ensures r.Some? ==> r.value < |parts| && '/' !in parts[r.value]
    ensures r.Some? ==> forall i :: 0 <= i < r.value ==> '/' in parts[i]
    decreases |parts|
  {
    if parts == [] then None
    else if '/' !in parts[0] then Some(0)
    else match FirstWithoutSlash(parts[1..])
      case None => None
      case Some(i) => Some(i + 1)
  }

  /** `Settings.validate_repos`: an empty or all-whitespace value is
      rejected, and so is a value with a comma-separated part that, once
      stripped, has no '/'; the error names the first such part. An accepted
      value is returned unchanged. */
  function ValidateRepos(value: string): (r: Result<string>)
    ensures r.Ok? ==> r.value == value
    ensures AllSpace(value) ==> r == Err(EmptyReposMessage)
    ensures r.Ok? <==> !AllSpace(value) && forall p :: p in StrippedParts(value) ==> '/' in p
  {
    if value == "" || Strip(value) == "" then Err(EmptyReposMessage)
    else
      var parts := StrippedParts(value);
      match FirstWithoutSlash(parts)
      case Some(i) => Err(InvalidRepoMessage(parts[i]))
      case None => Ok(value)
  }

  /** The non-empty parts, in their original order. */
  function NonEmpty(parts: seq<string>): (r: seq<string>)
    ensures |r| <= |parts|
    ensures forall x :: x in r <==> x in parts && x != ""
    decreases |parts|
  {
    if parts == [] then []
    else if parts[0] == "" then NonEmpty(parts[1..])
    else [parts[0]] + NonEmpty(parts[1..])
  }

  /** `[p.strip() for p in value.split(",") if p.strip()]`. */
  function CleanList(value: string): (items: seq<string>)
    ensures forall i :: 0 <= i < |items| ==> items[i] != "" && Trimmed(items[i])
  {
    var parts := StrippedParts(value);
    NonEmptyTrimmed(parts);
    NonEmpty(parts)
  }

  /** Filtering stripped parts leaves entries that are non-empty and trimmed. */
  lemma {:induction false} NonEmptyTrimmed(parts: seq<string>)
    requires forall i :: 0 <= i < |parts| ==> Trimmed(parts[i])
    ensures forall i :: 0 <= i < |NonEmpty(parts)| ==> NonEmpty(parts)[i] != "" && Trimmed(NonEmpty(parts)[i])
    decreases |parts|
  {
    if parts != [] {
      NonEmptyTrimmed(parts[1..]);
    }
  }

  /** `Settings.get_repos`: the entries of the comma-separated value, each
      non-empty, without surrounding whitespace and without a comma. */
  function GetRepos(githubRepos: string): (repos: seq<string>)
    ensures forall i :: 0 <= i < |repos| ==> repos[i] != "" && Trimmed(repos[i]) && ',' !in repos[i]
  {
    CleanListNoComma(githubRepos);
    CleanList(githubRepos)
  }

  /** `Settings.get_workspace_ids`, with its early return for an empty value.
      The early return changes nothing: both settings are read the same way. */
  function GetWorkspaceIds(workspaceIds: string): (ids: seq<string>)
    ensures ids == GetRepos(workspaceIds)
  {
    if workspaceIds == "" then
      CleanListEmpty();
      []
    else CleanList(workspaceIds)
  }

  /** No entry of a comma-separated list contains a comma. */
  lemma CleanListNoComma(value: string)
    ensures forall i :: 0 <= i < |CleanList(value)| ==> ',' !in CleanList(value)[i]
  {
    var raw := Split(value, ',');
    var parts := StrippedParts(value);
    forall i | 0 <= i < |parts|
      ensures ',' !in parts[i]
    {
      StripChars(raw[i]);
    }
    forall i | 0 <= i < |CleanList(value)|
      ensures ',' !in CleanList(value)[i]
    {
      assert CleanList(value)[i] in NonEmpty(parts);
    }
  }

  // ---------------------------------------------------------------------------
  // Properties

  /** Filtering keeps order: the filter of a concatenation is the
      concatenation of the filters. */
  lemma {:induction false} NonEmptyConcat(a: seq<string>, b: seq<string>)
    ensures NonEmpty(a + b) == NonEmpty(a) + NonEmpty(b)
    decreases |a|
  {
    if a == [] {
      assert a + b == b;
    } else {
      assert (a + b)[1..] == a[1..] + b;
      NonEmptyConcat(a[1..], b);
    }
  }

  lemma {:induction false} NonEmptyOfNonEmpty(parts: seq<string>)
    requires forall i :: 0 <= i < |parts| ==> parts[i] != ""
    ensures NonEmpty(parts) == parts
    decreases |parts|
  {
    if parts != [] {
      NonEmptyOfNonEmpty(parts[1..]);
    }
  }

  /** Every repository `get_repos` returns from a validated value has the
      owner/repo shape, and no part of the value is dropped. */
  lemma ValidatedReposHaveSlash(value: string)
    requires ValidateRepos(value).Ok?
    ensures GetRepos(value) == StrippedParts(value)
    ensures |GetRepos(value)| == |Split(value, ',')| >= 1
    ensures forall r :: r in GetRepos(value) ==> '/' in r
  {
    var parts := StrippedParts(value);
    assert forall i :: 0 <= i < |parts| ==> '/' in parts[i] && parts[i] != "" by {
      forall i | 0 <= i < |parts|
        ensures '/' in parts[i] && parts[i] != ""
      {
        assert parts[i] in parts;
      }
    }
    NonEmptyOfNonEmpty(parts);
  }

  lemma CleanListEmpty()
    ensures CleanList("") == []
  {
    assert Split("", ',') == [""];
    CleanParts("", [""]);
  }

  /** A trailing comma leaves an empty last part, which has no '/'. */
  lemma TrailingCommaRejected(value: string)
    ensures ValidateRepos(value + ",").Err?
  {
    var v := value + ",";
    var raw := Split(v, ',');
    LastPartAfterTrailingComma(value);
    assert Strip(raw[|raw| - 1]) == "";
    assert StrippedParts(v)[|raw| - 1] == "";
    assert "" in StrippedParts(v);
  }

  lemma {:induction false} LastPartAfterTrailingComma(value: string)
    ensures Split(value + ",", ',')[|Split(value + ",", ',')| - 1] == ""
    decreases |value|
  {
    var v := value + ",";
    if value == [] {
      assert Split(",", ',') == [""] + Split("", ',');
    } else {
      assert v[1..] == value[1..] + ",";
      LastPartAfterTrailingComma(value[1..]);
    }
  }

  /** Stripping pieces that are already trimmed changes none of them. */
  lemma CleanParts(value: string, parts: seq<string>)
    requires Split(value, ',') == parts
    requires forall i :: 0 <= i < |parts| ==> Trimmed(parts[i])
    ensures StrippedParts(value) == parts
  {
    forall i | 0 <= i < |parts|
      ensures StrippedParts(value)[i] == parts[i]
    {
      StripTrimmed(parts[i]);
    }
  }

  /** When the pieces between the commas are already trimmed and non-empty,
      the comprehension returns exactly those pieces. */
  lemma CleanListOfCleanParts(value: string, parts: seq<string>)
    requires Split(value, ',') == parts
    requires forall i :: 0 <= i < |parts| ==> parts[i] != "" && Trimmed(parts[i])
    ensures CleanList(value) == parts
  {
    CleanParts(value, parts);
    NonEmptyOfNonEmpty(parts);
  }
}

/** The settings values the configuration tests use, worked through the model. */
module ConfigExamples {
  import opened Results
  import opened Text
  import opened Config

  /** A list written out with commas and no stray spaces reads back as the
      same list, whatever the settings are: `get_repos` and
      `get_workspace_ids` undo `",".join(items)`. */
  lemma CommaListRoundTrip(items: seq<string>)
    requires |items| >= 1
    requires forall i :: 0 <= i < |items| ==> items[i] != "" && Trimmed(items[i]) && ',' !in items[i]
    ensures GetRepos(Join(",", items)) == items
    ensures GetWorkspaceIds(Join(",", items)) == items
  {
    SplitJoin(items, ',');
    CleanListOfCleanParts(Join(",", items), items);
    assert Join(",", items) != "" by {
      JoinNonEmpty(items);
    }
  }

  lemma {:induction false} JoinNonEmpty(items: seq<string>)
    requires |items| >= 1 && items[0] != ""
    ensures Join(",", items) != ""
  {
    if |items| > 1 {
      assert Join(",", items) == items[0] + "," + Join(",", items[1..]);
    }
  }

  lemma EmptyValueGivesNoIds()
    ensures GetWorkspaceIds("") == []
    ensures GetRepos("") == []
  {
    CleanListEmpty();
  }

  lemma ValidateEmptyExample()
    ensures ValidateRepos("") == Err(EmptyReposMessage)
  {
  }

  /** A single entry without a '/' is rejected, and the message names it. */
  lemma SingleEntryWithoutSlash(value: string)
    requires value != "" && Trimmed(value) && ',' !in value && '/' !in value
    ensures ValidateRepos(value) == Err(InvalidRepoMessage(value))
  {
    StrippedNoComma(value);
    assert !AllSpace(value) by {
      assert !IsSpace(value[0]);
    }
  }

  lemma ValidateNoSlashExample()
    ensures ValidateRepos("invalid-repo-format") == Err(InvalidRepoMessage("invalid-repo-format"))
  {
    SingleEntryWithoutSlash("invalid-repo-format");
  }

  lemma ValidateOneRepoExample()
    ensures ValidateRepos("org/repo") == Ok("org/repo")
  {
    StrippedNoComma("org/repo");
    assert "org/repo"[3] == '/';
  }

  lemma StrippedNoComma(value: string)
    requires ',' !in value && Trimmed(value)
    ensures StrippedParts(value) == [value]
  {
    SplitNoSep(value, ',');
    CleanParts(value, [value]);
  }
}
