/** What the two Markdown generators share: collecting the usable entries of
    a list (labels, assignees) in order, and reading a document's lines back
    section by section. */
module Lines {
  import opened Results
  import opened Text
  import opened PyValues

  /** The entries a `for` loop appends: each item contributes what `pick`
      makes of it, or nothing, in the items' order. */
  function Collect(items: seq<Value>, pick: Value -> Option<Value>): (r: seq<Value>)
    ensures |r| <= |items|
    decreases |items|
  {
    if items == [] then []
    else
      var init := Collect(items[..|items| - 1], pick);
      match pick(items[|items| - 1])
      case Some(x) => init + [x]
      case None => init
  }

  /** Collecting keeps order: the entries of a concatenation are the entries
      of the first part followed by those of the second. */
  lemma {:induction false} CollectConcat(a: seq<Value>, b: seq<Value>, pick: Value -> Option<Value>)
    ensures Collect(a + b, pick) == Collect(a, pick) + Collect(b, pick)
    decreases |b|
  {
    if b == [] {
      assert a + b == a;
    } else {
      var b' := b[..|b| - 1];
      assert (a + b)[..|a + b| - 1] == a + b';
      assert (a + b)[|a + b| - 1] == b[|b| - 1];
      CollectConcat(a, b', pick);
    }
  }

  /** An entry is collected exactly when some item yields it. */
  lemma {:induction false} CollectMembers(items: seq<Value>, pick: Value -> Option<Value>, x: Value)
    ensures x in Collect(items, pick) <==> exists i :: 0 <= i < |items| && pick(items[i]) == Some(x)
    decreases |items|
  {
    if items != [] {
      var init := items[..|items| - 1];
      CollectMembers(init, pick, x);
      if exists i :: 0 <= i < |init| && pick(init[i]) == Some(x) {
        var i :| 0 <= i < |init| && pick(init[i]) == Some(x);
        assert pick(items[i]) == Some(x);
      }
      if exists i :: 0 <= i < |items| && pick(items[i]) == Some(x) {
        var i :| 0 <= i < |items| && pick(items[i]) == Some(x);
        if i < |init| {
          assert init[i] == items[i];
        }
      }
    }
  }

  /** When every item yields an entry, nothing is dropped: the entries are
      the items' yields, one for one. */
  lemma {:induction false} CollectAll(items: seq<Value>, pick: Value -> Option<Value>)
    requires forall i :: 0 <= i < |items| ==> pick(items[i]).Some?
    ensures |Collect(items, pick)| == |items|
    ensures forall i :: 0 <= i < |items| ==> Collect(items, pick)[i] == pick(items[i]).value
    decreases |items|
  {
    if items != [] {
      var init := items[..|items| - 1];
      CollectAll(init, pick);
    }
  }

  /** Nothing is collected from items that all yield nothing. */
  lemma {:induction false} CollectNone(items: seq<Value>, pick: Value -> Option<Value>)
    requires forall i :: 0 <= i < |items| ==> pick(items[i]).None?
    ensures Collect(items, pick) == []
    decreases |items|
  {
    if items != [] {
      CollectNone(items[..|items| - 1], pick);
    }
  }

  /** `payload.get("github_issue", {})`. */
  function Issue(payload: Payload): Value {
    Get(payload, "github_issue", Obj(map[]))
  }

  /** `payload.get("zenhub_issue", {})`. */
  function Board(payload: Payload): Value {
    Get(payload, "zenhub_issue", Obj(map[]))
  }

  /** The entries the loop over a truthy list collects; a falsy value skips
      the loop. */
  function Entries(v: Value, pick: Value -> Option<Value>): Result<seq<Value>> {
    if Truthy(v) then
      var items :- Iterate(v);
      Ok(Collect(items, pick))
    else Ok([])
  }

  /** Each entry formatted as `f"{before}{x}{after}"`. */
  function Formatted(xs: seq<Value>, before: string, after: string): (r: seq<string>)
    ensures |r| == |xs|
  {
    seq(|xs|, i requires 0 <= i < |xs| => before + Render(xs[i]) + after)
  }

  /** Formatting one more entry appends one more string. */
  lemma FormattedSnoc(xs: seq<Value>, x: Value, before: string, after: string)
    ensures Formatted(xs + [x], before, after) == Formatted(xs, before, after) + [before + Render(x) + after]
  {
  }

  /** `", ".join(f"{before}{x}{after}" for x in xs)`. */
  function Listing(xs: seq<Value>, before: string, after: string): string {
    Join(", ", Formatted(xs, before, after))
  }

  // ---------------------------------------------------------------------------
  // Reading lines back

  predicate EndsWith(s: string, suffix: string) {
    |suffix| <= |s| && s[|s| - |suffix|..] == suffix
  }

  lemma StartsWithChar(s: string, prefix: string, i: nat)
    requires StartsWith(s, prefix) && i < |prefix|
    ensures s[i] == prefix[i]
  {
    assert s[..|prefix|][i] == s[i];
  }

  lemma StartsWithConcat(prefix: string, rest: string)
    ensures StartsWith(prefix + rest, prefix)
    ensures (prefix + rest)[|prefix|..] == rest
  {
    assert (prefix + rest)[..|prefix|] == prefix;
  }

  /** A line `prefix + x + suffix` gives back `x`. */
  lemma Between(prefix: string, x: string, suffix: string)
    ensures var s := prefix + x + suffix;
            && StartsWith(s, prefix) && EndsWith(s, suffix) && |prefix| + |suffix| <= |s|
            && s[|prefix|..|s| - |suffix|] == x
  {
    var s := prefix + x + suffix;
    assert s[..|prefix|] == prefix;
    assert s[|s| - |suffix|..] == suffix;
    assert s[|prefix|..|s| - |suffix|] == x;
  }

  /** `"\n".join(lines)` starts with the first line. */
  lemma JoinStartsWithFirst(sep: string, lines: seq<string>)
    requires lines != []
    ensures StartsWith(Join(sep, lines), lines[0])
  {
    if |lines| > 1 {
      StartsWithConcat(lines[0], sep + Join(sep, lines[1..]));
      assert Join(sep, lines) == lines[0] + (sep + Join(sep, lines[1..]));
    }
  }

  /** A joined document ends with its last line. */
  lemma {:induction false} JoinEndsWithLast(sep: string, lines: seq<string>)
    requires lines != []
    ensures EndsWith(Join(sep, lines), lines[|lines| - 1])
    decreases |lines|
  {
    if |lines| > 1 {
      JoinEndsWithLast(sep, lines[1..]);
      var rest := Join(sep, lines[1..]);
      var last := lines[|lines| - 1];
      assert Join(sep, lines) == lines[0] + sep + rest;
      assert (lines[0] + sep + rest)[|lines[0] + sep + rest| - |last|..] == rest[|rest| - |last|..];
    }
  }
}
