/** `PRService._generate_branch_name`: `feature/<number>-<slug>`, where the
    slug is the title lower-cased, cut down to ASCII letters, digits, spaces
    and hyphens, its words joined by hyphens and the result cut at 50
    characters. */
module BranchName {
  import opened Results
  import opened Text

  const Prefix := "feature/"
  const MaxSlug := 50

  /** The characters a lower-cased title keeps: ASCII alphanumerics, the
      space and the hyphen. */
  predicate Kept(c: char) {
    IsAsciiAlnum(c) || c == ' ' || c == '-'
  }

  /** The characters a slug is made of. */
  predicate SlugChar(c: char) {
    IsAsciiLower(c) || IsAsciiDigit(c) || c == '-'
  }

  /** The filtering generator: every character that is not kept is dropped,
      the others stay in order. */
  function Sanitize(s: string): (r: string)
    ensures |r| <= |s|
    ensures forall c :: c in r <==> c in s && Kept(c)
    decreases |s|
  {
    if s == [] then []
    else if Kept(s[0]) then [s[0]] + Sanitize(s[1..])
    else Sanitize(s[1..])
  }

  /** The slug of a title. */
  function Slug(title: string): string {
    Take(Join("-", Words(Sanitize(AsciiLower(title)))), MaxSlug)
  }

  /** `_generate_branch_name(issue_number, title)`. */
  function BranchName(issueNumber: int, title: string): (r: string)
    ensures StartsWith(r, Prefix)
  {
    Prefix + IntToString(issueNumber) + "-" + Slug(title)
  }

  // ---------------------------------------------------------------------------
  // Properties

  /** Every character of a hyphen-join comes from a part or is a hyphen. */
  lemma {:induction false} JoinChars(parts: seq<string>, c: char)
    requires c in Join("-", parts)
    ensures c == '-' || exists i :: 0 <= i < |parts| && c in parts[i]
    decreases |parts|
  {
    if |parts| > 1 {
      var rest := Join("-", parts[1..]);
      assert Join("-", parts) == parts[0] + "-" + rest;
      if c in rest {
        JoinChars(parts[1..], c);
        if c != '-' {
          var i :| 0 <= i < |parts[1..]| && c in parts[1..][i];
          assert c in parts[i + 1];
        }
      }
    }
  }

  /** A slug has at most 50 characters, all of them lower-case ASCII letters,
      digits or hyphens; in particular it has no spaces. */
  lemma SlugShape(title: string)
    ensures |Slug(title)| <= MaxSlug
    ensures forall c :: c in Slug(title) ==> SlugChar(c)
  {
    var lowered := AsciiLower(title);
    var kept := Sanitize(lowered);
    var words := Words(kept);
    WordsChars(kept);
    var joined := Join("-", words);
    forall c | c in Slug(title)
      ensures SlugChar(c)
    {
      assert c in joined;
      JoinChars(words, c);
      if c != '-' {
        var i :| 0 <= i < |words| && c in words[i];
        assert c in kept && !IsSpace(c);
        var j :| 0 <= j < |lowered| && lowered[j] == c;
        assert c == AsciiLowerChar(title[j]);
      }
    }
  }

  /** Filtering a string whose characters are all kept changes nothing. */
  lemma {:induction false} SanitizeKeeps(s: string)
    requires forall c :: c in s ==> Kept(c)
    ensures Sanitize(s) == s
    decreases |s|
  {
    if s != [] {
      assert forall c :: c in s[1..] ==> c in s;
      SanitizeKeeps(s[1..]);
    }
  }

  /** A string without whitespace is a single word (or none when empty). */
  lemma {:induction false} WordsOfWord(s: string)
    requires NoSpace(s)
    ensures Words(s) == if s == [] then [] else [s]
  {
    if s != [] {
      var n := WordLen(s);
      assert n == |s|;
      assert s[n..] == [];
      assert s[..n] == s;
    }
  }

  /** Slugging a slug gives it back: the slug is a fixed point. */
  lemma SlugIdempotent(title: string)
    ensures Slug(Slug(title)) == Slug(title)
  {
    var s := Slug(title);
    SlugShape(title);
    assert forall c :: c in s ==> Kept(c) by {
      forall c | c in s
        ensures Kept(c)
      {
        assert SlugChar(c);
      }
    }
    assert AsciiLower(s) == s by {
      forall i | 0 <= i < |s|
        ensures AsciiLower(s)[i] == s[i]
      {
        assert SlugChar(s[i]);
      }
    }
    SanitizeKeeps(s);
    assert NoSpace(s) by {
      forall i | 0 <= i < |s|
        ensures !IsSpace(s[i])
      {
        assert SlugChar(s[i]);
      }
    }
    WordsOfWord(s);
  }

  /** The issue number can be read back from the branch name: the digits
      between the prefix and the first hyphen after it. */
  function BranchNumber(branch: string): Option<int> {
    if !StartsWith(branch, Prefix) then None
    else ParseInt(Split(branch[|Prefix|..], '-')[0])
  }

  lemma {:induction false} SplitFirst(a: string, b: string)
    requires '-' !in a
    ensures Split(a + "-" + b, '-')[0] == a
  {
    assert a + "-" + b == a + (['-'] + b);
    SplitCons(a, b, '-');
  }

  /** Reading the number back from a branch name gives the issue number. */
  lemma BranchNumberRoundTrip(issueNumber: nat, title: string)
    ensures BranchNumber(BranchName(issueNumber, title)) == Some(issueNumber)
  {
    var digits := IntToString(issueNumber);
    var branch := BranchName(issueNumber, title);
    assert branch[|Prefix|..] == digits + "-" + Slug(title);
    assert '-' !in digits by {
      assert AllDigits(digits);
    }
    SplitFirst(digits, Slug(title));
    ParseIntRoundTrip(issueNumber);
  }

  /** A word followed by a space and more text is the first word. */
  lemma {:induction false} WordsCons(w: string, rest: string)
    requires w != [] && NoSpace(w)
    ensures Words(w + " " + rest) == [w] + Words(rest)
  {
    var s := w + " " + rest;
    var n := WordLen(s);
    assert s[..|w|] == w;
    assert IsSpace(s[|w|]);
    assert n == |w|;
    assert s[n..] == " " + rest;
    assert (" " + rest)[1..] == rest;
  }

  // Each step on a literal string is a lemma of its own, so that every proof obligation stays small.
  lemma LowerSpacedHyphen()
    ensures AsciiLower("a - b") == "a - b"
  {
  }

  lemma SanitizeSpacedHyphen()
    ensures Sanitize("a - b") == "a - b"
  {
    SanitizeKeeps("a - b");
  }

  lemma WordsHyphenB()
    ensures Words("- b") == ["-", "b"]
  {
    WordsOfWord("b");
    WordsCons("-", "b");
    assert "-" + " " + "b" == "- b";
  }

  lemma WordsSpacedHyphen()
    ensures Words("a - b") == ["a", "-", "b"]
  {
    WordsHyphenB();
    WordsCons("a", "- b");
    assert "a" + " " + "- b" == "a - b";
  }

  lemma JoinSpacedHyphen()
    ensures Join("-", ["a", "-", "b"]) == "a---b"
  {
    assert ["a", "-", "b"][1..] == ["-", "b"];
  }

  /** Hyphens already in the title are kept, so a title with a spaced hyphen
      gives three hyphens in a row: the words of "a - b" are "a", "-", "b". */
  lemma SpacedHyphenTriples()
    ensures Slug("a - b") == "a---b"
  {
    LowerSpacedHyphen();
    SanitizeSpacedHyphen();
    WordsSpacedHyphen();
    JoinSpacedHyphen();
  }

  // ---------------------------------------------------------------------------
  // The sanitising test title, "Fix: Add @special & chars!", worked out for
  // any four alphanumeric words in its place.

  /** A word a slug keeps whole: ASCII letters, digits and hyphens. */
  predicate AlnumWord(w: string) {
    forall i :: 0 <= i < |w| ==> IsAsciiAlnum(w[i]) || w[i] == '-'
  }

  lemma {:induction false} SanitizeConcat(a: string, b: string)
    ensures Sanitize(a + b) == Sanitize(a) + Sanitize(b)
    decreases |a|
  {
    if a == [] {
      assert a + b == b;
    } else {
      assert (a + b)[1..] == a[1..] + b;
      SanitizeConcat(a[1..], b);
    }
  }

  lemma AsciiLowerConcat(a: string, b: string)
    ensures AsciiLower(a + b) == AsciiLower(a) + AsciiLower(b)
  {
  }

  lemma LowerSanitizeConcat(a: string, b: string)
    ensures Sanitize(AsciiLower(a + b)) == Sanitize(AsciiLower(a)) + Sanitize(AsciiLower(b))
  {
    AsciiLowerConcat(a, b);
    SanitizeConcat(AsciiLower(a), AsciiLower(b));
  }

  lemma LowerAlnumWord(w: string)
    requires AlnumWord(w)
    ensures NoSpace(AsciiLower(w))
    ensures forall c :: c in AsciiLower(w) ==> Kept(c)
  {
  }

  /** A word followed by a separator: the word is lower-cased, and the
      separator keeps only its spaces. */
  lemma WordThenSeparator(w: string, sep: string, kept: string)
    requires AlnumWord(w)
    requires AsciiLower(sep) == sep && Sanitize(sep) == kept
    ensures Sanitize(AsciiLower(w + sep)) == AsciiLower(w) + kept
  {
    AsciiLowerConcat(w, sep);
    SanitizeConcat(AsciiLower(w), sep);
    LowerAlnumWord(w);
    SanitizeKeeps(AsciiLower(w));
  }

  // Each step on a literal string is a lemma of its own, so that every proof obligation stays small.
  lemma ColonSpace()
    ensures AsciiLower(": ") == ": " && Sanitize(": ") == " "
  {
  }

  lemma SpaceAt()
    ensures AsciiLower(" @") == " @" && Sanitize(" @") == " "
  {
  }

  lemma SpacedAmpersand()
    ensures AsciiLower(" & ") == " & " && Sanitize(" & ") == "  "
  {
  }

  lemma Bang()
    ensures AsciiLower("!") == "!" && Sanitize("!") == ""
  {
  }

  lemma SanitizedSpecialChars(w1: string, w2: string, w3: string, w4: string)
    requires AlnumWord(w1) && AlnumWord(w2) && AlnumWord(w3) && AlnumWord(w4)
    ensures Sanitize(AsciiLower((w1 + ": ") + ((w2 + " @") + ((w3 + " & ") + (w4 + "!"))))) ==
            (AsciiLower(w1) + " ") + ((AsciiLower(w2) + " ") + ((AsciiLower(w3) + "  ") + AsciiLower(w4)))
  {
    ColonSpace();
    SpaceAt();
    SpacedAmpersand();
    Bang();
    var p1, p2, p3, p4 := w1 + ": ", w2 + " @", w3 + " & ", w4 + "!";
    WordThenSeparator(w1, ": ", " ");
    WordThenSeparator(w2, " @", " ");
    WordThenSeparator(w3, " & ", "  ");
    WordThenSeparator(w4, "!", "");
    assert AsciiLower(w4) + "" == AsciiLower(w4);
    LowerSanitizeConcat(p3, p4);
    LowerSanitizeConcat(p2, p3 + p4);
    LowerSanitizeConcat(p1, p2 + (p3 + p4));
  }

  lemma FourWords(l1: string, l2: string, l3: string, l4: string)
    requires l1 != [] && l2 != [] && l3 != [] && l4 != []
    requires NoSpace(l1) && NoSpace(l2) && NoSpace(l3) && NoSpace(l4)
    ensures Words((l1 + " ") + ((l2 + " ") + ((l3 + "  ") + l4))) == [l1, l2, l3, l4]
  {
    var r3 := " " + l4;
    WordsOfWord(l4);
    assert Words(r3) == [l4] by {
      assert r3[1..] == l4;
    }
    WordsCons(l3, r3);
    var r2 := (l3 + "  ") + l4;
    assert r2 == (l3 + " ") + r3 by {
      assert "  " == " " + " ";
    }
    assert Words(r2) == [l3, l4];
    WordsCons(l2, r2);
    var r1 := (l2 + " ") + r2;
    assert Words(r1) == [l2, l3, l4];
    WordsCons(l1, r1);
  }

  lemma JoinLength4(l1: string, l2: string, l3: string, l4: string)
    ensures |Join("-", [l1, l2, l3, l4])| == |l1| + |l2| + |l3| + |l4| + 3
  {
    assert [l1, l2, l3, l4][1..] == [l2, l3, l4];
    assert [l2, l3, l4][1..] == [l3, l4];
    assert [l3, l4][1..] == [l4];
    assert Join("-", [l3, l4]) == l3 + "-" + l4;
    assert Join("-", [l2, l3, l4]) == l2 + "-" + Join("-", [l3, l4]);
    assert Join("-", [l1, l2, l3, l4]) == l1 + "-" + Join("-", [l2, l3, l4]);
  }

  /** Punctuation and symbols are dropped, words are lower-cased and joined
      by single hyphens, whatever the four words are. */
  lemma SpecialCharsDropped(w1: string, w2: string, w3: string, w4: string)
    requires w1 != [] && w2 != [] && w3 != [] && w4 != []
    requires AlnumWord(w1) && AlnumWord(w2) && AlnumWord(w3) && AlnumWord(w4)
    requires |w1| + |w2| + |w3| + |w4| + 3 <= MaxSlug
    ensures Slug((w1 + ": ") + ((w2 + " @") + ((w3 + " & ") + (w4 + "!")))) ==
            Join("-", [AsciiLower(w1), AsciiLower(w2), AsciiLower(w3), AsciiLower(w4)])
  {
    SanitizedSpecialChars(w1, w2, w3, w4);
    LowerAlnumWord(w1);
    LowerAlnumWord(w2);
    LowerAlnumWord(w3);
    LowerAlnumWord(w4);
    var l1, l2, l3, l4 := AsciiLower(w1), AsciiLower(w2), AsciiLower(w3), AsciiLower(w4);
    FourWords(l1, l2, l3, l4);
    JoinLength4(l1, l2, l3, l4);
  }

  // Each step on a literal string is a lemma of its own, so that every proof obligation stays small.
  lemma TestWordsLowered()
    ensures AsciiLower("Fix") == "fix" && AsciiLower("Add") == "add"
    ensures AsciiLower("special") == "special" && AsciiLower("chars") == "chars"
  {
  }

  lemma TestTitlePieces()
    ensures ("Fix" + ": ") + (("Add" + " @") + (("special" + " & ") + ("chars" + "!"))) ==
            "Fix: Add @special & chars!"
  {
  }

  lemma TestSlugJoined()
    ensures Join("-", ["fix", "add", "special", "chars"]) == "fix-add-special-chars"
  {
    var ws := ["fix", "add", "special", "chars"];
    assert ws[1..] == ["add", "special", "chars"];
    assert ws[2..] == ["special", "chars"];
    assert ws[3..] == ["chars"];
  }

  lemma SpecialCharsSlug()
    ensures Slug("Fix: Add @special & chars!") == "fix-add-special-chars"
  {
    TestTitlePieces();
    SpecialCharsDropped("Fix", "Add", "special", "chars");
    TestWordsLowered();
    TestSlugJoined();
  }

  lemma Digits123()
    ensures IntToString(123) == "123"
  {
  }

  lemma BranchNameOf(n: int, title: string, digits: string, slug: string)
    requires IntToString(n) == digits && Slug(title) == slug
    ensures BranchName(n, title) == Prefix + digits + "-" + slug
  {
  }

  /** The sanitising test: issue 123 titled "Fix: Add @special & chars!". */
  lemma SpecialCharsExample()
    ensures BranchName(123, "Fix: Add @special & chars!") == "feature/123-fix-add-special-chars"
  {
    SpecialCharsSlug();
    Digits123();
    BranchNameOf(123, "Fix: Add @special & chars!", "123", "fix-add-special-chars");
    ExpectedBranch();
  }

  lemma ExpectedBranch()
    ensures Prefix + "123" + "-" + "fix-add-special-chars" == "feature/123-fix-add-special-chars"
  {
  }

  // The non-ASCII test title, "Support UTF-8 émojis 🎉", worked out for any
  // three words and any two characters a slug drops.

  lemma DroppedChar(x: char)
    requires !Kept(x)
    ensures Sanitize(AsciiLower([x])) == []
  {
    assert AsciiLower([x]) == [x];
  }

  lemma SanitizedDroppedChars(w1: string, w2: string, w3: string, x: char, y: char)
    requires AlnumWord(w1) && AlnumWord(w2) && AlnumWord(w3) && !Kept(x) && !Kept(y)
    ensures Sanitize(AsciiLower((w1 + " ") + ((w2 + " ") + (([x] + w3) + (" " + [y]))))) ==
            (AsciiLower(w1) + " ") + ((AsciiLower(w2) + " ") + (AsciiLower(w3) + " "))
  {
    assert AsciiLower(" ") == " " && Sanitize(" ") == " ";
    WordThenSeparator(w1, " ", " ");
    WordThenSeparator(w2, " ", " ");
    DroppedChar(x);
    DroppedChar(y);
    LowerAlnumWord(w3);
    SanitizeKeeps(AsciiLower(w3));
    LowerSanitizeConcat([x], w3);
    assert [] + AsciiLower(w3) == AsciiLower(w3);
    LowerSanitizeConcat(" ", [y]);
    assert " " + [] == " ";
    var p3, p4 := [x] + w3, " " + [y];
    LowerSanitizeConcat(p3, p4);
    LowerSanitizeConcat(w2 + " ", p3 + p4);
    LowerSanitizeConcat(w1 + " ", (w2 + " ") + (p3 + p4));
  }

  lemma ThreeWords(l1: string, l2: string, l3: string)
    requires l1 != [] && l2 != [] && l3 != []
    requires NoSpace(l1) && NoSpace(l2) && NoSpace(l3)
    ensures Words((l1 + " ") + ((l2 + " ") + (l3 + " "))) == [l1, l2, l3]
  {
    WordsCons(l3, "");
    assert (l3 + " ") + "" == l3 + " ";
    WordsCons(l2, l3 + " ");
    WordsCons(l1, (l2 + " ") + (l3 + " "));
  }

  lemma JoinLength3(l1: string, l2: string, l3: string)
    ensures |Join("-", [l1, l2, l3])| == |l1| + |l2| + |l3| + 2
  {
    assert [l1, l2, l3][1..] == [l2, l3];
    assert [l2, l3][1..] == [l3];
    assert Join("-", [l2, l3]) == l2 + "-" + l3;
    assert Join("-", [l1, l2, l3]) == l1 + "-" + Join("-", [l2, l3]);
  }

  /** Characters outside ASCII are dropped, even in the middle of a word, and
      a dropped character at the end leaves no trailing hyphen. */
  lemma NonAsciiDropped(w1: string, w2: string, w3: string, x: char, y: char)
    requires w1 != [] && w2 != [] && w3 != []
    requires AlnumWord(w1) && AlnumWord(w2) && AlnumWord(w3) && !Kept(x) && !Kept(y)
    requires |w1| + |w2| + |w3| + 2 <= MaxSlug
    ensures Slug((w1 + " ") + ((w2 + " ") + (([x] + w3) + (" " + [y])))) ==
            Join("-", [AsciiLower(w1), AsciiLower(w2), AsciiLower(w3)])
  {
    SanitizedDroppedChars(w1, w2, w3, x, y);
    LowerAlnumWord(w1);
    LowerAlnumWord(w2);
    LowerAlnumWord(w3);
    ThreeWords(AsciiLower(w1), AsciiLower(w2), AsciiLower(w3));
    JoinLength3(AsciiLower(w1), AsciiLower(w2), AsciiLower(w3));
  }

  // Each step on a literal string is a lemma of its own, so that every proof obligation stays small.
  lemma EmojiTitlePieces()
    ensures ("Support" + " ") + (("UTF-8" + " ") + (("\U{E9}" + "mojis") + (" " + "\U{1F389}"))) ==
            "Support UTF-8 \U{E9}mojis \U{1F389}"
  {
  }

  lemma EmojiWordsLowered()
    ensures AsciiLower("Support") == "support" && AsciiLower("UTF-8") == "utf-8"
    ensures AsciiLower("mojis") == "mojis"
  {
  }

  lemma EmojiSlugJoined()
    ensures Join("-", ["support", "utf-8", "mojis"]) == "support-utf-8-mojis"
  {
    var ws := ["support", "utf-8", "mojis"];
    assert ws[1..] == ["utf-8", "mojis"];
    assert ws[2..] == ["mojis"];
  }

  lemma EmojiSlug()
    ensures Slug("Support UTF-8 \U{E9}mojis \U{1F389}") == "support-utf-8-mojis"
  {
    EmojiTitlePieces();
    assert "\U{E9}" == ['\U{E9}'] && "\U{1F389}" == ['\U{1F389}'];
    NonAsciiDropped("Support", "UTF-8", "mojis", '\U{E9}', '\U{1F389}');
    EmojiWordsLowered();
    EmojiSlugJoined();
  }

  lemma Digits789()
    ensures IntToString(789) == "789"
  {
  }

  lemma ExpectedEmojiBranch()
    ensures Prefix + "789" + "-" + "support-utf-8-mojis" == "feature/789-support-utf-8-mojis"
  {
  }

  /** The non-ASCII test: issue 789 titled "Support UTF-8 émojis 🎉". */
  lemma EmojiExample()
    ensures BranchName(789, "Support UTF-8 \U{E9}mojis \U{1F389}") == "feature/789-support-utf-8-mojis"
  {
    EmojiSlug();
    Digits789();
    BranchNameOf(789, "Support UTF-8 \U{E9}mojis \U{1F389}", "789", "support-utf-8-mojis");
    ExpectedEmojiBranch();
  }
}
