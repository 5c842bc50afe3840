/** The text each catalog item's embedding is computed from: a sentence-like
    template over the item's fields, in which every run of whitespace is
    then replaced by one space. */
module Summary {
  import opened Text
  import opened Catalog

  /** The non-whitespace characters of `s`, in order. */
  function NonWhitespace(s: string): string {
    if s == [] then []
    else (if IsWhitespace(s[0]) then [] else [s[0]]) + NonWhitespace(s[1..])
  }

  /** Whitespace occurs only as single spaces. */
  ghost predicate Normalized(s: string) {
    forall i :: 0 <= i < |s| && IsWhitespace(s[i]) ==>
      s[i] == ' ' && (i + 1 < |s| ==> !IsWhitespace(s[i + 1]))
  }

  /** `s` without its leading whitespace. */
  function SkipWhitespace(s: string): (r: string)
    ensures |r| <= |s|
    ensures r == [] || !IsWhitespace(r[0])
  {
    if s != [] && IsWhitespace(s[0]) then SkipWhitespace(s[1..]) else s
  }

  /** What SkipWhitespace drops is a run of whitespace and what it keeps is
      the rest of `s`. */
  lemma {:induction false} SkipWhitespaceSplits(s: string)
    ensures SkipWhitespace(s) == s[|s| - |SkipWhitespace(s)|..]
    ensures forall i :: 0 <= i < |s| - |SkipWhitespace(s)| ==> IsWhitespace(s[i])
  {
    if s != [] && IsWhitespace(s[0]) {
      SkipWhitespaceSplits(s[1..]);
    }
  }

  /** `s.replace(/\s+/g, " ")`. */
  function Collapse(s: string): string
    decreases |s|
  {
    if s == [] then []
    else if IsWhitespace(s[0]) then [' '] + Collapse(SkipWhitespace(s[1..]))
    else [s[0]] + Collapse(s[1..])
  }

  /** After the replacement no two whitespace characters are adjacent and the
      only whitespace left is the plain space; a string keeps its first
      character's kind. */
  lemma NormalizedCons(x: char, s: string)
    requires Normalized(s)
    requires IsWhitespace(x) ==> x == ' ' && (s == [] || !IsWhitespace(s[0]))
    ensures Normalized([x] + s)
  {
    var t := [x] + s;
    forall i | 0 <= i < |t| && IsWhitespace(t[i])
      ensures t[i] == ' ' && (i + 1 < |t| ==> !IsWhitespace(t[i + 1]))
    {
      if i > 0 {
        assert t[i] == s[i - 1];
        assert i + 1 < |t| ==> t[i + 1] == s[i];
      }
    }
  }

  /** After the replacement no two whitespace characters are adjacent and the
      only whitespace left is the plain space; a string keeps its first
      character's kind. */
  lemma {:induction false} CollapseNormalizes(s: string)
    ensures Normalized(Collapse(s))
    ensures Collapse(s) == [] <==> s == []
    ensures s != [] ==> (IsWhitespace(Collapse(s)[0]) <==> IsWhitespace(s[0]))
    ensures s != [] && IsWhitespace(s[0]) ==> Collapse(s)[0] == ' '
    decreases |s|
  {
    if s != [] {
      if IsWhitespace(s[0]) {
        var t := SkipWhitespace(s[1..]);
        CollapseNormalizes(t);
        NormalizedCons(' ', Collapse(t));
      } else {
        CollapseNormalizes(s[1..]);
        NormalizedCons(s[0], Collapse(s[1..]));
      }
    }
  }

  lemma {:induction false} NonWhitespaceSkip(s: string)
    ensures NonWhitespace(SkipWhitespace(s)) == NonWhitespace(s)
  {
    if s != [] && IsWhitespace(s[0]) {
      NonWhitespaceSkip(s[1..]);
    }
  }

  /** Only whitespace is altered: the other characters survive, in order. */
  lemma {:induction false} CollapseKeepsNonWhitespace(s: string)
    ensures NonWhitespace(Collapse(s)) == NonWhitespace(s)
    decreases |s|
  {
    if s != [] {
      if IsWhitespace(s[0]) {
        var t := SkipWhitespace(s[1..]);
        CollapseKeepsNonWhitespace(t);
        NonWhitespaceSkip(s[1..]);
        assert ([' '] + Collapse(t))[1..] == Collapse(t);
      } else {
        CollapseKeepsNonWhitespace(s[1..]);
        assert ([s[0]] + Collapse(s[1..]))[1..] == Collapse(s[1..]);
      }
    }
  }

  /** A normalized string is left as it is. */
  lemma {:induction false} CollapseFixesNormalized(s: string)
    requires Normalized(s)
    ensures Collapse(s) == s
  {
    if s != [] {
      assert Normalized(s[1..]) by {
        forall i | 0 <= i < |s[1..]| && IsWhitespace(s[1..][i])
          ensures s[1..][i] == ' ' && (i + 1 < |s[1..]| ==> !IsWhitespace(s[1..][i + 1]))
        {
          assert s[1..][i] == s[i + 1];
        }
      }
      CollapseFixesNormalized(s[1..]);
      if IsWhitespace(s[0]) {
        assert SkipWhitespace(s[1..]) == s[1..];
      }
    }
  }

  /** Replacing twice changes nothing more. */
  lemma CollapseIdempotent(s: string)
    ensures Collapse(Collapse(s)) == Collapse(s)
  {
    CollapseNormalizes(s);
    CollapseFixesNormalized(Collapse(s));
  }

  lemma {:induction false} SkipWhitespaceAppend(a: string, b: string)
    ensures SkipWhitespace(a + b) ==
      if SkipWhitespace(a) != [] then SkipWhitespace(a) + b else SkipWhitespace(b)
  {
    if a != [] && IsWhitespace(a[0]) {
      assert (a + b)[1..] == a[1..] + b;
      SkipWhitespaceAppend(a[1..], b);
    } else if a == [] {
      assert a + b == b;
    }
  }

  /** Two strings are collapsed independently when their junction is not
      inside a whitespace run. */
  lemma {:induction false} CollapseAppend(a: string, b: string)
    requires a == [] || b == [] || !IsWhitespace(a[|a| - 1]) || !IsWhitespace(b[0])
    ensures Collapse(a + b) == Collapse(a) + Collapse(b)
    decreases |a|
  {
    if a == [] {
      assert a + b == b;
    } else if !IsWhitespace(a[0]) {
      CollapseAppend(a[1..], b);
      CollapseAppendAtChar(a, b);
    } else if SkipWhitespace(a[1..]) != [] {
      RunRestEndsLikeA(a);
      CollapseAppend(SkipWhitespace(a[1..]), b);
      CollapseAppendAfterRun(a, b);
    } else {
      CollapseAppendWholeRun(a, b);
    }
  }

  /** The step of CollapseAppend for an `a` that starts with a character
      other than whitespace. */
  lemma CollapseAppendAtChar(a: string, b: string)
    requires a != [] && !IsWhitespace(a[0])
    requires Collapse(a[1..] + b) == Collapse(a[1..]) + Collapse(b)
    ensures Collapse(a + b) == Collapse(a) + Collapse(b)
  {
    assert (a + b)[1..] == a[1..] + b;
    assert Collapse(a + b) == [a[0]] + Collapse(a[1..] + b);
  }

  /** What follows the leading run of `a`, when not empty, ends as `a`
      does. */
  lemma RunRestEndsLikeA(a: string)
    requires a != [] && SkipWhitespace(a[1..]) != []
    ensures var rest := SkipWhitespace(a[1..]);
      rest[|rest| - 1] == a[|a| - 1]
  {
    SkipWhitespaceSplits(a[1..]);
  }

  /** One unfolding of Collapse at a leading whitespace character. */
  lemma CollapseAtRun(a: string, b: string)
    requires a != [] && IsWhitespace(a[0])
    ensures Collapse(a + b) == [' '] + Collapse(SkipWhitespace(a[1..] + b))
    ensures Collapse(a) == [' '] + Collapse(SkipWhitespace(a[1..]))
  {
    assert (a + b)[1..] == a[1..] + b;
  }

  /** If `a` is all whitespace, the junction condition puts no whitespace
      at the start of `b`. */
  lemma RunEndsAtJunction(a: string, b: string)
    requires a != [] && IsWhitespace(a[0]) && SkipWhitespace(a[1..]) == []
    requires b == [] || !IsWhitespace(a[|a| - 1]) || !IsWhitespace(b[0])
    ensures SkipWhitespace(b) == b
  {
    var tail := a[1..];
    if |a| > 1 {
      SkipWhitespaceSplits(tail);
      assert a[|a| - 1] == tail[|tail| - 1];
    }
  }

  /** The step of CollapseAppend for an `a` that starts with whitespace and
      has something after that run. */
  lemma CollapseAppendAfterRun(a: string, b: string)
    requires a != [] && IsWhitespace(a[0]) && SkipWhitespace(a[1..]) != []
    requires Collapse(SkipWhitespace(a[1..]) + b) == Collapse(SkipWhitespace(a[1..])) + Collapse(b)
    ensures Collapse(a + b) == Collapse(a) + Collapse(b)
  {
    var rest := SkipWhitespace(a[1..]);
    CollapseAtRun(a, b);
    SkipWhitespaceAppend(a[1..], b);
    SpaceRegroup(Collapse(a + b), Collapse(rest + b), Collapse(rest), Collapse(b), Collapse(a));
  }

  /** Regrouping a leading space: from x = " " + (z + w) and u = " " + z
      follows x = u + w. */
  lemma SpaceRegroup(x: string, y: string, z: string, w: string, u: string)
    requires x == [' '] + y && y == z + w && u == [' '] + z
    ensures x == u + w
  {
  }

  /** The step of CollapseAppend for an `a` made only of whitespace. */
  lemma CollapseAppendWholeRun(a: string, b: string)
    requires a != [] && IsWhitespace(a[0]) && SkipWhitespace(a[1..]) == []
    requires b == [] || !IsWhitespace(a[|a| - 1]) || !IsWhitespace(b[0])
    ensures Collapse(a + b) == Collapse(a) + Collapse(b)
  {
    CollapseAtRun(a, b);
    SkipWhitespaceAppend(a[1..], b);
    RunEndsAtJunction(a, b);
  }

  /** A non-empty run of whitespace becomes one space. */
  lemma CollapseRun(w: string)
    requires w != [] && forall i :: 0 <= i < |w| ==> IsWhitespace(w[i])
    ensures Collapse(w) == " "
  {
    assert SkipWhitespace(w[1..]) == [];
  }

  lemma CollapseClosingLine()
    ensures Collapse(".\n    ") == ". "
  {
    assert ".\n    "[1..] == "\n    ";
    CollapseRun("\n    ");
  }

  /** Closing the template with ".\n    " leaves ". " at the end. */
  lemma CollapseClosing(lines: string)
    requires lines != [] && IsWhitespace(lines[0])
    ensures Collapse(lines + ".\n    ") == Collapse(lines) + ". "
    ensures Collapse(lines) != [] && Collapse(lines)[0] == ' '
  {
    CollapseAppend(lines, ".\n    ");
    CollapseClosingLine();
    CollapseNormalizes(lines);
  }

  /** Collapsing lines that open with whitespace and are closed by
      ".\n    ": single spaces only, the same other characters, one leading
      space before a non-space and a closing ". ". */
  lemma CollapseTemplate(lines: string)
    requires lines != [] && IsWhitespace(lines[0])
    ensures var r := Collapse(lines + ".\n    ");
      && Normalized(r) && NonWhitespace(r) == NonWhitespace(lines + ".\n    ")
      && |r| >= 3 && r[0] == ' ' && !IsWhitespace(r[1]) && r[|r| - 2..] == ". "
  {
    var t := lines + ".\n    ";
    CollapseClosing(lines);
    CollapseNormalizes(t);
    CollapseKeepsNonWhitespace(t);
  }

  /** One review as the summary renders it. */
  function ReviewText(r: Review): string {
    "Rated " + IntToString(r.rating) + "/5 on " + r.reviewDate + ": " + r.comment
  }

  function ReviewTexts(rs: seq<Review>): (texts: seq<string>)
    ensures |texts| == |rs| && forall i :: 0 <= i < |rs| ==> texts[i] == ReviewText(rs[i])
  {
    seq(|rs|, i requires 0 <= i < |rs| => ReviewText(rs[i]))
  }

  /** `item.user_reviews.map(...).join(" ")`. */
  function ReviewsText(rs: seq<Review>): string {
    Join(" ", ReviewTexts(rs))
  }

  /** Reviews are rendered in input order: one more review adds its text
      after a single space. */
  lemma ReviewsInOrder(rs: seq<Review>, r: Review)
    requires rs != []
    ensures ReviewsText(rs + [r]) == ReviewsText(rs) + " " + ReviewText(r)
  {
    assert ReviewTexts(rs + [r]) == ReviewTexts(rs) + [ReviewText(r)];
    JoinSnoc(" ", ReviewTexts(rs), ReviewText(r));
  }

  /** The lines of the template literal up to the value of the notes field:
      each line starts with a line break and six spaces of indentation, and
      all but the last end with a space. */
  function SummaryLines(item: Item): string {
    "\n      " + item.title + " by " + item.brand + ". "
    + "\n      Description: " + item.description + ". "
    + "\n      Material: " + item.material + ". "
    + "\n      Sizes: " + Join(", ", item.sizeOptions) + "; "
    + "\n      Colors: " + Join(", ", item.colorOptions) + ". "
    + "\n      Categories: " + Join(", ", item.categories) + ". "
    + "\n      For: " + AudienceName(item.targetAudience) + ". "
    + "\n      Price: " + IntToString(item.price.actual) + " USD (Sale: "
    + IntToString(item.price.sale) + " USD). "
    + "\n      Reviews: " + ReviewsText(item.userReviews) + ". "
    + "\n      Notes: " + item.notes
  }

  /** The whole template literal before the replacement: the last line ends
      with a full stop, then a line break and four spaces close it. */
  function SummaryTemplate(item: Item): string {
    SummaryLines(item) + ".\n    "
  }

  /** `createItemSummary(item)`: the template with whitespace runs collapsed.
      The result is not trimmed: it starts with a single space (from the
      template's opening line break and indentation) and ends with ". ". */
  function ItemSummary(item: Item): (r: string)
    ensures Normalized(r)
    ensures NonWhitespace(r) == NonWhitespace(SummaryTemplate(item))
    ensures |r| >= 3 && r[0] == ' ' && !IsWhitespace(r[1])
    ensures r[|r| - 2..] == ". "
  {
    CollapseTemplate(SummaryLines(item));
    Collapse(SummaryTemplate(item))
  }

  /** The document the seeding script stores for an item: the item's fields
      with its summary as the embedding text. */
  function SeedDoc(item: Item): (d: Doc)
    ensures d.item == item && d.embeddingText == ItemSummary(item)
    ensures Normalized(d.embeddingText)
  {
    Doc(item, ItemSummary(item))
  }
}
