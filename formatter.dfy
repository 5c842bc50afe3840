/** Turns the content of the conversation's final message into the text
    sent back to the customer. `JSON.stringify` is not modelled: the two
    renderings it is used for are parameters. */
module Formatter {
  import opened Errors
  import opened Text
  import opened Catalog
  import opened Messages

  /** The error destructuring `null` throws. */
  const NullDestructuring :=
    Error(None, "Cannot destructure property 'results' of 'rawResponse' as it is null.")

  /** The `categoryEmoji` table. */
  function AudienceEmoji(a: Audience): string {
    match a
    case Women => "👩"
    case Men => "👨"
    case Boys => "🧒"
    case Girls => "👧"
  }

  function TitleLine(r: Item): string {
    "⭐ **" + r.title + "** by " + r.brand + "\n"
  }

  function PriceLine(r: Item): string {
    "• Price: $" + IntToString(r.price.sale) + " (Original: $" + IntToString(r.price.actual) + ")\n"
  }

  function SizesLine(r: Item): string {
    "• Sizes: " + Join(", ", r.sizeOptions) + "\n"
  }

  function ColorsLine(r: Item): string {
    "• Colors: " + Join(", ", r.colorOptions) + "\n"
  }

  function MaterialLine(r: Item): string {
    "• Material: " + r.material + "\n"
  }

  function AudienceLine(r: Item): string {
    "• Target Audience: " + AudienceEmoji(r.targetAudience) + " " + AudienceName(r.targetAudience) + "\n"
  }

  /** The lines of an item block above its reviews. */
  function ItemHeader(r: Item): string {
    TitleLine(r) + PriceLine(r) + SizesLine(r) + ColorsLine(r) + MaterialLine(r) + AudienceLine(r)
  }

  function ReviewLine(rev: Review): string {
    "   - " + IntToString(rev.rating) + "/5: \"" + rev.comment + "\" (" + rev.reviewDate + ")\n"
  }

  /** The review lines of `reviews`, one after the other. */
  function ReviewLines(reviews: seq<Review>): string {
    if reviews == [] then "" else ReviewLines(reviews[..|reviews| - 1]) + ReviewLine(reviews[|reviews| - 1])
  }

  /** The first two reviews (`slice(0, 2)`). */
  function FirstTwo(reviews: seq<Review>): (r: seq<Review>)
    ensures |r| <= 2 && r <= reviews && (reviews != [] ==> r != [])
    ensures |r| == if |reviews| < 2 then |reviews| else 2
  {
    if |reviews| <= 2 then reviews else reviews[..2]
  }

  const ReviewsHeading := "• Reviews:\n"

  /** The reviews section: present only when the item has reviews, and then
      showing at most the first two. */
  function ReviewSection(reviews: seq<Review>): string {
    if reviews == [] then "" else ReviewsHeading + ReviewLines(FirstTwo(reviews))
  }

  /** The text block of one result item, followed by an empty line. */
  function ItemBlock(r: Item): string {
    ItemHeader(r) + ReviewSection(r.userReviews) + "\n"
  }

  /** The review lines of one more review. */
  lemma ReviewLinesSnoc(shown: seq<Review>, i: nat)
    requires i < |shown|
    ensures ReviewLines(shown[..i + 1]) == ReviewLines(shown[..i]) + ReviewLine(shown[i])
  {
    assert shown[..i + 1][..i] == shown[..i];
  }

  /** Appending the line of review `i` to text that holds the lines before
      it gives the lines up to and including it. */
  lemma AppendReviewLine(text: string, shown: seq<Review>, i: nat)
    requires i < |shown|
    ensures text + ReviewLines(shown[..i]) + ReviewLine(shown[i]) == text + ReviewLines(shown[..i + 1])
  {
    ReviewLinesSnoc(shown, i);
  }

  /** The `forEach` over the shown reviews: appends one line per review,
      in order. */
  method AppendReviewLines(text: string, shown: seq<Review>) returns (out: string)
    ensures out == text + ReviewLines(shown)
  {
    out := text;
    for i := 0 to |shown|
      invariant out == text + ReviewLines(shown[..i])
    {
      AppendReviewLine(text, shown, i);
      out := out + ReviewLine(shown[i]);
    }
    assert shown[..|shown|] == shown;
  }

  /** Appends the reviews section to `text`: the heading and the first two
      review lines, only when there are reviews. */
  method AppendReviews(text: string, reviews: seq<Review>) returns (out: string)
    ensures out == text + ReviewSection(reviews)
  {
    out := text;
    if |reviews| > 0 {
      out := out + ReviewsHeading;
      out := AppendReviewLines(out, FirstTwo(reviews));
    }
  }

  /** Builds one item's block line by line, as the `results.map` callback
      does. */
  method FormatItem(r: Item) returns (text: string)
    ensures text == ItemBlock(r)
  {
    text := TitleLine(r);
    text := text + PriceLine(r);
    text := text + SizesLine(r);
    text := text + ColorsLine(r);
    text := text + MaterialLine(r);
    text := text + AudienceLine(r);
    text := AppendReviews(text, r.userReviews);
    text := text + "\n";
  }

  predicate EndsWithNewline(s: string) {
    |s| > 0 && s[|s| - 1] == '\n'
  }

  lemma EndsWithNewlineAppend(a: string, b: string)
    requires EndsWithNewline(b)
    ensures EndsWithNewline(a + b)
  {
    assert (a + b)[|a + b| - 1] == b[|b| - 1];
  }

  lemma ReviewLineEndsWithNewline(rev: Review)
    ensures EndsWithNewline(ReviewLine(rev))
  {
    EndsWithNewlineAppend("   - " + IntToString(rev.rating) + "/5: \"" + rev.comment + "\" ("
                          + rev.reviewDate + ")", "\n");
  }

  lemma ReviewSectionEndsWithNewline(reviews: seq<Review>)
    requires reviews != []
    ensures EndsWithNewline(ReviewSection(reviews))
  {
    var shown := FirstTwo(reviews);
    var lines := ReviewLines(shown);
    var last := ReviewLine(shown[|shown| - 1]);
    ReviewLineEndsWithNewline(shown[|shown| - 1]);
    EndsWithNewlineAppend(ReviewLines(shown[..|shown| - 1]), last);
    EndsWithNewlineAppend(ReviewsHeading, lines);
  }

  lemma HeaderAndReviewsEndWithNewline(r: Item)
    ensures EndsWithNewline(ItemHeader(r) + ReviewSection(r.userReviews))
  {
    EndsWithNewlineAppend("• Target Audience: " + AudienceEmoji(r.targetAudience) + " "
                          + AudienceName(r.targetAudience), "\n");
    EndsWithNewlineAppend(TitleLine(r) + PriceLine(r) + SizesLine(r) + ColorsLine(r) + MaterialLine(r),
                          AudienceLine(r));
    if r.userReviews == [] {
      assert ItemHeader(r) + ReviewSection(r.userReviews) == ItemHeader(r);
    } else {
      ReviewSectionEndsWithNewline(r.userReviews);
      EndsWithNewlineAppend(ItemHeader(r), ReviewSection(r.userReviews));
    }
  }

  lemma PrefixAppend(p: string, a: string, b: string)
    requires |p| <= |a| && a[..|p|] == p
    ensures |p| <= |a + b| && (a + b)[..|p|] == p
  {
    assert (a + b)[..|p|] == a[..|p|];
  }

  /** Every block starts with the item's title and brand and ends with an
      empty line, so joined blocks are separated by a blank line. */
  lemma ItemBlockShape(r: Item)
    ensures var b := ItemBlock(r);
      |b| >= |TitleLine(r)| + 2 && b[..|TitleLine(r)|] == TitleLine(r) && b[|b| - 2..] == "\n\n"
  {
    var t := TitleLine(r);
    assert t[..|t|] == t;
    PrefixAppend(t, t, PriceLine(r));
    PrefixAppend(t, t + PriceLine(r), SizesLine(r));
    PrefixAppend(t, t + PriceLine(r) + SizesLine(r), ColorsLine(r));
    PrefixAppend(t, t + PriceLine(r) + SizesLine(r) + ColorsLine(r), MaterialLine(r));
    PrefixAppend(t, t + PriceLine(r) + SizesLine(r) + ColorsLine(r) + MaterialLine(r), AudienceLine(r));
    var body := ItemHeader(r) + ReviewSection(r.userReviews);
    PrefixAppend(t, ItemHeader(r), ReviewSection(r.userReviews));
    PrefixAppend(t, body, "\n");
    HeaderAndReviewsEndWithNewline(r);
    var b := ItemBlock(r);
    assert b[|b| - 2] == body[|body| - 1];
    assert |body| > |t| by {
      assert |AudienceLine(r)| > 0;
    }
  }

  /** Only the first two reviews are shown: reviews after them never change
      the block. */
  lemma ItemBlockShowsFirstTwoReviews(r: Item, more: seq<Review>)
    requires |r.userReviews| >= 2
    ensures ItemBlock(r.(userReviews := r.userReviews + more)) == ItemBlock(r)
  {
    assert FirstTwo(r.userReviews + more) == r.userReviews[..2] == FirstTwo(r.userReviews);
  }

  /** The blocks of the result items, in result order. */
  function ItemBlocks(items: seq<Item>): (blocks: seq<string>)
    ensures |blocks| == |items| && forall i :: 0 <= i < |items| ==> blocks[i] == ItemBlock(items[i])
  {
    seq(|items|, i requires 0 <= i < |items| => ItemBlock(items[i]))
  }

  /** `item.text || JSON.stringify(item)`. */
  function PartText(p: Part, partJson: Part -> string): string {
    match p.text
    case Some(t) => if t != "" then t else partJson(p)
    case None => partJson(p)
  }

  /** `results && results.length > 0`. */
  predicate HasResults(c: Content) {
    c.Record? && c.results.Some? && |c.results.value| > 0
  }

  /** The response text for the final message's content: newline-joined part
      texts for an array; newline-joined item blocks for an object with
      results; its `message` (if non-empty) or its JSON for an object without
      results; `String(content)` otherwise; and the TypeError of destructuring
      `null`. */
  function ResponseText(content: Content, partJson: Part -> string, contentJson: Content -> string)
    : (r: Outcome<string>)
    ensures r.Thrown? <==> content.Null?
    ensures r.Thrown? ==> r.error == NullDestructuring
    ensures HasResults(content) ==> r == Ok(Join("\n", ItemBlocks(content.results.value)))
  {
    match content
    case Parts(parts) =>
      Ok(Join("\n", seq(|parts|, i requires 0 <= i < |parts| => PartText(parts[i], partJson))))
    case Record(results, message) =>
      if HasResults(content) then Ok(Join("\n", ItemBlocks(results.value)))
      else if message.Some? && message.value != "" then Ok(message.value)
      else Ok(contentJson(content))
    case Scalar(s) => Ok(s)
    case Null => Thrown(NullDestructuring)
  }

  /** The `results.map(...)` over the result items, one block per item in
      result order. */
  method FormatItems(items: seq<Item>) returns (blocks: seq<string>)
    ensures blocks == ItemBlocks(items)
  {
    blocks := [];
    for i := 0 to |items|
      invariant |blocks| == i
      invariant forall j :: 0 <= j < i ==> blocks[j] == ItemBlock(items[j])
    {
      var block := FormatItem(items[i]);
      blocks := blocks + [block];
    }
  }

  /** Computes the response text, building the item blocks one by one. It
      throws exactly for `null` content. */
  method FormatResponse(content: Content, partJson: Part -> string, contentJson: Content -> string)
    returns (r: Outcome<string>)
    ensures r == ResponseText(content, partJson, contentJson)
    ensures r.Thrown? <==> content.Null?
  {
    match content
    case Parts(parts) =>
      var texts := seq(|parts|, i requires 0 <= i < |parts| => PartText(parts[i], partJson));
      r := Ok(Join("\n", texts));
    case Record(results, message) =>
      if HasResults(content) {
        var blocks := FormatItems(results.value);
        r := Ok(Join("\n", blocks));
      } else if message.Some? && message.value != "" {
        r := Ok(message.value);
      } else {
        r := Ok(contentJson(content));
      }
    case Scalar(s) =>
      r := Ok(s);
    case Null =>
      r := Thrown(NullDestructuring);
  }
}
