/** The product records of the fashion catalog, and the schema the seeding
    script checks each generated record against before it is stored. */
module Catalog {
  import opened Errors

  datatype Audience = Men | Women | Boys | Girls

  /** A review rating after validation: a number from 0 to 5 inclusive. */
  type Rating = r: int | 0 <= r <= 5

  datatype Price = Price(actual: int, sale: int)

  datatype Review = Review(reviewDate: string, rating: Rating, comment: string)

  /** A catalog item that satisfies the item schema. */
  datatype Item = Item(
    itemId: string,
    title: string,
    description: string,
    brand: string,
    price: Price,
    categories: seq<string>,
    images: seq<string>,
    sizeOptions: seq<string>,
    colorOptions: seq<string>,
    material: string,
    targetAudience: Audience,
    userReviews: seq<Review>,
    notes: string)

  /** A stored catalog document: the item's fields plus the text its
      embedding was computed from (`embedding_text`). The embedding vector
      itself is not modelled. */
  datatype Doc = Doc(item: Item, embeddingText: string)

  /** A record as the language model generates it, before validation: the
      audience is any string, a rating any number, and either price field
      may be missing. */
  datatype RawReview = RawReview(reviewDate: string, rating: int, comment: string)
  datatype RawPrice = RawPrice(actual: Option<int>, sale: Option<int>)
  datatype RawItem = RawItem(
    itemId: string,
    title: string,
    description: string,
    brand: string,
    price: RawPrice,
    categories: seq<string>,
    images: seq<string>,
    sizeOptions: seq<string>,
    colorOptions: seq<string>,
    material: string,
    targetAudience: string,
    userReviews: seq<RawReview>,
    notes: string)

  /** The spelling of each audience in the schema's enum. */
  function AudienceName(a: Audience): string {
    match a
    case Men => "Men"
    case Women => "Women"
    case Boys => "Boys"
    case Girls => "Girls"
  }

  function ParseAudience(s: string): (r: Option<Audience>)
    ensures r.Some? <==> s in {"Men", "Women", "Boys", "Girls"}
    ensures r.Some? ==> AudienceName(r.value) == s
  {
    if s == "Men" then Some(Men)
    else if s == "Women" then Some(Women)
    else if s == "Boys" then Some(Boys)
    else if s == "Girls" then Some(Girls)
    else None
  }

  lemma ParseAudienceName(a: Audience)
    ensures ParseAudience(AudienceName(a)) == Some(a)
  {
  }

  /** Every rating lies in [0, 5]. */
  ghost predicate ValidReviews(rs: seq<RawReview>) {
    forall i :: 0 <= i < |rs| ==> 0 <= rs[i].rating <= 5
  }

  function ToRawReviews(rs: seq<Review>): (raw: seq<RawReview>)
    ensures |raw| == |rs|
    ensures forall i :: 0 <= i < |rs| ==>
      raw[i] == RawReview(rs[i].reviewDate, rs[i].rating, rs[i].comment)
  {
    if rs == [] then [] else
      [RawReview(rs[0].reviewDate, rs[0].rating, rs[0].comment)] + ToRawReviews(rs[1..])
  }

  function ParseReviews(rs: seq<RawReview>): (r: Option<seq<Review>>)
    ensures r.Some? <==> ValidReviews(rs)
    ensures r.Some? ==> ToRawReviews(r.value) == rs
  {
    if rs == [] then Some([])
    else if !(0 <= rs[0].rating <= 5) then None
    else
      match ParseReviews(rs[1..])
      case None => None
      case Some(tail) =>
        var head := Review(rs[0].reviewDate, rs[0].rating, rs[0].comment);
        assert ToRawReviews([head] + tail)[1..] == ToRawReviews(tail);
        Some([head] + tail)
  }

  lemma {:induction false} ParseReviewsRoundTrip(rs: seq<Review>)
    ensures ParseReviews(ToRawReviews(rs)) == Some(rs)
  {
    if rs != [] {
      ParseReviewsRoundTrip(rs[1..]);
      assert ToRawReviews(rs)[1..] == ToRawReviews(rs[1..]);
      assert [rs[0]] + rs[1..] == rs;
    }
  }

  /** The checks of the item schema that go beyond field types: both price
      fields present, an audience from the enum, every rating in [0, 5]. */
  ghost predicate SatisfiesSchema(raw: RawItem) {
    && raw.price.actual.Some? && raw.price.sale.Some?
    && raw.targetAudience in {"Men", "Women", "Boys", "Girls"}
    && ValidReviews(raw.userReviews)
  }

  /** The record a validated item came from. */
  function ToRaw(item: Item): RawItem {
    RawItem(item.itemId, item.title, item.description, item.brand,
            RawPrice(Some(item.price.actual), Some(item.price.sale)),
            item.categories, item.images, item.sizeOptions, item.colorOptions,
            item.material, AudienceName(item.targetAudience),
            ToRawReviews(item.userReviews), item.notes)
  }

  /** Validation of one generated record against the item schema: it
      succeeds exactly on the records that satisfy the schema, and then
      keeps every field as it was. */
  function ParseItem(raw: RawItem): (r: Option<Item>)
    ensures r.Some? <==> SatisfiesSchema(raw)
    ensures r.Some? ==> ToRaw(r.value) == raw
  {
    if raw.price.actual.None? || raw.price.sale.None? then None
    else
      match (ParseAudience(raw.targetAudience), ParseReviews(raw.userReviews))
      case (Some(audience), Some(reviews)) =>
        Some(Item(raw.itemId, raw.title, raw.description, raw.brand,
                  Price(raw.price.actual.value, raw.price.sale.value),
                  raw.categories, raw.images, raw.sizeOptions, raw.colorOptions,
                  raw.material, audience, reviews, raw.notes))
      case _ => None
  }

  /** Every validated item passes validation again, unchanged. */
  lemma ParseItemRoundTrip(item: Item)
    ensures ParseItem(ToRaw(item)) == Some(item)
  {
    ParseReviewsRoundTrip(item.userReviews);
    ParseAudienceName(item.targetAudience);
  }
}
