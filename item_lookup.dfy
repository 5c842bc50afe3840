/** The `item_lookup` tool the language model may call: a similarity search
    over the catalog's embeddings, with a case-insensitive keyword search as
    fall-back when the similarity search finds nothing. The database is the
    catalog as a sequence of documents in storage order; the similarity
    search is a function given as a parameter. */
module ItemLookup {
  import opened Errors
  import opened Text
  import opened Catalog

  /** The number of results asked for when the model gives no `n`. */
  const DefaultLimit := 10

  /** The destructuring default `n = 10`. */
  function Limit(n: Option<int>): int {
    match n
    case Some(k) => k
    case None => DefaultLimit
  }

  /** `JSON.stringify({ error: "No items found", count: 0 })`. */
  const NoItemsJson := "{\"error\":\"No items found\",\"count\":0}"

  datatype SearchType = VectorSearch | TextSearch

  /** What the tool returns: the fixed string `NoItemsJson` for an empty
      catalog, otherwise an object `{ results, searchType, query, count }`. */
  datatype LookupResult =
    | NoItems
    | Found(results: seq<Doc>, searchType: SearchType, query: string, count: int)

  /** A database operation issued by the tool, in issue order. */
  datatype DbCall =
    | CountDocuments
    | SimilaritySearch(query: string, k: int)
    | KeywordFind(query: string, limit: int)

  datatype Lookup = Lookup(result: LookupResult, calls: seq<DbCall>)

  /** The `$or` filter of the keyword search: the query found, ignoring case,
      in the title, description, brand, one of the categories or the
      embedding text. */
  predicate MatchesQuery(d: Doc, query: string) {
    || ContainsIgnoreCase(d.item.title, query)
    || ContainsIgnoreCase(d.item.description, query)
    || ContainsIgnoreCase(d.item.brand, query)
    || (exists i | 0 <= i < |d.item.categories| :: ContainsIgnoreCase(d.item.categories[i], query))
    || ContainsIgnoreCase(d.embeddingText, query)
  }

  /** The documents that match the filter, in storage order. */
  function Matching(catalog: seq<Doc>, query: string): (r: seq<Doc>)
    ensures |r| <= |catalog|
  {
    if catalog == [] then []
    else (if MatchesQuery(catalog[0], query) then [catalog[0]] else [])
         + Matching(catalog[1..], query)
  }

  /** The filter keeps storage order: filtering a concatenation filters each
      part and concatenates the results. */
  lemma {:induction false} MatchingAppend(a: seq<Doc>, b: seq<Doc>, query: string)
    ensures Matching(a + b, query) == Matching(a, query) + Matching(b, query)
  {
    if a == [] {
      assert a + b == b;
    } else {
      var ab := a + b;
      assert ab[0] == a[0];
      assert ab[1..] == a[1..] + b;
      MatchingAppend(a[1..], b, query);
      var h := if MatchesQuery(a[0], query) then [a[0]] else [];
      calc {
        Matching(ab, query);
        h + Matching(a[1..] + b, query);
        h + (Matching(a[1..], query) + Matching(b, query));
        (h + Matching(a[1..], query)) + Matching(b, query);
      }
    }
  }

  /** Every kept document is in the catalog and matches the filter. */
  lemma {:induction false} MatchingSound(catalog: seq<Doc>, query: string)
    ensures forall d :: d in Matching(catalog, query) ==> d in catalog && MatchesQuery(d, query)
  {
    if catalog != [] {
      MatchingSound(catalog[1..], query);
      var h := if MatchesQuery(catalog[0], query) then [catalog[0]] else [];
      assert Matching(catalog, query) == h + Matching(catalog[1..], query);
      forall d | d in Matching(catalog, query) ensures d in catalog && MatchesQuery(d, query) {
        if d !in h {
          assert d in Matching(catalog[1..], query);
          assert d in catalog[1..];
        }
      }
    }
  }

  /** No matching document is left out. */
  lemma {:induction false} MatchingComplete(catalog: seq<Doc>, query: string, d: Doc)
    requires d in catalog && MatchesQuery(d, query)
    ensures d in Matching(catalog, query)
  {
    if catalog[0] != d {
      MatchingComplete(catalog[1..], query, d);
    }
  }

  /** `cursor.limit(n)` of the MongoDB driver: 0 means no limit and a
      negative limit acts as its absolute value. */
  function ApplyLimit(docs: seq<Doc>, n: int): (r: seq<Doc>)
    ensures r <= docs
    ensures n == 0 ==> r == docs
    ensures n != 0 ==> |r| == if |docs| < Abs(n) then |docs| else Abs(n)
  {
    if n == 0 || |docs| <= Abs(n) then docs else docs[..Abs(n)]
  }

  function Abs(n: int): nat {
    if n < 0 then -n else n
  }

  /** The tool's body for the arguments `{ query, n }`. */
  function ItemLookup(catalog: seq<Doc>, similaritySearch: (string, int) -> seq<Doc>,
                      query: string, n: Option<int>): (r: Lookup)
    ensures |catalog| == 0 <==> r.result == NoItems
    ensures |catalog| == 0 ==> r.calls == [CountDocuments]
    ensures r.result.Found? ==> r.result.query == query && r.result.count == |r.result.results|
    ensures r.result.Found? ==>
      |r.calls| >= 2 && r.calls[..2] == [CountDocuments, SimilaritySearch(query, Limit(n))]
    ensures r.result.Found? && r.result.searchType == VectorSearch ==>
      |r.calls| == 2 && r.result.results == similaritySearch(query, Limit(n))
    ensures r.result.Found? && r.result.searchType == TextSearch ==>
      similaritySearch(query, Limit(n)) == []
      && r.calls == [CountDocuments, SimilaritySearch(query, Limit(n)),
                     KeywordFind(query, Limit(n))]
      && r.result.results == ApplyLimit(Matching(catalog, query), Limit(n))
  {
    var limit := Limit(n);
    var totalCount := |catalog|;
    if totalCount == 0 then Lookup(NoItems, [CountDocuments])
    else
      var result := similaritySearch(query, limit);
      if |result| == 0 then
        var textResults := ApplyLimit(Matching(catalog, query), limit);
        Lookup(Found(textResults, TextSearch, query, |textResults|),
               [CountDocuments, SimilaritySearch(query, limit), KeywordFind(query, limit)])
      else
        Lookup(Found(result, VectorSearch, query, |result|),
               [CountDocuments, SimilaritySearch(query, limit)])
  }

  /** The similarity search keeps to the number of results it is asked for. */
  ghost predicate RespectsLimit(similaritySearch: (string, int) -> seq<Doc>) {
    forall q, k :: k >= 1 ==> |similaritySearch(q, k)| <= k
  }

  /** With a positive limit (10 by default) the tool never returns more than
      that many items, whichever search produced them. */
  lemma LookupAtMostLimit(catalog: seq<Doc>, similaritySearch: (string, int) -> seq<Doc>,
                          query: string, n: Option<int>)
    requires RespectsLimit(similaritySearch)
    requires Limit(n) >= 1
    ensures var r := ItemLookup(catalog, similaritySearch, query, n).result;
      r.Found? ==> r.count <= Limit(n)
  {
    var limit := Limit(n);
    assert |similaritySearch(query, limit)| <= limit;
  }

  /** The keyword fall-back runs exactly when the catalog is non-empty and
      the similarity search found nothing. */
  lemma FallbackOnlyWhenNoVectorHits(catalog: seq<Doc>, similaritySearch: (string, int) -> seq<Doc>,
                                     query: string, n: Option<int>)
    ensures var r := ItemLookup(catalog, similaritySearch, query, n);
      (exists c :: c in r.calls && c.KeywordFind?) <==>
      (|catalog| > 0 && similaritySearch(query, Limit(n)) == [])
  {
    var r := ItemLookup(catalog, similaritySearch, query, n);
    if |catalog| > 0 && similaritySearch(query, Limit(n)) == [] {
      assert r.calls[2].KeywordFind?;
    }
  }

  /** The keyword results are the first matching documents in storage
      order: every one matches, they are a prefix of all matches, and when
      fewer than the limit are returned, every matching document is among
      them. */
  lemma TextResultsAreFirstMatches(catalog: seq<Doc>, similaritySearch: (string, int) -> seq<Doc>,
                                   query: string, n: Option<int>, d: Doc)
    requires Limit(n) >= 1
    ensures var r := ItemLookup(catalog, similaritySearch, query, n).result;
      r.Found? && r.searchType == TextSearch ==>
        && (forall i :: 0 <= i < |r.results| ==> MatchesQuery(r.results[i], query))
        && r.results <= Matching(catalog, query)
        && (|r.results| < Limit(n) && d in catalog && MatchesQuery(d, query)
            ==> d in r.results)
  {
    var r := ItemLookup(catalog, similaritySearch, query, n).result;
    MatchingSound(catalog, query);
    if r.Found? && r.searchType == TextSearch && d in catalog && MatchesQuery(d, query) {
      MatchingComplete(catalog, query, d);
    }
  }
}
