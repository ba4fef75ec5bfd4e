/** The two news-provider adapters. Each makes one HTTP request (taken as a
    function from request to reply) and normalises the decoded reply into a
    list of article records. */
module SourceFetcher {
  import opened Base
  import opened PyText
  import opened JsonValue

  const NewsDataMaxResults: nat := 10
  const GNewsMaxResults: nat := 10
  const DefaultLanguage := "en"
  const DefaultCountryFallback := "in"
  const GNewsSortBy := "relevance"

  /** The query parameters of the NewsData request (the query before URL encoding). */
  datatype NewsDataRequest = NewsDataRequest(apiKey: string, query: string, language: string, country: string)

  /** The query parameters of the GNews request. */
  datatype GNewsRequest = GNewsRequest(query: Json, lang: string, country: string, max: nat, token: string, sortBy: string)

  /** The outcome of one HTTP request and the decoding of its body. */
  datatype HttpReply =
    | Body(json: Json)       // the decoded response body
    | HttpError(status: int) // a 4xx or 5xx status
    | UrlError               // the host could not be reached
    | Timeout
    | InvalidJson            // the body is not valid UTF-8 JSON
    | OtherFailure           // any other exception

  type NewsDataApi = NewsDataRequest -> HttpReply
  type GNewsApi = GNewsRequest -> HttpReply

  /** The configured keys and the two providers. */
  datatype NewsSources = NewsSources(
    newsDataKey: Option<string>,
    newsData: NewsDataApi,
    gnewsKey: Option<string>,
    gnews: GNewsApi)

  /** A key is configured when it is set and not empty. */
  predicate KeyConfigured(key: Option<string>) {
    key.Some? && key.value != ""
  }

  /** The target country: the lowered code when it is a string with
      non-blank content, otherwise "in". */
  function ResolveCountry(countryCode: Json): (country: string)
    ensures countryCode.Str? && !AllSpace(countryCode.s) ==> country == Lower(countryCode.s)
    ensures !(countryCode.Str? && !AllSpace(countryCode.s)) ==> country == DefaultCountryFallback
    ensures !AllSpace(country)
  {
    if countryCode.Str? && Strip(countryCode.s) != "" then
      LowerKeepsSpace(countryCode.s);
      Lower(countryCode.s)
    else
      assert !IsSpace(DefaultCountryFallback[0]);
      DefaultCountryFallback
  }

  // ---------------------------------------------------------------- NewsData

  /** One NewsData result as a record. */
  function NewsDataRecord(article: Dict): Dict {
    map[
      "article_id" := Get(article, "article_id", Null),
      "title" := Get(article, "title", Null),
      "description" := Get(article, "description", Null),
      "source_id_from_api" := Get(article, "source_name", Null)]
  }

  /** A NewsData record has exactly four keys, and the provider's
      `source_name` is stored under `source_id_from_api`. */
  lemma NewsDataRecordFields(article: Dict)
    ensures NewsDataRecord(article).Keys == {"article_id", "title", "description", "source_id_from_api"}
    ensures NewsDataRecord(article)["article_id"] == Get(article, "article_id", Null)
    ensures NewsDataRecord(article)["title"] == Get(article, "title", Null)
    ensures NewsDataRecord(article)["description"] == Get(article, "description", Null)
    ensures NewsDataRecord(article)["source_id_from_api"] == Get(article, "source_name", Null)
  {
  }

  /** The records the loop over `results` appends: one per result, in order,
      until the first result that is not a dict (where `.get` raises and the
      exception handler returns what was appended so far). */
  function NewsDataRecords(results: seq<Json>): (r: seq<Dict>)
    ensures |r| <= |results|
  {
    if results == [] || !results[0].Obj? then []
    else [NewsDataRecord(results[0].fields)] + NewsDataRecords(results[1..])
  }

  /** Record k is that of result k, the loop stops only at a result that is
      not a dict, and when every result is a dict none is dropped. */
  lemma {:induction false} NewsDataRecordsShape(results: seq<Json>)
    ensures forall k :: 0 <= k < |NewsDataRecords(results)| ==>
              results[k].Obj? && NewsDataRecords(results)[k] == NewsDataRecord(results[k].fields)
    ensures |NewsDataRecords(results)| < |results| ==> !results[|NewsDataRecords(results)|].Obj?
    ensures (forall k :: 0 <= k < |results| ==> results[k].Obj?) ==> |NewsDataRecords(results)| == |results|
  {
    if results != [] && results[0].Obj? {
      var rest := results[1..];
      NewsDataRecordsShape(rest);
      var r := NewsDataRecords(results);
      assert r == [NewsDataRecord(results[0].fields)] + NewsDataRecords(rest);
      forall k | 1 <= k < |r|
        ensures results[k].Obj? && r[k] == NewsDataRecord(results[k].fields)
      {
        assert results[k] == rest[k - 1];
        assert r[k] == NewsDataRecords(rest)[k - 1];
      }
      if |r| < |results| {
        assert results[|r|] == rest[|r| - 1];
      }
      if forall k :: 0 <= k < |results| ==> results[k].Obj? {
        assert forall k :: 0 <= k < |rest| ==> rest[k] == results[k + 1];
      }
    }
  }

  /** The articles taken from a decoded NewsData body: only a dict whose
      `status` is "success" and whose `results` is a list yields any, and at
      most the first ten results are used. */
  function NewsDataArticles(data: Json): (r: seq<Dict>)
    ensures |r| <= NewsDataMaxResults
    ensures !(data.Obj? && Get(data.fields, "status", Null) == Str("success")) ==> r == []
    ensures r != [] ==>
              var results := Get(data.fields, "results", Arr([]));
              && results.Arr?
              && |r| <= |results.items|
              && forall k :: 0 <= k < |r| ==> results.items[k].Obj? && r[k] == NewsDataRecord(results.items[k].fields)
  {
    if data.Obj? && Get(data.fields, "status", Null) == Str("success") then
      match Get(data.fields, "results", Arr([]))
      case Arr(xs) =>
        var batch := xs[..Min(NewsDataMaxResults, |xs|)];
        NewsDataRecordsShape(batch);
        assert forall k :: 0 <= k < |batch| ==> batch[k] == xs[k];
        NewsDataRecords(batch)
      case _ => []  // slicing or iterating a non-list raises, or yields no dict
    else
      []
  }

  /** `fetch_from_newsdata(query, language, country_code)` as a value. The
      query is URL-encoded outside the exception handler, so a query that is
      not a string raises to the caller. */
  function NewsDataFetch(query: Json, language: string, countryCode: Json, apiKey: Option<string>, api: NewsDataApi)
    : (r: Outcome<seq<Dict>>)
    ensures !KeyConfigured(apiKey) ==> r == Ok([])
    ensures r.Raised? <==> KeyConfigured(apiKey) && !query.Str?
    ensures r.Ok? ==> |r.value| <= NewsDataMaxResults
    ensures KeyConfigured(apiKey) && query.Str? ==>
              r == Ok(match api(NewsDataRequest(apiKey.value, query.s, language, ResolveCountry(countryCode)))
                      case Body(data) => NewsDataArticles(data)
                      case _ => [])
  {
    if !KeyConfigured(apiKey) then Ok([])
    else if !query.Str? then Raised(TypeError)
    else
      match api(NewsDataRequest(apiKey.value, query.s, language, ResolveCountry(countryCode)))
      case Body(data) => Ok(NewsDataArticles(data))
      case _ => Ok([])
  }

  /** A missing key means no request is made: the outcome is the same for
      every provider. */
  lemma NewsDataKeyGuard(query: Json, language: string, countryCode: Json, apiKey: Option<string>, a1: NewsDataApi, a2: NewsDataApi)
    requires !KeyConfigured(apiKey)
    ensures NewsDataFetch(query, language, countryCode, apiKey, a1) == NewsDataFetch(query, language, countryCode, apiKey, a2) == Ok([])
  {
  }

  /** A successful reply whose results are all dicts gives the first ten of
      them (or all, when fewer), mapped in order. */
  lemma {:induction false} NewsDataFirstTen(data: Dict, xs: seq<Json>)
    requires Get(data, "status", Null) == Str("success")
    requires Get(data, "results", Arr([])) == Arr(xs)
    requires forall k :: 0 <= k < |xs| ==> xs[k].Obj?
    ensures |NewsDataArticles(Obj(data))| == Min(NewsDataMaxResults, |xs|)
    ensures forall k :: 0 <= k < Min(NewsDataMaxResults, |xs|) ==>
              NewsDataArticles(Obj(data))[k] == NewsDataRecord(xs[k].fields)
  {
    var batch := xs[..Min(NewsDataMaxResults, |xs|)];
    assert forall k :: 0 <= k < |batch| ==> batch[k] == xs[k];
    assert NewsDataArticles(Obj(data)) == NewsDataRecords(batch);
    NewsDataRecordsShape(batch);
  }

  /** The loop over `results` stops at position k when that result is not a
      dict, keeping the records made so far. */
  lemma NewsDataRecordsStop(results: seq<Json>, k: nat, acc: seq<Dict>)
    requires k < |results| && !results[k].Obj?
    requires NewsDataRecords(results) == acc + NewsDataRecords(results[k..])
    ensures NewsDataRecords(results) == acc
  {
    assert results[k..][0] == results[k];
    assert acc + [] == acc;
  }

  /** Otherwise it appends the record of result k and moves on. */
  lemma NewsDataRecordsStep(results: seq<Json>, k: nat, acc: seq<Dict>)
    requires k < |results| && results[k].Obj?
    requires NewsDataRecords(results) == acc + NewsDataRecords(results[k..])
    ensures NewsDataRecords(results) == (acc + [NewsDataRecord(results[k].fields)]) + NewsDataRecords(results[k + 1..])
  {
    var tail := results[k..];
    assert tail[0] == results[k];
    assert tail[1..] == results[k + 1..];
    var record := NewsDataRecord(results[k].fields);
    var rest := NewsDataRecords(results[k + 1..]);
    assert NewsDataRecords(tail) == [record] + rest;
    assert acc + ([record] + rest) == (acc + [record]) + rest;
  }

  /** The `for article in results` loop of `fetch_from_newsdata`. */
  method MapNewsDataResults(results: seq<Json>) returns (articlesData: seq<Dict>)
    ensures articlesData == NewsDataRecords(results)
  {
    articlesData := [];
    var k := 0;
    while k < |results|
      invariant 0 <= k <= |results|
      invariant NewsDataRecords(results) == articlesData + NewsDataRecords(results[k..])
    {
      if !results[k].Obj? {
        // `.get` raises; the handler keeps what was appended so far
        NewsDataRecordsStop(results, k, articlesData);
        return;
      }
      NewsDataRecordsStep(results, k, articlesData);
      articlesData := articlesData + [NewsDataRecord(results[k].fields)];
      k := k + 1;
    }
    assert results[k..] == [];
    assert articlesData + [] == articlesData;
  }

  /** `fetch_from_newsdata`. */
  method FetchFromNewsData(query: Json, language: string, countryCode: Json, apiKey: Option<string>, api: NewsDataApi)
    returns (r: Outcome<seq<Dict>>)
    ensures r == NewsDataFetch(query, language, countryCode, apiKey, api)
  {
    if !KeyConfigured(apiKey) {
      return Ok([]);
    }
    var articlesData: seq<Dict> := [];
    var targetCountry := ResolveCountry(countryCode);
    if !query.Str? {
      return Raised(TypeError);
    }
    var reply := api(NewsDataRequest(apiKey.value, query.s, language, targetCountry));
    if reply.Body? && reply.json.Obj? && Get(reply.json.fields, "status", Null) == Str("success") {
      var results := Get(reply.json.fields, "results", Arr([]));
      if results.Arr? {
        articlesData := MapNewsDataResults(results.items[..Min(NewsDataMaxResults, |results.items|)]);
      }
    }
    return Ok(articlesData);
  }

  // ------------------------------------------------------------------- GNews

  /** A GNews article's source object, an empty dict when it has none. */
  function SourceInfo(article: Dict): Json {
    Get(article, "source", Obj(map[]))
  }

  /** An article the loop maps without raising: a dict whose `source` is a dict. */
  predicate MappableGNewsArticle(article: Json) {
    article.Obj? && SourceInfo(article.fields).Obj?
  }

  /** One GNews article as a record. */
  function GNewsRecord(article: Dict, source: Dict): Dict {
    map[
      "title" := Get(article, "title", Null),
      "description" := Get(article, "description", Null),
      "content" := Get(article, "content", Null),
      "name" := Get(source, "name", Str("Unknown Source"))]
  }

  /** A GNews record has exactly four keys; `name` is taken from the
      article's source, and is "Unknown Source" when that has no `name`. */
  lemma GNewsRecordFields(article: Dict, source: Dict)
    ensures GNewsRecord(article, source).Keys == {"title", "description", "content", "name"}
    ensures GNewsRecord(article, source)["title"] == Get(article, "title", Null)
    ensures GNewsRecord(article, source)["description"] == Get(article, "description", Null)
    ensures GNewsRecord(article, source)["content"] == Get(article, "content", Null)
    ensures "name" !in source ==> GNewsRecord(article, source)["name"] == Str("Unknown Source")
    ensures "name" in source ==> GNewsRecord(article, source)["name"] == source["name"]
  {
  }

  /** The records the loop over `articles` appends, up to the first article
      that cannot be mapped. No client-side cap applies. */
  function GNewsRecords(articles: seq<Json>): (r: seq<Dict>)
    ensures |r| <= |articles|
  {
    if articles == [] || !MappableGNewsArticle(articles[0]) then []
    else [GNewsRecord(articles[0].fields, SourceInfo(articles[0].fields).fields)] + GNewsRecords(articles[1..])
  }

  /** Record k is that of article k, the loop stops only at an article that
      cannot be mapped, and when every article can be none is dropped. */
  lemma {:induction false} GNewsRecordsShape(articles: seq<Json>)
    ensures forall k :: 0 <= k < |GNewsRecords(articles)| ==>
              MappableGNewsArticle(articles[k])
              && GNewsRecords(articles)[k] == GNewsRecord(articles[k].fields, SourceInfo(articles[k].fields).fields)
    ensures |GNewsRecords(articles)| < |articles| ==> !MappableGNewsArticle(articles[|GNewsRecords(articles)|])
    ensures (forall k :: 0 <= k < |articles| ==> MappableGNewsArticle(articles[k])) ==> |GNewsRecords(articles)| == |articles|
  {
    if articles != [] && MappableGNewsArticle(articles[0]) {
      var rest := articles[1..];
      GNewsRecordsShape(rest);
      var r := GNewsRecords(articles);
      assert r == [GNewsRecord(articles[0].fields, SourceInfo(articles[0].fields).fields)] + GNewsRecords(rest);
      forall k | 1 <= k < |r|
        ensures MappableGNewsArticle(articles[k])
                && r[k] == GNewsRecord(articles[k].fields, SourceInfo(articles[k].fields).fields)
      {
        assert articles[k] == rest[k - 1];
        assert r[k] == GNewsRecords(rest)[k - 1];
      }
      if |r| < |articles| {
        assert articles[|r|] == rest[|r| - 1];
      }
      if forall k :: 0 <= k < |articles| ==> MappableGNewsArticle(articles[k]) {
        assert forall k :: 0 <= k < |rest| ==> rest[k] == articles[k + 1];
      }
    }
  }

  /** The articles taken from a decoded GNews body: none unless it is a dict
      whose `articles` value is a list. */
  function GNewsArticles(data: Json): (r: seq<Dict>)
    ensures !(data.Obj? && Get(data.fields, "articles", Null).Arr?) ==> r == []
    ensures data.Obj? && Get(data.fields, "articles", Null).Arr? ==>
              r == GNewsRecords(Get(data.fields, "articles", Null).items)
  {
    if data.Obj? && Get(data.fields, "articles", Null).Arr? then
      GNewsRecords(Get(data.fields, "articles", Null).items)
    else
      []
  }

  /** `fetch_from_gnews_io(query, language, country_code)` as a value; every
      failure inside the request gives the empty list. */
  function GNewsFetch(query: Json, language: string, countryCode: Json, apiKey: Option<string>, api: GNewsApi)
    : (r: seq<Dict>)
    ensures !KeyConfigured(apiKey) ==> r == []
    ensures KeyConfigured(apiKey) ==>
              r == (match api(GNewsRequest(query, language, ResolveCountry(countryCode), GNewsMaxResults, apiKey.value, GNewsSortBy))
                    case Body(data) => GNewsArticles(data)
                    case _ => [])
  {
    if !KeyConfigured(apiKey) then []
    else
      match api(GNewsRequest(query, language, ResolveCountry(countryCode), GNewsMaxResults, apiKey.value, GNewsSortBy))
      case Body(data) => GNewsArticles(data)
      case _ => []
  }

  /** A missing key means no request is made. */
  lemma GNewsKeyGuard(query: Json, language: string, countryCode: Json, apiKey: Option<string>, a1: GNewsApi, a2: GNewsApi)
    requires !KeyConfigured(apiKey)
    ensures GNewsFetch(query, language, countryCode, apiKey, a1) == GNewsFetch(query, language, countryCode, apiKey, a2) == []
  {
  }

  /** When every article can be mapped, there is one record per article, in
      order, however many the provider returned. */
  lemma {:induction false} GNewsOnePerArticle(data: Dict, xs: seq<Json>)
    requires Get(data, "articles", Null) == Arr(xs)
    requires forall k :: 0 <= k < |xs| ==> MappableGNewsArticle(xs[k])
    ensures |GNewsArticles(Obj(data))| == |xs|
    ensures forall k :: 0 <= k < |xs| ==>
              MappableGNewsArticle(xs[k])
              && GNewsArticles(Obj(data))[k] == GNewsRecord(xs[k].fields, SourceInfo(xs[k].fields).fields)
  {
    assert GNewsArticles(Obj(data)) == GNewsRecords(xs);
    GNewsRecordsShape(xs);
  }

  /** The loop over the GNews articles stops at position k when that article
      cannot be mapped, keeping the records made so far. */
  lemma GNewsRecordsStop(articles: seq<Json>, k: nat, acc: seq<Dict>)
    requires k < |articles| && !MappableGNewsArticle(articles[k])
    requires GNewsRecords(articles) == acc + GNewsRecords(articles[k..])
    ensures GNewsRecords(articles) == acc
  {
    assert articles[k..][0] == articles[k];
    assert acc + [] == acc;
  }

  /** Otherwise it appends the record of article k and moves on. */
  lemma GNewsRecordsStep(articles: seq<Json>, k: nat, acc: seq<Dict>)
    requires k < |articles| && MappableGNewsArticle(articles[k])
    requires GNewsRecords(articles) == acc + GNewsRecords(articles[k..])
    ensures GNewsRecords(articles)
            == (acc + [GNewsRecord(articles[k].fields, SourceInfo(articles[k].fields).fields)]) + GNewsRecords(articles[k + 1..])
  {
    var tail := articles[k..];
    assert tail[0] == articles[k];
    assert tail[1..] == articles[k + 1..];
    assert tail != [] && MappableGNewsArticle(tail[0]);
    var record := GNewsRecord(tail[0].fields, SourceInfo(tail[0].fields).fields);
    var rest := GNewsRecords(tail[1..]);
    assert GNewsRecords(tail) == [record] + rest;
    assert acc + ([record] + rest) == (acc + [record]) + rest;
  }

  /** The loop over the articles of a GNews reply in `fetch_from_gnews_io`. */
  method MapGNewsArticles(articles: seq<Json>) returns (articlesData: seq<Dict>)
    ensures articlesData == GNewsRecords(articles)
  {
    articlesData := [];
    var k := 0;
    while k < |articles|
      invariant 0 <= k <= |articles|
      invariant GNewsRecords(articles) == articlesData + GNewsRecords(articles[k..])
    {
      if !articles[k].Obj? {
        // `.get` raises; the handler keeps what was appended so far
        GNewsRecordsStop(articles, k, articlesData);
        return;
      }
      var sourceInfo := SourceInfo(articles[k].fields);
      if !sourceInfo.Obj? {
        GNewsRecordsStop(articles, k, articlesData);
        return;
      }
      GNewsRecordsStep(articles, k, articlesData);
      articlesData := articlesData + [GNewsRecord(articles[k].fields, sourceInfo.fields)];
      k := k + 1;
    }
    assert articles[k..] == [];
    assert articlesData + [] == articlesData;
  }

  /** `fetch_from_gnews_io`. */
  method FetchFromGNews(query: Json, language: string, countryCode: Json, apiKey: Option<string>, api: GNewsApi)
    returns (r: seq<Dict>)
    ensures r == GNewsFetch(query, language, countryCode, apiKey, api)
  {
    if !KeyConfigured(apiKey) {
      return [];
    }
    var targetCountry := ResolveCountry(countryCode);
    var params := GNewsRequest(query, language, targetCountry, GNewsMaxResults, apiKey.value, GNewsSortBy);
    var articlesData: seq<Dict> := [];
    var reply := api(params);
    if reply.Body? && reply.json.Obj? && Get(reply.json.fields, "articles", Null).Arr? {
      articlesData := MapGNewsArticles(Get(reply.json.fields, "articles", Null).items);
    }
    return articlesData;
  }
}
