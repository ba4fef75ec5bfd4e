/** The fact-checking pipeline: extract incidents, pool the articles fetched
    for their search statements, then verify every fact against the whole
    pool. Stages 1 and 2 fail fast; a failed verifier call only replaces that
    fact's verdict with a sentinel. */
module LlmProcessor {
  import opened Base
  import opened PyText
  import opened JsonValue
  import opened ClaimExtractor
  import opened SourceFetcher

  const VerificationModel := "gpt-4o-mini"
  const VerificationTemperature: real := 0.2
  const ErrorVerdict := "Error: Unable to get response"
  const ArticleSeparator := "\n\n"

  // ------------------------------------------------------ fact verification

  /** What the verifier sends: the fact and the flattened article text are
      embedded in a fixed prompt whose wording is not modelled. */
  datatype VerificationRequest = VerificationRequest(model: string, fact: Json, articlesText: string, temperature: real)

  /** The chat-completion reply: the first choice's content (which may be
      missing), or any exception raised by the call. */
  datatype ChatReply = Completed(content: Option<string>) | Failed

  type VerificationClient = VerificationRequest -> ChatReply

  function VerificationRequestFor(fact: Json, articlesText: string): VerificationRequest {
    VerificationRequest(VerificationModel, fact, articlesText, VerificationTemperature)
  }

  /** The verifier produced text for this fact. */
  predicate Answered(client: Option<VerificationClient>, fact: Json, articlesText: string) {
    && client.Some?
    && client.value(VerificationRequestFor(fact, articlesText)).Completed?
    && client.value(VerificationRequestFor(fact, articlesText)).content.Some?
  }

  /** `call_gpt_for_fact_verification(client, fact_text, all_articles_text)`:
      the stripped reply, or the sentinel when there is no client, the call
      raises, or the reply has no content. It never raises. */
  function VerifyFact(client: Option<VerificationClient>, fact: Json, articlesText: string): (verdict: string)
    ensures client.None? ==> verdict == ErrorVerdict
    ensures !Answered(client, fact, articlesText) ==> verdict == ErrorVerdict
    ensures Answered(client, fact, articlesText) ==>
              verdict == Strip(client.value(VerificationRequestFor(fact, articlesText)).content.value)
    ensures verdict != ErrorVerdict ==> Answered(client, fact, articlesText)
  {
    if client.None? then ErrorVerdict
    else
      match client.value(VerificationRequestFor(fact, articlesText))
      case Completed(Some(content)) => Strip(content)
      case _ => ErrorVerdict
  }

  // ------------------------------------------------- stage 2: article pool

  /** An incident's search statement, null when it has none. */
  function SearchStatement(incident: Dict): Json {
    Get(incident, "search_statement", Null)
  }

  /** Fetching for this incident raises: it is not a dict, or its truthy
      search statement is not a string and NewsData would URL-encode it. */
  predicate FetchRaises(incident: Json, sources: NewsSources) {
    || !incident.Obj?
    || (Truthy(SearchStatement(incident.fields)) && KeyConfigured(sources.newsDataKey)
        && !SearchStatement(incident.fields).Str?)
  }

  /** One iteration of the stage-2 loop: nothing for an incident without a
      search statement, otherwise NewsData's articles followed by GNews's. */
  function IncidentArticles(incident: Json, sources: NewsSources): (r: Outcome<seq<Dict>>)
    ensures r.Raised? <==> FetchRaises(incident, sources)
    ensures incident.Obj? && !Truthy(SearchStatement(incident.fields)) ==> r == Ok([])
    ensures incident.Obj? && Truthy(SearchStatement(incident.fields)) && r.Ok? ==>
              r.value == NewsDataFetch(SearchStatement(incident.fields), DefaultLanguage, Null, sources.newsDataKey, sources.newsData).value
                         + GNewsFetch(SearchStatement(incident.fields), DefaultLanguage, Null, sources.gnewsKey, sources.gnews)
  {
    if !incident.Obj? then Raised(AttributeError)
    else
      var query := SearchStatement(incident.fields);
      if !Truthy(query) then Ok([])
      else
        Concat(NewsDataFetch(query, DefaultLanguage, Null, sources.newsDataKey, sources.newsData),
               Ok(GNewsFetch(query, DefaultLanguage, Null, sources.gnewsKey, sources.gnews)))
  }

  /** The article pool of stage 2, in incident order. It raises exactly
      when some incident's fetch raises. */
  function Pool(incidents: seq<Json>, sources: NewsSources): (r: Outcome<seq<Dict>>)
    ensures r.Raised? <==> exists i :: 0 <= i < |incidents| && FetchRaises(incidents[i], sources)
  {
    if incidents == [] then Ok([])
    else
      assert forall i :: 0 <= i < |incidents| - 1 ==> incidents[1..][i] == incidents[i + 1];
      assert forall i :: 0 < i < |incidents| ==> incidents[i] == incidents[1..][i - 1];
      Concat(IncidentArticles(incidents[0], sources), Pool(incidents[1..], sources))
  }

  /** The pool of two lists of incidents is the pool of the first followed
      by the pool of the second. */
  lemma {:induction false} PoolAppend(a: seq<Json>, b: seq<Json>, sources: NewsSources)
    ensures Pool(a + b, sources) == Concat(Pool(a, sources), Pool(b, sources))
  {
    if a == [] {
      assert a + b == b;
    } else {
      assert (a + b)[0] == a[0];
      assert (a + b)[1..] == a[1..] + b;
      PoolAppend(a[1..], b, sources);
      ConcatAssoc(IncidentArticles(a[0], sources), Pool(a[1..], sources), Pool(b, sources));
    }
  }

  /** An incident without a search statement adds nothing to the pool,
      wherever it stands. */
  lemma QuerylessIncidentAddsNothing(a: seq<Json>, incident: Json, b: seq<Json>, sources: NewsSources)
    requires incident.Obj? && !Truthy(SearchStatement(incident.fields))
    ensures Pool(a + [incident] + b, sources) == Pool(a + b, sources)
  {
    PoolAppend(a + [incident], b, sources);
    PoolAppend(a, [incident], sources);
    assert Pool([incident], sources) == Ok([]);
    PoolAppend(a, b, sources);
    match Pool(a, sources)
    case Raised(_) =>
    case Ok(p) => assert p + [] == p;
  }

  // --------------------------------------------- stage 3: flattened text

  /** The source shown for a pooled article: its NewsData source name when that
      is truthy, otherwise its `name` value, and "Unknown" when it has no `name`. */
  function SourceLabel(article: Dict): (source: Json)
    ensures Truthy(Get(article, "source_id_from_api", Null)) ==> source == article["source_id_from_api"]
    ensures !Truthy(Get(article, "source_id_from_api", Null)) && "name" in article ==> source == article["name"]
    ensures !Truthy(Get(article, "source_id_from_api", Null)) && "name" !in article ==> source == Str("Unknown")
  {
    var sourceId := Get(article, "source_id_from_api", Null);
    if Truthy(sourceId) then sourceId else Get(article, "name", Str("Unknown"))
  }

  /** The text block of one pooled article: its title, then its description
      (each empty when missing), then its source label, on three lines. */
  function ArticleBlock(article: Dict, containerRepr: Json -> string): (block: string)
    ensures "Title: " + PyStr(Get(article, "title", Str("")), containerRepr) + "\nDescription: " <= block
    ensures var rest := "\nDescription: " + PyStr(Get(article, "description", Str("")), containerRepr)
                        + "\nSource: " + PyStr(SourceLabel(article), containerRepr);
            |rest| <= |block| && block[|block| - |rest|..] == rest
    ensures |block| == |"Title: "| + |PyStr(Get(article, "title", Str("")), containerRepr)|
                       + |"\nDescription: "| + |PyStr(Get(article, "description", Str("")), containerRepr)|
                       + |"\nSource: "| + |PyStr(SourceLabel(article), containerRepr)|
  {
    var title := PyStr(Get(article, "title", Str("")), containerRepr);
    var description := PyStr(Get(article, "description", Str("")), containerRepr);
    var source := PyStr(SourceLabel(article), containerRepr);
    LabelledFields("Title: ", title, "\nDescription: ", description, "\nSource: ", source);
    "Title: " + title + "\nDescription: " + description + "\nSource: " + source
  }

  /** Three labelled fields written one after another: the first label and
      field, then the second label, lead the text; the second label and
      everything after it end it. */
  lemma LabelledFields(l1: string, f1: string, l2: string, f2: string, l3: string, f3: string)
    ensures var text := l1 + f1 + l2 + f2 + l3 + f3;
            && l1 + f1 + l2 <= text
            && |l2 + f2 + l3 + f3| <= |text| && text[|text| - |l2 + f2 + l3 + f3|..] == l2 + f2 + l3 + f3
            && |text| == |l1| + |f1| + |l2| + |f2| + |l3| + |f3|
  {
    var text := l1 + f1 + l2 + f2 + l3 + f3;
    assert text == (l1 + f1 + l2) + (f2 + l3 + f3);
    assert text == (l1 + f1) + (l2 + f2 + l3 + f3);
  }

  function Blocks(pool: seq<Dict>, containerRepr: Json -> string): (blocks: seq<string>)
    ensures |blocks| == |pool|
    ensures forall k :: 0 <= k < |pool| ==> blocks[k] == ArticleBlock(pool[k], containerRepr)
  {
    seq(|pool|, k requires 0 <= k < |pool| => ArticleBlock(pool[k], containerRepr))
  }

  /** The article blocks joined by blank lines: every call of the verifier
      receives this one text. */
  function FlattenPool(pool: seq<Dict>, containerRepr: Json -> string): (text: string)
    ensures pool == [] ==> text == ""
    ensures pool != [] ==> ArticleBlock(pool[0], containerRepr) <= text
    ensures |text| == SumLengths(Blocks(pool, containerRepr)) + (if pool == [] then 0 else (|pool| - 1) * |ArticleSeparator|)
  {
    var blocks := Blocks(pool, containerRepr);
    JoinLength(ArticleSeparator, blocks);
    assert blocks != [] ==> blocks[0] <= Join(ArticleSeparator, blocks);
    Join(ArticleSeparator, blocks)
  }

  /** The flattened text grows article by article, in pool order, with a
      blank line between two articles; an empty pool gives the empty text. */
  lemma FlattenPoolSnoc(pool: seq<Dict>, article: Dict, containerRepr: Json -> string)
    ensures FlattenPool([], containerRepr) == ""
    ensures FlattenPool(pool + [article], containerRepr) ==
              if pool == [] then ArticleBlock(article, containerRepr)
              else FlattenPool(pool, containerRepr) + "\n\n" + ArticleBlock(article, containerRepr)
  {
    assert Blocks(pool + [article], containerRepr) == Blocks(pool, containerRepr) + [ArticleBlock(article, containerRepr)];
    JoinSnoc(ArticleSeparator, Blocks(pool, containerRepr), ArticleBlock(article, containerRepr));
  }

  // ------------------------------------------------ stage 3: verifications

  /** The elements the loop over an incident's facts (default: none) iterates over.
      A dict iterates its keys and a string its characters, and `.get` on
      either raises; a non-iterable value raises at once. */
  function FactItems(facts: Json): (r: Outcome<seq<Json>>)
    ensures facts.Arr? ==> r == Ok(facts.items)
    ensures facts.Obj? || facts.Str? ==> (r.Ok? <==> !Truthy(facts)) && (r.Ok? ==> r.value == [])
    ensures facts.Obj? || facts.Str? ==> (r.Raised? ==> r.error == AttributeError)
    ensures !(facts.Arr? || facts.Obj? || facts.Str?) ==> r == Raised(TypeError)
  {
    match facts
    case Arr(xs) => Ok(xs)
    case Obj(m) => if m == map[] then Ok([]) else Raised(AttributeError)
    case Str(s) => if s == "" then Ok([]) else Raised(AttributeError)
    case _ => Raised(TypeError)
  }

  /** The facts of an incident the stage-3 loop iterates over (none when that
      raises). */
  function FactsOf(incident: Json): seq<Json> {
    if incident.Obj? && FactItems(Get(incident.fields, "facts", Arr([]))).Ok? then
      FactItems(Get(incident.fields, "facts", Arr([]))).value
    else
      []
  }

  function TotalFacts(incidents: seq<Json>): nat {
    if incidents == [] then 0 else |FactsOf(incidents[0])| + TotalFacts(incidents[1..])
  }

  /** Position of incident i's first verification in incident-major order. */
  function Offset(incidents: seq<Json>, i: nat): nat
    requires i <= |incidents|
  {
    TotalFacts(incidents[..i])
  }

  /** One verification record: exactly the keys fact, related_search, verdict. */
  function VerificationRecord(fact: Json, relatedSearch: Json, verdict: string): (r: Dict)
    ensures r.Keys == {"fact", "related_search", "verdict"}
    ensures r["fact"] == fact && r["related_search"] == relatedSearch && r["verdict"] == Str(verdict)
  {
    map["fact" := fact, "related_search" := relatedSearch, "verdict" := Str(verdict)]
  }

  /** The record for one fact dict of an incident with search statement `searchQuery`. */
  function FactRecord(fact: Dict, searchQuery: Json, client: Option<VerificationClient>, articlesText: string): Dict {
    var statement := Get(fact, "statement", Null);
    VerificationRecord(statement, searchQuery, VerifyFact(client, statement, articlesText))
  }

  /** The inner loop over one incident's facts. It raises at the first fact
      that is not a dict; otherwise it gives one record per fact, in order,
      whatever the verifier answered. */
  function FactVerifications(facts: seq<Json>, searchQuery: Json, client: Option<VerificationClient>, articlesText: string)
    : (r: Outcome<seq<Dict>>)
    ensures r.Ok? <==> forall j :: 0 <= j < |facts| ==> facts[j].Obj?
    ensures r.Ok? ==> |r.value| == |facts|
    ensures r.Ok? ==> forall j :: 0 <= j < |facts| ==> r.value[j] == FactRecord(facts[j].fields, searchQuery, client, articlesText)
  {
    if facts == [] then Ok([])
    else
      var first := if facts[0].Obj? then Ok([FactRecord(facts[0].fields, searchQuery, client, articlesText)])
                   else Raised(AttributeError);
      var rest := FactVerifications(facts[1..], searchQuery, client, articlesText);
      assert forall j :: 1 <= j < |facts| ==> facts[1..][j - 1] == facts[j];
      Concat(first, rest)
  }

  /** An incident stage 3 can verify: a dict whose facts (default: none) can
      be iterated and are all dicts. */
  predicate VerifiableIncident(incident: Json) {
    && incident.Obj?
    && FactItems(Get(incident.fields, "facts", Arr([]))).Ok?
    && forall j :: 0 <= j < |FactsOf(incident)| ==> FactsOf(incident)[j].Obj?
  }

  /** One iteration of the outer stage-3 loop: it succeeds exactly for a
      verifiable incident, it raises for an incident that
      is not a dict, and when it succeeds it gives the records of the
      incident's facts, each tagged with the incident's search statement. */
  function IncidentVerifications(incident: Json, client: Option<VerificationClient>, articlesText: string)
    : (r: Outcome<seq<Dict>>)
    ensures r.Ok? <==> VerifiableIncident(incident)
    ensures !incident.Obj? ==> r == Raised(AttributeError)
    ensures r.Ok? ==> incident.Obj?
                      && r == FactVerifications(FactsOf(incident), SearchStatement(incident.fields), client, articlesText)
  {
    if !incident.Obj? then Raised(AttributeError)
    else
      match FactItems(Get(incident.fields, "facts", Arr([])))
      case Raised(e) => Raised(e)
      case Ok(facts) =>
        assert FactsOf(incident) == facts;
        FactVerifications(facts, SearchStatement(incident.fields), client, articlesText)
  }

  /** The verifications of stage 3, incident-major and fact-minor. They
      succeed exactly when every incident is verifiable, and then there is
      one per fact of every incident, including incidents whose articles
      were skipped in stage 2. */
  function Verifications(incidents: seq<Json>, client: Option<VerificationClient>, articlesText: string)
    : (r: Outcome<seq<Dict>>)
    ensures r.Ok? <==> forall i :: 0 <= i < |incidents| ==> VerifiableIncident(incidents[i])
    ensures r.Ok? ==> |r.value| == TotalFacts(incidents)
  {
    if incidents == [] then Ok([])
    else
      assert forall i :: 0 < i < |incidents| ==> incidents[i] == incidents[1..][i - 1];
      Concat(IncidentVerifications(incidents[0], client, articlesText), Verifications(incidents[1..], client, articlesText))
  }

  lemma OffsetStep(incidents: seq<Json>, i: nat)
    requires 0 < i <= |incidents|
    ensures Offset(incidents, i) == |FactsOf(incidents[0])| + Offset(incidents[1..], i - 1)
  {
    assert incidents[..i][0] == incidents[0];
    assert incidents[..i][1..] == incidents[1..][..i - 1];
  }

  /** Verification j of incident i sits at position Offset(i) + j of `vs`. */
  predicate RecordAt(incidents: seq<Json>, client: Option<VerificationClient>, articlesText: string, vs: seq<Dict>, i: nat, j: nat)
    requires i < |incidents| && j < |FactsOf(incidents[i])|
  {
    && incidents[i].Obj? && FactsOf(incidents[i])[j].Obj?
    && Offset(incidents, i) + j < |vs|
    && vs[Offset(incidents, i) + j] ==
         FactRecord(FactsOf(incidents[i])[j].fields, SearchStatement(incidents[i].fields), client, articlesText)
  }

  /** Verification k = Offset(i) + j is that of fact j of incident i: its
      `fact` is the fact's statement, its `related_search` the incident's
      search statement, and its verdict the verifier's answer for that
      statement against the same article text. */
  lemma {:induction false} VerificationsInOrder(
    incidents: seq<Json>, client: Option<VerificationClient>, articlesText: string, vs: seq<Dict>)
    requires Verifications(incidents, client, articlesText) == Ok(vs)
    ensures |vs| == TotalFacts(incidents)
    ensures forall i: nat, j: nat | i < |incidents| && j < |FactsOf(incidents[i])| ::
              RecordAt(incidents, client, articlesText, vs, i, j)
  {
    if incidents != [] {
      var head := IncidentVerifications(incidents[0], client, articlesText);
      var tail := Verifications(incidents[1..], client, articlesText);
      assert head.Ok? && tail.Ok?;
      var a := head.value;
      assert |a| == |FactsOf(incidents[0])|;
      assert vs == a + tail.value;
      VerificationsInOrder(incidents[1..], client, articlesText, tail.value);
      forall i: nat, j: nat | i < |incidents| && j < |FactsOf(incidents[i])|
        ensures RecordAt(incidents, client, articlesText, vs, i, j)
      {
        if i == 0 {
          assert vs[j] == a[j];
          RecordAtHead(incidents, client, articlesText, vs, j);
        } else {
          assert incidents[1..][i - 1] == incidents[i];
          RecordAtTail(incidents, client, articlesText, a, tail.value, i, j);
        }
      }
    }
  }

  lemma RecordAtHead(incidents: seq<Json>, client: Option<VerificationClient>, articlesText: string, vs: seq<Dict>, j: nat)
    requires incidents != [] && incidents[0].Obj? && j < |FactsOf(incidents[0])| && FactsOf(incidents[0])[j].Obj?
    requires j < |vs|
    requires vs[j] == FactRecord(FactsOf(incidents[0])[j].fields, SearchStatement(incidents[0].fields), client, articlesText)
    ensures RecordAt(incidents, client, articlesText, vs, 0, j)
  {
    assert incidents[..0] == [];
  }

  lemma RecordAtTail(incidents: seq<Json>, client: Option<VerificationClient>, articlesText: string, a: seq<Dict>, rest: seq<Dict>, i: nat, j: nat)
    requires 0 < i < |incidents| && j < |FactsOf(incidents[i])|
    requires |a| == |FactsOf(incidents[0])|
    requires incidents[1..][i - 1] == incidents[i]
    requires RecordAt(incidents[1..], client, articlesText, rest, i - 1, j)
    ensures RecordAt(incidents, client, articlesText, a + rest, i, j)
  {
    OffsetStep(incidents, i);
    var k := Offset(incidents[1..], i - 1) + j;
    assert (a + rest)[|a| + k] == rest[k];
  }

  /** Whether stage 3 raises depends only on the shape of the incidents and
      facts, never on what the verifier answers: a failed call does not stop
      the run. */
  lemma {:induction false} VerifierFailuresNeverAbort(
    incidents: seq<Json>, c1: Option<VerificationClient>, t1: string, c2: Option<VerificationClient>, t2: string)
    ensures Verifications(incidents, c1, t1).Ok? <==> Verifications(incidents, c2, t2).Ok?
  {
    if incidents != [] {
      VerifierFailuresNeverAbort(incidents[1..], c1, t1, c2, t2);
    }
  }

  // ---------------------------------------------------------- the pipeline

  /** The result bundle: exactly the keys incidents, articles, verifications. */
  function Bundle(incidents: seq<Json>, pool: seq<Dict>, verifications: seq<Dict>): (r: Dict)
    ensures r.Keys == {"incidents", "articles", "verifications"}
  {
    map["incidents" := Arr(incidents), "articles" := Arr(Objects(pool)), "verifications" := Arr(Objects(verifications))]
  }

  /** Filling `results` key by key gives the bundle. */
  lemma BundleByKeys(incidents: seq<Json>, pool: seq<Dict>, verifications: seq<Dict>)
    ensures map[]["incidents" := Arr(incidents)]["articles" := Arr(Objects(pool))]["verifications" := Arr(Objects(verifications))]
            == Bundle(incidents, pool, verifications)
  {
  }

  /** Stage 1 succeeded: a client exists and extraction gave a non-empty list. */
  predicate ExtractionSucceeds(articleText: string, extractionClient: Option<ExtractionClient>) {
    && extractionClient.Some?
    && ExtractIncidents(articleText, extractionClient, None).Some?
    && ExtractIncidents(articleText, extractionClient, None).value != []
  }

  /** Stages 2 and 3 for the extracted incidents: None when either raises,
      and otherwise the bundle of incidents, pool and verifications. */
  function LaterStages(
    incidents: seq<Json>,
    verificationClient: Option<VerificationClient>,
    sources: NewsSources,
    containerRepr: Json -> string)
    : (r: Option<Dict>)
    ensures r.Some? <==>
              && Pool(incidents, sources).Ok?
              && Verifications(incidents, verificationClient, FlattenPool(Pool(incidents, sources).value, containerRepr)).Ok?
    ensures r.Some? ==>
              && var pool := Pool(incidents, sources).value;
              && var vs := Verifications(incidents, verificationClient, FlattenPool(pool, containerRepr)).value;
              && r.value.Keys == {"incidents", "articles", "verifications"}
              && r.value["incidents"] == Arr(incidents)
              && r.value["articles"] == Arr(Objects(pool))
              && r.value["verifications"] == Arr(Objects(vs))
              && |vs| == TotalFacts(incidents)
  {
    match Pool(incidents, sources)
    case Raised(_) => None
    case Ok(pool) =>
      match Verifications(incidents, verificationClient, FlattenPool(pool, containerRepr))
      case Raised(_) => None
      case Ok(vs) => Some(Bundle(incidents, pool, vs))
  }

  /** `run_fact_checking_pipeline(article_text)` as a value: stage 1 fails
      fast, then the later stages run on the extracted incidents. */
  function FactCheck(
    articleText: string,
    extractionClient: Option<ExtractionClient>,
    verificationClient: Option<VerificationClient>,
    sources: NewsSources,
    containerRepr: Json -> string)
    : (r: Option<Dict>)
    ensures !ExtractionSucceeds(articleText, extractionClient) ==> r.None?
    ensures ExtractionSucceeds(articleText, extractionClient) ==>
              r == LaterStages(ExtractIncidents(articleText, extractionClient, None).value, verificationClient, sources, containerRepr)
  {
    if ExtractionSucceeds(articleText, extractionClient) then
      LaterStages(ExtractIncidents(articleText, extractionClient, None).value, verificationClient, sources, containerRepr)
    else
      None
  }

  /** A failed stage 1 ends the run before any provider or verifier is
      consulted: the outcome is None whatever they would do. */
  lemma Stage1FailureStopsTheRun(
    articleText: string, extractionClient: Option<ExtractionClient>,
    c1: Option<VerificationClient>, s1: NewsSources, r1: Json -> string,
    c2: Option<VerificationClient>, s2: NewsSources, r2: Json -> string)
    requires !ExtractionSucceeds(articleText, extractionClient)
    ensures FactCheck(articleText, extractionClient, c1, s1, r1) == FactCheck(articleText, extractionClient, c2, s2, r2) == None
  {
  }

  /** A successful run reports the extracted incidents unchanged and exactly
      one verification per fact, and whether the run succeeds does not depend
      on what the verifier answers. */
  lemma {:induction false} SuccessfulRunShape(
    articleText: string, extractionClient: Option<ExtractionClient>,
    c1: Option<VerificationClient>, c2: Option<VerificationClient>,
    sources: NewsSources, containerRepr: Json -> string)
    ensures FactCheck(articleText, extractionClient, c1, sources, containerRepr).Some? <==>
            FactCheck(articleText, extractionClient, c2, sources, containerRepr).Some?
    ensures FactCheck(articleText, extractionClient, c1, sources, containerRepr).Some? ==>
              && ExtractionSucceeds(articleText, extractionClient)
              && var incidents := ExtractIncidents(articleText, extractionClient, None).value;
              && var r := FactCheck(articleText, extractionClient, c1, sources, containerRepr).value;
              && r["incidents"] == Arr(incidents)
              && |r["verifications"].items| == TotalFacts(incidents)
  {
    if ExtractionSucceeds(articleText, extractionClient) {
      var incidents := ExtractIncidents(articleText, extractionClient, None).value;
      if Pool(incidents, sources).Ok? {
        var text := FlattenPool(Pool(incidents, sources).value, containerRepr);
        VerifierFailuresNeverAbort(incidents, c1, text, c2, text);
      }
    }
  }

  /** An incident `{"facts": [{"statement": statement}]}` with no search statement. */
  function OneFactIncident(statement: string): Json {
    Obj(map["facts" := Arr([Obj(map["statement" := Str(statement)])])])
  }

  /** Stage 3 for that one incident gives one record, whatever the text. */
  lemma OneFactVerifications(statement: string, verificationClient: Option<VerificationClient>, articlesText: string)
    ensures Verifications([OneFactIncident(statement)], verificationClient, articlesText) ==
              Ok([VerificationRecord(Str(statement), Null, VerifyFact(verificationClient, Str(statement), articlesText))])
  {
    var fact := Obj(map["statement" := Str(statement)]);
    var record := VerificationRecord(Str(statement), Null, VerifyFact(verificationClient, Str(statement), articlesText));
    assert FactRecord(fact.fields, Null, verificationClient, articlesText) == record;
    var fromFacts := FactVerifications([fact], Null, verificationClient, articlesText);
    assert [fact][0].Obj?;
    assert fromFacts.Ok? && |fromFacts.value| == 1 && fromFacts.value[0] == record;
    assert fromFacts.value == [fromFacts.value[0]];
    assert IncidentVerifications(OneFactIncident(statement), verificationClient, articlesText) == Ok([record]);
  }

  /** Stages 2 and 3 for that one incident. */
  lemma {:induction false} OneFactLaterStages(
    statement: string, verificationClient: Option<VerificationClient>, sources: NewsSources, containerRepr: Json -> string)
    ensures LaterStages([OneFactIncident(statement)], verificationClient, sources, containerRepr) ==
              Some(Bundle([OneFactIncident(statement)], [],
                          [VerificationRecord(Str(statement), Null, VerifyFact(verificationClient, Str(statement), ""))]))
  {
    var incident := OneFactIncident(statement);
    assert IncidentArticles(incident, sources) == Ok([]);
    assert Pool([incident], sources) == Ok([]);
    FlattenPoolSnoc([], map[], containerRepr);
    OneFactVerifications(statement, verificationClient, "");
  }

  /** An article whose one incident has one fact and no search statement:
      nothing is fetched, the verifier sees the empty text, and exactly one
      verification comes back, carrying a null related search. */
  lemma {:induction false} OneFactNoArticles(
    articleText: string, extraction: ExtractionClient, verificationClient: Option<VerificationClient>,
    sources: NewsSources, containerRepr: Json -> string, statement: string)
    requires !AllSpace(articleText)
    requires extraction(RequestFor(articleText, None)) == Parsed(Obj(map["incidents" := Arr([OneFactIncident(statement)])]))
    ensures FactCheck(articleText, Some(extraction), verificationClient, sources, containerRepr) ==
              Some(Bundle([OneFactIncident(statement)], [],
                          [VerificationRecord(Str(statement), Null, VerifyFact(verificationClient, Str(statement), ""))]))
  {
    WellShapedReplyPassesThrough(articleText, extraction, None, map["incidents" := Arr([OneFactIncident(statement)])]);
    OneFactLaterStages(statement, verificationClient, sources, containerRepr);
  }

  // ------------------------------------------------- the pipeline, in steps

  /** The stage-2 loop: the pool, or the exception one fetch raised. */
  method CollectArticles(incidents: seq<Json>, sources: NewsSources) returns (r: Outcome<seq<Dict>>)
    ensures r == Pool(incidents, sources)
  {
    var allArticles: seq<Dict> := [];
    var i := 0;
    while i < |incidents|
      invariant 0 <= i <= |incidents|
      invariant Pool(incidents, sources) == Prepend(allArticles, Pool(incidents[i..], sources))
    {
      assert incidents[i..][1..] == incidents[i + 1..];
      var incident := incidents[i];
      if !incident.Obj? {
        return Raised(AttributeError);
      }
      var query := Get(incident.fields, "search_statement", Null);
      var articles: seq<Dict> := [];
      if Truthy(query) {
        var fromNewsData := FetchFromNewsData(query, DefaultLanguage, Null, sources.newsDataKey, sources.newsData);
        if fromNewsData.Raised? {
          return Raised(fromNewsData.error);
        }
        var fromGNews := FetchFromGNews(query, DefaultLanguage, Null, sources.gnewsKey, sources.gnews);
        articles := fromNewsData.value + fromGNews;
      }
      assert IncidentArticles(incident, sources) == Ok(articles);
      PrependConcat(allArticles, IncidentArticles(incident, sources), Pool(incidents[i + 1..], sources));
      allArticles := allArticles + articles;
      i := i + 1;
    }
    assert incidents[i..] == [];
    assert allArticles + [] == allArticles;
    return Ok(allArticles);
  }

  /** The flattening loop of stage 3. */
  method FlattenArticles(allArticles: seq<Dict>, containerRepr: Json -> string) returns (articleTexts: string)
    ensures articleTexts == FlattenPool(allArticles, containerRepr)
  {
    var flatArticles: seq<string> := [];
    var k := 0;
    while k < |allArticles|
      invariant 0 <= k <= |allArticles|
      invariant |flatArticles| == k
      invariant forall m :: 0 <= m < k ==> flatArticles[m] == ArticleBlock(allArticles[m], containerRepr)
    {
      var article := allArticles[k];
      var title := Get(article, "title", Str(""));
      var description := Get(article, "description", Str(""));
      var sourceId := Get(article, "source_id_from_api", Null);
      var source := if Truthy(sourceId) then sourceId else Get(article, "name", Str("Unknown"));
      flatArticles := flatArticles + ["Title: " + PyStr(title, containerRepr) + "\nDescription: " + PyStr(description, containerRepr)
                                      + "\nSource: " + PyStr(source, containerRepr)];
      k := k + 1;
    }
    assert flatArticles == Blocks(allArticles, containerRepr);
    articleTexts := Join(ArticleSeparator, flatArticles);
  }

  /** The inner loop of stage 3, over one incident's facts. */
  method VerifyFacts(facts: seq<Json>, searchQuery: Json, verificationClient: Option<VerificationClient>, articleTexts: string)
    returns (r: Outcome<seq<Dict>>)
    ensures r == FactVerifications(facts, searchQuery, verificationClient, articleTexts)
  {
    var verifications: seq<Dict> := [];
    var j := 0;
    while j < |facts|
      invariant 0 <= j <= |facts|
      invariant FactVerifications(facts, searchQuery, verificationClient, articleTexts)
                == Prepend(verifications, FactVerifications(facts[j..], searchQuery, verificationClient, articleTexts))
    {
      assert facts[j..][1..] == facts[j + 1..];
      var fact := facts[j];
      if !fact.Obj? {
        return Raised(AttributeError);
      }
      var factText := Get(fact.fields, "statement", Null);
      var verdict := VerifyFact(verificationClient, factText, articleTexts);
      var record := map["fact" := factText, "related_search" := searchQuery, "verdict" := Str(verdict)];
      PrependConcat(verifications, Ok([record]), FactVerifications(facts[j + 1..], searchQuery, verificationClient, articleTexts));
      verifications := verifications + [record];
      j := j + 1;
    }
    assert facts[j..] == [];
    assert verifications + [] == verifications;
    return Ok(verifications);
  }

  /** The outer verification loop of stage 3, over the incidents. */
  method VerifyIncidents(incidents: seq<Json>, verificationClient: Option<VerificationClient>, articleTexts: string)
    returns (r: Outcome<seq<Dict>>)
    ensures r == Verifications(incidents, verificationClient, articleTexts)
  {
    var allVerifications: seq<Dict> := [];
    var i := 0;
    while i < |incidents|
      invariant 0 <= i <= |incidents|
      invariant Verifications(incidents, verificationClient, articleTexts)
                == Prepend(allVerifications, Verifications(incidents[i..], verificationClient, articleTexts))
    {
      assert incidents[i..][1..] == incidents[i + 1..];
      var incident := incidents[i];
      if !incident.Obj? {
        return Raised(AttributeError);
      }
      var searchQuery := Get(incident.fields, "search_statement", Null);
      var items := FactItems(Get(incident.fields, "facts", Arr([])));
      if items.Raised? {
        return Raised(items.error);
      }
      var fromIncident := VerifyFacts(items.value, searchQuery, verificationClient, articleTexts);
      if fromIncident.Raised? {
        return Raised(fromIncident.error);
      }
      PrependConcat(allVerifications, IncidentVerifications(incident, verificationClient, articleTexts),
                    Verifications(incidents[i + 1..], verificationClient, articleTexts));
      allVerifications := allVerifications + fromIncident.value;
      i := i + 1;
    }
    assert incidents[i..] == [];
    assert allVerifications + [] == allVerifications;
    return Ok(allVerifications);
  }

  /** `run_fact_checking_pipeline`: the three stages fill `results` in turn,
      and an exception in a stage ends the run with None. */
  method RunFactCheckingPipeline(
    articleText: string,
    extractionClient: Option<ExtractionClient>,
    verificationClient: Option<VerificationClient>,
    sources: NewsSources,
    containerRepr: Json -> string)
    returns (result: Option<Dict>)
    ensures result == FactCheck(articleText, extractionClient, verificationClient, sources, containerRepr)
  {
    var results: Dict := map[];

    // Stage 1: extract the incidents.
    if extractionClient.None? {
      return None;
    }
    var extracted := ExtractIncidents(articleText, extractionClient, None);
    if extracted.None? || extracted.value == [] {
      return None;
    }
    var incidents := extracted.value;
    results := results["incidents" := Arr(incidents)];

    // Stage 2: pool the articles.
    var pooled := CollectArticles(incidents, sources);
    if pooled.Raised? {
      return None;
    }
    var allArticles := pooled.value;
    results := results["articles" := Arr(Objects(allArticles))];

    // Stage 3: verify every fact against the flattened pool.
    var articleTexts := FlattenArticles(allArticles, containerRepr);
    var verified := VerifyIncidents(incidents, verificationClient, articleTexts);
    if verified.Raised? {
      return None;
    }
    results := results["verifications" := Arr(Objects(verified.value))];
    BundleByKeys(incidents, allArticles, verified.value);
    return Some(results);
  }
}
