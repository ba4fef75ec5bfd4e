# Fact-checking pipeline, modelled in Dafny

The repository is an AI fact-checking tool. Given the text of a news article, it runs three stages:

1. **Extraction.** A language model extracts *incidents*. Each incident has a search statement and a list of facts.
2. **Fetching.** For every incident that has a search statement, articles are fetched from two news providers, NewsData.io and GNews.io. All of them are pooled.
3. **Verification.** A second model call verifies every fact of every incident against the whole pool, flattened into one text.

This project models the deterministic part of that pipeline and proves what it promises. The language model and the news providers are oracles: function parameters from a request to a reply datatype.

- `base.dfy` (module `Base`):
  - `Option`, and `Outcome` (a value or a Python exception);
  - `Prepend` and `Concat`, which sequence code that may raise.
- `pytext.dfy` (module `PyText`): the Python string operations used by the core:
  - `strip` with Python's full white-space set;
  - `lower`, `join` and substring `in`;
  - `str()` of an integer.
- `json.dfy` (module `JsonValue`):
  - decoded JSON values, with dictionaries as maps;
  - Python truthiness, `dict.get`, and `str()` of a value.
- `claim_extractor.dfy` (module `ClaimExtractor`): `extract_incidents_from_article`, meaning its guards, the one request, and the shape check of the decoded reply.
- `source_fetcher.dfy` (module `SourceFetcher`): `fetch_from_newsdata` and `fetch_from_gnews_io`.
  - Each is a specification function from the provider's reply to a list of records.
  - Each is also an imperative method whose loop builds that list, proved equal to the function.
- `llm_processor.dfy` (module `LlmProcessor`): `call_gpt_for_fact_verification` and `run_fact_checking_pipeline`.
  - The stages are specification functions: `Pool`, `FlattenPool`, `Verifications`, `FactCheck`.
  - The method `RunFactCheckingPipeline` fills the `results` dictionary stage by stage.
  - It calls one loop method per stage loop: `CollectArticles`, `FlattenArticles`, `VerifyIncidents` and `VerifyFacts`.
  - Each loop method is proved equal to its specification function.

Python exceptions are modelled where the core can raise on malformed data. Examples:
- `.get` on an element that is not a dictionary;
- iterating a value that is not a list;
- URL-encoding a query that is not a string.

A stage that raises makes the pipeline return None. A fetch loop that meets a malformed element keeps the records it had already appended, because its exception handler returns the partial list.

### Behaviour worth noting

- A malformed element partway through a provider's results keeps the records appended before it (`SourceFetcher.NewsDataRecordsShape`, `SourceFetcher.GNewsRecordsShape`).
- `fetch_from_newsdata` URL-encodes the query outside its `try`. A truthy query that is not a string therefore raises into stage 2 when the NewsData key is set, and the pipeline returns None (`SourceFetcher.NewsDataFetch`, `LlmProcessor.Pool`).
- An incident without a search statement is skipped in stage 2, but its facts are still verified in stage 3, with a null `related_search` (`LlmProcessor.QuerylessIncidentAddsNothing`, `LlmProcessor.OneFactNoArticles`).
- There is no retry loop, no confidence score and no parsing of verdicts: a verdict is an opaque string.

## Model

| member | source | states |
|---|---|---|
| ClaimExtractor.ModelToUse | core/claim_extractor.py:33 | the given model name, or "gpt-4o-mini" when no name or an empty one is given |
| ClaimExtractor.IncidentsFromParsed | core/claim_extractor.py:90-104 | a dict whose "incidents" is a list gives exactly that list; any other dict gives the empty list, which is not None; null, numbers and booleans give None; a non-empty result arises only from a well-shaped dict with a non-empty list |
| ClaimExtractor.ExtractIncidents | core/claim_extractor.py:18-104 | None without a client or for white-space-only text; with a client and text that is not blank, a decoded reply to the one request gives exactly the shape check of that reply, and an API, decode or other error gives None |
| ClaimExtractor.BlankTextNeverReachesClient | core/claim_extractor.py:29-31 | white-space-only text gives None whichever client is given, so the client is never consulted |
| ClaimExtractor.WellShapedReplyPassesThrough | core/claim_extractor.py:90-95 | whichever model is named, a reply {"incidents": list} returns that list unchanged, and a dict of any other shape returns the empty list |
| ClaimExtractor.DefaultRequest | core/claim_extractor.py:76-85 | with no model name the request names gpt-4o-mini, temperature 0, 2500 tokens and a JSON-object reply |
| PyText.Strip | core/claim_extractor.py:29 | the text is the result with only white space before and after it; the result is empty exactly when the text is all white space, and otherwise starts and ends with a non-white-space character |
| SourceFetcher.ResolveCountry | core/source_fetcher.py:24 | a string code with non-white-space content gives its lower-case form, anything else gives "in"; the result is never blank |
| SourceFetcher.NewsDataRecordFields | core/source_fetcher.py:44-49 | a NewsData record has exactly article_id, title, description and source_id_from_api, the last being the input's source_name |
| SourceFetcher.NewsDataRecords | core/source_fetcher.py:43-49 | the append loop's list has at most one record per result |
| SourceFetcher.NewsDataRecordsShape | core/source_fetcher.py:43-49 | record k is the mapping of result k; the loop stops only at a result that is not a dict; when all results are dicts none is dropped |
| SourceFetcher.NewsDataArticles | core/source_fetcher.py:41-53 | at most 10 records; none unless status is "success"; otherwise the records of the leading results, in order |
| SourceFetcher.NewsDataFetch | core/source_fetcher.py:18-63 | a missing or empty key gives the empty list; it raises exactly when the key is set and the query is not a string; at most 10 records; an HTTP, URL or other failure gives the empty list |
| SourceFetcher.NewsDataKeyGuard | core/source_fetcher.py:19-21 | without a key the outcome is the empty list whatever the provider would answer, so no request is made |
| SourceFetcher.NewsDataFirstTen | core/source_fetcher.py:41-43 | a successful reply whose results are all dicts yields exactly the first min(10, n) of them, mapped in order |
| SourceFetcher.MapNewsDataResults | core/source_fetcher.py:43-49 | the append loop builds exactly NewsDataRecords of its input |
| SourceFetcher.FetchFromNewsData | core/source_fetcher.py:18-63 | the method's outcome equals NewsDataFetch |
| SourceFetcher.GNewsRecordFields | core/source_fetcher.py:94-101 | a GNews record has exactly title, description, content and name; name is source.name, or "Unknown Source" when absent |
| SourceFetcher.GNewsRecords | core/source_fetcher.py:93-101 | the append loop's list has at most one record per article |
| SourceFetcher.GNewsRecordsShape | core/source_fetcher.py:93-101 | record k is the mapping of article k; the loop stops only at an article that cannot be mapped; when all can be, none is dropped |
| SourceFetcher.GNewsArticles | core/source_fetcher.py:92-104 | a body without a list "articles" gives the empty list; otherwise the records of that list |
| SourceFetcher.GNewsFetch | core/source_fetcher.py:66-118 | a missing key gives the empty list; every failed request gives the empty list; a decoded body gives its records |
| SourceFetcher.GNewsKeyGuard | core/source_fetcher.py:67-69 | without a key the outcome is the empty list whatever the provider would answer |
| SourceFetcher.GNewsOnePerArticle | core/source_fetcher.py:92-101 | when every article can be mapped there is one record per article, in order, with no cap |
| SourceFetcher.MapGNewsArticles | core/source_fetcher.py:93-101 | the append loop builds exactly GNewsRecords of its input |
| SourceFetcher.FetchFromGNews | core/source_fetcher.py:66-118 | the method's result equals GNewsFetch |
| LlmProcessor.VerifyFact | core/llm_processor.py:109-145 | the stripped reply when the verifier answers with content; "Error: Unable to get response" with no client, a failed call or no content; any other verdict implies an answer |
| LlmProcessor.IncidentArticles | core/llm_processor.py:52-57 | an incident without a truthy search statement contributes nothing; otherwise NewsData's records followed by GNews's; it raises exactly when FetchRaises holds |
| LlmProcessor.PoolAppend | core/llm_processor.py:51-57 | the pool of two incident lists is the pool of the first followed by the pool of the second |
| LlmProcessor.QuerylessIncidentAddsNothing | core/llm_processor.py:53-55 | inserting an incident without a search statement anywhere leaves the pool unchanged |
| LlmProcessor.Pool | core/llm_processor.py:50-57 | stage 2 raises exactly when some incident is not a dict or has a non-string truthy query while the NewsData key is set |
| LlmProcessor.SourceLabel | core/llm_processor.py:79 | source_id_from_api when truthy; else the value of name; "Unknown" only when name is absent |
| LlmProcessor.ArticleBlock | core/llm_processor.py:77-80 | a block is "Title: " and `str()` of the title, then "\nDescription: " and `str()` of the description, then "\nSource: " and `str()` of the source label, each missing field shown as empty text and a null one as "None"; its length is the sum of those parts |
| LlmProcessor.Blocks | core/llm_processor.py:76-80 | one text block per pooled article, in pool order |
| LlmProcessor.FlattenPool | core/llm_processor.py:82 | an empty pool gives the empty text; otherwise the text starts with the first article's block, and its length is that of all blocks plus one blank line between two of them |
| LlmProcessor.FlattenPoolSnoc | core/llm_processor.py:75-82 | the flattened text of an empty pool is empty, and each further article adds a blank line and its block at the end |
| LlmProcessor.FactItems | core/llm_processor.py:86 | a list gives its elements; an empty dict or string gives no element and a non-empty one raises AttributeError; any other value raises TypeError |
| LlmProcessor.VerificationRecord | core/llm_processor.py:90-94 | exactly the keys fact, related_search and verdict, holding the given values |
| LlmProcessor.FactVerifications | core/llm_processor.py:86-94 | succeeds exactly when every fact is a dict; then one record per fact, in order, whatever the verifier answered |
| LlmProcessor.IncidentVerifications | core/llm_processor.py:84-94 | succeeds exactly when the incident is a dict whose facts can be iterated and are all dicts; an incident that is not a dict raises AttributeError; on success the records are those of the incident's facts, tagged with its search statement |
| LlmProcessor.Verifications | core/llm_processor.py:84-94 | succeeds exactly when every incident is verifiable; on success there are as many verifications as facts over all incidents |
| LlmProcessor.VerificationsInOrder | core/llm_processor.py:84-94 | verification Offset(i)+j belongs to fact j of incident i: that fact's statement, the incident's search statement, and the verdict for that statement against the same text |
| LlmProcessor.VerifierFailuresNeverAbort | core/llm_processor.py:84-94 | whether stage 3 raises does not depend on the verifier or on the text, so a failed call never stops the run |
| LlmProcessor.Bundle | core/llm_processor.py:96-102 | the result has exactly the keys incidents, articles and verifications |
| LlmProcessor.LaterStages | core/llm_processor.py:49-105 | Some exactly when stages 2 and 3 both complete; then the bundle of the incidents, the pool and one verification per fact |
| LlmProcessor.FactCheck | core/llm_processor.py:21-105 | None when extraction has no client or gives None or an empty list; otherwise the outcome of the later stages on the extracted incidents |
| LlmProcessor.Stage1FailureStopsTheRun | core/llm_processor.py:26-35 | a failed stage 1 gives None whatever the providers and the verifier would do |
| LlmProcessor.SuccessfulRunShape | core/llm_processor.py:84-102 | a successful run reports the extracted incidents unchanged and one verification per fact; success does not depend on the verifier |
| LlmProcessor.OneFactNoArticles | core/llm_processor.py:21-105 | one incident with one fact and no search statement gives an empty pool, an empty text and exactly one verification with a null related search |
| LlmProcessor.CollectArticles | core/llm_processor.py:50-59 | the stage-2 loop's outcome equals Pool |
| LlmProcessor.FlattenArticles | core/llm_processor.py:75-82 | the flattening loop's text equals FlattenPool |
| LlmProcessor.VerifyFacts | core/llm_processor.py:86-94 | the inner loop's outcome equals FactVerifications |
| LlmProcessor.VerifyIncidents | core/llm_processor.py:84-94 | the outer loop's outcome equals Verifications |
| LlmProcessor.RunFactCheckingPipeline | core/llm_processor.py:21-105 | the method's result equals FactCheck |

## Left out

- Streamlit status widgets, logging and the `time.sleep` pauses: presentation and timing only.
- The three JSON file writes: file I/O. A write that failed would end its stage with None; the model assumes writes succeed.
- Client construction (both `initialize_openai_client` functions and settings): their results are the `Option` client inputs. The API keys are inputs too.
- HTTP transport, URL encoding and the OpenAI calls: each provider and each model is a deterministic function from the modelled request to a reply. Nondeterminism and timing of real calls are not modelled.
- Prompt wording: a request carries the article text, or the fact and the article text, but not the fixed instructions around them.
- JSON numbers are integers; floating-point values are not modelled.
- `str()` of a list or dict in a text block is the parameter `containerRepr`: Python's `repr` format is not modelled.
- PyText.Lower: lowers ASCII letters only; Python's full Unicode case mapping is not modelled.
- NewsData's `query` in the request is the text before URL encoding; the encoding itself is not modelled.
- Strings are sequences of Unicode scalar values, so lone surrogates, and the UnicodeEncodeError that URL encoding raises on them, are not modelled.
- Exceptions raised by the oracles' own machinery beyond the reply variants listed (an `HttpReply` or `ExtractionReply` failure case covers every exception the source catches).
- Key order of dicts: records are maps, so the insertion order Python keeps is not represented; the order of lists is.
