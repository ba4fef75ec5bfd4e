/** The claim extractor: one LLM call that turns an article into a list of
    incidents, guarded against a missing client and blank text, with a
    check of the shape of the decoded reply. */
module ClaimExtractor {
  import opened Base
  import opened PyText
  import opened JsonValue

  const DefaultModel := "gpt-4o-mini"
  const ExtractionTemperature: real := 0.0
  const ExtractionMaxTokens: nat := 2500

  /** What the extractor sends to the chat-completion endpoint. The fixed
      prompt wording is not modelled; the article text it embeds is. */
  datatype ExtractionRequest = ExtractionRequest(
    model: string,
    articleText: string,
    temperature: real,
    maxTokens: nat,
    jsonObjectFormat: bool)

  /** What comes back from the call, once its content is stripped and decoded as JSON. */
  datatype ExtractionReply =
    | Parsed(value: Json)  // the reply's content, decoded as JSON
    | ApiError             // openai.APIError: rate limit, authentication, network
    | DecodeError          // the content is not valid JSON
    | OtherError           // any other exception, e.g. a reply without content

  /** An initialised LLM client, seen as a function from request to reply. */
  type ExtractionClient = ExtractionRequest -> ExtractionReply

  /** The model to ask: the given name, or the default when none or an empty one is given. */
  function ModelToUse(modelName: Option<string>): (model: string)
    ensures modelName == None || modelName == Some("") ==> model == DefaultModel
    ensures modelName.Some? && modelName.value != "" ==> model == modelName.value
  {
    if modelName.Some? && modelName.value != "" then modelName.value else DefaultModel
  }

  /** The one request the extractor makes for an article. */
  function RequestFor(articleText: string, modelName: Option<string>): ExtractionRequest {
    ExtractionRequest(ModelToUse(modelName), articleText, ExtractionTemperature, ExtractionMaxTokens, true)
  }

  /** The shape check on the decoded reply. `"incidents" in parsed` is a key
      test on a dict, a membership test on a list and a substring test on a
      string; indexing a list or a string by "incidents" raises, and `in` on a
      number, a boolean or null raises. Every exception gives None. */
  function IncidentsFromParsed(parsed: Json): (r: Option<seq<Json>>)
    ensures parsed.Obj? ==> r.Some?
    ensures parsed.Obj? && "incidents" in parsed.fields && parsed.fields["incidents"].Arr? ==>
              r == Some(parsed.fields["incidents"].items)
    ensures parsed.Obj? && !("incidents" in parsed.fields && parsed.fields["incidents"].Arr?) ==>
              r == Some([])
    ensures r.Some? && r.value != [] <==>
              parsed.Obj? && "incidents" in parsed.fields && parsed.fields["incidents"].Arr?
              && parsed.fields["incidents"].items != []
    ensures (parsed.Null? || parsed.Bool? || parsed.Num?) ==> r.None?
  {
    match parsed
    case Obj(m) => if "incidents" in m && m["incidents"].Arr? then Some(m["incidents"].items) else Some([])
    case Arr(xs) => if Str("incidents") in xs then None else Some([])
    case Str(s) => if Contains(s, "incidents") then None else Some([])
    case _ => None
  }

  /** `extract_incidents_from_article(article_text, llm_client, model_name)`. */
  function ExtractIncidents(articleText: string, client: Option<ExtractionClient>, modelName: Option<string>)
    : (r: Option<seq<Json>>)
    ensures client.None? ==> r.None?
    ensures AllSpace(articleText) ==> r.None?
    ensures r.Some? ==>
              && client.Some? && !AllSpace(articleText)
              && client.value(RequestFor(articleText, modelName)).Parsed?
              && r == IncidentsFromParsed(client.value(RequestFor(articleText, modelName)).value)
    ensures client.Some? && !AllSpace(articleText) && !client.value(RequestFor(articleText, modelName)).Parsed? ==>
              r.None?
    ensures client.Some? && !AllSpace(articleText) && client.value(RequestFor(articleText, modelName)).Parsed? ==>
              r == IncidentsFromParsed(client.value(RequestFor(articleText, modelName)).value)
  {
    if client.None? then None
    else if Strip(articleText) == "" then None
    else
      match client.value(RequestFor(articleText, modelName))
      case Parsed(parsed) => IncidentsFromParsed(parsed)
      case _ => None
  }

  /** Blank text is refused before the client is consulted: the result does
      not depend on the client at all. */
  lemma BlankTextNeverReachesClient(articleText: string, c1: ExtractionClient, c2: ExtractionClient, modelName: Option<string>)
    requires Strip(articleText) == ""
    ensures ExtractIncidents(articleText, Some(c1), modelName) == ExtractIncidents(articleText, Some(c2), modelName) == None
  {
  }

  /** A well-shaped reply `{"incidents": [...]}` is returned exactly as the
      model produced it, and a dict of any other shape gives the empty list,
      which is distinct from the None of a failure, whichever model is named. */
  lemma {:induction false} WellShapedReplyPassesThrough(
    articleText: string, c: ExtractionClient, modelName: Option<string>, m: Dict)
    requires !AllSpace(articleText)
    requires c(RequestFor(articleText, modelName)) == Parsed(Obj(m))
    ensures "incidents" in m && m["incidents"].Arr? ==>
              ExtractIncidents(articleText, Some(c), modelName) == Some(m["incidents"].items)
    ensures !("incidents" in m && m["incidents"].Arr?) ==>
              ExtractIncidents(articleText, Some(c), modelName) == Some([])
  {
    assert c(RequestFor(articleText, modelName)).Parsed?;
  }

  /** When no model name is given the request names gpt-4o-mini, with
      temperature 0, a 2500-token budget and a JSON-object reply format. */
  lemma DefaultRequest(articleText: string)
    ensures RequestFor(articleText, None) == ExtractionRequest("gpt-4o-mini", articleText, 0.0, 2500, true)
  {
  }
}
