/**
 * The entry point (`run`): derive the keywords from the query, assemble the
 * grounding document, and ask the primary model with the document or, when
 * the document is empty, the fallback model with the query alone.
 */
module Orchestrator {
  import opened Wrappers
  import opened Text
  import opened Harvest
  import opened Relevance
  import opened Grounding
  import opened Generation

  /** `userQuery.toLowerCase().split(/\s+/)`. */
  function QueryKeywords(query: string): (r: seq<string>)
    ensures |r| >= 1
    ensures forall k :: 0 <= k < |r| ==> NoSpace(r[k]) && NoUpper(r[k])
  {
    SplitOnSpacesNoUpper(ToLower(query));
    SplitOnSpaces(ToLower(query))
  }

  /** Splitting the query loses only its whitespace. */
  lemma QueryKeywordsKeepText(query: string)
    ensures Concat(QueryKeywords(query)) == RemoveSpaces(ToLower(query))
  {
    SplitOnSpacesLosesOnlySpaces(ToLower(query));
  }

  /** The keywords are the pieces of the lower-cased query between its maximal whitespace runs. */
  lemma QueryKeywordsCuts(query: string) returns (seps: seq<string>)
    ensures var r := QueryKeywords(query);
      && |seps| + 1 == |r|
      && (forall k :: 0 <= k < |seps| ==> seps[k] != "" && AllSpace(seps[k]))
      && Interleave(r, seps) == ToLower(query)
      && (forall k :: 0 < k < |seps| ==> r[k] != "")
  {
    seps := SplitOnSpacesCuts(ToLower(query));
  }

  /** `head`, then `doc`, then `mid`, then the query at the end. */
  function Embed(head: string, doc: string, mid: string, query: string): (p: string)
    ensures EndsWith(p, query)
    ensures Contains(p[..|p| - |query|], doc)
    ensures Contains(p, doc)
  {
    var p := head + doc + mid + query;
    assert p[..|p| - |query|] == head + doc + mid;
    ContainsInfix(head, doc, mid + query);
    assert p == head + doc + (mid + query);
    ContainsInfix(head, doc, mid);
    p
  }

  const FALLBACK_HEAD: string :=
    "Based on available data, please provide information and assistance related to the user's query.\n\nUser Query: "
  const GROUNDED_HEAD: string :=
    "Based on the content from the Foster Nation website, please provide information and assistance related to the user's query.\n\nWebsite Content:\n"
  const QUERY_LABEL: string := "\n\nUser Query: "

  /** The ungrounded prompt: an instruction followed by the query and nothing else. */
  function FallbackPrompt(query: string): (p: string)
    ensures EndsWith(p, query)
  {
    FALLBACK_HEAD + query
  }

  /** The grounded prompt: the document is embedded before the query, which ends the prompt. */
  function GroundedPrompt(doc: string, query: string): (p: string)
    ensures EndsWith(p, query)
    ensures Contains(p[..|p| - |query|], doc)
    ensures Contains(p, doc)
  {
    Embed(GROUNDED_HEAD, doc, QUERY_LABEL, query)
  }

  datatype Choice = Choice(model: ModelId, prompt: string)

  /** `if (!websiteContent)`: an empty document selects the fallback model and the query-only prompt. */
  function ChoosePath(doc: string, query: string): (c: Choice)
    ensures c.model == Fallback <==> doc == ""
    ensures c.model == Fallback ==> c.prompt == FallbackPrompt(query)
    ensures c.model == Primary ==> c.prompt == GroundedPrompt(doc, query) && Contains(c.prompt, doc)
  {
    if doc == "" then Choice(Fallback, FallbackPrompt(query))
    else Choice(Primary, GroundedPrompt(doc, query))
  }

  datatype Outcome = Outcome(model: ModelId, prompt: string, response: Response, trace: seq<Event>)

  method Run(fetch: PageFetcher, backend: Backend, baseUrl: string, query: string,
             seedPage: Option<seq<Anchor>>, resolve: Resolver)
    returns (o: Outcome)
    ensures var g := GroundingOf(fetch, baseUrl, seedPage, resolve, QueryKeywords(query));
      var c := ChoosePath(g.doc, query);
      && o.trace == g.trace
      && o.model == c.model && o.prompt == c.prompt
      && o.response == Respond(c.model, c.prompt, MAX_RETRIES, backend, 0)
  {
    var userKeywords := QueryKeywords(query);
    var websiteContent, trace := ExtractContentFromRelevantPages(fetch, baseUrl, seedPage, resolve, userKeywords);
    if websiteContent == "" {
      var finalPrompt := FallbackPrompt(query);
      var fallbackResponse := GetFallbackChatbotResponse(finalPrompt, backend);
      return Outcome(Fallback, finalPrompt, fallbackResponse, trace);
    }
    var finalPrompt := GroundedPrompt(websiteContent, query);
    var chatbotResponse := GetChatbotResponse(finalPrompt, backend);
    o := Outcome(Primary, finalPrompt, chatbotResponse, trace);
  }

  /** When no harvested link is relevant to the query, the fallback model answers the bare query. */
  lemma NoRelevantLinksFallsBack(fetch: PageFetcher, baseUrl: string, query: string,
                                 seedPage: Option<seq<Anchor>>, resolve: Resolver)
    requires RelevantLinks(baseUrl, seedPage, resolve, QueryKeywords(query)) == []
    ensures var g := GroundingOf(fetch, baseUrl, seedPage, resolve, QueryKeywords(query));
      ChoosePath(g.doc, query) == Choice(Fallback, FallbackPrompt(query))
  {
    GroundingEmptyCases(fetch, baseUrl, seedPage, resolve, QueryKeywords(query));
  }

  /** The primary model is used exactly when some relevant link yielded text under some identity. */
  lemma PrimaryIffSomeText(fetch: PageFetcher, baseUrl: string, query: string,
                           seedPage: Option<seq<Anchor>>, resolve: Resolver)
    ensures var keywords := QueryKeywords(query);
      var relevant := RelevantLinks(baseUrl, seedPage, resolve, keywords);
      var g := GroundingOf(fetch, baseUrl, seedPage, resolve, keywords);
      var primary := ChoosePath(g.doc, query).model == Primary;
      primary <==> exists i :: 0 <= i < |relevant| && Rotate(fetch, i, relevant[i].url).text != ""
  {
    GroundingEmptyIff(fetch, baseUrl, seedPage, resolve, QueryKeywords(query));
  }
}
