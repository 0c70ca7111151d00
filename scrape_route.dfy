/**
  src/app/api/scrape/route.ts, POST: ask the model whether the last user
  message needs a web search; if so, fetch the top Google results, take each
  page's text from the cache or from the scraper, and replace the user's
  text by a prompt that embeds the query, the pages and the original text.

  The model call, JSON.parse, the Google page, the Redis lookup and the
  scraper are collaborators passed in as functions.
 */
module ScrapeRoute {
  import opened Wrappers
  import opened JsValues
  import opened Scraper
  import opened Conversation

  /** How much of a cached page is used. */
  const MaxContentLength: nat := 5000

  /** `redis.get(key)`: it threw, or it gave a value (`Null` when absent). */
  datatype CacheReply = LookupFailed | Found(value: JsValue)

  /** One entry of `allWebPageContent`. */
  datatype WebPage = WebPage(title: string, link: string, content: string)

  datatype Services = Services(
    decide: seq<Outgoing> -> LlmReply,
    parse: string -> Option<DecisionFields>,
    google: string -> Option<seq<Heading>>,
    cache: string -> CacheReply,
    scrape: string -> Option<string>)

  function CacheKey(link: string): string
  {
    "scrape " + link
  }

  // ----- one page: cache, else scraper; null on any error -----

  /** The `topResults.map` callback for one search result. `None` is the
      `null` of the catch block. A cached value other than a string has no
      `slice` and throws. */
  function PageEntry(page: SearchResult, cache: string -> CacheReply, scrape: string -> Option<string>): (entry: Option<WebPage>)
    ensures entry.Some? ==> entry.value.title == page.title && entry.value.link == page.link
  {
    match cache(CacheKey(page.link))
    case LookupFailed => None
    case Found(cached) =>
      if Truthy(cached) then
        if cached.Str? then Some(WebPage(page.title, page.link, Prefix(cached.s, MaxContentLength))) else None
      else
        match scrape(page.link)
        case None => None
        case Some(content) => Some(WebPage(page.title, page.link, content))
  }

  /** A non-empty cached string is used instead of the scraper, cut to its
      first 5000 characters. */
  lemma CachedPageIsCut(page: SearchResult, cache: string -> CacheReply, scrape: string -> Option<string>, text: string)
    requires cache(CacheKey(page.link)) == Found(Str(text)) && text != ""
    ensures PageEntry(page, cache, scrape).Some?
    ensures var content := PageEntry(page, cache, scrape).value.content;
      content <= text && |content| == (if |text| <= MaxContentLength then |text| else MaxContentLength)
  {
  }

  /** On a miss the scraper's text is used as it is, with no cut; a scraper
      that throws gives a null entry. */
  lemma MissedPageIsScraped(page: SearchResult, cache: string -> CacheReply, scrape: string -> Option<string>)
    requires cache(CacheKey(page.link)).Found? && !Truthy(cache(CacheKey(page.link)).value)
    ensures scrape(page.link).None? ==> PageEntry(page, cache, scrape) == None
    ensures scrape(page.link).Some? ==>
      PageEntry(page, cache, scrape) == Some(WebPage(page.title, page.link, scrape(page.link).value))
  {
  }

  /** A failed lookup gives a null entry, whatever the scraper would say. */
  lemma FailedLookupIsNull(page: SearchResult, cache: string -> CacheReply, scrape: string -> Option<string>)
    requires cache(CacheKey(page.link)) == LookupFailed
    ensures PageEntry(page, cache, scrape) == None
  {
  }

  /** `Promise.all(topResults.map(...))`, one entry per result, in order;
      each entry depends on its own result only. */
  function PageEntries(results: seq<SearchResult>, cache: string -> CacheReply, scrape: string -> Option<string>): (entries: seq<Option<WebPage>>)
    ensures |entries| == |results|
    ensures forall i :: 0 <= i < |results| ==> entries[i] == PageEntry(results[i], cache, scrape)
  {
    if results == [] then [] else [PageEntry(results[0], cache, scrape)] + PageEntries(results[1..], cache, scrape)
  }

  /** With the repository's scraper, every page not in the cache carries the
      placeholder text. */
  lemma PlaceholderForMissedPages(results: seq<SearchResult>, cache: string -> CacheReply, i: nat)
    requires i < |results|
    requires cache(CacheKey(results[i].link)).Found? && !Truthy(cache(CacheKey(results[i].link)).value)
    ensures PageEntries(results, cache, url => Some(ScrapeWebPage(url)))[i] ==
      Some(WebPage(results[i].title, results[i].link, Placeholder))
  {
  }

  // ----- the prompt template -----

  const Indent := "          "
  const DeepIndent := "            "

  /** `${page?.title}` and the like: a null entry shows "undefined". */
  function TitleText(entry: Option<WebPage>): string
  {
    if entry.Some? then entry.value.title else "undefined"
  }

  function LinkText(entry: Option<WebPage>): string
  {
    if entry.Some? then entry.value.link else "undefined"
  }

  function ContentText(entry: Option<WebPage>): string
  {
    if entry.Some? then entry.value.content else "undefined"
  }

  /** The block of the page numbered `number`. */
  function PageBlock(number: nat, entry: Option<WebPage>): string
  {
    "\n" + Indent + "<Web Page " + NatToString(number) + ">\n"
    + DeepIndent + "Title: " + TitleText(entry) + "\n"
    + DeepIndent + "Link: " + LinkText(entry) + "\n"
    + DeepIndent + "Content: " + ContentText(entry) + "\n"
    + Indent + "</Web Page " + NatToString(number) + ">\n" + Indent
  }

  /** `.map((page, index) => ...)`: entry i gets the block numbered i + 1. */
  function PageBlocks(entries: seq<Option<WebPage>>): (blocks: seq<string>)
    ensures |blocks| == |entries|
    ensures forall i :: 0 <= i < |entries| ==> blocks[i] == PageBlock(i + 1, entries[i])
  {
    MapWithIndex(entries, (entry, index) => PageBlock(index + 1, entry))
  }

  /** The closing tag after the user's text, the last piece of the prompt. */
  const ClosingTag := "\n" + Indent + "</user query>\n" + Indent

  /** The pieces of the prompt of lines 111-133, in order: the query is
      piece 1, the count piece 3, the joined page blocks piece 5 and the
      user's text piece 7. */
  function PromptParts(query: string, count: string, pages: string, user: string): (parts: seq<string>)
    ensures |parts| == 9
    ensures parts[1] == query && parts[3] == count && parts[5] == pages && parts[7] == user
    ensures parts[8] == ClosingTag
  {
    [ "\n" + Indent + "<Google Query>\n" + DeepIndent, query, "\n"
    + Indent + "</Google Query>\n\n"
    + Indent + "found ", count, " results:\n"
    + Indent, pages, "\n"
    + Indent + "\n\n"
    + Indent + "<user query>\n"
    + DeepIndent, user, ClosingTag ]
  }

  /** The prompt of lines 111-133 around the query, the rendered count
      (`${allWebPageContent.length}`), the page blocks (joined with "\n")
      and the user's text. */
  function FinalPrompt(query: string, count: string, blocks: seq<string>, user: string): string
  {
    Join(PromptParts(query, count, Join(blocks, "\n"), user), "")
  }

  /** The query, the count and the user's text stand where the template
      puts them, in that order, and the prompt ends with the user's text
      followed only by the closing tag. */
  lemma FinalPromptLayout(query: string, count: string, blocks: seq<string>, user: string)
    ensures var parts := PromptParts(query, count, Join(blocks, "\n"), user);
      var p := FinalPrompt(query, count, blocks, user);
      && Offset(parts, "", 1) + |query| <= |p| && p[Offset(parts, "", 1)..Offset(parts, "", 1) + |query|] == query
      && Offset(parts, "", 1) + |query| < Offset(parts, "", 3)
      && Offset(parts, "", 3) + |count| <= |p| && p[Offset(parts, "", 3)..Offset(parts, "", 3) + |count|] == count
      && Offset(parts, "", 3) + |count| < Offset(parts, "", 5)
      && Offset(parts, "", 7) + |user| + |ClosingTag| == |p|
      && p[Offset(parts, "", 7)..Offset(parts, "", 7) + |user|] == user
      && p[Offset(parts, "", 7) + |user|..] == ClosingTag
  {
    var parts := PromptParts(query, count, Join(blocks, "\n"), user);
    JoinPlacesParts(parts, "", 1);
    JoinPlacesParts(parts, "", 2);
    JoinPlacesParts(parts, "", 3);
    JoinPlacesParts(parts, "", 4);
    JoinPlacesParts(parts, "", 7);
    JoinPlacesParts(parts, "", 8);
  }

  /** Block k stands after the count, before block k + 1 and before the
      user's text: the pages are listed in order. */
  lemma FinalPromptPlacesBlock(query: string, count: string, blocks: seq<string>, user: string, k: nat)
    requires k < |blocks|
    ensures var parts := PromptParts(query, count, Join(blocks, "\n"), user);
      var p := FinalPrompt(query, count, blocks, user);
      var at := Offset(parts, "", 5) + Offset(blocks, "\n", k);
      && Offset(parts, "", 5) <= at && at + |blocks[k]| <= Offset(parts, "", 6)
      && at + |blocks[k]| <= |p| && p[at..at + |blocks[k]|] == blocks[k]
      && (k + 1 < |blocks| ==> at + |blocks[k]| < Offset(parts, "", 5) + Offset(blocks, "\n", k + 1))
      && Offset(parts, "", 6) < Offset(parts, "", 7)
  {
    var parts := PromptParts(query, count, Join(blocks, "\n"), user);
    JoinPlacesNestedPart(parts, 5, blocks, "\n", k);
    JoinPlacesParts(blocks, "\n", k);
    JoinPlacesParts(parts, "", 5);
    JoinPlacesParts(parts, "", 6);
  }

  /** The prompt of a search with these entries: `found N` with N the
      decimal count of the entries, page k the block numbered k + 1. */
  function SearchResultsPrompt(query: string, entries: seq<Option<WebPage>>, user: string): string
  {
    FinalPrompt(query, NatToString(|entries|), PageBlocks(entries), user)
  }

  // ----- the route -----

  /** The defaults of lines 51-53, kept when the reply is null or empty. */
  const NoSearch := DecisionFields(Bool(false), Str(""), Num(0))

  /** Lines 50-59; `None` when JSON.parse (or the field access) threw. */
  function ReadDecision(response: Option<string>, parse: string -> Option<DecisionFields>): (decision: Option<DecisionFields>)
    ensures !HasText(response) ==> decision == Some(NoSearch)
    ensures HasText(response) ==> decision == parse(response.value)
  {
    if HasText(response) then parse(response.value) else Some(NoSearch)
  }

  function DecisionMessages(messages: seq<Message>): seq<Outgoing>
  {
    [SystemPrompt(WebSearchPrompt)] + AsOutgoing(MapMessages(messages))
  }

  /** The result page of scraper.ts:10-18 for the query's text. A query
      whose conversion throws never reaches Google: the throw at
      scraper.ts:11 is caught like a failed fetch. */
  function SearchPage(query: Option<string>, google: string -> Option<seq<Heading>>): Option<seq<Heading>>
  {
    if query.Some? then google(query.value) else None
  }

  /** The prompt of a search: query text, result pages, original text.
      `None` when `${googleQuery}` throws at line 113, which the catch
      block of lines 137-142 reports. */
  function SearchPrompt(decision: DecisionFields, user: string, services: Services): Option<string>
  {
    var query := ToText(decision.googleQuery);
    var results := TopResults(SearchPage(query, services.google), FilterBound(decision.maxArticles));
    var entries := PageEntries(results, services.cache, services.scrape);
    if query.Some? then Some(SearchResultsPrompt(query.value, entries, user)) else None
  }

  /** Lines 27-59: the decision fields, or the payload the call failed with. */
  datatype Decision = Undecided(payload: Payload) | Decided(fields: DecisionFields)

  function Decide(messages: seq<Message>, services: Services): Decision
  {
    match services.decide(DecisionMessages(messages))
    case CallFailed => Undecided(Failure(500, DecisionFailedBody))
    case NoChoices => Undecided(InternalError())
    case Completed(response) =>
      match ReadDecision(response, services.parse)
      case None => Undecided(InternalError())
      case Some(decision) => Decided(decision)
  }

  /** Lines 61-144: the prompt for the user's text; the text itself when
      no search is needed; `None` when writing the prompt threw. */
  function PromptFor(decision: DecisionFields, user: string, services: Services): Option<string>
  {
    if Truthy(decision.searchNeeded) then SearchPrompt(decision, user, services) else Some(user)
  }

  /** The payload POST answers with, for the request's messages. */
  function ScrapeExchange(messages: seq<Message>, services: Services): Payload
  {
    match Decide(messages, services)
    case Undecided(payload) => payload
    case Decided(decision) =>
      if |messages| == 0 then InternalError()
      else
        match PromptFor(decision, messages[|messages| - 1].content, services)
        case None => Failure(500, ScrapeFailedBody)
        case Some(finalPrompt) => PromptReady(finalPrompt)
  }

  /** Lines 27-59 as statements. */
  method AskForDecision(messages: seq<Message>, services: Services) returns (decision: Decision)
    ensures decision == Decide(messages, services)
  {
    var completion := services.decide(DecisionMessages(messages));
    if completion.CallFailed? {
      return Undecided(Failure(500, DecisionFailedBody));
    }
    if completion.NoChoices? {
      return Undecided(InternalError());
    }
    var response := completion.content;
    var searchNeeded := Bool(false);
    var googleQuery := Str("");
    var numberOfArticles := Num(0);
    if HasText(response) {
      var parsed := services.parse(response.value);
      if parsed.None? {
        return Undecided(InternalError());
      }
      searchNeeded := parsed.value.searchNeeded;
      googleQuery := parsed.value.googleQuery;
      numberOfArticles := parsed.value.maxArticles;
    }
    return Decided(DecisionFields(searchNeeded, googleQuery, numberOfArticles));
  }

  /** Lines 61-144 as statements: search, collect the pages, and write the
      prompt into the user's message object. `None` when the template threw;
      the object is then left as it was. */
  method WritePrompt(userMessage: ChatMessage, decision: DecisionFields, services: Services) returns (finalPrompt: Option<string>)
    modifies userMessage
    ensures finalPrompt == PromptFor(decision, old(userMessage.content), services)
    ensures userMessage.content == (if finalPrompt.Some? then finalPrompt.value else old(userMessage.content))
    ensures userMessage.role == old(userMessage.role)
  {
    finalPrompt := Some(userMessage.content);
    if Truthy(decision.searchNeeded) {
      var query := ToText(decision.googleQuery);
      var topResults := GetTopResultsFromGoogle(SearchPage(query, services.google), FilterBound(decision.maxArticles));
      var allWebPageContent := PageEntries(topResults, services.cache, services.scrape);
      if query.None? {
        return None;
      }
      finalPrompt := Some(SearchResultsPrompt(query.value, allWebPageContent, userMessage.content));
      userMessage.content := finalPrompt.value;
    }
  }

  /** POST. The prompt replaces the content of the last message object too. */
  method Post(messages: seq<ChatMessage>, services: Services) returns (payload: Payload)
    modifies LastOf(messages)
    ensures payload == ScrapeExchange(old(Values(messages)), services)
    ensures |messages| > 0 ==> messages[|messages| - 1].role == old(messages[|messages| - 1].role)
    ensures |messages| > 0 ==>
      messages[|messages| - 1].content == (if payload.PromptReady? then payload.finalPrompt else old(messages[|messages| - 1].content))
  {
    var decision := AskForDecision(Values(messages), services);
    if decision.Undecided? {
      return decision.payload;
    }
    if |messages| == 0 {
      return InternalError();
    }
    var userMessage := messages[|messages| - 1];
    assert Values(messages)[|messages| - 1] == userMessage.Value();
    var finalPrompt := WritePrompt(userMessage, decision.fields, services);
    if finalPrompt.None? {
      return Failure(500, ScrapeFailedBody);
    }
    return PromptReady(finalPrompt.value);
  }

  // ----- what the route promises -----

  /** Without a search the prompt is the user's text, unchanged. */
  lemma NoSearchPassesThrough(messages: seq<Message>, services: Services, response: Option<string>, decision: DecisionFields)
    requires |messages| > 0
    requires services.decide(DecisionMessages(messages)) == Completed(response)
    requires ReadDecision(response, services.parse) == Some(decision) && !Truthy(decision.searchNeeded)
    ensures ScrapeExchange(messages, services) == PromptReady(messages[|messages| - 1].content)
  {
  }

  /** A null or empty reply is "no search": query "", count 0, and the
      user's text passes through. */
  lemma EmptyReplyMeansNoSearch(messages: seq<Message>, services: Services, response: Option<string>)
    requires |messages| > 0
    requires services.decide(DecisionMessages(messages)) == Completed(response) && !HasText(response)
    ensures ReadDecision(response, services.parse) == Some(DecisionFields(Bool(false), Str(""), Num(0)))
    ensures ScrapeExchange(messages, services) == PromptReady(messages[|messages| - 1].content)
  {
  }

  /** Malformed JSON is not "no search": the request fails. */
  lemma MalformedReplyFails(messages: seq<Message>, services: Services, response: Option<string>)
    requires services.decide(DecisionMessages(messages)) == Completed(response)
    requires HasText(response) && services.parse(response.value) == None
    ensures ScrapeExchange(messages, services) == Failure(500, "Internal Server Error")
  {
  }

  /** A failed decision call is reported as such. */
  lemma DecisionCallFailure(messages: seq<Message>, services: Services)
    requires services.decide(DecisionMessages(messages)) == CallFailed
    ensures ScrapeExchange(messages, services) == Failure(500, "Failed to figure out if it needs a web search")
  {
  }

  /** Search and page failures never fail the request: every failure is
      the decision call's, an internal error, or the template's. */
  lemma FailureBodies(messages: seq<Message>, services: Services)
    ensures ScrapeExchange(messages, services).Failure? ==>
      ScrapeExchange(messages, services).status == 500 &&
      ScrapeExchange(messages, services).body in {DecisionFailedBody, InternalErrorBody, ScrapeFailedBody}
    ensures ScrapeExchange(messages, services) != Failure(500, SearchFailedBody)
  {
  }

  /** "Failed to scrape a web page" is the answer exactly when a search is
      wanted and the query cannot be turned into text: then Google is never
      asked, no page is fetched, and the user's message is not rewritten. */
  lemma ScrapeFailureIsUnconvertibleQuery(messages: seq<Message>, services: Services)
    ensures ScrapeExchange(messages, services) == Failure(500, ScrapeFailedBody) <==>
      |messages| > 0 && Decide(messages, services).Decided? &&
      Truthy(Decide(messages, services).fields.searchNeeded) &&
      ToText(Decide(messages, services).fields.googleQuery).None?
    ensures ScrapeExchange(messages, services) == Failure(500, ScrapeFailedBody) ==>
      TopResults(SearchPage(ToText(Decide(messages, services).fields.googleQuery), services.google),
                 FilterBound(Decide(messages, services).fields.maxArticles)) == []
  {
    if ScrapeExchange(messages, services) == Failure(500, ScrapeFailedBody) {
      var fields := Decide(messages, services).fields;
      TopResultsBounds(SearchPage(ToText(fields.googleQuery), services.google), FilterBound(fields.maxArticles));
    }
  }

  /** With a search, the prompt lists one entry per result the selection
      kept: at most `max_articles` of them (3 when the field is missing),
      and the prompt ends with the user's text. */
  lemma {:induction false} SearchFanOut(decision: DecisionFields, user: string, services: Services)
    ensures var query := ToText(decision.googleQuery);
      var results := TopResults(SearchPage(query, services.google), FilterBound(decision.maxArticles));
      var entries := PageEntries(results, services.cache, services.scrape);
      && (query.Some? ==> SearchPrompt(decision, user, services) == Some(SearchResultsPrompt(query.value, entries, user)))
      && (query.None? ==> SearchPrompt(decision, user, services) == None && entries == [])
      && |entries| <= (if FilterBound(decision.maxArticles) <= 0 then 0 else FilterBound(decision.maxArticles))
      && (decision.maxArticles.Undefined? ==> |entries| <= 3)
      && (!Truthy(decision.maxArticles) && !decision.maxArticles.Undefined? ==> entries == [])
  {
    var query := ToText(decision.googleQuery);
    TopResultsBounds(SearchPage(query, services.google), FilterBound(decision.maxArticles));
  }
}
