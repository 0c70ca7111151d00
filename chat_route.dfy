/**
  src/app/api/chat/route.ts, POST: search Google for the last user message,
  scrape the first result, ask the model whether a web search is needed; if
  so, search again and prefix the user's text with a CONTEXT block built
  from the first result's title and page; then ask the model for the answer
  with the research system prompt, the mapped history and the user's message.

  The two Google fetches, the page scraper, the two model calls and
  JSON.parse are collaborators passed in as functions.
 */
module ChatRoute {
  import opened Wrappers
  import opened JsValues
  import opened Scraper
  import opened Conversation

  /** How much of a scraped page goes into the context. */
  const MaxPageLength: nat := 5000

  datatype Services = Services(
    firstSearch: string -> Option<seq<Heading>>,   // the Google page of line 127, `None` when axios threw
    secondSearch: string -> Option<seq<Heading>>,  // the Google page of line 166
    scrape: string -> Option<string>,              // scrapeWebPage, `None` when it threw
    decide: seq<Outgoing> -> LlmReply,             // the search decision call
    parse: string -> Option<JsValue>,              // `JSON.parse(response).search_needed`, `None` when it threw
    generate: seq<Outgoing> -> LlmReply)           // the answer call

  // ----- the context block -----

  /** Lines 184-187: the user's text prefixed by the title and the page. */
  function ContextMessage(title: string, page: string, original: string): (text: string)
    ensures |text| == |"CONTEXT: "| + |title| + |"\n\n"| + |page| + |"\n\n\n\nUser Message"| + |original|
    ensures text[..9] == "CONTEXT: "
    ensures text[9..9 + |title|] == title
    ensures text[11 + |title|..11 + |title| + |page|] == page
    ensures text[|text| - |original|..] == original
  {
    var head := "CONTEXT: " + title + "\n\n" + page;
    assert head[9..9 + |title|] == title;
    assert head[11 + |title|..] == page;
    head + "\n\n\n\nUser Message" + original
  }

  /** Lines 163-196 when a search is needed: what became of the user's text. */
  datatype Augmented =
    | Crashed               // `topResults[0]` was undefined; the catch handler threw too
    | ScrapeFailed          // scrapeWebPage threw
    | Rewritten(text: string)

  /** The content of the last message after the search branch. */
  function Augment(original: string, services: Services): (result: Augmented)
    ensures result.Rewritten? ==> |result.text| >= |original| && result.text[|result.text| - |original|..] == original
  {
    var topResults := TopResults(services.secondSearch(original), DefaultFilter);
    if topResults == [] then Crashed
    else
      match services.scrape(topResults[0].link)
      case None => ScrapeFailed
      case Some(page) =>
        if page == "" then Rewritten(original)
        else Rewritten(ContextMessage(topResults[0].title, Prefix(page, MaxPageLength), original))
  }

  // ----- the model calls -----

  /** Lines 136-142: the decision prompt, then every message with its role mapped. */
  function DecisionMessages(messages: seq<Message>): seq<Outgoing>
  {
    [SystemPrompt(SearchDecisionPrompt)] + AsOutgoing(MapMessages(messages))
  }

  /** Lines 202-209: the research prompt, the mapped history, then the user's
      message object as it is (its role is not mapped). */
  function FinalMessages(history: seq<Message>, user: Message): seq<Outgoing>
  {
    [SystemPrompt(ResearchPrompt)] + AsOutgoing(MapMessages(history)) + [Chat(user.role, user.content)]
  }

  /** Lines 155-159: `search_needed`, false when the reply is null or empty. */
  function ReadSearchNeeded(response: Option<string>, parse: string -> Option<JsValue>): (searchNeeded: Option<JsValue>)
    ensures !HasText(response) ==> searchNeeded == Some(Bool(false))
    ensures HasText(response) ==> searchNeeded == parse(response.value)
  {
    if HasText(response) then parse(response.value) else Some(Bool(false))
  }

  // ----- the exchange -----

  /** What POST answers with, and the content the last message object ends
      with (`None` when there is no message). */
  datatype ChatOutcome = ChatOutcome(payload: Payload, userContent: Option<string>)

  /** Lines 198-222: the answer call and its failure. */
  function Generate(history: seq<Message>, user: Message, services: Services): ChatOutcome
  {
    match services.generate(FinalMessages(history, user))
    case Completed(reply) => ChatOutcome(Answer(reply), Some(user.content))
    case _ => ChatOutcome(Failure(500, GenerationFailedBody), Some(user.content))
  }

  /** Lines 133-159: the search decision, or the payload it failed with. */
  datatype Decision = Undecided(payload: Payload) | Decided(searchNeeded: JsValue)

  function Decide(messages: seq<Message>, services: Services): Decision
  {
    match services.decide(DecisionMessages(messages))
    case CallFailed => Undecided(Failure(500, DecisionFailedBody))
    case NoChoices => Undecided(InternalError())
    case Completed(response) =>
      match ReadSearchNeeded(response, services.parse)
      case None => Undecided(InternalError())
      case Some(searchNeeded) => Decided(searchNeeded)
  }

  /** Lines 163-222: the context step when a search is needed, then the answer. */
  function Respond(history: seq<Message>, user: Message, searchNeeded: JsValue, services: Services): ChatOutcome
  {
    if !Truthy(searchNeeded) then Generate(history, user, services)
    else
      match Augment(user.content, services)
      case Crashed => ChatOutcome(InternalError(), Some(user.content))
      case ScrapeFailed => ChatOutcome(Failure(500, ScrapeFailedBody), Some(user.content))
      case Rewritten(text) => Generate(history, Message(user.role, text), services)
  }

  /** Lines 80-131: the first search and scrape, whose results only feed
      `console.log`, but whose failures end the request. */
  predicate FirstLookFails(user: Message, services: Services)
  {
    var results := TopResults(services.firstSearch(user.content), DefaultFilter);
    results == [] || services.scrape(results[0].link).None?
  }

  /** The whole request. */
  function ChatExchange(messages: seq<Message>, services: Services): ChatOutcome
  {
    if |messages| == 0 then ChatOutcome(InternalError(), None)
    else
      var user := messages[|messages| - 1];
      if FirstLookFails(user, services) then ChatOutcome(InternalError(), Some(user.content))
      else
        match Decide(messages, services)
        case Undecided(payload) => ChatOutcome(payload, Some(user.content))
        case Decided(searchNeeded) => Respond(messages[..|messages| - 1], user, searchNeeded, services)
  }

  /** Lines 164-196: the second search, the scrape of its first result and
      the rewrite of the user's message object. */
  method AddContext(userMessage: ChatMessage, services: Services) returns (augmented: Augmented)
    modifies userMessage
    ensures augmented == Augment(old(userMessage.content), services)
    ensures userMessage.role == old(userMessage.role)
    ensures userMessage.content == if augmented.Rewritten? then augmented.text else old(userMessage.content)
  {
    var topResults := GetTopResultsFromGoogle(services.secondSearch(userMessage.content), DefaultFilter);
    if topResults == [] {
      return Crashed;
    }
    var webPageContent := services.scrape(topResults[0].link);
    if webPageContent.None? {
      return ScrapeFailed;
    }
    if webPageContent.value != "" {
      var page := Prefix(webPageContent.value, MaxPageLength);
      userMessage.content := ContextMessage(topResults[0].title, page, userMessage.content);
    }
    return Rewritten(userMessage.content);
  }

  /** Lines 133-159 as statements. */
  method AskWhetherToSearch(messages: seq<Message>, services: Services) returns (decision: Decision)
    ensures decision == Decide(messages, services)
  {
    var completion := services.decide(DecisionMessages(messages));
    if completion.CallFailed? {
      return Undecided(Failure(500, DecisionFailedBody));
    }
    if completion.NoChoices? {
      return Undecided(InternalError());
    }
    var response := completion.content;
    var searchNeeded := Bool(false);
    if HasText(response) {
      var parsed := services.parse(response.value);
      if parsed.None? {
        return Undecided(InternalError());
      }
      searchNeeded := parsed.value;
    }
    return Decided(searchNeeded);
  }

  /** Lines 163-222: the context step when a search is needed, then the
      answer call with the history and the (possibly rewritten) message. */
  method SearchAndAnswer(messages: seq<ChatMessage>, searchNeeded: JsValue, services: Services) returns (payload: Payload)
    requires |messages| > 0
    requires forall i :: 0 <= i < |messages| - 1 ==> messages[i] != messages[|messages| - 1]
    modifies messages[|messages| - 1]
    ensures var outcome := Respond(old(Values(messages))[..|messages| - 1], old(Values(messages))[|messages| - 1], searchNeeded, services);
      payload == outcome.payload && outcome.userContent == Some(messages[|messages| - 1].content)
    ensures messages[|messages| - 1].role == old(messages[|messages| - 1].role)
  {
    var userMessage := messages[|messages| - 1];
    ghost var history := Values(messages)[..|messages| - 1];
    ghost var user := userMessage.Value();
    if Truthy(searchNeeded) {
      var augmented := AddContext(userMessage, services);
      if augmented.Crashed? {
        return InternalError();
      }
      if augmented.ScrapeFailed? {
        return Failure(500, ScrapeFailedBody);
      }
    }
    var messagesWithoutLastMessage := Values(messages[..|messages| - 1]);
    assert messagesWithoutLastMessage == history by {
      forall i | 0 <= i < |messages| - 1
        ensures messagesWithoutLastMessage[i] == history[i]
      {
        assert messages[..|messages| - 1][i] == messages[i];
      }
    }
    var completion := services.generate(FinalMessages(messagesWithoutLastMessage, userMessage.Value()));
    if completion.Completed? {
      payload := Answer(completion.content);
    } else {
      payload := Failure(500, GenerationFailedBody);
    }
  }

  /** POST. The context block is written into the last message object,
      which the request's JSON gives as an object of its own. */
  method Post(messages: seq<ChatMessage>, services: Services) returns (payload: Payload)
    requires forall i :: 0 <= i < |messages| - 1 ==> messages[i] != messages[|messages| - 1]
    modifies LastOf(messages)
    ensures var outcome := ChatExchange(old(Values(messages)), services);
      && payload == outcome.payload
      && (|messages| > 0 ==> outcome.userContent == Some(messages[|messages| - 1].content))
    ensures |messages| > 0 ==> messages[|messages| - 1].role == old(messages[|messages| - 1].role)
  {
    if |messages| == 0 {
      return InternalError();
    }
    ghost var before := Values(messages);
    var userMessage := messages[|messages| - 1];
    assert before[|messages| - 1] == userMessage.Value();
    var results := GetTopResultsFromGoogle(services.firstSearch(userMessage.content), DefaultFilter);
    if results == [] {
      return InternalError();
    }
    var scrapedPage := services.scrape(results[0].link);
    if scrapedPage.None? {
      return InternalError();
    }
    var decision := AskWhetherToSearch(Values(messages), services);
    if decision.Undecided? {
      return decision.payload;
    }
    payload := SearchAndAnswer(messages, decision.searchNeeded, services);
  }

  // ----- what the route promises -----

  /** With a page, the new text is the context block: the first result's
      title, at most the first 5000 characters of its page, then the
      original text. An empty page leaves the text as it was. */
  lemma ContextFromTopResult(original: string, services: Services)
    requires TopResults(services.secondSearch(original), DefaultFilter) != []
    requires services.scrape(TopResults(services.secondSearch(original), DefaultFilter)[0].link).Some?
    ensures var top := TopResults(services.secondSearch(original), DefaultFilter)[0];
      var page := services.scrape(top.link).value;
      var cut := Prefix(page, MaxPageLength);
      && |cut| <= MaxPageLength && cut <= page
      && (|page| <= MaxPageLength ==> cut == page)
      && (page == "" ==> Augment(original, services) == Rewritten(original))
      && (page != "" ==> Augment(original, services) == Rewritten(ContextMessage(top.title, cut, original)))
  {
  }

  /** The second search coming back empty is not reported as a scrape
      failure: reading `topResult.title` in the catch block throws again. */
  lemma NoSecondResultCrashes(messages: seq<Message>, services: Services)
    requires |messages| > 0 && !FirstLookFails(messages[|messages| - 1], services)
    requires Decide(messages, services).Decided? && Truthy(Decide(messages, services).searchNeeded)
    requires TopResults(services.secondSearch(messages[|messages| - 1].content), DefaultFilter) == []
    ensures ChatExchange(messages, services) == ChatOutcome(InternalError(), Some(messages[|messages| - 1].content))
  {
  }

  /** With the placeholder scraper no scrape fails, and the context holds
      the whole placeholder. */
  lemma PlaceholderContext(original: string, services: Services)
    requires services.scrape == (url => Some(ScrapeWebPage(url)))
    requires TopResults(services.secondSearch(original), DefaultFilter) != []
    ensures var top := TopResults(services.secondSearch(original), DefaultFilter)[0];
      Augment(original, services) == Rewritten(ContextMessage(top.title, Placeholder, original))
  {
    var top := TopResults(services.secondSearch(original), DefaultFilter)[0];
    PrefixKeepsShort(ScrapeWebPage(top.link), MaxPageLength);
  }

  /** An empty first search ends the request before the model is asked:
      `results[0].title` throws. */
  lemma NoFirstResultCrashes(messages: seq<Message>, services: Services)
    requires |messages| > 0
    requires TopResults(services.firstSearch(messages[|messages| - 1].content), DefaultFilter) == []
    ensures ChatExchange(messages, services) == ChatOutcome(InternalError(), Some(messages[|messages| - 1].content))
  {
  }

  /** A failed decision call is reported as such; a reply without choices
      or with malformed JSON is an internal error. */
  lemma DecisionFailures(messages: seq<Message>, services: Services)
    requires |messages| > 0 && !FirstLookFails(messages[|messages| - 1], services)
    ensures services.decide(DecisionMessages(messages)) == CallFailed ==>
      ChatExchange(messages, services).payload == Failure(500, DecisionFailedBody)
    ensures services.decide(DecisionMessages(messages)) == NoChoices ==>
      ChatExchange(messages, services).payload == Failure(500, InternalErrorBody)
    ensures (services.decide(DecisionMessages(messages)).Completed?
        && HasText(services.decide(DecisionMessages(messages)).content)
        && services.parse(services.decide(DecisionMessages(messages)).content.value) == None) ==>
      ChatExchange(messages, services).payload == Failure(500, InternalErrorBody)
  {
  }

  /** Without a search (a null or empty reply, or a `search_needed` that
      is missing, `null`, `false`, `0` or `""`) the message goes to the
      answer call unchanged, after the research prompt and the mapped history. */
  lemma NoSearchKeepsMessage(messages: seq<Message>, services: Services, response: Option<string>)
    requires |messages| > 0 && !FirstLookFails(messages[|messages| - 1], services)
    requires services.decide(DecisionMessages(messages)) == Completed(response)
    requires !HasText(response) || (services.parse(response.value).Some? && !Truthy(services.parse(response.value).value))
    ensures var user := messages[|messages| - 1];
      && ChatExchange(messages, services).userContent == Some(user.content)
      && ChatExchange(messages, services) == Generate(messages[..|messages| - 1], user, services)
  {
  }

  /** Whatever happens, the last message keeps its original text as a
      suffix: the context block only ever goes in front of it. */
  lemma UserTextSurvives(messages: seq<Message>, services: Services)
    requires |messages| > 0
    ensures var original := messages[|messages| - 1].content;
      var outcome := ChatExchange(messages, services);
      && outcome.userContent.Some?
      && |outcome.userContent.value| >= |original|
      && outcome.userContent.value[|outcome.userContent.value| - |original|..] == original
  {
    var user := messages[|messages| - 1];
    var outcome := ChatExchange(messages, services);
    if !FirstLookFails(user, services) && Decide(messages, services).Decided?
      && Truthy(Decide(messages, services).searchNeeded) && Augment(user.content, services).Rewritten?
    {
      var text := Augment(user.content, services).text;
      assert outcome == Generate(messages[..|messages| - 1], Message(user.role, text), services);
      assert outcome.userContent == Some(text);
    } else {
      assert outcome.userContent == Some(user.content);
      assert user.content[|user.content| - |user.content|..] == user.content;
    }
  }

  /** The answer call sees the research prompt, every earlier message with
      its role mapped, and the last message with its role as sent: an
      "ai" role of the last message is passed through. */
  lemma FinalMessagesShape(history: seq<Message>, user: Message)
    ensures var out := FinalMessages(history, user);
      && |out| == |history| + 2
      && out[0] == SystemPrompt(ResearchPrompt)
      && (forall i :: 0 <= i < |history| ==> out[i + 1] == Chat(MapRole(history[i].role), history[i].content))
      && out[|history| + 1] == Chat(user.role, user.content)
  {
  }

  /** A completed answer call is the 200 answer, null content included;
      a failed call or a reply without choices is the generation failure. */
  lemma GenerationOutcomes(history: seq<Message>, user: Message, services: Services)
    ensures services.generate(FinalMessages(history, user)).Completed? ==>
      Generate(history, user, services).payload == Answer(services.generate(FinalMessages(history, user)).content)
    ensures !services.generate(FinalMessages(history, user)).Completed? ==>
      Generate(history, user, services).payload == Failure(500, GenerationFailedBody)
    ensures Generate(history, user, services).userContent == Some(user.content)
  {
  }

  /** Every failure is a 500 with one of four bodies, and "Failed to fetch
      search results" never occurs: the search catches its own errors. */
  lemma FailureBodies(messages: seq<Message>, services: Services)
    ensures var payload := ChatExchange(messages, services).payload;
      && !payload.PromptReady?
      && (payload.Failure? ==>
            payload.status == 500 &&
            payload.body in {DecisionFailedBody, ScrapeFailedBody, GenerationFailedBody, InternalErrorBody})
      && payload != Failure(500, SearchFailedBody)
  {
  }

  /** With the placeholder scraper, "Failed to scrape a web page" never
      occurs either. */
  lemma PlaceholderNeverFailsScrape(messages: seq<Message>, services: Services)
    requires services.scrape == (url => Some(ScrapeWebPage(url)))
    ensures ChatExchange(messages, services).payload != Failure(500, ScrapeFailedBody)
  {
  }

  /** Both searches are for the user's raw text: two searchers that agree
      on that one query give the same exchange. */
  lemma SearchesUseUserText(messages: seq<Message>, services: Services, other: Services)
    requires |messages| > 0
    requires services.firstSearch(messages[|messages| - 1].content) == other.firstSearch(messages[|messages| - 1].content)
    requires services.secondSearch(messages[|messages| - 1].content) == other.secondSearch(messages[|messages| - 1].content)
    requires services.scrape == other.scrape && services.decide == other.decide
    requires services.parse == other.parse && services.generate == other.generate
    ensures ChatExchange(messages, services) == ChatExchange(messages, other)
  {
    var user := messages[|messages| - 1];
    assert FirstLookFails(user, services) == FirstLookFails(user, other);
    assert Decide(messages, services) == Decide(messages, other);
    assert Augment(user.content, services) == Augment(user.content, other);
    if Decide(messages, services).Decided? {
      var searchNeeded := Decide(messages, services).searchNeeded;
      assert Respond(messages[..|messages| - 1], user, searchNeeded, services)
          == Respond(messages[..|messages| - 1], user, searchNeeded, other);
    }
  }
}
