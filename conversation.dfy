/**
  What the two API routes share: the chat messages of a request, the role
  mapping applied before a message goes to the language model, the messages
  sent to it and its replies, and the JSON payloads the routes answer with.
 */
module Conversation {
  import opened Wrappers
  import opened JsValues

  /** A chat message as a value. Roles are the strings the client sends. */
  datatype Message = Message(role: string, content: string)

  /** A message object of the parsed request body; the routes overwrite the
      `content` of the last one in place. */
  class ChatMessage {
    var role: string
    var content: string

    constructor (role: string, content: string)
      ensures this.role == role && this.content == content
    {
      this.role := role;
      this.content := content;
    }

    function Value(): Message
      reads this
    {
      Message(role, content)
    }
  }

  /** The values of a list of message objects, read now. */
  function Values(messages: seq<ChatMessage>): (r: seq<Message>)
    reads set m | m in messages
    ensures |r| == |messages|
    ensures forall i :: 0 <= i < |messages| ==> r[i] == messages[i].Value()
  {
    if messages == [] then [] else [messages[0].Value()] + Values(messages[1..])
  }

  /** The object a route may overwrite: the last message, if any. */
  function LastOf(messages: seq<ChatMessage>): set<ChatMessage>
  {
    if messages == [] then {} else {messages[|messages| - 1]}
  }

  /** `msg.role === "ai" ? "assistant" : msg.role` */
  function MapRole(role: string): string
  {
    if role == "ai" then "assistant" else role
  }

  function MapMessage(m: Message): Message
  {
    Message(MapRole(m.role), m.content)
  }

  /** `messages.map(...)` with the role mapping. */
  function MapMessages(messages: seq<Message>): (r: seq<Message>)
    ensures |r| == |messages|
    ensures forall i :: 0 <= i < |r| ==> r[i] == MapMessage(messages[i])
  {
    if messages == [] then [] else [MapMessage(messages[0])] + MapMessages(messages[1..])
  }

  /** The mapping renames "ai" to "assistant", touches no other role and no
      content, and leaves no "ai" behind. */
  lemma MapMessagesRenamesOnlyAi(messages: seq<Message>)
    ensures |MapMessages(messages)| == |messages|
    ensures forall i :: 0 <= i < |messages| ==>
      MapMessages(messages)[i].content == messages[i].content &&
      (messages[i].role == "ai" ==> MapMessages(messages)[i].role == "assistant") &&
      (messages[i].role != "ai" ==> MapMessages(messages)[i].role == messages[i].role)
    ensures forall m :: m in MapMessages(messages) ==> m.role != "ai"
  {
  }

  /** Mapping a prefix is taking the prefix of the mapping
      (`messages.slice(0, -1).map(...)`). */
  lemma MapMessagesPrefix(messages: seq<Message>, n: nat)
    requires n <= |messages|
    ensures MapMessages(messages[..n]) == MapMessages(messages)[..n]
  {
  }

  // ----- the language model -----

  /** The prompt strings of prompts.ts and chat/route.ts, kept opaque. */
  datatype PromptName = ResearchPrompt | SearchDecisionPrompt | WebSearchPrompt

  /** One entry of the `messages` array sent to the model. */
  datatype Outgoing = SystemPrompt(name: PromptName) | Chat(role: string, content: string)

  function AsOutgoing(messages: seq<Message>): (r: seq<Outgoing>)
    ensures |r| == |messages|
    ensures forall i :: 0 <= i < |r| ==> r[i] == Chat(messages[i].role, messages[i].content)
  {
    if messages == [] then [] else [Chat(messages[0].role, messages[0].content)] + AsOutgoing(messages[1..])
  }

  /** What `client.chat.completions.create(...)` gave: it threw, or its
      `choices` was empty, or `choices[0].message.content` (a string or null). */
  datatype LlmReply = CallFailed | NoChoices | Completed(content: Option<string>)

  /** `if (response)`: a non-null, non-empty reply. */
  predicate HasText(content: Option<string>)
  {
    content.Some? && content.value != ""
  }

  /** The three fields read from `JSON.parse(response)`; a missing field is
      `Undefined`. */
  datatype DecisionFields = DecisionFields(searchNeeded: JsValue, googleQuery: JsValue, maxArticles: JsValue)

  // ----- the JSON payloads of the routes -----

  datatype Payload =
    | Failure(status: int, body: string)   // { status, body }
    | PromptReady(finalPrompt: string)     // { status: 200, finalPrompt }
    | Answer(reply: Option<string>)        // { status: 200, body: reply }

  const DecisionFailedBody := "Failed to figure out if it needs a web search"
  const SearchFailedBody := "Failed to fetch search results"
  const ScrapeFailedBody := "Failed to scrape a web page"
  const GenerationFailedBody := "Failed to generate a response"
  const InternalErrorBody := "Internal Server Error"

  function InternalError(): Payload { Failure(500, InternalErrorBody) }
}
