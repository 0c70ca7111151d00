# ai-answer-engine: retrieval and prompt assembly, in Dafny

This project models the retrieval path of the ai-answer-engine web app. It
covers three pieces:

- **Picking search results** (`getTopResultsFromGoogle`). The loop walks the
  first `filter` `h3` headings of a Google result page. It keeps those with
  a non-empty title and a non-empty parent `href`, in page order. A failed
  fetch gives no results.
- **The scrape route** (`POST /api/scrape`):
  - It asks the language model whether the last message needs a web search.
  - If so, it searches Google with the model's query and fetches every
    result page. A page comes from the Redis cache (cut to 5000 characters)
    or from the scraper, and any error gives a `null` entry.
  - It replaces the user's text with a prompt built from the query, the
    numbered pages and the original text.
  - Without a search, the text passes through unchanged.
- **The chat route** (`POST /api/chat`):
  - It searches Google with the user's raw text, then scrapes the first
    result, and asks the model whether a search is needed.
  - If so, it searches again and puts a `CONTEXT:` block (title, then at
    most 5000 characters of the page) in front of the user's text.
  - It then asks the model for the answer. The request carries the research
    system prompt, the history with the role `"ai"` renamed to
    `"assistant"`, and the last message exactly as it now stands.

Collaborators are passed in as functions. These are the Google page (already
parsed into headings), the Redis lookup, the page scraper, the language
model calls and `JSON.parse`. `scrapeWebPage` itself is modelled: it returns
a constant placeholder for every URL.

Modules:

- `Wrappers`: `Option`.
- `JsValues`: JSON field values, truthiness, template-literal text, the
  `i < filter` coercion, `slice(0, n)`, decimal numerals, `map` with an
  index, and `join`.
- `Scraper`: `scraper.ts`.
- `Conversation`:
  - messages, including the message objects whose `content` the routes
    overwrite;
  - the role mapping;
  - model calls and replies;
  - response payloads.
- `ScrapeRoute` and `ChatRoute`: the two routes. Each has a specification
  function for the whole exchange (`ScrapeExchange`, `ChatExchange`). A
  `Post` method is proved against it: the method updates the last message
  object in place, as the source does at `scrape/route.ts:135` and
  `chat/route.ts:184`.

Facts about the code that the model keeps:

- The cache key is `"scrape " + link`.
- The route only reads the cache; it never writes to it.
- `max_articles` goes to the search as it is, with no upper bound.
- Malformed decision JSON makes `JSON.parse` throw, and the request fails
  with "Internal Server Error".
- A cache lookup that throws loses the page: the entry is `null`, and the
  scraper is not tried.
- A failed page is a `null` entry. It shows as `undefined` in the prompt.
- A `google_query` that cannot be turned into text (a parsed object whose
  own `toString` is not a function) makes the search return no results and
  the prompt template throw, so the scrape route answers "Failed to scrape
  a web page".

## Model

| member | source | states |
|---|---|---|
| Scraper.HeadingAt | src/app/utils/scraper.ts:25-26 | `$("h3").eq(i)` past the last heading is an empty selection: empty text, no `href` |
| Scraper.GetTopResultsFromGoogle | src/app/utils/scraper.ts:5-36 | the `for`/`push` loop returns exactly `TopResults(page, filter)`: the kept headings among the first `filter`, or `[]` when the fetch or parse failed |
| Scraper.Scanned | src/app/utils/scraper.ts:24 | the loop sees `filter` headings, none for `filter <= 0`, never more than the page has |
| Scraper.KeptResultsAppend | src/app/utils/scraper.ts:27-29 | one more heading adds one result exactly when its title and link are both non-empty |
| Scraper.TopResultsBounds | src/app/utils/scraper.ts:24-35 | at most `filter` results (none for `filter <= 0`), at most as many as headings, none when the fetch failed |
| Scraper.KeptResultsLength | src/app/utils/scraper.ts:24-30 | never more results than headings |
| Scraper.KeptResultsWellFormed | src/app/utils/scraper.ts:27-28 | every result has a non-empty title and link |
| Scraper.TopResultsWellFormed | src/app/utils/scraper.ts:25-29 | every returned result has a non-empty title and a non-empty link |
| Scraper.KeptPositionsMatchResults | src/app/utils/scraper.ts:24-29 | result k is the heading at the k-th kept position, and that heading passes the test |
| Scraper.KeptPositionsIncrease | src/app/utils/scraper.ts:24-28 | kept positions strictly increase: results follow page order |
| Scraper.KeptPositionsComplete | src/app/utils/scraper.ts:27-29 | no heading that passes the test is skipped |
| Scraper.TopResultsSelection | src/app/utils/scraper.ts:24-30 | the results are exactly the passing headings among the first `filter`, in page order (a subsequence) |
| Scraper.TopResultsPastEnd | src/app/utils/scraper.ts:24-26 | a `filter` beyond the page length adds nothing: the extra indices read as empty headings |
| Scraper.ScrapeWebPage | src/app/utils/scraper.ts:38-47 | the scraped text is non-empty and within the 5000-character cut |
| Scraper.ScrapeWebPageIgnoresUrl | src/app/utils/scraper.ts:38-47 | every URL gives the same placeholder |
| JsValues.ToText | src/app/api/scrape/route.ts:113 | `${v}` fails exactly for an object whose conversion throws; a string is inserted as it is |
| JsValues.FilterBound | src/app/utils/scraper.ts:7 | the default `filter` is 3; `null`/`false`/`0`/`""` run no iteration; a number or digit string runs that many |
| JsValues.NatToStringIsNumeral | src/app/api/scrape/route.ts:116-124 | a rendered count or page number is all digits, with no leading zero |
| JsValues.NatToStringRoundTrip | src/app/api/scrape/route.ts:116 | reading back the rendered `found N` numeral gives N |
| JsValues.NatToStringInjective | src/app/api/scrape/route.ts:120-124 | different page numbers render differently |
| JsValues.Prefix | src/app/api/scrape/route.ts:89 | `slice(0, n)` is a prefix of length min(n, length) |
| JsValues.PrefixKeepsShort | src/app/api/chat/route.ts:181-183 | text within the limit is left untouched |
| JsValues.MapWithIndex | src/app/api/scrape/route.ts:117-126 | `map((x, index) => ...)` keeps the length; entry i is the callback at (xs[i], i) |
| JsValues.JoinPlacesParts | src/app/api/scrape/route.ts:111-133 | in a joined text, each part stands unchanged at its offset, in list order; the last part ends the text |
| JsValues.JoinPlacesNestedPart | src/app/api/scrape/route.ts:117-127 | a page block inside the joined blocks inside the prompt stands at the sum of the two offsets, before the next block |
| Conversation.Values | src/app/api/chat/route.ts:80-81 | the messages read from the objects, one per object, in order |
| Conversation.MapMessages | src/app/api/chat/route.ts:138-141 | one mapped message per message, in order |
| Conversation.MapMessagesRenamesOnlyAi | src/app/api/chat/route.ts:138-141 | `"ai"` becomes `"assistant"`; other roles and all contents are unchanged; the length is kept; no `"ai"` remains |
| Conversation.MapMessagesPrefix | src/app/api/chat/route.ts:200-207 | mapping `slice(0, -1)` is the prefix of the mapped list |
| Conversation.AsOutgoing | src/app/api/chat/route.ts:204-207 | one `{role, content}` entry per message, in order |
| ScrapeRoute.PageEntry | src/app/api/scrape/route.ts:80-104 | a non-null entry carries its result's title and link |
| ScrapeRoute.CachedPageIsCut | src/app/api/scrape/route.ts:83-90 | a truthy cached string is used instead of scraping; the content is its first min(5000, length) characters |
| ScrapeRoute.MissedPageIsScraped | src/app/api/scrape/route.ts:91-99 | on a miss the scraper's text is used uncut; a scraper that throws gives `null` |
| ScrapeRoute.FailedLookupIsNull | src/app/api/scrape/route.ts:101-104 | a lookup that throws gives `null` |
| ScrapeRoute.PageEntries | src/app/api/scrape/route.ts:79-106 | one entry per result, in order; entry i depends only on result i, so one failure leaves the others alone |
| ScrapeRoute.PlaceholderForMissedPages | src/app/api/scrape/route.ts:91-99 | with the repository's scraper, an uncached page carries the placeholder |
| ScrapeRoute.PageBlocks | src/app/api/scrape/route.ts:117-127 | entry i becomes the block numbered i + 1: pages are numbered 1..N in result order, nulls included |
| ScrapeRoute.PromptParts | src/app/api/scrape/route.ts:111-133 | the template has nine pieces; the query, count, page blocks and user text fill pieces 1, 3, 5 and 7; the closing tag is last |
| ScrapeRoute.FinalPromptLayout | src/app/api/scrape/route.ts:111-133 | the query, then the count, then (after the blocks) the user's text inside `<user query>`, in that order; only the closing tag follows the user's text |
| ScrapeRoute.FinalPromptPlacesBlock | src/app/api/scrape/route.ts:117-127 | page block k stands after the count, before block k + 1 and before the user's text |
| ScrapeRoute.ReadDecision | src/app/api/scrape/route.ts:50-59 | a null or empty reply keeps the defaults (no search, query `""`, 0 articles); otherwise the parsed fields, or failure |
| ScrapeRoute.AskForDecision | src/app/api/scrape/route.ts:27-59 | the decision call and field reads, as statements, give `Decide` |
| ScrapeRoute.WritePrompt | src/app/api/scrape/route.ts:61-144 | the prompt is the search prompt when `searchNeeded` is truthy, else the user's text, and none when the template throws; a prompt is written into the message object, a failure leaves it as it was; the role is kept |
| ScrapeRoute.Post | src/app/api/scrape/route.ts:17-154 | the payload is `ScrapeExchange` of the request, including "Failed to scrape a web page" for a query that cannot be turned into text; the last message's content becomes the final prompt on success and is otherwise unchanged |
| ScrapeRoute.NoSearchPassesThrough | src/app/api/scrape/route.ts:61-63 | without a search, `finalPrompt` is the user's text unchanged |
| ScrapeRoute.EmptyReplyMeansNoSearch | src/app/api/scrape/route.ts:50-59 | a null or empty reply means no search and pass-through |
| ScrapeRoute.MalformedReplyFails | src/app/api/scrape/route.ts:55-57 | malformed JSON gives 500 "Internal Server Error", not "no search" |
| ScrapeRoute.DecisionCallFailure | src/app/api/scrape/route.ts:42-48 | a failed decision call gives 500 "Failed to figure out if it needs a web search" |
| ScrapeRoute.FailureBodies | src/app/api/scrape/route.ts:71-77 | every failure is a 500 with the decision failure, an internal error or the template failure; "Failed to fetch search results" never occurs |
| ScrapeRoute.ScrapeFailureIsUnconvertibleQuery | src/app/api/scrape/route.ts:108-143 | "Failed to scrape a web page" occurs exactly when a search is wanted and `${googleQuery}` throws; the search then has no results |
| ScrapeRoute.SearchFanOut | src/app/api/scrape/route.ts:67-70 | the prompt lists one entry per kept result: at most `max_articles` (3 when missing, none when null/0/false), unclamped; a query that cannot be turned into text gives no entries and no prompt |
| ChatRoute.ContextMessage | src/app/api/chat/route.ts:184-187 | `CONTEXT: ` + title + two newlines + page + `\n\n\n\nUser Message` + the original, at those positions; it ends with the original |
| ChatRoute.Augment | src/app/api/chat/route.ts:163-196 | a rewritten text always ends with the original text |
| ChatRoute.ReadSearchNeeded | src/app/api/chat/route.ts:155-159 | a null or empty reply means no search; otherwise the parsed `search_needed`, or failure |
| ChatRoute.AddContext | src/app/api/chat/route.ts:164-196 | the second search, the scrape and the rewrite, as statements, give `Augment`; the object holds the new text; the role is kept |
| ChatRoute.AskWhetherToSearch | src/app/api/chat/route.ts:133-159 | the decision call and `search_needed` read, as statements, give `Decide` |
| ChatRoute.SearchAndAnswer | src/app/api/chat/route.ts:163-222 | the context step and answer call give `Respond`, on the history and the message as they were |
| ChatRoute.Post | src/app/api/chat/route.ts:74-227 | the payload is `ChatExchange` of the request; the last message object ends with the content that exchange leaves it; its role is kept |
| ChatRoute.ContextFromTopResult | src/app/api/chat/route.ts:175-188 | the new text uses the first result's title and the first min(5000, length) characters of its page; an empty page leaves the text as it was |
| ChatRoute.NoSecondResultCrashes | src/app/api/chat/route.ts:175-195 | an empty second search gives "Internal Server Error", not the scrape failure, because the catch block throws too |
| ChatRoute.PlaceholderContext | src/app/api/chat/route.ts:116-125 | with the repository's scraper the context holds the whole placeholder |
| ChatRoute.NoFirstResultCrashes | src/app/api/chat/route.ts:127-130 | an empty first search gives "Internal Server Error" before the model is asked |
| ChatRoute.DecisionFailures | src/app/api/chat/route.ts:133-159 | a failed call gives "Failed to figure out if it needs a web search"; no choices or malformed JSON give an internal error |
| ChatRoute.NoSearchKeepsMessage | src/app/api/chat/route.ts:155-163 | without a search (empty reply, or a missing, `null`, `false`, `0` or `""` `search_needed`) the message goes to the answer call unchanged |
| ChatRoute.UserTextSurvives | src/app/api/chat/route.ts:184-187 | on every path, the last message still ends with its original text |
| ChatRoute.FinalMessagesShape | src/app/api/chat/route.ts:200-209 | the research prompt, then the history with roles mapped, then the last message with its role as sent |
| ChatRoute.GenerationOutcomes | src/app/api/chat/route.ts:198-222 | a completed call gives 200 with the reply (null included); a failed call or a reply without choices gives "Failed to generate a response" |
| ChatRoute.FailureBodies | src/app/api/chat/route.ts:167-173 | every failure is a 500 with one of four bodies; "Failed to fetch search results" never occurs |
| ChatRoute.PlaceholderNeverFailsScrape | src/app/api/chat/route.ts:189-195 | with the repository's scraper, "Failed to scrape a web page" never occurs |
| ChatRoute.SearchesUseUserText | src/app/api/chat/route.ts:127 | both searches are for the user's raw text: searchers that agree on it give the same exchange |

## Left out

- HTTP (axios), the cheerio parse, the Groq client and Redis are inputs.
  The page arrives as a heading list, or as `None` when the fetch or parse
  threw. The model and the cache are functions of their request. The model
  therefore does not capture results that change from call to call within
  one request. The chat route's two searches are separate inputs, so this
  is not lost there.
- `Promise.all` concurrency: the pages are mapped in order, which is what
  the joined array holds.
- `console.log` and `console.error` output. It is left out, except that a
  `console.log`/`console.error` argument that throws (`results[0].title`,
  `topResult.title` in the catch block) is modelled as the failure it
  causes.
- The text of the system prompts is left out. Prompts are opaque names.
  `webSystemPrompt` is imported by the scrape route but not exported by
  `prompts.ts`, so the real value is `undefined`. The model keeps it as a
  named prompt.
- `Services.scrape` stands for `scrapeWebPage`. Its page fetch is
  commented out in the source, so the model also covers a scraper that
  returns other texts or throws. The lemmas with "Placeholder" in their
  names pin down the placeholder the repository ships.
- `JsValues.FilterBound`: numbers are integers. A fractional `max_articles`
  (2.5 runs 3 iterations) is not modelled. Strings count only when they
  are all digits. Whitespace, signs, exponents and `Obj` values coerced
  through their text are read as NaN, which runs no iteration.
- `JsValues.ToText`: numbers are integers and are written with all their
  digits. JavaScript numbers are doubles: from 1e21 up they are written
  in exponent form (`1e+21`), beyond 2^53 they are rounded, and fractions
  are written with a decimal point. None of this is modelled.
- `ScrapeRoute.PageEntry`: a cached value that is truthy but not a string
  gives `null` (no `slice`). A cached array does have `slice` and would be
  used; that case is not modelled.
- Lengths count characters. JavaScript counts UTF-16 code units, so the
  5000 cut can differ for text outside the Basic Multilingual Plane.
- A `content` that is not a string, and a request body without a
  `messages` array, are not modelled.
- The duplicate `getTopResultsFromGoogle` in `chat/route.ts:83-114` is the
  same code as `scraper.ts:5-36`. Both routes use `Scraper.GetTopResultsFromGoogle`.
- `src/app/page.tsx`, `src/middleware.ts`, `src/app/api/messages/route.ts`,
  `next.config.ts` and `src/app/utils/prompts.ts` are not part of this
  model. They are the UI, the rate limiter, a session lookup, build
  configuration and constant strings.
