# foster-nation-backend `page.js`, modelled in Dafny

`page.js` answers a user query with a generative model. It grounds the
answer in text from one website. It harvests the links of a seed page and
keeps those whose surrounding text mentions a query keyword, at most five.
It fetches each kept page under up to three browser identities (user agents)
and joins the page texts into a grounding document. Then it asks the primary
model (`gemini-pro`) with that document. When the document is empty it asks
the fallback model (`text-bison-001`) with the query alone. Both model calls
retry up to three times before they return a fixed apology.

The model replaces the I/O with inputs:

- the parsed seed page is `Option<seq<Anchor>>`: `None` when its fetch
  failed, else the anchors in document order, each with its `href` (absent or
  present), its own text and its parent's text;
- `url.resolve` is a function parameter (`Harvest.Resolver`);
- a page fetch is an oracle `(link position, url, identity) -> Option<seq<string>>`
  (`Grounding.PageFetcher`), giving the texts of the matched `section`, `p`
  and `h1`..`h6` elements, or `None` when the fetch or the parse failed;
- the generative backend is an oracle `(model name, prompt, call number) -> Reply`
  (`Generation.Backend`);
- requests and pacing waits are `Event`s in a trace; generation calls are
  counted and backoff waits are summed in milliseconds.

Modules follow the pipeline: `Text` (the JavaScript string operations used:
`\s`, `trim`, ASCII `toLowerCase`, `includes`, `replace(/[^\w\s]/gi, '')`,
`join('\n')`, `split(/\s+/)`), `Seqs` (the `push`-loop and `filter` combinators), `Harvest`, `Relevance`, `PageExtract`,
`Grounding`, `Generation` and `Orchestrator`. The loops of the source are
`method`s proved against specification functions (`Harvested`, `PageText`,
`Rotate`, `Gather`, `GroundingOf`). The properties are lemmas about those
functions. The recursive retry is a recursive function. The nested loop of
`extractContentFromRelevantPages` (page.js:99-111) is split into two methods:
`CollectContents` for the loop over links and `FetchWithRotation` for the
loop over identities, which keeps its `break`.

Where the code and its comments differ, the model follows the code. The
comment at page.js:60 says duplicates are removed, but the filter only drops
empty link texts. An `href` of `""` is falsy in JavaScript, so it is rejected
like a missing one. `split(/\s+/)` gives an empty first or last keyword when
the query starts or ends with whitespace. A keyword that strips to `""`
matches every candidate.

## Model

| member | source | states |
|---|---|---|
| Harvest.ExtractContentWithLinks | page.js:37-70 | the harvest is empty when the seed fetch failed, else it is `Harvested` of the anchors (push loop, then the link-text filter) |
| Harvest.HarvestedSingle | page.js:46-61 | one anchor yields its candidate iff its href is present, non-empty and starts with none of `#`, `mailto:`, `tel:`, and its lower-cased trimmed text is non-empty; the candidate carries lower-cased trimmed link and parent text and the resolved URL |
| Harvest.HarvestedAppend | page.js:46-61 | the harvest of a concatenation is the concatenation of the harvests: document order is kept and duplicates are not removed |
| Harvest.HarvestedMembers | page.js:46-61 | a candidate is harvested iff it comes from some kept anchor |
| Harvest.HarvestedLinkText | page.js:48-61 | every harvested link text is non-empty and already trimmed, so the second `trim` of the filter changes nothing |
| Seqs.Filter | page.js:61 | a filter never lengthens the list and keeps only elements that pass the test (used for the link-text filter and the relevance filter) |
| Seqs.FlatMapAppend | page.js:50-59 | pushing per element: the pushes for a concatenation are the pushes for each part, in order |
| Relevance.NormalizeKeyword | page.js:84 | a normalised keyword has no upper-case letter, only word characters and whitespace, and is no longer than the keyword |
| Relevance.NormalizeKeywordKeeps | page.js:84 | normalising removes exactly the characters outside `[\w\s]` of the lower-cased keyword: the result is that filter, an in-order subsequence holding exactly the lower-cased keyword's `[\w\s]` characters, and a keyword made only of such characters is just lower-cased |
| Relevance.SelectRelevant | page.js:83-85 | the relevant links are the first min(5, k) of the k passing candidates |
| Relevance.PassingMembers | page.js:83-84 | a candidate passes iff it is harvested and some normalised keyword occurs in its surrounding text |
| Seqs.FilterAppend | page.js:83-84 | the filter works per element: the filter of a concatenation is the concatenation of the filters |
| Seqs.FilterIsSubsequence | page.js:83-84 | the filtered list is a subsequence of the input, so harvest order is kept |
| Relevance.SelectRelevantSound | page.js:83-85 | the selection has at most `MAX_LINKS` links, is a subsequence of the harvest in harvest order, and every selected link matches a keyword |
| Relevance.SelectRelevantComplete | page.js:83-85 | when at most five candidates pass, every matching candidate is selected |
| Relevance.SelectRelevantStable | page.js:83-85 | once the first part of the harvest fills the cap, later candidates do not change the selection |
| Relevance.EmptyKeywordMatchesAll | page.js:84 | a keyword that strips to "" makes every candidate relevant |
| Relevance.NoKeywordsSelectNothing | page.js:83-85 | with no keywords nothing passes and nothing is selected |
| Relevance.NormalizeKeywordExamples | page.js:84 | "Youth?" normalises to "youth" and "?" to "" |
| Relevance.MatchExample | page.js:83-84 | a link whose parent text is "learn about our youth programs" matches the keyword "youth?" |
| PageExtract.ExtractContentFromPage | page.js:116-135 | the page text is "" when the fetch failed, else the trim of the element texts each followed by a line break |
| PageExtract.PageTextEmptyIff | page.js:116-135 | the page text is "" iff the fetch failed or every matched element holds only whitespace |
| PageExtract.PageTextTrimmed | page.js:131 | the page text neither starts nor ends with whitespace |
| PageExtract.PageTextKeepsElement | page.js:127-131 | the trimmed text of every matched element occurs in the page text |
| Grounding.FetchWithRotation | page.js:102-110 | the identity loop returns the text and the events of `Rotate`: identities in order, stopping at the first non-empty text, a pause after each empty attempt |
| Grounding.CollectContents | page.js:99-111 | the link loop returns the texts and events of `Gather`: one rotation per link in order, keeping the non-empty texts |
| Grounding.ExtractContentFromRelevantPages | page.js:72-114 | the assembly returns the document and trace of `GroundingOf`: "" after the seed request when nothing is harvested or relevant, else the line-joined collected texts |
| Grounding.Gather | page.js:99-111 | at most one text per link is collected and every collected text is non-empty |
| Grounding.RotationFirstSuccess | page.js:103-110 | when identity j is the first to yield text, the link contributes that text after j failed attempts, each followed by a pause, and one more request |
| Grounding.RotationAllFail | page.js:103-110 | when all three identities yield nothing, the link contributes "" after three requests, each followed by a pause, including the last |
| Grounding.RotationCounts | page.js:103-110 | a link is requested one to three times, with one pause per empty attempt |
| Grounding.GatherKeepsText | page.js:104-107 | a link whose rotation found text contributes that text |
| Grounding.GatherEmptyIff | page.js:99-111 | nothing is collected iff every link's rotation came back empty |
| Grounding.GroundingEmptyCases | page.js:73-90 | with no harvested or no relevant links the document is "" and only the seed page was requested |
| Grounding.GroundingEmptyIff | page.js:72-113 | the document is "" iff no relevant link yielded text under any identity |
| Grounding.GroundingKeepsText | page.js:99-113 | every text a relevant link yielded occurs in the document |
| Grounding.GroundingRequestBound | page.js:99-111 | the assembly makes at most 1 + 3 * 5 requests |
| Text.JoinLinesEmptyIff | page.js:113 | joining non-empty texts with line breaks gives "" iff there are no texts |
| Text.JoinLinesContains | page.js:113 | every joined text occurs in the joined document |
| Text.TrimEmptyIff | page.js:131 | trim gives "" iff the string is all whitespace |
| Text.SplitOnSpacesLosesOnlySpaces | page.js:180 | splitting on whitespace runs loses exactly the whitespace |
| Text.SplitOnSpacesCuts | page.js:180 | the pieces, with non-empty whitespace runs put back between them, give the input again, and only the first and last piece can be empty: the cuts are exactly the maximal whitespace runs |
| Generation.Respond | page.js:138-155 | a chain with `retries` left makes between 1 and retries+1 backend calls, with one 2000 ms backoff wait between each two |
| Generation.RespondFirstSuccess | page.js:138-155 | the text of the first successful call is returned, after k failed calls and k backoff waits of 2000 ms |
| Generation.RespondExhausted | page.js:145-153 | when every allowed call fails the result is exactly the apology string, after retries+1 calls and retries backoff waits |
| Generation.RespondAnswers | page.js:138-155 | the result is the apology or the text of a successful call within the budget, so the client never fails |
| Generation.ClientsAgree | page.js:138-174 | the primary and fallback clients return the same response when the backend replies the same for `gemini-pro` and `text-bison-001` |
| Generation.GetChatbotResponse | page.js:138-155 | the primary client with the default budget makes at most four calls |
| Generation.GetFallbackChatbotResponse | page.js:157-174 | the fallback client with the default budget makes at most four calls |
| Generation.DefaultBudgetExhausted | page.js:138-155 | with a backend that always fails, the primary client returns the apology after four calls and 6000 ms of backoff waits |
| Orchestrator.QueryKeywords | page.js:180 | the keywords are at least one, each without whitespace or upper-case letters |
| Orchestrator.QueryKeywordsKeepText | page.js:180 | the keywords together hold exactly the non-whitespace characters of the lower-cased query |
| Orchestrator.QueryKeywordsCuts | page.js:180 | the keywords are the pieces of the lower-cased query between its maximal whitespace runs, so only the first and last keyword can be empty |
| Orchestrator.FallbackPrompt | page.js:187-191 | the fallback prompt ends with the query |
| Orchestrator.GroundedPrompt | page.js:203-210 | the grounded prompt ends with the query and holds the document before it |
| Orchestrator.ChoosePath | page.js:184-214 | the fallback model and the query-only prompt are chosen iff the document is empty, else the primary model with the grounded prompt |
| Orchestrator.Run | page.js:176-218 | the run derives the keywords, assembles `GroundingOf`, chooses by `ChoosePath`, and returns that client's response with the default budget |
| Orchestrator.NoRelevantLinksFallsBack | page.js:182-201 | with no relevant link the fallback model answers the bare query |
| Orchestrator.PrimaryIffSomeText | page.js:182-214 | the primary model is used iff some relevant link yielded text under some identity |

## Left out

- HTTP fetching (`fetchWebsiteContent`, page.js:19-35) is network I/O. Its outcome is an input: the seed page as `Option<seq<Anchor>>`, each relevant page through `PageFetcher`. The header profile is not modelled; the identity is an oracle argument and appears in the trace.
- HTML parsing and selector traversal by cheerio is a foreign library. Anchors and matched element texts are given as sequences.
- `url.resolve` is a foreign call and is a parameter. That the resulting URL is absolute cannot be stated from this code.
- Timers: the waits of page.js:109, 149 and 168 are `Pause` events or a sum of backoff milliseconds, not real time.
- The Gemini client, its construction and the API key are an external backend. It is an oracle that can depend on the model, the prompt and the call number.
- Logging, async scheduling and the top-level `run().catch(...)` of page.js:220-222 are left out. Every modelled operation is total, so nothing is thrown.
- `run` hard-codes its seed URL and query. They are parameters here.
- Prompt templates: the indentation and surrounding whitespace of the template literals are not modelled. The instruction text and the order head, document, label, query are kept.
- Text.ToLower: lower-cases ASCII letters only, while JavaScript's `toLowerCase` follows Unicode. For keywords the stripping step afterwards removes every non-ASCII character other than whitespace, so the result agrees with JavaScript except on the two characters whose lower case is ASCII. These are U+212A (KELVIN SIGN), which JavaScript lowers to "k", and U+0130 (LATIN CAPITAL LETTER I WITH DOT ABOVE), which it lowers to "i" followed by U+0307 and which then strips to "i". The model keeps both characters and then strips them, so a keyword made of one of them normalises to "" and matches every candidate, while in JavaScript it normalises to "k" or "i". For link and surrounding text, non-ASCII upper-case letters are kept as they are.
- A failed fetch and a parse error in `extractContentFromPage` are the same `None` outcome. Both give "".
