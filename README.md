# gemini-summarizer, modelled in Dafny

The project models the core of the gemini-summarizer browser extension, and proves what it promises.

- **The content script** (`content.js`) answers the popup's `getText` request. It returns the page's selection when there is one. Otherwise it picks the main content element and walks it depth-first up to depth 20. The walk skips deny-listed subtrees, keeps text fragments longer than three code units, and collapses the collected text into single-spaced, trimmed text.
- **The streaming consumer** of the Firefox popup (`callGemini`, `callOpenRouter`) works as follows:
  - it reads decoded chunks and keeps a line buffer split on LF;
  - it takes the delta out of every `data: ` line (except `data: [DONE]`) and appends the non-empty deltas;
  - it cleans the result: runs of line feeds become one, then the text is trimmed.
- **`renderMarkdown`** of the Firefox popup, on plain text: the heading rewrites, the newline passes, the paragraph wrap and the clean-up.
- **The Chrome popup's non-streaming calls**:
  - the ordered checks on the Gemini and OpenRouter JSON replies;
  - the choice between OpenRouter and Gemini in `callTextApi`;
  - the fallback from a refined query longer than 400 code units to the user's question.
- **`performWebSearch`** picks Tavily, Brave or You.com from the first two characters of the search key. It turns the provider's JSON answer into a plain-text context; any failure gives the empty context. The Firefox and Chrome popups carry the same code for this function (`firefox/popup.js:276-390`, `chrome/popup.js:193-307`), and the model cites the Chrome copy.

Modules:

| module | file | what it holds |
|---|---|---|
| `Wrappers` | `wrappers.dfy` | `Option` and `Result` |
| `Seqs` | `seqs.dfy` | slicing facts about sequences of any element type |
| `Runs` | `runs.dfy` | collapsing runs of separators in a sequence of any element type, and its words (the maximal runs without a separator) |
| `JsString` | `js_string.dfy` | the JavaScript string operations the code relies on |
| `ContentScript` | `content_script.dfy` | the `getText` handler |
| `Streaming` | `streaming.dfy` | the streaming read loop and line buffer |
| `Markdown` | `markdown.dfy` | `renderMarkdown` |
| `Providers` | `providers.dfy` | the reply checks, `callTextApi` and the query fallback |
| `WebSearch` | `web_search.dfy` | `performWebSearch` |

`JsString` covers `trim` and its whitespace set, `replace(/\s+/g, ' ')`, `split('\n')`, `.length` in UTF-16 code units, `substring`, `toLowerCase` on the key prefix, and decimal numbers in templates.

**Style.** Code that computes a value is modelled as functions with lemmas. The loops of the source are modelled as methods with loop invariants, each proved against a specification function:
- the stream read loop and the per-line loop;
- the DOM child loop;
- the `forEach` that lists search results.

JSON parsing and `fetch` are parameters. A reply is a datatype whose fields are `Option`s (`None` means absent). The stream's reads are a sequence of `ReadStep`s. A data line's payload goes through a parameter `extract: string -> Option<string>`, which stands for `JSON.parse` followed by the provider's field path.

**Line 419 of `renderMarkdown`.** This rewrite puts line feeds before the unstyled open tags `<h1>`–`<h3>`. The headings it produces always carry a `style` attribute, so the pattern never matches. `Markdown.OpenersIdentity` states this, and the rendering lemmas rely on it.

## Model

| member | source | states |
|---|---|---|
| ContentScript.GetText | gemini-summarizer/firefox/content.js:5-73 | a selection that is non-empty once trimmed is returned trimmed and flagged as a selection. Otherwise the response is the whitespace-collapsed text of the walk from the chosen root, with no whitespace runs and no edge whitespace. With no root at all, no response is sent |
| ContentScript.ExtractTextFromElement | gemini-summarizer/firefox/content.js:24-56 | the text and the visited set equal those of the specification walk `WalkElement`, and the text has no leading or trailing whitespace |
| ContentScript.ExtractFromElement | gemini-summarizer/firefox/content.js:27-55 | the body for an element that passed the guard: it adds the element to `visited`, then skips deny-listed elements, walks the children, runs the key-tag pass and trims, all as `WalkElement` does |
| ContentScript.ExtractFromChildren | gemini-summarizer/firefox/content.js:35-47 | the child loop yields the text and visited set of `WalkChildren` over all children |
| ContentScript.ExtractFromChild | gemini-summarizer/firefox/content.js:36-46 | one child: a text node adds its fragment, an element recurses at depth + 1, and any other node changes nothing |
| ContentScript.TextContribution | gemini-summarizer/firefox/content.js:38-42 | a text child contributes exactly when its trimmed text is longer than 3 UTF-16 code units, and then contributes that trimmed text plus one space |
| ContentScript.WalkElementOnce | gemini-summarizer/firefox/content.js:24-28 | in one extraction every element is processed at most once. An element already visited is never processed, and none is processed deeper than depth 20 |
| ContentScript.WalkChildrenOnce | gemini-summarizer/firefox/content.js:35-47 | the same for a child list walked at a given depth, with children at depth + 1 |
| ContentScript.KeyTagPassAddsNothing | gemini-summarizer/firefox/content.js:50-55 | the second recursion on key tags (P, H1–H6, LI, TD, TH, FIGCAPTION, CAPTION) finds the element already visited. So an element's text is exactly the trimmed text of its children |
| ContentScript.SkippedContributesNothing | gemini-summarizer/firefox/content.js:30-33 | an element that matches the deny-list, or has an ancestor that does, contributes no text |
| ContentScript.DeniedAncestorMeansClosest | gemini-summarizer/firefox/content.js:30 | a deny-listed ancestor within reach makes `closest` succeed |
| ContentScript.ClosestFindsDeniedAncestor | gemini-summarizer/firefox/content.js:30 | `closest` succeeds only if some ancestor (or the element) is deny-listed, and the lemma returns how far up it is |
| ContentScript.FirstMain | gemini-summarizer/firefox/content.js:18-20 | the first position in document order whose element matches the main-content selectors, and None exactly when none matches |
| ContentScript.SelectRoot | gemini-summarizer/firefox/content.js:18-21 | `querySelector(...) \|\| document.body`: the element at the first position in document order that matches the main-content selectors, whichever selector it matches; the body when none matches |
| JsString.CollapseWhitespace | gemini-summarizer/firefox/content.js:58-59 | after `replace(/\s+/g, ' ').trim()` there are no whitespace runs and no edge whitespace, and every remaining whitespace character is a space |
| JsString.CollapseWhitespaceJoinsWords | gemini-summarizer/firefox/content.js:58-59 | the cleaned text is exactly the words of the input (its maximal runs without whitespace), in order, joined by single spaces |
| JsString.CollapseKeepsWords | gemini-summarizer/firefox/content.js:58-59 | the cleaning keeps every word of the text, in order, and adds none |
| JsString.TrimAround | gemini-summarizer/firefox/content.js:59 | `trim` of whitespace, then a piece with no whitespace at its ends, then whitespace, is that piece |
| JsString.CollapseRuns | gemini-summarizer/firefox/content.js:59 | every maximal whitespace run becomes a single space. The result is empty only for empty input, and it starts with whitespace exactly when the input does |
| JsString.CollapseRunsIsCollapsed | gemini-summarizer/firefox/content.js:59 | the replacement is the general run collapse `Runs.Collapsed`: one space for a leading run, the words joined by single spaces, one space for a trailing run |
| JsString.LeadingIsSepRun | gemini-summarizer/firefox/content.js:59 | the whitespace at the front of a string is the separator run of the general collapse |
| JsString.Trim | gemini-summarizer/firefox/content.js:8 | `trim` removes exactly the leading and trailing whitespace, leaving a slice of the input with no whitespace at either end |
| JsString.SplitPieces | firefox/popup.js:149-151 | no piece of `split('\n')` holds a line feed, and joining the pieces with line feeds gives back the input |
| JsString.SplitJoin | firefox/popup.js:149-151 | splitting the join of line-feed-free pieces gives back the pieces |
| JsString.SplitAppend | firefox/popup.js:149-151 | splitting `x + y` is the complete lines of `x` followed by the split of `x`'s last piece followed by `y` |
| JsString.Utf16Length | firefox/popup.js:510 | `.length` counts UTF-16 code units: between one and two per character, and exactly one per character when every character is in the Basic Multilingual Plane |
| JsString.Utf16LengthChar | firefox/popup.js:510 | a character counts two code units above U+FFFF and one otherwise |
| JsString.Utf16LengthAppend | firefox/popup.js:510 | the length of a concatenation is the sum of the lengths |
| JsString.Prefix | chrome/popup.js:233 | `substring(0, n)` is the prefix of exactly `n` characters, or the whole string when it is shorter |
| JsString.DecimalRoundTrip | chrome/popup.js:233 | reading back the decimal rendering of a number gives the number |
| JsString.NumberPrefixReadsBack | chrome/popup.js:233 | the leading digits of a rendered number followed by a non-digit read back as that number |
| Streaming.SqueezeNewlines | firefox/popup.js:166 | `replace(/\n{2,}/g, '\n')` leaves no two adjacent line feeds, never lengthens the text and keeps its first character |
| Streaming.SqueezeKeepsText | firefox/popup.js:166 | the rewrite drops only line feeds: the text without line feeds is unchanged, and the result holds a line feed exactly when the input does |
| Streaming.SqueezeIsCollapsed | firefox/popup.js:166 | the rewrite is the general run collapse with the line feed as separator: the non-empty lines in order with one line feed between each two, and one line feed for a run at either end, so a line feed remains exactly where a run of them was |
| Streaming.SqueezeKeepsLines | firefox/popup.js:166 | the non-empty lines of the text survive unchanged and in order |
| Streaming.Clean | firefox/popup.js:183-184 | the cleaned content has no double line feed and no edge whitespace |
| Streaming.CleanIdempotent | firefox/popup.js:166 | cleaning already clean content changes nothing: `Clean(Clean(s)) == Clean(s)` |
| Streaming.SplitBuffer | firefox/popup.js:149-151 | the new buffer and every complete line are free of line feeds, and joined with line feeds they give back the old buffer plus the chunk |
| Streaming.CompleteLinesAppend | firefox/popup.js:149-151 | the complete lines of `x + y` are those of `x` followed by those of `x`'s leftover plus `y` |
| Streaming.PendingAppend | firefox/popup.js:151 | the buffer left after `x + y` is the one left after `x`'s leftover plus `y` |
| Streaming.StreamStep | firefox/popup.js:149-151 | feeding a chunk to the buffer left by the earlier chunks yields exactly the lines and leftover of the whole concatenated stream, so the result does not depend on chunk boundaries |
| Streaming.LineDelta | firefox/popup.js:153-164 | a line adds text only if it is a `data: ` line other than `data: [DONE]` whose payload gives a delta, and then it adds exactly that delta |
| Streaming.DeltasAppend | firefox/popup.js:152-174 | the content added by two batches of lines is the first batch's followed by the second's |
| Streaming.SkippedLineAddsNothing | firefox/popup.js:153-172 | a line that is not a data line, is the `[DONE]` marker or fails to parse can be removed without changing the content |
| Streaming.ReadsBeforeFailure | firefox/popup.js:146-177 | the reads before the first failing read are all successful, and the one at that index is a failure |
| Streaming.FailedOutcome | firefox/popup.js:176-177 | a read failing after only successful reads ends the call with `Stream error: ` and that failure's message |
| Streaming.StreamedContentGrows | firefox/popup.js:159-164 | the content is append-only: more chunks only extend it |
| Streaming.UnterminatedTailIgnored | firefox/popup.js:149-151 | a last chunk without a line feed stays in the buffer and never reaches the content |
| Streaming.ProcessLine | firefox/popup.js:153-164 | one line appends its delta, and `started` is set exactly when the content is non-empty |
| Streaming.ProcessLines | firefox/popup.js:152-174 | the line loop appends the deltas of all lines in order |
| Streaming.FeedChunk | firefox/popup.js:149-174 | one read: the buffer becomes the new leftover and the content gains the deltas of the completed lines |
| Streaming.ReadChunk | firefox/popup.js:147-175 | one pass of the read loop carries the loop state for the first `i` reads to the state for the first `i + 1` |
| Streaming.ConsumeStream | firefox/popup.js:139-185 | the read loop returns the cleaned deltas of every terminated line whatever the chunking, or `Stream error: …` at the first failing read. `started` records whether any content arrived |
| Streaming.GeminiDelta | firefox/popup.js:155-158 | a delta exists exactly when the first candidate has content with a first part carrying text |
| Streaming.ChoicesDelta | firefox/popup.js:230 | `choices?.[0]?.delta?.content` exists exactly when each link of the chain is present |
| Streaming.CallGeminiStream | firefox/popup.js:137-185 | a non-OK status fails with `API error: <status> - <statusText>`, otherwise the call gives the outcome of the read loop on Gemini chunks |
| Streaming.CallOpenRouterStream | firefox/popup.js:191-256 | a missing key or model fails before any request, a non-OK status fails with `OpenRouter API error: …`, otherwise the call gives the outcome of the read loop on OpenRouter chunks |
| Markdown.RenderMarkdown | firefox/popup.js:392-432 | the empty text renders as the empty string, and no line feed survives into the HTML |
| Markdown.ThreeHashesMakeH3 | firefox/popup.js:396 | a `### ` line becomes an h3 heading around the rest of the line |
| Markdown.H1OnlyFromOneHash | firefox/popup.js:396-398 | a line yields an h1 heading exactly when it starts with `# `, because the h3 and h2 rewrites run first |
| Markdown.Breaks | firefox/popup.js:416-417 | a single line feed stays, a run of two or more becomes one paragraph break, and the passes never create an unstyled heading open tag |
| Markdown.BreaksIdentity | firefox/popup.js:416-417 | tokens without a line feed pass unchanged |
| Markdown.BreaksAppend | firefox/popup.js:416-417 | text without a line feed passes unchanged in front of whatever follows |
| Markdown.BreaksSingleNewline | firefox/popup.js:416-417 | a single line feed between two pieces of text is kept as it is |
| Markdown.BreaksNewlineRun | firefox/popup.js:416-417 | a run of two or more line feeds becomes exactly one `</p><p>` |
| Markdown.Closers | firefox/popup.js:418 | the first token is kept and no unstyled heading open tag is introduced |
| Markdown.ClosersLast | firefox/popup.js:418 | a heading close at the end gains two line feeds |
| Markdown.ClosersIdentity | firefox/popup.js:418 | without a heading close the pass changes nothing |
| Markdown.OpenersIdentity | firefox/popup.js:419 | without an unstyled heading open tag, which the heading rewrites never produce, the pass changes nothing |
| Markdown.HeadingLinesNoPlainOpen | firefox/popup.js:396-398 | the heading rewrites produce only styled open tags |
| Markdown.Flatten | firefox/popup.js:420 | every line feed becomes a space and every other token stays in place |
| Markdown.CollapseEmptyBreaksIdentity | firefox/popup.js:430 | without an unstyled `<p>` the first clean-up changes nothing |
| Markdown.DropEmptyParagraphsIdentity | firefox/popup.js:430 | without an unstyled `<p>` the second clean-up changes nothing |
| Markdown.EmptyParagraphAt | firefox/popup.js:430 | a match of `<p>\s*</p>` starts with `<p>`, ends with `</p>` and has only whitespace between them |
| Markdown.EmptyParagraphFound | firefox/popup.js:430 | `<p>`, any whitespace, `</p>` is always matched, whatever follows it, with exactly its own length |
| Markdown.RenderTokensHaveNoNewline | firefox/popup.js:420-430 | after line 420 and the wrap and clean-up, no line feed token remains |
| Markdown.RenderWrapped | firefox/popup.js:426-428 | the output starts with the styled paragraph tag exactly when the first line is not a heading line |
| Markdown.RenderH3Line | firefox/popup.js:396-430 | a single `### x` line renders as the styled h3 around `x` followed by two spaces (the two line feeds of line 418, flattened) |
| Markdown.RenderParagraph | firefox/popup.js:416-430 | a single plain line that is not a heading renders as one styled paragraph around the line |
| Providers.GeminiReplyText | chrome/popup.js:131-145 | the checks in source order:<br>1. a non-OK status gives `API error: …`;<br>2. no candidates gives `No candidates in API response.`;<br>3. a finish reason other than STOP gives `Generation stopped: <reason>`;<br>4. no first part gives `Empty content from API.`<br>It succeeds exactly when all checks pass and the part has text, and the result is that text trimmed |
| Providers.OpenRouterReplyText | chrome/popup.js:151-172 | the checks in source order:<br>1. a missing key or model gives `Missing OpenRouter API key or model.`;<br>2. a non-OK status gives `OpenRouter API error: <status> - <statusText>`;<br>3. missing or empty `choices` gives `No choices in API response.`;<br>4. a first choice without a message or content fails reading `.message.content`.<br>It succeeds exactly when the first choice has a message with content, and returns it trimmed |
| Providers.OpenRouterModel | chrome/popup.js:94-96 | the trimmed model input when it is non-empty, and otherwise the default model `arcee-ai/trinity-mini:free` |
| Providers.ChooseTextApi | chrome/popup.js:176-189 | OpenRouter exactly when it is switched on and its trimmed key is non-empty, otherwise Gemini exactly when its trimmed key is non-empty, otherwise no call |
| Providers.CallTextApi | chrome/popup.js:176-190 | the error `No valid API key for text generation.` without a usable key, otherwise the chosen provider's reply |
| Providers.OpenRouterConfigAlwaysPresent | chrome/popup.js:151-153 | through `callTextApi` the "missing OpenRouter key or model" error can never be raised |
| Providers.EffectiveQuery | chrome/popup.js:386-388 | the query is the refined one exactly when it is at most 400 UTF-16 code units long, and the user's question otherwise |
| WebSearch.KeyPrefix | chrome/popup.js:200 | the first two characters of the key (the whole key when shorter), with ASCII capitals lowered |
| WebSearch.ProviderFor | chrome/popup.js:200-299 | Tavily exactly for keys starting `tv`, Brave for `bs` and You.com for `yd`, in any case. Any other key, and any key shorter than two characters, is unsupported |
| WebSearch.Snippet | chrome/popup.js:233 | a missing text prints `undefined`, otherwise the first 200 characters, or the whole text when shorter |
| WebSearch.NumberedLineNumber | chrome/popup.js:233 | a source line reads back as the number it was given |
| WebSearch.TavilyContext | chrome/popup.js:225-236 | the context is empty exactly when there is no answer and no results. Otherwise it is the answer line (when there is an answer) followed, when the results list is present, by `Relevant Sources:`, the numbered lines of the first ten results and a line feed |
| WebSearch.TavilyNumbering | chrome/popup.js:232-234 | at most ten sources are listed, all of them when there are at most ten, numbered 1, 2, … in order |
| WebSearch.TavilyCapped | chrome/popup.js:232 | results past the tenth change nothing |
| WebSearch.FormatTavily | chrome/popup.js:229-236 | the appends of the Tavily branch build exactly `TavilyContext` |
| WebSearch.ListTavily | chrome/popup.js:232-234 | the `forEach` loop builds the concatenation of the numbered lines |
| WebSearch.BraveEntry | chrome/popup.js:254-259 | every result entry starts on a new line with `- Title: ` |
| WebSearch.BraveContext | chrome/popup.js:249-260 | the context is empty exactly when there are no web results. Otherwise it is the summarizer key (or nothing without a summarizer) followed by the entries of every web result in order |
| WebSearch.BraveUncapped | chrome/popup.js:254-260 | one more web result appends its entry: Brave results are never dropped |
| WebSearch.YouSection | chrome/popup.js:282-296 | a headed section is empty exactly when its list is missing or empty |
| WebSearch.YouContext | chrome/popup.js:277-296 | the context is empty exactly when there are no results or neither list has an entry |
| WebSearch.YouNumbering | chrome/popup.js:283-295 | at most ten lines each; web line `i` carries number `i + 1` and news line `j` carries `j + 11`, so no number appears in both lists |
| WebSearch.ListYou | chrome/popup.js:284-286 | the `forEach` loop builds the concatenation of the numbered lines from the given start |
| WebSearch.FormatYouSection | chrome/popup.js:282-288 | the statements of one section build exactly `YouSection` |
| WebSearch.FormatYou | chrome/popup.js:277-296 | the You.com branch builds exactly `YouContext` |
| WebSearch.SearchContext | chrome/popup.js:193-307 | a missing query or key, an unsupported prefix, or a failed request gives the empty context. Otherwise the chosen provider's context is returned |
| WebSearch.PerformWebSearch | chrome/popup.js:193-307 | the branches as written return exactly `SearchContext` |

## Left out

- **Outside the model:**
  - Network I/O, `fetch`, `TextDecoder`, `chrome.tabs` / `browser.tabs` messaging and `chrome.storage`. The answers they would give are parameters.
  - The UI: `innerHTML`, the status and warning messages, `console` output, button handling and the saving of keys.
- **JSON:** `JSON.parse` and `response.json()` are abstract. A body that is not JSON shows as a `None` answer (web search) or an `extract` result of `None` (streaming). Chrome's `callGemini` and `callOpenRouter` receive an already-parsed body.
- **JavaScript values:**
  - `null` and `undefined` are not told apart: both are a missing field.
  - A non-string JSON value where a string is expected is not modelled.
  - A `null` element inside `parts` or `results` is not modelled.
- **Not modelled:**
  - the prompts;
  - the vision (image) path of `callGemini`;
  - the `setTimeout` of 1000 ms in `content.js`;
  - the intermediate `renderMarkdown` call while streaming (line 167 of `firefox/popup.js`).
- **Wrapped errors:** errors other than a failing read that the streaming calls wrap as `Stream error` (lines 176-177 and 247-248 of `firefox/popup.js`) are represented only by a failing read.
- **Page elements:**
  - CSS selector matching and `innerText` are abstract: each element records whether it matches the deny-list and the main-content selectors.
  - The `catch` fallback of `content.js` (lines 64-71) is taken only when the root is null. The body is then null too, so no response is sent; the model returns `None` there.
- ContentScript.Skipped: `closest` follows at most as many parent links as the document has elements. That covers every ancestor when parent links are acyclic, which a DOM guarantees.
- Markdown.RenderMarkdown: requires `PlainMarkdown`, meaning no `*`, `_`, backtick, `[`, `<`, `>` or line terminator other than LF, and no list, quote or indented-code lines. So the bold, italic, code, blockquote, list, `<ul>` and link rewrites (lines 399-414, 422 and 424 of `firefox/popup.js`) are not modelled.
- Markdown.RenderMarkdown: its general contract covers the empty input and the absence of line feeds. Full output is proved for single heading and paragraph lines (`RenderH3Line`, `RenderParagraph`) and for the first tag (`RenderWrapped`).
- WebSearch.Snippet: `substring(0, 200)` is counted in characters, not UTF-16 code units; the two differ only for text outside the Basic Multilingual Plane.
- WebSearch.KeyPrefix: `toLowerCase` is modelled on ASCII letters only, which decides the three prefixes exactly but not other prefixes.
- WebSearch.SearchContext: the provider's error is not modelled as a thrown message because the `catch` turns every error into the empty context.
