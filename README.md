# Web Highlights — a Dafny model of the highlight store and the summary pipeline

Web Highlights is a Chrome extension. A content script remembers the text the
user selects on a page and, on "Save Highlight", appends a record
`{id, text, url, title, date}` to the `highlights` array in
`chrome.storage.local`. The popup lists the records newest first, deletes them
by id, and asks Google's Gemini API for a one-sentence summary. It tries
`gemini-2.5-flash` first and falls back once to `gemini-1.5-flash` when the
first answer is a 404 or 400. It classifies the answer and stores a successful
summary on the record. It also keeps the user's API key in the same storage
area and escapes highlight text before putting it into markup.

This project models that logic:

- `wrappers.dfy`, module `Wrappers`: `Option`, used for every JavaScript
  property that may be absent.
- `text.dfy`, module `JsText`: `String.prototype.trim` over the ECMAScript
  WhiteSpace and LineTerminator code points.
- `escape.dfy`, module `HtmlEscape`: `escapeHtml`, plus a decoder `Unescape`
  used as a reference to prove that escaping loses nothing.
- `highlights.dfy`, module `Highlights`: the `Highlight` record and the pure
  collection operations. These are `filter` by id (`Without`), `findIndex`,
  setting a summary (`SetSummary`) and the newest-first order, with lemmas
  about ids, order and multiplicity.
- `storage.dfy`, module `Storage`: class `LocalStore`, the two storage keys as
  fields that the operations reassign.
- `content.dfy`, module `Content`: class `ContentScript`. It holds the mutable
  `currentSelection` and has the mouse-up and save-click handlers as methods.
- `enrichment.dfy`, module `Enrichment`: the request/fallback/classification
  part of `summarizeHighlight` as a method. The network is a parameter: a
  total function from request to reply. Three example exchanges are written
  as methods: 404 then ok, 429, and 400 then 500.
- `popup.dfy`, module `Popup`: the key form, `loadHighlights` (with the
  in-place `reverse()`), `deleteHighlight`, the summary-persist block, and the
  whole `summarizeHighlight` handler over a `SummaryCard`. The card holds the
  summary box's content, which is markup written through `innerHTML` or text
  written through `innerText`, and the button's `disabled` flag.

Each storage operation is modelled as one atomic read-modify-write on the store
object. Injected values are parameters:
- the timestamp (`Date.now()`);
- the page URL and title;
- the locale date string;
- the raw selection string;
- the text typed into the key field.

Behaviours of the code that the model keeps:

- The body is classified whatever the HTTP status. A 500 answer with an error
  object therefore shows `"Error: " + message`.
- Deleting from a store that never held `highlights` calls `filter` on
  `undefined`. That throws inside the storage callback, so nothing is written.
  The model leaves the store unchanged in that case.
- These failures inside the `try` block all end in the same branch as a
  network failure and show the network-error message:
  - a body that `response.json()` cannot parse;
  - a body that parses to `null`, where reading `data.error` throws.
- The save handler returns nothing, and it checks for an empty selection
  itself.

## Model

| member | source | states |
|---|---|---|
| JsText.IsWhitespace | content.js:25 | the characters `trim()` drops: the ECMAScript WhiteSpace and LineTerminator code points, written out |
| JsText.TrimStart | content.js:25 | drops exactly the leading whitespace: the result is a suffix, everything dropped is whitespace, and it does not start with whitespace |
| JsText.TrimEnd | content.js:25 | drops exactly the trailing whitespace: the result is a prefix, everything dropped is whitespace, and it does not end with whitespace |
| JsText.Trim | popup.js:8 | the result is trimmed and is a slice of the input with only whitespace before and after it |
| JsText.TrimOfTrimmed | content.js:25-28 | a string with no whitespace at either end trims to itself |
| JsText.TrimIdempotent | content.js:25-28 | trimming twice equals trimming once |
| JsText.TrimEmptyIffBlank | content.js:27 | the trimmed selection is empty exactly when the selection is all whitespace |
| HtmlEscape.EscapeChar | popup.js:199-205 | a character is replaced exactly when it is one of `& < > " '`; a replacement is an `&…;` reference free of `< > " '` |
| HtmlEscape.EscapeHtml | popup.js:206-208 | the escaped text contains no `<`, `>`, `"` or `'` and is no shorter than the input |
| HtmlEscape.EscapeConcat | popup.js:206 | escaping is a per-character homomorphism: escape(a + b) = escape(a) + escape(b) |
| HtmlEscape.EscapeIdentity | popup.js:206 | text containing none of the five characters is returned unchanged |
| HtmlEscape.UnescapeStep | popup.js:199-205 | each table entry decodes back to its own character, whatever follows it |
| HtmlEscape.UnescapeEscape | popup.js:198-209 | decoding the escaped text gives back the original text exactly |
| HtmlEscape.EscapeInjective | popup.js:198-209 | two different texts never escape to the same markup |
| Highlights.AppendKeepsIdsIncreasing | content.js:57-67 | appending a record whose id exceeds all stored ids keeps ids strictly increasing and unique |
| Highlights.Without | popup.js:105 | the filtered collection holds exactly the records whose id differs from the target |
| Highlights.WithoutConcat | popup.js:105 | filtering distributes over concatenation, so the kept records stay in their original relative order |
| Highlights.WithoutCounts | popup.js:105 | every record with another id keeps its multiplicity; records with the target id occur zero times |
| Highlights.WithoutAbsent | popup.js:105 | deleting an id no record has leaves the collection unchanged |
| Highlights.WithoutIdempotent | popup.js:105 | deleting twice equals deleting once |
| Highlights.WithoutSplit | popup.js:105 | removing the only record with the target id from the middle leaves the records before and after it, joined |
| Highlights.WithoutRemovesOne | popup.js:105 | with unique ids, deleting a present id removes exactly that one record and nothing else |
| Highlights.WithoutKeepsIdsIncreasing | popup.js:105 | deleting preserves strictly increasing ids |
| Highlights.FindIndex | popup.js:180 | returns -1 exactly when no record has the id, otherwise the first position holding it |
| Highlights.SetSummary | popup.js:180-182 | same length; only the first record with the id changes, and only in its summary, which becomes the new one; with no match nothing changes |
| Highlights.SetSummaryUnique | popup.js:178-185 | with unique ids, exactly the record carrying the id gets the summary and every other field and record is kept |
| Highlights.SetSummaryKeepsIdsIncreasing | popup.js:182 | setting a summary preserves strictly increasing ids |
| Highlights.NewestFirst | popup.js:57 | the collection reversed; its contract gives only the length, and its meaning is stated by the lemmas below and by `Popup.ReverseInPlace` |
| Highlights.NewestFirstAppend | popup.js:57 | the record saved last is listed first, followed by the previous listing |
| Highlights.NewestFirstPermutation | popup.js:57 | the listing holds every stored record exactly as many times as it is stored |
| Highlights.NewestFirstInvolution | popup.js:57 | reversing the listing gives back creation order |
| Highlights.NewestFirstIdsDecreasing | popup.js:57 | with ids in creation order, the listing's ids strictly decrease |
| Storage.LocalStore.constructor | content.js:66 | a fresh store holds neither the collection nor the key |
| Content.ContentScript.constructor | content.js:20 | the selection starts empty (and so trimmed) |
| Content.ContentScript.OnMouseUp | content.js:23-29 | the selection stays trimmed: a selection that trims to something non-empty replaces it, otherwise the previous value stays |
| Content.ContentScript.OnSaveClick | content.js:53-67 | with an empty selection the store is untouched; otherwise exactly one record `{id: now, text: selection, url, title, date}` without summary is appended after the stored ones; on an absent collection the result is that one-element collection; every record it adds has a trimmed, non-empty text |
| Enrichment.CallFor | popup.js:129-147 | a request names the given model and key, and its prompt is the fixed directive followed by the raw text (a definition) |
| Enrichment.IsOk | popup.js:155 | `response.ok`: the status is in 200-299 (a definition) |
| Enrichment.NeedsFallback | popup.js:155 | the primary reply is a delivered, non-ok response with status 404 or 400 (a definition; see FallbackDependsOnStatus) |
| Enrichment.FallbackDependsOnStatus | popup.js:155 | a reply calls for the fallback exactly when its status is 404 or 400; a rejected fetch never does |
| Enrichment.FirstText | popup.js:173 | a text is found exactly when candidate 0, its content and its part 0 all exist, and it is then the text of that part |
| Enrichment.Classify | popup.js:164-189 | a parsed body never gives a network error; it gives rate limiting or a remote error exactly when it has an error object; a remote error message is never empty; a summary is the non-empty first candidate text |
| Enrichment.Interpret | popup.js:162-191 | the outcome is a network error exactly when the fetch was rejected or the body did not parse |
| Enrichment.Message | popup.js:166-191 | the box starts with "✨" exactly for a summary, and the rest after "✨ " is the summary itself; every other outcome except a network error shows a text starting "Error: " |
| Enrichment.Summarize | popup.js:150-192 | one or two requests; the first goes to the primary model; the second goes to the fallback model and is made exactly when the first reply is a non-ok 404 or 400; all carry the same key and the fixed directive followed by the raw text; the outcome is that of the last reply |
| Enrichment.OutcomeOfReply | popup.js:162-191 | all five outcomes: a rejected fetch or an unreadable body is a network error; an error object is rate limiting or a remote error; otherwise a non-empty first text is the summary, and anything else is the empty result shown as "Error: No summary generated." |
| Enrichment.ErrorClassification | popup.js:164-171 | an error body is rate limiting exactly when its code is 429; otherwise it shows "Error: " followed by its message or "Unknown error" |
| Enrichment.PrimaryMissingFallbackAnswers | popup.js:152-175 | a 404 from the primary model then "ok" from the fallback gives two requests and the summary "ok" |
| Enrichment.RateLimitedNoRetry | popup.js:152-167 | a 429 error body gives rate limiting after a single request |
| Enrichment.FallbackFailsWithMessage | popup.js:152-171 | a 400 from the primary model then error "boom" from the fallback gives the remote error "boom" after two requests |
| Popup.HasApiKey | popup.js:119 | the request gate: a key is usable when present and non-empty, as JavaScript truthiness of a string (a definition) |
| Popup.SaveKey | popup.js:6-15 | the trimmed key is stored when non-empty, and it then passes the request gate; an input that trims to nothing changes nothing |
| Popup.DeleteKey | popup.js:18-23 | the key is removed |
| Popup.ReverseInPlace | popup.js:57 | the array is reversed in place |
| Popup.LoadHighlights | popup.js:44-61 | the empty-state notice exactly when nothing is stored; otherwise all records, most recent first |
| Popup.DeleteHighlight | popup.js:103-110 | a stored collection is replaced by its filtered copy; an absent one stays absent |
| Popup.PersistSummary | popup.js:177-185 | with a record of that id, the collection becomes the one with the first such record's summary set; otherwise nothing is written |
| Popup.CardSummaryMarkup | popup.js:70-71 | for a truthy summary the markup is "✨ " followed by the summary unescaped, otherwise empty |
| Popup.StoredSummaryMarkupUnescaped | popup.js:71-81 | a markup character of a stored summary reaches the card's `innerHTML` unchanged, at its offset after "✨ " (unlike the highlight text, which is escaped) |
| Popup.SummaryCard.constructor | popup.js:69-81 | a card writes the markup "✨ " + summary through `innerHTML` (unescaped) and makes the box visible exactly when the record has a non-empty summary, with its button enabled |
| Popup.SummarizeHighlight | popup.js:112-196 | with no usable key: no request, store and card unchanged. Otherwise: the first request goes to the primary model; a second, to the fallback model with the same key and prompt, is made exactly when the first reply is a non-ok 404 or 400; the box holds the last outcome's message as text (`innerText`); the button is enabled again on every path; the collection changes only on a summary, and then only by setting that summary on the matching record |

## Left out

- DOM construction and styling is not modelled: the floating button, its position from `getBoundingClientRect` and the scroll offsets, show and hide on mouse events, the "Saved!" feedback with `setTimeout`, the card markup, and `checkApiKeyStatus`'s toggling of the key form. This is presentation only.
- `chrome.storage.local` is asynchronous and has no locking. The model makes each operation one atomic read-modify-write, so it does not capture the lost update between concurrent handlers. That is concurrency.
- `fetch`, HTTPS, the request URL, `JSON.stringify` of the request and `response.json()` are not modelled. The transport is an abstract total function from a request (model, key, prompt) to a reply, and the parsed body is a datatype.
- `Date.now()`, `toLocaleDateString()`, `window.location.href`, `document.title`, `window.getSelection()` and `new URL(...).hostname` are foreign calls. Their results are parameters of the methods.
- `alert`, `console.log` and `console.error` are output only.
- Popup.SummaryCard.constructor: `box` holds the markup written through `innerHTML`, and the stored summary in it is not escaped. The browser's parsing of that markup is not modelled, so the model does not say what a reloaded card displays for a summary containing markup. `StoredSummaryMarkupUnescaped` only shows that such characters reach the markup. After `summarizeHighlight`, by contrast, the box holds plain text.
- Popup.SummarizeHighlight: does not show that the button is disabled while the requests are in flight, because the transport is a function with no intermediate state to observe. The model only states the final re-enabled state.
- Enrichment.Classify: does not model non-numeric error codes (`"429"` as a string does not equal 429 in the source either), non-string messages or non-string candidate texts. JSON values of other types than those in the datatypes are out of scope.
- HtmlEscape.EscapeHtml: the source works on UTF-16 code units and the model on Unicode scalar values. The five replaced characters are ASCII, so the replacement itself is unaffected.
- A fresh `summarizeHighlight` on the same id while one is in flight is not modelled. Only the button's `disabled` flag prevents it, and that is concurrency.
