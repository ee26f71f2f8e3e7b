# RAG chat assistant: a Dafny model of its core

The application is a browser chat over a hosted language model. Users upload
documents, and the text of every ready document is pasted into the prompt,
split into numbered pages. The model is asked to cite its sources with
`[Source: name, Page: n]` markers, and the chat view highlights those markers.
A client-side token counter refuses new requests once the monthly budget is
used up.

This project models three pieces of that core and proves properties about them:

- **Prompt context and streaming** (`gemini_service.dfy`, module `GeminiService`)
  - the token estimate, `ceil(length / 4)`;
  - the pager, which cuts content into 2000-unit pages labelled `[Page n]`;
  - the context string: one `--- DOCUMENT START/END: name ---` block per
    ready document, blocks joined by a blank line;
  - the request sent to the model (system instruction, history, prompt);
  - the loop that adds up streamed chunk texts and reports each running
    total.
- **The application store** (`app_context.dfy`, class `AppContext.AppStore`)
  - four fields: `documents`, `messages`, `usage`, `user`;
  - one method per handler;
  - each method changes only its own field, and its postcondition states the
    new value in terms of the old one.
- **The chat page** (`chat_page.dfy`, module `ChatPage`)
  - `renderContent`: the split on `/(\[Source: [^\]]+\])/g` and the
    citation classification and label;
  - `handleSend`, as class `ChatView`: a guard, then a budget gate, then the
    request charge, the stream, and the error overwrite.

Supporting modules:

- `types.dfy`: the record shapes.
- `strings.dfy`: the JavaScript string built-ins the core calls: `join`,
  `substring`, `startsWith`, `endsWith`, `indexOf`, string-pattern `replace`,
  `trim` emptiness, and number-to-decimal.
- `collections.dfy`: `Array.prototype.filter`.

Behaviour the code has and the model keeps:

- A rejected send (over budget) keeps the input text.
- After a successful stream, the second usage charge is the token estimate of
  the last message in the message list captured *before* the send. The model
  reply is not what gets charged. The source itself says this snapshot may be
  stale.
- If the stream fails, the request charge is not reversed.
- `updateLastMessage` sets `isStreaming` to true whenever it overwrites the
  last (model) message. No handler ever sets it back to false, so a finished
  reply still has it set.
- A part is shown as a citation chip when it starts with `[Source:` and ends
  with `]`, checked on the part itself. A plain part such as `[Source:x]`
  (no space) therefore also becomes a chip, labelled `[Source:x`
  (`LookalikeShownAsCitation`).
- A document id that occurs twice (ids are random) is settled and deleted at
  every occurrence.

What the code does not do: citations are not deduplicated, numbered or
resolved to documents, `Page:` hints are not parsed, and there is one flat
message list.

## Model

| member | source | states |
|---|---|---|
| GeminiService.EstimateTokens | services/geminiService.ts:8-10 | the estimate is `ceil(|text| / 4)`, pinned down as the `r` with `|text| <= 4r < |text| + 4` |
| GeminiService.EstimateTokensEmpty | services/geminiService.ts:8-10 | the empty text costs 0 tokens |
| GeminiService.EstimateTokensMonotone | services/geminiService.ts:8-10 | a longer text never costs fewer tokens |
| GeminiService.PageCount | services/geminiService.ts:27 | the number of loop turns is `ceil(length / 2000)`: the `n` with `(n-1)*2000 < length <= n*2000` |
| GeminiService.Paginate | services/geminiService.ts:27-31 | the page list has `ceil(|content| / 2000)` entries, so empty content has none |
| GeminiService.PageSizes | services/geminiService.ts:27-29 | every page holds between 1 and 2000 characters |
| GeminiService.PaginateLossless | services/geminiService.ts:27-31 | the pages joined in order give back the content exactly |
| GeminiService.PaginateAt | services/geminiService.ts:27-29 | page k (from 0) is `content[k*2000 .. min((k+1)*2000, |content|))` |
| GeminiService.BuildPages | services/geminiService.ts:26-31 | the page loop yields `ceil(|content|/2000)` strings; string k is `[Page k+1]` plus a newline plus the k-th slice, so the pages are numbered 1..n with no gaps |
| Strings.Substring | services/geminiService.ts:29 | within bounds the result is the slice; bounds past the end stop at the end; reversed bounds give the slice between them |
| Strings.SubstringClampsAndSwaps | services/geminiService.ts:29 | out-of-range bounds act as the nearest end, and swapping the two bounds gives the same result |
| GeminiService.PageTextsDistinct | services/geminiService.ts:28-30 | two different page numbers give different page texts, whatever their chunks |
| GeminiService.PageStringsDistinct | services/geminiService.ts:26-31 | no two pages of one document have the same labelled text |
| Strings.DecimalRoundTrip | services/geminiService.ts:28-30 | the printed page number reads back as that number, so page labels name their page |
| Collections.Filter | services/geminiService.ts:23 | `filter` keeps exactly the elements that pass the test |
| Collections.FilterAppend | services/geminiService.ts:23 | `filter` keeps relative order (it distributes over concatenation) |
| GeminiService.DocumentBlock | services/geminiService.ts:32 | a block starts with `--- DOCUMENT START: name ---\n`, ends with `\n--- DOCUMENT END: name ---`, and between them holds the labelled pages joined by `\n\n` |
| GeminiService.ContextString | services/geminiService.ts:22-34 | the context string is empty exactly when no document is `ready` |
| GeminiService.InstructionFrame | services/geminiService.ts:36-50 | the instruction is the fixed preamble, then exactly the context string, then the closing newline and indent |
| GeminiService.ContextIgnoresUnready | services/geminiService.ts:22-34 | a document that is not `ready` adds nothing to the context string |
| GeminiService.ContextAppendReady | services/geminiService.ts:22-34 | a ready document adds its block last, after a `\n\n` separator when a block comes before it; blocks follow document order |
| GeminiService.ContextEmptyWithoutReady | services/geminiService.ts:22-34 | with no ready document the context string is empty |
| GeminiService.EmptyDocumentBlock | services/geminiService.ts:30-32 | a ready empty document contributes only its START and END delimiters |
| GeminiService.SinglePageBlock | services/geminiService.ts:30-32 | content of at most 2000 units becomes `--- DOCUMENT START: n ---\n[Page 1]\n<content>\n--- DOCUMENT END: n ---` |
| GeminiService.Delivered | services/geminiService.ts:69 | every kept text is non-empty and is the `text` of some chunk; every chunk whose `text` is present and non-empty is kept |
| GeminiService.EmissionsGrow | services/geminiService.ts:67-73 | each `onChunk` argument is a strictly longer extension of the one before |
| GeminiService.LastEmissionIsFullText | services/geminiService.ts:67-74 | the last `onChunk` argument is the text that is returned |
| GeminiService.ConsumeStream | services/geminiService.ts:67-74 | the loop reports, in order, the running total after each kept chunk and ends with their concatenation (`""` when none was kept) |
| GeminiService.StreamGeminiResponse | services/geminiService.ts:12-79 | the call sends the system instruction with page-labelled context, the history and the prompt; it reports the running totals of the model's stream, then returns the full text or rethrows |
| AppContext.Charge | contexts/AppContext.tsx:119-126 | the same delta is added to daily, monthly and yearly; the budget is kept |
| AppContext.ChargeKeepsGaps | contexts/AppContext.tsx:119-126 | the differences between the three counters never change |
| AppContext.ChargeTwice | contexts/AppContext.tsx:119-126 | two charges equal one charge of their sum |
| AppContext.GateTracksBudget | contexts/AppContext.tsx:128-130 | after `setBudget(limit)` the send gate (pages/ChatPage.tsx:92) is closed exactly when `limit <= monthly` |
| AppContext.ChargeKeepsGateClosed | contexts/AppContext.tsx:119-126 | once the gate is closed, charging tokens never reopens it |
| AppContext.WithBudget | contexts/AppContext.tsx:128-130 | only the budget changes, to the given limit |
| AppContext.LowBudgetTripsGate | contexts/AppContext.tsx:128-130 | nothing stops a budget at or below current usage, and such a budget closes the send gate at once |
| AppContext.NewDocument | contexts/AppContext.tsx:67-75 | the optimistic entry is `processing` with empty content |
| AppContext.Settle | contexts/AppContext.tsx:81-83 | a successful read gives `ready` with the text; a failed read gives `error` and keeps the content; id, name, type, size and date are kept |
| AppContext.MarkRead | contexts/AppContext.tsx:81-83 | the length is kept; every document with the id is settled and every other document is kept; no document with the id is left `processing` |
| AppContext.UploadLifecycle | contexts/AppContext.tsx:63-86 | with a new id, the two upload steps leave earlier documents untouched and settle only the new entry, at the end |
| AppContext.MarkReadAbsent | contexts/AppContext.tsx:81-83 | a read finishing after its document was deleted changes nothing |
| AppContext.MarkReadKeepsOrder | contexts/AppContext.tsx:81-83 | settling keeps the length, order, ids and names, and every document with another id |
| AppContext.WithoutId | contexts/AppContext.tsx:89 | the list gets shorter exactly when some document has the id |
| AppContext.DeleteRemovesOnlyId | contexts/AppContext.tsx:88-90 | after deletion no document has the id; every document with another id remains; nothing new appears |
| AppContext.DeleteKeepsOrder | contexts/AppContext.tsx:88-90 | the remaining documents keep their original order |
| AppContext.DeleteAbsent | contexts/AppContext.tsx:88-90 | deleting an id that is not present changes nothing |
| AppContext.DeleteIdempotent | contexts/AppContext.tsx:88-90 | deleting twice is the same as deleting once |
| AppContext.NewMessage | contexts/AppContext.tsx:93-99 | the new message has the given role and text, and `isStreaming` is set to `role == model` |
| AppContext.WithLastText | contexts/AppContext.tsx:103-113 | the length and every message but the last are kept; a last model message gets the new text and `isStreaming = true`; otherwise nothing changes |
| AppContext.OverwriteTwice | contexts/AppContext.tsx:103-113 | the text is replaced, not appended: two updates equal the later one |
| AppContext.MergeProfile | contexts/AppContext.tsx:132-134 | each field present in the patch is overwritten; each absent field is kept |
| AppContext.MergeIdempotent | contexts/AppContext.tsx:132-134 | applying the same patch again changes nothing |
| AppContext.MergeEmpty | contexts/AppContext.tsx:132-134 | the empty patch leaves the profile as it is |
| AppContext.AppStore.constructor | contexts/AppContext.tsx:18-43 | the store starts with no documents, only the welcome message, usage 1250/45000/540000 against a budget of 1000000, and the default profile |
| AppContext.AppStore.BeginAddDocument | contexts/AppContext.tsx:63-77 | appends the processing entry; no other field changes |
| AppContext.AppStore.FinishAddDocument | contexts/AppContext.tsx:79-85 | settles every document with the id according to the read; no other field changes |
| AppContext.AppStore.AddDocument | contexts/AppContext.tsx:63-86 | both steps: with a new id the list gains exactly the settled entry at the end |
| AppContext.AppStore.DeleteDocument | contexts/AppContext.tsx:88-90 | documents become the filtered list; no other field changes |
| AppContext.AppStore.AddMessage | contexts/AppContext.tsx:92-101 | exactly one message is appended and earlier ones are kept; no other field changes |
| AppContext.AppStore.UpdateLastMessage | contexts/AppContext.tsx:103-113 | messages become `WithLastText` of the old list; no other field changes |
| AppContext.AppStore.ClearChat | contexts/AppContext.tsx:115-117 | messages become empty; no other field changes |
| AppContext.AppStore.UpdateUsage | contexts/AppContext.tsx:119-126 | usage becomes `Charge(old usage, tokens)`; no other field changes |
| AppContext.AppStore.SetBudget | contexts/AppContext.tsx:128-130 | usage becomes `WithBudget(old usage, limit)`; no other field changes |
| AppContext.AppStore.UpdateUserProfile | contexts/AppContext.tsx:132-134 | the profile becomes the merge with the patch; no other field changes |
| ChatPage.Payload | pages/ChatPage.tsx:14 | a marker is `"[Source: " + p + "]"` with `p` non-empty and free of `]` |
| ChatPage.MarkerEnd | pages/ChatPage.tsx:14 | a match attempted at a position covers a whole marker |
| ChatPage.MarkerEndExact | pages/ChatPage.tsx:14 | every marker starting at a position is the match found there, so a match ends at the first `]` after the opening |
| ChatPage.FindMarker | pages/ChatPage.tsx:14 | the match found is the leftmost one: none starts between the search point and it |
| ChatPage.SplitFrom | pages/ChatPage.tsx:14 | the split parts, joined in order, give back the text |
| ChatPage.SplitFromOdd | pages/ChatPage.tsx:14 | the split has an odd number of parts: text, marker, text, ..., text |
| ChatPage.SplitFromShape | pages/ChatPage.tsx:14 | odd-position parts are markers and even-position parts contain none |
| ChatPage.SplitFromLeftmost | pages/ChatPage.tsx:14 | no match starts at any position of a plain part, so each marker taken is the leftmost one after the previous match |
| ChatPage.SplitShape | pages/ChatPage.tsx:14 | the split of a whole text is lossless, has odd length, has the markers exactly at odd positions, has marker-free text parts, and has no match starting inside a text part |
| ChatPage.NoOpeningOnePart | pages/ChatPage.tsx:14 | a text with no `[Source: ` opening splits into itself alone |
| ChatPage.MarkerLabel | pages/ChatPage.tsx:16-20 | every marker is classified as a citation, and its label is exactly its payload |
| ChatPage.RenderedCitations | pages/ChatPage.tsx:12-26 | one piece per part; a part that passes the `[Source:`/`]` test becomes a chip labelled by the two `replace` calls, and a part that fails it is passed on as markdown; every marker becomes a chip labelled with its payload |
| ChatPage.RenderMessage | pages/ChatPage.tsx:43-49 | a user message is one plain paragraph of its text, markers included; a model message is `renderContent` of its text and never a plain paragraph; neither is empty |
| ChatPage.LookalikeShownAsCitation | pages/ChatPage.tsx:16-20 | `[Source:x]` does not match the regex, yet it is shown as a chip labelled `[Source:x` |
| Strings.ReplaceFirstAbsent | pages/ChatPage.tsx:20 | with no occurrence of the pattern the text is unchanged |
| Strings.ReplaceFirstAt | pages/ChatPage.tsx:20 | only the first occurrence is replaced; text before it and after it, later occurrences included, is kept |
| Strings.TrimEmptyIffBlank | pages/ChatPage.tsx:90 | `!input.trim()` holds exactly when every character is JavaScript white space or a line terminator, the set `IsJsWhitespace` lists |
| ChatPage.AfterResponse | pages/ChatPage.tsx:120-124 | the second charge is the estimate of the pre-send list's last message, added to all three counters (nothing when the list was empty); the budget is kept |
| ChatPage.OverwritePlaceholder | pages/ChatPage.tsx:101-102 | overwriting after the placeholder changes only the placeholder |
| ChatPage.ChatView.constructor | pages/ChatPage.tsx:67-68 | the page starts with empty input and is not generating |
| ChatPage.ChatView.BeginSend | pages/ChatPage.tsx:89-107 | a blank input or busy page is a no-op; `monthly >= budget` rejects with no change, input kept; otherwise the input is cleared, user message and empty model placeholder are appended, the page is busy, and `estimateTokens(input)` is charged |
| ChatPage.ChatView.ShowRunningTotals | pages/ChatPage.tsx:114-117 | the `onChunk` overwrites leave the last model message holding the last running total |
| ChatPage.ChatView.FinishSend | pages/ChatPage.tsx:109-130 | success: the streamed text is shown and the last pre-send message's estimate is charged; failure: the last model message shows the fixed error text and usage is not rolled back; the page is idle after both |
| ChatPage.ChatView.HandleSend | pages/ChatPage.tsx:89-131 | a send is accepted exactly when the input is not blank, the page is idle and `monthly < budget`; an accepted send ends idle with input cleared, user message plus a placeholder holding the reply or error text, and the two charges |

## Left out

- The hosted model SDK (`GoogleGenAI`, `chats.create`, `sendMessageStream`) is a foreign network API. The model is a function parameter from the request to what it streams. That result lists the `text` of each chunk delivered and says whether the call then throws. The model id and the temperature go only to that API and are not modelled.
- `console.error` logging is not modelled.
- `readFileContent` (`FileReader`) is browser I/O. A read is a parameter: success with text, or failure.
- The `localStorage` load and save effects (contexts/AppContext.tsx:45-61) are browser persistence and are not modelled.
- `Math.random` ids, `Date.now` and `toISOString` are nondeterministic. Handlers take them as parameters.
- JavaScript strings are UTF-16 and `length` and `substring` count code units. A Dafny `char` is a Unicode scalar value, so for text outside the Basic Multilingual Plane the model counts one where the source counts two: token estimates, page counts and page slices then differ from the source (1500 emoji are 3000 units, two pages in the source and one in the model). Lone surrogates, which `substring(i, i + 2000)` can leave at a page boundary, cannot be represented.
- JavaScript numbers are doubles. Counters, sizes and budgets are unbounded integers, exact where the source's values stay below 2^53. A `NaN` budget and a fractional budget such as `1.5`, both of which `Number(...)` on the usage page's number input can produce, are not modelled.
- `alert`, scrolling, textarea resizing, the key handler, the quick-upload toggle and the JSX/markdown rendering are UI. The model keeps the split and classification of `renderContent` and the choice between it and a plain paragraph (`RenderMessage`).
- Async interleaving and React state batching are not modelled. Every handler is one atomic step, and `HandleSend` runs `BeginSend` and `FinishSend` with no other handler in between. The `onChunk` overwrites are applied in order after the stream loop (`ShowRunningTotals`). That gives the same state as running them inside the loop, because nothing else runs in between.
- `updateLastMessage` mutates the last message object in place, and that object is shared with earlier state arrays. The model works on values, so this aliasing is not modelled. In the shown code the object updated is always the fresh placeholder, never one in the `messages` snapshot that `handleSend` captured.
- `Message.citations` and the store's `conversations` and `activeConversationId` (types.ts:17, 44-45) are declared but no handler of the core reads or writes them. They are not modelled, and neither is the unused `Conversation` type.
- `useApp`'s error when used outside the provider is React plumbing.
- pages/UsagePage.tsx and components/Layout.tsx use floating-point display percentages. pages/KnowledgePage.tsx uses a Unicode `toLowerCase` filter. pages/SettingsPage.tsx, components/FileUpload.tsx and App.tsx are forms and routing. None of these files is part of this model.
