# Portfolio site core, modelled in Dafny

This project models the decision logic of a personal portfolio web site: the
chat back end that retrieves facts from a small knowledge base and asks a
language model with bounded retries, the front-end canned-reply chatbot, the
admin blog editor and blog list, the admin freelance-updates form, and the
floating navigation bar's active-section tracking. Everything around that
logic (file reading, the language-model SDK, the hosted database, toasts,
timers, the clock and the DOM) is turned into parameters.

One module per source file, plus a shared text module:

| file | module | models |
|---|---|---|
| `text.dfy` | `Text` | `Option`, ASCII lower-casing, `includes`, `split`/`join`, `trim`, `split(/\s+/).filter(Boolean)` |
| `retriever.dfy` | `Retriever` | `retriever.ts`: keyword intents, substring fallback deduplicated by id, entry formatting |
| `chat.dfy` | `Chat` | `api/chat.ts`: validation, prompt template, the retry/backoff loop, the response |
| `chatbot.dfy` | `Chatbot` | `AIChatbot.tsx`: the canned-reply rule chain and the message list |
| `blog_editor.dfy` | `BlogEditor` | `BlogEditor.tsx`: read time, tag parsing, loading and saving a post |
| `blog_manager.dfy` | `BlogManager` | `BlogManager.tsx`: status toggle, delete confirmation, which editor is open |
| `freelance.dfy` | `FreelanceUpdates` | `FreelanceUpdatesManager.tsx`: form state, submit, status toggle, `parseInt(value) \|\| 1` |
| `floating_nav.dfy` | `FloatingNav` | `FloatingNav.tsx`: the downward scan for the active section |

Code that computes a value is modelled as functions with lemmas. Code that
steps state is modelled as methods. The components' `useState` fields become
classes whose methods state their new state. The loops (the retry loop, the
fallback `filter`, the `forEach` and `for` over skills, the nav scan) become
`while`/`for` loops. Each of them is proved equal to a specification function,
and the properties are proved about that function.

The language-model provider is a function from attempt number to outcome, a
reply or a failure with an optional status. `Math.random` is a jitter function
from attempt number to a real. A run of the handler is therefore determined by
its inputs.

Where the code's behaviour differs from what its comments, names or UI text
suggest, the model follows the code:
- **Intent check direction.** The intent check passes the probe phrase as the
  text and the visitor's query as the keyword source. An intent therefore fires
  when a word of the query occurs inside the probe phrase, not the other way
  round. `Retriever.QueryIFiresProjects` and `Retriever.QueryAFiresWork` show the
  consequence.
- **Fallback search fields.** The fallback search reads only the four named
  skill lists, not every category of the skills object.
- **Empty labels.** An empty technologies or tech-stack array still gets its
  label line; only falsy strings are omitted.
- **Empty context.** The prompt contains the blank line and the context slot even
  when the context is empty.
- **Five overloads.** Five 503 responses in a row end in the "Failed to get a
  response from the AI." 500, because the fifth 503 takes the non-retry branch.
  They do not end in the "overloaded" message.
- **Successful answer.** A successful answer is not returned with 200; see
  Findings.

## Model

| member | source | states |
|---|---|---|
| Text.TrimEmptyIffBlank | src/components/AIChatbot.tsx:69 | `!s.trim()` holds exactly when the string is empty or all whitespace |
| Text.TrimShape | src/components/admin/BlogEditor.tsx:104 | `trim` leaves no whitespace at either end and returns a contiguous slice of its input |
| Text.TrimRemovesOnlyBlank | src/components/admin/BlogEditor.tsx:104 | everything `trim` drops, before and after the slice it keeps, is whitespace |
| Text.WordsShape | retriever.ts:33 | every token of `split(/\s+/).filter(Boolean)` is non-empty, holds no whitespace and occurs in the query |
| Text.WordsEmptyIffBlank | retriever.ts:33 | a query has no tokens exactly when it is empty or all whitespace |
| Text.JoinSplit | src/components/admin/BlogEditor.tsx:102-103 | joining the pieces of `split(c)` with `c` gives the string back |
| Text.SplitJoin | src/components/admin/BlogEditor.tsx:102-103 | splitting a `c`-join of `c`-free pieces gives the pieces back |
| Text.SplitConcatSep | src/components/admin/BlogEditor.tsx:102-103 | splitting `a + c + b` at the separator `c` gives the pieces of `a` followed by the pieces of `b` |
| Retriever.AnyWordIn | retriever.ts:36 | the `some` is true exactly when some keyword occurs in the text |
| Retriever.ContainsKeywordsIff | retriever.ts:32-37 | `containsKeywords` holds exactly when a non-empty, whitespace-free token of the lowercased query occurs in the lowercased text |
| Retriever.BlankQueryHasNoKeywords | retriever.ts:32-37 | an empty or all-whitespace query matches no text |
| Retriever.ClassifyPriority | retriever.ts:72-81 | each intent is chosen exactly when a query token occurs in its probe phrase and in no earlier probe phrase; the fallback runs exactly when none does |
| Retriever.QueryIFiresProjects | retriever.ts:72-73 | the query "i" selects the project entries, since "i" occurs inside "portfolio" |
| Retriever.QueryAFiresWork | retriever.ts:74-75 | the query "a" misses "projects portfolio" but occurs in "career", so it selects the work entries |
| Retriever.FilterPrefix | retriever.ts:73 | an entry is kept exactly when it is in the knowledge base and its id starts with the prefix |
| Retriever.FilterPrefixConcat | retriever.ts:73-75 | the prefix filter keeps knowledge-base order (it distributes over concatenation) |
| Retriever.FirstIndexOf | retriever.ts:77 | `find` locates the first entry with the id, or reports that no entry has it |
| Retriever.SkillsSelectionIsFirstOverview | retriever.ts:76-80 | the skills intent selects at most one entry: the first with the overview id, or none when it is absent |
| Retriever.MatchedIdsStep | retriever.ts:99-100 | scanning one more entry adds its id to `foundItems` exactly when it matches; it is kept exactly when it matches and its id is new |
| Retriever.FallbackStep | retriever.ts:99-103 | one pass of the `filter` callback updates `foundItems` and the kept list exactly as the specification of the fallback does |
| Retriever.SearchSelectionMatches | retriever.ts:84-104 | every entry the fallback keeps is a knowledge-base entry whose searchable text contains the query |
| Retriever.SearchSelectionIds | retriever.ts:83-104 | the ids kept are exactly the ids of the matching entries |
| Retriever.SearchSelectionDistinct | retriever.ts:83-104 | no id is kept twice |
| Retriever.BlankQuerySearches | retriever.ts:72-82 | an empty or all-whitespace query fires none of the three intents, so the selection is the fallback search over the lowercased query |
| Retriever.EmptyQuerySelectsEveryId | retriever.ts:99 | the empty query fires no intent and its fallback keeps an entry for every id in the knowledge base |
| Retriever.EntryTextFrame | retriever.ts:42-65 | a formatted entry starts with `--- title ---` and a newline, and ends with a newline |
| Retriever.EntryTextTruthiness | retriever.ts:45-53 | an empty summary gives the same text as an absent one, while an empty technologies array puts the line `Technologies: ` between the description and the tech-stack lines, where an absent one puts nothing |
| Retriever.ContextEmptyIffNoSelection | retriever.ts:107-117 | the context is empty exactly when nothing is selected, and otherwise starts with the header |
| Retriever.AppendFieldLines | retriever.ts:43-56 | the `+=` sequence builds the title marker and the truthy field lines in order |
| Retriever.AppendSkillLines | retriever.ts:57-61 | the loop over the skills object appends one `  - key: values` line per category, in order |
| Retriever.FormatEntry | retriever.ts:42-65 | `formatEntry` returns the entry text the lemmas above describe |
| Retriever.SearchFallback | retriever.ts:82-104 | the `filter` with its `foundItems` set returns the fallback selection, first entry of each matching id in order |
| Retriever.SelectEntries | retriever.ts:68-105 | the intent chain returns the selection of the first intent that fires, or the fallback's |
| Retriever.RenderContext | retriever.ts:107-117 | empty for no entries, otherwise the header followed by every formatted entry in order |
| Retriever.RetrieveRelevantContext | retriever.ts:67-118 | the result is the rendered context of the selection |
| Chat.CombinedPromptParts | api/chat.ts:38 | the prompt is the system prompt, a blank line, the context (possibly empty) at a fixed offset, then the question marker and the message |
| Chat.BaseDelayValues | api/chat.ts:66 | the base waits are 1000, 2000, 4000 and 8000 ms, each double the one before |
| Chat.Delays | api/chat.ts:64-67 | the k-th recorded wait is the base wait of attempt k plus that attempt's jitter |
| Chat.RunSpec | api/chat.ts:28-77 | the loop never ends by its guard; it makes one to five calls; every call but the last got 503; it ends with the last call's reply, or with a failure that is not 503 or came on the fifth call |
| Chat.RunDetermined | api/chat.ts:32-76 | conversely, 503s followed by a reply or a final failure determine how the loop ends and how many calls it makes |
| Chat.FourOverloadsThenReply | api/chat.ts:50-68 | four 503s then a reply end the loop with that reply after exactly five calls |
| Chat.AlwaysOverloaded | api/chat.ts:50-75 | five 503s end the loop as a failure after exactly five calls |
| Chat.ImmediateFailure | api/chat.ts:69-75 | a first failure that is not 503 ends the loop after one call |
| Chat.AsWrittenNeverSucceeds | api/chat.ts:79-87 | as written, every response is 405, 400 or 500, and a string message whose call succeeds ends in the "overloaded" 500 |
| Chat.NonStringMessage | api/chat.ts:22-75 | a truthy non-string `message` passes validation, then the first pass's retrieval throws an error without a status: the "Failed to get a response" 500 with no provider call; a falsy one is the 400 |
| Chat.SuccessReportedAsOverload | api/chat.ts:30-87 | a valid request whose first call replies gets the "overloaded" 500 as written, and 200 with the reply as intended |
| Chat.IntendedOutcomes | api/chat.ts:18-87 | the corrected handler answers 200 exactly for a valid request with a string message whose loop breaks with a reply, and the body is that reply; otherwise 405, 400 or 500 as the source maps them |
| Chat.BuildPrompt | api/chat.ts:35-38 | one pass retrieves the context and fills the template |
| Chat.RetryLoop | api/chat.ts:28-77 | the loop's exit and call count are those of the run; every call sends the same prompt; one wait, of the specified length, is recorded before each retry |
| Chat.Handle | api/chat.ts:14-88 | the handler as written returns the as-written response; for a string message it sends the same combined prompt once per call of the run and records one wait, of the specified length, before each retry; a rejected request or a non-string message calls nothing and waits for nothing |
| Chat.HandleIntended | api/chat.ts:14-88 | the same handler with the answer returned gives the intended response, with the same calls and waits |
| Chatbot.FirstMatch | src/components/AIChatbot.tsx:41-65 | the reply of the first rule with a keyword in the message, and the default reply when none has |
| Chatbot.RulesHit | src/components/AIChatbot.tsx:41-63 | each rule of the table hits exactly when one of the source's `includes` tests does |
| Chatbot.SelectReplyIsFirstMatch | src/components/AIChatbot.tsx:38-66 | the if-chain is the rule table read first-match-wins on the lowercased message |
| Chatbot.CaseInsensitive | src/components/AIChatbot.tsx:39 | upper and lower case select the same reply |
| Chatbot.ThisIsGreeted | src/components/AIChatbot.tsx:61 | "this" gets the greeting reply, because matching is by substring and it contains "hi" |
| Chatbot.NetworkGetsProjects | src/components/AIChatbot.tsx:45 | "network" gets the projects reply, because it contains "work" |
| Chatbot.ChatWidget.constructor | src/components/AIChatbot.tsx:17-26 | the list starts with exactly the bot greeting, the input empty and no typing |
| Chatbot.ChatWidget.SetInput | src/components/AIChatbot.tsx:223 | the input box's change handler sets the input and nothing else |
| Chatbot.ChatWidget.SendMessage | src/components/AIChatbot.tsx:68-81 | blank input changes nothing; otherwise the untrimmed input is appended as a visitor message, the input cleared, typing raised and a reply scheduled; the widget invariant is kept |
| Chatbot.ChatWidget.DeliverReply | src/components/AIChatbot.tsx:83-93 | the callback appends the canned reply to the input captured at send time and lowers typing; every bot message after the greeting is a canned reply |
| BlogEditor.WordCountIsSpacesPlusOne | src/components/admin/BlogEditor.tsx:85 | `split(' ').length` is one more than the number of spaces |
| BlogEditor.MinutesFor | src/components/admin/BlogEditor.tsx:84-86 | the least whole number of minutes, at least one, whose 200 words each cover the count |
| BlogEditor.MinutesMonotone | src/components/admin/BlogEditor.tsx:84-86 | more words never give fewer minutes |
| BlogEditor.MinutesBoundary | src/components/admin/BlogEditor.tsx:84-86 | 200 pieces take one minute and 201 take two |
| BlogEditor.ReadTimeSpec | src/components/admin/BlogEditor.tsx:83-87 | the read time is at least one and exactly covers the space-separated pieces of the content |
| BlogEditor.ParsedTagsAreTags | src/components/admin/BlogEditor.tsx:102-105 | every parsed tag is non-empty, has no surrounding whitespace and holds no comma |
| BlogEditor.ParseTagsConcat | src/components/admin/BlogEditor.tsx:102-105 | the tags of `a + "," + b` are the tags of `a` followed by the tags of `b`, in order |
| BlogEditor.ParseTagsPiece | src/components/admin/BlogEditor.tsx:102-105 | comma-free text gives exactly one tag, itself trimmed, unless it trims to empty, when it gives none |
| BlogEditor.ParseTagsStep | src/components/admin/BlogEditor.tsx:102-105 | the tags of a text are its first comma-free piece, trimmed and kept only if non-empty, followed by the tags of the rest |
| BlogEditor.TagsRoundTrip | src/components/admin/BlogEditor.tsx:102-105 | parsing the `", "`-join the form is loaded with gives back the stored tags, in order |
| BlogEditor.ImageRoundTrip | src/components/admin/BlogEditor.tsx:113 | an image survives loading and saving when truthy; an empty one is stored as null |
| BlogEditor.SaveValidation | src/components/admin/BlogEditor.tsx:90-146 | a save is rejected exactly when title, excerpt or content is blank; otherwise it updates the edited post by its id, or inserts |
| BlogEditor.SaveRecomputesReadTime | src/components/admin/BlogEditor.tsx:107-116 | the form's read time (the loaded post's, or the default 5) is ignored; the stored one is computed and at least one |
| BlogEditor.PublishedAtSetOnce | src/components/admin/BlogEditor.tsx:118-120 | `published_at` is sent exactly when publishing a post without one, so an existing one is never overwritten |
| BlogEditor.LoadThenSave | src/components/admin/BlogEditor.tsx:48-121 | opening a post and saving it unedited writes back its fields and publication time, with the read time recomputed and an empty image nulled |
| BlogEditor.Editor.constructor | src/components/admin/BlogEditor.tsx:35-60 | the form starts empty, or holds the edited post's fields |
| BlogEditor.Editor.InputChange | src/components/admin/BlogEditor.tsx:62-67 | the named text field takes the value; nothing else changes |
| BlogEditor.Editor.ContentChange | src/components/admin/BlogEditor.tsx:69-74 | the content takes the value; nothing else changes |
| BlogEditor.Editor.StatusChange | src/components/admin/BlogEditor.tsx:76-81 | the status takes the value; nothing else changes |
| BlogEditor.Editor.Save | src/components/admin/BlogEditor.tsx:89-158 | the request sent is the save request of the form; loading is lowered after any call; the editor closes only after a successful call |
| BlogManager.ToggledStatus | src/components/admin/BlogManager.tsx:87 | the toggle always changes the status |
| BlogManager.ToggleInvolution | src/components/admin/BlogManager.tsx:87 | toggling twice gives the status back |
| BlogManager.ToggleStamp | src/components/admin/BlogManager.tsx:86-92 | the toggle stamps `published_at` exactly when publishing a draft without one, by the same rule as the editor's save |
| BlogManager.ToggleOnlyStatus | src/components/admin/BlogManager.tsx:88-92 | unpublishing, or republishing a stamped post, changes the status and nothing else |
| BlogManager.ToggleTwice | src/components/admin/BlogManager.tsx:86-92 | two toggles restore the status; a stamped post comes back unchanged, and a draft ends stamped |
| BlogManager.DeleteRequest | src/components/admin/BlogManager.tsx:59-66 | the delete by id is issued exactly when the confirmation returns true |
| BlogManager.Manager.constructor | src/components/admin/BlogManager.tsx:28-29 | the editor starts closed, holding no post |
| BlogManager.Manager.Edit | src/components/admin/BlogManager.tsx:118-121 | the editor opens on the given post |
| BlogManager.Manager.CreateNew | src/components/admin/BlogManager.tsx:123-126 | the editor opens on a new post |
| BlogManager.Manager.EditorClose | src/components/admin/BlogManager.tsx:128-132 | the editor closes and forgets its post |
| BlogManager.Manager.ShownEditor | src/components/admin/BlogManager.tsx:134-140 | the page shows the editor exactly while it is open, on the post being edited |
| FreelanceUpdates.LeadingDigits | src/components/admin/FreelanceUpdatesManager.tsx:293 | `parseInt` reads the longest prefix of digits of the base, and stops at the first non-digit |
| FreelanceUpdates.ParsePriority | src/components/admin/FreelanceUpdatesManager.tsx:293 | `parseInt(value) \|\| 1` is the parsed number when that is a non-zero number, and exactly 1 when it is NaN or zero, so never zero |
| FreelanceUpdates.PriorityOfDecimal | src/components/admin/FreelanceUpdatesManager.tsx:293 | a positive decimal numeral, followed by anything not starting with a digit, becomes that priority |
| FreelanceUpdates.NegativePriorityKept | src/components/admin/FreelanceUpdatesManager.tsx:290-293 | the input's minimum is not enforced: a typed negative number is kept |
| FreelanceUpdates.EmptyFallsBack | src/components/admin/FreelanceUpdatesManager.tsx:293 | an empty box gives priority 1 |
| FreelanceUpdates.ZeroFallsBack | src/components/admin/FreelanceUpdatesManager.tsx:293 | "0" gives priority 1 |
| FreelanceUpdates.NegativeZeroFallsBack | src/components/admin/FreelanceUpdatesManager.tsx:293 | "-0" is falsy too and gives priority 1 |
| FreelanceUpdates.NonNumericFallsBack | src/components/admin/FreelanceUpdatesManager.tsx:293 | text without leading digits is NaN and gives priority 1 |
| FreelanceUpdates.PriorityHex | src/components/admin/FreelanceUpdatesManager.tsx:293 | a `0x` numeral is read in base 16 |
| FreelanceUpdates.ToggledStatus | src/components/admin/FreelanceUpdatesManager.tsx:195 | the toggle always changes the status |
| FreelanceUpdates.ToggleInvolution | src/components/admin/FreelanceUpdatesManager.tsx:195 | toggling twice gives the status back |
| FreelanceUpdates.SubmitValidation | src/components/admin/FreelanceUpdatesManager.tsx:112-155 | a submit is refused exactly when title or description is blank; otherwise it updates the edited row by id, or inserts |
| FreelanceUpdates.SubmittedDataIsForm | src/components/admin/FreelanceUpdatesManager.tsx:123-130 | the data sent is exactly the five form fields: applied to a row and read back into a form, it gives the form |
| FreelanceUpdates.EditThenSubmit | src/components/admin/FreelanceUpdatesManager.tsx:95-136 | opening an update and submitting it unedited writes it back unchanged |
| FreelanceUpdates.UpdatesManager.constructor | src/components/admin/FreelanceUpdatesManager.tsx:44-52 | the form starts empty with priority 1, nothing edited, the dialog closed |
| FreelanceUpdates.UpdatesManager.ResetForm | src/components/admin/FreelanceUpdatesManager.tsx:84-93 | the empty form and nothing edited; the dialog as it was |
| FreelanceUpdates.UpdatesManager.Edit | src/components/admin/FreelanceUpdatesManager.tsx:95-105 | the form holds the update's fields and the dialog opens on it |
| FreelanceUpdates.UpdatesManager.Create | src/components/admin/FreelanceUpdatesManager.tsx:107-110 | reset, then the dialog opens |
| FreelanceUpdates.UpdatesManager.CloseDialog | src/components/admin/FreelanceUpdatesManager.tsx:317 | cancel closes the dialog and keeps the form |
| FreelanceUpdates.UpdatesManager.SetTitle | src/components/admin/FreelanceUpdatesManager.tsx:248 | the title takes the value; nothing else changes |
| FreelanceUpdates.UpdatesManager.SetDescription | src/components/admin/FreelanceUpdatesManager.tsx:258 | the description takes the value; nothing else changes |
| FreelanceUpdates.UpdatesManager.SetType | src/components/admin/FreelanceUpdatesManager.tsx:270 | the type takes the value; nothing else changes |
| FreelanceUpdates.UpdatesManager.SetStatus | src/components/admin/FreelanceUpdatesManager.tsx:303 | the status takes the value; nothing else changes |
| FreelanceUpdates.UpdatesManager.SetPriority | src/components/admin/FreelanceUpdatesManager.tsx:293 | the priority becomes `parseInt(value) \|\| 1`, never zero |
| FreelanceUpdates.UpdatesManager.Submit | src/components/admin/FreelanceUpdatesManager.tsx:112-167 | the request sent is the submit request of the form; only a successful call closes the dialog and resets the form |
| FloatingNav.LastReached | src/components/FloatingNav.tsx:52-58 | the greatest index whose section exists and starts at or above the threshold, or none |
| FloatingNav.ScrollMonotone | src/components/FloatingNav.tsx:50-57 | scrolling further down never moves the active item up the bar |
| FloatingNav.MissingSectionsSkipped | src/components/FloatingNav.tsx:54 | an item whose section is missing is never chosen |
| FloatingNav.Nav.constructor | src/components/FloatingNav.tsx:17 | the active section starts as "home" |
| FloatingNav.Nav.HandleScroll | src/components/FloatingNav.tsx:48-59 | the downward scan makes active the last item reached at `scrollY + 100`, keeps the old one when none is, and the active section stays a nav id |

## Left out

- Loading the knowledge base from `data/knowledge.json`: the entries are a parameter.
- The language-model SDK, the model name, the chat session and the API-key start-up check: the provider is a function from attempt number to outcome.
- Console logging, and the `setTimeout` waits themselves: the handler records each wait's length instead of sleeping.
- `Math.random`: the jitter is an input function, and its range `[0, 1000)` is not assumed.
- Chat.Request: a request without a body makes the destructuring of `req.body` throw before the loop; the framework's own error response for that is not modelled.
- Chat.Delay: the waits are real numbers, not IEEE doubles.
- Every database call: the model returns the request a save, submit or delete would send, and takes whether it succeeded as an input. Fetching, ordering and refetching lists are not modelled.
- Toasts, the `confirm` dialog and `useAuth`: the confirmation and the author id are inputs.
- The clock: `new Date().toISOString()` is an input string. Message ids and timestamps of the chatbot are not modelled.
- Text.Lower: ASCII letters only; JavaScript's full Unicode case mapping is not modelled.
- Text.IsSpace: the ASCII whitespace characters only; the Unicode spaces that JavaScript's `trim` and `\s` also accept are not modelled.
- FreelanceUpdates.ParseInt: numerals become unbounded integers, so the float rounding of very long numerals and an explicit radix are not modelled.
- The number input's `min`/`max` attributes: the code does not enforce them, and `FreelanceUpdates.NegativePriorityKept` shows that.
- The freelance manager's `handleDelete`: it is the blog list's confirm-then-delete, modelled once as `BlogManager.DeleteRequest`.
- The freelance manager's `handleStatusToggle` database write: only the new status (`FreelanceUpdates.ToggledStatus`) is modelled.
- The chatbot's `isOpen` flag, the Enter-key handler (it only calls the send handler) and scrolling into view.
- The blog editor's preview and rich-text editor, and all layout and animation.
- Retriever.SkillList: a list of categories may repeat a category, which a JavaScript object cannot, and JavaScript lists array-index keys such as `"1"` before the others; the model assumes distinct, non-index category names, and `Retriever.LookupSkill` takes the first match.
- FloatingNav.Nav.HandleScroll: the scroll listener's registration and removal are not modelled; `scrollY` and the section offsets are integers and the DOM lookups are a parameter.
- `api/chat.js` is not part of this model; it is an older single-call handler with no decision logic.

## Findings

| source | as written | input that shows it | evidently intended | confidence | as-written member | corrected member |
|---|---|---|---|---|---|---|
| api/chat.ts:30-87 | `const responseText` is declared again inside the `try`, so the successful call assigns the inner constant; after the loop the outer one is still `null` and the handler returns the 500 "overloaded" response | a POST with a non-empty message whose first provider call replies | return 200 with `{response}` holding the reply | not executed | Chat.SuccessReportedAsOverload | Chat.IntendedOutcomes |
