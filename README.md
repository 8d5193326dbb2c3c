# Advanced chatbot: client session, rendering and backend decisions

This project is a Dafny model of the logic inside a small browser chat
client and a Flask chat backend. The backend answers through Google
Gemini models.

The client is `src/frontend/script.js`. The model covers:

- the pending attachments and their count badge;
- the chat/search mode toggle and the input placeholder it drives;
- the typewriter that reveals bot text one character at a time;
- the formatter that turns an image-analysis reply into HTML;
- the messages and requests produced by a chat send, a web search and the Enter key.

The backend is `src/backend/chatbot.py`. The model covers:

- the per-address rate limiter in front of `/chat`;
- the routing of `generate_response`: greeting, vision model, direct REST call, chat-model fallback, and error classification;
- the text extraction of `direct_api_call`;
- the line filtering of `web_search`;
- the request guards of `/chat` and `/search`.

Modules, one per `.dfy` file:

- `Wrappers`: `Option` and `Result`.
- `Text`: the string operations the sources use. These are JavaScript `trim` and Python `strip` (as `Trim`), `split` and `join`, `startsWith`, `in` on strings, and `lower()`.
- `Rendering`: `typeWriter`, a method over a `TextElement` object; the image-analysis formatter; `Render`, which describes the block `addMessage` builds.
- `ClientSession`: the script's module-level state as the `Session` class, plus the functions that specify, call by call, the `addMessage` calls a send or a search makes.
- `RateLimiting`: `rate_limit_dict` as the `RateLimiter` class, a pure step function that specifies it, and lemmas over whole request sequences.
- `Chatbot`: the backend's routing, filtering and endpoints. The models and the HTTP call are passed in as functions.
- `EndToEnd`: lemmas that read a backend answer the way the client reads it.

How the outside world enters the model:

- The page's DOM is reduced to the fields the script writes: badge, placeholder, search-button state, input value, typing indicator.
- Each `addMessage` call is recorded, in call order, as a `MessageCall`.
- A `fetch` to `/chat` or `/search` is an input: it throws, or it answers with a status and maybe the field the client reads.
- `Math.random()` is a sequence of reals in [0, 1), one per typewriter step.
- `time.time()` is a `real` parameter.
- The Gemini vision model, the REST `generateContent` call and the chat session are total functions in `Models`. A raised exception is a `Failure` that carries its text.
- The backend's reply texts keep the exact characters found in `chatbot.py`. Its emoji were saved in a mis-decoded form (U+F8FF followed by Mac-Roman letters), and the model uses those code points as written.

## Model

| member | source | states |
|---|---|---|
| ClientSession.Session.constructor | src/frontend/script.js:11-13 | At page load: no attachments and no badge, chat mode, search button inactive, nothing sent and no message shown. |
| ClientSession.Session.UpdateAttachmentCount | src/frontend/script.js:15-29 | A badge exists exactly when the list is non-empty, and its number is the list length. |
| ClientSession.Session.HandleFileUpload | src/frontend/script.js:40-51 | A successful read appends exactly one `{name, type, data}` record at the end and keeps the earlier ones. The badge then shows the new length, and one user "Attached: name" file message is added. A failed read changes nothing. The badge invariant `Valid` is kept. |
| ClientSession.Session.ClearAttachments | src/frontend/script.js:53-57 | The list ends empty, with no badge and an empty file input. |
| ClientSession.Session.ToggleSearchMode | src/frontend/script.js:74-86 | The mode flips and the `active` class follows it. The placeholder is the search text exactly in search mode. The gradient background is set only in search mode. |
| ClientSession.ToggleInvolution | src/frontend/script.js:75 | A toggle always changes the mode, and two toggles restore it. |
| ClientSession.ToggleTwice | src/frontend/script.js:74-86 | Two toggles on a session change only the mode, the button, the placeholder and the background. They restore the mode and the button state, and the placeholder and background match the mode. |
| Rendering.TypeWriter | src/frontend/script.js:94-115 | One step per character, in order. After step k the content is the first k+1 characters. The element ends holding the whole text, without the `typing` class. The delay after step k is `speed*3` when the next character is one of `. ! ? ,`, and otherwise lies in [speed, speed+20). |
| Rendering.FormatSection | src/frontend/script.js:130-135 | A line without a colon is unchanged. A line with one becomes `<strong>` + the text before its first colon + `:</strong> ` + the text between the first and second colon. |
| Rendering.LabelledSection | src/frontend/script.js:131-133 | For any `title:desc` with no other colon, the result is the bold title, the colon, a space, then `desc`. |
| Rendering.NonBlank | src/frontend/script.js:127 | The filter keeps no line whose trim is empty, and never lengthens the list. |
| Rendering.NonBlankAppend | src/frontend/script.js:127 | Filtering distributes over concatenation, so the kept lines stay in their original order. |
| Rendering.NonBlankSingle | src/frontend/script.js:127 | A single line is kept exactly when its trim is non-empty. |
| Rendering.NonBlankAll | src/frontend/script.js:127 | A list with no blank line passes the filter unchanged. |
| Rendering.Segments | src/frontend/script.js:127-135 | There is one formatted segment per non-blank line, and segment k is line k formatted. |
| Rendering.PlainLinesPassThrough | src/frontend/script.js:127-136 | Non-blank lines without colons come out as the same lines joined by `<br>`. |
| Rendering.BlankLineDropped | src/frontend/script.js:127-136 | A whitespace-only line between two others leaves the HTML unchanged. |
| Rendering.BlankFirstLineDropped | src/frontend/script.js:127-136 | A whitespace-only first line leaves the HTML unchanged. |
| Rendering.BlankLastLineDropped | src/frontend/script.js:127-136 | A whitespace-only last line leaves the HTML unchanged. |
| Rendering.FormatImageAnalysis | src/frontend/script.js:127-136 | The HTML is empty exactly when every line of the reply is blank. `PlainLinesPassThrough`, `BlankLineDropped`, `TwoSections` and `TwoLineExample` pin its value. |
| Rendering.SectionNotEmpty | src/frontend/script.js:130-135 | A non-blank line never formats to the empty string. |
| Rendering.JoinConcat | src/frontend/script.js:136 | Joining two non-empty lists puts exactly one separator between their two joins. |
| Rendering.TwoSections | src/frontend/script.js:127-136 | Two non-blank lines give their two formatted sections with one `<br>` between them. |
| Rendering.TwoLineExample | src/frontend/script.js:125-138 | `"Color: Blue\nShape: Circle"` becomes `<strong>Color:</strong>  Blue<br><strong>Shape:</strong>  Circle`. |
| Rendering.BeforeIsFirstPiece | src/frontend/script.js:132 | The first piece of a split is the text before the first separator. |
| Rendering.Render | src/frontend/script.js:117-171 | A bot block's text is typed by the typewriter when `isImageAnalysis` is off, and set as HTML when it is on. A bot block shows `options.image` when it is a non-empty string; an empty string is falsy and shows none. A user block shows its text as plain text and never an image. It has the file icon and the `file-message` class iff `isFile`, and the `search-result` class iff `isSearch`. Only a bot block gets the `image-analysis` class, iff `isImageAnalysis`. The text finally shown is the formatted HTML for an image analysis and the content otherwise. |
| Rendering.UserImageNeverShown | src/frontend/script.js:157-171 | The user branch has no image container, so an `image` option on a user message is not shown. |
| ClientSession.ChatPreviews | src/frontend/script.js:182-194 | An image preview comes only when the first attachment's type starts with `image/`. It shows that attachment's data URL. A user text message comes only when the trimmed input is non-empty. Both are user messages, in that order. |
| ClientSession.ChatReply | src/frontend/script.js:209-223 | The single bot message, in every case: "Connection lost" on a throw or a non-2xx status; `data.response` when it is truthy, marked as image analysis iff the first attachment is an image; otherwise "Sorry, something went wrong.". |
| ClientSession.ChatMessages | src/frontend/script.js:177-226 | No call at all when the trimmed input is empty and there are no attachments. Otherwise every call before the last is exactly `ChatPreviews` of the input and attachments, all of them user messages, and the last is the single `ChatReply`. |
| ClientSession.CountRoleAppend | src/frontend/script.js:177-226 | The count of one role's messages adds up over concatenation. |
| ClientSession.ChatSendMakesOneBotMessage | src/frontend/script.js:199-223 | A send that passes the guard adds exactly one bot message, whatever the server does. |
| ClientSession.Session.AddChatPreviews | src/frontend/script.js:182-194 | It adds exactly the messages `ChatPreviews` lists, after the existing ones. |
| ClientSession.Session.AddChatReply | src/frontend/script.js:209-223 | It hides the typing indicator and appends exactly `ChatReply`. |
| ClientSession.Session.SendMessageWithFile | src/frontend/script.js:177-226 | The messages grow by exactly `ChatMessages` of the trimmed input, the attachments held before the send and the outcome. At the guard nothing changes. Past it, one `/chat` request is logged with the trimmed input and every attachment. The input is cleared, the indicator ends hidden, and the attachments are cleared with the badge removed, on every path. |
| ClientSession.SearchReplies | src/frontend/script.js:241-254 | There is always at least one bot search message: one per result, in array order, when `results` is non-empty; a single "No results found" when it is empty or absent; a single error message on a throw or a non-2xx status. |
| ClientSession.ResultMessages | src/frontend/script.js:245-247 | There is one message per result. |
| ClientSession.SearchMessages | src/frontend/script.js:228-254 | A whitespace-only query makes no call. Otherwise the query is shown as a user search message, followed by `SearchReplies`. |
| ClientSession.Session.AddSearchReplies | src/frontend/script.js:244-254 | Its loop appends one message per result in order, and it appends exactly `SearchReplies` in every case. |
| ClientSession.Session.PerformWebSearch | src/frontend/script.js:228-257 | A blank query changes nothing. Otherwise the messages grow by exactly `SearchMessages`, one `/search` request is logged, the input is cleared and the indicator ends hidden. |
| ClientSession.Session.KeyDown | src/frontend/script.js:278-287 | Enter without Shift in search mode runs a web search on the trimmed input: its messages are added, one `/search` request is logged unless the query is blank, and the attachments are untouched. In chat mode it runs a chat send: its messages are added, one `/chat` request with the trimmed input and every attachment is logged past the guard, and the attachments end empty with no badge. On either path a request that passes its guard leaves the input empty and the typing indicator hidden. A chat send also empties the file input, which a search leaves alone. A request stopped by its guard changes nothing. Any other key changes nothing. |
| ClientSession.Session.AddMessage | src/frontend/script.js:117 | Each call is appended to the call log. |
| ClientSession.Session.SetInput | src/frontend/script.js:3 | Typing sets the input's value. |
| Text.TrimIsCore | src/frontend/script.js:178 | A trim has no whitespace at either end, and it is a middle slice of the string with only whitespace cut off. |
| Text.TrimEmptyIff | src/frontend/script.js:229 | A string trims to empty iff it is all whitespace. |
| Text.TrimIdempotent | src/backend/chatbot.py:168 | Trimming twice is trimming once. |
| Text.JoinSplit | src/frontend/script.js:127 | Joining the pieces of a split with the separator gives the original string back. |
| Text.SplitJoin | src/frontend/script.js:127 | Splitting a join of separator-free pieces gives the pieces back. |
| Text.SplitConcat | src/frontend/script.js:127 | Splitting `x + sep + y` gives the pieces of x followed by those of y. |
| Text.Split | src/frontend/script.js:132 | There is at least one piece, and no piece contains the separator. |
| Text.Before | src/frontend/script.js:132 | The text before the first separator: a prefix with no separator, ended by the separator or by the end of the string. |
| Text.After | src/frontend/script.js:132 | The text after the first separator, so that `Before + sep + After` is the whole string. |
| Text.Lower | src/backend/chatbot.py:154 | Each character is lowered in place and the length is kept; with `LowerConcat` and `Chatbot.QuotaAnyCase` this makes the quota test case-insensitive. |
| Text.LowerConcat | src/backend/chatbot.py:154 | Lowering a concatenation is the concatenation of the lowered parts. |
| RateLimiting.Accepts | src/backend/chatbot.py:25-27 | A request is let through iff its address has no entry or its entry is at least 2 seconds old. |
| RateLimiting.Step | src/backend/chatbot.py:25-32 | An accepted request adds or overwrites its own entry with `now`. A refused request leaves the table as it was. No other address's entry changes. |
| RateLimiting.MinGapIsTwoSeconds | src/backend/chatbot.py:16-27 | `60.0 / RATE_LIMIT` with `RATE_LIMIT = 30` is 2 seconds. |
| RateLimiting.FirstRequestAccepted | src/backend/chatbot.py:25-33 | An address with no entry is accepted, and its entry becomes `now`. |
| RateLimiting.RejectsWithinTwoSeconds | src/backend/chatbot.py:25-30 | A request is refused iff its address has an entry less than 2 s old. A gap of exactly 2 s is accepted. |
| RateLimiting.StepTouchesOnlyItsAddress | src/backend/chatbot.py:32 | An accepted request sets only its own entry. A refused one leaves the table as it was, and no other address's entry changes. |
| RateLimiting.StepKeepsEntry | src/backend/chatbot.py:32 | An address's recorded time never decreases. |
| RateLimiting.BurstWithinWindowRefused | src/backend/chatbot.py:25-32 | A burst from one address inside the window of its last accepted request is refused in full and leaves the table unchanged, so refused calls do not extend the window. |
| RateLimiting.AcceptedAfterEntry | src/backend/chatbot.py:25-32 | Every later accepted request of an address comes at least `MinGap` after the time now recorded for it. |
| RateLimiting.AcceptedRequestsSpaced | src/backend/chatbot.py:19-34 | Over any request sequence, two accepted requests from one address are at least 2 s apart. |
| RateLimiting.Decisions | src/backend/chatbot.py:19-34 | There is one accept/refuse decision per request. |
| RateLimiting.RateLimiter.constructor | src/backend/chatbot.py:17 | The table starts empty. |
| RateLimiting.RateLimiter.Admit | src/backend/chatbot.py:22-33 | It answers exactly `Accepts` of the old table, and the new table is `Step` of the old one. |
| Chatbot.ConsideredEntry | src/backend/chatbot.py:124-127 | An entry is considered iff `file_data` is truthy. For a list it is the first element, and a lone object is used as it is. |
| Chatbot.DirectApiText | src/backend/chatbot.py:111-117 | The result is `Some` iff the call succeeded and the first candidate's first part has a text; it is that text. Otherwise it is `None`. |
| Chatbot.ClassifyError | src/backend/chatbot.py:149-157 | Messages in fixed priority: "429" in the exception text first, then "quota" in any case, then the generic message with the text. |
| Chatbot.GenericErrorEmbedsException | src/backend/chatbot.py:157 | The generic message contains the exception text. |
| Chatbot.RateLimitBeatsQuota | src/backend/chatbot.py:152-155 | A "429" wins even when "QUOTA" also appears. |
| Chatbot.QuotaAnyCase | src/backend/chatbot.py:152-155 | An exception text without "429" that holds "quota" in any mix of upper and lower case, anywhere in it, gets the quota reply. |
| Chatbot.GenerateResponse | src/backend/chatbot.py:119-157 | No model is consulted iff the prompt is empty and there is no file, and the reply is then the greeting. Exactly the vision model is consulted iff the considered entry has `data` and an `image/` type, and the reply is the vision result. Otherwise the direct call comes first. Its text is returned iff it is non-empty. Only otherwise is the chat model asked, and its text or the classified error is returned. |
| Chatbot.FallbackAnswers | src/backend/chatbot.py:133-157 | When the direct call gives no text, the chat model is asked after it. Its text is returned, and an exception it raises is answered with `ClassifyError` of its text. |
| Chatbot.PromptCarriesInput | src/backend/chatbot.py:139-162 | The fallback prompt contains the user's message, and the search prompt contains the query. |
| Chatbot.GreetingNeedsNoModel | src/backend/chatbot.py:121-122 | The greeting answer is the same whatever the models would say. |
| Chatbot.OnlyFirstFileCounts | src/backend/chatbot.py:126-127 | Only the first entry of a file list affects the answer. |
| Chatbot.EmptyListIsNoFile | src/backend/chatbot.py:121-127 | An empty list is the same as no file. |
| Chatbot.OtherKeysSkipGreeting | src/backend/chatbot.py:121-134 | A lone object with some key is truthy, so an empty prompt then skips the greeting. An object with no keys gets the greeting. |
| Chatbot.DirectAnswerWins | src/backend/chatbot.py:134-136 | A truthy direct answer is returned as it is, and the answer does not depend on the chat model. |
| Chatbot.StrippedLines | src/backend/chatbot.py:168 | Each kept line is non-empty and already stripped, and the list never grows. |
| Chatbot.StrippedLinesAppend | src/backend/chatbot.py:168 | The comprehension distributes over concatenation, so lines keep their original order. |
| Chatbot.StrippedLine | src/backend/chatbot.py:168 | `startswith('')` filters nothing: a line survives, stripped, exactly when it is not all whitespace. |
| Chatbot.SearchResults | src/backend/chatbot.py:168-171 | The result is the stripped non-blank lines when there are any, and otherwise the single "no specific results" entry. It is never empty. |
| Chatbot.BlankTextFallsBack | src/backend/chatbot.py:168-171 | A whitespace-only model text gives the single fallback entry. |
| Chatbot.BlankPieces | src/backend/chatbot.py:168 | No line of a whitespace-only text survives the filter. |
| Chatbot.WebSearch | src/backend/chatbot.py:159-178 | The result is never empty. It is the single failure entry on an exception, and otherwise the results of the model text. |
| Chatbot.ChatEndpoint | src/backend/chatbot.py:197-212 | The reply is 200 with `generate_response` of the prompt (missing means `''`) and the file. When reading the body raises, it is 500 with the fixed message. |
| Chatbot.MissingPromptIsEmpty | src/backend/chatbot.py:202 | A missing prompt is answered as the empty prompt. |
| Chatbot.SearchEndpoint | src/backend/chatbot.py:216-230 | 400 "No search query provided" for a missing or empty query. Otherwise 200 with a non-empty `web_search` result. When reading the body raises, 500 with the exception text. |
| Chatbot.EmptyQueryNeverSearches | src/backend/chatbot.py:219-223 | An empty or missing query gets 400, and the answer does not depend on the models. |
| Chatbot.ChatRoute | src/backend/chatbot.py:19-34 | 429 with the "too fast" message iff the limiter refuses, and otherwise the `/chat` answer. The table is updated by `Step`. |
| EndToEnd.FileFieldOf | src/frontend/script.js:203-206 | The client's attachments arrive as a `file` list of the same length, whose entry k carries attachment k's name, type and data, with no other key. |
| EndToEnd.RefusedChatShowsConnectionLost | src/frontend/script.js:209-222 | A 429 from the rate limiter or a 500 from `/chat` reaches the user as "Connection lost". |
| EndToEnd.ImageAttachmentTakesVisionPath | src/backend/chatbot.py:124-131 | An image as the client's first attachment sends the backend down the vision path only, with that attachment's data. |
| EndToEnd.AcceptedReplyShown | src/frontend/script.js:213-216 | An accepted send with a non-empty reply shows that reply. The text is formatted as image-analysis HTML iff the first attachment is an image. |
| EndToEnd.NonBlankSearchShowsEveryResult | src/frontend/script.js:228-250 | A non-blank client query is never refused with 400, and every result line becomes one bot message, in order, after the user's query. |

## Left out

- `src/frontend/three-background.js`, `setup.py`, `wsgi.py`, `src/frontend/config.js`: graphics, packaging and configuration, with no decision logic. They are not part of this model.
- The theme toggle and `localStorage` (`script.js` 59-72), DOM creation, CSS classes beyond those `Render` lists, and scrolling: browser I/O.
- `convertFileToBase64` and `FileReader`: the read is an input `Result` of `HandleFileUpload`, and its success value is the payload.
- `fetch` and JSON transport: a server outcome is an input that throws or answers. Non-string JSON values (a numeric `response`, a `null` prompt or query, a `file` that is a string or number, a `data` key whose value is `null`) are not modelled.
- The Gemini SDK, `requests.post`, and the base64 and PIL decoding in `process_image`: these are the functions in `Models`. `ProcessImage` and `FallbackText` have no contract of their own; they fix the exact texts that `GenerateResponse` returns.
- The chat oracle `Models.chat` takes a `ChatPrompt`, the structured prompt. `PromptText` gives the exact f-string text that `send_message` receives for it; `PromptCarriesInput` is the only property proved of it. The oracle is not written as a function of that text, because reasoning over the long literal is too costly for the verifier.
- The chat session (`self.chat`, chatbot.py:66) is a single conversation that keeps its history, and both the fallback and `web_search` send on it, so a real reply can depend on earlier sends. `Models.chat` is a function of one prompt alone; no property here depends on that history.
- Logging, Flask routing, the static file routes and CORS: no effect on the answers modelled.
- Concurrency. When several files are picked at once, every read starts together and each record is pushed when its own read ends, so the list order is the order in which the reads finish. The model fixes one order: each `HandleFileUpload` call completes before the next begins. Search results are appended in call order, although the page order depends on timing (the `forEach` does not await each typewriter). A state change during the `await` of a fetch (another send, a new attachment) is not modelled; `sendMessageWithFile` reads `attachments` after the fetch as it stood before it.
- Rendering.TypeWriter: a step is one Dafny character, where JavaScript's `charAt` steps over UTF-16 code units, so a character outside the Basic Multilingual Plane takes one step here and two in the browser.
- Text.Trim: whitespace is space, tab, LF, CR, VT and FF only. Python `strip` also removes the separators U+001C to U+001F, and both JavaScript `trim` and Python `strip` remove the other Unicode spaces.
- Text.Lower: only ASCII letters are lowered.
- Real numbers stand in for the float timestamps and delays; rounding is not modelled.
- The initial placeholder and button state come from `index.html`, which is not part of this model; the `Session` constructor takes the placeholder as a parameter.
- `conversation_history` and `max_history_length` are declared but never used.
- `request.remote_addr` is taken to be a string; a missing address is not modelled.
