# Inquiry tutor: a Dafny model of the chat, inquiry and session-save core

The application is a tutoring front end. The user types a topic. A language
model answers with a bulleted list of "inquiries", which is parsed into
questions and kept in a capped, most-recent-first history. Clicking a question
opens a chat with the model about it. Chat sessions can be saved through a
small HTTP endpoint. The endpoint exists twice: as a serverless function and
as a middleware of the development server.

This project models that core in Dafny and proves properties of the model.

- `wrappers.dfy` (`Wrappers`): `Option` and `Result`.
- `text.dfy` (`Text`): the JavaScript string operations the core relies on.
  These are `trim` (over the ECMAScript white-space and line-terminator set),
  `startsWith`, `split` on one character, and global removal of a character
  or of a two-character sequence.
- `llm.dfy` (`Llm`): a reply as a list of content blocks, the text taken from
  it, the error text of a thrown value, and the API-key check.
- `chat_hook.dfy` (`ChatHook`): the `useChat` hook (`src/hooks/useChat.ts`).
  - Each step is a function on a `ChatState` value.
  - The class `Hook` holds `messages`, `isLoading` and `error`. Its methods
    are proved against those functions.
- `inquiries.dfy` (`Inquiries`): the pure parts of `src/App.tsx`. These are
  the reply-parsing pipeline, the 50-entry history and the history badge.
- `app.dfy` (`App`): the inquiry page's state and handlers (`src/App.tsx`).
  - They are given as functions on a `Page` value.
  - The class `InquiryPage` holds the page's fields and the chat hook it
    composes with.
- `chat_view.dfy` (`ChatView`): the chat panel (`src/components/Chat.tsx`).
  - The class `ChatInput` holds the `input` state and its submit gate.
  - `Render` is what the message area shows.
- `http.dfy` (`Http`), shared by both servers:
  - JSON values and their JavaScript truthiness;
  - the destructuring of a save request;
  - the write it asks for;
  - responses.
- `dev_server.dfy` (`DevServer`): the development server's middleware
  (`vite.config.ts`).
  - It builds the pooled connection URL and cleans the configured database
    URL.
  - It routes a request by URL, then method, then body, to a response and
    at most one database call.
- `save_api.dfy` (`SaveApi`): the serverless save handler
  (`api/chat/save.ts`) and the connection URL it builds.

### Oracles and inputs

Everything the core reads from outside becomes a parameter of the operation
that reads it.

- **Language model:** a function from the conversation sent (or the topic) to
  a `Reply`, which is either content blocks or a thrown value.
- **Database:** a function from a write to its outcome, and one from an id to
  a lookup result.
- **API key and clock:** the API key comes from the build environment. The
  clock readings are `Date.now()`.
- **Confirmation dialog:** its answer to "clear all history?".
- **Request body:** given to the servers as a `Body`: none, parsed JSON, or
  text that does not parse.

### Which chat hook

Other parts of the repository (its chat pages and the hook's tests) assume a
different chat hook. That hook takes options (a session id, the topic, the
questions, the selected question, an `onSessionCreated` callback), saves
sessions, and offers `loadMessages`. The hook in `src/hooks/useChat.ts` takes
no options, makes one model call per message and never saves. The model
follows that hook.

## Model

| member | source | states |
|---|---|---|
| Text.TrimStart | src/hooks/useChat.ts:17 | The result is a suffix of the input. Every dropped character is whitespace, and the result does not start with whitespace. |
| Text.TrimEnd | src/hooks/useChat.ts:17 | The result is a prefix of the input. Every dropped character is whitespace, and the result does not end with whitespace. |
| Text.Trim | src/App.tsx:94 | The trimmed string is empty or starts and ends with a non-whitespace character. |
| Text.TrimBounds | src/App.tsx:94 | `trim()` is the slice between the first and the last non-whitespace characters. Everything outside the slice is whitespace. |
| Text.BlankIffAllWhitespace | src/hooks/useChat.ts:17 | `!s.trim()` holds exactly when every character of `s` is whitespace. |
| Text.TrimKeepsOut | vite.config.ts:17 | Trimming never introduces a character. |
| Text.TrimIdempotent | src/App.tsx:94-96 | Trimming an already trimmed string changes nothing. |
| Text.TrimStartPadded | src/App.tsx:94 | Leading whitespace before a string that starts with a non-whitespace character is exactly what is removed. |
| Text.TrimEndPadded | src/App.tsx:94 | Trailing whitespace after a string that ends with a non-whitespace character is exactly what is removed. |
| Text.TrimPadded | src/App.tsx:94 | `trim` removes exactly the whitespace padding around a trimmed string. |
| Text.Split | src/App.tsx:93 | `split('\n')` gives one more piece than there are separators, and no piece contains the separator. |
| Text.SplitNoSeparator | src/App.tsx:93 | A string without the separator splits into itself alone. |
| Text.SplitFirstLine | src/App.tsx:93 | Splitting `a + sep + b` gives `a` followed by the pieces of `b`. |
| Text.JoinSplit | src/App.tsx:93 | Joining the pieces with the separator gives back the original string (split loses nothing). |
| Text.RemoveChar | vite.config.ts:17 | `replace(/\n/g, '')` leaves no newline, shortens the string by the number of newlines, and keeps every other character as often as it occurs. |
| Text.RemoveCharAppend | vite.config.ts:17 | Removal works piece by piece, so the kept characters stay in their order. |
| Text.RemoveCharAbsent | vite.config.ts:17 | A string without the removed character is left as it is. |
| Text.RemovePair | vite.config.ts:17 | `replace(/\\n/g, '')` never lengthens the string and keeps every character other than backslash and `n`. |
| Text.RemovePairAbsent | vite.config.ts:17 | A string without a backslash is left as it is by `replace(/\\n/g, '')`. |
| Text.TrimKeepsCount | vite.config.ts:16-17 | Trimming keeps every non-whitespace character as often as it occurs. |
| Llm.TextParts | src/hooks/useChat.ts:115-117 | Filtering the text blocks gives at most one string per block. |
| Llm.ConcatAppend | src/hooks/useChat.ts:118 | `join('')` of two lists is the join of each, concatenated. |
| Llm.TextPartsAppend | src/hooks/useChat.ts:116-117 | The text parts of two block lists are those of each, in order. |
| Llm.TextOfAppend | src/hooks/useChat.ts:115-118 | The text of a reply split in two is the text of the first part followed by that of the second. |
| Llm.TextOfIgnoresOtherBlocks | src/hooks/useChat.ts:116 | A non-text block contributes nothing to the reply's text, wherever it stands. |
| Llm.TextOfTextBlock | src/hooks/useChat.ts:117-118 | A text block contributes exactly its text, in its place. |
| ChatHook.Turns | src/hooks/useChat.ts:97-100 | The history sent has one `{role, content}` entry per message, in order. |
| ChatHook.Request | src/hooks/useChat.ts:96-106 | The conversation sent holds one role/content pair per message of the render's snapshot, in order, then the new user turn. |
| ChatHook.CallModel | src/hooks/useChat.ts:30-131 | A missing or placeholder key fails with the configuration message before any call. Otherwise the call succeeds exactly when the model replies, with the reply's text, and a thrown call fails with its error text. |
| ChatHook.Begin | src/hooks/useChat.ts:19-28 | Before the call, the user message holding the chosen text is appended after the messages already there, loading is on and the error is cleared. |
| ChatHook.Settle | src/hooks/useChat.ts:115-133 | Loading ends off. On success exactly one assistant message holding the text is appended and the error is untouched. On failure the messages are unchanged and the error is recorded. |
| ChatHook.Clear | src/hooks/useChat.ts:136-139 | `clearChat` empties messages and error and leaves loading untouched. |
| ChatHook.Send | src/hooks/useChat.ts:16-134 | If the input is blank and there is no selected question, nothing changes. Otherwise loading ends false, and the list grows by one or two messages with the earlier messages unchanged. The first new message is the user's, holding the selected question or the raw content. Two were added exactly when there is no error, and the second is the assistant's. |
| ChatHook.UserTextChoice | src/hooks/useChat.ts:22 | The user turn is the selected question when it is non-empty, and otherwise the untrimmed content. |
| ChatHook.RequestMirrorsVisible | src/hooks/useChat.ts:97-106 | The conversation sent is the pre-call messages as role/content pairs, then the new user turn. Its length is the prior length plus one. |
| ChatHook.SendSuccess | src/hooks/useChat.ts:115-127 | On a reply, exactly one assistant message follows the user message, holding the reply's text blocks concatenated. No error is shown. |
| ChatHook.SendMissingKey | src/hooks/useChat.ts:33-35 | A missing, empty or placeholder key gives the configuration error. The user message stays and no assistant message is added. |
| ChatHook.SendThrown | src/hooks/useChat.ts:128-133 | A thrown call adds only the user message. The error is the thrown message, or `An error occurred` for a non-Error. Loading ends false. |
| ChatHook.FirstQuestionScenario | src/hooks/useChat.test.ts:44-52 | From an empty chat, `sendMessage('Hello', 'Q1')` with a one-block reply gives `[Q1, 'Response from Claude']`. |
| ChatHook.Hook.constructor | src/hooks/useChat.ts:12-14 | The hook starts with no messages, not loading, and no error. |
| ChatHook.Hook.BeginTurn | src/hooks/useChat.ts:19-28 | The fields become `Begin` of the old state: the user message appended, loading on, error cleared. |
| ChatHook.Hook.SettleTurn | src/hooks/useChat.ts:115-133 | The fields become `Settle` of the old state: the assistant message appended or the error set, and loading off. |
| ChatHook.Hook.SendMessage | src/hooks/useChat.ts:16-134 | The fields become `Send` of the old state, built from the caller's message snapshot. |
| ChatHook.Hook.ClearChat | src/hooks/useChat.ts:136-139 | The fields become `Clear` of the old state. |
| Inquiries.TrimAll | src/App.tsx:94 | Every line is trimmed, and the count is kept. |
| Inquiries.KeepBullets | src/App.tsx:95 | Only lines starting with `-` are kept, and there are never more than before. |
| Inquiries.StripAll | src/App.tsx:96 | Each kept line loses its first character and is trimmed again. |
| Inquiries.ParseInquiries | src/App.tsx:92-96 | There are at most as many inquiries as lines in the reply. None has leading or trailing whitespace. |
| Inquiries.KeepBulletsPositions | src/App.tsx:95 | The filter keeps exactly the lines starting with `-`, in their original order, at strictly increasing positions. |
| Inquiries.ParseCorrespondence | src/App.tsx:92-96 | The inquiries correspond one to one and in order to the reply lines that start with `-` once trimmed. Each is the trimmed line minus its dash, trimmed again. Every other line is dropped. |
| Inquiries.ParseBareDash | src/App.tsx:95-96 | A reply consisting of a bare `-` yields the single empty inquiry. |
| Inquiries.PushHistory | src/App.tsx:108 | The new entry comes first and the older entries follow in order. The length is one more, capped at 50, so only the oldest are dropped. |
| Inquiries.PushHistoryBounded | src/App.tsx:108 | The history never exceeds 50 entries. Below the cap nothing is dropped. |
| Inquiries.BadgeText | src/App.tsx:271 | The badge shows `9+` above nine entries, and otherwise the single digit of the count. |
| App.Generate | src/App.tsx:38-116 | A blank topic changes nothing. Otherwise loading ends false, and topic and selection are kept. The error is cleared exactly when the fetch succeeded. A failure leaves no inquiries and the history unchanged. The history changes only for a non-empty list, and then gets the new entry in front. |
| App.FetchInquiries | src/App.tsx:45-111 | A missing or placeholder key fails with the configuration message before any call. Otherwise the fetch succeeds exactly when the model replies, with the parse of the reply's text, and a thrown call fails with its error text. |
| App.BeginGenerate | src/App.tsx:41-43 | Before the call, loading is on, the error is cleared and the inquiries are emptied. Topic, history and selection are kept. |
| App.SettleGenerate | src/App.tsx:98-115 | Loading ends off, with topic and selection kept. On success the list is shown, and the history gets the new entry in front exactly when the list is non-empty. On failure the error is recorded and inquiries and history are unchanged. |
| App.GenerateShowsParsedReply | src/App.tsx:86-98 | With a key and a reply, the inquiries shown are those parsed from the reply's text. |
| App.GenerateFailure | src/App.tsx:45-115 | A missing key or a thrown call shows the matching message, with no inquiries, history unchanged, and not loading. |
| App.GenerateKeepsHistoryBounded | src/App.tsx:101-109 | Generating keeps the history within 50 entries. |
| App.SelectInquiry | src/App.tsx:123-127 | The saved topic and inquiries come back and the error is cleared. Nothing else changes. |
| App.ClearHistory | src/App.tsx:129-133 | The history is emptied only when the user confirms. Nothing else changes. |
| App.QuestionClickAsWritten | src/App.tsx:139-144 | As written, a click enters chat mode with that question selected. An empty question only clears the chat. Any other becomes the only user turn, answered from the pre-clear conversation followed by the question: the assistant message is there exactly when that call succeeds, and holds its text. |
| App.QuestionClick | src/App.tsx:139-144 | The corrected click enters chat mode the same way, but a non-empty question is answered from a conversation holding just that question. |
| App.QuestionClickOpensChat | src/App.tsx:139-144 | For the corrected click, the conversation sent to the model is exactly what the chat shows: its one user turn. |
| App.CloseChatMode | src/App.tsx:146-152 | Closing leaves chat mode (`isInChatMode` is false) with an empty chat and no error. The rest of the page and the loading flag are kept. |
| App.StaleConversationSent | src/App.tsx:139-144 | For the click as written, the conversation sent starts with the previous chat's turns. It matches what the chat shows exactly when the previous chat was empty. |
| App.StaleConversationChangesAnswer | src/App.tsx:139-144 | As written, a model that answers according to the conversation's length shows the answer meant for the stale conversation. The corrected click shows the fresh one. |
| App.InquiryPage.constructor | src/App.tsx:18-28 | The page starts with an empty topic, no inquiries, not loading, no error, no selection, and the stored history. |
| App.InquiryPage.SetTopic | src/App.tsx:239 | Only the topic changes. |
| App.InquiryPage.BeginGeneration | src/App.tsx:41-43 | The fields become `BeginGenerate` of the old page: loading on, error cleared, inquiries emptied. |
| App.InquiryPage.SettleGeneration | src/App.tsx:98-115 | The fields become `SettleGenerate` of the old page. |
| App.InquiryPage.GenerateInquiries | src/App.tsx:38-116 | The fields become `Generate` of the old page. |
| App.InquiryPage.HandleSelectInquiry | src/App.tsx:123-127 | The fields become `SelectInquiry` of the old page. |
| App.InquiryPage.HandleClearHistory | src/App.tsx:129-133 | The fields become `ClearHistory` of the old page. |
| App.InquiryPage.HandleQuestionClickAsWritten | src/App.tsx:139-144 | The page and chat become the as-written click: the chat is cleared, but the request comes from the pre-clear messages. |
| App.InquiryPage.HandleQuestionClick | src/App.tsx:139-144 | The page and chat become the corrected click, whose request holds the question alone. |
| App.InquiryPage.HandleCloseChatMode | src/App.tsx:146-149 | The selection is cleared and the chat is cleared. |
| ChatView.SendDisabledIffRejected | src/components/Chat.tsx:157-162 | The send button is disabled exactly when a submit would be rejected. A disabled field implies a disabled button. |
| ChatView.Render | src/components/Chat.tsx:37-143 | The welcome panel shows exactly when there are no messages. Otherwise there is one bubble per message, in order: user messages on the right, assistant messages as Markdown. The typing indicator shows exactly while loading. |
| ChatView.SubmitReachesHook | src/components/Chat.tsx:27-28 | An accepted submit passes the hook's guard and becomes a user turn holding the input as typed. |
| ChatView.ChatInput.constructor | src/components/Chat.tsx:14 | The field starts empty. |
| ChatView.ChatInput.OnChange | src/components/Chat.tsx:155 | The field holds the typed value. |
| ChatView.ChatInput.HandleSubmit | src/components/Chat.tsx:25-31 | A value is passed on exactly when the input is not blank and nothing is loading. That value is the raw input, and the field empties. A rejected submit changes nothing. |
| ChatView.ChatInput.SubmitTo | src/App.tsx:217-221 | An accepted submit leaves the hook in the state `Send` gives for the input alone, built from the rendered messages. A rejected one leaves the hook unchanged. |
| Http.Destructure | api/chat/save.ts:36 | Destructuring fails exactly for an `undefined` or `null` body. |
| Http.SaveOp | api/chat/save.ts:44-65 | A truthy `id` selects an update of that row, and otherwise a create. Either way exactly the four fields are written. |
| DevServer.PooledUrl | vite.config.ts:33-35 | The configured URL is kept as a prefix. It is followed by `&` when it has a `?` and by `?` otherwise, then the pooling parameters. |
| DevServer.PooledUrlQueryCount | vite.config.ts:33-35 | The pooled URL has one `?` when the original had none, and otherwise as many as the original. |
| DevServer.CleanDatabaseUrl | vite.config.ts:16-17 | The cleaned URL holds no newline and has no whitespace at either end. Every character other than whitespace, backslash and `n` keeps its count. A URL that is already trimmed and has no newline and no backslash comes back unchanged. |
| DevServer.IdRun | vite.config.ts:142 | `[^/?]+` is greedy: the run is as long as possible. |
| DevServer.ChatId | vite.config.ts:142-144 | The id is the maximal non-empty run of characters other than `/` and `?` right after `/api/chat/`. There is no match exactly when no such run starts there. |
| DevServer.RouteOf | vite.config.ts:69-143 | No URL is passed on. A URL is the save route exactly when it is `/api/chat/save` or starts with `/api/chat/save?`. Otherwise it is the id route when an id run follows `/api/chat/`, carrying exactly the id `ChatId` matches: the maximal run. Every other URL is passed on. |
| DevServer.ReadFields | vite.config.ts:95-96 | An empty body reads as `{}` and misses every field. A body that does not parse fails with the parser's message. Only a `null` JSON body fails to destructure. |
| DevServer.HandleSave | vite.config.ts:79-139 | OPTIONS gives an empty 200 and any other non-POST gives 405. An unreadable body gives 500 with details. A missing or falsy field gives 400. A write happens exactly for a complete POST, answered with 200 and the id, or with 500 and the message. |
| DevServer.HandleLookup | vite.config.ts:141-190 | OPTIONS gives 200 and any other non-GET gives 405. A GET looks up exactly the id and gives 200 with the four fields, 404, or 500 with details. |
| DevServer.Handle | vite.config.ts:68-193 | A request is passed to `next()` exactly when it matches neither route. On the save route it is answered as `HandleSave` answers it, and on the id route as `HandleLookup` answers it for the matched id. |
| DevServer.GetSaveRefused | vite.config.ts:79-91 | `GET /api/chat/save` is refused with 405 and is never looked up as an id. |
| DevServer.SaveQueryIsSaveRoute | vite.config.ts:79 | The save URL with any query string is the save route. |
| DevServer.SaveSlashIsIdRoute | vite.config.ts:142-158 | `/api/chat/save/` is the id route with id `save`, so a POST there gets 405. |
| DevServer.ChatIdStopsAtSeparator | vite.config.ts:142-144 | The id ends at the first `/` or `?` after the prefix, whatever follows. |
| DevServer.IdUrlLooksUp | vite.config.ts:142-171 | A GET on `/api/chat/<id>` followed by `/` or `?` looks up exactly that id and answers 200 or 404 as the lookup finds a row or not. The one exception is `/api/chat/save?...`, which is the save route. |
| DevServer.BareIdUrlLooksUp | vite.config.ts:142-164 | A GET on `/api/chat/<id>` with nothing after the id looks up exactly that id, unless the id is `save`. |
| DevServer.EmptyBodyMissingFields | vite.config.ts:95-103 | A POST without a body is refused with 400 and makes no write. |
| DevServer.EmptyArraysAccepted | vite.config.ts:98-125 | Empty question and message arrays are truthy, so the save creates a row. |
| SaveApi.Fields | api/chat/save.ts:36 | `req.body` cannot be destructured exactly when it is absent, unparseable or `null`. |
| SaveApi.Handler | api/chat/save.ts:13-74 | Every response carries the CORS headers. OPTIONS gives an empty 200 and any other non-POST gives 405, without a write. A missing or falsy field gives 400. A write happens exactly for a complete POST, answered with 200 and the id. A 500 comes exactly from an undestructurable body or a failed write, and never carries details. |
| SaveApi.AgreesWithDevServer | api/chat/save.ts:35-67 | For a parsed, non-null body, the endpoint and the development server make the same write and answer with the same status. |
| SaveApi.NoBodyDiverges | api/chat/save.ts:36 | Without a body, the endpoint answers 500 where the development server answers 400. Neither writes. This holds when the platform hands the handler no parsed body (`req.body` undefined or null). That depends on its content-type handling, which is outside this model. |
| SaveApi.ConnectionUrlAsWritten | api/chat/save.ts:8 | The configured URL is followed by `?` and the pooling parameters, whatever it holds. |
| SaveApi.ConnectionUrlDoubleQuery | api/chat/save.ts:8 | A configured URL that already has a query string ends up with a second `?`. The development server's URL does not. |

## Left out

- **Language-model calls:** the SDK client, the model names, the token limits and the prompt texts. The model is an oracle from the conversation (or the topic) to a reply. The prompt wording around the topic and the system prompt are not modelled.
- **Hook concurrency:** overlapping `sendMessage` calls and React's batching of state updates are not modelled. Each call runs atomically from entry to settle. The one closure effect that matters, the messages a render captured, is a parameter (`snapshot`).
- **Hook options and saving:** hook options, session ids, `onSessionCreated`, `loadMessages` and saving from the hook do not exist in `src/hooks/useChat.ts`. The pages and test assertions that use such a hook are not part of this model.
- **Ids and timestamps:** they are integers read from the clock. They are opaque, string conversion is not modelled, and no uniqueness is claimed.
- **Whitespace and strings:** whitespace is the ECMAScript white-space and line-terminator set. Strings are sequences of Unicode scalar values rather than UTF-16 code units.
- **I/O and the database:** reading `.env.local`, its `DATABASE_URL` regular expression, and the fallback to the process environment are not modelled; only the cleaning step is. Also left out: Prisma client creation and `$disconnect`, logging, and an undefined `DATABASE_URL` (which would read as `"undefined"`).
- **Request bodies:** `parseJsonBody`'s chunk accumulation, `JSON.parse` and stream errors are not modelled. The body arrives as none, parsed JSON, or text that does not parse with the parser's message. What the serverless platform does with a body before the handler sees it is outside this model.
- **Responses:** headers set by the runtime (such as the JSON content type of `res.json`) are left out. Only headers the source sets are modelled, and `res.end()` is `Empty`.
- **Error details:** a `null` body destructured on the development server yields the engine's `TypeError` message. It is the fixed text `DevServer.NullBodyMessage`.
- **Other code:** the inquiry page's rendering (`hasResults`, the history button and its visibility; only the badge text is modelled), the presentation components (header, loading state, toast, error message, inquiry list, question sidebar, history drawer date formatting, time-of-day formatting) are not part of this model. Neither are `useDarkMode`, `useLocalStorage` (the history is loaded and stored by it), `api/chat/[id].ts`, the other pages, and the smoke-test script.
- Text.RemovePair: states only that the string does not grow and that other characters are kept. It does not state which backslash-`n` pairs are removed, although the definition removes them left to right, one pass, as the global regular expression does.
- Llm.TextParts: its contract bounds only the count. What the text consists of is stated by `Llm.TextOfAppend`, `Llm.TextOfIgnoresOtherBlocks` and `Llm.TextOfTextBlock`.

## Findings

| source | as written | input that shows it | evidently intended | confidence | as-written member | corrected member |
|---|---|---|---|---|---|---|
| src/App.tsx:139-144 | `handleQuestionClick` calls `clearChat()` and then the `sendMessage` captured by the same render, which builds the model's history from the messages before the clear. | The user asks about one question, then clicks another. | The new chat starts empty, so the model is sent the clicked question alone, matching what the chat shows. | medium, not executed | App.StaleConversationChangesAnswer | App.QuestionClickOpensChat |
| api/chat/save.ts:8 | The pooling parameters are appended after an unconditional `?`. | `DATABASE_URL=postgres://host/db?sslmode=require` becomes `...?sslmode=require?pgbouncer=true&connection_limit=1`. | Join with `&` when the URL already has a query string, as `vite.config.ts:33-35` does. | high, not executed | SaveApi.ConnectionUrlDoubleQuery | DevServer.PooledUrlQueryCount |
