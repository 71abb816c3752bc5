# Streaming chat: relay, store, consumer and accounts

A Dafny model of the message path of an AI companion chat application. It
covers these parts:

- **Chat store** (`ChatStorage`). Two tables, conversations and messages, kept
  in insertion order, with the seven storage operations. A logical clock stands
  in for the database's `createdAt`, and counters stand in for its serial keys.
- **HTTP handlers** (`ChatRoutes`):
  - list, get, create and delete a conversation;
  - the streaming send. It stores the user's message, reads the history back,
    relays the provider's deltas as server-sent events, stores the reply,
    titles a new conversation and writes `done`. A throw becomes an error
    event or a 500.
- **Wire format** (`EventStream`, `Lines`). Each event is a `data: <json>`
  line and an empty line (section 9.2, "Server-sent events", of the WHATWG
  HTML Living Standard). `Lines` holds the browser's `split("\n")` and its
  `data: ` filter.
- **Chat page's `sendMessage`** (`ChatClient`):
  - the re-entrancy guard;
  - the optimistic append to the cached conversation;
  - the read loop that folds every parsed payload into the text on screen,
    `isStreaming` and the invalidated queries.
- **End to end** (`Pipeline`). What the browser shows for what the relay
  writes, when the JSON codec round-trips and reads end on event boundaries.
- **Message box** (`ChatInputBox`): trim, submit only when enabled and
  non-empty, clear.
- **Accounts** (`Auth`): the user table, the session's `userId`, the
  `requireAuth` gate, and the register, login, logout and `/me` handlers.

Parameters and inputs stand in for the outside world:

- `JSON.stringify`/`JSON.parse` are the parameters `encode` and `parse`.
- bcrypt is `hash` and `verify`.
- `Date.now()` is `now`.
- The completion stream is an `Upstream`: its deltas, then whether iterating
  further throws.
- A thrown database or provider call is an input:
  - where a handler's calls before the throw change nothing, a flag says
    whether it throws (`storeFails`, `throws`);
  - where earlier calls have already written, the input names the call that
    throws (`Failure` for the send, `DeleteFault` for the delete,
    `RegisterThrow` for registration), and what the earlier calls wrote stays
    written.
- The length limits of the zod schemas (`min`/`max`, checked by
  `ChatRoutes.ValidContent` and `ChatRoutes.CreateTitle`) are counted in UTF-16
  code units (`ChatRoutes.Utf16Length`). The automatic title's 40-character
  test and cut count characters (code points) instead; see "## Left out".

Where the code and the intended behaviour differ, the model follows the code,
with one exception (the `userId` bullet below):

- `res.headersSent` turns true at the first `res.write`, not at `setHeader`.
  So a send that throws before any non-empty delta was written answers with a
  500 JSON body, even though the event-stream headers were set
  (`ChatRoutes.AfterThrow`).
- The send handler checks neither that the conversation exists nor that the
  caller owns it before it stores the user's message. Whether the database
  then rejects the insert depends on the messages table's constraints, which
  are not part of this model; a rejected insert is the `SaveUserFails` case.
- The automatic title is set when the history read back has exactly one
  message (`messages.length === 1`).
- The handlers in `server/replit_integrations/chat/routes.ts` call
  `getAllConversations()`, `getConversation(id)`, `createConversation(title)`
  and `deleteConversation(id)` without the `userId` the storage interface
  declares. Here the model does not follow the handler code: it follows the
  storage interface, passing the caller's user id explicitly, and applies the
  owner filter as the storage code writes it.
- The browser reads only `content` and `done`. An `{error}` event is parsed
  and then ignored (see Findings).

## Model

| member | source | states |
|---|---|---|
| `ChatStorage.ChatStore.constructor` | server/replit_integrations/chat/storage.ts:15 | the store starts with both tables empty and its invariant established |
| `ChatStorage.ChatStore.GetConversation` | server/replit_integrations/chat/storage.ts:16-22 | a result is a stored row with that id and owner; None exactly when no row has both |
| `ChatStorage.ChatStore.GetAllConversations` | server/replit_integrations/chat/storage.ts:24-30 | exactly the caller's conversations, strictly newest first |
| `ChatStorage.ChatStore.GetMessagesByConversation` | server/replit_integrations/chat/storage.ts:51-53 | exactly the messages of that conversation, strictly oldest first |
| `ChatStorage.ChatStore.CreateConversation` | server/replit_integrations/chat/storage.ts:32-35 | appends one row carrying the next id, the title, the owner and the current time, and returns it; messages untouched; invariant kept |
| `ChatStorage.ChatStore.DeleteConversation` | server/replit_integrations/chat/storage.ts:37-45 | a caller who does not own the conversation changes nothing; otherwise its messages and then its row are removed and all other rows stay in order; a throw at the select or the message delete changes nothing, a throw at the conversation delete leaves the messages deleted and the row in place; it completes exactly when nothing threw |
| `ChatStorage.ChatStore.UpdateConversationTitle` | server/replit_integrations/chat/storage.ts:47-49 | the row with that id gets the title, whoever owns it; every other row and all messages are unchanged |
| `ChatStorage.ChatStore.CreateMessage` | server/replit_integrations/chat/storage.ts:55-58 | appends one message with the next id and the current time, and returns it; conversations untouched |
| `ChatStorage.InsertConversation` | server/replit_integrations/chat/storage.ts:33 | inserting with the current counters keeps ids and timestamps increasing and below the counters |
| `ChatStorage.InsertMessage` | server/replit_integrations/chat/storage.ts:56 | the same for a message insert |
| `ChatStorage.RetitleAll` | server/replit_integrations/chat/storage.ts:48 | row for row, ids, owners and creation times are kept; the title is the new one exactly on the rows with that id, and the old one elsewhere |
| `ChatStorage.RetitleKeepsValid` | server/replit_integrations/chat/storage.ts:47-49 | a retitle keeps the store invariant |
| `ChatStorage.DeleteKeepsValid` | server/replit_integrations/chat/storage.ts:43-44 | the store invariant holds after the message delete alone and after both deletes |
| `ChatStorage.KeepsOtherThreads` | server/replit_integrations/chat/storage.ts:43 | deleting one conversation's messages leaves every other conversation's message listing as it was |
| `ChatStorage.KeepsOtherConversations` | server/replit_integrations/chat/storage.ts:44 | deleting one conversation leaves every lookup of another id as it was |
| `ChatStorage.EmptiesThread` | server/replit_integrations/chat/storage.ts:43 | after the cascade the deleted conversation has no messages |
| `ChatStorage.AppendToThread` | server/replit_integrations/chat/storage.ts:51-58 | a new message becomes the last of its own conversation's listing and leaves other listings unchanged |
| `ChatStorage.FreshKeyLookup` | server/replit_integrations/chat/storage.ts:32-35 | the conversation just created is the only row its owner's lookup by id finds |
| `ChatRoutes.Utf16Length` | server/replit_integrations/chat/routes.ts:13-17 | a string's JavaScript length lies between its character count and twice that, and equals the character count exactly when every character is inside the Basic Multilingual Plane |
| `ChatRoutes.ContentAccepted` | server/replit_integrations/chat/routes.ts:16-18 | `sendMessageSchema` never accepts an absent, empty or over-long message, accepts every non-empty one of at most 25000 characters, and for text inside the Basic Multilingual Plane accepts exactly 1 to 50000 characters |
| `ChatRoutes.CreateTitle` | server/replit_integrations/chat/routes.ts:51-56 | the body is accepted exactly when a given title has 1 to 200 UTF-16 code units; an absent title becomes "New Chat"; an accepted title is kept as given |
| `ChatRoutes.Title` | server/replit_integrations/chat/routes.ts:132 | a message of at most 40 characters is the title; a longer one gives its first 40 characters and "...", never more than 43 |
| `ChatRoutes.ContentEvents` | server/replit_integrations/chat/routes.ts:119-125 | no more events than deltas, and every one a non-empty content event |
| `ChatRoutes.ContentEventsKeepNonEmpty` | server/replit_integrations/chat/routes.ts:119-125 | the events are exactly one content event per non-empty delta, in arrival order |
| `ChatRoutes.PromptAppend` | server/replit_integrations/chat/routes.ts:92-112 | the provider's context is the system prompt first and nowhere else, then one turn per stored message, and a message stored last is its last turn |
| `ChatRoutes.AfterThrow` | server/replit_integrations/chat/routes.ts:138-147 | a throw before anything was written gives a 500 JSON error; after a write, the events written so far are kept and followed by one error event |
| `ChatRoutes.RelayedTextIsStored` | server/replit_integrations/chat/routes.ts:117-128 | the text of the events written equals the concatenated deltas that are stored as the reply |
| `ChatRoutes.Relay` | server/replit_integrations/chat/routes.ts:117-125 | the loop writes exactly the content events and accumulates exactly the concatenated deltas |
| `ChatRoutes.GetConversations` | server/replit_integrations/chat/routes.ts:22-30 | 200 with exactly the caller's conversations, newest first, or 500 when the store throws |
| `ChatRoutes.GetConversationById` | server/replit_integrations/chat/routes.ts:33-46 | 200 exactly when the caller has a conversation with that id, with it and exactly its messages, oldest first; 404 otherwise; 500 on a throw |
| `ChatRoutes.PostConversation` | server/replit_integrations/chat/routes.ts:49-62 | 400 on a rejected body with nothing stored; 201 with the one new row otherwise; 500 on a throw with nothing stored |
| `ChatRoutes.DeleteConversationById` | server/replit_integrations/chat/routes.ts:65-74 | 204 when no storage call throws, whether or not anything was deleted; the cascade happens only for the owner; 500 when a call throws, with the messages already deleted if only the conversation delete threw |
| `ChatRoutes.SaveTurn` | server/replit_integrations/chat/routes.ts:88-96 | the user's message is stored before the history is read, so the history is the earlier listing plus that message; a throw at either await stops there |
| `ChatRoutes.Answer` | server/replit_integrations/chat/routes.ts:117-147 | a completed stream stores the reply, retitles a first exchange and ends with `done`; a throw while streaming stores nothing more and answers per `AfterThrow` |
| `ChatRoutes.PostMessage` | server/replit_integrations/chat/routes.ts:77-148 | 400 before anything is stored; the provider sees the system prompt and the history ending with the new message; a completed send stores both messages and writes the deltas then `done`; a throw keeps the user's message and ends with an error event or a 500 |
| `Lines.Split` | client/src/pages/chat.tsx:115 | `split("\n")` gives at least one piece |
| `Lines.SplitHasNoLineFeed` | client/src/pages/chat.tsx:115 | no piece holds a line feed |
| `Lines.JoinSplit` | client/src/pages/chat.tsx:115 | splitting loses nothing: joining the pieces with line feeds gives the text back |
| `Lines.SplitLine` | client/src/pages/chat.tsx:115 | a text without a line feed is one piece |
| `Lines.SplitFirst` | client/src/pages/chat.tsx:115 | a line ended by a line feed is the first piece, followed by the pieces of the rest |
| `Lines.SplitJoin` | client/src/pages/chat.tsx:115 | lines without line feeds, joined, split back into the same lines |
| `Lines.DataPayloads` | client/src/pages/chat.tsx:117-120 | every payload comes from a `data: ` line, every `data: ` line gives its payload, and there are no more payloads than lines |
| `Lines.DataPayloadsAppend` | client/src/pages/chat.tsx:117-120 | the payloads of two runs of lines are the payloads of the first followed by those of the second |
| `Lines.DataLineParts` | client/src/pages/chat.tsx:118-120 | `startsWith("data: ")` and `slice(6)` split a line into `data: ` and a payload exactly when the line is `data: ` followed by that payload |
| `Lines.SkipsOtherLines` | client/src/pages/chat.tsx:118 | a line that does not start with `data: ` contributes nothing wherever it stands |
| `EventStream.WireAppend` | server/replit_integrations/chat/routes.ts:119-136 | the body written is the frames of the events in the order they were written |
| `Lines.FramedEventRead` | server/replit_integrations/chat/routes.ts:123-142 | every event frame ends with a line feed and, read whole, yields exactly its JSON |
| `Lines.FrameLines` | server/replit_integrations/chat/routes.ts:123 | one framed event splits into its `data: ` line and the empty line, and yields exactly its JSON |
| `Lines.WholeEventRead` | client/src/pages/chat.tsx:114-120 | an event that arrives in one read yields its JSON |
| `Lines.CutEventRead` | client/src/pages/chat.tsx:114-120 | an event cut inside its `data: ` line yields the truncated head and nothing from the rest |
| `Lines.StraddledLineIsLost` | client/src/pages/chat.tsx:114-120 | the same bytes read in two pieces yield a different, truncated payload than read whole |
| `Lines.SplitAppend` | client/src/pages/chat.tsx:115 | splitting a concatenation is the complete lines of the first part, then the split of its unfinished piece with the rest |
| `Lines.BufferedIsWholeStream` | client/src/pages/chat.tsx:110-120 | a reader that carries the unfinished piece to the next read finds the payloads of the whole stream's complete lines, however it was cut |
| `Lines.EndsWithLineFeed` | client/src/pages/chat.tsx:114-115 | a read ending with a line feed leaves no unfinished piece, and its payloads are those of its complete lines |
| `Lines.AlignedReadsAgree` | client/src/pages/chat.tsx:110-120 | when every read ends with a line feed, the per-read split as written finds what the carrying reader finds, which keeps nothing back: the payloads of the whole stream's lines |
| `ChatClient.Step` | client/src/pages/chat.tsx:119-130 | one payload only extends the text on screen at its end and only adds invalidations; streaming never restarts, and a `done` payload ends it |
| `ChatClient.Consume` | client/src/pages/chat.tsx:117-135 | after any run of payloads the text on screen extends the start text, no invalidation is undone, and streaming has not restarted |
| `ChatClient.ConsumeAppend` | client/src/pages/chat.tsx:110-136 | consuming two stretches of payloads is consuming the first, then the second from where it left off |
| `ChatClient.ShowsEveryContent` | client/src/pages/chat.tsx:121-125 | the text on screen is the start text followed by every parsed `content`, in order |
| `ChatClient.SettlesOnDone` | client/src/pages/chat.tsx:126-130 | streaming stops exactly when a `done` payload arrives, which invalidates the conversation and the list; nothing is invalidated otherwise |
| `ChatClient.SkipsParseFailures` | client/src/pages/chat.tsx:119-133 | a payload that fails to parse changes nothing |
| `ChatClient.Optimistic` | client/src/pages/chat.tsx:82-91 | the new message is appended to the cached conversation if one is cached; no other entry changes and no entry is created |
| `ChatClient.ChatPage.constructor` | client/src/pages/chat.tsx:20-22 | no conversation selected, not streaming, nothing shown |
| `ChatClient.ChatPage.SendMessage` | client/src/pages/chat.tsx:68-141 | no selection (or id 0) or an ongoing stream: nothing happens; otherwise the optimistic append and the POST, then either a failed fetch ends streaming with nothing shown, or the screen is the fold of every parsed payload of every read, with streaming ended if a read throws |
| `ChatClient.ChatPage.ReadChunk` | client/src/pages/chat.tsx:114-135 | one read extends the fold by the payloads of that read's lines |
| `ChatClient.ChatPage.ReadLine` | client/src/pages/chat.tsx:118-134 | a `data: ` line is one step of the fold; any other line changes nothing |
| `ChatClient.NextLine` | client/src/pages/chat.tsx:117-134 | one more line is one more fold step exactly when it is a `data: ` line |
| `ChatClient.NextPayload` | client/src/pages/chat.tsx:120-130 | one more payload is one more fold step |
| `Pipeline.WirePayloads` | server/replit_integrations/chat/routes.ts:123 | the browser's line filter applied to framed events finds exactly their JSON texts |
| `Pipeline.ChunkedPayloads` | client/src/pages/chat.tsx:110-120 | reads that end on event boundaries lose nothing: the browser sees every JSON text, in order |
| `Pipeline.DecodesRelayed` | client/src/pages/chat.tsx:120 | with a faithful codec the browser decodes exactly what the relay wrote |
| `Pipeline.ConsumeRelayed` | client/src/pages/chat.tsx:117-130 | consuming the relayed events shows their content text and stops streaming exactly when `done` is among them |
| `Pipeline.CompletedSendIsShown` | server/replit_integrations/chat/routes.ts:117-137 | after a completed send the browser shows exactly the stored reply, stops streaming and refetches both queries |
| `Pipeline.HasContentEvent` | server/replit_integrations/chat/routes.ts:121-123 | a non-empty delta always produces a content event |
| `Pipeline.ErrorEventLeavesStreaming` | client/src/pages/chat.tsx:117-135 | a send that throws after a non-empty delta ends with an error event that leaves the browser streaming, with nothing invalidated |
| `Pipeline.SettlingShowsSameText` | client/src/pages/chat.tsx:121-125 | the corrected consumer shows the same text and invalidates the same queries as the one written |
| `Pipeline.SettlingEndsOnLast` | client/src/pages/chat.tsx:126-130 | the corrected consumer is not streaming after an error or `done` payload |
| `Pipeline.SendAlwaysSettles` | client/src/pages/chat.tsx:126-130 | for both stream shapes the handler writes, completed or broken off, the corrected consumer ends not streaming and shows the relayed text |
| `ChatInputBox.Leading` | client/src/components/chat-input.tsx:17 | the leading run of white space, ending at a character that is not white space |
| `ChatInputBox.Trailing` | client/src/components/chat-input.tsx:17 | the trailing run of white space, starting after a character that is not white space |
| `ChatInputBox.TrimSlice` | client/src/components/chat-input.tsx:17 | the trimmed text is a slice of the text with only white space cut off either end, and starts and ends with a character that is not white space |
| `ChatInputBox.TrimEmptyIff` | client/src/components/chat-input.tsx:17-18 | the trimmed text is empty exactly when the text is all white space |
| `ChatInputBox.TrimIdempotent` | client/src/components/chat-input.tsx:17 | trimming twice is trimming once |
| `ChatInputBox.SentIsTrimmed` | client/src/components/chat-input.tsx:17-19 | what is sent is non-empty, has no white space at either end, and is its own trim |
| `ChatInputBox.ChatInput.constructor` | client/src/components/chat-input.tsx:13 | the box starts empty and nothing has been sent |
| `ChatInputBox.ChatInput.Edit` | client/src/components/chat-input.tsx:47 | typing replaces the buffer and sends nothing |
| `ChatInputBox.ChatInput.SendDisabled` | client/src/components/chat-input.tsx:58 | the button is disabled exactly when the box is disabled or holds only white space |
| `ChatInputBox.ChatInput.HandleSubmit` | client/src/components/chat-input.tsx:16-25 | when the button would be enabled, the trimmed text is sent once and the buffer cleared; otherwise nothing changes |
| `ChatInputBox.ChatInput.HandleKeyDown` | client/src/components/chat-input.tsx:27-32 | the default is prevented exactly for Enter without Shift, which submits; other keys change nothing |
| `Auth.FindFirst` | server/auth.ts:87-91 | a `LIMIT 1` lookup returns a stored row that matches, and None exactly when no row matches |
| `Auth.InsertUser` | server/auth.ts:60-63 | inserting with the next id and an unused email and username keeps ids increasing and emails and usernames unique |
| `Auth.UniqueLookup` | server/auth.ts:87-91 | in a valid table a lookup by email, username or id finds the one user who has it |
| `Auth.ErrorTextIdentifies` | server/auth.ts:23-144 | the `error` texts the handlers answer with are all different, so the text identifies the error; an unknown email and a wrong password share one |
| `Auth.RequireAuth` | server/auth.ts:21-26 | `next` is called exactly when the session holds a truthy `userId`; otherwise 401 "Unauthorized" |
| `Auth.Session.constructor` | server/auth.ts:7-11 | a new session holds no user |
| `Auth.UserTable.constructor` | server/auth.ts:60-63 | the table starts empty and valid |
| `Auth.UserTable.Insert` | server/auth.ts:60-63 | one user is appended with the next id and returned; the table stays valid |
| `Auth.Register` | server/auth.ts:29-76 | 400 on a rejected body; the email is checked before the username; a taken one gives its 400 with nothing stored; otherwise exactly one user is stored with the hash of the password, signed in, and answered 201 with id, username and email only; a throw gives 500 with nothing stored |
| `Auth.Login` | server/auth.ts:78-113 | an unknown email and a wrong password both give 401 "Invalid email or password" and leave the session alone; a matching password signs in that user and answers with their public fields |
| `Auth.Logout` | server/auth.ts:115-123 | a destroyed session no longer passes `requireAuth`; a failed destroy gives 500 |
| `Auth.Me` | server/auth.ts:125-146 | 401 without a session user; 500 when the lookup throws; 401 when no row has the session's id; otherwise that user's public fields; nothing changes |

## Left out

- The database, the provider and the network are not modelled as such. Each
  is a value, or an input naming the call that throws. Concurrent requests
  and interleaved sends are not modelled.
- `ChatRoutes.Title`: the 40-character test and cut count characters (code
  points), while `length` and `substring` count UTF-16 code units. The two
  differ for text outside the Basic Multilingual Plane: 25 emoji stay whole
  here, while the code keeps 20 and adds "...". A cut between the two halves
  of a surrogate pair, which the code can make, gives a lone surrogate; a Dafny
  string cannot hold one.
- `ChatRoutes.PostMessage`: when reading the history or opening the stream
  throws, it states only that exactly one message was added.
  `ChatRoutes.SaveTurn` states which message that is.
- `ChatStorage.ChatStore.GetMessagesByConversation`: it gives the oldest-first
  order only when the table's timestamps increase. That holds under the
  store invariant the other members keep.
- `ChatClient.ChatPage.SendMessage`: React state updates are modelled as
  immediate assignments. So the guard reads the latest `isStreaming`, not the
  value captured by the callback.
  - `scrollToBottom` and the `setTimeout` are left out.
  - UTF-8 decoding is left out: every read is already text.
- The completion request's model name and token limit are left out. So are
  the response headers, `console.error` and the `details` field of a 400 body.
- `parseInt` of the path id is left out: handlers take an integer id. A
  non-numeric id (NaN) is not modelled.
- `shared/schema.ts` is not part of this model. So the messages table's
  constraints (such as a foreign key to `conversations`) are not modelled: an
  insert for a missing conversation is not known to be rejected, and the
  `SaveUserFails` input stands for any such rejection.
- `registerSchema` and `loginSchema` live in `shared/schema.ts`, which is not
  part of this model. Only whether the body parses is an input. Likewise the
  `users` table's own constraints are not modelled: uniqueness of email and
  username is what the register handler's checks keep.
- Serial ids are assumed to start at 1 and grow by one.
- `Auth.Login`: `throws` covers both the lookup and the password comparison
  throwing. Either way the answer is 500 and the session is untouched.
- bcrypt's salt and cost, the cookie clearing on logout, and the session
  store are left out.
- The textarea's automatic height and the chat page's rendering are left out.

## Findings

| source | as written | input that shows it | evidently intended | confidence | as-written member | corrected member |
|---|---|---|---|---|---|---|
| client/src/pages/chat.tsx:117-135 | the read loop reacts to `content` and `done` only, so the `{error}` event the send handler writes after a mid-stream throw (server/replit_integrations/chat/routes.ts:141-143) leaves `isStreaming` true; the input box stays disabled (chat.tsx:248) and the guard (chat.tsx:69) refuses every later send until a reload | deltas `["Hi"]` with the reply save throwing: the body is `data: {"content":"Hi"}` then `data: {"error":"Failed to send message"}` | an error event ends the stream as `done` does | not executed | `Pipeline.ErrorEventLeavesStreaming` | `Pipeline.SendAlwaysSettles` |
| client/src/pages/chat.tsx:114-120 | each read is split into lines on its own, so a `data: ` line cut by a read boundary is parsed as two pieces: the head is truncated JSON (a parse error that is swallowed) and the tail is not a data line | reads `data: {` and `}` followed by two line feeds: the event `{}` is never seen | keep the unfinished last piece of each read and put it in front of the next one | not executed | `Lines.StraddledLineIsLost` | `Lines.BufferedIsWholeStream` |
