/**
 * The chat HTTP handlers: list, get, create and delete a conversation, and the
 * streaming send handler that stores the user's message, relays the provider's
 * deltas as server-sent events, stores the reply and titles a new conversation.
 *
 * Each handler takes the caller's user id explicitly. A thrown storage or
 * provider error is an input: `storeFails` for the handlers whose storage calls
 * change nothing before they throw, a `DeleteFault` naming the call that throws
 * for the delete handler, and a `Failure` naming the awaited call that throws
 * for the send handler.
 *
 * The zod schemas' length limits are counted in UTF-16 code units
 * (`Utf16Length`); the automatic title's test and cut (`Title`) count
 * characters.
 */
module ChatRoutes {
  import opened Wrappers
  import opened Seqs
  import opened Schema
  import opened ChatStorage
  import opened EventStream

  const MaxTitleLength := 200
  const MaxContentLength := 50000
  /** Characters of the first message kept in an automatic title. */
  const TitleBudget := 40
  const Ellipsis := "..."
  const DefaultTitle := "New Chat"
  const InvalidBody := "Invalid request body"
  const SendFailed := "Failed to send message"
  const SystemPrompt := "You are a warm, friendly AI companion. You're here to chat, listen, and provide thoughtful responses. You're empathetic, supportive, and genuinely interested in the person you're talking to. Keep your responses conversational and natural - like talking to a good friend. Be helpful when asked questions, but also comfortable with casual chat. Use a warm, caring tone while being authentic and honest."

  /** The body of `POST /api/conversations` once it is an object whose `title`, if present, is a string. */
  datatype CreateRequest = CreateRequest(title: Option<string>)

  datatype Body =
    | ErrorBody(error: string)
    | ConversationBody(conversation: Conversation)
    | ConversationDetail(conversation: Conversation, messages: seq<Message>)
    | ConversationList(conversations: seq<Conversation>)
    | EventBody(events: seq<Payload>)
    | NoBody

  /** What the handler sends: a status and a JSON body, or a 200 event stream of payloads. */
  datatype Reply = Reply(status: int, body: Body)

  /** One entry of the context sent to the completion provider. */
  datatype Turn = SystemTurn(content: string) | MessageTurn(role: Role, content: string)

  /** The completion stream: each chunk's `delta.content` ("" when absent), then whether iterating further throws. */
  datatype Upstream = Upstream(deltas: seq<string>, breaks: bool)

  /** The awaited call of the send handler that throws, if any. */
  datatype Failure = NoFailure | SaveUserFails | LoadHistoryFails | OpenStreamFails | SaveReplyFails | SaveTitleFails

  /** A JavaScript string's `length`: its UTF-16 code units, two for a character outside the Basic Multilingual Plane. */
  function Utf16Length(s: string): (n: nat)
    ensures |s| <= n <= 2 * |s|
    ensures n == |s| <==> forall i :: 0 <= i < |s| ==> s[i] <= '\U{FFFF}'
    decreases |s|
  {
    if s == [] then 0
    else Utf16Length(s[..|s| - 1]) + (if s[|s| - 1] <= '\U{FFFF}' then 1 else 2)
  }

  /** `sendMessageSchema`: content is a string of 1 to 50000 UTF-16 code units. */
  predicate ValidContent(content: Option<string>)
  {
    content.Some? && 1 <= Utf16Length(content.value) <= MaxContentLength
  }

  /**
   * What the send handler accepts: never an empty message or one of more than
   * 50000 characters; every non-empty message of at most 25000 characters; and,
   * for text inside the Basic Multilingual Plane, exactly 1 to 50000 characters.
   */
  lemma ContentAccepted(s: string)
    ensures ValidContent(Some(s)) ==> 1 <= |s| <= MaxContentLength
    ensures 1 <= |s| && 2 * |s| <= MaxContentLength ==> ValidContent(Some(s))
    ensures (forall i :: 0 <= i < |s| ==> s[i] <= '\U{FFFF}') ==> (ValidContent(Some(s)) <==> 1 <= |s| <= MaxContentLength)
    ensures !ValidContent(None)
  {
  }

  /**
   * `createConversationSchema` followed by `title || "New Chat"`: the title a
   * new conversation gets, or None when the body is rejected.
   */
  function CreateTitle(body: Option<CreateRequest>): (r: Option<string>)
    ensures r.Some? <==> body.Some? && (body.value.title.None? || 1 <= Utf16Length(body.value.title.value) <= MaxTitleLength)
    ensures r.Some? ==> 1 <= |r.value| && Utf16Length(r.value) <= MaxTitleLength
    ensures r.Some? && body.value.title.None? ==> r.value == DefaultTitle
    ensures r.Some? && body.value.title.Some? ==> r.value == body.value.title.value
  {
    match body
    case None => None
    case Some(CreateRequest(None)) => Some(DefaultTitle)
    case Some(CreateRequest(Some(t))) => if 1 <= Utf16Length(t) <= MaxTitleLength then Some(t) else None
  }

  /** The automatic title: the first message, cut to 40 characters plus an ellipsis when longer. */
  function Title(content: string): (t: string)
    ensures |t| <= TitleBudget + |Ellipsis|
    ensures |content| <= TitleBudget ==> t == content
    ensures |content| > TitleBudget ==> |t| == TitleBudget + |Ellipsis| && t[..TitleBudget] == content[..TitleBudget] && t[TitleBudget..] == Ellipsis
  {
    if |content| > TitleBudget then content[..TitleBudget] + Ellipsis else content
  }

  /** The stored history as provider turns, oldest first. */
  function History(ms: seq<Message>): seq<Turn>
  {
    seq(|ms|, i requires 0 <= i < |ms| => MessageTurn(ms[i].role, ms[i].content))
  }

  /** The context of the completion request: the fixed system prompt, then the whole history. */
  function Prompt(ms: seq<Message>): seq<Turn>
  {
    [SystemTurn(SystemPrompt)] + History(ms)
  }

  /**
   * The context starts with the system prompt, which appears nowhere else, and
   * then has one turn per stored message; a message stored last is the last turn.
   */
  lemma {:induction false} PromptAppend(ms: seq<Message>, m: Message)
    ensures |Prompt(ms)| == |ms| + 1 && Prompt(ms)[0] == SystemTurn(SystemPrompt)
    ensures forall i :: 1 <= i < |Prompt(ms)| ==> Prompt(ms)[i].MessageTurn?
    ensures Prompt(ms + [m]) == Prompt(ms) + [MessageTurn(m.role, m.content)]
  {
    assert History(ms + [m]) == History(ms) + [MessageTurn(m.role, m.content)];
  }

  /** The content events written for a stream of deltas: one per non-empty delta, in arrival order. */
  function ContentEvents(deltas: seq<string>): (r: seq<Payload>)
    ensures |r| <= |deltas|
    ensures forall e :: e in r ==> e.Content? && e.content != ""
    decreases |deltas|
  {
    if deltas == [] then []
    else
      var last := deltas[|deltas| - 1];
      ContentEvents(deltas[..|deltas| - 1]) + (if last != "" then [Content(last)] else [])
  }

  const NonEmpty: string -> bool := (s: string) => s != ""

  /** Exactly the non-empty deltas become content events, one each, in the order they arrived. */
  lemma {:induction false} ContentEventsKeepNonEmpty(deltas: seq<string>)
    ensures var kept := Filter(deltas, NonEmpty);
      ContentEvents(deltas) == seq(|kept|, i requires 0 <= i < |kept| => Content(kept[i]))
    decreases |deltas|
  {
    if deltas != [] {
      var init, last := deltas[..|deltas| - 1], deltas[|deltas| - 1];
      ContentEventsKeepNonEmpty(init);
      var kept := Filter(deltas, NonEmpty);
      var before := Filter(init, NonEmpty);
      assert kept == before + (if last != "" then [last] else []);
      var events := seq(|kept|, i requires 0 <= i < |kept| => Content(kept[i]));
      assert events[..|before|] == seq(|before|, i requires 0 <= i < |before| => Content(before[i]));
      assert ContentEvents(deltas) == ContentEvents(init) + (if last != "" then [Content(last)] else []);
    }
  }

  /** What the client is shown and what is stored agree: the content events spell out the whole reply. */
  lemma {:induction false} RelayedTextIsStored(deltas: seq<string>)
    ensures ContentText(ContentEvents(deltas)) == Concat(deltas)
    decreases |deltas|
  {
    if deltas != [] {
      var init, last := deltas[..|deltas| - 1], deltas[|deltas| - 1];
      RelayedTextIsStored(init);
      var head := ContentEvents(init);
      var tail: seq<Payload> := if last != "" then [Content(last)] else [];
      ContentTextAppend(head, tail);
      assert ContentText(tail) == last by {
        if last != "" {
          assert tail[..0] == [];
        }
      }
    }
  }

  /** The reply once something threw: an in-band error event if a write already sent the headers, else a 500. */
  function AfterThrow(written: seq<Payload>): (r: Reply)
    ensures written == [] <==> r.status == 500
    ensures written == [] ==> r.body == ErrorBody(SendFailed)
    ensures written != [] ==>
      && r.status == 200 && r.body.EventBody?
      && |r.body.events| == |written| + 1
      && r.body.events[..|written|] == written
      && r.body.events[|written|] == Error(SendFailed)
  {
    if |written| > 0 then Reply(200, EventBody(written + [Error(SendFailed)]))
    else Reply(500, ErrorBody(SendFailed))
  }

  /** The `for await` loop: forwards every non-empty delta as one content event and accumulates it. */
  method Relay(deltas: seq<string>) returns (fullResponse: string, written: seq<Payload>)
    ensures written == ContentEvents(deltas)
    ensures fullResponse == Concat(deltas)
    ensures ContentText(written) == fullResponse
  {
    fullResponse, written := "", [];
    for i := 0 to |deltas|
      invariant written == ContentEvents(deltas[..i])
      invariant fullResponse == Concat(deltas[..i])
    {
      var content := deltas[i];
      assert deltas[..i + 1][..i] == deltas[..i];
      if content != "" {
        fullResponse := fullResponse + content;
        written := written + [Content(content)];
      }
    }
    assert deltas[..|deltas|] == deltas;
    RelayedTextIsStored(deltas);
  }

  /** `GET /api/conversations`. */
  method GetConversations(store: ChatStore, userId: int, storeFails: bool) returns (reply: Reply)
    requires store.Valid()
    ensures storeFails ==> reply == Reply(500, ErrorBody("Failed to fetch conversations"))
    ensures !storeFails ==> reply.status == 200 && reply.body.ConversationList?
    ensures !storeFails ==> forall c :: c in reply.body.conversations <==> c in store.conversations && c.userId == userId
    ensures !storeFails ==> Decreasing(reply.body.conversations, ConversationTime)
  {
    if storeFails {
      return Reply(500, ErrorBody("Failed to fetch conversations"));
    }
    reply := Reply(200, ConversationList(store.GetAllConversations(userId)));
  }

  /** `GET /api/conversations/:id`: the caller's conversation with its messages oldest first, or 404. */
  method GetConversationById(store: ChatStore, id: int, userId: int, storeFails: bool) returns (reply: Reply)
    requires store.Valid()
    ensures storeFails ==> reply == Reply(500, ErrorBody("Failed to fetch conversation"))
    ensures !storeFails && (forall c :: c in store.conversations ==> c.id != id || c.userId != userId) ==>
      reply == Reply(404, ErrorBody("Conversation not found"))
    ensures !storeFails && reply.status == 200 ==>
      && reply.body.ConversationDetail?
      && reply.body.conversation in store.conversations
      && reply.body.conversation.id == id && reply.body.conversation.userId == userId
      && (forall m :: m in reply.body.messages <==> m in store.messages && m.conversationId == id)
      && Increasing(reply.body.messages, MessageTime)
    ensures !storeFails ==> reply.status in {200, 404}
    ensures !storeFails ==> (reply.status == 200 <==> exists c :: c in store.conversations && c.id == id && c.userId == userId)
  {
    if storeFails {
      return Reply(500, ErrorBody("Failed to fetch conversation"));
    }
    var conversation := store.GetConversation(id, userId);
    if conversation.None? {
      return Reply(404, ErrorBody("Conversation not found"));
    }
    var messages := store.GetMessagesByConversation(id);
    reply := Reply(200, ConversationDetail(conversation.value, messages));
  }

  /** `POST /api/conversations`: 400 on a rejected body, else 201 with the new conversation. */
  method PostConversation(store: ChatStore, body: Option<CreateRequest>, userId: int, storeFails: bool) returns (reply: Reply)
    requires store.Valid()
    modifies store
    ensures store.Valid()
    ensures CreateTitle(body).None? ==> reply == Reply(400, ErrorBody(InvalidBody)) && unchanged(store)
    ensures CreateTitle(body).Some? && storeFails ==> reply == Reply(500, ErrorBody("Failed to create conversation")) && unchanged(store)
    ensures CreateTitle(body).Some? && !storeFails ==>
      var c := Conversation(old(store.nextConversationId), CreateTitle(body).value, userId, old(store.clock));
      && reply == Reply(201, ConversationBody(c))
      && store.conversations == old(store.conversations) + [c]
      && store.messages == old(store.messages)
  {
    var title := CreateTitle(body);
    if title.None? {
      return Reply(400, ErrorBody(InvalidBody));
    }
    if storeFails {
      return Reply(500, ErrorBody("Failed to create conversation"));
    }
    var c := store.CreateConversation(title.value, userId);
    reply := Reply(201, ConversationBody(c));
  }

  /**
   * `DELETE /api/conversations/:id`: 204 whether or not anything was deleted,
   * 500 when one of the storage calls throws, with whatever the calls before it
   * deleted staying deleted.
   */
  method DeleteConversationById(store: ChatStore, id: int, userId: int, fault: DeleteFault) returns (reply: Reply)
    requires store.Valid()
    modifies store
    ensures store.Valid()
    ensures fault == NoDeleteFault || (fault != SelectThrows && old(store.GetConversation(id, userId)).None?) ==>
      reply == Reply(204, NoBody)
    ensures fault == SelectThrows || (fault != NoDeleteFault && old(store.GetConversation(id, userId)).Some?) ==>
      reply == Reply(500, ErrorBody("Failed to delete conversation"))
    ensures fault == SelectThrows || old(store.GetConversation(id, userId)).None? ==> unchanged(store)
    ensures old(store.GetConversation(id, userId)).Some? && fault == MessagesDeleteThrows ==> unchanged(store)
    ensures old(store.GetConversation(id, userId)).Some? && (fault == NoDeleteFault || fault == ConversationDeleteThrows) ==>
      store.messages == Filter(old(store.messages), OutsideConversation(id))
    ensures old(store.GetConversation(id, userId)).Some? && fault == NoDeleteFault ==>
      store.conversations == Filter(old(store.conversations), OtherThan(id))
    ensures old(store.GetConversation(id, userId)).Some? && fault == ConversationDeleteThrows ==>
      store.conversations == old(store.conversations)
  {
    var completed := store.DeleteConversation(id, userId, fault);
    if !completed {
      return Reply(500, ErrorBody("Failed to delete conversation"));
    }
    reply := Reply(204, NoBody);
  }

  /**
   * The part of the send handler after the context is sent: relay the stream,
   * store the reply, title a conversation whose history was just the new
   * message, and write `done` last. A throw on the way stops it where it is.
   */
  method Answer(store: ChatStore, conversationId: int, text: string, history: seq<Message>, upstream: Upstream, failure: Failure)
    returns (reply: Reply)
    requires store.Valid()
    modifies store
    ensures store.Valid()
    ensures upstream.breaks || failure == SaveReplyFails ==>
      reply == AfterThrow(ContentEvents(upstream.deltas)) && unchanged(store)
    ensures !upstream.breaks && failure != SaveReplyFails ==>
      var assistant := Message(old(store.nextMessageId), conversationId, Assistant, Concat(upstream.deltas), old(store.clock));
      && store.messages == old(store.messages) + [assistant]
      && (|history| == 1 && failure == SaveTitleFails ==>
            reply == AfterThrow(ContentEvents(upstream.deltas)) && store.conversations == old(store.conversations))
      && (|history| == 1 && failure != SaveTitleFails ==>
            Retitles(old(store.conversations), store.conversations, conversationId, Title(text)))
      && (|history| != 1 ==> store.conversations == old(store.conversations))
      && (|history| != 1 || failure != SaveTitleFails ==>
            reply == Reply(200, EventBody(ContentEvents(upstream.deltas) + [Done])))
  {
    var fullResponse, written := Relay(upstream.deltas);
    if upstream.breaks || failure == SaveReplyFails {
      return AfterThrow(written);
    }
    var assistant := store.CreateMessage(conversationId, Assistant, fullResponse);
    if |history| == 1 {
      if failure == SaveTitleFails {
        return AfterThrow(written);
      }
      store.UpdateConversationTitle(conversationId, Title(text));
    }
    reply := Reply(200, EventBody(written + [Done]));
  }

  /**
   * The first two awaits of the send: the user's message is stored, then the
   * conversation's messages are read back as the history the provider will
   * see. `None` when either of them throws.
   */
  method SaveTurn(store: ChatStore, conversationId: int, text: string, failure: Failure)
    returns (history: Option<seq<Message>>)
    requires store.Valid()
    modifies store
    ensures store.Valid()
    ensures failure == SaveUserFails ==> history == None && unchanged(store)
    ensures failure != SaveUserFails ==>
      var user := Message(old(store.nextMessageId), conversationId, User, text, old(store.clock));
      && store.messages == old(store.messages) + [user]
      && store.conversations == old(store.conversations)
      && store.clock == old(store.clock) + 1
      && store.nextMessageId == old(store.nextMessageId) + 1
      && store.nextConversationId == old(store.nextConversationId)
      && (failure == LoadHistoryFails ==> history == None)
      && (failure != LoadHistoryFails ==> history == Some(old(store.GetMessagesByConversation(conversationId)) + [user]))
  {
    if failure == SaveUserFails {
      return None;
    }
    ghost var before := store.messages;
    var user := store.CreateMessage(conversationId, User, text);
    if failure == LoadHistoryFails {
      return None;
    }
    var messages := store.GetMessagesByConversation(conversationId);
    AppendToThread(before, user, conversationId);
    history := Some(messages);
  }

  /**
   * `POST /api/conversations/:id/messages`, the streaming send. `request` is the
   * context handed to the provider, if the handler gets that far. The
   * conversation's existence and owner are not checked.
   */
  method PostMessage(store: ChatStore, conversationId: int, content: Option<string>, upstream: Upstream, failure: Failure)
    returns (reply: Reply, request: Option<seq<Turn>>)
    requires store.Valid()
    modifies store
    ensures store.Valid()
    // A rejected body is answered before anything is stored.
    ensures !ValidContent(content) ==> reply == Reply(400, ErrorBody(InvalidBody)) && request == None && unchanged(store)
    // A throw before the stream opens is a 500; the user's message stays stored if it got that far.
    ensures ValidContent(content) && failure == SaveUserFails ==>
      reply == Reply(500, ErrorBody(SendFailed)) && request == None && unchanged(store)
    ensures ValidContent(content) && (failure == LoadHistoryFails || failure == OpenStreamFails) ==>
      reply == Reply(500, ErrorBody(SendFailed)) && |store.messages| == |old(store.messages)| + 1
    // Otherwise the provider sees the system prompt, then the history ending with the new message.
    ensures ValidContent(content) && failure != SaveUserFails && failure != LoadHistoryFails ==>
      var user := Message(old(store.nextMessageId), conversationId, User, content.value, old(store.clock));
      request == Some(Prompt(old(store.GetMessagesByConversation(conversationId)) + [user]))
    // A throw while streaming or while storing the reply: only the user's message is stored.
    ensures ValidContent(content) && (failure == SaveReplyFails || (upstream.breaks && failure != SaveUserFails && failure != LoadHistoryFails && failure != OpenStreamFails)) ==>
      var user := Message(old(store.nextMessageId), conversationId, User, content.value, old(store.clock));
      && reply == AfterThrow(ContentEvents(upstream.deltas))
      && store.messages == old(store.messages) + [user]
      && store.conversations == old(store.conversations)
    // A completed stream: both messages are stored, the reply is the deltas and then `done`.
    ensures ValidContent(content) && (failure == NoFailure || failure == SaveTitleFails) && !upstream.breaks ==>
      var user := Message(old(store.nextMessageId), conversationId, User, content.value, old(store.clock));
      var assistant := Message(old(store.nextMessageId) + 1, conversationId, Assistant, Concat(upstream.deltas), old(store.clock) + 1);
      var firstExchange := old(store.GetMessagesByConversation(conversationId)) == [];
      && store.messages == old(store.messages) + [user, assistant]
      && (firstExchange && failure == NoFailure ==>
            Retitles(old(store.conversations), store.conversations, conversationId, Title(content.value)))
      && (!firstExchange || failure == SaveTitleFails ==> store.conversations == old(store.conversations))
      && (!firstExchange || failure == NoFailure ==> reply == Reply(200, EventBody(ContentEvents(upstream.deltas) + [Done])))
      && (firstExchange && failure == SaveTitleFails ==> reply == AfterThrow(ContentEvents(upstream.deltas)))
  {
    if !ValidContent(content) {
      return Reply(400, ErrorBody(InvalidBody)), None;
    }
    var history := SaveTurn(store, conversationId, content.value, failure);
    if history.None? {
      return Reply(500, ErrorBody(SendFailed)), None;
    }
    request := Some(Prompt(history.value));
    if failure == OpenStreamFails {
      return Reply(500, ErrorBody(SendFailed)), request;
    }
    reply := Answer(store, conversationId, content.value, history.value, upstream, failure);
  }
}
