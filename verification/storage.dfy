/**
 * The chat store: two tables, `conversations` and `messages`, kept in insertion
 * order, with the seven operations of the storage interface. Insertion order is
 * also creation order because every insert takes the next tick of `clock`.
 */
module ChatStorage {
  import opened Wrappers
  import opened Seqs
  import opened Schema

  function ConversationKey(c: Conversation): int { c.id }
  function ConversationTime(c: Conversation): int { c.createdAt }
  function MessageKey(m: Message): int { m.id }
  function MessageTime(m: Message): int { m.createdAt }

  // The WHERE conditions of the store's queries.
  function Selects(id: int, userId: int): Conversation -> bool { (c: Conversation) => c.id == id && c.userId == userId }
  function OwnedBy(userId: int): Conversation -> bool { (c: Conversation) => c.userId == userId }
  function OtherThan(id: int): Conversation -> bool { (c: Conversation) => c.id != id }
  function InConversation(conversationId: int): Message -> bool { (m: Message) => m.conversationId == conversationId }
  function OutsideConversation(conversationId: int): Message -> bool { (m: Message) => m.conversationId != conversationId }

  /** The database call of `deleteConversation` that throws, if any: the select, the message delete or the conversation delete. */
  datatype DeleteFault = NoDeleteFault | SelectThrows | MessagesDeleteThrows | ConversationDeleteThrows

  /** The row after `UPDATE conversations SET title = title WHERE id = id`. */
  function Retitled(c: Conversation, id: int, title: string): Conversation
  {
    if c.id == id then c.(title := title) else c
  }

  /**
   * `after` is `before` row by row with the same id, owner and creation time;
   * the title is the new one exactly on the rows keyed `id`.
   */
  ghost predicate Retitles(before: seq<Conversation>, after: seq<Conversation>, id: int, title: string)
  {
    && |after| == |before|
    && (forall i :: 0 <= i < |before| ==>
          && after[i].id == before[i].id
          && after[i].userId == before[i].userId
          && after[i].createdAt == before[i].createdAt
          && after[i].title == (if before[i].id == id then title else before[i].title))
  }

  /** Deleting the messages of one conversation leaves every other conversation's messages as they were. */
  lemma KeepsOtherThreads(ms: seq<Message>, deleted: int, other: int)
    requires other != deleted
    ensures Filter(Filter(ms, OutsideConversation(deleted)), InConversation(other)) == Filter(ms, InConversation(other))
  {
    FilterFilter(ms, OutsideConversation(deleted), InConversation(other));
  }

  /** Deleting the rows with one id leaves every lookup of another id as it was. */
  lemma KeepsOtherConversations(cs: seq<Conversation>, deleted: int, other: int, userId: int)
    requires other != deleted
    ensures Filter(Filter(cs, OtherThan(deleted)), Selects(other, userId)) == Filter(cs, Selects(other, userId))
  {
    FilterFilter(cs, OtherThan(deleted), Selects(other, userId));
  }

  /** Deleting the messages of a conversation leaves it none. */
  lemma EmptiesThread(ms: seq<Message>, deleted: int)
    ensures Filter(Filter(ms, OutsideConversation(deleted)), InConversation(deleted)) == []
  {
    FilterNone(Filter(ms, OutsideConversation(deleted)), InConversation(deleted));
  }

  /**
   * The store's invariant on plain values: in both tables ids and timestamps grow
   * in insertion order and stay below the counters that issue them.
   */
  ghost predicate TablesValid(cs: seq<Conversation>, ms: seq<Message>, nextConversationId: int, nextMessageId: int, clock: int)
  {
    && Increasing(cs, ConversationKey)
    && Increasing(cs, ConversationTime)
    && Increasing(ms, MessageKey)
    && Increasing(ms, MessageTime)
    && (forall i :: 0 <= i < |cs| ==> cs[i].id < nextConversationId && cs[i].createdAt < clock)
    && (forall i :: 0 <= i < |ms| ==> ms[i].id < nextMessageId && ms[i].createdAt < clock)
  }

  /** A conversation stamped with the current counters can be appended; both counters then move on. */
  lemma InsertConversation(cs: seq<Conversation>, ms: seq<Message>, nextConversationId: int, nextMessageId: int, clock: int, c: Conversation)
    requires TablesValid(cs, ms, nextConversationId, nextMessageId, clock)
    requires c.id == nextConversationId && c.createdAt == clock
    ensures TablesValid(cs + [c], ms, nextConversationId + 1, nextMessageId, clock + 1)
  {
    AppendIncreasing(cs, c, ConversationKey);
    AppendIncreasing(cs, c, ConversationTime);
    var t := cs + [c];
    forall i | 0 <= i < |t| ensures t[i].id < nextConversationId + 1 && t[i].createdAt < clock + 1 {
      if i < |cs| {
        assert t[i] == cs[i];
      }
    }
  }

  /** A message stamped with the current counters can be appended; both counters then move on. */
  lemma InsertMessage(cs: seq<Conversation>, ms: seq<Message>, nextConversationId: int, nextMessageId: int, clock: int, m: Message)
    requires TablesValid(cs, ms, nextConversationId, nextMessageId, clock)
    requires m.id == nextMessageId && m.createdAt == clock
    ensures TablesValid(cs, ms + [m], nextConversationId, nextMessageId + 1, clock + 1)
  {
    AppendIncreasing(ms, m, MessageKey);
    AppendIncreasing(ms, m, MessageTime);
    var t := ms + [m];
    forall i | 0 <= i < |t| ensures t[i].id < nextMessageId + 1 && t[i].createdAt < clock + 1 {
      if i < |ms| {
        assert t[i] == ms[i];
      }
    }
  }

  /** The conversations table after `UPDATE conversations SET title = title WHERE id = id`. */
  function RetitleAll(cs: seq<Conversation>, id: int, title: string): (r: seq<Conversation>)
    ensures Retitles(cs, r, id, title)
  {
    seq(|cs|, i requires 0 <= i < |cs| => Retitled(cs[i], id, title))
  }

  /** Retitling keeps every id and timestamp, so it keeps the invariant. */
  lemma RetitleKeepsValid(cs: seq<Conversation>, ms: seq<Message>, nextConversationId: int, nextMessageId: int, clock: int, id: int, title: string)
    requires TablesValid(cs, ms, nextConversationId, nextMessageId, clock)
    ensures TablesValid(RetitleAll(cs, id, title), ms, nextConversationId, nextMessageId, clock)
  {
    var r := RetitleAll(cs, id, title);
    assert forall i :: 0 <= i < |r| ==> r[i].id == cs[i].id && r[i].createdAt == cs[i].createdAt;
  }

  /**
   * The filters of a delete keep rows in order and below the counters, both
   * after the messages are gone and after the conversation is gone too.
   */
  lemma DeleteKeepsValid(cs: seq<Conversation>, ms: seq<Message>, nextConversationId: int, nextMessageId: int, clock: int, id: int)
    requires TablesValid(cs, ms, nextConversationId, nextMessageId, clock)
    ensures TablesValid(cs, Filter(ms, OutsideConversation(id)), nextConversationId, nextMessageId, clock)
    ensures TablesValid(Filter(cs, OtherThan(id)), Filter(ms, OutsideConversation(id)), nextConversationId, nextMessageId, clock)
  {
    FilterIncreasing(ms, OutsideConversation(id), MessageKey);
    FilterIncreasing(ms, OutsideConversation(id), MessageTime);
    FilterIncreasing(cs, OtherThan(id), ConversationKey);
    FilterIncreasing(cs, OtherThan(id), ConversationTime);
    var fc, fm := Filter(cs, OtherThan(id)), Filter(ms, OutsideConversation(id));
    forall i | 0 <= i < |fc| ensures fc[i].id < nextConversationId && fc[i].createdAt < clock {
      assert fc[i] in cs;
    }
    forall i | 0 <= i < |fm| ensures fm[i].id < nextMessageId && fm[i].createdAt < clock {
      assert fm[i] in ms;
    }
  }

  /**
   * Appending a message extends the listing of its own conversation by that
   * message and leaves the listing of every other conversation as it was.
   */
  lemma AppendToThread(ms: seq<Message>, m: Message, conversationId: int)
    ensures Filter(ms + [m], InConversation(conversationId))
         == Filter(ms, InConversation(conversationId)) + (if m.conversationId == conversationId then [m] else [])
  {
    FilterAppend(ms, m, InConversation(conversationId));
  }

  /** A row whose key is above every existing key is the only row its lookup finds. */
  lemma FreshKeyLookup(cs: seq<Conversation>, ms: seq<Message>, nextConversationId: int, nextMessageId: int, clock: int, c: Conversation)
    requires TablesValid(cs, ms, nextConversationId, nextMessageId, clock)
    requires c.id == nextConversationId
    ensures Filter(cs + [c], Selects(c.id, c.userId)) == [c]
  {
    var select := Selects(c.id, c.userId);
    forall d | d in cs ensures !select(d) {
      var i :| 0 <= i < |cs| && cs[i] == d;
      assert d.id < c.id;
    }
    FilterAppend(cs, c, select);
    FilterNone(cs, select);
    assert select(c);
  }

  class ChatStore {
    var conversations: seq<Conversation>
    var messages: seq<Message>
    var clock: int
    var nextConversationId: int
    var nextMessageId: int

    /** Keys and timestamps grow along both tables and stay below the counters that issue them. */
    ghost predicate Valid()
      reads this
    {
      TablesValid(conversations, messages, nextConversationId, nextMessageId, clock)
    }

    constructor ()
      ensures Valid()
      ensures conversations == [] && messages == []
    {
      conversations, messages := [], [];
      clock, nextConversationId, nextMessageId := 0, 1, 1;
    }

    /** `getConversation(id, userId)`: the row with that id, but only when the caller owns it. */
    function GetConversation(id: int, userId: int): (r: Option<Conversation>)
      reads this
      ensures r.Some? ==> r.value in conversations && r.value.id == id && r.value.userId == userId
      ensures r.None? <==> forall c :: c in conversations ==> c.id != id || c.userId != userId
    {
      var rows := Filter(conversations, Selects(id, userId));
      if rows == [] then None else Some(rows[0])
    }

    /** `getAllConversations(userId)`: exactly the caller's conversations, newest first. */
    function GetAllConversations(userId: int): (r: seq<Conversation>)
      reads this
      requires Valid()
      ensures forall c :: c in r <==> c in conversations && c.userId == userId
      ensures Decreasing(r, ConversationTime)
    {
      var owned := Filter(conversations, OwnedBy(userId));
      FilterIncreasing(conversations, OwnedBy(userId), ConversationTime);
      ReverseDecreasing(owned, ConversationTime);
      forall c ensures c in Reverse(owned) <==> c in owned {
        ReverseMembers(owned, c);
      }
      Reverse(owned)
    }

    /** `getMessagesByConversation(conversationId)`: that conversation's messages, oldest first. */
    function GetMessagesByConversation(conversationId: int): (r: seq<Message>)
      reads this
      ensures forall m :: m in r <==> m in messages && m.conversationId == conversationId
      ensures Increasing(messages, MessageTime) ==> Increasing(r, MessageTime)
    {
      FilterKeepsOrder(messages, InConversation(conversationId), MessageTime);
      Filter(messages, InConversation(conversationId))
    }

    /** `createConversation(title, userId)`: inserts one row and returns it. */
    method CreateConversation(title: string, userId: int) returns (c: Conversation)
      requires Valid()
      modifies this
      ensures Valid()
      ensures c == Conversation(old(nextConversationId), title, userId, old(clock))
      ensures conversations == old(conversations) + [c]
      ensures messages == old(messages) && nextMessageId == old(nextMessageId)
      ensures clock == old(clock) + 1 && nextConversationId == old(nextConversationId) + 1
    {
      c := Conversation(nextConversationId, title, userId, clock);
      InsertConversation(conversations, messages, nextConversationId, nextMessageId, clock, c);
      conversations, clock, nextConversationId := conversations + [c], clock + 1, nextConversationId + 1;
    }

    /**
     * `deleteConversation(id, userId)`: nothing happens unless the caller owns the
     * conversation; then its messages go, and then the conversation itself.
     * `fault` names the database call that throws, if any; what the calls
     * before it did stays done. `completed` is false when a call threw.
     */
    method DeleteConversation(id: int, userId: int, fault: DeleteFault) returns (completed: bool)
      requires Valid()
      modifies this
      ensures Valid()
      ensures completed <==> fault == NoDeleteFault || (fault != SelectThrows && old(GetConversation(id, userId)).None?)
      ensures fault == SelectThrows || old(GetConversation(id, userId)).None? ==> unchanged(this)
      ensures old(GetConversation(id, userId)).Some? && fault == MessagesDeleteThrows ==> unchanged(this)
      ensures old(GetConversation(id, userId)).Some? && (fault == NoDeleteFault || fault == ConversationDeleteThrows) ==>
        messages == Filter(old(messages), OutsideConversation(id))
      ensures old(GetConversation(id, userId)).Some? && fault == NoDeleteFault ==>
        conversations == Filter(old(conversations), OtherThan(id))
      ensures old(GetConversation(id, userId)).Some? && fault == ConversationDeleteThrows ==>
        conversations == old(conversations)
      ensures clock == old(clock) && nextConversationId == old(nextConversationId) && nextMessageId == old(nextMessageId)
    {
      if fault == SelectThrows {
        return false;
      }
      var found := GetConversation(id, userId);
      if found.None? {
        return true;
      }
      if fault == MessagesDeleteThrows {
        return false;
      }
      DeleteKeepsValid(conversations, messages, nextConversationId, nextMessageId, clock, id);
      messages := Filter(messages, OutsideConversation(id));
      if fault == ConversationDeleteThrows {
        return false;
      }
      conversations := Filter(conversations, OtherThan(id));
      completed := true;
    }

    /** `updateConversationTitle(id, title)`: retitles the row with that id, whoever owns it. */
    method UpdateConversationTitle(id: int, title: string)
      requires Valid()
      modifies this
      ensures Valid()
      ensures Retitles(old(conversations), conversations, id, title)
      ensures messages == old(messages) && clock == old(clock)
      ensures nextConversationId == old(nextConversationId) && nextMessageId == old(nextMessageId)
    {
      RetitleKeepsValid(conversations, messages, nextConversationId, nextMessageId, clock, id, title);
      conversations := RetitleAll(conversations, id, title);
    }

    /** `createMessage(conversationId, role, content)`: appends one message, which becomes the newest of its conversation. */
    method CreateMessage(conversationId: int, role: Role, content: string) returns (m: Message)
      requires Valid()
      modifies this
      ensures Valid()
      ensures m == Message(old(nextMessageId), conversationId, role, content, old(clock))
      ensures messages == old(messages) + [m]
      ensures conversations == old(conversations) && nextConversationId == old(nextConversationId)
      ensures clock == old(clock) + 1 && nextMessageId == old(nextMessageId) + 1
    {
      m := Message(nextMessageId, conversationId, role, content, clock);
      InsertMessage(conversations, messages, nextConversationId, nextMessageId, clock, m);
      messages := messages + [m];
      clock := clock + 1;
      nextMessageId := nextMessageId + 1;
    }
  }
}
