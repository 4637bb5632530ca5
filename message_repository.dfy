/**
 * The in-memory message log (backend/src/repositories/messageRepository.ts): one
 * append-only list of role-tagged messages per conversation, and the user-only
 * transcript projected from it.
 */
module MessageRepository {
  import opened Wrappers
  import opened Text

  datatype Role = User | Assistant | System

  /**
   * A message (backend/src/models/Message.ts). Its id and timestamp come from the clock
   * and a random generator, so the caller supplies them.
   */
  datatype Message = Message(id: string, conversationId: string, role: Role, content: string, timestamp: int)

  /** `messages.slice(start)` for a possibly negative `start`. */
  function SliceFrom<T>(xs: seq<T>, start: int): (r: seq<T>)
    ensures |r| <= |xs| && r == xs[|xs| - |r|..]
  {
    var from := if start < 0 then (if |xs| + start < 0 then 0 else |xs| + start)
                else (if start > |xs| then |xs| else start);
    xs[from..]
  }

  /** The messages the history looks at: the last `limit` when `limit` is truthy, else all. */
  function Recent(messages: seq<Message>, limit: Option<int>): seq<Message> {
    if limit.Some? && limit.value != 0 then SliceFrom(messages, -limit.value) else messages
  }

  /** The contents of the `user` messages, in order. */
  function UserContents(messages: seq<Message>): seq<string> {
    if |messages| == 0 then []
    else
      var last := messages[|messages| - 1];
      UserContents(messages[..|messages| - 1]) + (if last.role == User then [last.content] else [])
  }

  /** `getConversationHistory` on a message list. */
  function History(messages: seq<Message>, limit: Option<int>): string {
    Join(UserContents(Recent(messages, limit)), "\n\n")
  }

  /** A positive limit keeps the last `limit` messages of every role, before any role filter. */
  lemma RecentKeepsLast(messages: seq<Message>, limit: Option<int>)
    ensures limit.None? || limit.value == 0 ==> Recent(messages, limit) == messages
    ensures limit.Some? && limit.value > 0 ==>
      Recent(messages, limit) == messages[|messages| - (if limit.value < |messages| then limit.value else |messages|)..]
  {
  }

  /** Projecting a concatenation projects each part. */
  lemma {:induction false} UserContentsAppend(a: seq<Message>, b: seq<Message>)
    ensures UserContents(a + b) == UserContents(a) + UserContents(b)
  {
    if |b| > 0 {
      assert (a + b)[..|a + b| - 1] == a + b[..|b| - 1];
      UserContentsAppend(a, b[..|b| - 1]);
    } else {
      assert a + b == a;
    }
  }

  /** Every projected content is the content of a user message, and there is one per user message. */
  lemma {:induction false} UserContentsOnlyUsers(messages: seq<Message>)
    ensures |UserContents(messages)| <= |messages|
    ensures forall c :: c in UserContents(messages) ==> exists m :: m in messages && m.role == User && m.content == c
    ensures forall m :: m in messages && m.role == User ==> m.content in UserContents(messages)
  {
    if |messages| > 0 {
      var prefix := messages[..|messages| - 1];
      UserContentsOnlyUsers(prefix);
      assert messages == prefix + [messages[|messages| - 1]];
    }
  }

  /** Appending a non-user message leaves the unlimited history unchanged. */
  lemma HistoryIgnoresOtherRoles(messages: seq<Message>, m: Message)
    requires m.role != User
    ensures History(messages + [m], None) == History(messages, None)
  {
    assert (messages + [m])[..|messages|] == messages;
    assert UserContents(messages + [m]) == UserContents(messages) + [];
    assert UserContents(messages) + [] == UserContents(messages);
  }

  /** Appending a user message adds its content at the end, after a blank line if needed. */
  lemma HistoryAppendsUserText(messages: seq<Message>, m: Message)
    requires m.role == User
    ensures History(messages + [m], None)
         == if UserContents(messages) == [] then m.content else History(messages, None) + "\n\n" + m.content
  {
    assert (messages + [m])[..|messages|] == messages;
    JoinAppend(UserContents(messages), m.content, "\n\n");
  }

  /**
   * `InMemoryMessageRepository` over the process-wide `messageStore` map. The repository
   * is a single exported instance, so the map is a field of it here.
   */
  class InMemoryMessageRepository {
    var store: map<string, seq<Message>>

    constructor ()
      ensures store == map[]
    {
      store := map[];
    }

    /** The messages of a conversation, or the empty list for an unknown one. */
    function MessagesOf(conversationId: string): (ms: seq<Message>)
      reads this
      ensures conversationId !in store ==> ms == []
    {
      if conversationId in store then store[conversationId] else []
    }

    /**
     * `addMessage`: creates the conversation's list if absent and appends the new
     * message; every other conversation is unchanged.
     */
    method AddMessage(conversationId: string, role: Role, content: string, id: string, timestamp: int)
      returns (message: Message)
      modifies this
      ensures message == Message(id, conversationId, role, content, timestamp)
      ensures store == old(store)[conversationId := old(MessagesOf(conversationId)) + [message]]
      ensures |MessagesOf(conversationId)| == |old(MessagesOf(conversationId))| + 1
      ensures forall c :: c != conversationId ==> MessagesOf(c) == old(MessagesOf(c))
    {
      message := Message(id, conversationId, role, content, timestamp);
      if conversationId !in store {
        store := store[conversationId := []];
      }
      store := store[conversationId := store[conversationId] + [message]];
    }

    /** `getMessages`: the stored list, or the empty list for an unknown conversation. */
    method GetMessages(conversationId: string) returns (messages: seq<Message>)
      ensures conversationId in store ==> messages == store[conversationId]
      ensures conversationId !in store ==> messages == []
    {
      messages := if conversationId in store then store[conversationId] else [];
    }

    /**
     * `getConversationHistory`: the user messages' contents among the most recent
     * `limit` messages (all when `limit` is absent or 0), joined by a blank line.
     */
    method GetConversationHistory(conversationId: string, limit: Option<int>) returns (history: string)
      ensures history == History(MessagesOf(conversationId), limit)
    {
      var messages := GetMessages(conversationId);
      var relevant := if limit.Some? && limit.value != 0 then SliceFrom(messages, -limit.value) else messages;
      history := Join(UserContents(relevant), "\n\n");
    }

    /** `clearConversation`: forgets the conversation's messages. */
    method ClearConversation(conversationId: string)
      modifies this
      ensures store == old(store) - {conversationId}
      ensures MessagesOf(conversationId) == []
      ensures History(MessagesOf(conversationId), None) == ""
    {
      store := store - {conversationId};
    }
  }
}
