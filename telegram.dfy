/** What the tracking task relies on about a Telegram chat: which of its messages are
    still there. Sending adds a message under a fresh id; deleting a message that is no
    longer there is an API error. Texts, keyboards and locations are not modelled. */
module Telegram {
  import opened Prelude

  type MessageId = nat

  /** The ids of the messages still visible, and the id the next message will get. */
  datatype Chat = Chat(visible: set<MessageId>, next: MessageId)

  predicate Valid(c: Chat) {
    forall id :: id in c.visible ==> id < c.next
  }

  /** Sending a message: it gets an id no visible message has and becomes visible. */
  function Send(c: Chat): (r: (MessageId, Chat))
    ensures Valid(c) ==> r.0 !in c.visible && Valid(r.1)
    ensures r.1.visible == c.visible + {r.0}
    ensures r.0 >= c.next && r.1.next > r.0
  {
    (c.next, Chat(c.visible + {c.next}, c.next + 1))
  }

  /** `delete_message`: succeeds exactly when the message is still there, and then
      removes it and nothing else. */
  function Delete(c: Chat, id: MessageId): (r: Option<Chat>)
    ensures r.Some? <==> id in c.visible
    ensures r.Some? ==> r.value.visible == c.visible - {id} && r.value.next == c.next
  {
    if id in c.visible then Some(Chat(c.visible - {id}, c.next)) else None
  }
}
