/**
 * The chat log (src/Chat.hpp): a bounded queue of messages in which a message
 * from the sender of the newest one is merged into it instead of queued.
 */
module Chats {
  import opened Wrappers
  import opened CStrings

  /** `max_string_len`: the size of a message's text array. */
  const MaxStringLen: nat := 2048

  /** `max_chat_messages`. */
  const MaxChatMessages: nat := 10

  /** `ChatMessage`: the C strings held by its `name` and `text` arrays. */
  datatype ChatMessage = ChatMessage(name: string, text: string)

  /** The newest message with another one's text joined on a new line, cut to fit the text array. */
  function Merged(last: ChatMessage, msg: ChatMessage): (r: ChatMessage)
    ensures r.name == last.name
    ensures |r.text| < MaxStringLen && |r.text| <= |last.text + "\n" + msg.text|
    ensures r.text == (last.text + "\n" + msg.text)[..|r.text|]
    ensures |last.text| + 1 + |msg.text| < MaxStringLen ==> r.text == last.text + "\n" + msg.text
  {
    last.(text := Truncated(last.text + "\n" + msg.text, MaxStringLen))
  }

  /** The newest `MaxChatMessages` of a queue. */
  function Newest(s: seq<ChatMessage>): seq<ChatMessage>
  {
    if |s| > MaxChatMessages then s[|s| - MaxChatMessages..] else s
  }

  /** The messages after `AddMessage(msg)`. */
  function AfterAdd(msgs: seq<ChatMessage>, msg: ChatMessage): seq<ChatMessage>
  {
    if msgs != [] && msgs[|msgs| - 1].name == msg.name
    then msgs[..|msgs| - 1] + [Merged(msgs[|msgs| - 1], msg)]
    else Newest(msgs + [msg])
  }

  /** No two neighbouring messages come from the same sender. */
  predicate AdjacentDistinct(msgs: seq<ChatMessage>)
  {
    forall i :: 0 < i < |msgs| ==> msgs[i - 1].name != msgs[i].name
  }

  /**
   * Adding a message from the newest message's sender merges it into that one
   * and changes nothing else; any other message is queued last, and only the
   * oldest messages are dropped to keep at most ten.
   */
  lemma AddMessageEffect(msgs: seq<ChatMessage>, msg: ChatMessage)
    ensures var r := AfterAdd(msgs, msg);
            if msgs != [] && msgs[|msgs| - 1].name == msg.name then
              && |r| == |msgs| && r[..|r| - 1] == msgs[..|msgs| - 1]
              && r[|r| - 1] == Merged(msgs[|msgs| - 1], msg)
            else
              && |r| == Min(|msgs| + 1, MaxChatMessages) && r[|r| - 1] == msg
              && r == (msgs + [msg])[|msgs| + 1 - |r|..]
  {
  }

  /** The queue never grows past ten messages. */
  lemma AddMessageBounded(msgs: seq<ChatMessage>, msg: ChatMessage)
    requires |msgs| <= MaxChatMessages
    ensures |AfterAdd(msgs, msg)| <= MaxChatMessages
  {
  }

  /** Merging keeps neighbouring senders distinct. */
  lemma AddMessageKeepsSendersDistinct(msgs: seq<ChatMessage>, msg: ChatMessage)
    requires AdjacentDistinct(msgs)
    ensures AdjacentDistinct(AfterAdd(msgs, msg))
  {
    var r := AfterAdd(msgs, msg);
    if !(msgs != [] && msgs[|msgs| - 1].name == msg.name) {
      var all := msgs + [msg];
      forall i | 0 < i < |r| ensures r[i - 1].name != r[i].name {
        var off := |all| - |r|;
        assert r[i - 1] == all[off + i - 1] && r[i] == all[off + i];
      }
    }
  }

  class Chat {
    /** `m_messages`, oldest first. */
    var messages: seq<ChatMessage>

    /** `Chat() = default`: empty. */
    constructor()
      ensures messages == []
    {
      messages := [];
    }

    /** `Chat::AddMessage`. */
    method AddMessage(msg: ChatMessage)
      modifies this
      ensures messages == AfterAdd(old(messages), msg)
    {
      if messages != [] {
        var last := messages[|messages| - 1];
        if last.name == msg.name {
          var merged := Truncated(last.text + "\n" + msg.text, MaxStringLen);
          messages := messages[|messages| - 1 := last.(text := merged)];
          return;
        }
      }
      ghost var all := messages + [msg];
      messages := messages + [msg];
      while |messages| > MaxChatMessages
        invariant |messages| >= Min(|all|, MaxChatMessages)
        invariant |messages| <= |all| && messages == all[|all| - |messages|..]
        decreases |messages|
      {
        messages := messages[1..];
      }
    }
  }
}
