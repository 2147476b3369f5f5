/** The two records carried by the message bus (nanobot/bus/events.py). */
module Events {
  import opened Wrappers
  import opened Strings

  /** A clock reading; `datetime.now()` becomes a value supplied by the caller. */
  type Timestamp = int

  /** A message received from a chat channel, or a synthetic `"system"` announcement. */
  datatype InboundMessage = InboundMessage(
    channel: string,
    senderId: string,
    chatId: string,
    content: string,
    timestamp: Timestamp,
    media: seq<string>,
    metadata: map<string, string>)
  {
    /** The durable identity of the conversation thread: `channel:chat_id`. */
    function SessionKey(): (k: string)
      ensures |k| == |channel| + 1 + |chatId|
      ensures k[..|channel|] == channel && k[|channel|] == ':' && k[|channel| + 1..] == chatId
    {
      JoinKey(channel, chatId)
    }
  }

  /** A response addressed to one chat of one channel. */
  datatype OutboundMessage = OutboundMessage(
    channel: string,
    chatId: string,
    content: string,
    replyTo: Option<string>,
    media: seq<string>,
    metadata: map<string, string>)

  /** `f"{a}:{b}"`, the encoding shared by session keys and announcement chat ids. */
  function JoinKey(a: string, b: string): string {
    a + ":" + b
  }

  /**
   * The dataclass constructor of InboundMessage with its defaults: `media` and `metadata` are
   * empty unless supplied, and the timestamp is the clock reading `now`.
   */
  function NewInbound(channel: string, senderId: string, chatId: string, content: string, now: Timestamp,
                      media: Option<seq<string>>, metadata: Option<map<string, string>>): (m: InboundMessage)
    ensures m.channel == channel && m.senderId == senderId && m.chatId == chatId && m.content == content
    ensures m.timestamp == now
    ensures media.None? ==> m.media == []
    ensures metadata.None? ==> m.metadata == map[]
    ensures media.Some? ==> m.media == media.value
    ensures metadata.Some? ==> m.metadata == metadata.value
  {
    InboundMessage(channel, senderId, chatId, content, now, media.GetOr([]), metadata.GetOr(map[]))
  }

  /** The dataclass constructor of OutboundMessage with every default: no reply target, no media, no metadata. */
  function NewOutbound(channel: string, chatId: string, content: string): (m: OutboundMessage)
    ensures m.channel == channel && m.chatId == chatId && m.content == content
    ensures m.replyTo == None && m.media == [] && m.metadata == map[]
  {
    OutboundMessage(channel, chatId, content, None, [], map[])
  }

  /**
   * Splitting a session key at its first ':' recovers `(channel, chat_id)` exactly when the
   * channel has no ':' of its own; the chat id may contain any number of them.
   */
  lemma SessionKeySplit(m: InboundMessage)
    ensures ':' in m.SessionKey()
    ensures SplitFirst(m.SessionKey(), ':') == (m.channel, m.chatId) <==> ':' !in m.channel
  {
    SplitFirstJoin(m.channel, ':', m.chatId);
  }
}
