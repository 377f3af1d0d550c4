/** Record shapes shared by the store and the relays (lib/types.ts).
    Timestamps are milliseconds supplied by the caller; ids are opaque strings. */
module Types {

  /** A value that may be absent (`undefined` / `null` in the source). */
  datatype Option<+T> = None | Some(value: T)

  /** A value or the message of the error that was thrown instead. */
  datatype Result<+T> = Ok(value: T) | Err(error: string)

  /** The two languages of the relay: the chat side writes Korean, the operator English. */
  datatype Lang = Ko | En

  datatype Direction = Inbound | Outbound

  datatype Status = Pending | Sent | Failed

  /** What callers hand to the store: a message without its id and creation time. */
  datatype Draft = Draft(
    telegramChatId: string,
    telegramMessageId: int,
    telegramUserId: int,
    telegramUsername: Option<string>,
    direction: Direction,
    originalText: string,
    translatedText: Option<string>,
    language: Lang,
    sentAt: Option<nat>,
    status: Status)

  /** A stored message. `status` and `sentAt` are the only fields changed after creation. */
  datatype Message = Message(
    id: string,
    telegramChatId: string,
    telegramMessageId: int,
    telegramUserId: int,
    telegramUsername: Option<string>,
    direction: Direction,
    originalText: string,
    translatedText: Option<string>,
    language: Lang,
    createdAt: nat,
    sentAt: Option<nat>,
    status: Status)

  /** The fields of a message other than the two the store assigns. */
  function Unstamp(m: Message): Draft {
    Draft(m.telegramChatId, m.telegramMessageId, m.telegramUserId, m.telegramUsername,
          m.direction, m.originalText, m.translatedText, m.language, m.sentAt, m.status)
  }

  /** A draft completed with an id and a creation time, as the object spread in addMessage does. */
  function Stamp(d: Draft, id: string, createdAt: nat): (m: Message)
    ensures m.id == id && m.createdAt == createdAt
    ensures Unstamp(m) == d
  {
    Message(id, d.telegramChatId, d.telegramMessageId, d.telegramUserId, d.telegramUsername,
            d.direction, d.originalText, d.translatedText, d.language, createdAt, d.sentAt, d.status)
  }

  /** The derived per-chat summary; never stored. */
  datatype Conversation = Conversation(
    chatId: string,
    userId: int,
    username: Option<string>,
    lastMessage: Message,
    messageCount: nat,
    lastActivity: nat)
}
