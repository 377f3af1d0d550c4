/** The relays of lib/telegram.ts: the bot's inbound `message` handler and the outbound
    `sendMessage`. Bot construction and the token check are not part of this model. */
module Telegram {
  import opened Types
  import opened JsValues
  import opened Gateways
  import opened Store

  datatype TgUser = TgUser(id: int, username: Option<string>, firstName: Option<string>)

  datatype TgChat = TgChat(id: int, chatType: string)

  datatype TgMessage = TgMessage(messageId: int, chat: TgChat, from: Option<TgUser>, text: Option<string>)

  /** `msg.from?.id || 0`. */
  function SenderId(msg: TgMessage): (id: int)
    ensures msg.from.None? ==> id == 0
    ensures msg.from.Some? ==> id == msg.from.value.id
  {
    if msg.from.Some? && msg.from.value.id != 0 then msg.from.value.id else 0
  }

  /** `msg.from?.username || msg.from?.first_name || 'Unknown'`. */
  function SenderName(msg: TgMessage): (name: string)
    ensures name != ""
    ensures msg.from.Some? && Truthy(msg.from.value.username) ==> name == msg.from.value.username.value
    ensures msg.from.Some? && !Truthy(msg.from.value.username) && Truthy(msg.from.value.firstName) ==>
              name == msg.from.value.firstName.value
    ensures msg.from.None? || (!Truthy(msg.from.value.username) && !Truthy(msg.from.value.firstName)) ==>
              name == "Unknown"
  {
    match msg.from
    case None => "Unknown"
    case Some(u) => OrElse(u.username, OrElse(u.firstName, "Unknown"))
  }

  /** Only private chats with text are relayed; everything else is dropped silently. */
  predicate Relayable(msg: TgMessage) {
    msg.chat.chatType == "private" && Truthy(msg.text)
  }

  /** The record an inbound message must be stored as, given the translation outcome: Korean,
      already `sent`, the translation or, when it failed, the original text. */
  ghost predicate InboundRecord(m: Message, msg: TgMessage, tr: Translation, id: string, now: nat) {
    && msg.text.Some?
    && m.id == id && m.createdAt == now
    && m.telegramChatId == IntToString(msg.chat.id)
    && m.telegramMessageId == msg.messageId
    && m.telegramUserId == SenderId(msg)
    && m.telegramUsername == Some(SenderName(msg))
    && m.direction == Inbound && m.language == Ko
    && m.status == Sent && m.sentAt == None
    && m.originalText == msg.text.value
    && m.translatedText == Some(if tr.Translated? then tr.text else msg.text.value)
  }

  /** The `bot.on('message')` handler: filter, translate Korean to English with fallback, store. */
  function HandleMessage(s: Store, msg: TgMessage, translate: Translator, id: string, now: nat)
    : (r: (Store, seq<Call>))
    requires Valid(s) && Fresh(s, id)
    ensures Valid(r.0)
    ensures forall other :: Fresh(s, other) && other != id ==> Fresh(r.0, other)
    ensures !Relayable(msg) ==> r == (s, [])
    ensures Relayable(msg) ==>
      && r.1 == [TranslateCall(msg.text.value, Ko, En)]
      && |r.0.log| == |s.log| + 1 && r.0.log[..|s.log|] == s.log
      && InboundRecord(r.0.log[|s.log|], msg, translate(msg.text.value, Ko, En), id, now)
  {
    if msg.chat.chatType != "private" then (s, [])
    else if !Truthy(msg.text) then (s, [])
    else
      var text := msg.text.value;
      var translated := match translate(text, Ko, En)
        case Translated(t) => t
        case TranslationError(_) => text;
      var added := AddMessage(s, Draft(IntToString(msg.chat.id), msg.messageId, SenderId(msg),
                                       Some(SenderName(msg)), Inbound, text, Some(translated),
                                       Ko, None, Sent), id, now);
      assert added.0.log[..|s.log|] == s.log;
      AppendKeepsOthersFresh(s, added.0, added.1);
      (added.0, [TranslateCall(text, Ko, En)])
  }

  /** With the real gateway, an inbound record always shows some non-empty text as its
      translation: the translation itself, or the original text it falls back to. */
  lemma InboundTranslationNonEmpty(s: Store, msg: TgMessage, translate: Translator, id: string, now: nat)
    requires Valid(s) && Fresh(s, id) && Honest(translate) && Relayable(msg)
    ensures var s' := HandleMessage(s, msg, translate, id, now).0;
            s'.log[|s.log|].translatedText.Some? && s'.log[|s.log|].translatedText.value != ""
  {
    var tr := translate(msg.text.value, Ko, En);
  }

  // ---------------------------------------------------------------- sendMessage

  /** The outcome of one `sendMessage` call: the store after it, the resolved platform message id
      or the message of the thrown error, and the gateway calls made. */
  datatype SendOutcome = SendOutcome(store: Store, result: Result<int>, calls: seq<Call>)

  const BlockedText := "Bot is blocked by user or user has not started conversation with bot"

  /** The error thrown inside the delivery block for a chat key that is not a number. */
  function InvalidChatIdText(chatId: string): string {
    "Invalid chatId format: " + chatId + ". Expected a number."
  }

  /** `parseInt(chatId) || 0`: the user id recorded with a failed send. */
  function NumericOrZero(chatId: string): (n: int)
    ensures ParseInt(chatId).None? ==> n == 0
    ensures ParseInt(chatId).Some? ==> n == ParseInt(chatId).value
  {
    var p := ParseInt(chatId);
    if p.Some? && p.value != 0 then p.value else 0
  }

  /** The message of the error rethrown after a failed delivery, chosen by the provider's code. */
  function DeliveryFailureText(code: Option<int>, description: Option<string>, details: string): string {
    if code == Some(403) then BlockedText
    else if code == Some(400) then "Invalid request: " + OrElse(description, details)
    else if code.Some? && code.value != 0 then
      "Telegram API error (" + IntToString(code.value) + "): " + OrElse(description, details)
    else FailedSendText(details)
  }

  /** The message of a failure that carries no provider code. */
  function FailedSendText(details: string): string {
    "Failed to send Telegram message: " + details
  }

  /** The fields every outbound record carries, whatever became of the delivery. */
  ghost predicate OutboundRecord(m: Message, chatId: string, text: string, korean: string,
                                 id: string, createdAt: nat) {
    && m.id == id && m.createdAt == createdAt
    && m.telegramChatId == chatId
    && m.telegramUsername == None
    && m.direction == Outbound && m.language == En
    && m.originalText == text
    && m.translatedText == Some(korean)
  }

  /** What the catch block stores about a send that did not go through: status `failed`, no
      platform message id and no delivery time. */
  ghost predicate FailedRecord(m: Message) {
    m.status == Failed && m.sentAt == None && m.telegramMessageId == 0
  }

  /** How the outbound record `m` and the result of `sendMessage` reflect what the delivery
      call returned. */
  ghost predicate DeliveryReflected(m: Message, d: Delivery, result: Result<int>, sentAt: nat) {
    match d
    case Delivered(messageId) =>
      && result == Ok(messageId)
      && m.status == Sent && m.sentAt == Some(sentAt) && m.telegramMessageId == messageId
    case DeliveryError(code, description, details) =>
      result == Err(DeliveryFailureText(code, description, details)) && FailedRecord(m)
  }

  /** The catch block's record of a send that did not go through, with the user id
      `parseInt(chatId) || 0` and the translation it would have sent. */
  function RecordFailure(s: Store, chatId: string, text: string, korean: string, id: string,
                         createdAt: nat): (s': Store)
    requires Valid(s) && Fresh(s, id)
    ensures Valid(s')
    ensures |s'.log| == |s.log| + 1 && s'.log[..|s.log|] == s.log
    ensures var m := s'.log[|s.log|];
            && OutboundRecord(m, chatId, text, korean, id, createdAt)
            && m.telegramUserId == NumericOrZero(chatId) && FailedRecord(m)
  {
    var failed := Draft(chatId, 0, NumericOrZero(chatId), None, Outbound, text, Some(korean),
                        En, None, Failed);
    var added := AddMessage(s, failed, id, createdAt);
    assert added.0.log[..|s.log|] == s.log;
    added.0
  }

  /** The record of a delivered message: added as `sent`, then marked `sent` at `sentAt`. */
  function RecordDelivery(s: Store, chatId: string, n: int, text: string, korean: string,
                          messageId: int, id: string, createdAt: nat, sentAt: nat): (s': Store)
    requires Valid(s) && Fresh(s, id)
    ensures Valid(s')
    ensures |s'.log| == |s.log| + 1 && s'.log[..|s.log|] == s.log
    ensures var m := s'.log[|s.log|];
            && OutboundRecord(m, chatId, text, korean, id, createdAt)
            && m.telegramUserId == n
            && m.status == Sent && m.sentAt == Some(sentAt) && m.telegramMessageId == messageId
  {
    var stored := Draft(chatId, messageId, n, None, Outbound, text, Some(korean), En, None, Sent);
    var added := AddMessage(s, stored, id, createdAt);
    var updated := UpdateMessageStatus(added.0, added.1.id, Sent, Some(sentAt));
    assert added.0.log[|s.log|].id == id;
    assert updated.0.log == added.0.log[|s.log| := updated.1.value];
    assert updated.0.log[..|s.log|] == s.log;
    updated.0
  }

  /** What `sendMessage` does once the translation `korean` is in hand: exactly one outbound
      record is appended; a chat key that does not parse fails without a delivery call, and
      otherwise the one delivery call's outcome decides the result and the record's status. */
  ghost predicate SentAfterTranslation(s: Store, r: SendOutcome, chatId: string, text: string,
                                       korean: string, deliver: Deliverer, id: string,
                                       createdAt: nat, sentAt: nat) {
    && |r.store.log| == |s.log| + 1 && r.store.log[..|s.log|] == s.log
    && var m := r.store.log[|s.log|];
       && OutboundRecord(m, chatId, text, korean, id, createdAt)
       && m.telegramUserId == NumericOrZero(chatId)
       && (ParseInt(chatId).None? ==>
             && r.calls == [TranslateCall(text, En, Ko)]
             && r.result == Err(FailedSendText(InvalidChatIdText(chatId)))
             && FailedRecord(m))
       && (ParseInt(chatId).Some? ==>
             && r.calls == [TranslateCall(text, En, Ko), DeliverCall(ParseInt(chatId).value, korean)]
             && DeliveryReflected(m, deliver(ParseInt(chatId).value, korean), r.result, sentAt))
  }

  /** `sendMessage(chatId, text)`: translate English to Korean, parse the chat key, deliver, then
      record the attempt. `createdAt` is the time the record is added, `sentAt` the time it is
      then marked sent. */
  function SendMessage(s: Store, chatId: string, text: string, translate: Translator,
                       deliver: Deliverer, id: string, createdAt: nat, sentAt: nat): (r: SendOutcome)
    requires Valid(s) && Fresh(s, id)
    ensures Valid(r.store)
    ensures |r.calls| > 0 && r.calls[0] == TranslateCall(text, En, Ko)
    ensures translate(text, En, Ko).TranslationError? ==>
      r == SendOutcome(s, Err("Translation failed: " + translate(text, En, Ko).details),
                       [TranslateCall(text, En, Ko)])
    ensures translate(text, En, Ko).Translated? ==>
      SentAfterTranslation(s, r, chatId, text, translate(text, En, Ko).text, deliver, id,
                           createdAt, sentAt)
  {
    match translate(text, En, Ko)
    case TranslationError(details) =>
      SendOutcome(s, Err("Translation failed: " + details), [TranslateCall(text, En, Ko)])
    case Translated(korean) =>
      SendTranslated(s, chatId, text, korean, deliver, id, createdAt, sentAt)
  }

  /** The part of `sendMessage` after a successful translation. */
  function SendTranslated(s: Store, chatId: string, text: string, korean: string,
                          deliver: Deliverer, id: string, createdAt: nat, sentAt: nat)
    : (r: SendOutcome)
    requires Valid(s) && Fresh(s, id)
    ensures Valid(r.store)
    ensures SentAfterTranslation(s, r, chatId, text, korean, deliver, id, createdAt, sentAt)
  {
    var first := TranslateCall(text, En, Ko);
    match ParseInt(chatId)
    case None =>
      var failed := RecordFailure(s, chatId, text, korean, id, createdAt);
      var r := SendOutcome(failed, Err(DeliveryFailureText(None, None, InvalidChatIdText(chatId))), [first]);
      UnparsedKeyOutcome(s, r, chatId, text, korean, deliver, id, createdAt, sentAt);
      r
    case Some(n) =>
      var sent := DeliverAndRecord(s, chatId, n, text, korean, deliver, id, createdAt, sentAt);
      var r := SendOutcome(sent.store, sent.result, [first] + sent.calls);
      DeliveredOutcome(s, sent, r, chatId, n, text, korean, deliver, id, createdAt, sentAt);
      r
  }

  lemma UnparsedKeyOutcome(s: Store, r: SendOutcome, chatId: string, text: string, korean: string,
                           deliver: Deliverer, id: string, createdAt: nat, sentAt: nat)
    requires ParseInt(chatId).None?
    requires |r.store.log| == |s.log| + 1 && r.store.log[..|s.log|] == s.log
    requires var m := r.store.log[|s.log|];
             && OutboundRecord(m, chatId, text, korean, id, createdAt)
             && m.telegramUserId == NumericOrZero(chatId) && FailedRecord(m)
    requires r.calls == [TranslateCall(text, En, Ko)]
    requires r.result == Err(DeliveryFailureText(None, None, InvalidChatIdText(chatId)))
    ensures SentAfterTranslation(s, r, chatId, text, korean, deliver, id, createdAt, sentAt)
  {
  }

  lemma DeliveredOutcome(s: Store, sent: SendOutcome, r: SendOutcome, chatId: string, n: int,
                         text: string, korean: string, deliver: Deliverer, id: string,
                         createdAt: nat, sentAt: nat)
    requires ParseInt(chatId) == Some(n)
    requires sent.calls == [DeliverCall(n, korean)]
    requires |sent.store.log| == |s.log| + 1 && sent.store.log[..|s.log|] == s.log
    requires var m := sent.store.log[|s.log|];
             && OutboundRecord(m, chatId, text, korean, id, createdAt)
             && m.telegramUserId == NumericOrZero(chatId)
             && DeliveryReflected(m, deliver(n, korean), sent.result, sentAt)
    requires r == SendOutcome(sent.store, sent.result, [TranslateCall(text, En, Ko)] + sent.calls)
    ensures SentAfterTranslation(s, r, chatId, text, korean, deliver, id, createdAt, sentAt)
  {
  }

  /** The delivery step of `sendMessage` for a chat key that parsed to `n`: one delivery call,
      then the record of a sent or a failed message. */
  function DeliverAndRecord(s: Store, chatId: string, n: int, text: string, korean: string,
                            deliver: Deliverer, id: string, createdAt: nat, sentAt: nat)
    : (r: SendOutcome)
    requires Valid(s) && Fresh(s, id) && ParseInt(chatId) == Some(n)
    ensures Valid(r.store)
    ensures r.calls == [DeliverCall(n, korean)]
    ensures |r.store.log| == |s.log| + 1 && r.store.log[..|s.log|] == s.log
    ensures var m := r.store.log[|s.log|];
            && OutboundRecord(m, chatId, text, korean, id, createdAt)
            && m.telegramUserId == NumericOrZero(chatId)
            && DeliveryReflected(m, deliver(n, korean), r.result, sentAt)
  {
    match deliver(n, korean)
    case Delivered(messageId) =>
      SendOutcome(RecordDelivery(s, chatId, n, text, korean, messageId, id, createdAt, sentAt),
                  Ok(messageId), [DeliverCall(n, korean)])
    case DeliveryError(code, description, details) =>
      SendOutcome(RecordFailure(s, chatId, text, korean, id, createdAt),
                  Err(DeliveryFailureText(code, description, details)), [DeliverCall(n, korean)])
  }

  // ---------------------------------------------------------------- the two relays together

  /** A reply to a chat that wrote in goes through: the chat key the inbound record carries parses
      back to the chat id, so the reply is delivered to that chat, and the chat's thread then ends
      with the inbound message followed by the reply. */
  lemma ReplyToInboundChat(s: Store, msg: TgMessage, reply: string, translate: Translator,
                           deliver: Deliverer, inId: string, outId: string,
                           receivedAt: nat, createdAt: nat, sentAt: nat)
    requires Valid(s) && Fresh(s, inId) && Fresh(s, outId) && inId != outId
    requires Relayable(msg)
    requires translate(reply, En, Ko).Translated?
    requires deliver(msg.chat.id, translate(reply, En, Ko).text).Delivered?
    ensures var s1 := HandleMessage(s, msg, translate, inId, receivedAt).0;
            var key := IntToString(msg.chat.id);
            var r := SendMessage(s1, key, reply, translate, deliver, outId, createdAt, sentAt);
            && r.result == Ok(deliver(msg.chat.id, translate(reply, En, Ko).text).messageId)
            && r.calls == [TranslateCall(reply, En, Ko),
                           DeliverCall(msg.chat.id, translate(reply, En, Ko).text)]
            && |r.store.log| == |s.log| + 2
            && GetMessagesByChatId(r.store, key)
               == GetMessagesByChatId(s, key) + [r.store.log[|s.log|], r.store.log[|s.log| + 1]]
            && r.store.log[|s.log|].direction == Inbound
            && r.store.log[|s.log| + 1].direction == Outbound
            && r.store.log[|s.log| + 1].status == Sent
  {
    var s1 := HandleMessage(s, msg, translate, inId, receivedAt).0;
    var key := IntToString(msg.chat.id);
    ParseIntOfIntToString(msg.chat.id);
    var inbound := s1.log[|s.log|];
    OneMore(s.log, s1.log);
    var r := SendMessage(s1, key, reply, translate, deliver, outId, createdAt, sentAt);
    assert SentAfterTranslation(s1, r, key, reply, translate(reply, En, Ko).text, deliver, outId,
                                createdAt, sentAt);
    var outbound := r.store.log[|s1.log|];
    OneMore(s1.log, r.store.log);
    ThreadAfterTwo(s.log, inbound, outbound, key);
  }

  lemma OneMore(log: seq<Message>, log': seq<Message>)
    requires |log'| == |log| + 1 && log'[..|log|] == log
    ensures log' == log + [log'[|log|]]
  {
    assert log' == log'[..|log|] + [log'[|log|]];
  }

  /** Two messages of one chat appended in turn end that chat's thread, in that order. */
  lemma ThreadAfterTwo(log: seq<Message>, a: Message, b: Message, key: string)
    requires ChatOf(a) == key && ChatOf(b) == key
    ensures Seqs.Where(log + [a] + [b], ChatOf, key) == Seqs.Where(log, ChatOf, key) + [a, b]
    ensures (log + [a] + [b])[|log|] == a
  {
    Seqs.WhereAppend(log, [a], ChatOf, key);
    Seqs.WhereAppend(log + [a], [b], ChatOf, key);
  }
}
