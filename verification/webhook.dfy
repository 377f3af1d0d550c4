/** The `POST` handler of app/api/webhook/route.ts: the webhook twin of the bot's inbound handler.
    The request body is read before the shared-secret check, so a body that is not JSON fails
    with 500 whoever sent it. */
module Webhook {
  import opened Types
  import opened JsValues
  import opened Gateways
  import opened Store
  import opened Http
  import opened Telegram

  /** A Telegram update; only its `message` is looked at. */
  datatype Update = Update(message: Option<TgMessage>)

  datatype Handled = Handled(store: Store, response: Response, calls: seq<Call>)

  /** `secret && header !== secret`: an empty or missing secret turns the check off, and a missing
      header never matches a configured one. */
  predicate Rejected(secret: Option<string>, header: Option<string>) {
    Truthy(secret) && header != Some(secret.value)
  }

  /** Handles one webhook request. `secret` is `TELEGRAM_WEBHOOK_SECRET`, `header` is
      `x-telegram-bot-api-secret-token`. A `null` body passes the secret check and then fails
      when its `message` is read. */
  function Post(s: Store, body: Payload<Update>, secret: Option<string>, header: Option<string>,
                translate: Translator, id: string, now: nat): (r: Handled)
    requires Valid(s) && Fresh(s, id)
    ensures Valid(r.store)
    ensures body.Malformed? ==> r == Handled(s, Response(500, ErrorBody("Internal server error")), [])
    ensures !body.Malformed? && Rejected(secret, header) ==>
              r == Handled(s, Response(401, ErrorBody("Unauthorized")), [])
    ensures body.Null? && !Rejected(secret, header) ==>
              r == Handled(s, Response(500, ErrorBody("Internal server error")), [])
    ensures body.Parsed? && !Rejected(secret, header) ==> r.response == Response(200, OkBody)
    ensures body.Parsed? && !Rejected(secret, header) &&
            (body.value.message.None? || !Relayable(body.value.message.value)) ==>
              r.store == s && r.calls == []
    ensures body.Parsed? && !Rejected(secret, header) &&
            body.value.message.Some? && Relayable(body.value.message.value) ==>
              var msg := body.value.message.value;
              && r.calls == [TranslateCall(msg.text.value, Ko, En)]
              && |r.store.log| == |s.log| + 1 && r.store.log[..|s.log|] == s.log
              && InboundRecord(r.store.log[|s.log|], msg, translate(msg.text.value, Ko, En), id, now)
  {
    match body
    case Malformed => Handled(s, Response(500, ErrorBody("Internal server error")), [])
    case Null =>
      if Rejected(secret, header) then Handled(s, Response(401, ErrorBody("Unauthorized")), [])
      else Handled(s, Response(500, ErrorBody("Internal server error")), [])
    case Parsed(update) =>
      if Rejected(secret, header) then Handled(s, Response(401, ErrorBody("Unauthorized")), [])
      else if update.message.Some? && update.message.value.chat.chatType == "private"
              && Truthy(update.message.value.text) then
        var msg := update.message.value;
        var text := msg.text.value;
        var tr := translate(text, Ko, En);
        var translated := if tr.Translated? then tr.text else text;
        var record := Draft(IntToString(msg.chat.id), msg.messageId, SenderId(msg),
                            Some(SenderName(msg)), Inbound, text, Some(translated), Ko, None, Sent);
        var added := AddMessage(s, record, id, now);
        assert added.0.log[..|s.log|] == s.log;
        Handled(added.0, Response(200, OkBody), [TranslateCall(text, Ko, En)])
      else Handled(s, Response(200, OkBody), [])
  }

  /** An accepted webhook delivery of a message changes the store exactly as the bot's own
      message handler does for the same message and translation gateway. */
  lemma PostMatchesHandleMessage(s: Store, msg: TgMessage, secret: Option<string>,
                                 header: Option<string>, translate: Translator, id: string, now: nat)
    requires Valid(s) && Fresh(s, id) && !Rejected(secret, header)
    ensures var r := Post(s, Parsed(Update(Some(msg))), secret, header, translate, id, now);
            (r.store, r.calls) == HandleMessage(s, msg, translate, id, now)
  {
  }
}
