/** The two external collaborators as values: the translation gateway (lib/openai.ts) and the
    Telegram delivery call. Each relay returns the calls it made, in order, so that which calls
    happen on which path is part of its contract. */
module Gateways {
  import opened Types
  import opened JsValues

  /** What `translate(text, from, to)` resolves to, or the message of the error it throws. */
  datatype Translation = Translated(text: string) | TranslationError(details: string)

  /** What `bot.sendMessage` resolves to (the platform's message id), or the parts of the error it
      throws that the relay reads: `response.body.error_code`, `response.body.description` and
      the error's own message. */
  datatype Delivery =
    | Delivered(messageId: int)
    | DeliveryError(code: Option<int>, description: Option<string>, details: string)

  type Translator = (string, Lang, Lang) -> Translation

  type Deliverer = (int, string) -> Delivery

  datatype Call =
    | TranslateCall(text: string, from: Lang, to: Lang)
    | DeliverCall(chatId: int, text: string)

  /** The gateway of lib/openai.ts trims the model's reply and throws when nothing is left,
      so a successful translation is never empty and never padded. */
  ghost predicate Honest(translate: Translator) {
    forall text, from, to ::
      translate(text, from, to).Translated? ==>
        translate(text, from, to).text != "" && Trimmed(translate(text, from, to).text)
  }
}
