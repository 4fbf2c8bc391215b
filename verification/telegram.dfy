/** The outbound notification channel at its interface. Delivery is a foreign
    asynchronous call (`bot.send_message`); its outcome is an input here and,
    as in both pollers, nothing depends on it. */
module Telegram {

  /** `message_type`: "bright" is a highlight alert, any other value a status message. */
  datatype Kind = Bright | Status

  /** What became of one `send_message` call. */
  datatype Delivery = Delivered | Failed

  /** One message handed to the channel: its kind, the numbers it reports and
      whether the channel delivered it. */
  datatype Message = Message(kind: Kind, numbers: set<int>, delivery: Delivery)
}
