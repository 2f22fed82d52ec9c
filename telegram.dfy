/** The messages the bot sends through the messaging platform, as values. */
module Telegram {

  /** The platform's chat identifier. */
  type ChatId = int

  /** One button of an inline keyboard: its caption and the data sent back when it is pressed. */
  datatype Button = Button(caption: string, callbackData: string)

  /** The optional reply markup of a message: none, a reply keyboard (rows of button
      labels, as built by `tg_keyboard`), or an inline keyboard (rows of buttons that
      carry callback data, as built by `tg_inline`). */
  datatype Markup =
    | NoMarkup
    | Keyboard(rows: seq<seq<string>>)
    | Inline(buttons: seq<seq<Button>>)

  /** One call of `tg_send`: the chat, the text and the markup. */
  datatype Message = Message(chat: ChatId, text: string, markup: Markup)
}
