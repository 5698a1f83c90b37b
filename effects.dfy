/**
 * The bot's outbound Telegram calls as values. Each handler returns the calls it makes, in
 * order; message wording is abstract (a purpose and the values it quotes), keyboards are exact.
 */
module Effects {
  import opened Wrappers
  import opened Strings
  import opened Keyboards

  /** The wording of a message: what it is for and the values it quotes. */
  datatype Text = Text(purpose: string, args: seq<string>)

  /** One call to the Bot API. A chat addressed by a number is named by its decimal rendering. */
  datatype Effect =
    | Send(chat: string, text: Text, markup: Markup)                         // sendMessage
    | SendPhoto(chat: string, fileId: Option<string>, caption: Text)         // sendPhoto
    | EditText(chat: string, messageId: int, text: Text, markup: Markup)     // editMessageText
    | EditMarkup(chat: string, messageId: int, markup: Markup)               // editMessageReplyMarkup
    | Delete(chat: string, messageId: int)                                   // deleteMessage
    | Answer(queryId: string, notice: Option<Text>, alert: bool)             // answerCallbackQuery

  /** A numeric chat id as Telegram receives it. */
  function Chat(id: int): string {
    IntToString(id)
  }

  /** A message without a keyboard or text arguments. */
  function Plain(chat: string, purpose: string): Effect {
    Send(chat, Text(purpose, []), NoMarkup)
  }

  /** The same message to every id of `ids`, in order (the loops over `adminUserIds`). */
  function ToAll(ids: seq<int>, text: Text, markup: Markup): (fx: seq<Effect>)
    ensures |fx| == |ids|
    ensures forall i :: 0 <= i < |ids| ==> fx[i] == Send(Chat(ids[i]), text, markup)
  {
    if ids == [] then [] else [Send(Chat(ids[0]), text, markup)] + ToAll(ids[1..], text, markup)
  }

  /** The text of `notifyAdminsDriverStatus(name, status)`. */
  function DriverStatusText(driverName: string, status: string): Text {
    Text("driver_status", [driverName, status])
  }
}
