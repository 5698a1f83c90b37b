/**
 * The value vocabulary of the dispatch bot: order, driver and payment statuses, and the
 * inbound Telegram values (users, locations, messages, callback queries) the handlers read.
 */
module Domain {
  import opened Wrappers
  import opened Strings

  datatype OrderStatus = Draft | New | NewOnline | ActiveReady | ActivePickedUp | Arrived | Completed | Cancelled

  datatype DriverStatus = Offline | Online | Assigned | Busy | Blocked

  datatype PaymentStatus = Paid | NotPaidYet

  /** Statuses of an order not yet sent to a driver: new, draft and new_online. */
  predicate Undispatched(s: OrderStatus) {
    s == New || s == Draft || s == NewOnline
  }

  /** Statuses of an order on the road: active_ready, active_pickedup and arrived. */
  predicate Active(s: OrderStatus) {
    s == ActiveReady || s == ActivePickedUp || s == Arrived
  }

  /** Driver statuses offered for assignment: online, busy and assigned. */
  predicate Connected(s: DriverStatus) {
    s == Online || s == Busy || s == Assigned
  }

  /** A Telegram user; an absent optional name field is the empty string. */
  datatype TgUser = TgUser(id: int, firstName: string, lastName: string, username: string)

  /**
   * The name given to a new customer or driver: first and last name joined by a space
   * (empty ones dropped), else the username, else the decimal id.
   */
  function DisplayName(u: TgUser): (name: string)
    ensures name != ""
    ensures u.firstName != "" && u.lastName != "" ==> name == u.firstName + " " + u.lastName
    ensures u.firstName == "" && u.lastName == "" && u.username == "" ==> name == IntToString(u.id)
  {
    var joined :=
      if u.firstName != "" && u.lastName != "" then u.firstName + " " + u.lastName
      else u.firstName + u.lastName;    // at most one of them is non-empty here
    if joined != "" then joined
    else if u.username != "" then u.username
    else IntToString(u.id)
  }

  /** A shared location; the coordinates are kept as their decimal renderings. */
  datatype Location = Location(latitude: string, longitude: string)

  /**
   * An inbound message. Absent optional text fields are empty strings and an absent photo
   * is the empty sequence of file ids (sizes in ascending order, as Telegram sends them).
   */
  datatype Message = Message(
    messageId: int,
    chatId: int,
    from: Option<TgUser>,
    text: string,
    caption: string,
    location: Option<Location>,
    photo: seq<string>,
    forwardFrom: Option<TgUser>,
    forwardSenderName: string)

  /** The message a callback button was attached to. */
  datatype MessageRef = MessageRef(chatId: int, messageId: int)

  /** An inbound button press; absent data is the empty string. */
  datatype CallbackQuery = CallbackQuery(id: string, from: TgUser, message: Option<MessageRef>, data: string)

  /** A stored payment QR code. */
  datatype QRCode = QRCode(id: string, title: string, fileId: Option<string>)

  /** What the driver-facing keyboards need to know about a driver. */
  datatype DriverEntry = DriverEntry(id: string, name: string, status: DriverStatus)
}
