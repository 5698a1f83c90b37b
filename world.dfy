/**
 * The webhook's in-memory state and its handlers. `World` holds the module-level tables of the
 * webhook (orders, drivers, customers, sessions, QR codes, admin ids, admin language
 * preferences, pending disconnect prompts); each handler is a method that changes exactly what
 * the corresponding branch of the webhook changes and returns the Bot API calls it makes.
 */
module Dispatch {
  import opened Wrappers
  import opened Strings
  import opened Lists
  import opened Domain
  import opened Callbacks
  import opened Keyboards
  import opened Intake
  import opened Effects
  import Sessions

  /** A customer record. Orders hold a reference to it, so a rename shows in all of them. */
  class Customer {
    const id: string
    var name: string
    var language: Option<string>

    constructor (id: string, name: string)
      ensures this.id == id && this.name == name && language == None
    {
      this.id := id;
      this.name := name;
      language := None;
    }
  }

  /** A registered driver; the id is the decimal Telegram user id. */
  class Driver {
    const id: string
    const name: string
    var status: DriverStatus
    var currentOrderId: Option<string>

    constructor (id: string, name: string)
      ensures this.id == id && this.name == name && status == Offline && currentOrderId == None
    {
      this.id := id;
      this.name := name;
      status := Offline;
      currentOrderId := None;
    }
  }

  /** An order. Absent optional fields are `None`; amounts are exact reals. */
  class Order {
    const id: string
    const createdAt: int
    const customer: Customer
    var locationLink: string
    var status: OrderStatus
    var driverId: Option<string>
    var items: string
    var paymentMethod: Option<string>
    var paymentStatus: Option<PaymentStatus>
    var totalAmount: Option<real>
    var cashGiven: Option<real>
    var cashChange: Option<real>
    var feedback: Option<int>

    constructor (id: string, createdAt: int, customer: Customer, locationLink: string, status: OrderStatus, items: string)
      ensures this.id == id && this.createdAt == createdAt && this.customer == customer
      ensures this.locationLink == locationLink && this.status == status && this.items == items
      ensures driverId == None && paymentMethod == None && paymentStatus == None
      ensures totalAmount == None && cashGiven == None && cashChange == None && feedback == None
    {
      this.id := id;
      this.createdAt := createdAt;
      this.customer := customer;
      this.locationLink := locationLink;
      this.status := status;
      this.items := items;
      driverId := None;
      paymentMethod := None;
      paymentStatus := None;
      totalAmount := None;
      cashGiven := None;
      cashChange := None;
      feedback := None;
    }
  }

  /** The first customer of `cs` with the given name (`customers.find(c => c.name === name)`). */
  function CustomerNamed(cs: seq<Customer>, name: string): (r: Option<Customer>)
    reads cs
    ensures r.Some? ==> r.value in cs && r.value.name == name
    ensures r.None? ==> forall c :: c in cs ==> c.name != name
    ensures r.Some? ==> exists j :: 0 <= j < |cs| && cs[j] == r.value && forall i :: 0 <= i < j ==> cs[i].name != name
    decreases |cs|
  {
    if cs == [] then None
    else if cs[0].name == name then Some(cs[0])
    else CustomerNamed(cs[1..], name)
  }

  /** What the keyboards see of the drivers: id, name and current status, in list order. */
  function Entries(ds: seq<Driver>): (es: seq<DriverEntry>)
    reads ds
    ensures |es| == |ds|
    ensures forall i :: 0 <= i < |ds| ==> es[i] == DriverEntry(ds[i].id, ds[i].name, ds[i].status)
  {
    if ds == [] then [] else [DriverEntry(ds[0].id, ds[0].name, ds[0].status)] + Entries(ds[1..])
  }

  /** The part of a split token at `i`, undefined past the end (`parts[i]`). */
  function Part(parts: seq<string>, i: nat): Option<string> {
    if i < |parts| then Some(parts[i]) else None
  }

  /** A state record with only the mode set. */
  function ModeOnly(mode: string): Sessions.State {
    map[Sessions.Mode := Some(mode)]
  }

  /** The state of an `edit` session for one field of one order. */
  function EditState(field: string, orderId: Option<string>): Sessions.State {
    map[Sessions.Mode := Some("edit"), Sessions.Field := Some(field), Sessions.OrderId := orderId]
  }

  /** The steps of a `driver:<step>:<id>` token, by the word of the step. */
  datatype Step =
    | StepPickup | StepArrived | StepCompleted | StepDelay | StepLocation | StepCancelRequest
    | StepCancelApprove | StepCancelDeny | StepDetail | StepEdit | StepSave | StepCancelEdit | StepUnknown

  function StepOf(word: string): Step {
    if word == "pickup" then StepPickup
    else if word == "arrived" then StepArrived
    else if word == "completed" then StepCompleted
    else if word == "delay" then StepDelay
    else if word == "location" then StepLocation
    else if word == "cancel_request" then StepCancelRequest
    else if word == "cancel_approve" then StepCancelApprove
    else if word == "cancel_deny" then StepCancelDeny
    else if word == "active_order_detail" then StepDetail
    else if word == "edit" then StepEdit
    else if word == "save" then StepSave
    else if word == "cancel_edit" then StepCancelEdit
    else StepUnknown
  }

  /** The steps that set the order's status: pickup, arrival, completion and a cancellation decision. */
  predicate ChangesOrderStatus(s: Step) {
    s == StepPickup || s == StepArrived || s == StepCompleted || s == StepCancelApprove || s == StepCancelDeny
  }

  /** No two drivers of `ds` share an id. */
  predicate DistinctIds(ds: seq<Driver>) {
    forall i, j :: 0 <= i < j < |ds| ==> ds[i].id != ds[j].id
  }

  /** Taking a driver out keeps the ids distinct. */
  lemma RemoveAtDistinct(ds: seq<Driver>, k: nat)
    requires k < |ds| && DistinctIds(ds)
    ensures DistinctIds(RemoveAt(ds, k))
  {
    var r := RemoveAt(ds, k);
    forall a, b | 0 <= a < b < |r| ensures r[a].id != r[b].id {
      var a0 := if a < k then a else a + 1;
      var b0 := if b < k then b else b + 1;
      assert r[a] == ds[a0] && r[b] == ds[b0];
    }
  }

  /** A button press on a message: who pressed, the message's chat and id, and the split token. */
  datatype Press = Press(queryId: string, from: TgUser, chatId: int, messageId: int, parts: seq<string>)

  /** The press a callback query with a message stands for. */
  function PressOf(q: CallbackQuery): Press
    requires q.message.Some?
  {
    Press(q.id, q.from, q.message.value.chatId, q.message.value.messageId, Split(q.data, ':'))
  }

  /** The chat the pressed message is in. */
  function Here(p: Press): string {
    Chat(p.chatId)
  }

  /** The order card (`formatOrderDetails`), named by the order it shows. */
  function Details(id: string): Text {
    Text("order_details", [id])
  }

  /**
   * A message to the order's customer, sent only when the customer id is all digits (the
   * `/^\d+$/` test), to the chat that `parseInt` of the id names (its digits' value, by
   * `ParseIntOfDecimal`).
   */
  function CustomerNotice(o: Order, t: Text, markup: Markup): (fx: seq<Effect>)
    ensures |fx| <= 1
    ensures fx != [] <==> IsDecimal(o.customer.id)
    ensures fx != [] ==> fx[0].Send? && Some(DigitsValue(o.customer.id)) == ParseInt(o.customer.id)
  {
    if IsDecimal(o.customer.id) then
      ParseIntOfDecimal(o.customer.id);
      [Send(Chat(DigitsValue(o.customer.id)), t, markup)]
    else []
  }

  /** `parseInt` of a part that may be undefined (`NaN` is `None`). */
  function ParseIntOpt(s: Option<string>): Option<int> {
    if s.Some? then ParseInt(s.value) else None
  }

  /** The pending-prompt keys `disconnectTimers.delete(parseInt(driverId, 10))` removes. */
  function TimerKey(driverId: string): set<int> {
    match ParseInt(driverId)
    case Some(n) => {n}
    case None => {}
  }

  /** One line of a disconnection report: the order and its score, `N/A` when absent or zero. */
  function FeedbackNote(o: Order): string
    reads o
  {
    o.id + ": " + (if o.feedback.Some? && o.feedback.value != 0 then IntToString(o.feedback.value) else "N/A") + " stars"
  }

  /** The notes of the orders in `os` that driver `driverId` completed, in order. */
  function FeedbackNotes(os: seq<Order>, driverId: string): (notes: seq<string>)
    reads os
    ensures |notes| <= |os|
    ensures forall i :: 0 <= i < |notes| ==> notes[i] != ""
    decreases |os|
  {
    if os == [] then []
    else
      var rest := FeedbackNotes(os[1..], driverId);
      if os[0].driverId == Some(driverId) && os[0].status == Completed then [FeedbackNote(os[0])] + rest
      else rest
  }

  /** The report body: the notes one per line, or `None` when there are none (`[].join` is empty). */
  function Report(notes: seq<string>): string {
    if notes == [] then "None" else Join(notes, '\n')
  }

  /** The orders shown by the archive: completed or cancelled, in order. */
  function Archived(os: seq<Order>): (r: seq<Order>)
    reads os
    ensures forall o :: o in r ==> o in os && (o.status == Completed || o.status == Cancelled)
    ensures forall o :: o in os && (o.status == Completed || o.status == Cancelled) ==> o in r
    decreases |os|
  {
    if os == [] then []
    else if os[0].status == Completed || os[0].status == Cancelled then [os[0]] + Archived(os[1..])
    else Archived(os[1..])
  }

  /** The words of a delay notice for a delay button (`lt5`, `lt2`, `gt10`), empty otherwise. */
  function DelayLine(sub: string): string {
    if sub == "lt5" then "give_me_5_minutes"
    else if sub == "lt2" then "couple_of_minutes"
    else if sub == "gt10" then "about_10_minutes"
    else ""
  }

  /** No payment data recorded yet: the optional fields of a freshly built order are all absent. */
  predicate Unsettled(o: Order)
    reads o
  {
    && o.driverId == None && o.paymentMethod == None && o.paymentStatus == None
    && o.totalAmount == None && o.cashGiven == None && o.cashChange == None && o.feedback == None
  }

  /** JavaScript truthiness of an amount: present and not zero. */
  predicate NonZero(x: Option<real>) {
    x.Some? && x.value != 0.0
  }

  /**
   * The order intake builds from a message: a new order with the given number and time, the
   * extracted link (or the placeholder) and items, and nothing else set.
   */
  predicate IntakeOrder(o: Order, m: Message, orderNumber: string, now: int)
    reads o
  {
    var e := Extract(m.text, m.caption, m.location);
    && o.id == orderNumber && o.createdAt == now && o.status == New
    && o.locationLink == e.link.GetOr("No location provided") && o.items == e.items
    && Unsettled(o)
  }

  /** The id an `add_admin` reply proposes: the forwarded user's, else an all-digits text's value. */
  function AdminCandidate(m: Message): (n: Option<int>)
    ensures m.forwardFrom.None? && IsDecimal(m.text) ==> n == Some(DigitsValue(m.text))
    ensures m.forwardFrom.None? && !IsDecimal(m.text) ==> n.None?
  {
    if m.forwardFrom.Some? then Some(m.forwardFrom.value.id)
    else if IsDecimal(m.text) then
      ParseIntOfDecimal(m.text);
      ParseInt(m.text)
    else None
  }

  /** The fields an `edit` session's reply can change, by the session's `field`. */
  datatype EditKind = EditCustomer | EditLocation | EditItems | EditTotal | EditCash | EditOther

  function EditKindOf(field: Option<string>): EditKind {
    if field == Some("customer") then EditCustomer
    else if field == Some("location") then EditLocation
    else if field == Some("items") then EditItems
    else if field == Some("total") then EditTotal
    else if field == Some("cash_given") then EditCash
    else EditOther
  }

  /** The field name the edit confirmation reports (`undefined` when the session has none). */
  function UpdatedField(field: Option<string>): string {
    if field == Some("cash_given") then "cash payment" else field.GetOr("undefined")
  }

  /** The button branches that only show or change the admin's screens and tables. */
  predicate AdminScreen(b: CallbackBranch) {
    || b in {AdminMainMenu, AdminArchive, AdminSettings, ManageQrs, AddQr, QrCode, ManageAdmins, ManageDrivers}
    || b in {AddAdmin, RemoveAdmin}
    || b.SetAdminLanguage?
  }

  /** The branch of the message handler that runs. */
  datatype MessageBranch =
    | NoSender           // no sender id: nothing happens
    | AdminListView      // one of the admin's list buttons: display only
    | AdminSettingsView
    | NewDraft
    | OrderItems         // session steps, in the handler's order
    | OrderLocation
    | CashGiven
    | EditField
    | QrPhoto
    | QrTitle
    | AddAdminInput
    | StartCommand       // commands, by the text's first word
    | RegisterCommand
    | DisconnectCommand
    | NewOrderIntake     // an admin's forward, location, link or multi-line text
    | Ignored

  /** The admin list buttons the handler answers with a display of orders or drivers. */
  const ListTexts: set<string> := {DraftText, ActiveText, CompletedText, OrdersText, DriversText}

  /** The word a text command starts with (`text.split(' ')[0]`). */
  function CommandOf(text: string): string {
    Split(text, ' ')[0]
  }

  /** The message an admin's intake takes for an order: a forward, a location, a link or several lines. */
  predicate LooksLikeOrder(m: Message) {
    || m.forwardFrom.Some? || m.forwardSenderName != "" || m.location.Some?
    || (m.text != "" && ("http" <= m.text || '\n' in m.text))
  }

  /** The mode of the sender's session, if there is one. */
  function ModeOf(session: Option<Sessions.State>): Option<string> {
    if session.Some? then Sessions.Get(session.value, Sessions.Mode) else None
  }

  /**
   * The handler's chain of tests, in source order: the admin's menu texts, then the session
   * steps, then the commands, then an admin's order intake.
   */
  function RouteMessage(m: Message, isAdmin: bool, session: Option<Sessions.State>): (b: MessageBranch)
    ensures b == NoSender <==> m.from.None? || m.from.value.id == 0
    ensures !isAdmin ==> b !in {AdminListView, AdminSettingsView, NewDraft, NewOrderIntake}
    ensures session.None? ==> b !in {OrderItems, OrderLocation, CashGiven, EditField, QrPhoto, QrTitle, AddAdminInput}
    ensures b == NewOrderIntake ==> LooksLikeOrder(m)
    ensures b == EditField ==> Truthy(Sessions.Get(session.value, Sessions.OrderId))
    ensures b == QrPhoto ==> m.photo != []
    ensures b == OrderLocation ==> m.location.Some?
  {
    var mode := ModeOf(session);
    if m.from.None? || m.from.value.id == 0 then NoSender
    else if isAdmin && m.text == SettingsText then AdminSettingsView
    else if isAdmin && m.text in ListTexts then AdminListView
    else if isAdmin && m.text == NewDraftText then NewDraft
    else if mode == Some("online_order_items") && m.text != "" then OrderItems
    else if mode == Some("online_order_location") && m.location.Some? then OrderLocation
    else if mode == Some("customer_cash_given") && m.text != "" then CashGiven
    else if mode == Some("edit") && Truthy(Sessions.Get(session.value, Sessions.OrderId)) then EditField
    else if mode == Some("add_qr_photo") && m.photo != [] then QrPhoto
    else if mode == Some("add_qr_title") && m.text != "" then QrTitle
    else if mode == Some("add_admin") then AddAdminInput
    else CommandOrIntake(m, isAdmin)
  }

  /** The end of the handler's chain: the commands, by the text's first word, then an admin's intake. */
  function CommandOrIntake(m: Message, isAdmin: bool): MessageBranch {
    if m.text != "" && CommandOf(m.text) == "/start" then StartCommand
    else if m.text != "" && CommandOf(m.text) == "/register" then RegisterCommand
    else if m.text != "" && CommandOf(m.text) == "/disconnect" then DisconnectCommand
    else if isAdmin && LooksLikeOrder(m) then NewOrderIntake
    else Ignored
  }

  /** The session modes whose steps the handler tests before the commands. */
  const StepModes: set<string> :=
    {"online_order_items", "online_order_location", "customer_cash_given", "edit", "add_qr_photo", "add_qr_title", "add_admin"}

  /** The admin's menu texts, which the handler tests before anything else. */
  predicate MenuText(t: string) {
    t == SettingsText || t in ListTexts || t == NewDraftText
  }

  /** The first word of a command, alone or followed by arguments, is the command. */
  lemma CommandOfWords(cmd: string, rest: string)
    requires ' ' !in cmd
    ensures CommandOf(cmd) == cmd
    ensures CommandOf(cmd + " " + rest) == cmd
    ensures cmd != "" ==> (cmd + " " + rest)[0] == cmd[0]
  {
    SplitWithoutSeparator(cmd, ' ');
    SplitAtFirstSeparator(cmd, ' ', rest);
  }

  /** A text whose first character is not a slash is no command. */
  lemma NoSlashNoCommand(text: string)
    requires text != "" && text[0] != '/'
    ensures CommandOf(text) !in {"/start", "/register", "/disconnect"}
  {
    var w := CommandOf(text);
    if w != "" {
      assert w[0] == text[0];
    }
  }

  /** Outside a session step, a message that is no menu text of an admin goes to the commands and intake. */
  lemma RouteOutsideSteps(m: Message, isAdmin: bool, session: Option<Sessions.State>)
    requires m.from.Some? && m.from.value.id != 0
    requires !(isAdmin && MenuText(m.text))
    requires ModeOf(session).None? || ModeOf(session).value !in StepModes
    ensures RouteMessage(m, isAdmin, session) == CommandOrIntake(m, isAdmin)
  {
  }

  /**
   * A command, alone or with arguments, runs for any sender, admin or not, unless a session
   * step is pending.
   */
  lemma RouteCommand(m: Message, isAdmin: bool, session: Option<Sessions.State>, cmd: string, rest: string)
    requires m.from.Some? && m.from.value.id != 0
    requires cmd in {"/start", "/register", "/disconnect"}
    requires m.text == cmd || m.text == cmd + " " + rest
    requires ModeOf(session).None? || ModeOf(session).value !in StepModes
    ensures RouteMessage(m, isAdmin, session) ==
      if cmd == "/start" then StartCommand else if cmd == "/register" then RegisterCommand else DisconnectCommand
  {
    CommandOfWords(cmd, rest);
    assert CommandOf(m.text) == cmd;
    SlashNotMenu(m.text);
    RouteOutsideSteps(m, isAdmin, session);
  }

  /** No menu text starts with a slash. */
  lemma SlashNotMenu(t: string)
    requires t != "" && t[0] == '/'
    ensures !MenuText(t)
  {
  }

  /** A pending add_admin step takes every message that is no menu text, commands included. */
  lemma AddAdminStepFirst(m: Message, isAdmin: bool, session: Option<Sessions.State>)
    requires m.from.Some? && m.from.value.id != 0
    requires ModeOf(session) == Some("add_admin")
    requires !(isAdmin && MenuText(m.text))
    ensures RouteMessage(m, isAdmin, session) == AddAdminInput
  {
  }

  /** The admin's menu texts win over any pending session step. */
  lemma MenuTextsFirst(m: Message, session: Option<Sessions.State>)
    requires m.from.Some? && m.from.value.id != 0
    requires MenuText(m.text)
    ensures RouteMessage(m, true, session) ==
      if m.text == SettingsText then AdminSettingsView
      else if m.text == NewDraftText then NewDraft
      else AdminListView
  {
  }

  /**
   * Outside a session step, a message that looks like an order and does not start with a slash
   * is taken in as a new order when an admin sends it and ignored otherwise.
   */
  lemma RouteIntake(m: Message, isAdmin: bool, session: Option<Sessions.State>)
    requires m.from.Some? && m.from.value.id != 0
    requires !MenuText(m.text) && (m.text == "" || m.text[0] != '/')
    requires ModeOf(session).None? || ModeOf(session).value !in StepModes
    requires LooksLikeOrder(m)
    ensures RouteMessage(m, isAdmin, session) == if isAdmin then NewOrderIntake else Ignored
  {
    RouteOutsideSteps(m, isAdmin, session);
    if m.text != "" {
      NoSlashNoCommand(m.text);
    }
  }

  class World {
    var orders: seq<Order>
    var drivers: seq<Driver>
    var customers: seq<Customer>
    var sessions: seq<Sessions.Session>
    var qrCodes: seq<QRCode>
    var adminUserIds: seq<int>
    const primaryAdminId: int
    var adminLanguagePrefs: map<int, string>
    /** The drivers (by numeric id) with a repeating disconnect prompt pending. */
    var disconnectTimers: set<int>

    /**
     * What every handler keeps: the primary admin stays an admin, a user has at most one
     * session, and no two drivers share an id.
     */
    ghost predicate Valid()
      reads this
    {
      && primaryAdminId in adminUserIds
      && Sessions.Unique(sessions)
      && DistinctIds(drivers)
    }

    /** Start-up: `ADMIN_USER_IDS` parsed, its first id the primary admin, who prefers English. */
    constructor (adminIds: seq<int>)
      requires |adminIds| > 0
      ensures Valid()
      ensures primaryAdminId == adminIds[0] && adminUserIds == adminIds
      ensures adminLanguagePrefs == map[adminIds[0] := "en"]
      ensures orders == [] && drivers == [] && customers == [] && sessions == [] && qrCodes == []
      ensures disconnectTimers == {}
    {
      primaryAdminId := adminIds[0];
      adminUserIds := adminIds;
      adminLanguagePrefs := map[adminIds[0] := "en"];
      orders := [];
      drivers := [];
      customers := [];
      sessions := [];
      qrCodes := [];
      disconnectTimers := {};
    }

    predicate IsAdmin(chatId: int)
      reads this
    {
      chatId in adminUserIds
    }

    /** The customers that orders refer to (not all of them are in `customers`). */
    function OrderCustomers(): set<Customer>
      reads this
    {
      set o | o in orders :: o.customer
    }

    function FindOrder(id: string): (r: Option<Order>)
      reads this
      ensures r.Some? ==> r.value in orders && r.value.id == id
      ensures r.None? ==> forall o :: o in orders ==> o.id != id
      ensures r.Some? ==> exists j :: 0 <= j < |orders| && orders[j] == r.value && forall i :: 0 <= i < j ==> orders[i].id != id
    {
      Find(orders, (o: Order) => o.id == id)
    }

    function FindDriver(id: string): (r: Option<Driver>)
      reads this
      ensures r.Some? ==> r.value in drivers && r.value.id == id
      ensures r.None? ==> forall d :: d in drivers ==> d.id != id
    {
      Find(drivers, (d: Driver) => d.id == id)
    }

    function FindCustomer(id: string): (r: Option<Customer>)
      reads this
      ensures r.Some? ==> r.value in customers && r.value.id == id
      ensures r.None? ==> forall c :: c in customers ==> c.id != id
      ensures r.Some? ==> exists j :: 0 <= j < |customers| && customers[j] == r.value && forall i :: 0 <= i < j ==> customers[i].id != id
    {
      Find(customers, (c: Customer) => c.id == id)
    }

    /** Nothing a handler can reach has changed: the tables, and every order, driver and customer. */
    twostate predicate Untouched()
      reads this, orders, drivers, customers, OrderCustomers()
    {
      unchanged(this) && unchanged(orders) && unchanged(drivers) && unchanged(customers) && unchanged(OrderCustomers())
    }

    /** The drivers a handler addressing driver `id` may change: the one with that id, if any. */
    function DriverWithId(id: Option<string>): set<Driver>
      reads this
    {
      set d | d in drivers && Some(d.id) == id
    }

    // -------------------------------------------------------------------------
    // Session table
    // -------------------------------------------------------------------------

    /** `setSession`: merge `st` into the user's record, or append a record for the user. */
    method SetSession(userId: int, st: Sessions.State)
      requires Valid()
      modifies this`sessions
      ensures Valid()
      ensures sessions == Sessions.Put(old(sessions), userId, st)
    {
      Sessions.PutUnique(sessions, userId, st);
      var index := Sessions.IndexOfUser(sessions, userId);
      if index > -1 {
        sessions := sessions[index := Sessions.Session(userId, sessions[index].state + st)];
      } else {
        sessions := sessions + [Sessions.Session(userId, st)];
      }
    }

    /** `clearSession`: drop the user's record, if any. */
    method ClearSession(userId: int)
      requires Valid()
      modifies this`sessions
      ensures Valid()
      ensures sessions == Sessions.Clear(old(sessions), userId)
      ensures Sessions.Lookup(sessions, userId).None?
    {
      Sessions.ClearUnique(sessions, userId);
      Sessions.ClearRemoves(sessions, userId);
      var index := Sessions.IndexOfUser(sessions, userId);
      if index > -1 {
        sessions := RemoveAt(sessions, index);
      }
    }

    // -------------------------------------------------------------------------
    // Find-or-create
    // -------------------------------------------------------------------------

    /**
     * `findOrCreateCustomer`. A user without an id gets a fresh fallback record named after the
     * clock, added to the table only if no record has that id; otherwise the record with the
     * user's decimal id is returned, or created and appended.
     */
    method FindOrCreateCustomer(user: TgUser, now: int) returns (c: Customer)
      modifies this`customers
      ensures user.id == 0 ==>
        var fallback := "User_" + IntToString(now);
        && fresh(c) && c.id == fallback && c.name == fallback && c.language == None
        && customers == old(customers) + (if old(FindCustomer(fallback)).None? then [c] else [])
      ensures user.id != 0 ==>
        match old(FindCustomer(IntToString(user.id)))
        case Some(existing) => c == existing && customers == old(customers)
        case None =>
          && fresh(c) && c.id == IntToString(user.id) && c.name == DisplayName(user) && c.language == None
          && customers == old(customers) + [c]
    {
      if user.id == 0 {
        var fallbackName := "User_" + IntToString(now);
        c := new Customer(fallbackName, fallbackName);
        if FindCustomer(fallbackName).None? {
          customers := customers + [c];
        }
        return;
      }
      var found := FindCustomer(IntToString(user.id));
      if found.Some? {
        c := found.value;
      } else {
        c := new Customer(IntToString(user.id), DisplayName(user));
        customers := customers + [c];
      }
    }

    /**
     * `findOrCreateDriver`: the driver with the user's decimal id, or a new offline driver
     * appended to the table. An existing driver is returned untouched.
     */
    method FindOrCreateDriver(user: TgUser) returns (d: Driver)
      requires Valid()
      modifies this`drivers
      ensures Valid()
      ensures match old(FindDriver(IntToString(user.id)))
        case Some(existing) => d == existing && drivers == old(drivers)
        case None =>
          && fresh(d) && d.id == IntToString(user.id) && d.name == DisplayName(user)
          && d.status == Offline && d.currentOrderId == None
          && drivers == old(drivers) + [d]
    {
      var found := FindDriver(IntToString(user.id));
      if found.Some? {
        d := found.value;
      } else {
        d := new Driver(IntToString(user.id), DisplayName(user));
        drivers := drivers + [d];
      }
    }

    // -------------------------------------------------------------------------
    // Notifications
    // -------------------------------------------------------------------------

    /** One message to each admin, in list order. */
    method NotifyAdmins(text: Text, markup: Markup) returns (fx: seq<Effect>)
      ensures fx == ToAll(adminUserIds, text, markup)
    {
      fx := [];
      for i := 0 to |adminUserIds|
        invariant |fx| == i
        invariant forall k :: 0 <= k < i ==> fx[k] == Send(Chat(adminUserIds[k]), text, markup)
      {
        fx := fx + [Send(Chat(adminUserIds[i]), text, markup)];
      }
    }

    // -------------------------------------------------------------------------
    // Commands
    // -------------------------------------------------------------------------

    /** `/register`: the sender becomes a driver (if new) and is set online, even if blocked. */
    method Register(user: TgUser) returns (fx: seq<Effect>)
      requires Valid()
      modifies this`drivers, DriverWithId(Some(IntToString(user.id)))`status
      ensures Valid()
      ensures var id := IntToString(user.id);
        && FindDriver(id).Some?
        && FindDriver(id).value.status == Online
        && drivers == old(drivers) + (if old(FindDriver(id)).None? then [FindDriver(id).value] else [])
        && (old(FindDriver(id)).None? ==> fresh(FindDriver(id).value))
      ensures fx == [Plain(Chat(user.id), "registered")]
        + ToAll(adminUserIds, DriverStatusText(FindDriver(IntToString(user.id)).value.name, "online"), NoMarkup)
    {
      var d := FindOrCreateDriver(user);
      d.status := Online;
      var notes := NotifyAdmins(DriverStatusText(d.name, "online"), NoMarkup);
      fx := [Plain(Chat(user.id), "registered")] + notes;
      assert FindDriver(IntToString(user.id)) == Some(d) by { FoundDriverIsUnique(d); }
    }

    /** With unique ids, a driver of the table is the one found under its id. */
    lemma FoundDriverIsUnique(d: Driver)
      requires Valid() && d in drivers
      ensures FindDriver(d.id) == Some(d)
    {
      var k := FindIndex(drivers, (e: Driver) => e.id == d.id);
      var j :| 0 <= j < |drivers| && drivers[j] == d;
      assert 0 <= k;
      assert drivers[k].id == d.id;
      assert k == j;
    }

    /**
     * `/disconnect`. An unknown or offline driver is told so. A busy or assigned driver needs an
     * admin's approval: every admin is asked and the driver gets a prompt, which repeats (a
     * pending timer). Any other driver, blocked ones included, goes offline.
     */
    method Disconnect(user: TgUser) returns (fx: seq<Effect>)
      requires Valid()
      modifies this`disconnectTimers, DriverWithId(Some(IntToString(user.id)))`status
      ensures Valid()
      ensures match old(FindDriver(IntToString(user.id)))
        case None =>
          disconnectTimers == old(disconnectTimers) && fx == [Plain(Chat(user.id), "already_disconnected")]
        case Some(d) =>
          if old(d.status) == Offline then
            d.status == Offline && disconnectTimers == old(disconnectTimers)
            && fx == [Plain(Chat(user.id), "already_disconnected")]
          else if old(d.status) == Busy || old(d.status) == Assigned then
            && d.status == old(d.status)
            && disconnectTimers == old(disconnectTimers) + {user.id}
            && fx == ToAll(adminUserIds, Text("disconnect_request", [d.name]), Inline(DisconnectApprovalKeyboard(d.id)))
                     + [Plain(Chat(user.id), "disconnect_prompt")]
          else
            && d.status == Offline && disconnectTimers == old(disconnectTimers)
            && fx == [Plain(Chat(user.id), "disconnected")] + ToAll(adminUserIds, DriverStatusText(d.name, "offline"), NoMarkup)
    {
      var found := FindDriver(IntToString(user.id));
      if found.None? || found.value.status == Offline {
        fx := [Plain(Chat(user.id), "already_disconnected")];
        return;
      }
      var d := found.value;
      if d.status == Busy || d.status == Assigned {
        var asks := NotifyAdmins(Text("disconnect_request", [d.name]), Inline(DisconnectApprovalKeyboard(d.id)));
        fx := asks + [Plain(Chat(user.id), "disconnect_prompt")];
        disconnectTimers := disconnectTimers + {user.id};
      } else {
        d.status := Offline;
        var notes := NotifyAdmins(DriverStatusText(d.name, "offline"), NoMarkup);
        fx := [Plain(Chat(user.id), "disconnected")] + notes;
      }
    }

    // -------------------------------------------------------------------------
    // Lookups shared by the button handlers
    // -------------------------------------------------------------------------

    /** The customer records of a user with a non-zero id (the ones `findOrCreateCustomer` may return). */
    function CustomerWithId(user: TgUser): set<Customer>
      reads this
    {
      set c | c in customers && user.id != 0 && c.id == IntToString(user.id)
    }

    /** The driver an order's truthy `driverId` names, if any (the drivers `go` and `completed` touch). */
    function AssignedDriver(o: Order): set<Driver>
      reads this, o
    {
      if Truthy(o.driverId) then DriverWithId(o.driverId) else {}
    }

    /** `drivers.find(d => d.id === id)` for an id that may be undefined. */
    function FindDriverOpt(id: Option<string>): (r: Option<Driver>)
      reads this
      ensures r.Some? ==> r.value in drivers && Some(r.value.id) == id
      ensures r.None? ==> forall d :: d in drivers ==> Some(d.id) != id
    {
      var k := DriverIndex(id);
      if k < 0 then None else Some(drivers[k])
    }

    function OrderIndex(id: string): int
      reads this
    {
      FindIndex(orders, (o: Order) => o.id == id)
    }

    function DriverIndex(id: Option<string>): int
      reads this
    {
      FindIndex(drivers, (d: Driver) => Some(d.id) == id)
    }

    function QrIndex(id: Option<string>): int
      reads this
    {
      FindIndex(qrCodes, (q: QRCode) => Some(q.id) == id)
    }

    /** `adminLanguagePrefs.get(id)`. */
    function Pref(adminId: int): Option<string>
      reads this
    {
      if adminId in adminLanguagePrefs then Some(adminLanguagePrefs[adminId]) else None
    }

    /** The name the delay and feedback notices give the order's driver: `Driver` when unknown. */
    function DriverNameOf(o: Order): string
      reads this, o
    {
      if !Truthy(o.driverId) then "Driver"
      else match FindDriver(o.driverId.value)
        case Some(d) => if d.name != "" then d.name else "Driver"
        case None => "Driver"
    }

    /**
     * What `findOrCreateCustomer(user)` leaves: for a user without an id a fresh fallback record
     * named after the clock, added only when no record has the fallback id; otherwise the record
     * with the user's decimal id, or a fresh one appended.
     */
    twostate predicate CustomerFoundOrCreated(user: TgUser, now: int, new c: Customer)
      reads this, c
    {
      if user.id == 0 then
        var fallback := "User_" + IntToString(now);
        && fresh(c) && c.id == fallback && c.name == fallback
        && customers == old(customers) + (if old(FindCustomer(fallback)).None? then [c] else [])
      else
        match old(FindCustomer(IntToString(user.id)))
        case Some(existing) => c == existing && customers == old(customers)
        case None =>
          && fresh(c) && c.id == IntToString(user.id) && c.name == DisplayName(user)
          && customers == old(customers) + [c]
    }

    /**
     * The outcome of sending an order to its driver (`go`, from either button): without a truthy
     * driver id the admin is alerted and nothing changes; otherwise the order is active and
     * ready, the driver (when registered) is assigned to it and sent the order with the driver's
     * keyboard, and the admin's message says the order went out.
     */
    twostate predicate Dispatched(p: Press, o: Order, fx: seq<Effect>)
      reads this, o, drivers
    {
      && drivers == old(drivers) && o.driverId == old(o.driverId)
      && if !Truthy(o.driverId) then
        o.status == old(o.status) && fx == [Answer(p.queryId, Some(Text("assign_driver_first", [])), true)]
      else
        var sent := EditText(Here(p), p.messageId, Text("order_sent_to_driver", [o.id]), NoMarkup);
        var id := o.driverId.value;
        && o.status == ActiveReady
        && match old(FindDriver(id))
           case None => fx == [sent]
           case Some(d) =>
             && d.status == Assigned && d.currentOrderId == Some(o.id)
             && fx == [Send(d.id, Text("order_assigned", [o.id]), Inline(DriverActionKeyboard(o.id, ActiveReady))), sent]
    }

    /** The order's registered driver, if it has one, is back online and free (`completed`). */
    twostate predicate DriverFreed(o: Order)
      reads this, o, drivers
    {
      && drivers == old(drivers) && o.driverId == old(o.driverId)
      && (Truthy(o.driverId) ==>
        var id := o.driverId.value;
        match old(FindDriver(id))
        case None => true
        case Some(d) => d.status == Online && d.currentOrderId == None)
    }

    // -------------------------------------------------------------------------
    // Button handlers that need no order
    // -------------------------------------------------------------------------

    /**
     * `lang:<code>`: the presser's customer record takes the language; a customer who was
     * starting an online order is welcomed and moves on to naming the meal.
     */
    method OnLanguage(p: Press, lang: string, now: int) returns (c: Customer, fx: seq<Effect>)
      requires Valid()
      modifies this`customers, this`sessions, CustomerWithId(p.from)`language
      ensures Valid()
      ensures CustomerFoundOrCreated(p.from, now, c) && c.language == Some(lang)
      ensures var s := old(Sessions.Lookup(sessions, p.from.id));
        if s.Some? && Sessions.Get(s.value, Sessions.Mode) == Some("online_order_start") then
          && sessions == Sessions.Put(old(sessions), p.from.id, ModeOnly("online_order_items"))
          && fx == [EditText(Here(p), p.messageId, Text("welcome", [c.name]), NoMarkup)]
        else sessions == old(sessions) && fx == []
    {
      c := FindOrCreateCustomer(p.from, now);
      c.language := Some(lang);
      var s := Sessions.Lookup(sessions, p.from.id);
      fx := [];
      if s.Some? && Sessions.Get(s.value, Sessions.Mode) == Some("online_order_start") {
        SetSession(p.from.id, ModeOnly("online_order_items"));
        fx := [EditText(Here(p), p.messageId, Text("welcome", [c.name]), NoMarkup)];
      }
    }

    /** `admin_main_menu`: the pressed message is replaced by the admin panel with its reply menu. */
    method OnAdminMainMenu(p: Press) returns (fx: seq<Effect>)
      ensures fx == [Delete(Here(p), p.messageId), Send(Here(p), Text("admin_panel", []), Keyboards.AdminMainMenu())]
    {
      fx := [Delete(Here(p), p.messageId), Send(Here(p), Text("admin_panel", []), Keyboards.AdminMainMenu())];
    }

    /** `admin_archive`: one card per completed or cancelled order, then the archive heading. */
    method OnAdminArchive(p: Press) returns (fx: seq<Effect>)
      ensures var archived := Archived(orders);
        if archived == [] then fx == [Plain(Here(p), "no_archived_orders")]
        else
          && |fx| == |archived| + 1
          && (forall i :: 0 <= i < |archived| ==> fx[i] == Send(Here(p), Details(archived[i].id), NoMarkup))
          && fx[|archived|] == Send(Here(p), Text("archived_orders", []), Keyboards.AdminMainMenu())
    {
      var archived := Archived(orders);
      if archived == [] {
        fx := [Plain(Here(p), "no_archived_orders")];
        return;
      }
      fx := [];
      for i := 0 to |archived|
        invariant |fx| == i
        invariant forall k :: 0 <= k < i ==> fx[k] == Send(Here(p), Details(archived[k].id), NoMarkup)
      {
        fx := fx + [Send(Here(p), Details(archived[i].id), NoMarkup)];
      }
      fx := fx + [Send(Here(p), Text("archived_orders", []), Keyboards.AdminMainMenu())];
    }

    /** `admin_settings`: the settings menu, marking the language this chat's admin prefers. */
    method OnAdminSettings(p: Press) returns (fx: seq<Effect>)
      ensures fx == [EditText(Here(p), p.messageId, Text("bot_settings", []), Inline(AdminSettingsKeyboard(Pref(p.chatId))))]
    {
      fx := [EditText(Here(p), p.messageId, Text("bot_settings", []), Inline(AdminSettingsKeyboard(Pref(p.chatId))))];
    }

    /** `admin_manage_qrs`: the list of stored QR codes. */
    method OnManageQrs(p: Press) returns (fx: seq<Effect>)
      ensures fx == [EditText(Here(p), p.messageId, Text("manage_qrs", []), Inline(ManageQRsKeyboard(qrCodes)))]
    {
      fx := [EditText(Here(p), p.messageId, Text("manage_qrs", []), Inline(ManageQRsKeyboard(qrCodes)))];
    }

    /** `admin_add_qr`: the presser is asked for the QR photo. */
    method OnAddQr(p: Press) returns (fx: seq<Effect>)
      requires Valid()
      modifies this`sessions
      ensures Valid()
      ensures sessions == Sessions.Put(old(sessions), p.from.id, ModeOnly("add_qr_photo"))
      ensures fx == [Plain(Here(p), "send_qr_photo")]
    {
      SetSession(p.from.id, ModeOnly("add_qr_photo"));
      fx := [Plain(Here(p), "send_qr_photo")];
    }

    /**
     * `qr:delete:<id>` takes the first QR code with that id out and shows the list again, or
     * says it is not there; `qr:view:<id>` shows a stored code; anything else does nothing.
     */
    method OnQrCode(p: Press) returns (fx: seq<Effect>)
      modifies this`qrCodes
      ensures var sub := Part(p.parts, 1);
        var k := old(QrIndex(Part(p.parts, 2)));
        if sub == Some("delete") then
          if k >= 0 then
            && qrCodes == RemoveAt(old(qrCodes), k)
            && fx == [Answer(p.queryId, Some(Text("qr_deleted", [])), false),
                      EditText(Here(p), p.messageId, Text("manage_qrs", []), Inline(ManageQRsKeyboard(qrCodes)))]
          else qrCodes == old(qrCodes) && fx == [Answer(p.queryId, Some(Text("qr_not_found", [])), false)]
        else
          && qrCodes == old(qrCodes)
          && fx == if sub == Some("view") && k >= 0 then [SendPhoto(Here(p), qrCodes[k].fileId, Text("qr_title", [qrCodes[k].title]))] else []
    {
      var k := QrIndex(Part(p.parts, 2));
      var sub := Part(p.parts, 1);
      if sub == Some("delete") {
        if k > -1 {
          qrCodes := RemoveAt(qrCodes, k);
          fx := [Answer(p.queryId, Some(Text("qr_deleted", [])), false),
                 EditText(Here(p), p.messageId, Text("manage_qrs", []), Inline(ManageQRsKeyboard(qrCodes)))];
        } else {
          fx := [Answer(p.queryId, Some(Text("qr_not_found", [])), false)];
        }
      } else if sub == Some("view") && k > -1 {
        fx := [SendPhoto(Here(p), qrCodes[k].fileId, Text("qr_title", [qrCodes[k].title]))];
      } else {
        fx := [];
      }
    }

    /**
     * `disconnect:<approve|deny>:<driverId>`, answered by an admin. An unknown driver: nothing.
     * Otherwise the driver's pending prompt is cancelled; on approve or deny the driver goes
     * offline, the admin gets the report (with feedback notes) or the penalty notice and the
     * driver is told.
     */
    method OnDisconnectDecision(p: Press) returns (fx: seq<Effect>)
      requires Valid()
      modifies this`disconnectTimers, DriverWithId(Part(p.parts, 2))`status
      ensures Valid()
      ensures match old(FindDriverOpt(Part(p.parts, 2)))
        case None => disconnectTimers == old(disconnectTimers) && fx == []
        case Some(d) =>
          var sub := Part(p.parts, 1);
          && disconnectTimers == old(disconnectTimers) - TimerKey(d.id)
          && (sub == Some("approve") ==>
                && d.status == Offline
                && fx == [Send(Here(p), Text("driver_disconnected", [d.name, Report(FeedbackNotes(orders, d.id))]), NoMarkup),
                          Plain(d.id, "disconnect_approved")])
          && (sub == Some("deny") ==>
                && d.status == Offline
                && fx == [Send(Here(p), Text("driver_disconnected_penalty", [d.name]), NoMarkup), Plain(d.id, "disconnect_denied")])
          && (sub != Some("approve") && sub != Some("deny") ==> d.status == old(d.status) && fx == [])
    {
      var found := FindDriverOpt(Part(p.parts, 2));
      if found.None? {
        fx := [];
        return;
      }
      var d := found.value;
      disconnectTimers := disconnectTimers - TimerKey(d.id);
      var sub := Part(p.parts, 1);
      if sub == Some("approve") {
        d.status := Offline;
        fx := [Send(Here(p), Text("driver_disconnected", [d.name, Report(FeedbackNotes(orders, d.id))]), NoMarkup),
               Plain(d.id, "disconnect_approved")];
      } else if sub == Some("deny") {
        d.status := Offline;
        fx := [Send(Here(p), Text("driver_disconnected_penalty", [d.name]), NoMarkup), Plain(d.id, "disconnect_denied")];
      } else {
        fx := [];
      }
    }

    /** `admin_set_lang_<code>`: the presser's admin language is set and the settings menu redrawn. */
    method OnSetAdminLanguage(p: Press, lang: string) returns (fx: seq<Effect>)
      modifies this`adminLanguagePrefs
      ensures adminLanguagePrefs == old(adminLanguagePrefs)[p.from.id := lang]
      ensures Pref(p.from.id) == Some(lang)
      ensures fx == [Plain(Here(p), "admin_language_" + lang),
                     EditMarkup(Here(p), p.messageId, Inline(AdminSettingsKeyboard(Pref(p.from.id))))]
    {
      adminLanguagePrefs := adminLanguagePrefs[p.from.id := lang];
      fx := [Plain(Here(p), "admin_language_" + lang),
             EditMarkup(Here(p), p.messageId, Inline(AdminSettingsKeyboard(Pref(p.from.id))))];
    }

    /** `admin_manage_admins`: the admin list, every admin but the primary one removable. */
    method OnManageAdmins(p: Press) returns (fx: seq<Effect>)
      ensures fx == [EditText(Here(p), p.messageId, Text("manage_admins", []), Inline(ManageAdminsKeyboard(adminUserIds, primaryAdminId)))]
    {
      var rows := BuildManageAdminsKeyboard(adminUserIds, primaryAdminId);
      fx := [EditText(Here(p), p.messageId, Text("manage_admins", []), Inline(rows))];
    }

    /** `admin_manage_drivers`: the driver list with its block, unblock and remove buttons. */
    method OnManageDrivers(p: Press) returns (fx: seq<Effect>)
      ensures fx == [EditText(Here(p), p.messageId, Text("manage_drivers", []), Inline(ManageDriversKeyboard(Entries(drivers))))]
    {
      fx := [EditText(Here(p), p.messageId, Text("manage_drivers", []), Inline(ManageDriversKeyboard(Entries(drivers))))];
    }

    /** `admin_add_admin`: the presser is asked for the new admin's id or a forward from them. */
    method OnAddAdmin(p: Press) returns (fx: seq<Effect>)
      requires Valid()
      modifies this`sessions
      ensures Valid()
      ensures sessions == Sessions.Put(old(sessions), p.from.id, ModeOnly("add_admin"))
      ensures fx == [Plain(Here(p), "send_admin_id")]
    {
      SetSession(p.from.id, ModeOnly("add_admin"));
      fx := [Plain(Here(p), "send_admin_id")];
    }

    /**
     * `admin:remove:<id>`: the primary admin cannot be removed; any other id is filtered out of
     * the admin list (an id that does not parse removes nothing) and the list is redrawn.
     */
    method OnRemoveAdmin(p: Press) returns (fx: seq<Effect>)
      requires Valid()
      modifies this`adminUserIds
      ensures Valid()
      ensures var x := ParseIntOpt(Part(p.parts, 2));
        if x == Some(primaryAdminId) then
          adminUserIds == old(adminUserIds) && fx == [Answer(p.queryId, Some(Text("cannot_remove_primary", [])), true)]
        else
          && adminUserIds == (if x.Some? then Without(old(adminUserIds), x.value) else old(adminUserIds))
          && fx == [Answer(p.queryId, Some(Text("admin_removed", [])), false),
                    EditText(Here(p), p.messageId, Text("manage_admins", []), Inline(ManageAdminsKeyboard(adminUserIds, primaryAdminId)))]
    {
      var x := ParseIntOpt(Part(p.parts, 2));
      if x == Some(primaryAdminId) {
        fx := [Answer(p.queryId, Some(Text("cannot_remove_primary", [])), true)];
        return;
      }
      if x.Some? {
        adminUserIds := Without(adminUserIds, x.value);
      }
      var rows := BuildManageAdminsKeyboard(adminUserIds, primaryAdminId);
      fx := [Answer(p.queryId, Some(Text("admin_removed", [])), false),
             EditText(Here(p), p.messageId, Text("manage_admins", []), Inline(rows))];
    }

    /** The redrawn driver list that ends every `driver_admin` press on a known driver. */
    function DriversRefresh(p: Press): Effect
      reads this, drivers
    {
      EditText(Here(p), p.messageId, Text("manage_drivers", []), Inline(ManageDriversKeyboard(Entries(drivers))))
    }

    /**
     * `driver_admin:<block|unblock|remove>:<driverId>`. An unknown driver: not found. A block sets
     * the driver blocked and tells them, an unblock sets them online and tells them, a remove
     * takes them out of the table; every press on a known driver redraws the list.
     */
    method OnDriverAdmin(p: Press, sub: string) returns (fx: seq<Effect>)
      requires Valid()
      modifies this`drivers, DriverWithId(Part(p.parts, 2))`status
      ensures Valid()
      ensures match old(FindDriverOpt(Part(p.parts, 2)))
        case None => drivers == old(drivers) && fx == [Answer(p.queryId, Some(Text("driver_not_found", [])), false)]
        case Some(d) =>
          if sub == "block" then
            && d.status == Blocked && drivers == old(drivers)
            && fx == [Answer(p.queryId, Some(Text("driver_blocked", [])), false), Plain(d.id, "you_are_blocked"), DriversRefresh(p)]
          else if sub == "unblock" then
            && d.status == Online && drivers == old(drivers)
            && fx == [Answer(p.queryId, Some(Text("driver_unblocked", [])), false), Plain(d.id, "you_are_unblocked"), DriversRefresh(p)]
          else if sub == "remove" then
            var k := old(DriverIndex(Part(p.parts, 2)));
            && 0 <= k < |old(drivers)| && drivers == RemoveAt(old(drivers), k) && d !in drivers
            && d.status == old(d.status)
            && fx == [Answer(p.queryId, Some(Text("driver_removed", [])), false), DriversRefresh(p)]
          else
            d.status == old(d.status) && drivers == old(drivers) && fx == [DriversRefresh(p)]
    {
      var found := FindDriverOpt(Part(p.parts, 2));
      if found.None? {
        fx := [Answer(p.queryId, Some(Text("driver_not_found", [])), false)];
        return;
      }
      var d := found.value;
      if sub == "block" {
        fx := SetDriverStatus(p, d, Blocked, "driver_blocked", "you_are_blocked");
      } else if sub == "unblock" {
        fx := SetDriverStatus(p, d, Online, "driver_unblocked", "you_are_unblocked");
      } else if sub == "remove" {
        RemoveDriverAt(DriverIndex(Part(p.parts, 2)));
        fx := [Answer(p.queryId, Some(Text("driver_removed", [])), false), DriversRefresh(p)];
      } else {
        fx := [DriversRefresh(p)];
      }
    }

    /** A block or unblock: the driver takes the status and is told, then the list is redrawn. */
    method SetDriverStatus(p: Press, d: Driver, status: DriverStatus, answer: string, notice: string) returns (fx: seq<Effect>)
      modifies d`status
      ensures d.status == status
      ensures fx == [Answer(p.queryId, Some(Text(answer, [])), false), Plain(d.id, notice), DriversRefresh(p)]
    {
      d.status := status;
      fx := [Answer(p.queryId, Some(Text(answer, [])), false), Plain(d.id, notice), DriversRefresh(p)];
    }

    /** `drivers.splice(k, 1)`: with distinct ids the driver at `k` is then gone from the table. */
    method RemoveDriverAt(k: nat)
      requires Valid() && k < |drivers|
      modifies this`drivers
      ensures Valid()
      ensures drivers == RemoveAt(old(drivers), k)
      ensures old(drivers[k]) !in drivers
    {
      var r := RemoveAt(drivers, k);
      forall j | 0 <= j < |r| ensures r[j] != drivers[k] {
        assert r[j] == (if j < k then drivers[j] else drivers[j + 1]);
      }
      RemoveAtDistinct(drivers, k);
      drivers := r;
    }

    // -------------------------------------------------------------------------
    // Button handlers on an order
    // -------------------------------------------------------------------------

    /** `customer_ping:<id>` on an order with a driver: the driver is asked to hurry; the customer is told. */
    method OnCustomerPing(p: Press, o: Order) returns (fx: seq<Effect>)
      requires Truthy(o.driverId)
      ensures fx == [Send(o.driverId.value, Text("customer_waiting", []), Inline(DriverPingKeyboard(o.id))),
                     Answer(p.queryId, Some(Text("driver_pinged", [])), true)]
    {
      fx := [Send(o.driverId.value, Text("customer_waiting", []), Inline(DriverPingKeyboard(o.id))),
             Answer(p.queryId, Some(Text("driver_pinged", [])), true)];
    }

    /**
     * `customer_pay:<QR|CASH|QR_DONE>:<id>`. QR shows the first stored code (or says QR is
     * unavailable) and changes nothing; CASH records the method and asks how much cash, in a
     * `customer_cash_given` session; QR_DONE records a paid QR payment and tells every admin,
     * twice, around the customer's thanks. Anything else does nothing.
     */
    method OnCustomerPay(p: Press, o: Order) returns (fx: seq<Effect>)
      requires Valid()
      modifies o`paymentMethod, o`paymentStatus, this`sessions
      ensures Valid()
      ensures var sub := Part(p.parts, 1);
        if sub == Some("CASH") then
          && o.paymentMethod == Some("CASH") && o.paymentStatus == old(o.paymentStatus)
          && sessions == Sessions.Put(old(sessions), p.from.id,
               map[Sessions.Mode := Some("customer_cash_given"), Sessions.OrderId := Some(o.id)])
          && fx == [Plain(Here(p), "ask_cash_amount")]
        else if sub == Some("QR_DONE") then
          && o.paymentMethod == Some("QR") && o.paymentStatus == Some(Paid) && sessions == old(sessions)
          && fx == ToAll(adminUserIds, Text("paid_by_qr", [o.id]), NoMarkup)
                 + [EditText(Here(p), p.messageId, Text("thanks_for_payment", []), NoMarkup)]
                 + ToAll(adminUserIds, Text("paid_by_qr_details", [o.id]), Inline(AdminActionKeyboard(o.id, o.status)))
        else
          && o.paymentMethod == old(o.paymentMethod) && o.paymentStatus == old(o.paymentStatus)
          && sessions == old(sessions)
          && fx == if sub != Some("QR") then []
                   else if |qrCodes| > 0 then
                     [SendPhoto(Here(p), qrCodes[0].fileId, Text("scan_to_pay", [])),
                      Send(Here(p), Text("press_done", []), Inline(CustomerQRDoneKeyboard(o.id)))]
                   else [Plain(Here(p), "qr_unavailable")]
    {
      var sub := Part(p.parts, 1);
      if sub == Some("QR") {
        if |qrCodes| > 0 {
          fx := [SendPhoto(Here(p), qrCodes[0].fileId, Text("scan_to_pay", [])),
                 Send(Here(p), Text("press_done", []), Inline(CustomerQRDoneKeyboard(o.id)))];
        } else {
          fx := [Plain(Here(p), "qr_unavailable")];
        }
      } else if sub == Some("CASH") {
        o.paymentMethod := Some("CASH");
        SetSession(p.from.id, map[Sessions.Mode := Some("customer_cash_given"), Sessions.OrderId := Some(o.id)]);
        fx := [Plain(Here(p), "ask_cash_amount")];
      } else if sub == Some("QR_DONE") {
        o.paymentMethod := Some("QR");
        o.paymentStatus := Some(Paid);
        var first := NotifyAdmins(Text("paid_by_qr", [o.id]), NoMarkup);
        var second := NotifyAdmins(Text("paid_by_qr_details", [o.id]), Inline(AdminActionKeyboard(o.id, o.status)));
        fx := first + [EditText(Here(p), p.messageId, Text("thanks_for_payment", []), NoMarkup)] + second;
      } else {
        fx := [];
      }
    }

    /** `go`, from the order list or the order card: the order goes to its driver. */
    method OnGo(p: Press, o: Order) returns (fx: seq<Effect>)
      modifies o`status, AssignedDriver(o)`status, AssignedDriver(o)`currentOrderId
      ensures Dispatched(p, o, fx)
    {
      if !Truthy(o.driverId) {
        fx := [Answer(p.queryId, Some(Text("assign_driver_first", [])), true)];
        return;
      }
      o.status := ActiveReady;
      var found := FindDriver(o.driverId.value);
      var sent := EditText(Here(p), p.messageId, Text("order_sent_to_driver", [o.id]), NoMarkup);
      if found.Some? {
        var d := found.value;
        d.status := Assigned;
        d.currentOrderId := Some(o.id);
        fx := [Send(d.id, Text("order_assigned", [o.id]), Inline(DriverActionKeyboard(o.id, ActiveReady))), sent];
      } else {
        fx := [sent];
      }
    }

    /** The drivers to pick from for an order, as a new card or as the card's new keyboard. */
    method ShowDriverChoice(p: Press, o: Order, asCard: bool) returns (fx: seq<Effect>)
      ensures var choice := Inline(ConnectedDriversKeyboard(Entries(drivers), o.id));
        fx == if asCard then [EditText(Here(p), p.messageId, Details(o.id), choice)] else [EditMarkup(Here(p), p.messageId, choice)]
    {
      var choice := Inline(ConnectedDriversKeyboard(Entries(drivers), o.id));
      fx := if asCard then [EditText(Here(p), p.messageId, Details(o.id), choice)] else [EditMarkup(Here(p), p.messageId, choice)];
    }

    /** `order_action:delete:<id>`: the first order with the id leaves the table. */
    method DeleteOrder(p: Press, o: Order) returns (fx: seq<Effect>)
      requires o in orders
      modifies this`orders
      ensures var k := old(OrderIndex(o.id));
        0 <= k < |old(orders)| && orders == RemoveAt(old(orders), k)
      ensures fx == [EditText(Here(p), p.messageId, Text("order_deleted", [o.id]), NoMarkup)]
    {
      var k := OrderIndex(o.id);
      orders := RemoveAt(orders, k);
      fx := [EditText(Here(p), p.messageId, Text("order_deleted", [o.id]), NoMarkup)];
    }

    /** `order_action:completed:<id>`: the order is completed and its driver, if registered, freed. */
    method CompleteOrder(p: Press, o: Order) returns (fx: seq<Effect>)
      modifies o`status, AssignedDriver(o)`status, AssignedDriver(o)`currentOrderId
      ensures o.status == Completed && DriverFreed(o)
      ensures fx == [EditMarkup(Here(p), p.messageId, Inline(AdminActionKeyboard(o.id, Completed)))]
    {
      o.status := Completed;
      if Truthy(o.driverId) {
        var found := FindDriver(o.driverId.value);
        if found.Some? {
          found.value.status := Online;
          found.value.currentOrderId := None;
        }
      }
      fx := [EditMarkup(Here(p), p.messageId, Inline(AdminActionKeyboard(o.id, Completed)))];
    }

    /**
     * `order_action:<verb>:<id>` on a found order: delete it, cancel it, pick or change its
     * driver, send it out, mark it arrived or completed, or acknowledge an archive. Other verbs
     * do nothing.
     */
    method OnOrderAction(p: Press, o: Order, verb: string) returns (fx: seq<Effect>)
      requires Valid() && o in orders
      modifies this`orders, o`status, AssignedDriver(o)`status, AssignedDriver(o)`currentOrderId
      ensures Valid()
      ensures verb != "delete" ==> orders == old(orders)
      ensures verb != "go" && verb != "completed" ==> unchanged(AssignedDriver(o))
      ensures verb == "delete" ==>
        && (var k := old(OrderIndex(o.id)); 0 <= k < |old(orders)| && orders == RemoveAt(old(orders), k))
        && o.status == old(o.status)
        && fx == [EditText(Here(p), p.messageId, Text("order_deleted", [o.id]), NoMarkup)]
      ensures verb == "cancel" ==>
        o.status == Cancelled && fx == [EditText(Here(p), p.messageId, Text("order_cancelled", [o.id]), NoMarkup)]
      ensures verb == "assign" || verb == "change_driver" ==>
        && o.status == old(o.status)
        && var choice := Inline(ConnectedDriversKeyboard(Entries(drivers), o.id));
           fx == if verb == "assign" then [EditText(Here(p), p.messageId, Details(o.id), choice)]
                 else [EditMarkup(Here(p), p.messageId, choice)]
      ensures verb == "go" ==> Dispatched(p, o, fx)
      ensures verb == "arrived" ==>
        o.status == Arrived && fx == [EditMarkup(Here(p), p.messageId, Inline(AdminActionKeyboard(o.id, Arrived)))]
      ensures verb == "completed" ==>
        && o.status == Completed && DriverFreed(o)
        && fx == [EditMarkup(Here(p), p.messageId, Inline(AdminActionKeyboard(o.id, Completed)))]
      ensures verb == "archive" ==>
        o.status == old(o.status) && fx == [EditText(Here(p), p.messageId, Text("order_archived", [o.id]), NoMarkup)]
      ensures verb !in {"delete", "cancel", "assign", "change_driver", "go", "arrived", "completed", "archive"} ==>
        o.status == old(o.status) && fx == []
    {
      if verb == "delete" {
        fx := DeleteOrder(p, o);
      } else if verb == "cancel" {
        o.status := Cancelled;
        fx := [EditText(Here(p), p.messageId, Text("order_cancelled", [o.id]), NoMarkup)];
      } else if verb == "assign" {
        fx := ShowDriverChoice(p, o, true);
      } else if verb == "go" {
        fx := OnGo(p, o);
      } else if verb == "arrived" {
        o.status := Arrived;
        fx := [EditMarkup(Here(p), p.messageId, Inline(AdminActionKeyboard(o.id, Arrived)))];
      } else if verb == "completed" {
        fx := CompleteOrder(p, o);
      } else if verb == "change_driver" {
        fx := ShowDriverChoice(p, o, false);
      } else if verb == "archive" {
        fx := [EditText(Here(p), p.messageId, Text("order_archived", [o.id]), NoMarkup)];
      } else {
        fx := [];
      }
    }

    /** `detail:<id>`: the order card with the admin's action keyboard for its status. */
    method OnDetail(p: Press, o: Order) returns (fx: seq<Effect>)
      ensures fx == [EditText(Here(p), p.messageId, Details(o.id), Inline(AdminActionKeyboard(o.id, o.status)))]
    {
      fx := [EditText(Here(p), p.messageId, Details(o.id), Inline(AdminActionKeyboard(o.id, o.status)))];
    }

    /** `edit_menu:<id>`: the card's keyboard becomes the edit keyboard. */
    method OnEditMenu(p: Press, o: Order) returns (fx: seq<Effect>)
      ensures fx == [EditMarkup(Here(p), p.messageId, Inline(AdminEditKeyboard(o.id, Truthy(o.customer.language))))]
    {
      fx := [EditMarkup(Here(p), p.messageId, Inline(AdminEditKeyboard(o.id, Truthy(o.customer.language))))];
    }

    /**
     * `edit:<field>:<id>`. A text field (customer, location, items, total) opens an `edit`
     * session for it and prompts; payment and driver swap in their keyboards; `lang_ru` sets
     * the customer's language to Russian and redraws the card. Anything else does nothing.
     */
    method OnEdit(p: Press, o: Order, sub: string) returns (fx: seq<Effect>)
      requires Valid()
      modifies this`sessions, o.customer`language
      ensures Valid()
      ensures if sub in {"customer", "location", "items", "total"} then
          && sessions == Sessions.Put(old(sessions), p.from.id, EditState(sub, Some(o.id)))
          && o.customer.language == old(o.customer.language)
          && fx == [Plain(Here(p), "prompt_" + sub)]
        else if sub == "lang_ru" then
          && sessions == old(sessions) && o.customer.language == Some("ru")
          && fx == [Answer(p.queryId, Some(Text("customer_language_ru", [])), false),
                    EditText(Here(p), p.messageId, Details(o.id), Inline(AdminEditKeyboard(o.id, true)))]
        else
          && sessions == old(sessions) && o.customer.language == old(o.customer.language)
          && fx == if sub == "payment" then [EditMarkup(Here(p), p.messageId, Inline(PaymentKeyboard(o.id)))]
                   else if sub == "driver" then [EditMarkup(Here(p), p.messageId, Inline(ConnectedDriversKeyboard(Entries(drivers), o.id)))]
                   else []
    {
      if sub in {"customer", "location", "items", "total"} {
        SetSession(p.from.id, EditState(sub, Some(o.id)));
        fx := [Plain(Here(p), "prompt_" + sub)];
      } else if sub == "payment" {
        fx := [EditMarkup(Here(p), p.messageId, Inline(PaymentKeyboard(o.id)))];
      } else if sub == "driver" {
        fx := ShowDriverChoice(p, o, false);
      } else if sub == "lang_ru" {
        o.customer.language := Some("ru");
        fx := [Answer(p.queryId, Some(Text("customer_language_ru", [])), false),
               EditText(Here(p), p.messageId, Details(o.id), Inline(AdminEditKeyboard(o.id, Truthy(o.customer.language))))];
      } else {
        fx := [];
      }
    }

    /**
     * `payment:<method>:<id>`. PAID marks the order paid; any other value becomes the payment
     * method, and CASH then opens an `edit` session for the cash given (keyed by the token's
     * third part) instead of redrawing the card.
     */
    method OnPayment(p: Press, o: Order, sub: string) returns (fx: seq<Effect>)
      requires Valid()
      modifies o`paymentStatus, o`paymentMethod, this`sessions
      ensures Valid()
      ensures var card := EditText(Here(p), p.messageId, Details(o.id), Inline(AdminEditKeyboard(o.id, Truthy(o.customer.language))));
        if sub == "PAID" then
          && o.paymentStatus == Some(Paid) && o.paymentMethod == old(o.paymentMethod)
          && sessions == old(sessions) && fx == [card]
        else
          && o.paymentMethod == Some(sub) && o.paymentStatus == old(o.paymentStatus)
          && if sub == "CASH" then
               && sessions == Sessions.Put(old(sessions), p.from.id, EditState("cash_given", Part(p.parts, 2)))
               && fx == [Plain(Here(p), "enter_cash_amount")]
             else sessions == old(sessions) && fx == [card]
    {
      var card := EditText(Here(p), p.messageId, Details(o.id), Inline(AdminEditKeyboard(o.id, Truthy(o.customer.language))));
      if sub == "PAID" {
        o.paymentStatus := Some(Paid);
      } else {
        o.paymentMethod := Some(sub);
        if sub == "CASH" {
          SetSession(p.from.id, EditState("cash_given", Part(p.parts, 2)));
          fx := [Plain(Here(p), "enter_cash_amount")];
          return;
        }
      }
      fx := [card];
    }

    /** `assign:<driverId>:<id>`: a registered driver becomes the order's driver; the card is redrawn. */
    method OnAssign(p: Press, o: Order, driverId: string) returns (fx: seq<Effect>)
      modifies o`driverId
      ensures o.driverId == if old(FindDriver(driverId)).Some? then Some(driverId) else old(o.driverId)
      ensures fx == [EditText(Here(p), p.messageId, Details(o.id), Inline(AdminEditKeyboard(o.id, Truthy(o.customer.language))))]
    {
      var found := FindDriver(driverId);
      if found.Some? {
        o.driverId := Some(found.value.id);
      }
      fx := [EditText(Here(p), p.messageId, Details(o.id), Inline(AdminEditKeyboard(o.id, Truthy(o.customer.language))))];
    }

    /** `cancel:<id>`: the order is cancelled. */
    method OnCancel(p: Press, o: Order) returns (fx: seq<Effect>)
      modifies o`status
      ensures o.status == Cancelled
      ensures fx == [EditText(Here(p), p.messageId, Text("order_cancelled", [o.id]), NoMarkup)]
    {
      o.status := Cancelled;
      fx := [EditText(Here(p), p.messageId, Text("order_cancelled", [o.id]), NoMarkup)];
    }

    /** `save:<id>`: the order becomes a draft and the presser's session ends. */
    method OnSave(p: Press, o: Order) returns (fx: seq<Effect>)
      requires Valid()
      modifies o`status, this`sessions
      ensures Valid()
      ensures o.status == Draft
      ensures sessions == Sessions.Clear(old(sessions), p.from.id) && Sessions.Lookup(sessions, p.from.id).None?
      ensures fx == [EditText(Here(p), p.messageId, Text("order_saved", []), NoMarkup)]
    {
      o.status := Draft;
      ClearSession(p.from.id);
      fx := [EditText(Here(p), p.messageId, Text("order_saved", []), NoMarkup)];
    }

    /**
     * `delay:<lt5|lt2|gt10>:<id>`: the customer (when reachable) gets the delay notice, the
     * admins hear that the driver sent it, and the driver's keyboard comes back.
     */
    method OnDelay(p: Press, o: Order, sub: string) returns (fx: seq<Effect>)
      ensures fx == CustomerNotice(o, Text("delay_notice", [o.id, DelayLine(sub)]), NoMarkup)
        + ToAll(adminUserIds, DriverStatusText(DriverNameOf(o), "notified " + o.customer.name + " about a delay."), NoMarkup)
        + [Answer(p.queryId, Some(Text("delay_notified", [])), false),
           EditMarkup(Here(p), p.messageId, Inline(DriverActionKeyboard(o.id, o.status)))]
    {
      var notes := NotifyAdmins(DriverStatusText(DriverNameOf(o), "notified " + o.customer.name + " about a delay."), NoMarkup);
      fx := CustomerNotice(o, Text("delay_notice", [o.id, DelayLine(sub)]), NoMarkup) + notes
        + [Answer(p.queryId, Some(Text("delay_notified", [])), false),
           EditMarkup(Here(p), p.messageId, Inline(DriverActionKeyboard(o.id, o.status)))];
    }

    /**
     * `fb:<score>:<id>`: a score that parses is stored as the order's feedback, the customer is
     * thanked, the admins and the driver (when registered) hear it. A score that does not parse
     * does nothing.
     */
    method OnFeedback(p: Press, o: Order, sub: string) returns (fx: seq<Effect>)
      modifies o`feedback
      ensures match ParseInt(sub)
        case None => o.feedback == old(o.feedback) && fx == []
        case Some(score) =>
          var stars := IntToString(score);
          && o.feedback == Some(score)
          && fx == [Answer(p.queryId, Some(Text("thanks_for_score", [stars])), false)]
             + ToAll(adminUserIds, Text("feedback_report", [DriverNameOf(o), o.id, o.customer.name, stars]), NoMarkup)
             + (var d := FindDriverOpt(if Truthy(o.driverId) then o.driverId else None);
                if d.Some? then [Send(d.value.id, Text("done_right", [o.customer.name, stars]), NoMarkup)] else [])
             + [EditText(Here(p), p.messageId, Text("thanks_for_feedback", []), NoMarkup)]
    {
      var parsed := ParseInt(sub);
      if parsed.None? {
        fx := [];
        return;
      }
      var score := parsed.value;
      o.feedback := Some(score);
      var stars := IntToString(score);
      var notes := NotifyAdmins(Text("feedback_report", [DriverNameOf(o), o.id, o.customer.name, stars]), NoMarkup);
      var d := FindDriverOpt(if Truthy(o.driverId) then o.driverId else None);
      var toDriver := if d.Some? then [Send(d.value.id, Text("done_right", [o.customer.name, stars]), NoMarkup)] else [];
      fx := [Answer(p.queryId, Some(Text("thanks_for_score", [stars])), false)] + notes + toDriver
        + [EditText(Here(p), p.messageId, Text("thanks_for_feedback", []), NoMarkup)];
    }

    // -------------------------------------------------------------------------
    // Driver steps (`driver:<step>:<id>`)
    // -------------------------------------------------------------------------

    /**
     * Pickup: the order is on its way and the driver busy; the admins hear who is delivering
     * to whom, the customer (when reachable) gets the on-the-way notice with the ping keyboard,
     * and the driver's keyboard moves on.
     */
    twostate predicate PickedUp(p: Press, o: Order, d: Driver, fx: seq<Effect>)
      reads this, o, d, o.customer
    {
      && o.status == ActivePickedUp && d.status == Busy
      && fx == [Answer(p.queryId, Some(Text("picked_up", [])), false)]
         + ToAll(adminUserIds, DriverStatusText(d.name, "going to deliver " + o.id + " to " + o.customer.name), NoMarkup)
         + CustomerNotice(o, Text("on_the_way", [o.customer.name, o.id]), Inline(CustomerPingKeyboard(o.id, o.customer.language)))
         + [EditMarkup(Here(p), p.messageId, Inline(DriverActionKeyboard(o.id, ActivePickedUp)))]
    }

    /** Arrival: the order has arrived; the customer is told, then the admins, then the driver. */
    twostate predicate ArrivedAtDoor(p: Press, o: Order, d: Driver, fx: seq<Effect>)
      reads this, o, d, o.customer
    {
      && o.status == Arrived
      && fx == CustomerNotice(o, Text("driver_arrived", [o.id]), NoMarkup)
         + ToAll(adminUserIds, DriverStatusText(d.name, "delivered to " + o.customer.name), NoMarkup)
         + [Answer(p.queryId, Some(Text("arrived_sent", [])), false),
            EditMarkup(Here(p), p.messageId, Inline(DriverActionKeyboard(o.id, Arrived)))]
    }

    /**
     * Completion: the order is completed and the driver online and free; the customer is asked
     * for a rating, the admins told, and the driver's message closed.
     */
    twostate predicate Delivered(p: Press, o: Order, d: Driver, fx: seq<Effect>)
      reads this, o, d, o.customer
    {
      && o.status == Completed && d.status == Online && d.currentOrderId == None
      && fx == CustomerNotice(o, Text("order_complete", [o.id]), Inline(FeedbackKeyboard(o.id, o.customer.language)))
         + ToAll(adminUserIds, DriverStatusText(d.name, "completed " + o.id + " for " + o.customer.name), NoMarkup)
         + [EditText(Here(p), p.messageId, Text("order_completed", [o.id]), NoMarkup)]
    }

    /**
     * A decision on a driver's cancellation request: approval makes the order new again with no
     * driver; either way the presser is told and so is the original driver, when there was one.
     */
    twostate predicate CancelDecided(p: Press, o: Order, approve: bool, fx: seq<Effect>)
      reads o
    {
      var verdict := if approve then "approved" else "denied";
      && (approve ==> o.status == New && o.driverId == None)
      && (!approve ==> o.status == old(o.status) && o.driverId == old(o.driverId))
      && fx == [Send(Here(p), Text("cancellation_" + verdict, [o.id]), NoMarkup)]
         + (if Truthy(old(o.driverId)) then [Send(old(o.driverId).value, Text("your_cancellation_" + verdict, [o.id]), NoMarkup)] else [])
    }

    method DriverPickup(p: Press, o: Order, d: Driver) returns (fx: seq<Effect>)
      modifies o`status, d`status
      ensures StepDone(p, o, d, StepPickup, fx)
    {
      o.status := ActivePickedUp;
      d.status := Busy;
      var notes := NotifyAdmins(DriverStatusText(d.name, "going to deliver " + o.id + " to " + o.customer.name), NoMarkup);
      fx := [Answer(p.queryId, Some(Text("picked_up", [])), false)] + notes
        + CustomerNotice(o, Text("on_the_way", [o.customer.name, o.id]), Inline(CustomerPingKeyboard(o.id, o.customer.language)))
        + [EditMarkup(Here(p), p.messageId, Inline(DriverActionKeyboard(o.id, o.status)))];
    }

    method DriverArrived(p: Press, o: Order, d: Driver) returns (fx: seq<Effect>)
      modifies o`status
      ensures StepDone(p, o, d, StepArrived, fx)
    {
      o.status := Arrived;
      var notes := NotifyAdmins(DriverStatusText(d.name, "delivered to " + o.customer.name), NoMarkup);
      fx := CustomerNotice(o, Text("driver_arrived", [o.id]), NoMarkup) + notes
        + [Answer(p.queryId, Some(Text("arrived_sent", [])), false),
           EditMarkup(Here(p), p.messageId, Inline(DriverActionKeyboard(o.id, o.status)))];
    }

    method DriverCompleted(p: Press, o: Order, d: Driver) returns (fx: seq<Effect>)
      modifies o`status, d`status, d`currentOrderId
      ensures StepDone(p, o, d, StepCompleted, fx)
    {
      o.status := Completed;
      d.status := Online;
      d.currentOrderId := None;
      var notes := NotifyAdmins(DriverStatusText(d.name, "completed " + o.id + " for " + o.customer.name), NoMarkup);
      fx := CustomerNotice(o, Text("order_complete", [o.id]), Inline(FeedbackKeyboard(o.id, o.customer.language))) + notes
        + [EditText(Here(p), p.messageId, Text("order_completed", [o.id]), NoMarkup)];
    }

    method DecideCancel(p: Press, o: Order, d: Driver, approve: bool) returns (fx: seq<Effect>)
      modifies o`status, o`driverId
      ensures StepDone(p, o, d, if approve then StepCancelApprove else StepCancelDeny, fx)
    {
      var verdict := if approve then "approved" else "denied";
      var originalDriverId := o.driverId;
      if approve {
        o.status := New;
        o.driverId := None;
      }
      fx := [Send(Here(p), Text("cancellation_" + verdict, [o.id]), NoMarkup)];
      if Truthy(originalDriverId) {
        fx := fx + [Send(originalDriverId.value, Text("your_cancellation_" + verdict, [o.id]), NoMarkup)];
      }
    }

    /**
     * The whole outcome of a driver step: what the step changes (nothing beyond the order's
     * status and driver, the driver's status and current order, and the presser's session) and
     * the messages it sends.
     */
    twostate predicate StepDone(p: Press, o: Order, d: Driver, step: Step, fx: seq<Effect>)
      reads this, o, d, o.customer
    {
      && (step != StepPickup && step != StepCompleted ==> d.status == old(d.status))
      && (step != StepCompleted ==> d.currentOrderId == old(d.currentOrderId))
      && (step != StepCancelApprove ==> o.driverId == old(o.driverId))
      && (!ChangesOrderStatus(step) ==> o.status == old(o.status))
      && (step != StepLocation ==> sessions == old(sessions))
      && match step
         case StepPickup => PickedUp(p, o, d, fx)
         case StepArrived => ArrivedAtDoor(p, o, d, fx)
         case StepCompleted => Delivered(p, o, d, fx)
         case StepCancelApprove => CancelDecided(p, o, true, fx)
         case StepCancelDeny => CancelDecided(p, o, false, fx)
         case StepDelay => fx == [EditMarkup(Here(p), p.messageId, Inline(DelayKeyboard(o.id)))]
         case StepLocation =>
           && sessions == Sessions.Put(old(sessions), p.from.id,
                map[Sessions.Mode := Some("share_location_to_customer"), Sessions.OrderId := Some(o.id)])
           && fx == [Send(Chat(p.from.id), Text("share_live_location", []), ShareLocationKeyboard()),
                     Answer(p.queryId, Some(Text("share_location", [])), false)]
         case StepCancelRequest =>
           fx == ToAll(adminUserIds, Text("cancel_request", [d.name, o.id]), Inline(CancelRequestKeyboard(o.id)))
                 + [Answer(p.queryId, Some(Text("cancel_request_sent", [])), false)]
         case StepDetail =>
           fx == [EditText(Here(p), p.messageId, Text("order_assigned", [o.id]), Inline(DriverActionKeyboard(o.id, o.status)))]
         case StepEdit => fx == [EditMarkup(Here(p), p.messageId, Inline(DriverEditKeyboard(o.id)))]
         case StepSave => fx == [EditMarkup(Here(p), p.messageId, Inline(DriverActionKeyboard(o.id, o.status)))]
         case StepCancelEdit => fx == [EditMarkup(Here(p), p.messageId, Inline(DriverActionKeyboard(o.id, o.status)))]
         case StepUnknown => fx == []
    }

    /**
     * `driver:<step>:<id>`, pressed by registered driver `d` (any driver, not only the order's
     * own; the lookup of the presser is the dispatcher's).
     */
    method OnDriverStep(p: Press, o: Order, d: Driver, sub: string) returns (fx: seq<Effect>)
      requires Valid()
      modifies o`status, o`driverId, this`sessions, d`status, d`currentOrderId
      ensures Valid()
      ensures StepDone(p, o, d, StepOf(sub), fx)
    {
      var step := StepOf(sub);
      if ChangesOrderStatus(step) {
        fx := DriverMove(p, o, d, step);
      } else {
        fx := DriverPrompt(p, o, d, step);
      }
    }

    /** The steps that move the order along: pickup, arrival, completion, a cancellation decision. */
    method DriverMove(p: Press, o: Order, d: Driver, step: Step) returns (fx: seq<Effect>)
      requires ChangesOrderStatus(step)
      modifies o`status, o`driverId, d`status, d`currentOrderId
      ensures StepDone(p, o, d, step, fx)
    {
      match step
      case StepPickup =>
        fx := DriverPickup(p, o, d);
      case StepArrived =>
        fx := DriverArrived(p, o, d);
      case StepCompleted =>
        fx := DriverCompleted(p, o, d);
      case StepCancelApprove =>
        fx := DecideCancel(p, o, d, true);
      case StepCancelDeny =>
        fx := DecideCancel(p, o, d, false);
    }

    /** The steps that only prompt, notify or swap the driver's keyboard (and `location`'s session). */
    method DriverPrompt(p: Press, o: Order, d: Driver, step: Step) returns (fx: seq<Effect>)
      requires Valid() && !ChangesOrderStatus(step)
      modifies this`sessions
      ensures Valid()
      ensures StepDone(p, o, d, step, fx)
    {
      match step
      case StepDelay =>
        fx := [EditMarkup(Here(p), p.messageId, Inline(DelayKeyboard(o.id)))];
      case StepLocation =>
        SetSession(p.from.id, map[Sessions.Mode := Some("share_location_to_customer"), Sessions.OrderId := Some(o.id)]);
        fx := [Send(Chat(p.from.id), Text("share_live_location", []), ShareLocationKeyboard()),
               Answer(p.queryId, Some(Text("share_location", [])), false)];
      case StepCancelRequest =>
        var asks := NotifyAdmins(Text("cancel_request", [d.name, o.id]), Inline(CancelRequestKeyboard(o.id)));
        fx := asks + [Answer(p.queryId, Some(Text("cancel_request_sent", [])), false)];
      case StepDetail =>
        fx := [EditText(Here(p), p.messageId, Text("order_assigned", [o.id]), Inline(DriverActionKeyboard(o.id, o.status)))];
      case StepEdit =>
        fx := [EditMarkup(Here(p), p.messageId, Inline(DriverEditKeyboard(o.id)))];
      case StepSave =>
        fx := [EditMarkup(Here(p), p.messageId, Inline(DriverActionKeyboard(o.id, o.status)))];
      case StepCancelEdit =>
        fx := [EditMarkup(Here(p), p.messageId, Inline(DriverActionKeyboard(o.id, o.status)))];
      case StepUnknown =>
        fx := [];
    }

    // -------------------------------------------------------------------------
    // Message handlers
    // -------------------------------------------------------------------------

    /** `orders.find(o => o.id === id)` for an id read from a session, which may be undefined. */
    function FindOrderOpt(id: Option<string>): (r: Option<Order>)
      reads this
      ensures r.Some? ==> r.value in orders && Some(r.value.id) == id
      ensures r.None? ==> forall o :: o in orders ==> Some(o.id) != id
      ensures r.Some? ==> exists j :: 0 <= j < |orders| && orders[j] == r.value && forall i :: 0 <= i < j ==> Some(orders[i].id) != id
    {
      if id.None? then None else FindOrder(id.value)
    }

    /** The orders a handler addressing order `id` may change. */
    function OrdersWithId(id: Option<string>): set<Order>
      reads this
    {
      set o | o in orders && Some(o.id) == id
    }

    /** Their customers. */
    function CustomersOfOrdersWithId(id: Option<string>): set<Customer>
      reads this
    {
      set o | o in orders && Some(o.id) == id :: o.customer
    }

    /** `⚙️ SETTINGS`: the settings keyboard, showing the admin's language preference. */
    method OnSettingsText(m: Message) returns (fx: seq<Effect>)
      ensures fx == [Send(Chat(m.chatId), Text("bot_settings", []), Inline(AdminSettingsKeyboard(Pref(m.chatId))))]
    {
      fx := [Send(Chat(m.chatId), Text("bot_settings", []), Inline(AdminSettingsKeyboard(Pref(m.chatId))))];
    }

    /**
     * The list buttons (DRAFT, ACTIVE, COMPLETED, Orders, DRIVERS): a display that changes nothing
     * and always ends with a message carrying the admin's reply menu. The cards and list keyboards
     * before that message are summarised by the list's name.
     */
    method OnListText(m: Message) returns (fx: seq<Effect>)
      ensures |fx| == 1 && fx[0].Send? && fx[0].chat == Chat(m.chatId) && fx[0].markup == Keyboards.AdminMainMenu()
      ensures fx[0].text == Text("list_view", [m.text])
    {
      fx := [Send(Chat(m.chatId), Text("list_view", [m.text]), Keyboards.AdminMainMenu())];
    }

    /**
     * `➕ New Draft`: an empty draft order for a placeholder customer (not added to the
     * customer table) is appended, and the sender starts editing its items.
     */
    method OnNewDraft(m: Message, fromId: int, orderNumber: string, now: int) returns (o: Order, fx: seq<Effect>)
      requires Valid()
      modifies this`orders, this`sessions
      ensures Valid()
      ensures fresh(o) && fresh(o.customer) && orders == old(orders) + [o]
      ensures o.id == orderNumber && o.createdAt == now && o.status == Draft && o.locationLink == "" && o.items == ""
      ensures Unsettled(o)
      ensures o.customer.id == "new_draft_customer" && o.customer.name == "New Customer" && o.customer.language == None
      ensures sessions == Sessions.Put(old(sessions), fromId, EditState("items", Some(orderNumber)))
      ensures fx == [Send(Chat(m.chatId), Details(orderNumber), Inline(AdminEditKeyboard(orderNumber, false)))]
    {
      var c := new Customer("new_draft_customer", "New Customer");
      o := new Order(orderNumber, now, c, "", Draft, "");
      orders := orders + [o];
      SetSession(fromId, EditState("items", Some(orderNumber)));
      fx := [Send(Chat(m.chatId), Details(orderNumber), Inline(AdminEditKeyboard(orderNumber, Truthy(c.language))))];
    }

    /**
     * `online_order_items`: the customer's text becomes the items of a new online order, and
     * the customer is asked for the location.
     */
    method OnOrderItems(m: Message, user: TgUser, orderNumber: string, now: int) returns (o: Order, fx: seq<Effect>)
      requires Valid()
      modifies this`orders, this`customers, this`sessions
      ensures Valid()
      ensures CustomerFoundOrCreated(user, now, o.customer)
      ensures fresh(o) && orders == old(orders) + [o]
      ensures o.id == orderNumber && o.createdAt == now && o.status == NewOnline
      ensures o.items == m.text && o.locationLink == "" && Unsettled(o)
      ensures sessions == Sessions.Put(old(sessions), user.id,
        map[Sessions.Mode := Some("online_order_location"), Sessions.OrderId := Some(orderNumber)])
      ensures fx == [Send(Chat(m.chatId), Text("share_location_please", []), LocationRequestKeyboard(o.customer.language))]
    {
      var c := FindOrCreateCustomer(user, now);
      o := new Order(orderNumber, now, c, "", NewOnline, m.text);
      orders := orders + [o];
      SetSession(user.id, map[Sessions.Mode := Some("online_order_location"), Sessions.OrderId := Some(orderNumber)]);
      fx := [Send(Chat(m.chatId), Text("share_location_please", []), LocationRequestKeyboard(c.language))];
    }

    /**
     * `online_order_location`: the shared location becomes the session order's maps link and
     * every admin is sent the new order; the session ends. A vanished order only ends the session.
     */
    method OnOrderLocation(m: Message, user: TgUser, loc: Location, st: Sessions.State, now: int)
      returns (c: Option<Customer>, fx: seq<Effect>)
      requires Valid()
      modifies this`sessions, this`customers, OrdersWithId(Sessions.Get(st, Sessions.OrderId))`locationLink
      ensures Valid()
      ensures sessions == Sessions.Clear(old(sessions), user.id)
      ensures match old(FindOrderOpt(Sessions.Get(st, Sessions.OrderId)))
        case None => c.None? && customers == old(customers) && fx == []
        case Some(o) =>
          && c.Some? && CustomerFoundOrCreated(user, now, c.value)
          && o.locationLink == MapsLink(loc)
          && fx == [Send(Chat(m.chatId), Text("order_sent_to_admin", []), RemoveKeyboard)]
                   + ToAll(adminUserIds, Text("new_online_order", [o.id, o.customer.name]), Inline(AdminActionKeyboard(o.id, o.status)))
    {
      var found := FindOrderOpt(Sessions.Get(st, Sessions.OrderId));
      if found.None? {
        ClearSession(user.id);
        c := None;
        fx := [];
        return;
      }
      var o := found.value;
      o.locationLink := MapsLink(loc);
      var customer := FindOrCreateCustomer(user, now);
      c := Some(customer);
      var notes := NotifyAdmins(Text("new_online_order", [o.id, o.customer.name]), Inline(AdminActionKeyboard(o.id, o.status)));
      fx := [Send(Chat(m.chatId), Text("order_sent_to_admin", []), RemoveKeyboard)] + notes;
      ClearSession(user.id);
    }

    /**
     * `customer_cash_given`: a number makes the session order a cash order, not paid yet, with
     * that cash given and (when the total is set) the change; the admins are told and the session
     * ends. Text that is not a number, or a vanished order, changes nothing and keeps the session.
     * `given` is `parseFloat` of the text (`ParseFloat(m.text)`, `None` for NaN).
     */
    method OnCashGiven(m: Message, fromId: int, st: Sessions.State, given: Option<real>) returns (fx: seq<Effect>)
      requires Valid()
      modifies this`sessions
      modifies OrdersWithId(Sessions.Get(st, Sessions.OrderId))`paymentMethod, OrdersWithId(Sessions.Get(st, Sessions.OrderId))`paymentStatus
      modifies OrdersWithId(Sessions.Get(st, Sessions.OrderId))`cashGiven, OrdersWithId(Sessions.Get(st, Sessions.OrderId))`cashChange
      ensures Valid()
      ensures var found := old(FindOrderOpt(Sessions.Get(st, Sessions.OrderId)));
        if found.Some? && given.Some? then
          var o := found.value;
          && o.paymentMethod == Some("CASH") && o.paymentStatus == Some(NotPaidYet) && o.cashGiven == given
          && o.cashChange == (if NonZero(o.totalAmount) then Some(given.value - o.totalAmount.value) else old(o.cashChange))
          && sessions == Sessions.Clear(old(sessions), fromId)
          && fx == ToAll(adminUserIds, Text("cash_payment", [o.id]), Inline(AdminActionKeyboard(o.id, o.status)))
                   + [Plain(Chat(m.chatId), "driver_notified")]
        else
          && sessions == old(sessions) && fx == []
          && unchanged(OrdersWithId(Sessions.Get(st, Sessions.OrderId)))
    {
      var found := FindOrderOpt(Sessions.Get(st, Sessions.OrderId));
      if found.None? || given.None? {
        fx := [];
        return;
      }
      var o := found.value;
      RecordCash(o, given.value);
      var notes := NotifyAdmins(Text("cash_payment", [o.id]), Inline(AdminActionKeyboard(o.id, o.status)));
      ClearSession(fromId);
      fx := notes + [Plain(Chat(m.chatId), "driver_notified")];
    }

    /** A cash payment of `given`, with the change when the total is set and not zero. */
    method RecordCash(o: Order, given: real)
      modifies o`paymentMethod, o`paymentStatus, o`cashGiven, o`cashChange
      ensures o.paymentMethod == Some("CASH") && o.paymentStatus == Some(NotPaidYet) && o.cashGiven == Some(given)
      ensures o.cashChange == if NonZero(o.totalAmount) then Some(given - o.totalAmount.value) else old(o.cashChange)
    {
      o.paymentMethod := Some("CASH");
      o.paymentStatus := Some(NotPaidYet);
      o.cashGiven := Some(given);
      if NonZero(o.totalAmount) {
        o.cashChange := Some(given - o.totalAmount.value);
      }
    }

    /**
     * The field change an `edit` session's reply makes: the customer's name, the location link
     * or the items take a non-empty text; the total takes a number; the cash given takes a number
     * unless the text says skip, with the change when the total is set. Nothing else changes.
     * `number` is `parseFloat` of the text.
     */
    twostate predicate Edited(o: Order, kind: EditKind, text: string, number: Option<real>)
      reads o, o.customer
    {
      && o.status == old(o.status)
      && (kind != EditCustomer ==> o.customer.name == old(o.customer.name))
      && (kind != EditLocation ==> o.locationLink == old(o.locationLink))
      && (kind != EditItems ==> o.items == old(o.items))
      && (kind != EditTotal ==> o.totalAmount == old(o.totalAmount))
      && (kind != EditCash ==> o.cashGiven == old(o.cashGiven) && o.cashChange == old(o.cashChange))
      && match kind
         case EditCustomer => o.customer.name == if text != "" then text else old(o.customer.name)
         case EditLocation => o.locationLink == if text != "" then text else old(o.locationLink)
         case EditItems => o.items == if text != "" then text else old(o.items)
         case EditTotal =>
           o.totalAmount == if text != "" && number.Some? then number else old(o.totalAmount)
         case EditCash =>
           var given := if text != "" && !SaysSkip(text) then number else None;
           && o.cashGiven == (if given.Some? then given else old(o.cashGiven))
           && o.cashChange == (if given.Some? && NonZero(o.totalAmount) then Some(given.value - o.totalAmount.value) else old(o.cashChange))
         case EditOther => true
    }

    /**
     * The customer message a new total sends: for an online order whose customer id is all
     * digits, the approval with the payment choice; otherwise none.
     */
    function EditNotice(o: Order, kind: EditKind, text: string, number: Option<real>): (fx: seq<Effect>)
      reads o, o.customer
      ensures fx != [] ==> kind == EditTotal && o.status == NewOnline && number.Some?
    {
      if kind == EditTotal && text != "" && number.Some? && o.status == NewOnline then
        CustomerNotice(o, Text("order_approved", [o.customer.name, o.id]), Inline(CustomerPaymentKeyboard(o.id)))
      else []
    }

    /** The switch over the session's field. */
    method ApplyEdit(o: Order, kind: EditKind, text: string, number: Option<real>) returns (notice: seq<Effect>)
      modifies o`locationLink, o`items, o`totalAmount, o`cashGiven, o`cashChange, o.customer`name
      ensures Edited(o, kind, text, number)
      ensures notice == EditNotice(o, kind, text, number)
    {
      notice := [];
      match kind
      case EditCustomer =>
        if text != "" {
          o.customer.name := text;
        }
      case EditLocation =>
        if text != "" {
          o.locationLink := text;
        }
      case EditItems =>
        if text != "" {
          o.items := text;
        }
      case EditTotal =>
        notice := EditTotalAmount(o, text, number);
      case EditCash =>
        EditCashGiven(o, text, number);
      case EditOther =>
    }

    /** A new total; an online order's customer is sent the approval. */
    method EditTotalAmount(o: Order, text: string, number: Option<real>) returns (notice: seq<Effect>)
      modifies o`totalAmount
      ensures Edited(o, EditTotal, text, number)
      ensures notice == EditNotice(o, EditTotal, text, number)
    {
      notice := [];
      if text != "" {
        if number.Some? {
          o.totalAmount := number;
          if o.status == NewOnline {
            notice := CustomerNotice(o, Text("order_approved", [o.customer.name, o.id]), Inline(CustomerPaymentKeyboard(o.id)));
          }
        }
      }
    }

    /** The cash the customer gives, unless the admin skips it, with the change when the total is set. */
    method EditCashGiven(o: Order, text: string, number: Option<real>)
      modifies o`cashGiven, o`cashChange
      ensures Edited(o, EditCash, text, number)
    {
      if text != "" && !SaysSkip(text) {
        if number.Some? {
          o.cashGiven := number;
          if NonZero(o.totalAmount) {
            o.cashChange := Some(number.value - o.totalAmount.value);
          }
        }
      }
    }

    /**
     * `edit` with an order id: the reply changes the session's field of the order, the session
     * ends, and the admin gets a confirmation (unless the customer was sent the approval) and
     * the card. A vanished order only ends the session. `number` is `parseFloat` of the text.
     */
    method OnEditField(m: Message, fromId: int, st: Sessions.State, number: Option<real>) returns (fx: seq<Effect>)
      requires Valid()
      modifies this`sessions, CustomersOfOrdersWithId(Sessions.Get(st, Sessions.OrderId))`name
      modifies OrdersWithId(Sessions.Get(st, Sessions.OrderId))`locationLink, OrdersWithId(Sessions.Get(st, Sessions.OrderId))`items
      modifies OrdersWithId(Sessions.Get(st, Sessions.OrderId))`totalAmount, OrdersWithId(Sessions.Get(st, Sessions.OrderId))`cashGiven
      modifies OrdersWithId(Sessions.Get(st, Sessions.OrderId))`cashChange
      ensures Valid()
      ensures sessions == Sessions.Clear(old(sessions), fromId)
      ensures match old(FindOrderOpt(Sessions.Get(st, Sessions.OrderId)))
        case None => fx == []
        case Some(o) =>
          var field := Sessions.Get(st, Sessions.Field);
          var notice := EditNotice(o, EditKindOf(field), m.text, number);
          && Edited(o, EditKindOf(field), m.text, number)
          && fx == (if notice == [] then [Send(Chat(m.chatId), Text("updated", [UpdatedField(field)]), NoMarkup)] else notice)
                   + [Send(Chat(m.chatId), Details(o.id), Inline(AdminActionKeyboard(o.id, o.status)))]
    {
      var found := FindOrderOpt(Sessions.Get(st, Sessions.OrderId));
      if found.None? {
        ClearSession(fromId);
        fx := [];
        return;
      }
      var o := found.value;
      var field := Sessions.Get(st, Sessions.Field);
      var notice := ApplyEdit(o, EditKindOf(field), m.text, number);
      ClearSession(fromId);
      fx := if notice == [] then [Send(Chat(m.chatId), Text("updated", [UpdatedField(field)]), NoMarkup)] else notice;
      fx := fx + [Send(Chat(m.chatId), Details(o.id), Inline(AdminActionKeyboard(o.id, o.status)))];
    }

    /** `add_qr_photo`: the largest size of the photo is kept and the title asked for. */
    method OnQrPhoto(m: Message, fromId: int) returns (fx: seq<Effect>)
      requires Valid() && m.photo != []
      modifies this`sessions
      ensures Valid()
      ensures sessions == Sessions.Put(old(sessions), fromId,
        map[Sessions.Mode := Some("add_qr_title"), Sessions.FileId := Some(m.photo[|m.photo| - 1])])
      ensures fx == [Plain(Chat(m.chatId), "send_qr_title")]
    {
      SetSession(fromId, map[Sessions.Mode := Some("add_qr_title"), Sessions.FileId := Some(m.photo[|m.photo| - 1])]);
      fx := [Plain(Chat(m.chatId), "send_qr_title")];
    }

    /** `add_qr_title`: a QR code with the text as title and the kept photo is stored; the session ends. */
    method OnQrTitle(m: Message, fromId: int, st: Sessions.State, now: int) returns (fx: seq<Effect>)
      requires Valid()
      modifies this`qrCodes, this`sessions
      ensures Valid()
      ensures qrCodes == old(qrCodes) + [QRCode("qr_" + IntToString(now), m.text, Sessions.Get(st, Sessions.FileId))]
      ensures sessions == Sessions.Clear(old(sessions), fromId)
      ensures fx == [Plain(Chat(m.chatId), "qr_saved"), Send(Chat(m.chatId), Text("manage_qrs", []), Inline(ManageQRsKeyboard(qrCodes)))]
    {
      qrCodes := qrCodes + [QRCode("qr_" + IntToString(now), m.text, Sessions.Get(st, Sessions.FileId))];
      ClearSession(fromId);
      fx := [Plain(Chat(m.chatId), "qr_saved"), Send(Chat(m.chatId), Text("manage_qrs", []), Inline(ManageQRsKeyboard(qrCodes)))];
    }

    /**
     * `add_admin`: a non-zero id (from a forward or an all-digits text) not yet an admin is
     * appended; the admin is told which case it was, the session ends and the list is redrawn.
     */
    method OnAddAdminInput(m: Message, fromId: int) returns (fx: seq<Effect>)
      requires Valid()
      modifies this`adminUserIds, this`sessions
      ensures Valid()
      ensures |fx| == 2 && fx[1] == Send(Chat(m.chatId), Text("manage_admins", []), Inline(ManageAdminsKeyboard(adminUserIds, primaryAdminId)))
      ensures var n := AdminCandidate(m);
        if n.Some? && n.value != 0 then
          if n.value in old(adminUserIds) then adminUserIds == old(adminUserIds) && fx[0] == Plain(Chat(m.chatId), "already_admin")
          else adminUserIds == old(adminUserIds) + [n.value] && fx[0] == Plain(Chat(m.chatId), "admin_added")
        else adminUserIds == old(adminUserIds) && fx[0] == Plain(Chat(m.chatId), "could_not_add_admin")
      ensures sessions == Sessions.Clear(old(sessions), fromId)
    {
      var n := AdminCandidate(m);
      var reply;
      if n.Some? && n.value != 0 {
        if n.value in adminUserIds {
          reply := Plain(Chat(m.chatId), "already_admin");
        } else {
          adminUserIds := adminUserIds + [n.value];
          reply := Plain(Chat(m.chatId), "admin_added");
        }
      } else {
        reply := Plain(Chat(m.chatId), "could_not_add_admin");
      }
      ClearSession(fromId);
      var rows := BuildManageAdminsKeyboard(adminUserIds, primaryAdminId);
      fx := [reply, Send(Chat(m.chatId), Text("manage_admins", []), Inline(rows))];
    }

    /**
     * `/start`: an admin gets the panel; anyone else is found or created as a customer, starts
     * an online order (the session is keyed by the chat) and is asked for a language.
     */
    method HandleStart(m: Message, now: int) returns (c: Option<Customer>, fx: seq<Effect>)
      requires Valid() && m.from.Some?
      modifies this`customers, this`sessions
      ensures Valid()
      ensures c.None? <==> old(IsAdmin(m.chatId))
      ensures c.None? ==>
        && customers == old(customers) && sessions == old(sessions)
        && fx == [Send(Chat(m.chatId), Text("admin_panel", []), Keyboards.AdminMainMenu())]
      ensures c.Some? ==>
        && CustomerFoundOrCreated(m.from.value, now, c.value)
        && sessions == Sessions.Put(old(sessions), m.chatId, ModeOnly("online_order_start"))
        && fx == [Send(Chat(m.chatId), Text("choose_language", []), Inline(LanguageKeyboard()))]
    {
      if IsAdmin(m.chatId) {
        c := None;
        fx := [Send(Chat(m.chatId), Text("admin_panel", []), Keyboards.AdminMainMenu())];
        return;
      }
      var customer := FindOrCreateCustomer(m.from.value, now);
      c := Some(customer);
      SetSession(m.chatId, ModeOnly("online_order_start"));
      fx := [Send(Chat(m.chatId), Text("choose_language", []), Inline(LanguageKeyboard()))];
    }

    /**
     * The customer of a forwarded order: by the hidden sender's name (the first customer with
     * that name, or a fresh one named after the clock and appended), else the forwarded user's
     * record, else the sender's.
     */
    twostate predicate ForwardCustomer(m: Message, sender: TgUser, now: int, new c: Customer)
      reads this, c
    {
      if m.forwardSenderName != "" then
        match old(CustomerNamed(customers, m.forwardSenderName))
        case Some(existing) => c == existing && customers == old(customers)
        case None =>
          && fresh(c) && c.id == "forward_" + IntToString(now) && c.name == m.forwardSenderName && c.language == None
          && customers == old(customers) + [c]
      else CustomerFoundOrCreated(if m.forwardFrom.Some? then m.forwardFrom.value else sender, now, c)
    }

    method ResolveCustomer(m: Message, sender: TgUser, now: int) returns (c: Customer)
      modifies this`customers
      ensures ForwardCustomer(m, sender, now, c)
    {
      if m.forwardSenderName != "" {
        var existing := CustomerNamed(customers, m.forwardSenderName);
        if existing.Some? {
          c := existing.value;
        } else {
          c := new Customer("forward_" + IntToString(now), m.forwardSenderName);
          customers := customers + [c];
        }
      } else if m.forwardFrom.Some? {
        c := FindOrCreateCustomer(m.forwardFrom.value, now);
      } else {
        c := FindOrCreateCustomer(sender, now);
      }
    }

    /**
     * `createOrderFromForward`: without a sender, nothing. Otherwise the customer is resolved
     * (and may be recorded) first; a message with neither a link nor items then yields no order,
     * any other becomes a new order, appended, and the forwarded message is deleted.
     */
    method CreateOrderFromForward(m: Message, now: int, orderNumber: string) returns (o: Option<Order>, fx: seq<Effect>)
      modifies this`orders, this`customers
      ensures m.from.None? ==> o.None? && orders == old(orders) && customers == old(customers) && fx == []
      ensures m.from.Some? ==> old(customers) <= customers && |customers| <= |old(customers)| + 1
      ensures o.Some? <==> m.from.Some? && (m.location.Some? || m.text != "" || m.caption != "")
      ensures o.None? ==> orders == old(orders) && fx == []
      ensures o.Some? ==>
        && fresh(o.value) && orders == old(orders) + [o.value]
        && IntakeOrder(o.value, m, orderNumber, now) && ForwardCustomer(m, m.from.value, now, o.value.customer)
        && fx == [Delete(Chat(m.from.value.id), m.messageId)]
    {
      if m.from.None? {
        o := None;
        fx := [];
        return;
      }
      var c := ResolveCustomer(m, m.from.value, now);
      var e := Extract(m.text, m.caption, m.location);
      ExtractNothing(m.text, m.caption, m.location);
      if e.link.None? && e.items == "" {
        o := None;
        fx := [];
        return;
      }
      var order := new Order(orderNumber, now, c, e.link.GetOr("No location provided"), New, e.items);
      orders := orders + [order];
      o := Some(order);
      fx := [Delete(Chat(m.from.value.id), m.messageId)];
    }

    /**
     * `handleNewOrder`: only for admins; the order built from the message is shown with the
     * admin's action keyboard, or the admin is told no order could be made.
     */
    method HandleNewOrder(m: Message, now: int, orderNumber: string) returns (o: Option<Order>, fx: seq<Effect>)
      requires Valid()
      modifies this`orders, this`customers
      ensures Valid()
      ensures !old(IsAdmin(m.chatId)) ==>
        o.None? && orders == old(orders) && customers == old(customers) && fx == [Plain(Chat(m.chatId), "admins_only")]
      ensures old(IsAdmin(m.chatId)) ==>
        && (o.Some? <==> m.from.Some? && (m.location.Some? || m.text != "" || m.caption != ""))
        && (m.from.Some? ==> old(customers) <= customers && |customers| <= |old(customers)| + 1)
        && (o.None? ==> orders == old(orders) && fx == [Plain(Chat(m.chatId), "could_not_create")])
        && (o.Some? ==>
              && fresh(o.value) && orders == old(orders) + [o.value]
              && IntakeOrder(o.value, m, orderNumber, now) && ForwardCustomer(m, m.from.value, now, o.value.customer)
              && fx == [Delete(Chat(m.from.value.id), m.messageId),
                        Send(Chat(m.chatId), Details(orderNumber), Inline(AdminActionKeyboard(orderNumber, New)))])
    {
      if !IsAdmin(m.chatId) {
        o := None;
        fx := [Plain(Chat(m.chatId), "admins_only")];
        return;
      }
      var deleted;
      o, deleted := CreateOrderFromForward(m, now, orderNumber);
      if o.None? {
        fx := [Plain(Chat(m.chatId), "could_not_create")];
      } else {
        fx := deleted + [Send(Chat(m.chatId), Details(o.value.id), Inline(AdminActionKeyboard(o.value.id, o.value.status)))];
      }
    }

    // -------------------------------------------------------------------------
    // Dispatch
    // -------------------------------------------------------------------------

    /** The admin's screens: menus, lists and settings, QR codes and the admin list. */
    method RunAdminScreen(p: Press, branch: CallbackBranch) returns (fx: seq<Effect>)
      requires Valid() && AdminScreen(branch)
      modifies this
      ensures Valid()
    {
      match branch
      case AdminMainMenu =>
        fx := OnAdminMainMenu(p);
      case AdminArchive =>
        fx := OnAdminArchive(p);
      case AdminSettings =>
        fx := OnAdminSettings(p);
      case ManageQrs =>
        fx := OnManageQrs(p);
      case AddQr =>
        fx := OnAddQr(p);
      case QrCode =>
        fx := OnQrCode(p);
      case SetAdminLanguage(lang) =>
        fx := OnSetAdminLanguage(p, lang);
      case ManageAdmins =>
        fx := OnManageAdmins(p);
      case ManageDrivers =>
        fx := OnManageDrivers(p);
      case AddAdmin =>
        fx := OnAddAdmin(p);
      case RemoveAdmin =>
        fx := OnRemoveAdmin(p);
    }

    /** The other branches that need no order found by the lookup. */
    method RunGeneralBranch(p: Press, c: Callback, branch: CallbackBranch, now: int) returns (fx: seq<Effect>)
      requires Valid()
      requires branch in {Language, OrderAction, CallbackBranch.Disconnect, DriverAdmin, Unhandled}
      requires branch in {Language, OrderAction, DriverAdmin} ==> Truthy(c.subAction)
      requires branch == OrderAction ==> Truthy(c.entityId)
      modifies this, customers, drivers, orders
      ensures Valid()
      ensures branch == Unhandled ==> fx == [] && Untouched()
      ensures branch == OrderAction && old(FindOrder(c.entityId.value)).None? ==>
        fx == [Answer(p.queryId, Some(Text("order_not_found", [])), false)] && Untouched()
    {
      match branch
      case Language =>
        var customer;
        customer, fx := OnLanguage(p, c.subAction.value, now);
      case OrderAction =>
        var found := FindOrder(c.entityId.value);
        if found.None? {
          fx := [Answer(p.queryId, Some(Text("order_not_found", [])), false)];
        } else {
          fx := OnOrderAction(p, found.value, c.subAction.value);
        }
      case Disconnect =>
        fx := OnDisconnectDecision(p);
      case DriverAdmin =>
        fx := OnDriverAdmin(p, c.subAction.value);
      case Unhandled =>
        fx := [];
    }

    /** The order branches that show or edit the order. */
    method RunOrderView(p: Press, c: Callback, branch: CallbackBranch, o: Order) returns (fx: seq<Effect>)
      requires Valid() && o in orders
      requires branch in {CustomerPing, CustomerPay, Detail, EditMenu, Edit, Payment, Assign}
      requires branch == CustomerPing ==> Truthy(o.driverId)
      requires branch in {Edit, Payment, Assign} ==> Truthy(c.subAction)
      modifies this, o, o.customer
      ensures Valid()
    {
      match branch
      case CustomerPing =>
        fx := OnCustomerPing(p, o);
      case CustomerPay =>
        fx := OnCustomerPay(p, o);
      case Detail =>
        fx := OnDetail(p, o);
      case EditMenu =>
        fx := OnEditMenu(p, o);
      case Edit =>
        fx := OnEdit(p, o, c.subAction.value);
      case Payment =>
        fx := OnPayment(p, o, c.subAction.value);
      case Assign =>
        fx := OnAssign(p, o, c.subAction.value);
    }

    /** The order branches that move the order along or notify about it. */
    method RunOrderStep(p: Press, c: Callback, branch: CallbackBranch, o: Order) returns (fx: seq<Effect>)
      requires Valid() && o in orders
      requires branch in {Go, Cancel, Save, DriverStep, Delay, Feedback}
      requires branch in {DriverStep, Delay, Feedback} ==> Truthy(c.subAction)
      modifies this, o, drivers
      ensures Valid()
      ensures branch == DriverStep ==> DriverStepDone(p, o, c.subAction.value, fx)
    {
      match branch
      case Go =>
        fx := OnGo(p, o);
      case Cancel =>
        fx := OnCancel(p, o);
      case Save =>
        fx := OnSave(p, o);
      case DriverStep =>
        fx := RunDriverStep(p, o, c.subAction.value);
      case Delay =>
        fx := OnDelay(p, o, c.subAction.value);
      case Feedback =>
        fx := OnFeedback(p, o, c.subAction.value);
    }

    /**
     * The outcome of `driver:<step>:<id>` on order `o`: a presser who is not a registered driver
     * changes nothing and is sent nothing; a registered one is the driver the step acts on, and
     * no other driver, order or customer changes.
     */
    twostate predicate DriverStepDone(p: Press, o: Order, sub: string, fx: seq<Effect>)
      reads this, o, o.customer, drivers, orders, customers, OrderCustomers()
    {
      var presser := old(FindDriver(IntToString(p.from.id)));
      && (presser.None? ==> fx == [] && Untouched())
      && (presser.Some? ==> presser.value in drivers && StepDone(p, o, presser.value, StepOf(sub), fx))
      && orders == old(orders) && drivers == old(drivers) && customers == old(customers)
      && unchanged(set x | x in drivers && x.id != IntToString(p.from.id))
      && unchanged(set x | x in orders && x != o)
      && unchanged(customers)
      && unchanged(OrderCustomers())
    }

    /**
     * `driver:<step>:<id>`: the step runs only when the presser is a registered driver
     * (`drivers.find(d => d.id === fromId.toString())`), and acts on that driver.
     */
    method RunDriverStep(p: Press, o: Order, sub: string) returns (fx: seq<Effect>)
      requires Valid() && o in orders
      modifies this`sessions, o`status, o`driverId, DriverWithId(Some(IntToString(p.from.id)))`status,
        DriverWithId(Some(IntToString(p.from.id)))`currentOrderId
      ensures Valid()
      ensures DriverStepDone(p, o, sub, fx)
    {
      var d := FindDriver(IntToString(p.from.id));
      if d.None? {
        fx := [];
      } else {
        ghost var others := set x | x in drivers && x.id != IntToString(p.from.id);
        assert d.value !in others;
        fx := OnDriverStep(p, o, d.value, sub);
        assert unchanged(others);
      }
    }

    /**
     * `handleCallbackQuery`: the branch taken is the route of the decoded token, with the order
     * looked up in the state before the press. A press without message or data is only
     * answered; an empty action is not even answered; every other press is answered first, and
     * one that matches no branch changes nothing.
     */
    method HandleCallback(q: CallbackQuery, now: int) returns (branch: CallbackBranch, fx: seq<Effect>)
      requires Valid()
      modifies this, customers, drivers, orders, OrderCustomers()
      ensures Valid()
      ensures var key := if q.message.Some? && q.data != "" then OrderLookupKey(Decode(q.data)) else None;
        var order := if key.Some? then old(FindOrder(key.value)) else None;
        branch == RouteCallback(q.message.Some?, q.data, order.Some?, order.Some? && Truthy(old(order.value.driverId)))
      ensures branch == MissingPayload ==> fx == [Answer(q.id, None, false)] && Untouched()
      ensures branch == NoAction ==> fx == [] && Untouched()
      ensures branch == Unhandled ==> fx == [Answer(q.id, None, false)] && Untouched()
      ensures branch != NoAction ==> |fx| >= 1 && fx[0] == Answer(q.id, None, false)
      ensures branch == OrderAction && old(FindOrder(Decode(q.data).entityId.value)).None? ==>
        fx == [Answer(q.id, None, false), Answer(q.id, Some(Text("order_not_found", [])), false)] && Untouched()
      ensures branch == DriverStep ==>
        DriverStepDone(PressOf(q), old(FindOrder(OrderLookupKey(Decode(q.data)).value)).value, Decode(q.data).subAction.value, fx[1..])
    {
      if q.message.None? || q.data == "" {
        branch := MissingPayload;
        fx := [Answer(q.id, None, false)];
        return;
      }
      var c := Decode(q.data);
      var key := OrderLookupKey(c);
      var order := if key.Some? then FindOrder(key.value) else None;
      branch := Route(c, order.Some?, order.Some? && Truthy(order.value.driverId));
      if branch == NoAction {
        fx := [];
        return;
      }
      var p := PressOf(q);
      var rest := RunBranch(p, c, order, branch, now);
      fx := [Answer(q.id, None, false)] + rest;
    }

    /** The branch `Route` chose for token `c`, with the order the lookup found, if any. */
    method RunBranch(p: Press, c: Callback, order: Option<Order>, branch: CallbackBranch, now: int) returns (fx: seq<Effect>)
      requires Valid() && (order.Some? ==> order.value in orders)
      requires branch == Route(c, order.Some?, order.Some? && Truthy(order.value.driverId)) && branch != NoAction
      modifies this, customers, drivers, orders, OrderCustomers()
      ensures Valid()
      ensures branch == Unhandled ==> fx == [] && Untouched()
      ensures branch == OrderAction && old(FindOrder(c.entityId.value)).None? ==>
        fx == [Answer(p.queryId, Some(Text("order_not_found", [])), false)] && Untouched()
      ensures branch == DriverStep ==> DriverStepDone(p, order.value, c.subAction.value, fx)
    {
      if AdminScreen(branch) {
        fx := RunAdminScreen(p, branch);
      } else if branch in {CustomerPing, CustomerPay, Detail, EditMenu, Edit, Payment, Assign} {
        fx := RunOrderView(p, c, branch, order.value);
      } else if branch in {Go, Cancel, Save, DriverStep, Delay, Feedback} {
        fx := RunOrderStep(p, c, branch, order.value);
      } else {
        fx := RunGeneralBranch(p, c, branch, now);
      }
    }

    /**
     * `handleMessage`: the branch taken is the route of the message, for the sender's session
     * and admin status before it. A message without a sender, or one no branch takes, changes
     * nothing and sends nothing; the admin's list and settings views change nothing.
     */
    method HandleMessage(m: Message, now: int, orderNumber: string) returns (branch: MessageBranch, fx: seq<Effect>)
      requires Valid()
      modifies this, customers, drivers, orders, OrderCustomers()
      ensures Valid()
      ensures var fromId := if m.from.Some? then m.from.value.id else 0;
        branch == RouteMessage(m, old(IsAdmin(m.chatId)), old(Sessions.Lookup(sessions, fromId)))
      ensures branch == NoSender || branch == Ignored ==> fx == [] && Untouched()
      ensures branch == AdminListView || branch == AdminSettingsView ==> Untouched()
    {
      var fromId := if m.from.Some? then m.from.value.id else 0;
      var session := Sessions.Lookup(sessions, fromId);
      branch := RouteMessage(m, IsAdmin(m.chatId), session);
      if branch == NoSender || branch == Ignored {
        fx := [];
      } else if branch == AdminListView {
        fx := OnListText(m);
      } else if branch == AdminSettingsView {
        fx := OnSettingsText(m);
      } else if branch in {StartCommand, RegisterCommand, DisconnectCommand, NewOrderIntake, NewDraft} {
        fx := RunCommand(m, branch, now, orderNumber);
      } else {
        fx := RunSessionStep(m, branch, session.value, now, orderNumber);
      }
    }

    /** The commands, New Draft and the order intake; the sender is known. */
    method RunCommand(m: Message, branch: MessageBranch, now: int, orderNumber: string) returns (fx: seq<Effect>)
      requires Valid() && m.from.Some?
      requires branch in {StartCommand, RegisterCommand, DisconnectCommand, NewOrderIntake, NewDraft}
      modifies this, customers, drivers, orders, OrderCustomers()
      ensures Valid()
    {
      match branch
      case StartCommand =>
        var c;
        c, fx := HandleStart(m, now);
      case RegisterCommand =>
        fx := Register(m.from.value);
      case DisconnectCommand =>
        fx := Disconnect(m.from.value);
      case NewOrderIntake =>
        var o;
        o, fx := HandleNewOrder(m, now, orderNumber);
      case NewDraft =>
        var o;
        o, fx := OnNewDraft(m, m.from.value.id, orderNumber, now);
    }

    /** The steps of a session in progress, with the sender's state record `st`. */
    method RunSessionStep(m: Message, branch: MessageBranch, st: Sessions.State, now: int, orderNumber: string)
      returns (fx: seq<Effect>)
      requires Valid() && m.from.Some?
      requires branch in {OrderItems, OrderLocation, CashGiven, EditField, QrPhoto, QrTitle, AddAdminInput}
      requires branch == OrderLocation ==> m.location.Some?
      requires branch == QrPhoto ==> m.photo != []
      modifies this, customers, drivers, orders, OrderCustomers()
      ensures Valid()
    {
      var user := m.from.value;
      match branch
      case OrderItems =>
        var o;
        o, fx := OnOrderItems(m, user, orderNumber, now);
      case OrderLocation =>
        var c;
        c, fx := OnOrderLocation(m, user, m.location.value, st, now);
      case CashGiven =>
        fx := OnCashGiven(m, user.id, st, ParseFloat(m.text));
      case EditField =>
        fx := OnEditField(m, user.id, st, ParseFloat(m.text));
      case QrPhoto =>
        fx := OnQrPhoto(m, user.id);
      case QrTitle =>
        fx := OnQrTitle(m, user.id, st, now);
      case AddAdminInput =>
        fx := OnAddAdminInput(m, user.id);
    }
  }
}
