/**
 * Button layouts. Each builder maps an order's status, or the driver, QR code and admin lists,
 * to the rows of buttons the bot attaches to a message. Labels are kept as plain text; the
 * callback tokens are exact, since the callback handler decodes them.
 */
module Keyboards {
  import opened Wrappers
  import opened Strings
  import opened Domain
  import opened Callbacks

  datatype Button = Button(text: string, data: string)

  /** A reply-keyboard key: its text is sent back as a message when pressed. */
  datatype KeyButton = KeyButton(text: string, requestLocation: bool)

  datatype Markup =
    | NoMarkup
    | Inline(rows: seq<seq<Button>>)
    | Reply(keys: seq<seq<KeyButton>>, resize: bool, oneTime: bool)
    | RemoveKeyboard

  /** Some button of `rows` carries the token `data`. */
  predicate Emits(rows: seq<seq<Button>>, data: string) {
    exists i, j :: 0 <= i < |rows| && 0 <= j < |rows[i]| && rows[i][j].data == data
  }

  /** Every button of `rows` carries a token that `P` accepts. */
  predicate AllTokens(rows: seq<seq<Button>>, P: string -> bool) {
    forall i, j :: 0 <= i < |rows| && 0 <= j < |rows[i]| ==> P(rows[i][j].data)
  }

  /**
   * An order-scoped token for order `id`: the handler looks the order up under `id`,
   * the action is one of the order verbs and the sub-action is non-empty.
   */
  predicate TargetsOrder(data: string, id: string) {
    var c := Decode(data);
    OrderLookupKey(c) == Some(id) && OrderVerbBranch(c.action).Some? && Truthy(c.subAction)
  }

  /** An order-scoped token reaches the branch of its verb when its order exists, and no branch otherwise. */
  lemma RouteOfTargetingToken(data: string, id: string, found: bool, hasDriver: bool)
    requires TargetsOrder(data, id)
    ensures RouteCallback(true, data, found, hasDriver) ==
      if found then OrderVerbBranch(Decode(data).action).value else Unhandled
  {
    RouteOfOrderVerb(Decode(data), found, hasDriver);
  }

  lemma TargetsOrderToken3(verb: string, sub: string, id: string)
    requires OrderVerbBranch(verb).Some?
    requires ':' !in verb && ':' !in sub && ':' !in id && sub != "" && id != ""
    ensures TargetsOrder(Token3(verb, sub, id), id)
  {
    DecodeToken3(verb, sub, id);
    OrderVerbTakesEntity(verb);
  }

  lemma TargetsOrderToken2(verb: string, id: string)
    requires OrderVerbBranch(verb).Some?
    requires ':' !in verb && ':' !in id && id != ""
    ensures TargetsOrder(Token2(verb, id), id)
  {
    DecodeToken2(verb, id);
    OrderVerbTakesEntity(verb);
  }

  // ---------------------------------------------------------------------------
  // Main menu (a reply keyboard) and the menu texts the message handler recognises
  // ---------------------------------------------------------------------------

  const SavedText: string := "\U{1F4BE} SAVED"
  const ActiveText: string := "\U{26A1} ACTIVE"
  const CompletedText: string := "\U{2705} COMPLETED"
  const OnlineText: string := "\U{1F195} ONLINE"
  const SettingsText: string := "\U{2699}\U{FE0F} SETTINGS"
  const NewDraftText: string := "\U{2795} New Draft"
  /** Texts the message handler lists orders for but that the main menu does not offer. */
  const DraftText: string := "\U{1F4E6} DRAFT"
  const OrdersText: string := "\U{1F4E5} Orders"
  const DriversText: string := "\U{1F680} DRIVERS"

  function AdminMainMenu(): (m: Markup)
    ensures m.Reply? && m.resize && !m.oneTime
  {
    Reply([[KeyButton(SavedText, false), KeyButton(ActiveText, false), KeyButton(CompletedText, false)],
           [KeyButton(OnlineText, false), KeyButton(SettingsText, false), KeyButton(NewDraftText, false)]],
          true, false)
  }

  // ---------------------------------------------------------------------------
  // Order keyboards
  // ---------------------------------------------------------------------------

  /** The admin's buttons under an order's details. */
  function AdminActionKeyboard(id: string, status: OrderStatus): (rows: seq<seq<Button>>)
    ensures |rows| >= 1 && |rows[0]| >= 1 && rows[0][0].data == Token2("edit_menu", id)
  {
    var editButton := [Button("Edit", Token2("edit_menu", id))]
      + (if !Undispatched(status) then [Button("Cancel", Token2("cancel", id))] else []);
    var actionRow := editButton
      + (if status == Completed then [Button("Archive", Token2("admin_archive", id))] else []);
    var activeRow :=
      if Active(status) then
        [[Button("Arrived", Token3("driver", "arrived", id)),
          Button("Completed", Token3("driver", "completed", id)),
          Button("Ping Driver", Token2("customer_ping", id))]]
      else [];
    var goRow := if Undispatched(status) then [[Button("GO", Token2("go", id))]] else [];
    [actionRow] + activeRow + goRow
  }

  /** Which buttons the admin action keyboard carries, as a function of the status. */
  lemma AdminActionButtons(id: string, status: OrderStatus)
    ensures Emits(AdminActionKeyboard(id, status), Token2("cancel", id)) <==> !Undispatched(status)
    ensures Emits(AdminActionKeyboard(id, status), Token2("admin_archive", id)) <==> status == Completed
    ensures Emits(AdminActionKeyboard(id, status), Token3("driver", "arrived", id)) <==> Active(status)
    ensures Emits(AdminActionKeyboard(id, status), Token3("driver", "completed", id)) <==> Active(status)
    ensures Emits(AdminActionKeyboard(id, status), Token2("customer_ping", id)) <==> Active(status)
    ensures Emits(AdminActionKeyboard(id, status), Token2("go", id)) <==> Undispatched(status)
  {
    var rows: seq<seq<Button>> := AdminActionKeyboard(id, status);
    AdminActionTokensDistinct(id);
    if Undispatched(status) {
      AdminActionRowsUndispatched(id, status);
      assert rows[1][0].data == Token2("go", id);
    } else if Active(status) {
      AdminActionRowsActive(id, status);
      assert rows[0][1].data == Token2("cancel", id);
      assert rows[1][0].data == Token3("driver", "arrived", id);
      assert rows[1][1].data == Token3("driver", "completed", id);
      assert rows[1][2].data == Token2("customer_ping", id);
    } else if status == Completed {
      AdminActionRowsCompleted(id);
      assert rows[0][1].data == Token2("cancel", id);
      assert rows[0][2].data == Token2("admin_archive", id);
    } else {
      AdminActionRowsOther(id, status);
      assert rows[0][1].data == Token2("cancel", id);
    }
  }

  /** The seven tokens the admin action keyboard can carry for one order are pairwise distinct. */
  lemma AdminActionTokensDistinct(id: string)
    ensures Token2("edit_menu", id) != Token2("cancel", id)
    ensures Token2("edit_menu", id) != Token2("admin_archive", id)
    ensures Token2("edit_menu", id) != Token2("customer_ping", id)
    ensures Token2("edit_menu", id) != Token2("go", id)
    ensures Token2("edit_menu", id) != Token3("driver", "arrived", id)
    ensures Token2("edit_menu", id) != Token3("driver", "completed", id)
    ensures Token2("cancel", id) != Token2("admin_archive", id)
    ensures Token2("cancel", id) != Token2("customer_ping", id)
    ensures Token2("cancel", id) != Token2("go", id)
    ensures Token2("cancel", id) != Token3("driver", "arrived", id)
    ensures Token2("cancel", id) != Token3("driver", "completed", id)
    ensures Token2("admin_archive", id) != Token2("customer_ping", id)
    ensures Token2("admin_archive", id) != Token2("go", id)
    ensures Token2("admin_archive", id) != Token3("driver", "arrived", id)
    ensures Token2("admin_archive", id) != Token3("driver", "completed", id)
    ensures Token2("customer_ping", id) != Token2("go", id)
    ensures Token2("customer_ping", id) != Token3("driver", "arrived", id)
    ensures Token2("customer_ping", id) != Token3("driver", "completed", id)
    ensures Token2("go", id) != Token3("driver", "arrived", id)
    ensures Token2("go", id) != Token3("driver", "completed", id)
    ensures Token3("driver", "arrived", id) != Token3("driver", "completed", id)
  {
    Token3AsToken2("driver", "arrived", id);
    Token3AsToken2("driver", "completed", id);
    Token2Injective("edit_menu", "cancel", id);
    Token2Injective("edit_menu", "admin_archive", id);
    Token2Injective("edit_menu", "customer_ping", id);
    Token2Injective("edit_menu", "go", id);
    Token2Injective("edit_menu", "driver:arrived", id);
    Token2Injective("edit_menu", "driver:completed", id);
    Token2Injective("cancel", "admin_archive", id);
    Token2Injective("cancel", "customer_ping", id);
    Token2Injective("cancel", "go", id);
    Token2Injective("cancel", "driver:arrived", id);
    Token2Injective("cancel", "driver:completed", id);
    Token2Injective("admin_archive", "customer_ping", id);
    Token2Injective("admin_archive", "go", id);
    Token2Injective("admin_archive", "driver:arrived", id);
    Token2Injective("admin_archive", "driver:completed", id);
    Token2Injective("customer_ping", "go", id);
    Token2Injective("customer_ping", "driver:arrived", id);
    Token2Injective("customer_ping", "driver:completed", id);
    Token2Injective("go", "driver:arrived", id);
    Token2Injective("go", "driver:completed", id);
    Token2Injective("driver:arrived", "driver:completed", id);
  }

  /** The layout for new, draft and new_online orders. */
  lemma AdminActionRowsUndispatched(id: string, status: OrderStatus)
    requires Undispatched(status)
    ensures AdminActionKeyboard(id, status) == [[Button("Edit", Token2("edit_menu", id))], [Button("GO", Token2("go", id))]]
  {
    var rows := AdminActionKeyboard(id, status);
    assert !Active(status) && status != Completed;
    assert rows[0] == [Button("Edit", Token2("edit_menu", id))];
    assert |rows| == 2;
    assert rows[1] == [Button("GO", Token2("go", id))];
  }

  /** The layout for orders on the road. */
  lemma AdminActionRowsActive(id: string, status: OrderStatus)
    requires Active(status)
    ensures AdminActionKeyboard(id, status) ==
      [[Button("Edit", Token2("edit_menu", id)), Button("Cancel", Token2("cancel", id))],
       [Button("Arrived", Token3("driver", "arrived", id)), Button("Completed", Token3("driver", "completed", id)),
        Button("Ping Driver", Token2("customer_ping", id))]]
  {
    var rows := AdminActionKeyboard(id, status);
    assert !Undispatched(status) && status != Completed;
    assert rows[0] == [Button("Edit", Token2("edit_menu", id)), Button("Cancel", Token2("cancel", id))];
    assert |rows| == 2;
    assert rows[1] == [Button("Arrived", Token3("driver", "arrived", id)), Button("Completed", Token3("driver", "completed", id)),
                       Button("Ping Driver", Token2("customer_ping", id))];
  }

  /** The layout for completed orders. */
  lemma AdminActionRowsCompleted(id: string)
    ensures AdminActionKeyboard(id, Completed) ==
      [[Button("Edit", Token2("edit_menu", id)), Button("Cancel", Token2("cancel", id)), Button("Archive", Token2("admin_archive", id))]]
  {
    var rows := AdminActionKeyboard(id, Completed);
    assert rows[0] == [Button("Edit", Token2("edit_menu", id)), Button("Cancel", Token2("cancel", id)), Button("Archive", Token2("admin_archive", id))];
    assert |rows| == 1;
  }

  /** The layout for cancelled orders. */
  lemma AdminActionRowsOther(id: string, status: OrderStatus)
    requires !Undispatched(status) && !Active(status) && status != Completed
    ensures AdminActionKeyboard(id, status) == [[Button("Edit", Token2("edit_menu", id)), Button("Cancel", Token2("cancel", id))]]
  {
    var rows := AdminActionKeyboard(id, status);
    assert rows[0] == [Button("Edit", Token2("edit_menu", id)), Button("Cancel", Token2("cancel", id))];
    assert |rows| == 1;
  }

  /** The admin's edit menu for an order. */
  function AdminEditKeyboard(id: string, customerHasLanguage: bool): (rows: seq<seq<Button>>)
    ensures |rows| == 4
    ensures |rows[2]| == (if customerHasLanguage then 2 else 3)
  {
    [[Button("Customer", Token3("edit", "customer", id)), Button("Location", Token3("edit", "location", id))],
     [Button("Driver", Token3("edit", "driver", id)), Button("Total", Token3("edit", "total", id))],
     [Button("Items", Token3("edit", "items", id)), Button("Payment", Token3("edit", "payment", id))]
       + (if !customerHasLanguage then [Button("Russian customer", Token3("edit", "lang_ru", id))] else []),
     [Button("Save", Token2("save", id)), Button("Cancel", Token2("cancel", id)), Button("Back", Token2("detail", id))]]
  }

  /** The Russian-customer button is offered exactly when the customer has no language yet. */
  lemma AdminEditLanguageButton(id: string, customerHasLanguage: bool)
    ensures Emits(AdminEditKeyboard(id, customerHasLanguage), Token3("edit", "lang_ru", id)) <==> !customerHasLanguage
  {
    var rows: seq<seq<Button>> := AdminEditKeyboard(id, customerHasLanguage);
    if !customerHasLanguage {
      assert rows[2][2].data == Token3("edit", "lang_ru", id);
    } else {
      Token3AsToken2("edit", "lang_ru", id);
      Token3Injective("edit", "customer", "lang_ru", id);
      Token3Injective("edit", "location", "lang_ru", id);
      Token3Injective("edit", "driver", "lang_ru", id);
      Token3Injective("edit", "total", "lang_ru", id);
      Token3Injective("edit", "items", "lang_ru", id);
      Token3Injective("edit", "payment", "lang_ru", id);
      Token2Injective("save", "edit" + ":" + "lang_ru", id);
      Token2Injective("cancel", "edit" + ":" + "lang_ru", id);
      Token2Injective("detail", "edit" + ":" + "lang_ru", id);
      assert rows[0] == [Button("Customer", Token3("edit", "customer", id)), Button("Location", Token3("edit", "location", id))];
      assert rows[1] == [Button("Driver", Token3("edit", "driver", id)), Button("Total", Token3("edit", "total", id))];
      assert rows[2] == [Button("Items", Token3("edit", "items", id)), Button("Payment", Token3("edit", "payment", id))];
      assert rows[3] == [Button("Save", Token2("save", id)), Button("Cancel", Token2("cancel", id)), Button("Back", Token2("detail", id))];
    }
  }

  /** Every edit-menu button acts on the order it was built for. */
  lemma AdminEditTargetsOrder(id: string, customerHasLanguage: bool)
    requires ':' !in id && id != ""
    ensures AllTokens(AdminEditKeyboard(id, customerHasLanguage), d => TargetsOrder(d, id))
  {
    var rows: seq<seq<Button>> := AdminEditKeyboard(id, customerHasLanguage);
    forall i, j | 0 <= i < |rows| && 0 <= j < |rows[i]|
      ensures TargetsOrder(rows[i][j].data, id)
    {
      if i == 0 {
        if j == 0 { TargetsOrderToken3("edit", "customer", id); } else { TargetsOrderToken3("edit", "location", id); }
      } else if i == 1 {
        if j == 0 { TargetsOrderToken3("edit", "driver", id); } else { TargetsOrderToken3("edit", "total", id); }
      } else if i == 2 {
        if j == 0 { TargetsOrderToken3("edit", "items", id); }
        else if j == 1 { TargetsOrderToken3("edit", "payment", id); }
        else { TargetsOrderToken3("edit", "lang_ru", id); }
      } else {
        if j == 0 { TargetsOrderToken2("save", id); }
        else if j == 1 { TargetsOrderToken2("cancel", id); }
        else { TargetsOrderToken2("detail", id); }
      }
    }
  }

  function CompletedOrderKeyboard(id: string): (rows: seq<seq<Button>>)
    ensures Emits(rows, Token2("archive", id))
  {
    var rows: seq<seq<Button>> := [[Button("Archive", Token2("archive", id))]];
    assert rows[0][0].data == Token2("archive", id);
    rows
  }

  /**
   * The completed-order keyboard's `archive:<id>` reaches no branch, whether or not its order
   * exists: `archive` is a sub-action of `order_action:<verb>:<id>`, not an action.
   */
  lemma ArchiveButtonUnhandled(id: string, found: bool, hasDriver: bool)
    requires ':' !in id
    ensures RouteCallback(true, CompletedOrderKeyboard(id)[0][0].data, found, hasDriver) == Unhandled
  {
    assert !NoEntityAction("archive") by {
      assert "archive"[1] != "admin_"[1];
    }
    DecodeToken2("archive", id);
    var c := Callback("archive", Some(id), Some(id));
    assert Decode(Token2("archive", id)) == c;
    RouteOfArchiveAction(c, found, hasDriver);
    assert CompletedOrderKeyboard(id)[0][0].data == Token2("archive", id);
  }

  lemma RouteOfArchiveAction(c: Callback, found: bool, hasDriver: bool)
    requires c.action == "archive"
    ensures Route(c, found, hasDriver) == Unhandled
  {
  }

  /** The admin's payment menu: cash, QR, mark as paid, back. */
  function PaymentKeyboard(id: string): (rows: seq<seq<Button>>)
    ensures |rows| == 3
  {
    [[Button("CASH", Token3("payment", "CASH", id)), Button("QR", Token3("payment", "QR", id))],
     [Button("Mark as PAID", Token3("payment", "PAID", id))],
     [Button("Back", Token2("edit_menu", id))]]
  }

  lemma PaymentTargetsOrder(id: string)
    requires ':' !in id && id != ""
    ensures AllTokens(PaymentKeyboard(id), d => TargetsOrder(d, id))
  {
    var rows: seq<seq<Button>> := PaymentKeyboard(id);
    forall i, j | 0 <= i < |rows| && 0 <= j < |rows[i]|
      ensures TargetsOrder(rows[i][j].data, id)
    {
      if i == 0 {
        if j == 0 { TargetsOrderToken3("payment", "CASH", id); } else { TargetsOrderToken3("payment", "QR", id); }
      } else if i == 1 {
        TargetsOrderToken3("payment", "PAID", id);
      } else {
        TargetsOrderToken2("edit_menu", id);
      }
    }
  }

  /** The drivers currently offered for assignment, in list order. */
  function ConnectedDrivers(ds: seq<DriverEntry>): (r: seq<DriverEntry>)
    ensures |r| <= |ds|
    ensures forall d :: d in r <==> d in ds && Connected(d.status)
  {
    if ds == [] then []
    else
      var rest := ConnectedDrivers(ds[1..]);
      assert forall d :: d in ds <==> d == ds[0] || d in ds[1..] by {
        assert ds == [ds[0]] + ds[1..];
      }
      if Connected(ds[0].status) then [ds[0]] + rest else rest
  }

  /**
   * The assignment menu as the keyboard module has it: each connected driver's label calls the
   * `driverStatusEmoji` stub, which throws, so the menu is only built when no driver is
   * connected. `None` is the thrown error.
   */
  function ConnectedDriversKeyboardAsWritten(ds: seq<DriverEntry>, orderId: string): (r: Option<seq<seq<Button>>>)
    ensures r.None? <==> ConnectedDrivers(ds) != []
    ensures r.Some? ==> r.value == [[Button("No drivers online", "none")]]
  {
    if ConnectedDrivers(ds) == [] then Some([[Button("No drivers online", "none")]]) else None
  }

  /** One online driver is enough for the menu as written to fail, where it offers that driver. */
  lemma AssignmentMenuFailsWithADriver(orderId: string)
    ensures var ds := [DriverEntry("1", "Ann", Online)];
      && ConnectedDriversKeyboardAsWritten(ds, orderId).None?
      && Emits(ConnectedDriversKeyboard(ds, orderId), Token3("assign", "1", orderId))
  {
    var ds := [DriverEntry("1", "Ann", Online)];
    assert ds[0] in ConnectedDrivers(ds);
    ConnectedDriversOffered(ds, orderId, ds[0]);
  }

  function AssignRows(ds: seq<DriverEntry>, orderId: string): (rows: seq<seq<Button>>)
    ensures |rows| == |ds|
    ensures forall k :: 0 <= k < |ds| ==> rows[k] == [Button(ds[k].name, Token3("assign", ds[k].id, orderId))]
  {
    if ds == [] then [] else [[Button(ds[0].name, Token3("assign", ds[0].id, orderId))]] + AssignRows(ds[1..], orderId)
  }

  /**
   * The assignment menu: one `assign:<driverId>:<orderId>` row per connected driver and a
   * back row, or the single placeholder `none` button when no driver is connected.
   */
  function ConnectedDriversKeyboard(ds: seq<DriverEntry>, orderId: string): (rows: seq<seq<Button>>)
    ensures ConnectedDrivers(ds) == [] ==> rows == [[Button("No drivers online", "none")]]
    ensures ConnectedDrivers(ds) != [] ==>
      && |rows| == |ConnectedDrivers(ds)| + 1
      && rows[|rows| - 1] == [Button("Back to Order", Token2("edit_menu", orderId))]
      && forall k :: 0 <= k < |rows| - 1 ==>
           rows[k] == [Button(ConnectedDrivers(ds)[k].name, Token3("assign", ConnectedDrivers(ds)[k].id, orderId))]
  {
    var online := ConnectedDrivers(ds);
    if online == [] then [[Button("No drivers online", "none")]]
    else AssignRows(online, orderId) + [[Button("Back to Order", Token2("edit_menu", orderId))]]
  }

  /**
   * Every connected driver is offered for the order. The converse, that only connected drivers
   * are offered, is the contract of `ConnectedDrivers` and `ConnectedDriversKeyboard`.
   */
  lemma ConnectedDriversOffered(ds: seq<DriverEntry>, orderId: string, d: DriverEntry)
    requires d in ds
    ensures Emits(ConnectedDriversKeyboard(ds, orderId), Token3("assign", d.id, orderId)) <== Connected(d.status)
  {
    var online := ConnectedDrivers(ds);
    if Connected(d.status) {
      var k :| 0 <= k < |online| && online[k] == d;
      assert ConnectedDriversKeyboard(ds, orderId)[k][0].data == Token3("assign", d.id, orderId);
    }
  }

  /** Every assignment button selects its driver and its order in the callback handler. */
  lemma AssignButtonDecodes(driverId: string, orderId: string)
    requires ':' !in driverId && ':' !in orderId && driverId != "" && orderId != ""
    ensures Decode(Token3("assign", driverId, orderId)) == Callback("assign", Some(driverId), Some(orderId))
    ensures RouteCallback(true, Token3("assign", driverId, orderId), true, false) == Assign
  {
    assert OrderVerbBranch("assign") == Some(Assign);
    DecodeToken3("assign", driverId, orderId);
    RouteOfOrderToken3("assign", driverId, orderId, true, false);
  }

  /** The driver's buttons under an order, by status. */
  function DriverActionKeyboard(id: string, status: OrderStatus): (rows: seq<seq<Button>>)
    ensures rows == [] <==> status != ActiveReady && status != ActivePickedUp && status != Arrived
  {
    if status == ActiveReady then
      [[Button("Pick-up", Token3("driver", "pickup", id))]]
    else if status == ActivePickedUp || status == Arrived then
      [[Button("Arrived", Token3("driver", "arrived", id)), Button("Completed", Token3("driver", "completed", id))],
       [Button("location", Token3("driver", "location", id)), Button("Notify Delay", Token3("driver", "delay", id)),
        Button("Cancel", Token3("driver", "cancel_request", id))]]
    else []
  }

  /**
   * Pick-up is offered only to a ready order, in a row of its own; arrival and completion, then
   * location, delay and the cancellation request, only after pick-up, in a row of two and a row
   * of three.
   */
  lemma DriverActionButtons(id: string, status: OrderStatus)
    requires ':' !in id
    ensures Emits(DriverActionKeyboard(id, status), Token3("driver", "pickup", id)) <==> status == ActiveReady
    ensures Emits(DriverActionKeyboard(id, status), Token3("driver", "arrived", id)) <==> status == ActivePickedUp || status == Arrived
    ensures Emits(DriverActionKeyboard(id, status), Token3("driver", "completed", id)) <==> status == ActivePickedUp || status == Arrived
    ensures Emits(DriverActionKeyboard(id, status), Token3("driver", "location", id)) <==> status == ActivePickedUp || status == Arrived
    ensures Emits(DriverActionKeyboard(id, status), Token3("driver", "delay", id)) <==> status == ActivePickedUp || status == Arrived
    ensures Emits(DriverActionKeyboard(id, status), Token3("driver", "cancel_request", id)) <==> status == ActivePickedUp || status == Arrived
    ensures status == ActiveReady ==> |DriverActionKeyboard(id, status)| == 1 && |DriverActionKeyboard(id, status)[0]| == 1
    ensures status == ActivePickedUp || status == Arrived ==>
      |DriverActionKeyboard(id, status)| == 2 && |DriverActionKeyboard(id, status)[0]| == 2 && |DriverActionKeyboard(id, status)[1]| == 3
  {
    var rows: seq<seq<Button>> := DriverActionKeyboard(id, status);
    var subs := ["pickup", "arrived", "completed", "location", "delay", "cancel_request"];
    forall k, l | 0 <= k < l < |subs|
      ensures Token3("driver", subs[k], id) != Token3("driver", subs[l], id)
    {
      TokensDiffer("driver", subs[k], id, "driver", subs[l], id);
    }
    if status == ActiveReady {
      assert rows[0][0].data == Token3("driver", "pickup", id);
    } else if status == ActivePickedUp || status == Arrived {
      assert rows[0][0].data == Token3("driver", "arrived", id);
      assert rows[0][1].data == Token3("driver", "completed", id);
      assert rows[1][0].data == Token3("driver", "location", id);
      assert rows[1][1].data == Token3("driver", "delay", id);
      assert rows[1][2].data == Token3("driver", "cancel_request", id);
    }
  }

  lemma DriverActionTargetsOrder(id: string, status: OrderStatus)
    requires ':' !in id && id != ""
    ensures AllTokens(DriverActionKeyboard(id, status), d => TargetsOrder(d, id))
  {
    var rows: seq<seq<Button>> := DriverActionKeyboard(id, status);
    forall i, j | 0 <= i < |rows| && 0 <= j < |rows[i]|
      ensures TargetsOrder(rows[i][j].data, id)
    {
      if status == ActiveReady {
        TargetsOrderToken3("driver", "pickup", id);
      } else if i == 0 {
        if j == 0 { TargetsOrderToken3("driver", "arrived", id); } else { TargetsOrderToken3("driver", "completed", id); }
      } else {
        if j == 0 { TargetsOrderToken3("driver", "location", id); }
        else if j == 1 { TargetsOrderToken3("driver", "delay", id); }
        else { TargetsOrderToken3("driver", "cancel_request", id); }
      }
    }
  }

  function DriverEditKeyboard(id: string): (rows: seq<seq<Button>>)
    ensures |rows| == 1 && |rows[0]| == 2
    ensures rows[0][0].data == Token3("driver", "save", id) && rows[0][1].data == Token3("driver", "cancel_edit", id)
  {
    [[Button("Save", Token3("driver", "save", id)), Button("Cancel", Token3("driver", "cancel_edit", id))]]
  }

  // ---------------------------------------------------------------------------
  // Customer keyboards
  // ---------------------------------------------------------------------------

  function CustomerPaymentKeyboard(id: string): (rows: seq<seq<Button>>)
    ensures |rows| == 1 && |rows[0]| == 2
    ensures rows[0][0].data == Token3("customer_pay", "CASH", id) && rows[0][1].data == Token3("customer_pay", "QR", id)
  {
    [[Button("CASH", Token3("customer_pay", "CASH", id)), Button("QR", Token3("customer_pay", "QR", id))]]
  }

  function CustomerQRDoneKeyboard(id: string): (rows: seq<seq<Button>>)
    ensures |rows| == 1 && |rows[0]| == 1
    ensures rows[0][0].data == Token3("customer_pay", "QR_DONE", id)
  {
    [[Button("Done", Token3("customer_pay", "QR_DONE", id))]]
  }

  /** Both payment buttons act on the order they were built for. */
  lemma CustomerPaymentTargetsOrder(id: string)
    requires ':' !in id && id != ""
    ensures AllTokens(CustomerPaymentKeyboard(id), d => TargetsOrder(d, id))
  {
    var rows: seq<seq<Button>> := CustomerPaymentKeyboard(id);
    forall i, j | 0 <= i < |rows| && 0 <= j < |rows[i]|
      ensures TargetsOrder(rows[i][j].data, id)
    {
      if j == 0 { TargetsOrderToken3("customer_pay", "CASH", id); } else { TargetsOrderToken3("customer_pay", "QR", id); }
    }
  }

  /** The QR-done button acts on the order it was built for. */
  lemma CustomerQRDoneTargetsOrder(id: string)
    requires ':' !in id && id != ""
    ensures AllTokens(CustomerQRDoneKeyboard(id), d => TargetsOrder(d, id))
  {
    TargetsOrderToken3("customer_pay", "QR_DONE", id);
  }

  /** Russian labels when the customer chose Russian; English otherwise (also when unset). */
  predicate Russian(lang: Option<string>) {
    lang == Some("ru")
  }

  function CustomerPingKeyboard(id: string, lang: Option<string>): (rows: seq<seq<Button>>)
    ensures |rows| == 1 && |rows[0]| == 1 && rows[0][0].data == Token2("customer_ping", id)
  {
    [[Button(if Russian(lang) then "Пинг водителя" else "Ping Driver", Token2("customer_ping", id))]]
  }

  /** The ping button reaches the ping branch exactly when its order exists and has a driver. */
  lemma CustomerPingRoute(id: string, found: bool, hasDriver: bool)
    requires ':' !in id && id != ""
    ensures RouteCallback(true, Token2("customer_ping", id), found, hasDriver) == (if found && hasDriver then CustomerPing else Unhandled)
    ensures OrderLookupKey(Decode(Token2("customer_ping", id))) == Some(id)
  {
    DecodeToken2("customer_ping", id);
    RouteOfCustomerPing(Decode(Token2("customer_ping", id)), found, hasDriver);
  }

  lemma RouteOfCustomerPing(c: Callback, found: bool, hasDriver: bool)
    requires c.action == "customer_ping"
    ensures Route(c, found, hasDriver) == if found && hasDriver then CustomerPing else Unhandled
  {
  }

  function LanguageKeyboard(): (rows: seq<seq<Button>>)
    ensures |rows| == 2
  {
    [[Button("English", Token2("lang", "en"))], [Button("Russian", Token2("lang", "ru"))]]
  }

  /** Both language buttons reach the language branch with their language as the sub-action. */
  lemma LanguageButtonsRoute(found: bool, hasDriver: bool)
    ensures RouteCallback(true, LanguageKeyboard()[0][0].data, found, hasDriver) == Language
    ensures RouteCallback(true, LanguageKeyboard()[1][0].data, found, hasDriver) == Language
    ensures Decode(LanguageKeyboard()[0][0].data).subAction == Some("en")
    ensures Decode(LanguageKeyboard()[1][0].data).subAction == Some("ru")
  {
    var rows: seq<seq<Button>> := LanguageKeyboard();
    assert rows[0][0].data == Token2("lang", "en");
    assert rows[1][0].data == Token2("lang", "ru");
    LanguageTokenRoute("en", found, hasDriver);
    LanguageTokenRoute("ru", found, hasDriver);
  }

  /** `lang:<x>` carries no entity id and reaches the language branch, whatever the order lookup found. */
  lemma LanguageTokenRoute(x: string, found: bool, hasDriver: bool)
    requires x != "" && ':' !in x
    ensures Decode(Token2("lang", x)) == Callback("lang", Some(x), None)
    ensures RouteCallback(true, Token2("lang", x), found, hasDriver) == Language
  {
    DecodeToken2("lang", x);
  }

  /** One button asking the client to share its location; hidden once used. */
  function LocationRequestKeyboard(lang: Option<string>): (m: Markup)
    ensures m.Reply? && m.resize && m.oneTime && |m.keys| == 1 && |m.keys[0]| == 1 && m.keys[0][0].requestLocation
  {
    Reply([[KeyButton(if Russian(lang) then "Поделиться местоположением" else "Share Location", true)]], true, true)
  }

  function DelayKeyboard(id: string): (rows: seq<seq<Button>>)
    ensures |rows| == 4
  {
    [[Button("<5mn", Token3("delay", "lt5", id))],
     [Button("<2mn", Token3("delay", "lt2", id))],
     [Button(">10mn", Token3("delay", "gt10", id))],
     [Button("Back", Token3("driver", "active_order_detail", id))]]
  }

  lemma DelayTargetsOrder(id: string)
    requires ':' !in id && id != ""
    ensures AllTokens(DelayKeyboard(id), d => TargetsOrder(d, id))
  {
    var rows: seq<seq<Button>> := DelayKeyboard(id);
    forall i, j | 0 <= i < |rows| && 0 <= j < |rows[i]|
      ensures TargetsOrder(rows[i][j].data, id)
    {
      if i == 0 { TargetsOrderToken3("delay", "lt5", id); }
      else if i == 1 { TargetsOrderToken3("delay", "lt2", id); }
      else if i == 2 { TargetsOrderToken3("delay", "gt10", id); }
      else { TargetsOrderToken3("driver", "active_order_detail", id); }
    }
  }

  /** Five rating buttons with scores 1 to 5; the language is accepted but changes nothing. */
  function FeedbackKeyboard(id: string, lang: Option<string>): (rows: seq<seq<Button>>)
    ensures |rows| == 1 && |rows[0]| == 5
    ensures forall k :: 0 <= k < 5 ==> rows[0][k].data == Token3("fb", IntToString(k + 1), id)
  {
    var scores := ["1", "2", "3", "4", "5"];
    assert forall k :: 0 <= k < 5 ==> IntToString(k + 1) == scores[k];
    [seq(5, k requires 0 <= k < 5 => Button(scores[k] + " stars", Token3("fb", scores[k], id)))]
  }

  /** Pressing the k-th rating button records score k on the order it was built for. */
  lemma FeedbackButtonScores(id: string, lang: Option<string>, k: nat)
    requires ':' !in id && id != "" && 1 <= k <= 5
    ensures var c := Decode(FeedbackKeyboard(id, lang)[0][k - 1].data);
      && c.action == "fb" && c.entityId == Some(id)
      && c.subAction.Some? && ParseInt(c.subAction.value) == Some(k)
    ensures TargetsOrder(FeedbackKeyboard(id, lang)[0][k - 1].data, id)
  {
    var rows: seq<seq<Button>> := FeedbackKeyboard(id, lang);
    assert rows[0][k - 1].data == Token3("fb", IntToString(k), id) by {
      assert (k - 1) + 1 == k;
    }
    FeedbackTokenScores(id, k);
  }

  /** `fb:<k>:<id>` decodes to the order and a score that `parseInt` reads back as k. */
  lemma FeedbackTokenScores(id: string, k: int)
    requires ':' !in id && id != ""
    ensures Decode(Token3("fb", IntToString(k), id)) == Callback("fb", Some(IntToString(k)), Some(id))
    ensures ParseInt(IntToString(k)) == Some(k)
    ensures TargetsOrder(Token3("fb", IntToString(k), id), id)
  {
    assert ':' !in IntToString(k) by { NoColonInNumber(k); }
    assert TargetsOrder(Token3("fb", IntToString(k), id), id) by {
      TargetsOrderToken3("fb", IntToString(k), id);
    }
    assert Decode(Token3("fb", IntToString(k), id)) == Callback("fb", Some(IntToString(k)), Some(id)) by {
      DecodeToken3("fb", IntToString(k), id);
    }
    ParseIntOfIntToString(k);
  }

  // ---------------------------------------------------------------------------
  // Admin settings, QR codes, admins
  // ---------------------------------------------------------------------------

  /** The settings menu; its language button switches away from the admin's current language (English by default). */
  function AdminSettingsKeyboard(pref: Option<string>): (rows: seq<seq<Button>>)
    ensures |rows| == 6 && |rows[4]| == 1
    ensures rows[4][0].data == (if pref.GetOr("en") == "en" || pref == Some("") then "admin_set_lang_ru" else "admin_set_lang_en")
  {
    var current := if pref.Some? && pref.value != "" then pref.value else "en";
    var langButton :=
      if current == "en" then Button("Set Russian language", "admin_set_lang_ru")
      else Button("Set English language", "admin_set_lang_en");
    [[Button("Manage Admins", "admin_manage_admins")],
     [Button("Manage QR Codes", "admin_manage_qrs")],
     [Button("Manage Drivers", "admin_manage_drivers")],
     [Button("Archive", "admin_archive")],
     [langButton],
     [Button("Back to Main Menu", "admin_main_menu")]]
  }

  /** Choosing a language makes the settings menu offer the other one. */
  lemma AdminLanguageToggles(lang: string)
    requires lang == "ru" || lang == "en"
    ensures RouteCallback(true, AdminSettingsKeyboard(Some(lang))[4][0].data, false, false) ==
      SetAdminLanguage(if lang == "en" then "ru" else "en")
  {
    var data := AdminSettingsKeyboard(Some(lang))[4][0].data;
    if lang == "en" {
      assert data == "admin_set_lang_ru";
      DecodeToken1("admin_set_lang_ru");
      RouteOfSetLanguage(Callback("admin_set_lang_ru", None, None));
    } else {
      assert data == "admin_set_lang_en";
      DecodeToken1("admin_set_lang_en");
      RouteOfSetLanguage(Callback("admin_set_lang_en", None, None));
    }
  }

  lemma RouteOfSetLanguage(c: Callback)
    requires c.action == "admin_set_lang_ru" || c.action == "admin_set_lang_en"
    ensures Route(c, false, false) == SetAdminLanguage(if c.action == "admin_set_lang_ru" then "ru" else "en")
  {
  }

  function QRRows(qrs: seq<QRCode>): (rows: seq<seq<Button>>)
    ensures |rows| == |qrs|
    ensures forall k :: 0 <= k < |qrs| ==>
      rows[k] == [Button("QR: " + qrs[k].title, Token3("qr", "view", qrs[k].id)), Button("Delete", Token3("qr", "delete", qrs[k].id))]
  {
    if qrs == [] then []
    else
      [[Button("QR: " + qrs[0].title, Token3("qr", "view", qrs[0].id)), Button("Delete", Token3("qr", "delete", qrs[0].id))]]
      + QRRows(qrs[1..])
  }

  /** One view/delete row per stored QR code, then add and back. */
  function ManageQRsKeyboard(qrs: seq<QRCode>): (rows: seq<seq<Button>>)
    ensures |rows| == |qrs| + 2
    ensures rows[..|qrs|] == QRRows(qrs)
    ensures rows[|qrs|] == [Button("Add New QR", "admin_add_qr")] && rows[|qrs| + 1] == [Button("Back to Settings", "admin_settings")]
  {
    QRRows(qrs) + [[Button("Add New QR", "admin_add_qr")], [Button("Back to Settings", "admin_settings")]]
  }

  /** A QR delete button reaches the QR branch with that code's id as its third part. */
  lemma QRDeleteButtonDecodes(qrId: string, found: bool, hasDriver: bool)
    requires ':' !in qrId
    ensures Decode(Token3("qr", "delete", qrId)) == Callback("qr", Some("delete"), Some(qrId))
    ensures RouteCallback(true, Token3("qr", "delete", qrId), found, hasDriver) == QrCode
  {
    DecodeToken3("qr", "delete", qrId);
  }

  /** No decimal rendering contains a colon. */
  lemma NoColonInNumber(n: int)
    ensures ':' !in IntToString(n)
  {
    var s := IntToString(n);
    if n >= 0 {
      assert IsDecimal(s);
    } else {
      assert s == "-" + NatToString(-n);
      assert IsDecimal(NatToString(-n));
    }
  }

  /** The admin row for one admin: view, plus remove unless it is the primary admin. */
  function AdminRow(adminId: int, primaryAdminId: int): (row: seq<Button>)
    ensures |row| == (if adminId == primaryAdminId then 1 else 2)
    ensures row[0].data == Token3("admin", "view", IntToString(adminId))
    ensures adminId != primaryAdminId ==> row[1].data == Token3("admin", "remove", IntToString(adminId))
  {
    var buttons := [Button(IntToString(adminId), Token3("admin", "view", IntToString(adminId)))];
    if adminId != primaryAdminId then buttons + [Button("Remove", Token3("admin", "remove", IntToString(adminId)))]
    else buttons
  }

  /** One admin row per admin id, in list order. */
  function AdminRows(adminIds: seq<int>, primaryAdminId: int): (rows: seq<seq<Button>>)
    ensures |rows| == |adminIds|
    ensures forall k :: 0 <= k < |adminIds| ==> rows[k] == AdminRow(adminIds[k], primaryAdminId)
    decreases |adminIds|
  {
    if adminIds == [] then []
    else AdminRows(adminIds[..|adminIds| - 1], primaryAdminId) + [AdminRow(adminIds[|adminIds| - 1], primaryAdminId)]
  }

  /** The admin list menu: a row per admin, then add and back. */
  function ManageAdminsKeyboard(adminIds: seq<int>, primaryAdminId: int): (rows: seq<seq<Button>>)
    ensures |rows| == |adminIds| + 2
    ensures rows[|adminIds|] == [Button("Add New Admin", "admin_add_admin")]
    ensures rows[|adminIds| + 1] == [Button("Back to Settings", "admin_settings")]
  {
    AdminRows(adminIds, primaryAdminId) + [[Button("Add New Admin", "admin_add_admin")], [Button("Back to Settings", "admin_settings")]]
  }

  /** The menu is built by a loop over the admin ids that pushes one row per id. */
  method BuildManageAdminsKeyboard(adminIds: seq<int>, primaryAdminId: int) returns (rows: seq<seq<Button>>)
    ensures rows == ManageAdminsKeyboard(adminIds, primaryAdminId)
  {
    var adminButtons: seq<seq<Button>> := [];
    for k := 0 to |adminIds|
      invariant adminButtons == AdminRows(adminIds[..k], primaryAdminId)
    {
      var adminId := adminIds[k];
      var buttons := [Button(IntToString(adminId), Token3("admin", "view", IntToString(adminId)))];
      if adminId != primaryAdminId {
        buttons := buttons + [Button("Remove", Token3("admin", "remove", IntToString(adminId)))];
      }
      adminButtons := adminButtons + [buttons];
      assert adminIds[..k + 1][..k] == adminIds[..k];
    }
    assert adminIds[..|adminIds|] == adminIds;
    rows := adminButtons + [[Button("Add New Admin", "admin_add_admin")], [Button("Back to Settings", "admin_settings")]];
  }

  /**
   * The primary admin has no remove button, every other admin has one, and that button
   * decodes to exactly its admin's id.
   */
  lemma ManageAdminsRemoveButtons(adminIds: seq<int>, primaryAdminId: int, k: nat)
    requires k < |adminIds|
    ensures var row := ManageAdminsKeyboard(adminIds, primaryAdminId)[k];
      && (adminIds[k] == primaryAdminId <==> |row| == 1)
      && (adminIds[k] != primaryAdminId ==>
            var c := Decode(row[1].data);
            c.action == "admin" && c.subAction == Some("remove") && c.entityId.Some?
            && ParseInt(c.entityId.value) == Some(adminIds[k]))
  {
    var s := IntToString(adminIds[k]);
    NoColonInNumber(adminIds[k]);
    DecodeToken3("admin", "remove", s);
    ParseIntOfIntToString(adminIds[k]);
  }

  // ---------------------------------------------------------------------------
  // Keyboards built inline by the handlers
  // ---------------------------------------------------------------------------

  /** Sent to every admin when a driver with an order asks to disconnect. */
  function DisconnectApprovalKeyboard(driverId: string): (rows: seq<seq<Button>>)
    ensures |rows| == 1 && |rows[0]| == 2
    ensures rows[0][0].data == Token3("disconnect", "approve", driverId) && rows[0][1].data == Token3("disconnect", "deny", driverId)
  {
    [[Button("Approve", Token3("disconnect", "approve", driverId)), Button("Deny", Token3("disconnect", "deny", driverId))]]
  }

  /** Both approval buttons reach the disconnect branch naming the driver in their third part. */
  lemma DisconnectButtonsDecode(driverId: string, found: bool, hasDriver: bool)
    requires ':' !in driverId
    ensures Decode(DisconnectApprovalKeyboard(driverId)[0][0].data) == Callback("disconnect", Some("approve"), Some(driverId))
    ensures Decode(DisconnectApprovalKeyboard(driverId)[0][1].data) == Callback("disconnect", Some("deny"), Some(driverId))
    ensures RouteCallback(true, DisconnectApprovalKeyboard(driverId)[0][0].data, found, hasDriver) == Disconnect
    ensures RouteCallback(true, DisconnectApprovalKeyboard(driverId)[0][1].data, found, hasDriver) == Disconnect
  {
    DecodeToken3("disconnect", "approve", driverId);
    DecodeToken3("disconnect", "deny", driverId);
    RouteOfDisconnect(Decode(Token3("disconnect", "approve", driverId)), found, hasDriver);
    RouteOfDisconnect(Decode(Token3("disconnect", "deny", driverId)), found, hasDriver);
  }

  lemma RouteOfDisconnect(c: Callback, found: bool, hasDriver: bool)
    requires c.action == "disconnect"
    ensures Route(c, found, hasDriver) == Disconnect
  {
  }

  /** Sent to the driver when the customer pings. */
  function DriverPingKeyboard(orderId: string): (rows: seq<seq<Button>>)
    ensures |rows| == 1 && |rows[0]| == 2
    ensures rows[0][0].data == Token3("driver", "location", orderId) && rows[0][1].data == Token3("driver", "delay", orderId)
  {
    [[Button("Share location", Token3("driver", "location", orderId)), Button("Notify Delay", Token3("driver", "delay", orderId))]]
  }

  /** Sent to every admin when a driver asks to cancel an order. */
  function CancelRequestKeyboard(orderId: string): (rows: seq<seq<Button>>)
    ensures |rows| == 1 && |rows[0]| == 2
    ensures rows[0][0].data == Token3("driver", "cancel_approve", orderId) && rows[0][1].data == Token3("driver", "cancel_deny", orderId)
  {
    [[Button("Approve", Token3("driver", "cancel_approve", orderId)), Button("Deny", Token3("driver", "cancel_deny", orderId))]]
  }

  /** Both buttons of the customer's ping act on the pinged order. */
  lemma DriverPingTargetsOrder(orderId: string)
    requires ':' !in orderId && orderId != ""
    ensures AllTokens(DriverPingKeyboard(orderId), d => TargetsOrder(d, orderId))
  {
    var ping: seq<seq<Button>> := DriverPingKeyboard(orderId);
    forall i, j | 0 <= i < |ping| && 0 <= j < |ping[i]|
      ensures TargetsOrder(ping[i][j].data, orderId)
    {
      if j == 0 { TargetsOrderToken3("driver", "location", orderId); } else { TargetsOrderToken3("driver", "delay", orderId); }
    }
  }

  /** Both buttons of a cancellation request act on the order the driver wants to cancel. */
  lemma CancelRequestTargetsOrder(orderId: string)
    requires ':' !in orderId && orderId != ""
    ensures AllTokens(CancelRequestKeyboard(orderId), d => TargetsOrder(d, orderId))
  {
    var cancel: seq<seq<Button>> := CancelRequestKeyboard(orderId);
    forall i, j | 0 <= i < |cancel| && 0 <= j < |cancel[i]|
      ensures TargetsOrder(cancel[i][j].data, orderId)
    {
      if j == 0 { TargetsOrderToken3("driver", "cancel_approve", orderId); } else { TargetsOrderToken3("driver", "cancel_deny", orderId); }
    }
  }

  /** One row per driver: view, block or unblock (by its status), remove. */
  function DriverAdminRow(d: DriverEntry): (row: seq<Button>)
    ensures |row| == 3
    ensures row[1].data == Token3("driver_admin", if d.status == Blocked then "unblock" else "block", d.id)
    ensures row[2].data == Token3("driver_admin", "remove", d.id)
  {
    [Button(d.name, Token3("driver", "view", d.id)),
     if d.status == Blocked then Button("Unblock", Token3("driver_admin", "unblock", d.id))
     else Button("Block", Token3("driver_admin", "block", d.id)),
     Button("Remove", Token3("driver_admin", "remove", d.id))]
  }

  function DriverAdminRows(ds: seq<DriverEntry>): (rows: seq<seq<Button>>)
    ensures |rows| == |ds|
    ensures forall k :: 0 <= k < |ds| ==> rows[k] == DriverAdminRow(ds[k])
  {
    if ds == [] then [] else [DriverAdminRow(ds[0])] + DriverAdminRows(ds[1..])
  }

  /** The driver list menu: a row per driver, then add-by-link, add-by-id and back. */
  function ManageDriversKeyboard(ds: seq<DriverEntry>): (rows: seq<seq<Button>>)
    ensures |rows| == |ds| + 3
    ensures rows[..|ds|] == DriverAdminRows(ds)
  {
    DriverAdminRows(ds)
      + [[Button("Add New Driver (by link)", "admin_add_driver_link")],
         [Button("Add New Driver (by ID)", "admin_add_driver_id")],
         [Button("Back to Settings", "admin_settings")]]
  }

  /** The reply keyboard asking a driver to share a live location. */
  function ShareLocationKeyboard(): (m: Markup)
    ensures m.Reply? && m.resize && m.oneTime && |m.keys| == 1 && |m.keys[0]| == 1 && m.keys[0][0].requestLocation
  {
    Reply([[KeyButton("Share Location", true)]], true, true)
  }
}
