/**
 * Callback tokens: the colon-separated `callback_data` strings carried by inline buttons,
 * their decoding into (action, subAction, entityId), and the choice of the branch of the
 * callback handler that a decoded token selects.
 */
module Callbacks {
  import opened Wrappers
  import opened Strings

  /** A decoded token; `None` stands for JavaScript's `null`. */
  datatype Callback = Callback(action: string, subAction: Option<string>, entityId: Option<string>)

  /** JavaScript truthiness of an optional string: present and not empty. */
  predicate Truthy(s: Option<string>) {
    s.Some? && s.value != ""
  }

  /** Actions whose two-part tokens carry no entity id. */
  predicate NoEntityAction(action: string) {
    "admin_" <= action || action == "none" || action == "lang"
  }

  /**
   * The decoding rule of the callback handler: split on ':', the first part is the action,
   * the second (if any) the sub-action, the third (if any) the entity id; a two-part token
   * uses its second part as the entity id unless its action takes none.
   */
  function Decode(data: string): (c: Callback)
    ensures c.action <= data && ':' !in c.action
    ensures |c.action| == |data| || data[|c.action|] == ':'
    ensures c.subAction.None? <==> ':' !in data
    ensures c.subAction.None? ==> c.entityId.None?
    ensures c.subAction.Some? && !NoEntityAction(c.action) ==> c.entityId.Some?
  {
    var parts := Split(data, ':');
    var action := parts[0];
    var subAction := if |parts| > 1 then Some(parts[1]) else None;
    var entityId :=
      if |parts| > 2 then Some(parts[2])
      else if NoEntityAction(action) then None
      else if |parts| > 1 then Some(parts[1])
      else None;   // parts[1] of a one-part token is undefined
    Callback(action, subAction, entityId)
  }

  /** A two-part token `<action>:<x>`. */
  function Token2(action: string, x: string): string {
    action + ":" + x
  }

  /** A three-part token `<action>:<sub>:<id>`. */
  function Token3(action: string, sub: string, id: string): string {
    action + ":" + sub + ":" + id
  }

  /** A token without a colon decodes to its action alone. */
  lemma DecodeToken1(action: string)
    requires ':' !in action
    ensures Decode(action) == Callback(action, None, None)
  {
    SplitWithoutSeparator(action, ':');
  }

  /** `<action>:<x>` decodes with sub-action x and entity id x, or none for the entity-less actions. */
  lemma DecodeToken2(action: string, x: string)
    requires ':' !in action && ':' !in x
    ensures Decode(Token2(action, x)) ==
      Callback(action, Some(x), if NoEntityAction(action) then None else Some(x))
  {
    SplitJoin([action, x], ':');
    assert Join([action, x], ':') == Token2(action, x);
  }

  /** `<action>:<sub>:<id>` decodes to exactly its three fields. */
  lemma DecodeToken3(action: string, sub: string, id: string)
    requires ':' !in action && ':' !in sub && ':' !in id
    ensures Decode(Token3(action, sub, id)) == Callback(action, Some(sub), Some(id))
  {
    var parts := [action, sub, id];
    SplitJoin(parts, ':');
    assert Join(parts[2..], ':') == id;
    assert Join(parts[1..], ':') == sub + [':'] + id;
    assert Join(parts, ':') == Token3(action, sub, id);
  }

  /** The action of `<a>:<anything>` is `a`, whatever follows the first colon. */
  lemma ActionOfToken2(a: string, x: string)
    requires ':' !in a
    ensures Decode(Token2(a, x)).action == a
  {
    SplitAtFirstSeparator(a, ':', x);
    assert Token2(a, x) == a + [':'] + x;
  }

  /** `<a>:<s>:<anything>` decodes with action `a` and sub-action `s`, whatever the rest holds. */
  lemma PrefixOfToken3(a: string, s: string, y: string)
    requires ':' !in a && ':' !in s
    ensures Decode(Token3(a, s, y)).action == a
    ensures Decode(Token3(a, s, y)).subAction == Some(s)
  {
    SplitAtFirstSeparator(a, ':', s + ":" + y);
    SplitAtFirstSeparator(s, ':', y);
    assert Token3(a, s, y) == a + [':'] + (s + [':'] + y);
  }

  /** Tokens of different actions, or of one action with different sub-actions, never coincide. */
  lemma TokensDiffer(a: string, s: string, y: string, b: string, t: string, z: string)
    requires ':' !in a && ':' !in s && ':' !in b && ':' !in t
    ensures a != b ==> Token2(a, y) != Token2(b, z)
    ensures a != b ==> Token2(a, y) != Token3(b, t, z)
    ensures (a != b || s != t) ==> Token3(a, s, y) != Token3(b, t, z)
  {
    ActionOfToken2(a, y);
    ActionOfToken2(b, z);
    PrefixOfToken3(a, s, y);
    PrefixOfToken3(b, t, z);
  }

  /** Two-part tokens for the same id coincide only when their prefixes do. */
  lemma Token2Injective(a: string, b: string, y: string)
    ensures Token2(a, y) == Token2(b, y) ==> a == b
  {
    if Token2(a, y) == Token2(b, y) {
      assert |a| == |b|;
      assert a == Token2(a, y)[..|a|];
      assert b == Token2(b, y)[..|b|];
    }
  }

  /** Three-part tokens of one action and one id coincide only when their sub-actions do. */
  lemma Token3Injective(a: string, s: string, t: string, y: string)
    ensures Token3(a, s, y) == Token3(a, t, y) ==> s == t
  {
    if Token3(a, s, y) == Token3(a, t, y) {
      assert |s| == |t|;
      assert s == Token3(a, s, y)[|a| + 1..|a| + 1 + |s|];
      assert t == Token3(a, t, y)[|a| + 1..|a| + 1 + |t|];
    }
  }

  /** A three-part token is the two-part token of its first two parts joined by a colon. */
  lemma Token3AsToken2(a: string, s: string, y: string)
    ensures Token3(a, s, y) == Token2(a + ":" + s, y)
  {
    assert a + ":" + s + ":" + y == (a + ":" + s) + ":" + y;
  }

  /**
   * The id under which the handler looks an order up before branching, if it does:
   * never for `qr`, `disconnect` or any action starting with "admin", and never without
   * a non-empty entity id.
   */
  function OrderLookupKey(c: Callback): Option<string> {
    if c.action != "qr" && c.action != "admin" && Truthy(c.entityId)
       && !("admin" <= c.action) && c.action != "disconnect"
    then c.entityId
    else None
  }

  lemma OrderLookupOfToken3(action: string, sub: string, id: string)
    requires ':' !in action && ':' !in sub && ':' !in id && id != ""
    ensures OrderLookupKey(Decode(Token3(action, sub, id))) ==
      if action == "qr" || action == "disconnect" || "admin" <= action then None else Some(id)
  {
    DecodeToken3(action, sub, id);
  }

  lemma OrderLookupOfToken2(action: string, id: string)
    requires ':' !in action && ':' !in id && id != ""
    ensures OrderLookupKey(Decode(Token2(action, id))) ==
      if action == "qr" || action == "disconnect" || "admin" <= action || NoEntityAction(action) then None
      else Some(id)
  {
    DecodeToken2(action, id);
  }

  /** The branch of the callback handler that runs. */
  datatype CallbackBranch =
    | MissingPayload        // no message or no data: answered, nothing else
    | NoAction              // empty action: returns before answering
    | Language
    | AdminMainMenu
    | CustomerPing
    | CustomerPay
    | OrderAction
    | AdminArchive
    | AdminSettings
    | ManageQrs
    | AddQr
    | QrCode
    | Disconnect
    | SetAdminLanguage(lang: string)
    | ManageAdmins
    | ManageDrivers
    | AddAdmin
    | RemoveAdmin
    | DriverAdmin
    | Detail
    | EditMenu
    | Edit
    | Payment
    | Assign
    | Go
    | Cancel
    | Save
    | DriverStep
    | Delay
    | Feedback
    | Unhandled             // answered, no branch matched

  /**
   * The handler's chain of tests, in source order. `orderFound` says whether the lookup under
   * `OrderLookupKey` found an order, `orderHasDriver` whether that order's driverId is truthy.
   */
  function RouteCallback(hasMessage: bool, data: string, orderFound: bool, orderHasDriver: bool): (b: CallbackBranch)
    ensures b == MissingPayload <==> !hasMessage || data == ""
  {
    if !hasMessage || data == "" then MissingPayload
    else Route(Decode(data), orderFound, orderHasDriver)
  }

  /** The branch chosen for a decoded token, once the payload is known to be present. */
  function Route(c: Callback, orderFound: bool, orderHasDriver: bool): (b: CallbackBranch)
    ensures b != MissingPayload
    ensures b == NoAction <==> c.action == ""
    ensures b in {CustomerPing, CustomerPay, Detail, EditMenu, Edit, Payment, Assign, Go, Cancel, Save, DriverStep, Delay, Feedback}
      ==> orderFound
    ensures b == CustomerPing ==> orderHasDriver
    ensures b in {Language, OrderAction, DriverAdmin, Edit, Payment, Assign, DriverStep, Delay, Feedback} ==> Truthy(c.subAction)
    ensures b == OrderAction ==> Truthy(c.entityId)
  {
      var a := c.action;
      var sub := c.subAction;
      if a == "" then NoAction
      else if a == "lang" && Truthy(sub) then Language
      else if a == "admin_main_menu" then AdminMainMenu
      else if a == "customer_ping" && orderFound && orderHasDriver then CustomerPing
      else if a == "customer_pay" && orderFound then CustomerPay
      else if a == "order_action" && Truthy(sub) && Truthy(c.entityId) then OrderAction
      else if a == "admin_archive" then AdminArchive
      else if a == "admin_settings" then AdminSettings
      else if a == "admin_manage_qrs" then ManageQrs
      else if a == "admin_add_qr" then AddQr
      else if a == "qr" then QrCode
      else if a == "disconnect" then Disconnect
      else if a == "admin_set_lang_ru" then SetAdminLanguage("ru")
      else if a == "admin_set_lang_en" then SetAdminLanguage("en")
      else if a == "admin_manage_admins" then ManageAdmins
      else if a == "admin_manage_drivers" then ManageDrivers
      else if a == "admin_add_admin" then AddAdmin
      else if a == "admin" && sub == Some("remove") then RemoveAdmin
      else if a == "driver_admin" && Truthy(sub) then DriverAdmin
      else if a == "detail" && orderFound then Detail
      else if a == "edit_menu" && orderFound then EditMenu
      else if a == "edit" && orderFound && Truthy(sub) then Edit
      else if a == "payment" && orderFound && Truthy(sub) then Payment
      else if a == "assign" && orderFound && Truthy(sub) then Assign
      else if a == "go" && orderFound then Go
      else if a == "cancel" && orderFound then Cancel
      else if a == "save" && orderFound then Save
      else if a == "driver" && orderFound && Truthy(sub) then DriverStep
      else if a == "delay" && orderFound && Truthy(sub) then Delay
      else if a == "fb" && orderFound && Truthy(sub) then Feedback
      else Unhandled
  }

  /** The order-scoped verbs and the branch each selects once its order is found. */
  function OrderVerbBranch(verb: string): Option<CallbackBranch> {
    match verb
    case "customer_pay" => Some(CustomerPay)
    case "detail" => Some(Detail)
    case "edit_menu" => Some(EditMenu)
    case "edit" => Some(Edit)
    case "payment" => Some(Payment)
    case "assign" => Some(Assign)
    case "go" => Some(Go)
    case "cancel" => Some(Cancel)
    case "save" => Some(Save)
    case "driver" => Some(DriverStep)
    case "delay" => Some(Delay)
    case "fb" => Some(Feedback)
    case _ => None
  }

  /** A three-part order token reaches the branch of its verb when its order exists, and no branch otherwise. */
  lemma RouteOfOrderToken3(verb: string, sub: string, id: string, found: bool, hasDriver: bool)
    requires OrderVerbBranch(verb).Some?
    requires ':' !in verb && ':' !in sub && ':' !in id && sub != "" && id != ""
    ensures RouteCallback(true, Token3(verb, sub, id), found, hasDriver) ==
      if found then OrderVerbBranch(verb).value else Unhandled
  {
    DecodeToken3(verb, sub, id);
    RouteOfOrderVerb(Decode(Token3(verb, sub, id)), found, hasDriver);
  }

  /** A two-part order token reaches the branch of its verb when its order exists, and no branch otherwise. */
  lemma RouteOfOrderToken2(verb: string, id: string, found: bool, hasDriver: bool)
    requires OrderVerbBranch(verb).Some?
    requires ':' !in verb && ':' !in id && id != ""
    ensures RouteCallback(true, Token2(verb, id), found, hasDriver) ==
      if found then OrderVerbBranch(verb).value else Unhandled
  {
    DecodeToken2(verb, id);
    OrderVerbTakesEntity(verb);
    RouteOfOrderVerb(Decode(Token2(verb, id)), found, hasDriver);
  }

  /** The order verbs take an entity id and are none of the actions tested before the order lookup matters. */
  lemma OrderVerbTakesEntity(verb: string)
    requires OrderVerbBranch(verb).Some?
    ensures !NoEntityAction(verb)
    ensures !("admin" <= verb) && verb != "qr" && verb != "disconnect"
  {
    if verb == "assign" {
      assert verb[1] != "admin_"[1];
    } else {
      assert verb[0] != 'a';
    }
  }

  /**
   * A decoded token with an order verb, a sub-action and an entity id reaches the branch of
   * its verb when the order exists, and falls through every test otherwise.
   */
  lemma RouteOfOrderVerb(c: Callback, found: bool, hasDriver: bool)
    requires OrderVerbBranch(c.action).Some? && Truthy(c.subAction) && Truthy(c.entityId)
    ensures Route(c, found, hasDriver) == if found then OrderVerbBranch(c.action).value else Unhandled
  {
    if c.action == "customer_pay" {
      RouteOfCustomerPayVerb(c, found, hasDriver);
    } else if c.action == "detail" {
      RouteOfDetailVerb(c, found, hasDriver);
    } else if c.action == "edit_menu" {
      RouteOfEditMenuVerb(c, found, hasDriver);
    } else if c.action == "edit" {
      RouteOfEditVerb(c, found, hasDriver);
    } else if c.action == "payment" {
      RouteOfPaymentVerb(c, found, hasDriver);
    } else if c.action == "assign" {
      RouteOfAssignVerb(c, found, hasDriver);
    } else if c.action == "go" {
      RouteOfGoVerb(c, found, hasDriver);
    } else if c.action == "cancel" {
      RouteOfCancelVerb(c, found, hasDriver);
    } else if c.action == "save" {
      RouteOfSaveVerb(c, found, hasDriver);
    } else if c.action == "driver" {
      RouteOfDriverVerb(c, found, hasDriver);
    } else if c.action == "delay" {
      RouteOfDelayVerb(c, found, hasDriver);
    } else {
      assert c.action == "fb";
      RouteOfFeedbackVerb(c, found, hasDriver);
    }
  }

  // One lemma per verb, so that each evaluates the chain of tests once.

  lemma RouteOfCustomerPayVerb(c: Callback, found: bool, hasDriver: bool)
    requires c.action == "customer_pay" && Truthy(c.subAction) && Truthy(c.entityId)
    ensures Route(c, found, hasDriver) == if found then CustomerPay else Unhandled
  {
  }

  lemma RouteOfDetailVerb(c: Callback, found: bool, hasDriver: bool)
    requires c.action == "detail" && Truthy(c.subAction) && Truthy(c.entityId)
    ensures Route(c, found, hasDriver) == if found then Detail else Unhandled
  {
  }

  lemma RouteOfEditMenuVerb(c: Callback, found: bool, hasDriver: bool)
    requires c.action == "edit_menu" && Truthy(c.subAction) && Truthy(c.entityId)
    ensures Route(c, found, hasDriver) == if found then EditMenu else Unhandled
  {
  }

  lemma RouteOfEditVerb(c: Callback, found: bool, hasDriver: bool)
    requires c.action == "edit" && Truthy(c.subAction) && Truthy(c.entityId)
    ensures Route(c, found, hasDriver) == if found then Edit else Unhandled
  {
  }

  lemma RouteOfPaymentVerb(c: Callback, found: bool, hasDriver: bool)
    requires c.action == "payment" && Truthy(c.subAction) && Truthy(c.entityId)
    ensures Route(c, found, hasDriver) == if found then Payment else Unhandled
  {
  }

  lemma RouteOfAssignVerb(c: Callback, found: bool, hasDriver: bool)
    requires c.action == "assign" && Truthy(c.subAction) && Truthy(c.entityId)
    ensures Route(c, found, hasDriver) == if found then Assign else Unhandled
  {
  }

  lemma RouteOfGoVerb(c: Callback, found: bool, hasDriver: bool)
    requires c.action == "go" && Truthy(c.subAction) && Truthy(c.entityId)
    ensures Route(c, found, hasDriver) == if found then Go else Unhandled
  {
  }

  lemma RouteOfCancelVerb(c: Callback, found: bool, hasDriver: bool)
    requires c.action == "cancel" && Truthy(c.subAction) && Truthy(c.entityId)
    ensures Route(c, found, hasDriver) == if found then Cancel else Unhandled
  {
  }

  lemma RouteOfSaveVerb(c: Callback, found: bool, hasDriver: bool)
    requires c.action == "save" && Truthy(c.subAction) && Truthy(c.entityId)
    ensures Route(c, found, hasDriver) == if found then Save else Unhandled
  {
  }

  lemma RouteOfDriverVerb(c: Callback, found: bool, hasDriver: bool)
    requires c.action == "driver" && Truthy(c.subAction) && Truthy(c.entityId)
    ensures Route(c, found, hasDriver) == if found then DriverStep else Unhandled
  {
  }

  lemma RouteOfDelayVerb(c: Callback, found: bool, hasDriver: bool)
    requires c.action == "delay" && Truthy(c.subAction) && Truthy(c.entityId)
    ensures Route(c, found, hasDriver) == if found then Delay else Unhandled
  {
  }

  lemma RouteOfFeedbackVerb(c: Callback, found: bool, hasDriver: bool)
    requires c.action == "fb" && Truthy(c.subAction) && Truthy(c.entityId)
    ensures Route(c, found, hasDriver) == if found then Feedback else Unhandled
  {
  }

  /** `admin_archive:<id>` (the archive button of a completed order) decodes without an id and lists the archive. */
  lemma RouteOfArchiveButton(id: string, found: bool, hasDriver: bool)
    requires ':' !in id
    ensures Decode(Token2("admin_archive", id)).entityId.None?
    ensures RouteCallback(true, Token2("admin_archive", id), found, hasDriver) == AdminArchive
  {
    DecodeToken2("admin_archive", id);
    assert NoEntityAction("admin_archive") by {
      assert "admin_archive"[..6] == "admin_";
    }
    var c := Decode(Token2("admin_archive", id));
    assert c.action == "admin_archive";
    assert Route(c, found, hasDriver) == AdminArchive;
  }
}
