/**
 * Handler sequences as the bot meets them: the same user arriving twice, an order going out,
 * being picked up and completed, a cancellation that keeps the driver, and a driver going
 * offline with and without an admin's approval. Each is client code of the `World` handlers,
 * proved from their contracts alone.
 */
module Scenarios {
  import opened Wrappers
  import opened Strings
  import opened Domain
  import opened Keyboards
  import opened Effects
  import opened Dispatch

  /** With unique driver ids, a registered driver is the only one its id selects. */
  lemma OnlyDriverWithId(w: World, d: Driver)
    requires w.Valid() && d in w.drivers
    ensures w.DriverWithId(Some(d.id)) == {d}
  {
    forall x | x in w.DriverWithId(Some(d.id)) ensures x == d {
      var i :| 0 <= i < |w.drivers| && w.drivers[i] == x;
      var j :| 0 <= j < |w.drivers| && w.drivers[j] == d;
      if i < j {
        assert w.drivers[i].id != w.drivers[j].id;
      } else if j < i {
        assert w.drivers[j].id != w.drivers[i].id;
      }
    }
  }

  /** The same user's customer, found or created twice: one record, added at most once. */
  method CustomerTwice(w: World, user: TgUser, now: int, later: int) returns (c1: Customer, c2: Customer)
    requires user.id != 0
    modifies w`customers
    ensures c1 == c2 && c1.id == IntToString(user.id)
    ensures |w.customers| <= |old(w.customers)| + 1
    ensures old(w.FindCustomer(IntToString(user.id))).Some? ==> w.customers == old(w.customers)
  {
    var id := IntToString(user.id);
    c1 := w.FindOrCreateCustomer(user, now);
    assert c1 in w.customers && c1.id == id;
    assert w.FindCustomer(id) == Some(c1);
    c2 := w.FindOrCreateCustomer(user, later);
  }

  /**
   * The same user's driver, found or created twice: one record, added at most once, offline
   * when new and with its status untouched when it existed.
   */
  method DriverTwice(w: World, user: TgUser) returns (d1: Driver, d2: Driver)
    requires w.Valid()
    modifies w`drivers
    ensures w.Valid()
    ensures d1 == d2 && d1.id == IntToString(user.id)
    ensures |w.drivers| <= |old(w.drivers)| + 1
    ensures match old(w.FindDriver(IntToString(user.id)))
      case None => d1.status == Offline && d1.currentOrderId == None
      case Some(existing) => d1 == existing && d1.status == old(existing.status)
  {
    var id := IntToString(user.id);
    d1 := w.FindOrCreateDriver(user);
    w.FoundDriverIsUnique(d1);
    d2 := w.FindOrCreateDriver(user);
  }

  /**
   * An order whose driver is registered goes out (`go`), is picked up and is completed: the
   * order moves from active-ready to picked-up to completed, the driver from assigned to busy
   * to online and free, and the order keeps its driver throughout.
   */
  method Delivery(w: World, go: Press, pickup: Press, done: Press, o: Order, d: Driver)
    returns (sentStatus: OrderStatus, sentDriver: DriverStatus, carriedStatus: OrderStatus, carriedDriver: DriverStatus)
    requires w.Valid() && d in w.drivers && o.driverId == Some(d.id) && d.id != ""
    modifies o`status, d`status, d`currentOrderId
    ensures sentStatus == ActiveReady && sentDriver == Assigned
    ensures carriedStatus == ActivePickedUp && carriedDriver == Busy
    ensures o.status == Completed && d.status == Online && d.currentOrderId == None
    ensures o.driverId == Some(d.id)
  {
    OnlyDriverWithId(w, d);
    w.FoundDriverIsUnique(d);
    var sent := w.OnGo(go, o);
    sentStatus, sentDriver := o.status, d.status;
    var picked := w.DriverPickup(pickup, o, d);
    carriedStatus, carriedDriver := o.status, d.status;
    var completed := w.DriverCompleted(done, o, d);
  }

  /**
   * Cancelling an order that went out leaves its driver attached and still assigned to it:
   * `cancel` changes the status only.
   */
  method GoThenCancel(w: World, go: Press, cancel: Press, o: Order, d: Driver)
    requires w.Valid() && d in w.drivers && o.driverId == Some(d.id) && d.id != ""
    modifies o`status, d`status, d`currentOrderId
    ensures o.status == Cancelled && o.driverId == Some(d.id)
    ensures d.status == Assigned && d.currentOrderId == Some(o.id)
  {
    OnlyDriverWithId(w, d);
    w.FoundDriverIsUnique(d);
    var sent := w.OnGo(go, o);
    var cancelled := w.OnCancel(cancel, o);
  }

  /** A driver who registers and then disconnects is offline, with no prompt pending. */
  method RegisterThenDisconnect(w: World, user: TgUser) returns (fx: seq<Effect>)
    requires w.Valid()
    modifies w`drivers, w`disconnectTimers, w.DriverWithId(Some(IntToString(user.id)))`status
    ensures w.Valid()
    ensures var found := w.FindDriver(IntToString(user.id));
      found.Some? && found.value.status == Offline
    ensures w.disconnectTimers == old(w.disconnectTimers)
    ensures fx == [Plain(Chat(user.id), "disconnected")]
      + ToAll(w.adminUserIds, DriverStatusText(w.FindDriver(IntToString(user.id)).value.name, "offline"), NoMarkup)
  {
    var id := IntToString(user.id);
    var registered := w.Register(user);
    var d := w.FindDriver(id).value;
    OnlyDriverWithId(w, d);
    assert fresh(d) || d in old(w.DriverWithId(Some(id)));
    fx := w.Disconnect(user);
    w.FoundDriverIsUnique(d);
  }

  /**
   * A busy driver's `/disconnect` leaves the driver busy with a prompt pending; an admin's
   * `disconnect:approve:<id>` then takes the driver offline and the pending prompt away.
   */
  method DisconnectApproved(w: World, user: TgUser, approve: Press) returns (pending: bool)
    requires w.Valid()
    requires w.FindDriver(IntToString(user.id)).Some? && w.FindDriver(IntToString(user.id)).value.status == Busy
    requires approve.parts == ["disconnect", "approve", IntToString(user.id)]
    modifies w`disconnectTimers, w.DriverWithId(Some(IntToString(user.id)))`status
    ensures pending
    ensures w.FindDriver(IntToString(user.id)).Some? && w.FindDriver(IntToString(user.id)).value.status == Offline
    ensures user.id !in w.disconnectTimers
    ensures w.disconnectTimers == old(w.disconnectTimers) - {user.id}
  {
    var id := IntToString(user.id);
    var d := w.FindDriver(id).value;
    var asked := w.Disconnect(user);
    assert d.status == Busy && w.disconnectTimers == old(w.disconnectTimers) + {user.id};
    pending := user.id in w.disconnectTimers && d.status == Busy;
    OnlyDriverWithId(w, d);
    assert w.FindDriverOpt(Part(approve.parts, 2)) == Some(d) by {
      assert Part(approve.parts, 2) == Some(id);
      assert d in w.drivers;
      assert w.FindDriverOpt(Some(id)).value in w.DriverWithId(Some(id));
    }
    ParseIntOfIntToString(user.id);
    assert TimerKey(d.id) == {user.id};
    var decided := w.OnDisconnectDecision(approve);
    w.FoundDriverIsUnique(d);
  }
}
