/** The webhook handler of commerce_coinbase_payments/src/Ipn.php. It acts on
    the charge's timeline: it records the price of the first confirmed payment
    on the order's payment, then moves the order according to the status of
    the last timeline entry, but only through a transition the order's state
    offers. */
module TimelineIpn {
  import opened Commerce

  /** A webhook request: the raw body, the signature header, and the charge
      under `event.data` (`None` when the payload has no `event.data.id`). */
  datatype Notification = Notification(body: string, signature: Option<string>, charge: Option<Charge>)

  const Resolved := "RESOLVED"
  const CompletedStatus := "COMPLETED"
  const Unresolved := "UNRESOLVED"
  const Overpaid := "OVERPAID"
  const Canceled := "CANCELED"
  const Expired := "EXPIRED"

  /** PHP's `strval` of a value that may be null: null becomes the empty string. */
  function StrVal(v: Option<string>): (r: string)
    ensures v.Some? ==> r == v.value
    ensures v.None? ==> r == ""
  {
    match v
    case None => ""
    case Some(s) => s
  }

  // ----- update_transaction (lines 106-142) -----

  /** Lines 108-117: the amount and currency of the first confirmed payment,
      with a missing amount read as "" and a missing currency left null. */
  method FirstConfirmedPrice(ps: seq<ChargePayment>) returns (total: Option<string>, currency: Option<string>)
    ensures FirstWhere(ps, Confirmed).None? ==> total.None? && currency.None?
    ensures FirstWhere(ps, Confirmed).Some? ==>
      var p := ps[FirstWhere(ps, Confirmed).value];
      total == Some(StrVal(p.amount)) && currency == p.currency
  {
    total, currency := None, None;
    var i := 0;
    while i < |ps|
      invariant 0 <= i <= |ps|
      invariant forall j | 0 <= j < i :: !Confirmed(ps[j])
      invariant total.None? && currency.None?
    {
      var payment := ps[i];
      LowerEqualsIsLower(payment.status, "confirmed");
      if Lower(payment.status) == "confirmed" {
        total := Some(StrVal(payment.amount));
        currency := payment.currency;
        assert FirstWhere(ps, Confirmed) == Some(i);
        break;
      }
      i := i + 1;
    }
  }

  /** Lines 125-135: the first stored payment of the order, or a new one for
      the charge and gateway, not yet stored. */
  function FindByOrder(payments: seq<Transaction>, order: Order, charge: Charge, gateway: string): (r: Target)
    ensures r.slot.Some? ==>
      && r.slot.value < |payments|
      && r.payment == payments[r.slot.value]
      && r.payment.orderId == order.id
      && forall i | 0 <= i < r.slot.value :: payments[i].orderId != order.id
    ensures r.slot.None? ==>
      && (forall i | 0 <= i < |payments| :: payments[i].orderId != order.id)
      && r.payment == Transaction(New, None, None, order.id, charge.id, gateway)
  {
    match FirstWhere(payments, OrderIdIs(order.id))
    case Some(i) => Target(Some(i), payments[i])
    case None => Target(None, Transaction(New, None, None, order.id, charge.id, gateway))
  }

  /** What `update_transaction` writes: nothing when no payment is confirmed or
      the first confirmed one has no currency; otherwise one save of the
      order's payment, completed, carrying the last timeline status and the
      confirmed price. */
  function TransactionUpdate(order: Order, charge: Charge, payments: seq<Transaction>, gateway: string): (ws: seq<Write>)
    ensures |ws| <= 1
    ensures |ws| == 1 <==>
      FirstWhere(charge.payments, Confirmed).Some? &&
      charge.payments[FirstWhere(charge.payments, Confirmed).value].currency.Some?
    ensures |ws| == 1 ==>
      var p := charge.payments[FirstWhere(charge.payments, Confirmed).value];
      var target := FindByOrder(payments, order, charge, gateway);
      && ws[0].PaymentSaved?
      && ws[0].slot == target.slot
      && ws[0].payment.state == Completed
      && ws[0].payment.remoteState == LastStatus(charge.timeline)
      && ws[0].payment.amount == Some(Money(StrVal(p.amount), p.currency.value))
      && ws[0].payment.orderId == order.id
      && ws[0].payment.remoteId == target.payment.remoteId
      && ws[0].payment.gateway == target.payment.gateway
  {
    match FirstWhere(charge.payments, Confirmed)
    case None => []
    case Some(i) =>
      var p := charge.payments[i];
      if p.currency.None? then []
      else
        var target := FindByOrder(payments, order, charge, gateway);
        var price := Money(StrVal(p.amount), p.currency.value);
        [PaymentSaved(target.slot, target.payment.(remoteState := LastStatus(charge.timeline), state := Completed, amount := Some(price)))]
  }

  /** `update_transaction` marks the order's first payment `completed`
      whatever state it was in, a `failed` one included. */
  lemma FailedPaymentCompleted(order: Order, charge: Charge, payments: seq<Transaction>, gateway: string, k: nat)
    requires FirstWhere(payments, OrderIdIs(order.id)) == Some(k)
    requires k < |payments| && payments[k].state == Failed
    requires FirstWhere(charge.payments, Confirmed).Some?
    requires charge.payments[FirstWhere(charge.payments, Confirmed).value].currency.Some?
    ensures var after := PaymentsAfter(payments, TransactionUpdate(order, charge, payments, gateway));
      && |after| == |payments|
      && after[k].orderId == order.id
      && after[k].state == Completed
  {
    var ws := TransactionUpdate(order, charge, payments, gateway);
    assert ws == [ws[0]];
    SingleWrite(payments, map[], ws[0]);
  }

  /** `update_transaction` against storage. */
  method UpdateTransaction(order: Order, charge: Charge, gateway: string, storage: Storage)
    modifies storage
    ensures storage.journal == old(storage.journal) + TransactionUpdate(order, charge, old(storage.payments), gateway)
    ensures storage.payments == PaymentsAfter(old(storage.payments), TransactionUpdate(order, charge, old(storage.payments), gateway))
    ensures storage.orders == OrdersAfter(old(storage.orders), TransactionUpdate(order, charge, old(storage.payments), gateway))
  {
    var total, currency := FirstConfirmedPrice(charge.payments);
    if total.None? || currency.None? {
      return;
    }
    var price := Money(total.value, currency.value);
    var slot: Option<nat>;
    var transaction: Transaction;
    var found := FirstWhere(storage.payments, OrderIdIs(order.id));
    if found.Some? {
      slot, transaction := found, storage.payments[found.value];
    } else {
      slot, transaction := None, Transaction(New, None, None, order.id, charge.id, gateway);
    }
    transaction := transaction.(remoteState := LastStatus(charge.timeline));
    transaction := transaction.(state := Completed);
    transaction := transaction.(amount := Some(price));
    storage.SavePayment(slot, transaction);
    AfterAppend(old(storage.payments), old(storage.orders), [], PaymentSaved(slot, transaction));
  }

  // ----- apply_order_transition (lines 144-152) -----

  /** The order save `apply_order_transition` makes: one, when the order's
      state offers the named transition, and none otherwise. */
  function OrderTransition(order: Order, name: string): (ws: seq<Write>)
    ensures |ws| <= 1
    ensures |ws| == 1 <==> name in order.Transitions()
    ensures |ws| == 1 ==> ws[0].OrderSaved? && ws[0].order.id == order.id && ws[0].order.gateway == order.gateway
    ensures |ws| == 1 ==> ws[0].order.state == order.Transitions()[name]
    ensures |ws| == 1 ==> ws[0].order == order.(state := order.Transitions()[name])
  {
    if name in order.Transitions() then [OrderSaved(order.Apply(name))] else []
  }

  /** `apply_order_transition` against storage. */
  method ApplyOrderTransition(order: Order, name: string, storage: Storage)
    modifies storage
    ensures storage.journal == old(storage.journal) + OrderTransition(order, name)
    ensures storage.payments == PaymentsAfter(old(storage.payments), OrderTransition(order, name))
    ensures storage.orders == OrdersAfter(old(storage.orders), OrderTransition(order, name))
  {
    var transitions := order.Transitions();
    if transitions != map[] && name in transitions {
      var o := order.Apply(name);
      storage.SaveOrder(o);
      AfterAppend(old(storage.payments), old(storage.orders), [], OrderSaved(o));
    }
  }

  // ----- the timeline switch (lines 86-103) -----

  /** The transition the last timeline entry asks for: `place` for a resolved
      or completed charge and for an unresolved one whose context is exactly
      OVERPAID, `cancel` for a canceled or expired one, none otherwise (and
      none for an empty timeline, whose last status is null). */
  function TimelineTransition(last: Option<TimelineEntry>): (r: Option<string>)
    ensures r == Some(Place) <==>
      last.Some? &&
      (last.value.status == Resolved || last.value.status == CompletedStatus ||
       (last.value.status == Unresolved && last.value.context == Some(Overpaid)))
    ensures r == Some(Cancel) <==>
      last.Some? && (last.value.status == Canceled || last.value.status == Expired)
    ensures r.Some? ==> r == Some(Place) || r == Some(Cancel)
  {
    match last
    case None => None
    case Some(entry) =>
      if entry.status == Resolved || entry.status == CompletedStatus then Some(Place)
      else if entry.status == Unresolved then
        (if entry.context == Some(Overpaid) then Some(Place) else None)
      else if entry.status == Canceled || entry.status == Expired then Some(Cancel)
      else None
  }

  /** The order writes of lines 86-103. */
  function TimelineWrites(order: Order, charge: Charge): seq<Write>
  {
    match TimelineTransition(LastEntry(charge.timeline))
    case None => []
    case Some(name) => OrderTransition(order, name)
  }

  /** Lines 85-103: the payment update, then the order transition. */
  function Settle(order: Order, charge: Charge, payments: seq<Transaction>): seq<Write>
  {
    TransactionUpdate(order, charge, payments, order.gateway) + TimelineWrites(order, charge)
  }

  // ----- process (lines 59-104) and load_order (lines 154-169) -----

  /** Everything `process` does for one notification. */
  function Handle(
    n: Notification,
    orders: map<string, Order>,
    payments: seq<Transaction>,
    gateways: map<string, Config>,
    sigOk: SignatureCheck): (e: Effects)
    // no `event.data.id`: rejected before anything is loaded
    ensures n.charge.None? ==> e == Stop(BadRequest(InvalidPayload), [])
    // the order the metadata names is not stored: logged and rejected
    ensures n.charge.Some? && !(MetadataParam(n.charge.value, OrderIdKey).Some? && MetadataParam(n.charge.value, OrderIdKey).value in orders) ==>
      e == Stop(BadRequest(OrderNotFound), [MissingOrder(MetadataParam(n.charge.value, OrderIdKey))])
    // the order's gateway entity is missing: a fatal error, not a rejection
    ensures n.charge.Some? && MetadataParam(n.charge.value, OrderIdKey).Some? && MetadataParam(n.charge.value, OrderIdKey).value in orders ==>
      var order := orders[MetadataParam(n.charge.value, OrderIdKey).value];
      && (order.gateway !in gateways ==> e == Stop(Fatal(NullGateway), []))
      && (order.gateway in gateways && !sigOk(n.body, n.signature, Get(gateways[order.gateway], SecretKey)) ==>
            e == Stop(BadRequest(SignatureInvalid), [BadSignature]))
    // only a request that passes every gate writes, and it logs nothing
    ensures !e.outcome.Accepted? ==> e.writes == []
    ensures e.outcome.Accepted? ==> e.log == [] && n.charge.Some?
  {
    match n.charge
    case None => Stop(BadRequest(InvalidPayload), [])
    case Some(charge) =>
      var orderId := MetadataParam(charge, OrderIdKey);
      if !(orderId.Some? && orderId.value in orders) then Stop(BadRequest(OrderNotFound), [MissingOrder(orderId)])
      else
        var order := orders[orderId.value];
        // line 73 yields null for a missing gateway, and the call on it at
        // line 76 raises an Error, which `catch (\Exception)` does not catch
        if order.gateway !in gateways then Stop(Fatal(NullGateway), [])
        else if !sigOk(n.body, n.signature, Get(gateways[order.gateway], SecretKey)) then
          Stop(BadRequest(SignatureInvalid), [BadSignature])
        else Effects(Accepted, Settle(order, charge, payments), [])
  }

  /** `load_order`: the stored order, or a logged warning when there is none. */
  method LoadOrder(orderId: Option<string>, storage: Storage, logger: Logger) returns (order: Option<Order>)
    modifies logger
    ensures order == storage.LoadOrder(orderId)
    ensures order.None? ==> logger.entries == old(logger.entries) + [MissingOrder(orderId)]
    ensures order.Some? ==> logger.entries == old(logger.entries)
  {
    order := storage.LoadOrder(orderId);
    if order.None? {
      logger.Log(MissingOrder(orderId));
    }
  }

  /** Lines 85-103 against storage. */
  method SettleInStorage(order: Order, charge: Charge, storage: Storage)
    modifies storage
    ensures storage.journal == old(storage.journal) + Settle(order, charge, old(storage.payments))
    ensures storage.payments == PaymentsAfter(old(storage.payments), Settle(order, charge, old(storage.payments)))
    ensures storage.orders == OrdersAfter(old(storage.orders), Settle(order, charge, old(storage.payments)))
  {
    UpdateTransaction(order, charge, order.gateway, storage);
    ghost var tw := TransactionUpdate(order, charge, old(storage.payments), order.gateway);
    var transition := TimelineTransition(LastEntry(charge.timeline));
    if transition.Some? {
      ApplyOrderTransition(order, transition.value, storage);
    }
    AfterConcat(old(storage.payments), old(storage.orders), tw, TimelineWrites(order, charge));
    assert storage.journal == old(storage.journal) + (tw + TimelineWrites(order, charge));
  }

  /** `Ipn::process` of commerce_coinbase_payments/src/Ipn.php. */
  method Process(
    n: Notification,
    storage: Storage,
    gateways: map<string, Config>,
    sigOk: SignatureCheck,
    logger: Logger)
    returns (outcome: Outcome)
    modifies storage, logger
    ensures outcome == Handle(n, old(storage.orders), old(storage.payments), gateways, sigOk).outcome
    ensures storage.journal == old(storage.journal) + Handle(n, old(storage.orders), old(storage.payments), gateways, sigOk).writes
    ensures storage.payments == PaymentsAfter(old(storage.payments), Handle(n, old(storage.orders), old(storage.payments), gateways, sigOk).writes)
    ensures storage.orders == OrdersAfter(old(storage.orders), Handle(n, old(storage.orders), old(storage.payments), gateways, sigOk).writes)
    ensures logger.entries == old(logger.entries) + Handle(n, old(storage.orders), old(storage.payments), gateways, sigOk).log
  {
    if n.charge.None? {
      return BadRequest(InvalidPayload);
    }
    var charge := n.charge.value;
    var order := LoadOrder(MetadataParam(charge, OrderIdKey), storage, logger);
    if order.None? {
      return BadRequest(OrderNotFound);
    }
    var gateway := order.value.gateway;
    if gateway !in gateways {
      return Fatal(NullGateway);
    }
    var config := gateways[gateway];
    if !sigOk(n.body, n.signature, Get(config, SecretKey)) {
      logger.Log(BadSignature);
      return BadRequest(SignatureInvalid);
    }
    SettleInStorage(order.value, charge, storage);
    return Accepted;
  }

  // ----- Properties across requests -----

  /** The gates of lines 61-83 pass exactly when `Handle` reaches lines 85-103. */
  lemma HandleSettles(
    n: Notification,
    orders: map<string, Order>,
    payments: seq<Transaction>,
    gateways: map<string, Config>,
    sigOk: SignatureCheck)
    ensures var e := Handle(n, orders, payments, gateways, sigOk);
      e.outcome.Accepted? <==>
        && n.charge.Some?
        && MetadataParam(n.charge.value, OrderIdKey).Some?
        && MetadataParam(n.charge.value, OrderIdKey).value in orders
        && orders[MetadataParam(n.charge.value, OrderIdKey).value].gateway in gateways
        && sigOk(n.body, n.signature, Get(gateways[orders[MetadataParam(n.charge.value, OrderIdKey).value].gateway], SecretKey))
    ensures var e := Handle(n, orders, payments, gateways, sigOk);
      e.outcome.Accepted? ==>
        e.writes == Settle(orders[MetadataParam(n.charge.value, OrderIdKey).value], n.charge.value, payments)
  {
  }

  /** Lines 85-103 change the payments only through the payment update, and
      the orders only through the transition, which keeps the order's id and
      gateway. */
  lemma SettleEffects(order: Order, charge: Charge, payments: seq<Transaction>, orders: map<string, Order>)
    ensures var ws := Settle(order, charge, payments);
      var tw := TransactionUpdate(order, charge, payments, order.gateway);
      && PaymentsAfter(payments, ws) == PaymentsAfter(payments, tw)
      && (TimelineWrites(order, charge) == [] ==> OrdersAfter(orders, ws) == orders)
      && (TimelineWrites(order, charge) != [] ==>
            var moved := TimelineWrites(order, charge)[0].order;
            && OrdersAfter(orders, ws) == orders[order.id := moved]
            && moved.id == order.id && moved.gateway == order.gateway
            && TimelineTransition(LastEntry(charge.timeline)).Some?
            && var name := TimelineTransition(LastEntry(charge.timeline)).value;
               name in order.Transitions() && moved == order.(state := order.Transitions()[name]))
  {
    var tw := TransactionUpdate(order, charge, payments, order.gateway);
    var ow := TimelineWrites(order, charge);
    AfterConcat(payments, orders, tw, ow);
    if tw != [] {
      assert tw == [tw[0]];
      SingleWrite(payments, orders, tw[0]);
    } else {
      assert PaymentsAfter(payments, tw) == payments;
    }
    if ow != [] {
      assert ow == [ow[0]];
      SingleWrite(PaymentsAfter(payments, tw), OrdersAfter(orders, tw), ow[0]);
    }
  }

  /** An accepted request saves the payment at most once and the order at
      most once, the payment first; it saves the payment exactly when the
      first confirmed payment of the charge has a currency, and the order
      exactly when the last timeline entry asks for a transition the order's
      state offers. */
  lemma SettleWrites(order: Order, charge: Charge, payments: seq<Transaction>)
    ensures var ws := Settle(order, charge, payments);
      && |ws| <= 2
      && PaymentSaves(ws) <= 1
      && OrderSaves(ws) <= 1
      && (|ws| == 2 ==> ws[0].PaymentSaved? && ws[1].OrderSaved?)
      && (PaymentSaves(ws) == 1 <==>
            FirstWhere(charge.payments, Confirmed).Some? &&
            charge.payments[FirstWhere(charge.payments, Confirmed).value].currency.Some?)
      && (OrderSaves(ws) == 1 <==>
            TimelineTransition(LastEntry(charge.timeline)).Some? &&
            TimelineTransition(LastEntry(charge.timeline)).value in order.Transitions())
  {
    var tw := TransactionUpdate(order, charge, payments, order.gateway);
    var ow := TimelineWrites(order, charge);
    var ws := tw + ow;
    if tw == [] {
      assert ws == ow;
      if ow != [] {
        assert ow == [ow[0]];
        SingleWrite([], map[], ow[0]);
      }
    } else if ow == [] {
      assert ws == tw && tw == [tw[0]];
      SingleWrite([], map[], tw[0]);
    } else {
      assert ws == [tw[0]] + [ow[0]];
      SingleWrite([], map[], tw[0]);
      AfterAppend([], map[], [tw[0]], ow[0]);
    }
  }

  /** A second payment update for the same order and charge leaves the
      payments as the first one left them: it finds the payment the first one
      saved and writes the same values into it. */
  lemma UpdateIdempotent(order: Order, again: Order, charge: Charge, payments: seq<Transaction>, gateway: string, gateway2: string)
    requires again.id == order.id
    ensures var payments1 := PaymentsAfter(payments, TransactionUpdate(order, charge, payments, gateway));
      PaymentsAfter(payments1, TransactionUpdate(again, charge, payments1, gateway2)) == payments1
  {
    var tw := TransactionUpdate(order, charge, payments, gateway);
    var payments1 := PaymentsAfter(payments, tw);
    var tw2 := TransactionUpdate(again, charge, payments1, gateway2);
    if tw == [] {
      assert tw2 == [];
      return;
    }
    var w := tw[0];
    assert tw == [w];
    SingleWrite(payments, map[], w);
    FirstWhereAfterSave(payments, OrderIdIs(order.id), w.payment);
    var k := FirstWhere(payments1, OrderIdIs(order.id));
    assert k.Some? && payments1[k.value] == w.payment;
    var w2 := tw2[0];
    assert tw2 == [w2];
    assert w2 == PaymentSaved(k, w.payment);
    SingleWrite(payments1, map[], w2);
    assert payments1[k.value := w.payment] == payments1;
  }

  /** What a replay needs from lines 85-103 for the order stored under `id`:
      the payments are those of the update alone, and the order stored under
      `id` afterwards keeps its own id. */
  lemma SettleKeepsOrderId(order: Order, charge: Charge, payments: seq<Transaction>, orders: map<string, Order>, id: string)
    requires id in orders && orders[id] == order
    ensures var ws := Settle(order, charge, payments);
      && PaymentsAfter(payments, ws) == PaymentsAfter(payments, TransactionUpdate(order, charge, payments, order.gateway))
      && id in OrdersAfter(orders, ws)
      && OrdersAfter(orders, ws)[id].id == order.id
  {
    SettleEffects(order, charge, payments, orders);
  }

  /** Delivering the same notification twice leaves the payment records as
      the first delivery left them. */
  lemma ReplayKeepsPayments(
    n: Notification,
    orders: map<string, Order>,
    payments: seq<Transaction>,
    gateways: map<string, Config>,
    sigOk: SignatureCheck)
    ensures var e1 := Handle(n, orders, payments, gateways, sigOk);
      var payments1 := PaymentsAfter(payments, e1.writes);
      var e2 := Handle(n, OrdersAfter(orders, e1.writes), payments1, gateways, sigOk);
      PaymentsAfter(payments1, e2.writes) == payments1
  {
    var e1 := Handle(n, orders, payments, gateways, sigOk);
    var orders1, payments1 := OrdersAfter(orders, e1.writes), PaymentsAfter(payments, e1.writes);
    var e2 := Handle(n, orders1, payments1, gateways, sigOk);
    if !e1.outcome.Accepted? {
      assert e2 == e1;
      return;
    }
    if !e2.outcome.Accepted? {
      return;
    }
    HandleSettles(n, orders, payments, gateways, sigOk);
    HandleSettles(n, orders1, payments1, gateways, sigOk);
    var charge := n.charge.value;
    var id := MetadataParam(charge, OrderIdKey).value;
    var order1, order2 := orders[id], orders1[id];
    SettleKeepsOrderId(order1, charge, payments, orders, id);
    SettleKeepsOrderId(order2, charge, payments1, orders1, id);
    UpdateIdempotent(order1, order2, charge, payments, order1.gateway, order2.gateway);
  }

  /** Unlike the event-type handler, a second delivery of any accepted
      notification is accepted again: the order keeps its gateway, and a
      transition its new state no longer offers is skipped rather than
      raised. */
  lemma ReplayAccepted(
    n: Notification,
    orders: map<string, Order>,
    payments: seq<Transaction>,
    gateways: map<string, Config>,
    sigOk: SignatureCheck)
    requires Handle(n, orders, payments, gateways, sigOk).outcome.Accepted?
    ensures var e1 := Handle(n, orders, payments, gateways, sigOk);
      Handle(n, OrdersAfter(orders, e1.writes), PaymentsAfter(payments, e1.writes), gateways, sigOk).outcome.Accepted?
  {
    var e1 := Handle(n, orders, payments, gateways, sigOk);
    HandleSettles(n, orders, payments, gateways, sigOk);
    var charge := n.charge.value;
    var id := MetadataParam(charge, OrderIdKey).value;
    var order := orders[id];
    SettleEffects(order, charge, payments, orders);
    var orders1 := OrdersAfter(orders, e1.writes);
    assert id in orders1 && orders1[id].gateway == order.gateway;
    HandleSettles(n, orders1, PaymentsAfter(payments, e1.writes), gateways, sigOk);
  }
}
