/** The webhook handler that decides by event type (src/Ipn.php): it checks
    the payload, loads the order and its gateway configuration, verifies the
    signature, finds or creates the payment whose remote id is the charge id,
    and then marks it failed, completed or authorized by the event type,
    cancelling or placing the order on the way. */
module EventIpn {
  import opened Commerce

  /** The `event` envelope of a notification. */
  datatype Event = Event(eventType: string, data: Charge)

  /** A request as the handler sees it: the raw body, the signature header
      (null when absent) and the decoded `event` key (null when absent). */
  datatype Notification = Notification(body: string, signature: Option<string>, event: Option<Event>)

  const ChargeFailed := "charge:failed"
  const ChargeDelayed := "charge:delayed"
  const ChargeConfirmed := "charge:confirmed"

  /** What the `switch` on the event type does to the payment. */
  datatype Action = MarkFailed | MarkCompleted | MarkAuthorization

  /** The event-type policy of lines 119-157. */
  function EventAction(eventType: string): (a: Action)
    ensures a == MarkFailed <==> eventType in {ChargeFailed, ChargeDelayed}
    ensures a == MarkCompleted <==> eventType == ChargeConfirmed
    ensures a == MarkAuthorization <==> eventType !in {ChargeFailed, ChargeDelayed, ChargeConfirmed}
  {
    if eventType == ChargeFailed || eventType == ChargeDelayed then MarkFailed
    else if eventType == ChargeConfirmed then MarkCompleted
    else MarkAuthorization
  }

  /** The payment state each action sets. */
  function ActionState(a: Action): string
  {
    match a
    case MarkFailed => Failed
    case MarkCompleted => Completed
    case MarkAuthorization => Authorization
  }

  /** `load_gateway_configuration`: the `configuration` of the gateway, or null. */
  function LoadGatewayConfiguration(gateways: map<string, Config>, gateway: string): Option<Config>
  {
    Get(gateways, gateway)
  }

  /** The payment lines 103-117 work on: the first stored one whose remote id
      is the charge id, or else a new one in state `new` for the order's
      total, gateway and id, not yet stored. */
  function FindOrCreate(payments: seq<Transaction>, charge: Charge, order: Order): (r: Target)
    ensures r.slot.Some? ==>
      && r.slot.value < |payments|
      && r.payment == payments[r.slot.value]
      && r.payment.remoteId == charge.id
      && forall i | 0 <= i < r.slot.value :: payments[i].remoteId != charge.id
    ensures r.slot.None? ==>
      && (forall i | 0 <= i < |payments| :: payments[i].remoteId != charge.id)
      && r.payment == Transaction(New, None, Some(order.total), order.id, charge.id, order.gateway)
  {
    match FirstWhere(payments, RemoteIdIs(charge.id))
    case Some(i) => Target(Some(i), payments[i])
    case None => Target(None, Transaction(New, None, Some(order.total), order.id, charge.id, order.gateway))
  }

  predicate ConfirmedWithAmount(p: ChargePayment)
  {
    Confirmed(p) && p.amount.Some?
  }

  predicate ConfirmedWithCurrency(p: ChargePayment)
  {
    Confirmed(p) && p.currency.Some?
  }

  /** The transaction id the confirmed branch logs: that of the last confirmed payment. */
  function ScannedTransactionId(ps: seq<ChargePayment>): string
  {
    match LastWhere(ps, Confirmed)
    case None => ""
    case Some(k) => ps[k].transactionId
  }

  /** The total the scan computes: the amount of the last confirmed payment that has one. */
  function ScannedTotal(ps: seq<ChargePayment>): string
  {
    match LastWhere(ps, ConfirmedWithAmount)
    case None => ""
    case Some(k) => ps[k].amount.value
  }

  /** The currency the scan computes: that of the last confirmed payment that has one. */
  function ScannedCurrency(ps: seq<ChargePayment>): string
  {
    match LastWhere(ps, ConfirmedWithCurrency)
    case None => ""
    case Some(k) => ps[k].currency.value
  }

  /** What the loop of lines 136-142 carries from one payment to the next. */
  datatype ScanState = ScanState(transactionId: string, total: string, currency: string)

  /** One iteration: a confirmed payment overwrites the transaction id, and
      the total and currency where it has them. */
  function ScanStep(s: ScanState, p: ChargePayment): ScanState
  {
    if !Confirmed(p) then s
    else ScanState(
      p.transactionId,
      if p.amount.Some? then p.amount.value else s.total,
      if p.currency.Some? then p.currency.value else s.currency)
  }

  /** The loop of lines 136-142 over all of `ps`. */
  function Scan(ps: seq<ChargePayment>): ScanState
    decreases |ps|
  {
    if ps == [] then ScanState("", "", "") else ScanStep(Scan(ps[..|ps| - 1]), ps[|ps| - 1])
  }

  /** The loop keeps the id of the last confirmed payment, and the amount and
      currency of the last confirmed payments that have them. */
  lemma {:induction false} ScanFindsLast(ps: seq<ChargePayment>)
    ensures Scan(ps) == ScanState(ScannedTransactionId(ps), ScannedTotal(ps), ScannedCurrency(ps))
    decreases |ps|
  {
    if ps != [] {
      var init := ps[..|ps| - 1];
      ScanFindsLast(init);
    }
  }

  /** The `foreach` of lines 136-142: no `break`, so every confirmed payment
      overwrites what an earlier one set, and a missing amount or currency
      keeps the previous value. */
  method ScanPayments(ps: seq<ChargePayment>) returns (transactionId: string, total: string, currency: string)
    ensures transactionId == ScannedTransactionId(ps)
    ensures total == ScannedTotal(ps)
    ensures currency == ScannedCurrency(ps)
  {
    transactionId, total, currency := "", "", "";
    var i := 0;
    while i < |ps|
      invariant 0 <= i <= |ps|
      invariant transactionId == ScannedTransactionId(ps[..i])
      invariant total == ScannedTotal(ps[..i])
      invariant currency == ScannedCurrency(ps[..i])
    {
      var payment := ps[i];
      assert ps[..i + 1][..i] == ps[..i];
      assert ps[..i + 1][i] == payment;
      LowerEqualsIsLower(payment.status, "confirmed");
      if Lower(payment.status) == "confirmed" {
        transactionId := payment.transactionId;
        total := if payment.amount.Some? then payment.amount.value else total;
        currency := if payment.currency.Some? then payment.currency.value else currency;
      }
      i := i + 1;
    }
    assert ps[..|ps|] == ps;
  }

  /** The payment after the `switch`: remote state mirrors the charge status,
      state follows the action; amount, order, remote id and gateway are kept. */
  function Marked(t: Transaction, charge: Charge, a: Action): Transaction
  {
    t.(remoteState := Some(charge.status), state := ActionState(a))
  }

  /** The result of the `switch` of lines 119-157: the marked payment, the
      order save it made (if any) and what it logged, or the error a missing
      transition raises. */
  datatype Switched =
    | Switched(payment: Transaction, orderSave: Option<Order>, log: seq<LogEntry>)
    | Crashed(error: Crash)

  function OrderWrites(save: Option<Order>): seq<Write>
  {
    match save
    case None => []
    case Some(o) => [OrderSaved(o)]
  }

  /** Lines 119-157 applied to the payment `t` found or created before. */
  function Switch(event: Event, order: Order, t: Transaction): Switched
  {
    var charge := event.data;
    var a := EventAction(event.eventType);
    var payment := Marked(t, charge, a);
    match a
    case MarkFailed =>
      // `$order_state_transitions['cancel']` is used without an isset check
      if Cancel !in order.Transitions() then Crashed(TransitionNotAllowed(Cancel))
      else Switched(payment, Some(order.Apply(Cancel)), [])
    case MarkCompleted =>
      // the workflow's `place` transition is applied without checking it is allowed
      if Place !in order.Transitions() then Crashed(TransitionNotAllowed(Place))
      else Switched(payment, Some(order.Apply(Place)), [CompletedOrder(order.id, Scan(charge.payments).transactionId)])
    case MarkAuthorization =>
      Switched(payment, None, [])
  }

  /** The switch fails exactly on a transition the order's state does not
      offer; otherwise the payment carries the charge status and the state the
      event type selects, the order is saved unless the event type is other
      than failed, delayed or confirmed, and a confirmed event logs the
      transaction id of the last confirmed payment. */
  lemma SwitchEffects(event: Event, order: Order, t: Transaction)
    ensures var r := Switch(event, order, t);
      && (r.Crashed? <==>
            || (EventAction(event.eventType) == MarkFailed && Cancel !in order.Transitions())
            || (EventAction(event.eventType) == MarkCompleted && Place !in order.Transitions()))
      && (r.Switched? ==>
            && r.payment.remoteState == Some(event.data.status)
            && r.payment.state == ActionState(EventAction(event.eventType))
            && (r.orderSave.Some? <==> EventAction(event.eventType) != MarkAuthorization))
      && (r.Switched? && EventAction(event.eventType) == MarkCompleted ==>
            r.log == [CompletedOrder(order.id, ScannedTransactionId(event.data.payments))])
      && (r.Switched? && EventAction(event.eventType) != MarkCompleted ==> r.log == [])
  {
    ScanFindsLast(event.data.payments);
  }

  /** Lines 159-165 after the switch: a crash stops everything; otherwise
      the notification is logged and the payment saved after the order. */
  function Finish(order: Order, status: string, target: Target, r: Switched): Effects
  {
    match r
    case Crashed(error) => Stop(Fatal(error), [])
    case Switched(payment, save, log) =>
      Effects(Accepted, OrderWrites(save) + [PaymentSaved(target.slot, payment)],
              log + [GotNotification(order.id, status)])
  }

  /** What lines 103-165 do once the signature is verified. */
  function Reconcile(event: Event, order: Order, payments: seq<Transaction>): Effects
  {
    var target := FindOrCreate(payments, event.data, order);
    Finish(order, event.data.status, target, Switch(event, order, target.payment))
  }

  /** The write and outcome table of lines 103-165: a transition the order's
      state does not offer is a fatal error before any write; otherwise the
      order is saved for failed, delayed and confirmed events, and exactly one
      payment save comes last, carrying the charge status and the state the
      event type selects. */
  lemma ReconcileEffects(event: Event, order: Order, payments: seq<Transaction>)
    ensures var e := Reconcile(event, order, payments);
      && (!e.outcome.Accepted? ==> e.writes == [] && e.log == [])
      && (e.outcome.Fatal? <==>
            || (EventAction(event.eventType) == MarkFailed && Cancel !in order.Transitions())
            || (EventAction(event.eventType) == MarkCompleted && Place !in order.Transitions()))
      && (e.outcome.Accepted? ==>
            && 1 <= |e.writes| <= 2
            && PaymentSaves(e.writes) == 1
            && e.writes[|e.writes| - 1].PaymentSaved?
            && e.writes[|e.writes| - 1].payment.remoteState == Some(event.data.status)
            && e.writes[|e.writes| - 1].payment.state == ActionState(EventAction(event.eventType))
            && (OrderSaves(e.writes) == 1 <==> EventAction(event.eventType) != MarkAuthorization))
  {
    var target := FindOrCreate(payments, event.data, order);
    var r := Switch(event, order, target.payment);
    SwitchEffects(event, order, target.payment);
    if r.Switched? {
      var write := PaymentSaved(target.slot, r.payment);
      AfterAppend([], map[], OrderWrites(r.orderSave), write);
      if r.orderSave.Some? {
        AfterAppend([], map[], [], OrderSaved(r.orderSave.value));
      }
    }
  }

  /** Everything `process` does for one notification. */
  function Handle(
    n: Notification,
    orders: map<string, Order>,
    payments: seq<Transaction>,
    gateways: map<string, Config>,
    sigOk: SignatureCheck): (e: Effects)
    // no `event` key: rejected before anything is loaded or written
    ensures n.event.None? ==> e == Stop(BadRequest(InvalidPayload), [])
    // a known order whose gateway has no configuration, or a failed signature check: rejected, nothing written
    ensures n.event.Some? && LoadedOrder(n, orders).Some? ==>
      var order := LoadedOrder(n, orders).value;
      && (order.gateway !in gateways ==> e == Stop(BadRequest(ConfigNotFound), [MissingConfig(order.gateway)]))
      && (order.gateway in gateways && !sigOk(n.body, n.signature, Get(gateways[order.gateway], SecretKey)) ==>
            e == Stop(BadRequest(SignatureInvalid), [BadSignature]))
    // line 74 dereferences the order before the null check of line 76: a
    // missing order is an uncaught error, and "order not found" never comes out
    ensures n.event.Some? && LoadedOrder(n, orders).None? ==> e == Stop(Fatal(NullOrder), [])
    ensures e.outcome != BadRequest(OrderNotFound)
    // every request that does not end accepted writes nothing
    ensures !e.outcome.Accepted? ==> e.writes == []
    // an accepted request ends with exactly one payment save, whose remote state is the charge status
    ensures e.outcome.Accepted? ==>
      && n.event.Some?
      && 1 <= |e.writes| <= 2
      && PaymentSaves(e.writes) == 1
      && e.writes[|e.writes| - 1].PaymentSaved?
      && e.writes[|e.writes| - 1].payment.remoteState == Some(n.event.value.data.status)
  {
    if n.event.None? then Stop(BadRequest(InvalidPayload), [])
    else
      var event := n.event.value;
      // line 74 reads the order's gateway before the null check of line 76
      match LoadedOrder(n, orders)
      case None => Stop(Fatal(NullOrder), [])
      case Some(order) =>
        match LoadGatewayConfiguration(gateways, order.gateway)
        case None => Stop(BadRequest(ConfigNotFound), [MissingConfig(order.gateway)])
        case Some(config) =>
          if !sigOk(n.body, n.signature, Get(config, SecretKey)) then
            Stop(BadRequest(SignatureInvalid), [BadSignature])
          else
            ReconcileEffects(event, order, payments);
            Reconcile(event, order, payments)
  }

  /** The order named by the charge metadata, if storage has it. */
  function LoadedOrder(n: Notification, orders: map<string, Order>): Option<Order>
    requires n.event.Some?
  {
    var orderId := MetadataParam(n.event.value.data, OrderIdKey);
    if orderId.Some? && orderId.value in orders then Some(orders[orderId.value]) else None
  }

  /** Storage after the switch's optional order save and the payment save. */
  lemma AfterSwitch(payments: seq<Transaction>, orders: map<string, Order>, save: Option<Order>, write: Write)
    requires write.PaymentSaved?
    ensures PaymentsAfter(payments, OrderWrites(save) + [write]) == SavePaymentInto(payments, write.slot, write.payment)
    ensures OrdersAfter(orders, OrderWrites(save) + [write]) == OrdersAfter(orders, OrderWrites(save))
  {
    AfterAppend(payments, orders, OrderWrites(save), write);
    if save.Some? {
      SingleWrite(payments, orders, OrderSaved(save.value));
    }
  }

  /** Lines 119-157 against storage and logger. */
  method SwitchInStorage(event: Event, order: Order, t: Transaction, storage: Storage, logger: Logger)
    returns (r: Switched)
    modifies storage, logger
    ensures r == Switch(event, order, t)
    ensures r.Crashed? ==> storage.journal == old(storage.journal) && logger.entries == old(logger.entries)
    ensures r.Crashed? ==> storage.orders == old(storage.orders) && storage.payments == old(storage.payments)
    ensures r.Switched? ==>
      && storage.journal == old(storage.journal) + OrderWrites(r.orderSave)
      && storage.orders == OrdersAfter(old(storage.orders), OrderWrites(r.orderSave))
      && storage.payments == old(storage.payments)
      && logger.entries == old(logger.entries) + r.log
  {
    var charge := event.data;
    var transaction := t;
    match EventAction(event.eventType) {
      case MarkFailed =>
        transaction := transaction.(remoteState := Some(charge.status));
        transaction := transaction.(state := Failed);
        if Cancel !in order.Transitions() {
          return Crashed(TransitionNotAllowed(Cancel));
        }
        var o := order.Apply(Cancel);
        storage.SaveOrder(o);
        AfterAppend([], old(storage.orders), [], OrderSaved(o));
        return Switched(transaction, Some(o), []);
      case MarkCompleted =>
        var transactionId, total, currency := ScanPayments(charge.payments);
        ScanFindsLast(charge.payments);
        transaction := transaction.(remoteState := Some(charge.status));
        transaction := transaction.(state := Completed);
        if Place !in order.Transitions() {
          return Crashed(TransitionNotAllowed(Place));
        }
        var o := order.Apply(Place);
        storage.SaveOrder(o);
        AfterAppend([], old(storage.orders), [], OrderSaved(o));
        logger.Log(CompletedOrder(o.id, transactionId));
        return Switched(transaction, Some(o), [CompletedOrder(o.id, transactionId)]);
      case MarkAuthorization =>
        transaction := transaction.(remoteState := Some(charge.status));
        transaction := transaction.(state := Authorization);
        return Switched(transaction, None, []);
    }
  }

  /** Lines 103-165 against storage and logger: the payment found or
      created, the switch, the log line and the payment save. */
  method ReconcileInStorage(event: Event, order: Order, storage: Storage, logger: Logger)
    returns (outcome: Outcome, target: Target, switched: Switched)
    modifies storage, logger
    ensures target == FindOrCreate(old(storage.payments), event.data, order)
    ensures switched == Switch(event, order, target.payment)
    ensures outcome == Finish(order, event.data.status, target, switched).outcome
    ensures storage.journal == old(storage.journal) + Finish(order, event.data.status, target, switched).writes
    ensures storage.payments == PaymentsAfter(old(storage.payments), Finish(order, event.data.status, target, switched).writes)
    ensures storage.orders == OrdersAfter(old(storage.orders), Finish(order, event.data.status, target, switched).writes)
    ensures logger.entries == old(logger.entries) + Finish(order, event.data.status, target, switched).log
  {
    ghost var payments0, orders0, journal0, entries0 := storage.payments, storage.orders, storage.journal, logger.entries;
    var charge := event.data;
    target := FindOrCreate(storage.payments, charge, order);
    switched := SwitchInStorage(event, order, target.payment, storage, logger);
    if switched.Crashed? {
      assert journal0 + [] == journal0;
      assert entries0 + [] == entries0;
      return Fatal(switched.error), target, switched;
    }
    logger.Log(GotNotification(order.id, charge.status));
    storage.SavePayment(target.slot, switched.payment);
    var write := PaymentSaved(target.slot, switched.payment);
    ghost var finished := Finish(order, charge.status, target, switched);
    assert finished.writes == OrderWrites(switched.orderSave) + [write];
    assert finished.log == switched.log + [GotNotification(order.id, charge.status)];
    AfterSwitch(payments0, orders0, switched.orderSave, write);
    AppendAssoc(journal0, OrderWrites(switched.orderSave), [write]);
    AppendAssoc(entries0, switched.log, [GotNotification(order.id, charge.status)]);
    return Accepted, target, switched;
  }

  /** `Ipn::process` of src/Ipn.php, with entity storage, configuration,
      logger and the signature check passed in. */
  method Process(
    n: Notification,
    storage: Storage,
    gateways: map<string, Config>,
    sigOk: SignatureCheck,
    logger: Logger) returns (outcome: Outcome)
    modifies storage, logger
    ensures
      var e := Handle(n, old(storage.orders), old(storage.payments), gateways, sigOk);
      && outcome == e.outcome
      && storage.journal == old(storage.journal) + e.writes
      && storage.payments == PaymentsAfter(old(storage.payments), e.writes)
      && storage.orders == OrdersAfter(old(storage.orders), e.writes)
      && logger.entries == old(logger.entries) + e.log
  {
    if n.event.None? {
      return BadRequest(InvalidPayload);
    }
    var event := n.event.value;
    var charge := event.data;
    var orderId := MetadataParam(charge, OrderIdKey);
    var loaded := storage.LoadOrder(orderId);
    if loaded.None? {
      // `$order->get('payment_gateway')` on null
      return Fatal(NullOrder);
    }
    var order := loaded.value;
    var paymentGateway := order.gateway;
    var config := LoadGatewayConfiguration(gateways, paymentGateway);
    if config.None? {
      logger.Log(MissingConfig(paymentGateway));
      return BadRequest(ConfigNotFound);
    }
    if !sigOk(n.body, n.signature, Get(config.value, SecretKey)) {
      logger.Log(BadSignature);
      return BadRequest(SignatureInvalid);
    }
    var target, switched;
    outcome, target, switched := ReconcileInStorage(event, order, storage, logger);
  }

  // ----- Properties across requests -----

  /** The transition an action applies to the order, if any. */
  function ActionTransition(a: Action): (r: Option<string>)
    ensures r.Some? <==> a != MarkAuthorization
    ensures r == Some(Cancel) <==> a == MarkFailed
    ensures r == Some(Place) <==> a == MarkCompleted
  {
    match a
    case MarkFailed => Some(Cancel)
    case MarkCompleted => Some(Place)
    case MarkAuthorization => None
  }

  /** An accepted reconcile upserts the marked payment at the slot it found
      and, for failed and confirmed events, stores the order moved by the
      event's transition under its id. */
  lemma ReconcileStore(event: Event, order: Order, payments: seq<Transaction>, orders: map<string, Order>)
    ensures var e := Reconcile(event, order, payments);
      var target := FindOrCreate(payments, event.data, order);
      var a := EventAction(event.eventType);
      e.outcome.Accepted? ==>
        && PaymentsAfter(payments, e.writes) == SavePaymentInto(payments, target.slot, Marked(target.payment, event.data, a))
        && (a == MarkAuthorization ==> OrdersAfter(orders, e.writes) == orders)
        && (ActionTransition(a).Some? ==>
              && ActionTransition(a).value in order.Transitions()
              && OrdersAfter(orders, e.writes) == orders[order.id := order.Apply(ActionTransition(a).value)])
  {
    var target := FindOrCreate(payments, event.data, order);
    var r := Switch(event, order, target.payment);
    if r.Switched? {
      var write := PaymentSaved(target.slot, r.payment);
      AfterAppend(payments, orders, OrderWrites(r.orderSave), write);
      if r.orderSave.Some? {
        AfterAppend(payments, orders, [], OrderSaved(r.orderSave.value));
      }
    }
  }

  /** A payment's state can move backwards: a stored `completed` payment
      that a later event of any type other than failed, delayed or confirmed
      finds by its remote id is saved again, in place, as `authorization`. */
  lemma CompletedPaymentMovesBack(event: Event, order: Order, payments: seq<Transaction>, k: nat)
    requires EventAction(event.eventType) == MarkAuthorization
    requires FirstWhere(payments, RemoteIdIs(event.data.id)) == Some(k)
    requires k < |payments| && payments[k].state == Completed
    ensures var e := Reconcile(event, order, payments);
      var after := PaymentsAfter(payments, e.writes);
      && e.outcome.Accepted?
      && |after| == |payments|
      && after[k].remoteId == event.data.id
      && after[k].state == Authorization
  {
    ReconcileStore(event, order, payments, map[]);
  }

  /** Once an accepted request has stored the payment for a charge, the first
      record carrying the charge id is the one it stored. */
  lemma ReconcileFindsOwnRecord(event: Event, order: Order, payments: seq<Transaction>, orders: map<string, Order>)
    requires Reconcile(event, order, payments).outcome.Accepted?
    ensures var e := Reconcile(event, order, payments);
      var target := FindOrCreate(payments, event.data, order);
      var after := PaymentsAfter(payments, e.writes);
      var k := FirstWhere(after, RemoteIdIs(event.data.id));
      && k.Some?
      && after[k.value] == Marked(target.payment, event.data, EventAction(event.eventType))
      && |after| == |payments| + (if target.slot.None? then 1 else 0)
  {
    var target := FindOrCreate(payments, event.data, order);
    var m := Marked(target.payment, event.data, EventAction(event.eventType));
    ReconcileStore(event, order, payments, orders);
    FirstWhereAfterSave(payments, RemoteIdIs(event.data.id), m);
  }

  /** The gates of lines 67-101 pass exactly when `Handle` reaches the reconcile step. */
  lemma HandleReconciles(
    n: Notification,
    orders: map<string, Order>,
    payments: seq<Transaction>,
    gateways: map<string, Config>,
    sigOk: SignatureCheck)
    ensures var e := Handle(n, orders, payments, gateways, sigOk);
      e.outcome.Accepted? ==>
        && n.event.Some?
        && LoadedOrder(n, orders).Some?
        && LoadedOrder(n, orders).value.gateway in gateways
        && sigOk(n.body, n.signature, Get(gateways[LoadedOrder(n, orders).value.gateway], SecretKey))
        && e == Reconcile(n.event.value, LoadedOrder(n, orders).value, payments)
    ensures var e := Handle(n, orders, payments, gateways, sigOk);
      n.event.Some? && LoadedOrder(n, orders).Some?
      && LoadedOrder(n, orders).value.gateway in gateways
      && sigOk(n.body, n.signature, Get(gateways[LoadedOrder(n, orders).value.gateway], SecretKey)) ==>
        e == Reconcile(n.event.value, LoadedOrder(n, orders).value, payments)
  {
  }

  /** Delivering the same notification twice leaves the payment records as
      the first delivery left them: the second delivery finds the record the
      first one stored and marks it the same way. */
  lemma ReplayKeepsPayments(
    n: Notification,
    orders: map<string, Order>,
    payments: seq<Transaction>,
    gateways: map<string, Config>,
    sigOk: SignatureCheck)
    ensures var e1 := Handle(n, orders, payments, gateways, sigOk);
      var payments1 := PaymentsAfter(payments, e1.writes);
      var e2 := Handle(n, OrdersAfter(orders, e1.writes), payments1, gateways, sigOk);
      PaymentsAfter(payments1, e2.writes) == payments1
  {
    var e1 := Handle(n, orders, payments, gateways, sigOk);
    var orders1, payments1 := OrdersAfter(orders, e1.writes), PaymentsAfter(payments, e1.writes);
    var e2 := Handle(n, orders1, payments1, gateways, sigOk);
    if !e1.outcome.Accepted? {
      assert e1.writes == [];
      assert e2 == e1;
      return;
    }
    if !e2.outcome.Accepted? {
      return;
    }
    HandleReconciles(n, orders, payments, gateways, sigOk);
    HandleReconciles(n, orders1, payments1, gateways, sigOk);
    var event := n.event.value;
    var order1, order2 := LoadedOrder(n, orders).value, LoadedOrder(n, orders1).value;
    ReconcileFindsOwnRecord(event, order1, payments, orders);
    var k := FirstWhere(payments1, RemoteIdIs(event.data.id)).value;
    var target2 := FindOrCreate(payments1, event.data, order2);
    assert target2 == Target(Some(k), payments1[k]);
    ReconcileStore(event, order2, payments1, orders1);
    assert payments1[k := payments1[k]] == payments1;
  }

  /** A second delivery of a failed or confirmed event loads the order the
      first delivery moved, and since lines 127 and 147 apply the transition
      without asking whether it is allowed, it fails exactly when the moved
      order's state no longer offers that transition. */
  lemma ReplayRepeatsTransition(
    n: Notification,
    orders: map<string, Order>,
    payments: seq<Transaction>,
    gateways: map<string, Config>,
    sigOk: SignatureCheck)
    requires Keyed(orders)
    requires n.event.Some? && ActionTransition(EventAction(n.event.value.eventType)).Some?
    requires Handle(n, orders, payments, gateways, sigOk).outcome.Accepted?
    ensures var e1 := Handle(n, orders, payments, gateways, sigOk);
      var e2 := Handle(n, OrdersAfter(orders, e1.writes), PaymentsAfter(payments, e1.writes), gateways, sigOk);
      var name := ActionTransition(EventAction(n.event.value.eventType)).value;
      var moved := LoadedOrder(n, orders).value.Apply(name);
      && (e2.outcome.Fatal? <==> name !in moved.Transitions())
      && (name !in moved.Transitions() ==> e2 == Stop(Fatal(TransitionNotAllowed(name)), []))
  {
    var e1 := Handle(n, orders, payments, gateways, sigOk);
    var orders1, payments1 := OrdersAfter(orders, e1.writes), PaymentsAfter(payments, e1.writes);
    HandleReconciles(n, orders, payments, gateways, sigOk);
    var event := n.event.value;
    var order := LoadedOrder(n, orders).value;
    var name := ActionTransition(EventAction(event.eventType)).value;
    ReconcileStore(event, order, payments, orders);
    var moved := order.Apply(name);
    assert orders1 == orders[order.id := moved];
    assert LoadedOrder(n, orders1) == Some(moved);
    ReconcileEffects(event, moved, payments1);
  }
}
