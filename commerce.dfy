/** Entities shared by both webhook (IPN) handlers and by the gateway plugin:
    the decoded Coinbase charge, the commerce order and its workflow, the local
    payment record, the outcome of one request, and in-memory stand-ins for the
    entity storage and the logger. */
module Commerce {

  datatype Option<T> = None | Some(value: T)

  function Get<K, V>(m: map<K, V>, k: K): Option<V>
  {
    if k in m then Some(m[k]) else None
  }

  /** A price as commerce keeps it: a decimal amount and a currency code, both
      opaque strings (no price arithmetic happens in the handlers). */
  datatype Money = Money(amount: string, currency: string)

  /** One entry of a charge's `payments` list; `amount` and `currency` are the
      `value.local` fields, which a payload may lack. */
  datatype ChargePayment = ChargePayment(
    status: string,
    transactionId: string,
    amount: Option<string>,
    currency: Option<string>)

  /** One entry of a charge's `timeline`; `context` is optional. */
  datatype TimelineEntry = TimelineEntry(status: string, context: Option<string>)

  /** The charge resource carried by a notification. */
  datatype Charge = Charge(
    id: string,
    status: string,
    metadata: map<string, string>,
    payments: seq<ChargePayment>,
    timeline: seq<TimelineEntry>)

  /** Metadata key under which the charge carries the commerce order id. */
  const OrderIdKey := "order_id"

  /** Key of the shared webhook secret in a gateway configuration. */
  const SecretKey := "secret_key"

  /** Key of the API key in a gateway configuration. */
  const ApiKey := "api_key"

  /** A gateway configuration (the `configuration` array of a payment gateway). */
  type Config = map<string, string>

  /** `getMetadataParam`: the metadata value under `key`, or null. */
  function MetadataParam(c: Charge, key: string): Option<string>
  {
    Get(c.metadata, key)
  }

  /** PHP's `end($list)` followed by a field read: the last element, or nothing
      (`end` of an empty list is `false`, whose fields are all null). */
  function LastEntry(timeline: seq<TimelineEntry>): (r: Option<TimelineEntry>)
    ensures r.None? <==> timeline == []
    ensures r.Some? ==> r.value == timeline[|timeline| - 1]
  {
    if timeline == [] then None else Some(timeline[|timeline| - 1])
  }

  /** A timeline that ends in `x` has `x` as its last entry, whatever comes before. */
  lemma LastEntryOfAppend(timeline: seq<TimelineEntry>, x: TimelineEntry)
    ensures LastEntry(timeline + [x]) == Some(x)
  {
  }

  /** The status of the last timeline entry, or null for an empty timeline. */
  function LastStatus(timeline: seq<TimelineEntry>): Option<string>
  {
    match LastEntry(timeline)
    case None => None
    case Some(t) => Some(t.status)
  }

  // ----- Order workflow -----

  /** For every workflow state, the transitions legal from it (name -> target state). */
  type Workflow = map<string, map<string, string>>

  const Place := "place"
  const Cancel := "cancel"

  /** A commerce order as loaded from storage. Only `state` changes. */
  datatype Order = Order(
    id: string,
    total: Money,
    gateway: string,
    workflow: Workflow,
    state: string)
  {
    /** `$order->getState()->getTransitions()`: the transitions legal from the current state. */
    function Transitions(): map<string, string>
    {
      if state in workflow then workflow[state] else map[]
    }

    /** `applyTransition`: move to the target state of a legal transition. */
    function Apply(name: string): Order
      requires name in Transitions()
    {
      this.(state := Transitions()[name])
    }
  }

  // ----- Payment records -----

  const New := "new"
  const Authorization := "authorization"
  const Completed := "completed"
  const Failed := "failed"

  /** A commerce payment entity, the local transaction record. */
  datatype Transaction = Transaction(
    state: string,
    remoteState: Option<string>,
    amount: Option<Money>,
    orderId: string,
    remoteId: string,
    gateway: string)

  function RemoteIdIs(id: string): Transaction -> bool
  {
    (t: Transaction) => t.remoteId == id
  }

  function OrderIdIs(id: string): Transaction -> bool
  {
    (t: Transaction) => t.orderId == id
  }

  // ----- Searching -----

  /** The index of the first element satisfying `p`, as `array_shift` of a
      `loadByProperties` result or a `foreach` with `break` finds it. */
  function FirstWhere<T>(xs: seq<T>, p: T -> bool): (r: Option<nat>)
    ensures r.None? <==> forall i | 0 <= i < |xs| :: !p(xs[i])
    ensures r.Some? ==> r.value < |xs| && p(xs[r.value])
    ensures r.Some? ==> forall i | 0 <= i < r.value :: !p(xs[i])
    decreases |xs|
  {
    if xs == [] then None
    else if p(xs[0]) then Some(0)
    else match FirstWhere(xs[1..], p)
      case None => None
      case Some(i) => Some(i + 1)
  }

  /** The index of the last element satisfying `p`, as a `foreach` without
      `break` that overwrites its result on every match finds it. */
  function LastWhere<T>(xs: seq<T>, p: T -> bool): (r: Option<nat>)
    ensures r.None? <==> forall i | 0 <= i < |xs| :: !p(xs[i])
    ensures r.Some? ==> r.value < |xs| && p(xs[r.value])
    ensures r.Some? ==> forall i | r.value < i < |xs| :: !p(xs[i])
    decreases |xs|
  {
    if xs == [] then None
    else if p(xs[|xs| - 1]) then Some(|xs| - 1)
    else LastWhere(xs[..|xs| - 1], p)
  }

  /** Overwriting an element that satisfies `p` at the first match, or appending
      one when there was none, makes that element the first match. */
  lemma {:induction false} FirstWhereAfterSave<T>(xs: seq<T>, p: T -> bool, x: T)
    requires p(x)
    ensures FirstWhere(xs, p).Some? ==>
      FirstWhere(xs[FirstWhere(xs, p).value := x], p) == FirstWhere(xs, p)
    ensures FirstWhere(xs, p).None? ==> FirstWhere(xs + [x], p) == Some(|xs|)
  {
    match FirstWhere(xs, p)
    case Some(i) =>
      var ys := xs[i := x];
      assert forall j | 0 <= j < i :: ys[j] == xs[j];
      assert p(ys[i]);
      var r := FirstWhere(ys, p);
      assert r.Some?;
      assert r.value == i;
    case None =>
      var ys := xs + [x];
      assert forall j | 0 <= j < |xs| :: ys[j] == xs[j];
      assert p(ys[|xs|]);
      var r := FirstWhere(ys, p);
      assert r.Some?;
      assert r.value == |xs|;
  }

  // ----- Status comparison -----

  /** The lower-case letter for an upper-case ASCII letter. */
  function Shifted(c: char): (r: char)
    requires 'A' <= c <= 'Z'
    ensures 'a' <= r <= 'z'
  {
    (c as int + 32) as char
  }

  /** `strtolower` on one character: ASCII letters only. */
  function LowerChar(c: char): char
  {
    if 'A' <= c <= 'Z' then Shifted(c) else c
  }

  /** PHP `strtolower`. */
  function Lower(s: string): string
  {
    seq(|s|, i requires 0 <= i < |s| => LowerChar(s[i]))
  }

  /** `strtolower(s) === t`, compared one character at a time. */
  predicate LowerEquals(s: string, t: string)
    decreases |s|
  {
    |s| == |t| && (s == [] || (LowerChar(s[0]) == t[0] && LowerEquals(s[1..], t[1..])))
  }

  /** The character-wise comparison is exactly equality after `strtolower`. */
  lemma {:induction false} LowerEqualsIsLower(s: string, t: string)
    ensures LowerEquals(s, t) <==> Lower(s) == t
    decreases |s|
  {
    if s != [] && |s| == |t| {
      LowerEqualsIsLower(s[1..], t[1..]);
      assert Lower(s) == [LowerChar(s[0])] + Lower(s[1..]);
      assert t == [t[0]] + t[1..];
    }
  }

  /** `strtolower($payment['status']) === 'confirmed'`. */
  predicate Confirmed(p: ChargePayment)
  {
    LowerEquals(p.status, "confirmed")
  }

  /** Upper, lower and mixed case spellings of CONFIRMED all count; other statuses do not. */
  lemma ConfirmedIgnoresCase(p: ChargePayment)
    ensures p.status == "CONFIRMED" ==> Confirmed(p)
    ensures p.status == "Confirmed" ==> Confirmed(p)
    ensures p.status == "PENDING" ==> !Confirmed(p)
  {
    LowerEqualsIsLower(p.status, "confirmed");
    var r := Lower(p.status);
    if p.status == "CONFIRMED" || p.status == "Confirmed" {
      assert r == "confirmed";
    }
    if p.status == "PENDING" {
      assert r[0] == 'p';
    }
  }

  // ----- Outcomes and effects of one notification -----

  /** Why a request was answered with HTTP 400 (`BadRequestHttpException`). */
  datatype Rejection = InvalidPayload | OrderNotFound | ConfigNotFound | SignatureInvalid

  /** An uncaught PHP error, which the framework answers with HTTP 500. */
  datatype Crash = NullOrder | NullGateway | TransitionNotAllowed(name: string)

  datatype Outcome = Accepted | BadRequest(reason: Rejection) | Fatal(error: Crash)

  /** A persisted effect: a payment saved into a storage slot (`None` for a
      newly created entity), or an order saved. */
  datatype Write = PaymentSaved(slot: Option<nat>, payment: Transaction) | OrderSaved(order: Order)

  /** What a logger call records. */
  datatype LogEntry =
    | MissingOrder(requestedId: Option<string>)
    | MissingConfig(gateway: string)
    | BadSignature
    | CompletedOrder(orderId: string, transactionId: string)
    | GotNotification(orderId: string, status: string)

  /** Everything one request does: its outcome, its writes in order, its log lines. */
  datatype Effects = Effects(outcome: Outcome, writes: seq<Write>, log: seq<LogEntry>)

  /** Effects of a request that stops before writing anything. */
  function Stop(outcome: Outcome, log: seq<LogEntry>): Effects
  {
    Effects(outcome, [], log)
  }

  function PaymentSaves(ws: seq<Write>): nat
  {
    if ws == [] then 0
    else PaymentSaves(ws[..|ws| - 1]) + (if ws[|ws| - 1].PaymentSaved? then 1 else 0)
  }

  function OrderSaves(ws: seq<Write>): nat
  {
    if ws == [] then 0
    else OrderSaves(ws[..|ws| - 1]) + (if ws[|ws| - 1].OrderSaved? then 1 else 0)
  }

  /** The payment records after saving `t`: an existing slot is overwritten,
      a new entity is appended. */
  function SavePaymentInto(payments: seq<Transaction>, slot: Option<nat>, t: Transaction): (r: seq<Transaction>)
    ensures slot.Some? && slot.value < |payments| ==>
      |r| == |payments| && r[slot.value] == t &&
      forall i | 0 <= i < |payments| && i != slot.value :: r[i] == payments[i]
    ensures !(slot.Some? && slot.value < |payments|) ==>
      |r| == |payments| + 1 && r[|payments|] == t &&
      forall i | 0 <= i < |payments| :: r[i] == payments[i]
  {
    if slot.Some? && slot.value < |payments| then payments[slot.value := t] else payments + [t]
  }

  /** The payment records after a sequence of writes. */
  function PaymentsAfter(payments: seq<Transaction>, ws: seq<Write>): seq<Transaction>
  {
    if ws == [] then payments
    else
      var before := PaymentsAfter(payments, ws[..|ws| - 1]);
      match ws[|ws| - 1]
      case PaymentSaved(slot, t) => SavePaymentInto(before, slot, t)
      case OrderSaved(_) => before
  }

  /** The orders after a sequence of writes. */
  function OrdersAfter(orders: map<string, Order>, ws: seq<Write>): map<string, Order>
  {
    if ws == [] then orders
    else
      var before := OrdersAfter(orders, ws[..|ws| - 1]);
      match ws[|ws| - 1]
      case PaymentSaved(_, _) => before
      case OrderSaved(o) => before[o.id := o]
  }

  /** Writes listed one after the other take effect one after the other. */
  lemma AfterAppend(payments: seq<Transaction>, orders: map<string, Order>, ws: seq<Write>, w: Write)
    ensures PaymentsAfter(payments, ws + [w]) ==
      if w.PaymentSaved? then SavePaymentInto(PaymentsAfter(payments, ws), w.slot, w.payment)
      else PaymentsAfter(payments, ws)
    ensures OrdersAfter(orders, ws + [w]) ==
      if w.OrderSaved? then OrdersAfter(orders, ws)[w.order.id := w.order]
      else OrdersAfter(orders, ws)
    ensures PaymentSaves(ws + [w]) == PaymentSaves(ws) + (if w.PaymentSaved? then 1 else 0)
    ensures OrderSaves(ws + [w]) == OrderSaves(ws) + (if w.OrderSaved? then 1 else 0)
  {
    assert (ws + [w])[..|ws|] == ws;
  }

  lemma AppendAssoc<T>(a: seq<T>, b: seq<T>, c: seq<T>)
    ensures (a + b) + c == a + (b + c)
  {
  }

  /** The effect of a single write. */
  lemma SingleWrite(payments: seq<Transaction>, orders: map<string, Order>, w: Write)
    ensures PaymentsAfter(payments, [w]) ==
      if w.PaymentSaved? then SavePaymentInto(payments, w.slot, w.payment) else payments
    ensures OrdersAfter(orders, [w]) ==
      if w.OrderSaved? then orders[w.order.id := w.order] else orders
    ensures PaymentSaves([w]) == (if w.PaymentSaved? then 1 else 0)
    ensures OrderSaves([w]) == (if w.OrderSaved? then 1 else 0)
  {
    AfterAppend(payments, orders, [], w);
    assert [] + [w] == [w];
  }

  /** Two write lists one after the other take effect one after the other. */
  lemma {:induction false} AfterConcat(payments: seq<Transaction>, orders: map<string, Order>, ws: seq<Write>, vs: seq<Write>)
    ensures PaymentsAfter(payments, ws + vs) == PaymentsAfter(PaymentsAfter(payments, ws), vs)
    ensures OrdersAfter(orders, ws + vs) == OrdersAfter(OrdersAfter(orders, ws), vs)
    decreases |vs|
  {
    if vs == [] {
      assert ws + vs == ws;
    } else {
      var init, v := vs[..|vs| - 1], vs[|vs| - 1];
      assert ws + vs == (ws + init) + [v];
      assert vs == init + [v];
      AfterConcat(payments, orders, ws, init);
      AfterAppend(payments, orders, ws + init, v);
      AfterAppend(PaymentsAfter(payments, ws), OrdersAfter(orders, ws), init, v);
    }
  }

  /** A payment to be saved together with the storage slot it goes to. */
  datatype Target = Target(slot: Option<nat>, payment: Transaction)

  /** Orders stored under their own id, as entity storage keeps them. */
  predicate Keyed(orders: map<string, Order>)
  {
    forall id | id in orders :: orders[id].id == id
  }

  /** Entity storage for orders and payments, with a journal of every save. */
  class Storage {
    var orders: map<string, Order>
    var payments: seq<Transaction>
    var journal: seq<Write>

    constructor (orders: map<string, Order>, payments: seq<Transaction>)
      ensures this.orders == orders && this.payments == payments && journal == []
    {
      this.orders := orders;
      this.payments := payments;
      journal := [];
    }

    /** `Order::load`. */
    function LoadOrder(id: Option<string>): (r: Option<Order>)
      reads this
      ensures r.Some? <==> id.Some? && id.value in orders
      ensures r.Some? ==> r.value == orders[id.value]
    {
      if id.Some? && id.value in orders then Some(orders[id.value]) else None
    }

    /** `$order->save()`. */
    method SaveOrder(o: Order)
      modifies this
      ensures journal == old(journal) + [OrderSaved(o)]
      ensures orders == old(orders)[o.id := o] && payments == old(payments)
      ensures LoadOrder(Some(o.id)) == Some(o)
      ensures forall id: string | id != o.id :: LoadOrder(Some(id)) == old(LoadOrder(Some(id)))
    {
      orders := orders[o.id := o];
      journal := journal + [OrderSaved(o)];
    }

    /** `$paymentStorage->save($transaction)`. */
    method SavePayment(slot: Option<nat>, t: Transaction)
      modifies this
      ensures journal == old(journal) + [PaymentSaved(slot, t)]
      ensures payments == SavePaymentInto(old(payments), slot, t) && orders == old(orders)
    {
      payments := SavePaymentInto(payments, slot, t);
      journal := journal + [PaymentSaved(slot, t)];
    }
  }

  /** The logger service: every warning and info call appends one entry. */
  class Logger {
    var entries: seq<LogEntry>

    constructor ()
      ensures entries == []
    {
      entries := [];
    }

    method Log(e: LogEntry)
      modifies this
      ensures entries == old(entries) + [e]
    {
      entries := entries + [e];
    }
  }

  /** `Webhook::verifySignature(body, header, secret)` succeeds; it belongs to the
      Coinbase library and is taken as a parameter, with null header or secret
      passed through. */
  type SignatureCheck = (string, Option<string>, Option<string>) -> bool
}
