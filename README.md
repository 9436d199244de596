# Coinbase Commerce payments for Drupal Commerce, modelled in Dafny

This project models how the Coinbase Commerce integration for Drupal Commerce
reconciles Coinbase's webhook notifications (IPN) with commerce orders and
payments. It also models the off-site gateway plugin's configuration handling
and its check when the customer returns from Coinbase.

There are two independent webhook handlers:

- **Event-type handler** (`src/Ipn.php`, module `EventIpn`). It checks that the
  payload has an `event`, loads the order named in the charge metadata and
  the `configuration` of the order's gateway, then verifies the signature. It
  finds the payment whose remote id is the charge id, or creates one in state
  `new` for the order total. The event type then decides what happens:
  - `charge:failed` and `charge:delayed` make the payment `failed` and cancel
    the order.
  - `charge:confirmed` makes the payment `completed`, places the order and
    logs the transaction id of the last confirmed payment.
  - Any other type makes the payment `authorization`.

  Every accepted request ends with exactly one payment save.
- **Timeline handler** (`commerce_coinbase_payments/src/Ipn.php`, module
  `TimelineIpn`). It checks that the payload has `event.data.id`, loads the
  order, reads the gateway's configuration and verifies the signature. It
  takes the price of the *first* confirmed payment and writes it onto the
  order's first payment, or onto a new payment; it does nothing when there is
  no confirmed payment or that payment has no currency. Then the status of
  the last timeline entry picks a transition, which is applied only when the
  order's state offers it:
  - RESOLVED and COMPLETED give `place`.
  - UNRESOLVED with context OVERPAID gives `place`.
  - CANCELED and EXPIRED give `cancel`.
- **Gateway plugin** (`CoinbasePaymentsRedirect.php`, module
  `RedirectGateway`). Its default configuration has an empty API key and an
  empty secret ahead of the parent defaults. The validate and submit form
  handlers copy exactly those two keys from the form values, each under its
  own guard. `onReturn` accepts only a charge whose last timeline status is
  COMPLETED or RESOLVED.

Module `Commerce` holds what the three share:
- the charge, order, workflow and payment data;
- first-match and last-match search;
- PHP's `strtolower`;
- the outcome of a request (accepted, rejected with HTTP 400, or an uncaught
  PHP error);
- an entity storage class that journals every save, and a logger class.

Each handler is written twice:
- as a function `Handle` from the request and the stored state to its
  `Effects` (outcome, writes in order, log entries);
- as a method `Process` over `Storage` and `Logger` that does the same steps
  one at a time.

`Process`'s postcondition ties the new storage, journal and log to `Handle`.
The properties are then proved about `Handle`: the gate table, the order of
and limits on the writes, and what a second delivery of the same
notification does.

Some of what the code does is easy to miss; the model keeps it as written:
- The timeline handler saves no payment when no confirmed payment with a
  currency exists (commerce_coinbase_payments/src/Ipn.php:119-121). So a
  verified notification does not always leave a payment behind.
- The event-type handler applies `cancel` and `place` without asking whether
  the order's state allows them (src/Ipn.php:125-128, 146-148). An illegal
  transition is therefore a fatal error, not a silent no-op. The timeline
  handler does skip it.
- The event-type handler reads the order's gateway before its null check
  (src/Ipn.php:74-76). A missing order is therefore a fatal error, and the
  "order not found" rejection can never happen (`EventIpn.Handle`).
- The event-type handler's scan has no `break` (src/Ipn.php:136-142). It
  keeps the *last* confirmed payment's data, and the amount and currency it
  computes are never used.
- Neither handler looks at the state a payment is already in, so a payment's
  state can move backwards. The event-type handler marks a stored
  `completed` payment `failed` (src/Ipn.php:123-124) or `authorization`
  (src/Ipn.php:155-156) when a later event asks for it
  (`EventIpn.CompletedPaymentMovesBack`). The timeline handler marks the
  order's first payment `completed` whatever its state, a `failed` one
  included (commerce_coinbase_payments/src/Ipn.php:139,
  `TimelineIpn.FailedPaymentCompleted`).

The signature check, the Coinbase API (for `Charge::retrieve`) and the parent class's
form submit handler are parameters of function type. The check is true when
`Webhook::verifySignature` would not throw.

## Model

| member | source | states |
|---|---|---|
| Commerce.FirstWhere | src/Ipn.php:104-107 | the index found holds the first record that satisfies the search; none is found exactly when no record satisfies it |
| Commerce.LastWhere | src/Ipn.php:136-142 | the index found holds the last element that satisfies the predicate; none is found exactly when no element does |
| Commerce.FirstWhereAfterSave | src/Ipn.php:104-117 | after a matching record is saved into the first matching slot, or appended when none matched, the first match is that record's slot |
| Commerce.LastEntryOfAppend | commerce_coinbase_payments/src/Ipn.php:86 | `end` of a timeline that ends in an entry is that entry, whatever comes before it |
| Commerce.LowerEqualsIsLower | src/Ipn.php:137 | comparing character by character after lower-casing ASCII letters is exactly `strtolower(s) === t` |
| Commerce.ConfirmedIgnoresCase | src/Ipn.php:137 | CONFIRMED and Confirmed count as confirmed; PENDING does not |
| Commerce.SavePaymentInto | src/Ipn.php:164 | saving a stored payment overwrites its slot and nothing else; saving a new one appends it and keeps every existing record |
| Commerce.AfterConcat | commerce_coinbase_payments/src/Ipn.php:85-103 | two write lists applied one after the other have the effect of their concatenation, for payments and for orders |
| Commerce.Storage.SaveOrder | src/Ipn.php:128 | the journal gains the order save, the order is stored under its id, and the payments are unchanged; `Order::load` of that id then returns the saved order, and every other id loads what it loaded before |
| Commerce.Storage.SavePayment | src/Ipn.php:164 | the journal gains the payment save, the payments are updated at the slot, and the orders are unchanged |
| EventIpn.EventAction | src/Ipn.php:119-157 | failed and delayed events mark the payment failed, a confirmed event marks it completed, and every other type marks it authorized (each in both directions) |
| EventIpn.FindOrCreate | src/Ipn.php:103-117 | the payment is the first stored one whose remote id is the charge id; or, when none has that id, a new `new` payment for the order's total, id and gateway |
| EventIpn.ScanFindsLast | src/Ipn.php:136-142 | the loop without `break` keeps the id of the last confirmed payment, and the amount and currency of the last confirmed payments that have them |
| EventIpn.ScanPayments | src/Ipn.php:132-142 | the transaction id, total and currency the loop computes are those of the last confirmed payment that has each one |
| EventIpn.SwitchEffects | src/Ipn.php:119-157 | the switch fails exactly on a failed or confirmed event whose transition the order's state does not offer; otherwise the payment carries the charge status and the event's state, the order is saved unless the event only authorizes, and a confirmed event logs the transaction id of the last confirmed payment while other events log nothing |
| EventIpn.ReconcileEffects | src/Ipn.php:103-165 | a request that is not accepted writes and logs nothing; an accepted one makes one or two writes, exactly one of them a payment save, and that save comes last with the charge status and the event's state; it saves the order exactly for non-authorizing events |
| EventIpn.Handle | src/Ipn.php:57-166 | a missing event is rejected; an order that is not stored is an uncaught error with nothing logged, so "order not found" never comes out; a gateway without configuration or a failed signature check is rejected and logged; a rejected request writes nothing; an accepted one ends with one payment save carrying the charge status |
| EventIpn.SwitchInStorage | src/Ipn.php:119-157 | the switch against storage: on a crash nothing is written or logged; otherwise the journal gains the order save if any, and the log gains the completion entry if any |
| EventIpn.ReconcileInStorage | src/Ipn.php:103-165 | returns the payment record found or created for the charge and the switch made on it; outcome, journal, payments, orders and log afterwards are the effects of finishing that switch, which `Process` ties to `Reconcile` |
| EventIpn.Process | src/Ipn.php:57-166 | outcome, journal, payments, orders and log after `process` are those of `Handle` |
| EventIpn.ActionTransition | src/Ipn.php:119-157 | failed and delayed events apply `cancel`, a confirmed event applies `place`, and any other event applies no transition (each in both directions) |
| EventIpn.ReconcileStore | src/Ipn.php:103-165 | an accepted reconcile upserts the marked payment at the slot it found; a failed or confirmed event had a legal transition and stores the moved order under its id; an authorizing event leaves the orders alone |
| EventIpn.ReconcileFindsOwnRecord | src/Ipn.php:104-117 | after an accepted request, the first record with the charge id is the payment it saved; the request added a record exactly when none had that id |
| EventIpn.CompletedPaymentMovesBack | src/Ipn.php:103-165 | a stored `completed` payment found by a later event that is neither failed, delayed nor confirmed is accepted and saved again in its slot as `authorization` |
| EventIpn.HandleReconciles | src/Ipn.php:62-165 | a request is accepted only when it has an event, a stored order, a configured gateway and a valid signature; and whenever all four hold, its effects are exactly those of the reconcile step (so, by `EventIpn.ReconcileEffects`, it is accepted with one final payment save exactly when the event's transition is legal) |
| EventIpn.ReplayKeepsPayments | src/Ipn.php:103-164 | delivering the same notification a second time leaves the payment records exactly as the first delivery left them |
| EventIpn.ReplayRepeatsTransition | src/Ipn.php:125-148 | when orders are stored under their ids, a second delivery of an accepted failed or confirmed event fails, with nothing written, exactly when the moved order's state no longer offers the transition |
| TimelineIpn.FirstConfirmedPrice | commerce_coinbase_payments/src/Ipn.php:108-117 | with no confirmed payment both results are null; otherwise they are the `strval` of the first confirmed payment's amount and its currency |
| TimelineIpn.FindByOrder | commerce_coinbase_payments/src/Ipn.php:125-135 | the payment is the first stored one of the order; or, when the order has none, a new one for the order, the charge id and the gateway |
| TimelineIpn.TransactionUpdate | commerce_coinbase_payments/src/Ipn.php:106-142 | at most one write; one exactly when the first confirmed payment has a currency; that write saves the order's payment as completed, with the last timeline status, the confirmed price and its remote id and gateway kept |
| TimelineIpn.FailedPaymentCompleted | commerce_coinbase_payments/src/Ipn.php:119-141 | when the first confirmed payment has a currency, the order's first stored payment becomes `completed` in its slot even if it was `failed` |
| TimelineIpn.UpdateTransaction | commerce_coinbase_payments/src/Ipn.php:106-142 | the journal, payments and orders after `update_transaction` are those of `TransactionUpdate` |
| TimelineIpn.OrderTransition | commerce_coinbase_payments/src/Ipn.php:144-152 | the order is saved, once, exactly when its state offers the named transition, and then as the same order with only its state changed, to that transition's target |
| TimelineIpn.ApplyOrderTransition | commerce_coinbase_payments/src/Ipn.php:144-152 | the journal, payments and orders after `apply_order_transition` are those of `OrderTransition` |
| TimelineIpn.TimelineTransition | commerce_coinbase_payments/src/Ipn.php:86-103 | `place` exactly for RESOLVED and COMPLETED, and for UNRESOLVED with context exactly OVERPAID; `cancel` exactly for CANCELED and EXPIRED; nothing else, and nothing for an empty timeline |
| TimelineIpn.Handle | commerce_coinbase_payments/src/Ipn.php:59-104 | a payload without `event.data.id` is rejected; an order that is not stored is logged and rejected; a missing gateway entity is a fatal error; a failed signature check is logged and rejected; only accepted requests write, and they log nothing |
| TimelineIpn.LoadOrder | commerce_coinbase_payments/src/Ipn.php:154-169 | `load_order` returns the stored order, and logs the requested id when there is none |
| TimelineIpn.SettleInStorage | commerce_coinbase_payments/src/Ipn.php:85-103 | journal, payments and orders after the payment update and the transition are those of `Settle` |
| TimelineIpn.Process | commerce_coinbase_payments/src/Ipn.php:59-104 | outcome, journal, payments, orders and log after `process` are those of `Handle` |
| TimelineIpn.HandleSettles | commerce_coinbase_payments/src/Ipn.php:61-85 | a request is accepted exactly when it has a charge, the order is stored, the gateway exists and the signature verifies; its writes are then those of `Settle` |
| TimelineIpn.SettleEffects | commerce_coinbase_payments/src/Ipn.php:85-103 | lines 85-103 change payments only through the payment update, and orders only by storing the moved order, which is the order with only its state changed, to the target of the transition the last timeline entry asks for |
| TimelineIpn.SettleWrites | commerce_coinbase_payments/src/Ipn.php:85-152 | at most one payment save and one order save, the payment save first; the payment is saved exactly when the first confirmed payment has a currency; the order exactly when the last timeline entry asks for a transition its state offers |
| TimelineIpn.UpdateIdempotent | commerce_coinbase_payments/src/Ipn.php:124-141 | a second payment update for the same order and charge leaves the payments exactly as the first left them |
| TimelineIpn.ReplayKeepsPayments | commerce_coinbase_payments/src/Ipn.php:59-142 | delivering the same notification a second time leaves the payment records exactly as the first delivery left them |
| TimelineIpn.ReplayAccepted | commerce_coinbase_payments/src/Ipn.php:144-152 | a second delivery of an accepted notification is accepted again: an illegal transition is skipped, never raised |
| RedirectGateway.PhpUnion | commerce_coinbase_payments/src/Plugin/Commerce/PaymentGateway/CoinbasePaymentsRedirect.php:73-76 | array `+` has the keys of both sides; the left side's value wins on a shared key |
| RedirectGateway.DefaultConfiguration | commerce_coinbase_payments/src/Plugin/Commerce/PaymentGateway/CoinbasePaymentsRedirect.php:71-77 | the API key and secret are empty even when the parent defaults set them; every other parent default is kept; no other key appears |
| RedirectGateway.WithCredentials | commerce_coinbase_payments/src/Plugin/Commerce/PaymentGateway/CoinbasePaymentsRedirect.php:87-89 | the API key and secret take the form's values; every other configuration key keeps its value; no other form value is copied |
| RedirectGateway.CoinbasePaymentsRedirect.OnReturn | commerce_coinbase_payments/src/Plugin/Commerce/PaymentGateway/CoinbasePaymentsRedirect.php:106-121 | accepted exactly when the charge is retrieved and its last timeline status is COMPLETED or RESOLVED; anything else is the exception 'Payment failed!' |
| RedirectGateway.CoinbasePaymentsRedirect.ValidateConfigurationForm | commerce_coinbase_payments/src/Plugin/Commerce/PaymentGateway/CoinbasePaymentsRedirect.php:82-91 | copies the credentials only when there is no error and the form was submitted; otherwise the configuration is unchanged |
| RedirectGateway.CoinbasePaymentsRedirect.SubmitConfigurationForm | commerce_coinbase_payments/src/Plugin/Commerce/PaymentGateway/CoinbasePaymentsRedirect.php:96-104 | after the parent handler runs, copies the credentials whenever there is no error |
| RedirectGateway.OnlyLastEntryMatters | commerce_coinbase_payments/src/Plugin/Commerce/PaymentGateway/CoinbasePaymentsRedirect.php:112-113 | timelines that end in the same entry are accepted alike, whatever comes before; acceptance depends only on that entry's status |
| RedirectGateway.PaidReturnMeansPlace | commerce_coinbase_payments/src/Plugin/Commerce/PaymentGateway/CoinbasePaymentsRedirect.php:113 | a charge the return check accepts is one the timeline handler places the order for |
| RedirectGateway.OverpaidPlacedButNotAccepted | commerce_coinbase_payments/src/Ipn.php:93-97 | a charge whose timeline ends in an unresolved, overpaid entry, whatever comes before, is placed by the timeline handler but rejected on return |
| RedirectGateway.CredentialsIdempotent | commerce_coinbase_payments/src/Plugin/Commerce/PaymentGateway/CoinbasePaymentsRedirect.php:99-103 | storing the same credentials a second time changes nothing |
| RedirectGateway.DefaultsThenCredentials | commerce_coinbase_payments/src/Plugin/Commerce/PaymentGateway/CoinbasePaymentsRedirect.php:71-103 | a default configuration that then takes a form's credentials holds exactly those credentials and keeps every other parent default |

## Left out

- JSON decoding and the `Charge`/`Event` resource classes: a notification is modelled already decoded. `event.data` (src/Ipn.php:69-70), the event's `type`, the charge's `id` and `status`, the charge's `payments` and `timeline` lists, a payment's transaction id and status, and a timeline entry's status are assumed present. A missing list is therefore not told apart from an empty one, although `end()` of a missing timeline (commerce_coinbase_payments/src/Ipn.php:86, 137) is not `end([])`. Only the keys the code checks with `isset`, or reads into a possibly null value, are optional.
- `Webhook::verifySignature`'s HMAC: it is a boolean parameter of the body, the signature header and the secret.
- The metadata key of the order id lives in `Coinbase/const.php`, which is not part of this model. It is modelled as `order_id` for both handlers. The signature header name is not modelled either; the header's value is an input.
- Drupal plumbing (the container, configuration factory, entity storage and logger services) is modelled by the `Storage` and `Logger` classes. Log messages are reduced to their placeholders.
- `Order::load`, `loadByProperties`, `create` and `save` act on in-memory maps and sequences. `loadByProperties` is taken to return records in storage order, and a created payment to take the next slot.
- The first parameter of `onReturn` that matters is the order's `charge_id` data. `ApiClient::init` and `Charge::retrieve` together form one parameter, which returns the timeline or a failure.
- The controllers, both `CoinbaseForm.php` redirect forms and `buildConfigurationForm`: these are pages, forms and an outbound API call, outside the reconciliation logic.
- The client-id metadata of src/Ipn.php: it only appears in a log message on a path that cannot be reached.
- Concurrency between webhook deliveries: each request is modelled as running alone.
- Configurations are maps from strings to strings. PHP arrays also keep key order and hold non-string values, which the model does not.
- EventIpn.Handle: a failed or confirmed event whose transition the order's state does not offer is modelled as an uncaught error. This relies on commerce's `StateItem::applyTransition` refusing a transition not allowed from the current state, and on a missing `cancel` key yielding null; neither is shown in the repository.
- Commerce.Order.Apply: a transition's target is taken from the current state's transition list. The workflow's own `place` transition (src/Ipn.php:146) is assumed to lead to the same state.
- EventIpn.FindOrCreate: the order total is assumed non-null. A new payment's `setState('new')` (src/Ipn.php:116) is folded into its creation.
- TimelineIpn.FindByOrder: a payment created without an explicit state is given `new`. The field is overwritten by `completed` before the save, so it never shows.
- RedirectGateway.CoinbasePaymentsRedirect.ValidateConfigurationForm, RedirectGateway.CoinbasePaymentsRedirect.SubmitConfigurationForm: both require the form values to hold `api_key` and `secret_key` whenever the guard holds. The configuration form always has both fields, and the model has no null configuration value for a missing one.
- RedirectGateway.CoinbasePaymentsRedirect.ValidateConfigurationForm: the parent class's validate handler is modelled only through the form's error flag. The parent does not touch the configuration.
- Commerce.Lower: `strtolower` is modelled for ASCII letters only, as it behaves in the C locale (and in every locale from PHP 8.2 on); locale-dependent case mapping of older PHP versions is not modelled.
- TimelineIpn.TransactionUpdate: the argument checks of commerce's `Price` constructor (commerce_coinbase_payments/src/Ipn.php:123) are not modelled. `Price` is not part of this model; it refuses a non-numeric amount, such as the empty string that `strval(null)` gives for a confirmed payment without an amount, and the real handler then ends with an uncaught error and no payment save or order transition. The model saves the payment with that amount instead.
