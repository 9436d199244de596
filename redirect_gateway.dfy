/** The off-site redirect payment gateway plugin of
    commerce_coinbase_payments: its default configuration, the two
    configuration form handlers that store the API key and the webhook
    secret, and the check made when the customer returns from Coinbase. */
module RedirectGateway {
  import opened Commerce
  import TimelineIpn

  // ----- Configuration (lines 71-104) -----

  /** PHP's array union `left + right`: every key of `left` with its value,
      and the keys only `right` has with theirs. */
  function PhpUnion(left: Config, right: Config): (r: Config)
    ensures r.Keys == left.Keys + right.Keys
    ensures forall k | k in left :: r[k] == left[k]
    ensures forall k | k in right && k !in left :: r[k] == right[k]
  {
    right + left
  }

  /** `defaultConfiguration`: empty API key and secret, ahead of whatever the
      parent class defaults to, which is kept for every other key. */
  function DefaultConfiguration(parentDefaults: Config): (r: Config)
    ensures r.Keys == parentDefaults.Keys + {ApiKey, SecretKey}
    ensures r[ApiKey] == "" && r[SecretKey] == ""
    ensures forall k | k in parentDefaults && k != ApiKey && k != SecretKey :: r[k] == parentDefaults[k]
  {
    PhpUnion(map[ApiKey := "", SecretKey := ""], parentDefaults)
  }

  /** What a configuration form submission carries once the parent handler
      has run: whether any element reported an error, whether the form was
      submitted, and the values under the plugin's `#parents`. */
  datatype FormState = FormState(hasErrors: bool, submitted: bool, values: map<string, string>)

  /** Lines 87-89 and 100-102: the configuration with the API key and secret
      taken from the form values; every other key, and every other form
      value, is left alone. */
  function WithCredentials(configuration: Config, values: map<string, string>): (r: Config)
    requires ApiKey in values && SecretKey in values
    ensures r.Keys == configuration.Keys + {ApiKey, SecretKey}
    ensures r[ApiKey] == values[ApiKey] && r[SecretKey] == values[SecretKey]
    ensures forall k | k in configuration && k != ApiKey && k != SecretKey :: r[k] == configuration[k]
  {
    configuration[ApiKey := values[ApiKey]][SecretKey := values[SecretKey]]
  }

  // ----- Return from the off-site payment page (lines 106-121) -----

  /** The result of `Charge::retrieve` for the order's `charge_id` with the
      configured API key: the charge's timeline, or a failure (an exception
      from the API client). */
  datatype Retrieval = Retrieved(timeline: seq<TimelineEntry>) | RetrievalFailed

  /** The Coinbase API as seen from `onReturn`: API key and charge id in,
      retrieval out. */
  type ChargeApi = (Option<string>, Option<string>) -> Retrieval

  /** Key under which the redirect form stored the charge id on the order. */
  const ChargeIdKey := "charge_id"

  const PaymentFailedMessage := "Payment failed!"

  datatype ReturnOutcome = ReturnAccepted | PaymentGatewayException(message: string)

  /** Line 113: the last timeline status is COMPLETED or RESOLVED (an empty
      timeline has a null last status, which is neither). */
  predicate FinalStatusPaid(timeline: seq<TimelineEntry>)
  {
    LastStatus(timeline) == Some(TimelineIpn.CompletedStatus) || LastStatus(timeline) == Some(TimelineIpn.Resolved)
  }

  /** The plugin with its configuration, which the form handlers update in place. */
  class CoinbasePaymentsRedirect {
    var configuration: Config

    /** A plugin instance holding the configuration it was created with. */
    constructor (configuration: Config)
      ensures this.configuration == configuration
    {
      this.configuration := configuration;
    }

    /** `onReturn`: accepted exactly when the charge could be retrieved and
        its last timeline status is COMPLETED or RESOLVED; any other status,
        and any failure to retrieve the charge, is the same gateway
        exception. */
    function OnReturn(orderData: map<string, string>, api: ChargeApi): (r: ReturnOutcome)
      reads this
      ensures r == ReturnAccepted || r == PaymentGatewayException(PaymentFailedMessage)
      ensures r == ReturnAccepted <==>
        var retrieval := api(Get(configuration, ApiKey), Get(orderData, ChargeIdKey));
        retrieval.Retrieved? && FinalStatusPaid(retrieval.timeline)
    {
      match api(Get(configuration, ApiKey), Get(orderData, ChargeIdKey))
      case RetrievalFailed => PaymentGatewayException(PaymentFailedMessage)
      case Retrieved(timeline) =>
        var last := LastEntry(timeline);
        if last.Some? && (last.value.status == TimelineIpn.CompletedStatus || last.value.status == TimelineIpn.Resolved)
        then ReturnAccepted
        else PaymentGatewayException(PaymentFailedMessage)
    }

    /** `validateConfigurationForm`: stores the API key and secret from the
        form only when no element has an error and the form was submitted. */
    method ValidateConfigurationForm(form: FormState)
      requires !form.hasErrors && form.submitted ==> ApiKey in form.values && SecretKey in form.values
      modifies this
      ensures !form.hasErrors && form.submitted ==> configuration == WithCredentials(old(configuration), form.values)
      ensures !(!form.hasErrors && form.submitted) ==> configuration == old(configuration)
    {
      if !form.hasErrors && form.submitted {
        var values := form.values;
        configuration := configuration[ApiKey := values[ApiKey]];
        configuration := configuration[SecretKey := values[SecretKey]];
      }
    }

    /** `submitConfigurationForm`: after the parent handler updates the
        configuration, stores the API key and secret from the form whenever
        no element has an error. */
    method SubmitConfigurationForm(form: FormState, parentSubmit: Config -> Config)
      requires !form.hasErrors ==> ApiKey in form.values && SecretKey in form.values
      modifies this
      ensures !form.hasErrors ==> configuration == WithCredentials(parentSubmit(old(configuration)), form.values)
      ensures form.hasErrors ==> configuration == parentSubmit(old(configuration))
    {
      configuration := parentSubmit(configuration);
      if !form.hasErrors {
        var values := form.values;
        configuration := configuration[ApiKey := values[ApiKey]];
        configuration := configuration[SecretKey := values[SecretKey]];
      }
    }
  }

  // ----- Properties -----

  /** Only the last timeline entry decides the return check: timelines that
      end in the same entry are accepted alike, whatever came before. */
  lemma OnlyLastEntryMatters(before1: seq<TimelineEntry>, before2: seq<TimelineEntry>, last: TimelineEntry)
    ensures FinalStatusPaid(before1 + [last]) <==> FinalStatusPaid(before2 + [last])
    ensures FinalStatusPaid(before1 + [last]) <==> last.status == TimelineIpn.CompletedStatus || last.status == TimelineIpn.Resolved
  {
    LastEntryOfAppend(before1, last);
    LastEntryOfAppend(before2, last);
  }

  /** A charge the return check accepts is one the webhook handler places the
      order for. */
  lemma PaidReturnMeansPlace(timeline: seq<TimelineEntry>)
    requires FinalStatusPaid(timeline)
    ensures TimelineIpn.TimelineTransition(LastEntry(timeline)) == Some(Place)
  {
  }

  /** The converse fails: a charge whose timeline ends unresolved and
      overpaid is placed by the webhook handler but rejected when the
      customer returns, whatever the earlier entries. */
  lemma OverpaidPlacedButNotAccepted(before: seq<TimelineEntry>)
    ensures var timeline := before + [TimelineEntry(TimelineIpn.Unresolved, Some(TimelineIpn.Overpaid))];
      && TimelineIpn.TimelineTransition(LastEntry(timeline)) == Some(Place)
      && !FinalStatusPaid(timeline)
  {
    LastEntryOfAppend(before, TimelineEntry(TimelineIpn.Unresolved, Some(TimelineIpn.Overpaid)));
  }

  /** Copying the same form credentials into a configuration a second time
      changes nothing. */
  lemma CredentialsIdempotent(configuration: Config, values: map<string, string>)
    requires ApiKey in values && SecretKey in values
    ensures WithCredentials(WithCredentials(configuration, values), values) == WithCredentials(configuration, values)
  {
  }

  /** A fresh configuration that then takes a form's credentials holds exactly
      those credentials and the parent defaults otherwise. */
  lemma DefaultsThenCredentials(parentDefaults: Config, values: map<string, string>)
    requires ApiKey in values && SecretKey in values
    ensures var c := WithCredentials(DefaultConfiguration(parentDefaults), values);
      && c.Keys == parentDefaults.Keys + {ApiKey, SecretKey}
      && c[ApiKey] == values[ApiKey] && c[SecretKey] == values[SecretKey]
      && forall k | k in parentDefaults && k != ApiKey && k != SecretKey :: c[k] == parentDefaults[k]
  {
  }
}
