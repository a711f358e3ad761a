/**
 * The checkout modal: the booking summary, the payment-method list (only the
 * enabled methods), the payment-type and payment-detail choice, and the gates
 * on its two buttons.
 */
module CheckoutModal {
  import opened Wrappers

  /** The summary shows tickets when a ticket count was passed, otherwise the chosen hours. */
  datatype Summary =
    | TicketSummary(tickets: int, total: int)
    | HourSummary(hours: nat, unit: string)

  /** `hour` for one hour or none, `hours` above one. */
  function HourUnit(hours: nat): (unit: string)
    ensures unit == "hours" <==> hours > 1
    ensures unit == "hour" <==> hours <= 1
  {
    "hour" + (if hours > 1 then "s" else "")
  }

  /** A missing ticket total, or a zero one, is shown as 0. */
  function BookingSummary(ticketCount: Option<int>, ticketTotal: Option<int>, selectedHours: nat): (s: Summary)
    ensures s.TicketSummary? <==> ticketCount.Some?
    ensures s.TicketSummary? ==> s.tickets == ticketCount.value && s.total == ticketTotal.GetOr(0)
    ensures s.HourSummary? ==> s.hours == selectedHours && s.unit == HourUnit(selectedHours)
  {
    if ticketCount.Some? then TicketSummary(ticketCount.value, ticketTotal.GetOr(0))
    else HourSummary(selectedHours, HourUnit(selectedHours))
  }

  /** One payment method as the server lists it; a missing detail group is empty. */
  datatype PaymentMethod = PaymentMethod(
    name: string, enabled: bool,
    bankCodes: seq<string>, providerCodes: seq<string>, storeCodes: seq<string>)

  /** The detail codes offered under a method: its banks, then its providers, then its stores. */
  function DetailCodes(m: PaymentMethod): (codes: seq<string>)
    ensures forall c :: c in codes <==> c in m.bankCodes || c in m.providerCodes || c in m.storeCodes
  {
    m.bankCodes + m.providerCodes + m.storeCodes
  }

  /** The methods drawn, in the server's order: a disabled method is never offered. */
  function OfferedMethods(methods: seq<(string, PaymentMethod)>): (offered: seq<(string, PaymentMethod)>)
    ensures |offered| <= |methods|
    ensures forall e :: e in offered <==> e in methods && e.1.enabled
    decreases |methods|
  {
    if methods == [] then []
    else
      var rest := OfferedMethods(methods[1..]);
      assert forall e :: e in methods <==> e == methods[0] || e in methods[1..];
      if methods[0].1.enabled then [methods[0]] + rest else rest
  }

  /** Offering keeps the server's order: it distributes over concatenation. */
  lemma {:induction false} OfferedMethodsAppend(a: seq<(string, PaymentMethod)>, b: seq<(string, PaymentMethod)>)
    ensures OfferedMethods(a + b) == OfferedMethods(a) + OfferedMethods(b)
    decreases |a|
  {
    if a == [] {
      assert a + b == b;
    } else {
      assert (a + b)[0] == a[0] && (a + b)[1..] == a[1..] + b;
      OfferedMethodsAppend(a[1..], b);
    }
  }

  datatype MethodsView = LoadingMethods | Offered(methods: seq<(string, PaymentMethod)>) | LoadFailed

  /** Loading wins; a missing method list shows the failure message. */
  function PaymentMethodsView(loading: bool, methods: Option<seq<(string, PaymentMethod)>>): (v: MethodsView)
    ensures v.LoadingMethods? <==> loading
    ensures v.LoadFailed? <==> !loading && methods.None?
    ensures v.Offered? ==> methods.Some? && v.methods == OfferedMethods(methods.value)
    ensures v.Offered? ==> forall e :: e in v.methods ==> e.1.enabled
  {
    if loading then LoadingMethods
    else if methods.Some? then Offered(OfferedMethods(methods.value))
    else LoadFailed
  }

  /** The parent's payment choice, which the modal's radio buttons set. */
  class PaymentSelection {
    var paymentType: string
    var paymentDetails: string

    constructor()
      ensures paymentType == "" && paymentDetails == ""
    {
      paymentType, paymentDetails := "", "";
    }

    /** Choosing a method type clears any detail chosen under the previous one. */
    method ChooseType(key: string)
      modifies this
      ensures paymentType == key && paymentDetails == ""
    {
      paymentType := key;
      paymentDetails := "";
    }

    /** Choosing a bank, provider or store code keeps the method type. */
    method ChooseDetails(code: string)
      modifies this
      ensures paymentDetails == code && paymentType == old(paymentType)
    {
      paymentDetails := code;
    }

    /** The detail radios are drawn only under the chosen method. */
    predicate DetailsShown(key: string)
      reads this
    {
      paymentType == key
    }
  }

  /** Changing the type after a detail never leaves the old detail behind. */
  method ChooseTypeAfterDetails(s: PaymentSelection, key: string, code: string, other: string)
    modifies s
    ensures s.paymentType == other && s.paymentDetails == ""
    ensures s.DetailsShown(other) && (key != other ==> !s.DetailsShown(key))
  {
    s.ChooseType(key);
    s.ChooseDetails(code);
    s.ChooseType(other);
  }

  /** Cancel is disabled while submitting, and then so is Complete Payment whatever the form holds. */
  predicate CancelEnabled(submitting: bool)
    ensures !CancelEnabled(submitting) ==> forall f, e, p :: !SubmitEnabled(submitting, f, e, p)
  {
    !submitting
  }

  /** Complete Payment needs a first name, an email and a payment type, and no submission in flight. */
  predicate SubmitEnabled(submitting: bool, firstName: string, email: string, paymentType: string)
    ensures SubmitEnabled(submitting, firstName, email, paymentType) ==> SubmitCaption(submitting) == CompleteCaption
  {
    !(submitting || firstName == "" || email == "" || paymentType == "")
  }

  const ProcessingCaption := "Processing..."
  const CompleteCaption := "Complete Payment"

  /** The submit button reads "Processing..." exactly while a submission is in flight. */
  function SubmitCaption(submitting: bool): (caption: string)
    ensures caption == ProcessingCaption <==> submitting
    ensures caption == CompleteCaption <==> !submitting
  {
    if submitting then ProcessingCaption else CompleteCaption
  }

  /** The submit gate does not look at the payment detail: a type alone is enough. */
  lemma SubmitIgnoresDetails(firstName: string, email: string, paymentType: string)
    requires firstName != "" && email != "" && paymentType != ""
    ensures SubmitEnabled(false, firstName, email, paymentType)
    ensures !SubmitEnabled(true, firstName, email, paymentType)
    ensures !CancelEnabled(true)
  {
  }
}
