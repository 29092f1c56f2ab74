/**
 Payment-provider events as the webhook handler reads them, and the
 extraction of a donor name and amount from the two event types it handles.
 The payload is untyped JSON, so every field the handler reads may be absent;
 optional chaining (`a?.b`) and `||` fallbacks are spelled out.
 */
module Events {
  import opened Js
  import DonorLog

  datatype CustomerDetails = CustomerDetails(name: Option<string>)

  datatype BillingDetails = BillingDetails(name: Option<string>, email: Option<string>)

  datatype Charge = Charge(billingDetails: Option<BillingDetails>, amount: NumberField)

  /** `pi.charges`: a list object whose `data` array may itself be absent. */
  datatype ChargeList = ChargeList(data: Option<seq<Charge>>)

  /**
   `event.data.object`, reduced to the fields the handler reads: those of a
   checkout session (`customer_details`, `customer_email`, `amount_total`) and
   those of a payment intent (`charges`, `amount`). Amounts are in minor units.
   */
  datatype EventObject = EventObject(
    customerDetails: Option<CustomerDetails>,
    customerEmail: Option<string>,
    amountTotal: NumberField,
    charges: Option<ChargeList>,
    amount: NumberField)

  /** A verified event: its type tag and its payload object. */
  datatype Event = Event(eventType: string, payload: EventObject)

  const CheckoutSessionCompleted := "checkout.session.completed"
  const PaymentIntentSucceeded := "payment_intent.succeeded"

  /** What a handled event contributes to the donor log, before defaulting. */
  datatype Donation = Donation(name: string, amount: Amount)

  /** `session.customer_details?.name` */
  function CustomerName(session: EventObject): Option<string>
  {
    match session.customerDetails
    case None => None
    case Some(d) => d.name
  }

  /** Name of a completed checkout session: customer name, else email, else "Anonymous". */
  function CheckoutName(session: EventObject): (r: string)
    ensures Truthy(CustomerName(session)) ==> r == CustomerName(session).value
    ensures !Truthy(CustomerName(session)) && Truthy(session.customerEmail) ==>
              r == session.customerEmail.value
    ensures !Truthy(CustomerName(session)) && !Truthy(session.customerEmail) ==> r == DonorLog.Anonymous
  {
    var cands := [CustomerName(session), session.customerEmail];
    assert cands[0] == CustomerName(session) && cands[1] == session.customerEmail;
    FirstTruthy(cands, DonorLog.Anonymous)
  }

  /** Amount of a completed checkout session: `amount_total / 100` when truthy, else undefined. */
  function CheckoutAmount(session: EventObject): (r: Amount)
    ensures r != NaN
    ensures r.Major? <==> TruthyNumber(session.amountTotal)
    ensures r.Major? ==> r.cents == session.amountTotal.n
  {
    if TruthyNumber(session.amountTotal) then Major(session.amountTotal.n) else Undefined
  }

  /**
   `pi.charges && pi.charges.data && pi.charges.data[0]`: the first charge,
   absent when the list, its array, or its first element is missing.
   */
  function FirstCharge(pi: EventObject): (r: Option<Charge>)
    ensures r.Some? <==>
              pi.charges.Some? && pi.charges.value.data.Some? && |pi.charges.value.data.value| > 0
    ensures r.Some? ==> r.value == pi.charges.value.data.value[0]
  {
    match pi.charges
    case None => None
    case Some(list) =>
      match list.data
      case None => None
      case Some(data) => if |data| == 0 then None else Some(data[0])
  }

  /** `charge?.billing_details?.name` */
  function BillingName(charge: Option<Charge>): Option<string>
  {
    if charge.Some? && charge.value.billingDetails.Some? then charge.value.billingDetails.value.name
    else None
  }

  /** `charge?.billing_details?.email` */
  function BillingEmail(charge: Option<Charge>): Option<string>
  {
    if charge.Some? && charge.value.billingDetails.Some? then charge.value.billingDetails.value.email
    else None
  }

  /** `charge?.amount` */
  function ChargeAmount(charge: Option<Charge>): NumberField
  {
    if charge.Some? then charge.value.amount else Absent
  }

  /** Name of a succeeded payment intent: first charge's billing name, else its email, else "Anonymous". */
  function IntentName(pi: EventObject): (r: string)
    ensures Truthy(BillingName(FirstCharge(pi))) ==> r == BillingName(FirstCharge(pi)).value
    ensures !Truthy(BillingName(FirstCharge(pi))) && Truthy(BillingEmail(FirstCharge(pi))) ==>
              r == BillingEmail(FirstCharge(pi)).value
    ensures !Truthy(BillingName(FirstCharge(pi))) && !Truthy(BillingEmail(FirstCharge(pi))) ==>
              r == DonorLog.Anonymous
  {
    var charge := FirstCharge(pi);
    var cands := [BillingName(charge), BillingEmail(charge)];
    assert cands[0] == BillingName(charge) && cands[1] == BillingEmail(charge);
    FirstTruthy(cands, DonorLog.Anonymous)
  }

  /**
   Amount of a succeeded payment intent: `(charge?.amount || pi.amount) / 100`.
   The charge amount wins when truthy; otherwise the intent amount is used:
   when it is absent the division gives NaN, when it is `null` it gives 0.
   */
  function IntentAmount(pi: EventObject): (r: Amount)
    ensures r != Undefined
    ensures TruthyNumber(ChargeAmount(FirstCharge(pi))) ==>
              r == Major(ChargeAmount(FirstCharge(pi)).n)
    ensures !TruthyNumber(ChargeAmount(FirstCharge(pi))) ==>
              (r == NaN <==> pi.amount.Absent?) &&
              (pi.amount.Null? ==> r == Major(0)) &&
              (pi.amount.Num? ==> r == Major(pi.amount.n))
  {
    var chargeAmount := ChargeAmount(FirstCharge(pi));
    Hundredths(if TruthyNumber(chargeAmount) then chargeAmount else pi.amount)
  }

  /**
   The `switch (event.type)`: the donation a verified event carries, or
   nothing for every type other than the two handled ones.
   */
  function DonationOf(e: Event): (r: Option<Donation>)
    ensures r.Some? <==> e.eventType == CheckoutSessionCompleted || e.eventType == PaymentIntentSucceeded
    ensures e.eventType == CheckoutSessionCompleted ==>
              r == Some(Donation(CheckoutName(e.payload), CheckoutAmount(e.payload)))
    ensures e.eventType == PaymentIntentSucceeded ==>
              r == Some(Donation(IntentName(e.payload), IntentAmount(e.payload)))
    ensures r.Some? ==> r.value.name != ""
  {
    if e.eventType == CheckoutSessionCompleted then
      Some(Donation(CheckoutName(e.payload), CheckoutAmount(e.payload)))
    else if e.eventType == PaymentIntentSucceeded then
      Some(Donation(IntentName(e.payload), IntentAmount(e.payload)))
    else
      None
  }

  /**
   A payment intent with no truthy charge amount and no intent amount gives
   NaN, which `amount || 0` turns into a stored amount of 0.
   */
  lemma IntentWithoutAmountStoresZero(pi: EventObject)
    requires !TruthyNumber(ChargeAmount(FirstCharge(pi))) && pi.amount.Absent?
    ensures IntentAmount(pi) == NaN
    ensures AmountOrZero(IntentAmount(pi)) == 0
  {
  }

  /**
   The stored amount of a completed checkout session is `amount_total` when it
   is a number, and 0 when it is absent or `null` (a zero total also stores 0).
   */
  lemma CheckoutStoredAmount(session: EventObject)
    ensures AmountOrZero(CheckoutAmount(session)) ==
              if session.amountTotal.Num? then session.amountTotal.n else 0
  {
  }

  /**
   The stored amount of a succeeded payment intent is the charge amount when
   it is non-zero, else the intent amount when it is a number, else 0.
   */
  lemma IntentStoredAmount(pi: EventObject)
    ensures AmountOrZero(IntentAmount(pi)) ==
              if TruthyNumber(ChargeAmount(FirstCharge(pi))) then ChargeAmount(FirstCharge(pi)).n
              else if pi.amount.Num? then pi.amount.n
              else 0
  {
  }
}
