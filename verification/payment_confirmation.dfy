/**
 * The payment-confirmation modal: the method's display name, which booking
 * summary it shows, the subtotal it prints and the gates on its buttons.
 */
module PaymentConfirmation {
  import opened Wrappers
  import CheckoutModal

  /** The four known method keys have display names; any other key is shown as it is. */
  function PaymentMethodName(paymentType: string): (name: string)
    ensures paymentType == "bank_transfer" ==> name == "Bank Transfer"
    ensures paymentType == "e_wallet" ==> name == "E-Wallet"
    ensures paymentType == "convenience_store" ==> name == "Convenience Store"
    ensures paymentType == "credit_card" ==> name == "Credit Card"
    ensures paymentType !in {"bank_transfer", "e_wallet", "convenience_store", "credit_card"} ==> name == paymentType
  {
    match paymentType
    case "bank_transfer" => "Bank Transfer"
    case "e_wallet" => "E-Wallet"
    case "convenience_store" => "Convenience Store"
    case "credit_card" => "Credit Card"
    case _ => paymentType
  }

  /** The ticket summary is shown only for facility "1" with a non-zero ticket count. */
  predicate TicketMode(facilityId: Option<string>, ticketCount: Option<int>)
  {
    facilityId == Some("1") && ticketCount.Some? && ticketCount.value != 0
  }

  /** The unit price: the sub-facility's hourly price, or 0 without one. */
  function UnitPrice(priceHours: Option<int>): (price: int)
    ensures priceHours.Some? ==> price == priceHours.value
    ensures priceHours.None? ==> price == 0
  {
    priceHours.GetOr(0)
  }

  /** The printed subtotal: price times tickets in ticket mode, price times chosen hours otherwise. */
  function Subtotal(priceHours: Option<int>, facilityId: Option<string>, ticketCount: Option<int>, selectedHours: nat): (subtotal: int)
    ensures TicketMode(facilityId, ticketCount) ==> subtotal == UnitPrice(priceHours) * ticketCount.value
    ensures !TicketMode(facilityId, ticketCount) ==> subtotal == UnitPrice(priceHours) * selectedHours
    ensures priceHours.None? ==> subtotal == 0
    ensures UnitPrice(priceHours) >= 0 && !TicketMode(facilityId, ticketCount) ==> subtotal >= 0
  {
    if TicketMode(facilityId, ticketCount) then UnitPrice(priceHours) * ticketCount.value
    else UnitPrice(priceHours) * selectedHours
  }

  /** The close cross, Batal and Konfirmasi are all disabled while submitting. */
  predicate ActionsEnabled(submitting: bool)
    ensures ActionsEnabled(submitting) <==> CheckoutModal.CancelEnabled(submitting)
  {
    !submitting
  }

  const ProcessingCaption := "Memproses..."
  const ConfirmPayCaption := "Konfirmasi & Bayar"

  /** Konfirmasi reads "Memproses..." exactly while its buttons are disabled. */
  function ConfirmCaption(submitting: bool): (caption: string)
    ensures caption == ProcessingCaption <==> !ActionsEnabled(submitting)
    ensures caption == ConfirmPayCaption <==> ActionsEnabled(submitting)
  {
    if submitting then ProcessingCaption else ConfirmPayCaption
  }

  /**
   * Both modals show tickets for facility "1" with a non-zero count; a zero
   * count, or another facility, still shows tickets in the checkout modal but
   * hours in the confirmation modal.
   */
  lemma SummariesAgreeOnTickets(facilityId: Option<string>, ticketCount: Option<int>, ticketTotal: Option<int>, hours: nat)
    ensures TicketMode(facilityId, ticketCount) ==> CheckoutModal.BookingSummary(ticketCount, ticketTotal, hours).TicketSummary?
    ensures ticketCount == Some(0) ==>
      && CheckoutModal.BookingSummary(ticketCount, ticketTotal, hours).TicketSummary?
      && !TicketMode(facilityId, ticketCount)
  {
  }
}
