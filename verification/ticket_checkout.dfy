/**
 * The ticket counter of the hourly ticket checkout: the minus and plus
 * buttons with their disabled states and clamps, the booking date, the total
 * and the checkout request the button hands to its parent.
 */
module TicketCheckout {
  import opened Wrappers

  const MaxTickets := 20

  datatype Press = Minus | Plus

  /** The minus button is disabled at 0, the plus button at 20. */
  predicate PressEnabled(count: int, p: Press) {
    match p
    case Minus => count != 0
    case Plus => count != MaxTickets
  }

  /** What one press does: nothing on a disabled button; minus never goes below 0, plus never above 20. */
  function Step(count: int, p: Press): (next: int)
    ensures !PressEnabled(count, p) ==> next == count
    ensures 0 <= count <= MaxTickets ==> 0 <= next <= MaxTickets
    ensures PressEnabled(count, p) && p == Minus ==> next >= 0
    ensures PressEnabled(count, p) && p == Plus ==> next <= MaxTickets
    ensures PressEnabled(count, p) && 0 < count <= MaxTickets && p == Minus ==> next == count - 1
    ensures PressEnabled(count, p) && 0 <= count < MaxTickets && p == Plus ==> next == count + 1
  {
    if !PressEnabled(count, p) then count
    else match p
      case Minus => if count - 1 < 0 then 0 else count - 1
      case Plus => if count + 1 > MaxTickets then MaxTickets else count + 1
  }

  /** The count after a run of presses. */
  function Run(count: int, presses: seq<Press>): int
    decreases |presses|
  {
    if presses == [] then count else Run(Step(count, presses[0]), presses[1..])
  }

  /** A count that starts in [0, 20] stays there whatever is pressed. */
  lemma {:induction false} RunStaysInRange(count: int, presses: seq<Press>)
    requires 0 <= count <= MaxTickets
    ensures 0 <= Run(count, presses) <= MaxTickets
    decreases |presses|
  {
    if presses != [] {
      RunStaysInRange(Step(count, presses[0]), presses[1..]);
    }
  }

  /** Pressing plus n times from 0 gives n tickets, up to the cap of 20. */
  lemma {:induction false} PlusRun(count: int, n: nat)
    requires 0 <= count <= MaxTickets
    ensures Run(count, seq(n, _ => Plus)) == if count + n > MaxTickets then MaxTickets else count + n
    decreases n
  {
    if n > 0 {
      var presses := seq(n, _ => Plus);
      assert presses[0] == Plus && presses[1..] == seq(n - 1, _ => Plus);
      PlusRun(Step(count, Plus), n - 1);
    }
  }

  datatype TicketLine = TicketLine(time: string, count: int)
  datatype CheckoutRequest = CheckoutRequest(selected: seq<TicketLine>, total: int, bookingDate: string)

  class TicketCounter {
    /** The parent's ticket count, which this form reads and sets. */
    var ticketCount: int
    var bookingDate: string
    /** The last date handed to the parent's date callback. */
    var parentDate: Option<string>
    const pricePerTicket: int
    const hasSubFacility: bool

    /** The booking date starts at today, and a non-empty one is handed to the parent at once. */
    constructor(count: int, today: string, price: int, subFacility: bool)
      ensures ticketCount == count && bookingDate == today
      ensures parentDate == (if today != "" then Some(today) else None)
      ensures pricePerTicket == price && hasSubFacility == subFacility
    {
      ticketCount, bookingDate := count, today;
      parentDate := if today != "" then Some(today) else None;
      pricePerTicket, hasSubFacility := price, subFacility;
    }

    /** A press on minus or plus; the buttons exist only when there is a sub-facility. */
    method PressButton(p: Press)
      modifies this
      ensures ticketCount == (if hasSubFacility then Step(old(ticketCount), p) else old(ticketCount))
      ensures bookingDate == old(bookingDate) && parentDate == old(parentDate)
    {
      if hasSubFacility {
        ticketCount := Step(ticketCount, p);
      }
    }

    /** Picking a date stores it and hands it to the parent. */
    method ChangeDate(date: string)
      modifies this
      ensures bookingDate == date && parentDate == Some(date)
      ensures ticketCount == old(ticketCount)
    {
      bookingDate := date;
      parentDate := Some(date);
    }

    function Total(): int
      reads this
    {
      ticketCount * pricePerTicket
    }

    /** The checkout button is enabled with a sub-facility, a non-zero count and a date. */
    predicate CheckoutEnabled()
      reads this
    {
      hasSubFacility && ticketCount != 0 && bookingDate != ""
    }

    /** The checkout click: one untimed line of `ticketCount` tickets, their total and the date. */
    method Checkout() returns (request: Option<CheckoutRequest>)
      ensures request.Some? <==> CheckoutEnabled()
      ensures request.Some? ==> request.value.selected == [TicketLine("", ticketCount)]
      ensures request.Some? ==> request.value.total == request.value.selected[0].count * pricePerTicket
      ensures request.Some? ==> request.value.bookingDate == bookingDate && request.value.bookingDate != ""
    {
      if CheckoutEnabled() {
        request := Some(CheckoutRequest([TicketLine("", ticketCount)], Total(), bookingDate));
      } else {
        request := None;
      }
    }
  }

  /** From a count in range, an enabled checkout carries between 1 and 20 tickets. */
  lemma CheckoutCountInRange(c: TicketCounter, presses: seq<Press>, start: int)
    requires 0 <= start <= MaxTickets && c.ticketCount == Run(start, presses)
    requires c.CheckoutEnabled()
    ensures 1 <= c.ticketCount <= MaxTickets
  {
    RunStaysInRange(start, presses);
  }
}
