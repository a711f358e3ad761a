/**
 * The hourly booking panel: which view it shows, how a slot is marked, the
 * status notes on the selection and the submit button's gate and label.
 */
module BookingSection {
  import opened Text

  const MinHours := 2

  datatype View = LoadingTimes | Slots | NoTimes

  /** Loading wins; otherwise slots when there are any. */
  function PanelView(loadingTimes: bool, availableCount: nat): (v: View)
    ensures v == LoadingTimes <==> loadingTimes
    ensures v == Slots <==> !loadingTimes && availableCount > 0
  {
    if loadingTimes then LoadingTimes else if availableCount > 0 then Slots else NoTimes
  }

  /** A slot is drawn as selected exactly when its time is among the selected times. */
  predicate SlotSelected(time: string, selectedTimes: seq<string>)
    ensures SlotSelected(time, selectedTimes) ==> Note(|selectedTimes|) != NoNote
  {
    time in selectedTimes
  }

  datatype SelectionNote = NoNote | Confirmed | NeedMore

  /** The note under the slots and under the duration: none for no selection, a warning under two hours. */
  function Note(selectedCount: nat): (n: SelectionNote)
    ensures n == NoNote <==> selectedCount == 0
    ensures n == Confirmed <==> selectedCount >= MinHours
  {
    if selectedCount == 0 then NoNote else if selectedCount >= MinHours then Confirmed else NeedMore
  }

  const MinimumHint := " (minimal 2 jam)"

  /** The duration line: `Durasi: n jam`, with ` (minimal 2 jam)` below two hours. */
  function DurationText(selectedCount: nat): (text: string)
    ensures selectedCount >= MinHours ==> text == "Durasi: " + NatToString(selectedCount) + " jam"
    ensures selectedCount < MinHours ==> text == "Durasi: " + NatToString(selectedCount) + " jam" + MinimumHint
    ensures selectedCount < MinHours <==> |text| > |"Durasi: " + NatToString(selectedCount) + " jam"|
  {
    "Durasi: " + NatToString(selectedCount) + " jam" + (if selectedCount < MinHours then MinimumHint else "")
  }

  /** The submit button: disabled below two hours or without a date. */
  predicate SubmitEnabled(selectedCount: nat, selectedDate: string)
    ensures SubmitEnabled(selectedCount, selectedDate) ==> Note(selectedCount) == Confirmed && ButtonLabel(selectedCount) == SubmitLabel
  {
    !(selectedCount < MinHours || selectedDate == "")
  }

  const ChooseFirstLabel := "Pilih Waktu Terlebih Dahulu"
  const SubmitLabel := "Submit Payment"

  /** The button's label: what is still missing, or the submit text. */
  function ButtonLabel(selectedCount: nat): (caption: string)
    ensures selectedCount == 0 ==> caption == ChooseFirstLabel
    ensures selectedCount == 1 ==> caption == "Pilih 1 Jam Lagi (Min. 2 Jam)"
    ensures caption == SubmitLabel <==> selectedCount >= MinHours
  {
    if selectedCount == 0 then ChooseFirstLabel
    else if selectedCount < MinHours then "Pilih " + IntToString(MinHours - selectedCount) + " Jam Lagi (Min. 2 Jam)"
    else SubmitLabel
  }

  /** With a date chosen, the button reads as submit exactly when it is enabled. */
  lemma LabelMatchesGate(selectedCount: nat, selectedDate: string)
    requires selectedDate != ""
    ensures SubmitEnabled(selectedCount, selectedDate) <==> ButtonLabel(selectedCount) == SubmitLabel
    ensures SubmitEnabled(selectedCount, selectedDate) <==> Note(selectedCount) == Confirmed
  {
  }
}
