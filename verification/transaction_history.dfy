/**
 * The status badge of the transaction history: a status, ignoring case,
 * picks one of six badge styles.
 */
module TransactionHistory {
  import opened Wrappers
  import opened Text

  datatype Badge = Success | Pending | Failure | Expired | Refund | Neutral

  /** The badge's Tailwind class list: a background, a text colour and a border colour. */
  function ClassName(b: Badge): string {
    match b
    case Success => "bg-green-100 text-green-700 border-green-400"
    case Pending => "bg-yellow-100 text-yellow-800 border-yellow-400"
    case Failure => "bg-red-100 text-red-700 border-red-400"
    case Expired => "bg-gray-200 text-gray-700 border-gray-400"
    case Refund => "bg-blue-100 text-blue-700 border-blue-400"
    case Neutral => "bg-gray-100 text-gray-700 border-gray-300"
  }

  /** The badge for a status: a missing status counts as "", and case is ignored. */
  function StatusBadge(status: Option<string>): (b: Badge)
    ensures var s := ToLower(status.GetOr(""));
      && (b == Success <==> s == "success")
      && (b == Pending <==> s == "pending")
      && (b == Failure <==> s in {"failed", "deny", "cancelled"})
      && (b == Expired <==> s == "expired")
      && (b == Refund <==> s in {"refunded", "partial_refunded"})
      && (b == Neutral <==> s !in {"success", "pending", "failed", "deny", "cancelled", "expired", "refunded", "partial_refunded"})
  {
    match ToLower(status.GetOr(""))
    case "success" => Success
    case "pending" => Pending
    case "failed" => Failure
    case "deny" => Failure
    case "cancelled" => Failure
    case "expired" => Expired
    case "refunded" => Refund
    case "partial_refunded" => Refund
    case _ => Neutral
  }

  /** No two badges share a class list. */
  lemma ClassNameInjective(a: Badge, b: Badge)
    ensures ClassName(a) == ClassName(b) ==> a == b
  {
  }

  /** `statusColor`: the class list tells exactly which badge the status gets. */
  function StatusColor(status: Option<string>): (classes: string)
    ensures forall b :: classes == ClassName(b) <==> b == StatusBadge(status)
  {
    forall b ensures ClassName(b) == ClassName(StatusBadge(status)) ==> b == StatusBadge(status) {
      ClassNameInjective(b, StatusBadge(status));
    }
    ClassName(StatusBadge(status))
  }

  /** A missing status gets the neutral badge. */
  lemma MissingStatusIsNeutral()
    ensures StatusBadge(None) == Neutral
  {
    assert ToLower("") == "";
  }

  /** Lower-casing a status first does not change its badge. */
  lemma StatusBadgeIgnoresCase(s: string)
    ensures StatusBadge(Some(s)) == StatusBadge(Some(ToLower(s)))
    ensures StatusColor(Some(s)) == StatusColor(Some(ToLower(s)))
  {
    ToLowerIdempotent(s);
  }

  /** An upper-case status from the server gets the same badge as its lower-case form. */
  lemma UpperCaseSuccess()
    ensures StatusBadge(Some("SUCCESS")) == Success
  {
    var lowered := ToLower("SUCCESS");
    assert lowered[0] == 's' && lowered[1] == 'u' && lowered[2] == 'c' && lowered[3] == 'c';
    assert lowered[4] == 'e' && lowered[5] == 's' && lowered[6] == 's';
    assert lowered == "success";
  }
}
