/** The status badge: its style class (`badgeClass` in src/lib/utils.ts) and its label
    (src/components/ui/Badge.tsx). A paid, accepted quote shows as "Paid". */
module Badge {
  import opened Domain

  /** `BADGE_CLASSES`: one class per status; `declined` borrows the `expired` style. */
  function StatusClass(status: QuoteStatus): string {
    match status
    case Accepted => "badge badge-accepted"
    case Sent => "badge badge-sent"
    case Draft => "badge badge-draft"
    case Expired => "badge badge-expired"
    case Declined => "badge badge-expired"
  }

  /** `LABELS`: one label per status. */
  function StatusLabel(status: QuoteStatus): string {
    match status
    case Accepted => "Accepted"
    case Sent => "Sent"
    case Draft => "Draft"
    case Expired => "Expired"
    case Declined => "Declined"
  }

  /** `badgeClass(status, paid)`: the paid style overrides only an accepted quote. */
  function BadgeClass(status: QuoteStatus, paid: bool): (r: string)
    ensures r == "badge badge-paid" <==> paid && status == Accepted
    ensures status != Accepted ==> r == BadgeClass(status, false)
  {
    if paid && status == Accepted then "badge badge-paid" else StatusClass(status)
  }

  /** The label `Badge` renders next to the class. */
  function Label(status: QuoteStatus, paid: bool): (r: string)
    ensures r == "Paid" <==> paid && status == Accepted
    ensures status != Accepted ==> r == Label(status, false)
  {
    if paid && status == Accepted then "Paid" else StatusLabel(status)
  }

  /** Label and style agree: the label says "Paid" exactly when the paid style is used. */
  lemma PaidLabelMatchesClass(status: QuoteStatus, paid: bool)
    ensures Label(status, paid) == "Paid" <==> BadgeClass(status, paid) == "badge badge-paid"
  {
  }

  /** A declined quote is styled like an expired one but keeps its own label. */
  lemma DeclinedLooksExpired(paid: bool)
    ensures BadgeClass(Declined, paid) == BadgeClass(Expired, paid)
    ensures Label(Declined, paid) == "Declined" != Label(Expired, paid)
  {
  }

  /** Apart from declined/expired, different statuses never share a style or label
      (the paid flag aside). */
  lemma StylesOtherwiseDistinct(a: QuoteStatus, b: QuoteStatus)
    requires a != b && {a, b} != {Declined, Expired}
    ensures StatusClass(a) != StatusClass(b)
  {
  }

  /** Labels tell every status apart. */
  lemma LabelsDistinct(a: QuoteStatus, b: QuoteStatus)
    ensures StatusLabel(a) == StatusLabel(b) <==> a == b
  {
  }
}
