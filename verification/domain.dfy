/** The records the application exchanges with its API, reduced to the fields the
    modelled logic reads or writes. */
module Domain {
  import opened Wrappers

  /** The closed set of quote statuses. */
  datatype QuoteStatus = Draft | Sent | Accepted | Expired | Declined {
    /** The status as it travels over the wire and appears in filter tabs. */
    function Name(): string {
      match this
      case Draft => "draft"
      case Sent => "sent"
      case Accepted => "accepted"
      case Expired => "expired"
      case Declined => "declined"
    }
  }

  /** Status names are distinct, so comparing names compares statuses. */
  lemma StatusNameInjective(a: QuoteStatus, b: QuoteStatus)
    ensures a.Name() == b.Name() <==> a == b
  {
  }

  /** Delivery channels for sending a quote. */
  datatype SendChannel = Email | WhatsApp | Link {
    function Name(): string {
      match this
      case Email => "email"
      case WhatsApp => "whatsapp"
      case Link => "link"
    }
  }

  /** The four toast styles (`ToastType`). */
  datatype ToastType = SuccessToast | InfoToast | WarningToast | DefaultToast {
    function Name(): string {
      match this
      case SuccessToast => "success"
      case InfoToast => "info"
      case WarningToast => "warning"
      case DefaultToast => "default"
    }
  }

  /** A toast as a handler requests it: message and style (duration left to the queue). */
  datatype ToastRequest = ToastRequest(message: string, kind: ToastType)

  /** One priced row of a quote as the builder edits it. */
  datatype LineItem = LineItem(description: string, quantity: real, unitPrice: real)

  /** A client of the freelancer. */
  datatype Client = Client(
    id: string, name: string, company: string, email: string,
    phone: string, address: string, notes: string)

  /** A quote as listed, previewed or viewed publicly. Fields the source marks optional
      (`accepted_by_name?`, `paid_at?`, `client?`) are `Option`s. */
  datatype Quote = Quote(
    id: string,
    quoteNumber: string,
    title: string,
    status: QuoteStatus,
    currency: string,
    subtotal: real,
    taxRate: real,
    taxExempt: bool,
    taxAmount: real,
    total: real,
    validityDays: int,
    requireSignature: bool,
    shareToken: string,
    acceptedByName: Option<string>,
    paidAt: Option<string>,
    client: Option<Client>)

  /** What a rejected promise carries: an `Error` (with the API's machine code, when the
      envelope had one) or some other thrown value. */
  datatype Thrown = ErrorValue(code: Option<string>, message: string) | OtherValue

  /** `e instanceof Error ? e.message : fallback`, the idiom every handler uses. */
  function MessageOr(e: Thrown, fallback: string): (r: string)
    ensures e.ErrorValue? ==> r == e.message
    ensures e.OtherValue? ==> r == fallback
  {
    if e.ErrorValue? then e.message else fallback
  }

  /** `e.code === c`: only an `Error` carrying exactly that code qualifies. */
  predicate HasCode(e: Thrown, c: string) {
    e.ErrorValue? && e.code == Some(c)
  }

  /** A JavaScript string is truthy exactly when it is non-empty. */
  predicate Truthy(s: string) {
    |s| > 0
  }

  /** An optional string is truthy when present and non-empty. */
  predicate TruthyOpt(s: Option<string>) {
    s.Some? && |s.value| > 0
  }
}
