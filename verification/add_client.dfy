/** The add-client dialog (src/components/modals/AddClientModal.tsx): a six-field form, the
    two required fields, and what a save does to the form. The save itself is the caller's
    and its outcome is an input. */
module AddClient {
  import opened Wrappers
  import opened Domain
  import opened Text

  /** `CreateClientRequest`: every field is text. */
  datatype ClientForm = ClientForm(name: string, company: string, email: string, phone: string,
                                   address: string, notes: string)

  /** `EMPTY`. */
  const Empty: ClientForm := ClientForm("", "", "", "", "", "")

  /** The keys `set` accepts. */
  datatype Key = NameKey | CompanyKey | EmailKey | PhoneKey | AddressKey | NotesKey

  /** The field a key names. */
  function Get(f: ClientForm, k: Key): string {
    match k
    case NameKey => f.name
    case CompanyKey => f.company
    case EmailKey => f.email
    case PhoneKey => f.phone
    case AddressKey => f.address
    case NotesKey => f.notes
  }

  /** `set(key, val)`: the named field takes the value and no other field changes. */
  function Set(f: ClientForm, k: Key, v: string): (r: ClientForm)
    ensures Get(r, k) == v
    ensures forall j :: j != k ==> Get(r, j) == Get(f, j)
  {
    match k
    case NameKey => f.(name := v)
    case CompanyKey => f.(company := v)
    case EmailKey => f.(email := v)
    case PhoneKey => f.(phone := v)
    case AddressKey => f.(address := v)
    case NotesKey => f.(notes := v)
  }

  /** Setting a field back to what it held changes nothing, and setting it twice keeps the
      second value only. */
  lemma SetLaws(f: ClientForm, k: Key, v: string, w: string)
    ensures Set(f, k, Get(f, k)) == f
    ensures Set(Set(f, k, v), k, w) == Set(f, k, w)
  {
  }

  /** The messages under the two required inputs. */
  datatype Errors = Errors(name: Option<string>, email: Option<string>)

  const NoErrors: Errors := Errors(None, None)

  /** `validate`: the errors to show, and whether the form may be saved. */
  function Validate(f: ClientForm): (r: (Errors, bool))
    ensures r.0.name.Some? <==> IsBlank(f.name)
    ensures r.0.email.Some? <==> IsBlank(f.email)
    ensures r.1 <==> r.0 == NoErrors
    ensures r.1 <==> !IsBlank(f.name) && !IsBlank(f.email)
  {
    var errs := Errors(if IsBlank(f.name) then Some("Name is required") else None,
                       if IsBlank(f.email) then Some("Email is required") else None);
    (errs, errs == NoErrors)
  }

  /** There is no format check on the email: a name and an email that each start with a
      non-space character pass, even when the email has no `@`. */
  lemma NoEmailFormatCheck(f: ClientForm)
    requires |f.name| > 0 && !IsSpace(f.name[0])
    requires |f.email| > 0 && !IsSpace(f.email[0]) && '@' !in f.email
    ensures Validate(f).1
  {
    BlankIffAllSpace(f.name);
    BlankIffAllSpace(f.email);
  }

  /** The dialog's state. */
  datatype Dialog = Dialog(form: ClientForm, loading: bool, errors: Errors)

  /** What a click on Save does: the dialog afterwards, the form handed to `onSave` (none
      when validation fails), whether the dialog asked to close, and the error reported. */
  datatype SaveRun = SaveRun(dialog: Dialog, saved: Option<ClientForm>, closed: bool, error: Option<string>)

  /** `handleSave`. Success clears the form and the errors and closes; failure keeps the
      form for another try and reports the error. */
  function HandleSave(d: Dialog, outcome: Result<(), Thrown>): (r: SaveRun)
    ensures r.dialog.errors == Validate(d.form).0
    ensures r.saved.Some? <==> Validate(d.form).1
    ensures r.saved.Some? ==> r.saved.value == d.form
    ensures r.saved.None? ==> r.dialog == d.(errors := r.dialog.errors) && !r.closed && r.error.None?
    ensures r.saved.Some? && outcome.Success? ==> r.dialog == Dialog(Empty, false, NoErrors) && r.closed && r.error.None?
    ensures r.saved.Some? && outcome.Failure? ==>
      r.dialog.form == d.form && !r.dialog.loading && !r.closed
      && r.error == Some(MessageOr(outcome.error, "Failed to add client"))
  {
    var (errs, ok) := Validate(d.form);
    if !ok then SaveRun(d.(errors := errs), None, false, None)
    else match outcome
      case Success(_) => SaveRun(Dialog(Empty, false, NoErrors), Some(d.form), true, None)
      case Failure(e) => SaveRun(d.(errors := errs, loading := false), Some(d.form), false, Some(MessageOr(e, "Failed to add client")))
  }

  /** A failed save can be retried as is: the retry sends what the failed attempt sent. */
  lemma RetryAfterFailure(d: Dialog, e: Thrown, outcome: Result<(), Thrown>)
    ensures HandleSave(HandleSave(d, Failure(e)).dialog, outcome).saved == HandleSave(d, Failure(e)).saved
  {
  }
}
