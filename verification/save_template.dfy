/** The save-as-template dialog (src/components/modals/SaveAsTemplateModal.tsx): a name that
    is trimmed before saving. Its handler has no `catch`, so a failed save propagates to the
    caller after the `finally` has run. */
module SaveTemplate {
  import opened Wrappers
  import opened Domain
  import opened Text

  /** The dialog's state. */
  datatype Dialog = Dialog(name: string, saving: bool)

  /** What a save does: the dialog afterwards, the name handed to `onSave` (none when the
      call is skipped), whether the dialog asked to close, and the error that escapes. */
  datatype SaveRun = SaveRun(dialog: Dialog, saved: Option<string>, closed: bool, escaped: Option<Thrown>)

  /** `handleSave`. */
  function HandleSave(d: Dialog, outcome: Result<(), Thrown>): (r: SaveRun)
    ensures IsBlank(d.name) ==> r == SaveRun(d, None, false, None)
    ensures !IsBlank(d.name) ==>
      && r.saved == Some(Trim(d.name)) && r.saved.value != ""
      && !r.dialog.saving
      && (r.closed <==> outcome.Success?)
      && (outcome.Success? ==> r.dialog.name == "" && r.escaped.None?)
      && (outcome.Failure? ==> r.dialog.name == d.name && r.escaped == Some(outcome.error))
  {
    if IsBlank(d.name) then SaveRun(d, None, false, None)
    else match outcome
      case Success(_) => SaveRun(Dialog("", false), Some(Trim(d.name)), true, None)
      case Failure(e) => SaveRun(d.(saving := false), Some(Trim(d.name)), false, Some(e))
  }

  /** The Save button is disabled while saving or while the name is blank. */
  predicate SaveDisabled(d: Dialog) {
    d.saving || IsBlank(d.name)
  }

  /** An enabled button always leads to a call, and the saved name is already trimmed, so
      saving it again would send the same name. */
  lemma EnabledButtonSaves(d: Dialog, outcome: Result<(), Thrown>)
    requires !SaveDisabled(d)
    ensures var r := HandleSave(d, outcome);
      r.saved.Some? && HandleSave(Dialog(r.saved.value, false), outcome).saved == r.saved
  {
    TrimIdempotent(d.name);
  }
}
