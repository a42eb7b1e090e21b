/** The settings page (src/pages/SettingsPage.tsx): which panel a link may open, which
    profile the panels see, how their edits accumulate, and saving. Loading and storing
    the saved profile belong to a hook outside this model; the save outcome is an input. */
module Settings {
  import opened Wrappers
  import opened Domain
  import opened Profiles

  /** The panel ids of `NAV`, in order. */
  const Panels: seq<string> := ["profile", "defaults", "templates", "tax", "billing", "account"]

  /** The `panel` query parameter selects a panel only when it names a known one. */
  function ApplyPanelParam(current: string, param: Option<string>): (r: string)
    ensures r == current || (param.Some? && r == param.value && r in Panels)
    ensures param.Some? && param.value in Panels ==> r == param.value
    ensures current in Panels ==> r in Panels
  {
    if TruthyOpt(param) && param.value in Panels then param.value else current
  }

  /** The page state. */
  datatype Page = Page(local: Option<Profile>, saving: bool)

  /** The profile the panels see: local edits, else the saved profile, else the default. */
  function Shown(local: Option<Profile>, saved: Option<Profile>): (r: Profile)
    ensures local.Some? ==> r == local.value
    ensures local.None? && saved.Some? ==> r == saved.value
    ensures local.None? && saved.None? ==> r == DefaultProfile
  {
    if local.Some? then local.value else if saved.Some? then saved.value else DefaultProfile
  }

  /** `onChange(updates)`: the update laid over the local copy, or over what is shown. */
  function OnChange(p: Page, saved: Option<Profile>, u: PartialProfile): (r: Page)
    ensures r.local == Some(Overlay(Shown(p.local, saved), u))
    ensures r.saving == p.saving
  {
    p.(local := Some(Overlay(if p.local.Some? then p.local.value else Shown(p.local, saved), u)))
  }

  /** Two edits in a row show the same profile as the two merged into one edit. */
  lemma EditsAccumulate(p: Page, saved: Option<Profile>, u: PartialProfile, v: PartialProfile)
    ensures OnChange(OnChange(p, saved, u), saved, v) == OnChange(p, saved, Compose(u, v))
  {
    OverlayCompose(Shown(p.local, saved), u, v);
  }

  /** An edit that mentions nothing still starts a local copy, equal to what was shown. */
  lemma EmptyEditKeepsShown(p: Page, saved: Option<Profile>)
    ensures Shown(OnChange(p, saved, NoChange).local, saved) == Shown(p.local, saved)
  {
  }

  /** "Save Changes" is disabled while saving, and when there are no local edits to an
      existing saved profile. */
  predicate SaveDisabled(p: Page, saved: Option<Profile>) {
    p.saving || (p.local.None? && saved.Some?)
  }

  /** `handleSave`: the profile sent, the new state and the toast. */
  function HandleSave(p: Page, saved: Option<Profile>, outcome: Result<(), Thrown>): (r: (Profile, Page, ToastRequest))
    ensures r.0 == Shown(p.local, saved)
    ensures !r.1.saving
    ensures outcome.Success? ==> r.1.local.None? && r.2 == ToastRequest("✅ Settings saved!", SuccessToast)
    ensures outcome.Failure? ==> r.1.local == p.local && r.2 == ToastRequest("Failed to save settings", WarningToast)
  {
    var toSave := if p.local.Some? then p.local.value else if saved.Some? then saved.value else DefaultProfile;
    if outcome.Success? then (toSave, Page(None, false), ToastRequest("✅ Settings saved!", SuccessToast))
    else (toSave, p.(saving := false), ToastRequest("Failed to save settings", WarningToast))
  }

  /** When the button is enabled, saving sends the edited profile or, with nothing loaded,
      the default profile; a disabled button would only have re-sent the saved one. */
  lemma WhatSaveSends(p: Page, saved: Option<Profile>, outcome: Result<(), Thrown>)
    requires !p.saving
    ensures !SaveDisabled(p, saved) ==>
      HandleSave(p, saved, outcome).0 == (if p.local.Some? then p.local.value else DefaultProfile)
    ensures SaveDisabled(p, saved) ==> HandleSave(p, saved, outcome).0 == saved.value
  {
  }

  /** After an edit, saving sends exactly the edit laid over what was shown. */
  lemma SaveAfterEdit(p: Page, saved: Option<Profile>, u: PartialProfile, outcome: Result<(), Thrown>)
    ensures var edited := OnChange(p, saved, u);
      !SaveDisabled(edited, saved) || edited.saving
    ensures HandleSave(OnChange(p, saved, u), saved, outcome).0 == Overlay(Shown(p.local, saved), u)
  {
  }
}
