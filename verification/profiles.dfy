/** The business profile (`Profile` in src/types) and partial updates of it
    (`Partial<Profile>`), as the settings page merges them with object spread. */
module Profiles {
  import opened Wrappers

  /** A profile. Nullable or optional fields (`logo_url`, `plan`) are `Option`s. */
  datatype Profile = Profile(
    id: string, userId: string, businessName: string,
    profession: string, address: string, phone: string,
    emailOnQuote: string, logoUrl: Option<string>, brandColor: string,
    defaultCurrency: string, defaultValidityDays: int, defaultDeposit: string,
    defaultRevisions: string, defaultNotes: string, defaultPayment: string,
    taxType: string, taxRate: real, taxNumber: string,
    taxExemptDefault: bool, showTaxBreakdown: bool, plan: Option<string>,
    notifyAccepted: bool, notifyViewed: bool, notifyExpiring: bool,
    notifyWeekly: bool, createdAt: string, updatedAt: string)

  /** `Partial<Profile>`: `None` is a key the update does not mention. For `logo_url`,
      `Some(None)` is an explicit `null`. */
  datatype PartialProfile = PartialProfile(
    id: Option<string>, userId: Option<string>, businessName: Option<string>,
    profession: Option<string>, address: Option<string>, phone: Option<string>,
    emailOnQuote: Option<string>, logoUrl: Option<Option<string>>, brandColor: Option<string>,
    defaultCurrency: Option<string>, defaultValidityDays: Option<int>, defaultDeposit: Option<string>,
    defaultRevisions: Option<string>, defaultNotes: Option<string>, defaultPayment: Option<string>,
    taxType: Option<string>, taxRate: Option<real>, taxNumber: Option<string>,
    taxExemptDefault: Option<bool>, showTaxBreakdown: Option<bool>, plan: Option<Option<string>>,
    notifyAccepted: Option<bool>, notifyViewed: Option<bool>, notifyExpiring: Option<bool>,
    notifyWeekly: Option<bool>, createdAt: Option<string>, updatedAt: Option<string>)

  /** The update that mentions nothing. */
  const NoChange: PartialProfile := PartialProfile(
      None, None, None, None, None, None, None, None, None,
      None, None, None, None, None, None, None, None, None,
      None, None, None, None, None, None, None, None, None)

  /** One field of `{ ...p, ...u }`: the update's value when the key is present. */
  function Pick<T>(o: Option<T>, d: T): T {
    o.GetOr(d)
  }

  /** One key of `{ ...u, ...v }`: the later update wins when it mentions the key. */
  function Later<T>(a: Option<T>, b: Option<T>): Option<T> {
    if b.Some? then b else a
  }

  /** `{ ...p, ...u }`. */
  function Overlay(p: Profile, u: PartialProfile): Profile {
    Profile(
      Pick(u.id, p.id), Pick(u.userId, p.userId), Pick(u.businessName, p.businessName),
      Pick(u.profession, p.profession), Pick(u.address, p.address), Pick(u.phone, p.phone),
      Pick(u.emailOnQuote, p.emailOnQuote), Pick(u.logoUrl, p.logoUrl), Pick(u.brandColor, p.brandColor),
      Pick(u.defaultCurrency, p.defaultCurrency), Pick(u.defaultValidityDays, p.defaultValidityDays), Pick(u.defaultDeposit, p.defaultDeposit),
      Pick(u.defaultRevisions, p.defaultRevisions), Pick(u.defaultNotes, p.defaultNotes), Pick(u.defaultPayment, p.defaultPayment),
      Pick(u.taxType, p.taxType), Pick(u.taxRate, p.taxRate), Pick(u.taxNumber, p.taxNumber),
      Pick(u.taxExemptDefault, p.taxExemptDefault), Pick(u.showTaxBreakdown, p.showTaxBreakdown), Pick(u.plan, p.plan),
      Pick(u.notifyAccepted, p.notifyAccepted), Pick(u.notifyViewed, p.notifyViewed), Pick(u.notifyExpiring, p.notifyExpiring),
      Pick(u.notifyWeekly, p.notifyWeekly), Pick(u.createdAt, p.createdAt), Pick(u.updatedAt, p.updatedAt))
  }

  /** `{ ...u, ...v }`: two updates as one. */
  function Compose(u: PartialProfile, v: PartialProfile): PartialProfile {
    PartialProfile(
      Later(u.id, v.id), Later(u.userId, v.userId), Later(u.businessName, v.businessName),
      Later(u.profession, v.profession), Later(u.address, v.address), Later(u.phone, v.phone),
      Later(u.emailOnQuote, v.emailOnQuote), Later(u.logoUrl, v.logoUrl), Later(u.brandColor, v.brandColor),
      Later(u.defaultCurrency, v.defaultCurrency), Later(u.defaultValidityDays, v.defaultValidityDays), Later(u.defaultDeposit, v.defaultDeposit),
      Later(u.defaultRevisions, v.defaultRevisions), Later(u.defaultNotes, v.defaultNotes), Later(u.defaultPayment, v.defaultPayment),
      Later(u.taxType, v.taxType), Later(u.taxRate, v.taxRate), Later(u.taxNumber, v.taxNumber),
      Later(u.taxExemptDefault, v.taxExemptDefault), Later(u.showTaxBreakdown, v.showTaxBreakdown), Later(u.plan, v.plan),
      Later(u.notifyAccepted, v.notifyAccepted), Later(u.notifyViewed, v.notifyViewed), Later(u.notifyExpiring, v.notifyExpiring),
      Later(u.notifyWeekly, v.notifyWeekly), Later(u.createdAt, v.createdAt), Later(u.updatedAt, v.updatedAt))
  }

  /** The update that mentions every key with `p`'s value. */
  function Whole(p: Profile): PartialProfile {
    PartialProfile(
      Some(p.id), Some(p.userId), Some(p.businessName),
      Some(p.profession), Some(p.address), Some(p.phone),
      Some(p.emailOnQuote), Some(p.logoUrl), Some(p.brandColor),
      Some(p.defaultCurrency), Some(p.defaultValidityDays), Some(p.defaultDeposit),
      Some(p.defaultRevisions), Some(p.defaultNotes), Some(p.defaultPayment),
      Some(p.taxType), Some(p.taxRate), Some(p.taxNumber),
      Some(p.taxExemptDefault), Some(p.showTaxBreakdown), Some(p.plan),
      Some(p.notifyAccepted), Some(p.notifyViewed), Some(p.notifyExpiring),
      Some(p.notifyWeekly), Some(p.createdAt), Some(p.updatedAt))
  }

  /** An empty update changes nothing. */
  lemma OverlayNoChange(p: Profile)
    ensures Overlay(p, NoChange) == p
  {
  }

  /** Two updates in a row are their composition. */
  lemma OverlayCompose(p: Profile, u: PartialProfile, v: PartialProfile)
    ensures Overlay(Overlay(p, u), v) == Overlay(p, Compose(u, v))
  {
  }

  /** Repeating an update changes nothing more. */
  lemma OverlayIdempotent(p: Profile, u: PartialProfile)
    ensures Overlay(Overlay(p, u), u) == Overlay(p, u)
  {
  }

  /** An update of every key replaces the profile. */
  lemma OverlayWhole(p: Profile, q: Profile)
    ensures Overlay(p, Whole(q)) == q
  {
  }

  /** `DEFAULT_PROFILE`, shown before any profile is loaded. */
  const DefaultProfile: Profile := Profile(
      "", "", "", "", "",
      "", "", None, "#E85C2F", "JMD",
      14, "50% upfront", "2 rounds", "", "",
      "GCT", 15.0, "", true, true,
      Some("free"), true, true, true, false,
      "", "")
}
