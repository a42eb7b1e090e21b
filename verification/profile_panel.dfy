/** The profile panel (src/components/settings/ProfilePanel.tsx): the checks a logo file
    goes through before upload, the storage path it is written to, and the plan gating of
    brand colour and logo. Storage and authentication calls are inputs. */
module ProfilePanel {
  import opened Wrappers
  import opened Domain
  import opened Text
  import opened Profiles
  import opened Plans

  /** `ACCEPTED_TYPES`. */
  const AcceptedTypes: seq<string> := ["image/png", "image/jpeg", "image/jpg", "image/svg+xml"]

  /** `MAX_SIZE`: 2 MiB. */
  const MaxSize: int := 2 * 1024 * 1024

  /** A chosen file. */
  datatype File = File(name: string, mimeType: string, size: int)

  /** `file.name.split('.').pop() || 'png'`. */
  function Extension(name: string): (r: string)
    ensures |r| > 0 && '.' !in r
    ensures '.' !in name && name != "" ==> r == name
    ensures r != "png" ==> |r| <= |name| && name[|name| - |r|..] == r
  {
    LastPieceIsSuffix(name, '.');
    var last := LastPiece(name, '.');
    if Truthy(last) then last else "png"
  }

  /** The extension is the text after the last dot; a name ending in a dot gets "png". */
  lemma ExtensionAfterLastDot(stem: string, ext: string)
    requires '.' !in ext
    ensures Extension(stem + "." + ext) == (if ext == "" then "png" else ext)
  {
    LastPieceAfterDot(stem, ext);
  }

  /** `${user.id}/logo.${ext}`. */
  function StoragePath(userId: string, name: string): (r: string)
    ensures var folder := userId + "/logo"; |r| > |folder| && r[..|folder|] == folder
    ensures LastPiece(r, '.') == Extension(name)
  {
    var folder := userId + "/logo";
    var ext := Extension(name);
    LastPieceAfterDot(folder, ext);
    folder + "." + ext
  }

  /** The last dot-separated piece of `stem.ext` is `ext` for a dot-free `ext`. */
  lemma LastPieceAfterDot(stem: string, ext: string)
    requires '.' !in ext
    ensures LastPiece(stem + "." + ext, '.') == ext
  {
    var name := stem + "." + ext;
    LastPieceIsSuffix(name, '.');
    var p := LastPiece(name, '.');
    assert name[|name| - |ext| - 1] == '.';
    assert name[|name| - |ext|..] == ext;
  }

  /** What a file choice leads to. */
  datatype LogoOutcome =
    | NoFile
    | Rejected(message: string)
    | Uploaded(path: string, update: PartialProfile)
    | UploadFailed(path: string, message: string)

  /** The message for a file of the wrong type. */
  const WrongTypeMessage: string := "Please use PNG, JPG, or SVG (max 2MB)."

  /** `handleLogoChange`: the signed-in user's id and the upload's public URL (or error)
      are inputs. Type is checked first, then size, then the session, and only then does
      an upload happen. */
  function LogoChange(file: Option<File>, userId: Option<string>, upload: Result<string, Thrown>): (r: LogoOutcome)
    ensures file.None? <==> r == NoFile
    ensures file.Some? && file.value.mimeType !in AcceptedTypes ==> r == Rejected(WrongTypeMessage)
    ensures file.Some? && file.value.mimeType in AcceptedTypes && file.value.size > MaxSize ==>
      r == Rejected("File too large. Max 2MB.")
    ensures file.Some? && file.value.mimeType in AcceptedTypes && file.value.size <= MaxSize && userId.None? ==>
      r == Rejected("Please sign in again.")
    ensures (r.Uploaded? || r.UploadFailed?) <==>
      file.Some? && file.value.mimeType in AcceptedTypes && file.value.size <= MaxSize && userId.Some?
    ensures r.Uploaded? || r.UploadFailed? ==> r.path == StoragePath(userId.value, file.value.name)
    ensures r.Uploaded? ==> upload.Success? && r.update == NoChange.(logoUrl := Some(Some(upload.value)))
    ensures r.UploadFailed? ==> upload.Failure? && r.message == MessageOr(upload.error, "Upload failed.")
  {
    if file.None? then NoFile
    else if file.value.mimeType !in AcceptedTypes then Rejected(WrongTypeMessage)
    else if file.value.size > MaxSize then Rejected("File too large. Max 2MB.")
    else if userId.None? then Rejected("Please sign in again.")
    else
      var path := StoragePath(userId.value, file.value.name);
      match upload
      case Success(url) => Uploaded(path, NoChange.(logoUrl := Some(Some(url))))
      case Failure(e) => UploadFailed(path, MessageOr(e, "Upload failed."))
  }

  /** The size limit is inclusive: a file of exactly 2 MiB is uploaded. */
  lemma ExactlyTwoMebibytesPasses(name: string, userId: string, url: string)
    ensures LogoChange(Some(File(name, "image/png", 2097152)), Some(userId), Success(url)).Uploaded?
    ensures LogoChange(Some(File(name, "image/png", 2097153)), Some(userId), Success(url)).Rejected?
  {
  }

  /** A wrongly typed file is refused whatever its size, the session or the storage. */
  lemma TypeCheckedFirst(f: File, g: File, u1: Option<string>, u2: Option<string>,
                         up1: Result<string, Thrown>, up2: Result<string, Thrown>)
    requires f.mimeType !in AcceptedTypes && g.mimeType == f.mimeType
    ensures LogoChange(Some(f), u1, up1) == LogoChange(Some(g), u2, up2) == Rejected(WrongTypeMessage)
  {
  }

  /** `handleLogoClick`: the file picker opens unless an upload is running. */
  predicate HandleLogoClick(uploading: bool) {
    !uploading
  }

  /** A click on the logo area passes the plan gate before reaching `handleLogoClick`, so the
      picker opens only for a pro or business plan and never during an upload. */
  function LogoAreaClick(plan: Option<string>, uploading: bool): (opens: bool)
    ensures opens ==> IsPro(plan)
    ensures uploading ==> !opens
    ensures IsPro(plan) && !uploading ==> opens
  {
    IsPro(plan) && HandleLogoClick(uploading)
  }

  /** The update a brand-colour swatch click sends: none unless the plan allows it. */
  function BrandColorClick(plan: Option<string>, color: string): (r: Option<PartialProfile>)
    ensures r.Some? <==> IsPro(plan)
    ensures r.Some? ==> r.value == NoChange.(brandColor := Some(color))
  {
    if IsPro(plan) then Some(NoChange.(brandColor := Some(color))) else None
  }

  /** The update "Remove" sends: `logo_url: null`, for a pro or business plan only. */
  function RemoveLogoClick(plan: Option<string>): (r: Option<PartialProfile>)
    ensures r.Some? <==> IsPro(plan)
    ensures r.Some? ==> r.value == NoChange.(logoUrl := Some(None))
  {
    if IsPro(plan) then Some(NoChange.(logoUrl := Some(None))) else None
  }

  /** Applied to the profile, a colour click changes only the colour and a removal only
      clears the logo. */
  lemma GatedUpdatesTouchOneField(p: Profile, color: string)
    requires IsPro(p.plan)
    ensures Overlay(p, BrandColorClick(p.plan, color).value) == p.(brandColor := color)
    ensures Overlay(p, RemoveLogoClick(p.plan).value) == p.(logoUrl := None)
  {
  }

}
