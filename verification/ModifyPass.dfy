/** The page that edits an existing pass template and re-submits it as a
    multipart upload: image checks, the image slots, form validation and
    the upload it assembles. */
module ModifyPass {
  import opened Wrappers
  import opened Text
  import opened Js
  import Constants
  import opened TemplateForm
  import Api

  const MaxImageSize: nat := 5 * 1024 * 1024
  const AllowedImageTypes: seq<string> := ["image/jpeg", "image/png", "image/gif"]
  const ImageTooLarge := "Image size must be less than 5MB"
  const ImageWrongType := "Only JPEG, PNG, and GIF images are allowed"
  const UpdateFailed := "Failed to update pass template"

  /** The check a picked image must pass: `None` accepts it, otherwise the
      message to show. Size is checked before type. */
  function ValidateImage(file: File): (error: Option<string>)
    ensures error == None <==> file.size <= MaxImageSize && file.mimeType in AllowedImageTypes
    ensures file.size > MaxImageSize ==> error == Some(ImageTooLarge)
    ensures file.size <= MaxImageSize && file.mimeType !in AllowedImageTypes ==> error == Some(ImageWrongType)
  {
    if file.size > MaxImageSize then Some(ImageTooLarge)
    else if file.mimeType !in AllowedImageTypes then Some(ImageWrongType)
    else None
  }

  /** The size bound is inclusive, and an oversized file is reported as
      too large whatever its type. */
  lemma ImageSizeBoundary(name: string, mimeType: string)
    ensures ValidateImage(File(name, 5242880, "image/png")) == None
    ensures ValidateImage(File(name, 5242881, mimeType)) == Some(ImageTooLarge)
    ensures ValidateImage(File(name, 0, "image/webp")) == Some(ImageWrongType)
  {
    assert "image/png" == AllowedImageTypes[1];
  }

  /** The page state the handlers touch; image previews are not modelled. */
  datatype State = State(form: Form, location: Location, images: Api.ImageFiles,
                         error: string, success: bool, submitting: bool)

  function HandleInputChange(s: State, k: Field, v: string): (r: State)
    ensures FieldOf(r.form, k) == v && r.error == ""
    ensures forall k' :: k' != k ==> FieldOf(r.form, k') == FieldOf(s.form, k')
    ensures r.location == s.location && r.images == s.images
  {
    s.(form := WithField(s.form, k, v), error := "")
  }

  function HandleAddressSelect(s: State, latitude: JsValue, longitude: JsValue, placeId: JsValue): (r: State)
    ensures r.location == Location(latitude, longitude, placeId)
    ensures r.form == s.form && r.images == s.images && r.error == s.error
  {
    s.(location := Location(latitude, longitude, placeId))
  }

  /** A preset sets both colours; the other fields and the error stay. */
  function HandleColorPresetSelect(s: State, preset: Constants.ColorPreset): (r: State)
    ensures r.form.backgroundColor == preset.backgroundColor && r.form.foregroundColor == preset.foregroundColor
    ensures forall k :: k != BackgroundColor && k != ForegroundColor ==> FieldOf(r.form, k) == FieldOf(s.form, k)
    ensures r.location == s.location && r.images == s.images && r.error == s.error
  {
    s.(form := WithPreset(s.form, preset))
  }

  /** Picking a file for a slot (`picked` is the input's first file, if any):
      nothing picked changes nothing; a rejected file only sets the error;
      an accepted file fills that slot alone and leaves the error as it was. */
  function HandleImageChange(s: State, picked: Option<File>, slot: Api.Slot): (r: State)
    ensures picked == None ==> r == s
    ensures picked.Some? && ValidateImage(picked.value).Some? ==>
              r.images == s.images && r.error == ValidateImage(picked.value).value && r.form == s.form
    ensures picked.Some? && ValidateImage(picked.value) == None ==>
              Api.SlotOf(r.images, slot) == FileRef(picked.value) && r.error == s.error && r.form == s.form &&
              forall other :: other != slot ==> Api.SlotOf(r.images, other) == Api.SlotOf(s.images, other)
  {
    match picked
    case None => s
    case Some(file) =>
      match ValidateImage(file)
      case Some(error) => s.(error := error)
      case None => s.(images := Api.WithSlot(s.images, slot, FileRef(file)))
  }

  /** Removing an image clears that slot only. */
  function HandleRemoveImage(s: State, slot: Api.Slot): (r: State)
    ensures Api.SlotOf(r.images, slot) == Null
    ensures forall other :: other != slot ==> Api.SlotOf(r.images, other) == Api.SlotOf(s.images, other)
    ensures r.form == s.form && r.location == s.location && r.error == s.error
  {
    s.(images := Api.WithSlot(s.images, slot, Null))
  }

  /** The page's checks, in order: blank brand name, brand name shorter than
      two characters, blank address, blank promotional text. */
  function ValidateForm(f: Form): (v: Validation)
    ensures v == Valid <==>
              !IsBlank(f.brandName) && Utf16Length(f.brandName) >= 2 && !IsBlank(f.address) && !IsBlank(f.promoText)
    ensures IsBlank(f.brandName) ==> v == Invalid("Brand name is required")
    ensures !IsBlank(f.brandName) && Utf16Length(f.brandName) < 2 ==> v == Invalid("Must be at least 2 characters")
    ensures !IsBlank(f.brandName) && Utf16Length(f.brandName) >= 2 && IsBlank(f.address) ==> v == Invalid("Address is required")
  {
    assert Constants.MinLengthMessage(2) == "Must be at least 2 characters";
    CheckTemplateForm(f, "Brand name is required")
  }

  /** What the upload carries: the six template fields with the brand id
      defaulted, the pass id, the coordinates when both are truthy, then the
      images that are set. */
  function UploadEntries(f: Form, loc: Location, images: Api.ImageFiles, passId: string, now: nat): Api.FormEntries {
    TemplateFields(f, now) + [("passId", Str(passId))] + CoordinateEntries(loc) + Api.ImageEntries(images)
  }

  /** The submit handler's object building: a literal with the pass id,
      coordinates assigned onto it afterwards, then the FormData loop. */
  method AssembleUpload(f: Form, loc: Location, images: Api.ImageFiles, passId: string, now: nat)
    returns (formData: Api.FormEntries)
    ensures formData == UploadEntries(f, loc, images, passId, now)
  {
    var templateData: Entries := [
      ("brandName", Str(f.brandName)),
      ("address", Str(f.address)),
      ("promoText", Str(f.promoText)),
      ("backgroundColor", Str(f.backgroundColor)),
      ("foregroundColor", Str(f.foregroundColor)),
      ("brandId", Str(BrandIdOrDefault(f.brandId, now))),
      ("passId", Str(passId))];
    assert templateData == TemplateFields(f, now) + [("passId", Str(passId))];
    if HasCoordinates(loc) {
      PutNewKey(templateData, "latitude", loc.latitude);
      templateData := Put(templateData, "latitude", loc.latitude);
      PutNewKey(templateData, "longitude", loc.longitude);
      templateData := Put(templateData, "longitude", loc.longitude);
    }
    assert templateData == TemplateFields(f, now) + [("passId", Str(passId))] + CoordinateEntries(loc);
    Api.PresentFieldsKeepsAll(templateData);
    formData := Api.BuildTemplateFormData(templateData, images);
  }

  /** Every upload names the pass it replaces and carries a non-empty brand
      id; coordinates travel only in pairs. */
  lemma UploadCarriesIds(f: Form, loc: Location, images: Api.ImageFiles, passId: string, now: nat)
    ensures var u := UploadEntries(f, loc, images, passId, now);
            && u[5] == ("brandId", Str(BrandIdOrDefault(f.brandId, now))) && BrandIdOrDefault(f.brandId, now) != ""
            && u[6] == ("passId", Str(passId))
            && (|u| >= 9 && u[7].0 == "latitude" && u[8].0 == "longitude" <==> HasCoordinates(loc))
  {
    var u := UploadEntries(f, loc, images, passId, now);
    if !HasCoordinates(loc) && |u| >= 9 {
      assert u[7] in Api.ImageEntries(images);
    }
  }

  /** How the upload request settled: created, or thrown with `err.message`. */
  datatype SendResult = Created | Rejected(message: string)

  /** Submitting: an invalid form sets its message and sends nothing; a valid
      one sends the assembled upload, then records success or the thrown
      message (`err.message || 'Failed to update pass template'`). */
  method HandleSubmit(s: State, passId: string, now: nat, result: SendResult)
    returns (r: State, sent: Option<Api.FormEntries>)
    ensures ValidateForm(s.form) != Valid ==> sent == None && r == s.(error := ValidateForm(s.form).message)
    ensures ValidateForm(s.form) == Valid ==>
              sent == Some(UploadEntries(s.form, s.location, s.images, passId, now)) && !r.submitting &&
              r.form == s.form && r.location == s.location && r.images == s.images &&
              (result == Created ==> r.success && r.error == "") &&
              (result.Rejected? ==>
                 r.success == s.success && r.error == (if result.message != "" then result.message else UpdateFailed))
  {
    var v := ValidateForm(s.form);
    if v.Invalid? {
      r := s.(error := v.message);
      sent := None;
      return;
    }
    r := s.(submitting := true, error := "");
    var formData := AssembleUpload(s.form, s.location, s.images, passId, now);
    sent := Some(formData);
    match result {
      case Created =>
        r := r.(success := true);
      case Rejected(message) =>
        r := r.(error := if message != "" then message else UpdateFailed);
    }
    r := r.(submitting := false);
  }
}
