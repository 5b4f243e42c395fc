/** The dedicated update page for an existing pass template: its change
    handlers, its error-collecting validation (which reads per-field
    messages the constants table does not have) and the template it sends. */
module EditPass {
  import opened Wrappers
  import opened Text
  import opened Js
  import Constants
  import opened TemplateForm
  import Api

  const UpdateFailed := "Failed to update pass template"

  datatype State = State(form: Form, location: Location, images: Api.ImageFiles,
                         error: string, success: bool, submitting: bool, updatedTemplate: JsValue)

  /** `e.target.name`/`value`: the named field changes; unlike the other
      pages, the error is left as it is. */
  function HandleInputChange(s: State, k: Field, v: string): (r: State)
    ensures FieldOf(r.form, k) == v
    ensures forall k' :: k' != k ==> FieldOf(r.form, k') == FieldOf(s.form, k')
    ensures r.location == s.location && r.images == s.images && r.error == s.error
  {
    s.(form := WithField(s.form, k, v))
  }

  /** A preset button calls `handleColorChange` (the same update as the
      input handler, keyed by a field name) for the background colour and
      then for the foreground colour: together they apply the preset and
      touch nothing else. */
  function HandlePresetClick(s: State, preset: Constants.ColorPreset): (r: State)
    ensures r.form == WithPreset(s.form, preset)
    ensures r.location == s.location && r.images == s.images && r.error == s.error
  {
    var afterBackground := HandleInputChange(s, BackgroundColor, preset.backgroundColor);
    HandleInputChange(afterBackground, ForegroundColor, preset.foregroundColor)
  }

  /** A place chosen from the map suggestions: coordinates, id and formatted address. */
  datatype Place = Place(latitude: JsValue, longitude: JsValue, placeId: JsValue, formattedAddress: string)

  /** Selecting a place replaces all three location values and the address
      field; the other form fields keep their values. */
  function HandleLocationSelect(s: State, place: Place): (r: State)
    ensures r.location == Location(place.latitude, place.longitude, place.placeId)
    ensures r.form.address == place.formattedAddress
    ensures forall k :: k != Address ==> FieldOf(r.form, k) == FieldOf(s.form, k)
    ensures r.images == s.images && r.error == s.error
  {
    s.(location := Location(place.latitude, place.longitude, place.placeId),
       form := WithField(s.form, Address, place.formattedAddress))
  }

  /** A file given for a slot is stored there; no file changes nothing. */
  function HandleImageUpload(s: State, slot: Api.Slot, file: Option<File>): (r: State)
    ensures file == None ==> r == s
    ensures file.Some? ==> Api.SlotOf(r.images, slot) == FileRef(file.value) &&
                           forall other :: other != slot ==> Api.SlotOf(r.images, other) == Api.SlotOf(s.images, other)
    ensures r.form == s.form && r.error == s.error
  {
    match file
    case None => s
    case Some(f) => s.(images := Api.WithSlot(s.images, slot, FileRef(f)))
  }

  /** What reading `ERROR_MESSAGES[field].required` yields: a text, the
      value `undefined`, or a TypeError when the entry itself is missing. */
  datatype MessageRead = ReadThrows | ReadText(text: string) | ReadUndefined

  /** The read against the real constants table: a field without an entry
      throws; a present entry is a string or a formatter function, neither
      of which has a `required` property. */
  function RequiredMessageRead(field: string): (m: MessageRead)
    ensures m == ReadThrows <==> Constants.MessageFor(field) == None
  {
    if Constants.MessageFor(field) == None then ReadThrows else ReadUndefined
  }

  /** `Array.prototype.join(', ')`: `undefined` entries render as empty text. */
  function Join(messages: seq<MessageRead>): string {
    if messages == [] then ""
    else
      var head := if messages[0].ReadText? then messages[0].text else "";
      if |messages| == 1 then head else head + ", " + Join(messages[1..])
  }

  /** How validation ends: true, false with the joined message set as the
      error, or an exception escaping before anything is set. */
  datatype Outcome = Passed | Failed(message: string) | Threw

  function FieldName(k: Field): string {
    match k
    case BrandName => "brandName"
    case Address => "address"
    case PromoText => "promoText"
    case BackgroundColor => "backgroundColor"
    case ForegroundColor => "foregroundColor"
    case BrandId => "brandId"
  }

  /** What one check pushes: nothing for a non-blank field, its message for
      a blank one, or `None` when reading the message throws. */
  function Pushed(f: Form, k: Field, read: string -> MessageRead): Option<seq<MessageRead>> {
    if !IsBlank(FieldOf(f, k)) then Some([])
    else if read(FieldName(k)) == ReadThrows then None
    else Some([read(FieldName(k))])
  }

  /** The messages of the three checks, brand name, address, promotional
      text, in that order, or `None` when one of them throws. */
  function Collect(f: Form, read: string -> MessageRead): Option<seq<MessageRead>> {
    var a := Pushed(f, BrandName, read);
    var b := Pushed(f, Address, read);
    var c := Pushed(f, PromoText, read);
    if a == None || b == None || c == None then None else Some(a.value + b.value + c.value)
  }

  /** What validation should do: throw if a blank field's message cannot be
      read, otherwise fail with every blank field's message joined, or pass. */
  function Expected(f: Form, read: string -> MessageRead): Outcome {
    match Collect(f, read)
    case None => Threw
    case Some(ms) => if ms == [] then Passed else Failed(Join(ms))
  }

  /** The validator as written: push a message per blank field, then report. */
  method ValidateForm(f: Form, read: string -> MessageRead) returns (outcome: Outcome)
    ensures outcome == Expected(f, read)
  {
    var errors: seq<MessageRead> := [];
    if IsBlank(f.brandName) {
      var m := read("brandName");
      if m == ReadThrows { return Threw; }
      errors := errors + [m];
      assert errors == [m];
    }
    ghost var a := errors;
    assert Pushed(f, BrandName, read) == Some(a);
    if IsBlank(f.address) {
      var m := read("address");
      if m == ReadThrows { return Threw; }
      errors := errors + [m];
    }
    ghost var b := errors[|a|..];
    assert errors == a + b;
    assert Pushed(f, Address, read) == Some(b);
    if IsBlank(f.promoText) {
      var m := read("promoText");
      if m == ReadThrows { return Threw; }
      errors := errors + [m];
    }
    ghost var c := errors[|a + b|..];
    assert errors == a + b + c;
    assert Pushed(f, PromoText, read) == Some(c);
    assert Collect(f, read) == Some(errors);
    if |errors| > 0 {
      return Failed(Join(errors));
    }
    return Passed;
  }

  /** With the real constants every blank checked field throws, so the
      validator never reports a message: it passes exactly when all three
      fields are non-blank, and throws otherwise. */
  lemma RealMessagesThrowOnBlank(f: Form)
    ensures Expected(f, RequiredMessageRead) == Passed <==>
              !IsBlank(f.brandName) && !IsBlank(f.address) && !IsBlank(f.promoText)
    ensures Expected(f, RequiredMessageRead) != Passed ==> Expected(f, RequiredMessageRead) == Threw
  {
    RealCheck(f, BrandName);
    RealCheck(f, Address);
    RealCheck(f, PromoText);
  }

  /** With the real constants one check pushes nothing or throws. */
  lemma RealCheck(f: Form, k: Field)
    requires k == BrandName || k == Address || k == PromoText
    ensures Pushed(f, k, RequiredMessageRead) == if IsBlank(FieldOf(f, k)) then None else Some([])
  {
    Constants.NoPerFieldMessages();
  }

  /** Had the table a readable `required` entry for each checked field, no
      check would throw: validation passes exactly when no checked field is
      blank, and otherwise fails with the message of every blank field, in
      check order (brand name, address, promotional text), joined with ", ". */
  lemma EveryFailureReported(f: Form, read: string -> MessageRead)
    requires read("brandName") != ReadThrows && read("address") != ReadThrows && read("promoText") != ReadThrows
    ensures Expected(f, read) != Threw
    ensures Expected(f, read) == Passed <==> !IsBlank(f.brandName) && !IsBlank(f.address) && !IsBlank(f.promoText)
    ensures Expected(f, read).Failed? ==>
              Expected(f, read).message ==
                Join((if IsBlank(f.brandName) then [read("brandName")] else []) +
                     (if IsBlank(f.address) then [read("address")] else []) +
                     (if IsBlank(f.promoText) then [read("promoText")] else []))
  {
    assert FieldName(BrandName) == "brandName";
    assert FieldName(Address) == "address";
    assert FieldName(PromoText) == "promoText";
  }

  /** The template sent for an update: the six fields with the brand id
      defaulted, then the coordinates when both are truthy; no pass id, which
      travels as a separate argument. */
  method BuildTemplateData(f: Form, loc: Location, now: nat) returns (templateData: Entries)
    ensures templateData == TemplateFields(f, now) + CoordinateEntries(loc)
    ensures "passId" !in Keys(templateData)
  {
    templateData := [
      ("brandName", Str(f.brandName)),
      ("address", Str(f.address)),
      ("promoText", Str(f.promoText)),
      ("backgroundColor", Str(f.backgroundColor)),
      ("foregroundColor", Str(f.foregroundColor)),
      ("brandId", Str(BrandIdOrDefault(f.brandId, now)))];
    assert templateData == TemplateFields(f, now);
    if HasCoordinates(loc) {
      PutNewKey(templateData, "latitude", loc.latitude);
      templateData := Put(templateData, "latitude", loc.latitude);
      PutNewKey(templateData, "longitude", loc.longitude);
      templateData := Put(templateData, "longitude", loc.longitude);
    }
    assert templateData == TemplateFields(f, now) + CoordinateEntries(loc);
    assert forall i :: 0 <= i < |templateData| ==> Keys(templateData)[i] != "passId";
  }

  /** The call the page makes: pass id, template object and image slots. */
  datatype UpdateRequest = UpdateRequest(passId: JsValue, templateData: Entries, images: Api.ImageFiles)

  /** How the external update call settled: with the updated template, or
      thrown with `err.message`. */
  datatype UpdateResult = Updated(template: JsValue) | Rejected(message: string)

  /** Submitting with the real constants: a blank field makes validation
      throw, so nothing changes and nothing is sent; otherwise the template
      is sent and the page records the result or the error. */
  method HandleSubmit(s: State, passId: JsValue, now: nat, result: UpdateResult)
    returns (r: State, sent: Option<UpdateRequest>)
    ensures Expected(s.form, RequiredMessageRead) == Threw ==> r == s && sent == None
    ensures Expected(s.form, RequiredMessageRead) == Passed ==>
              sent == Some(UpdateRequest(passId, TemplateFields(s.form, now) + CoordinateEntries(s.location), s.images)) &&
              !r.submitting && r.form == s.form && r.location == s.location && r.images == s.images &&
              (result.Updated? ==> r.success && r.error == "" && r.updatedTemplate == result.template) &&
              (result.Rejected? ==>
                 r.success == s.success && r.updatedTemplate == s.updatedTemplate &&
                 r.error == (if result.message != "" then result.message else UpdateFailed))
  {
    var outcome := ValidateForm(s.form, RequiredMessageRead);
    match outcome {
      case Threw =>
        return s, None;
      case Failed(message) =>
        return s.(error := message), None;
      case Passed =>
    }
    r := s.(submitting := true, error := "");
    var templateData := BuildTemplateData(s.form, s.location, now);
    sent := Some(UpdateRequest(passId, templateData, s.images));
    match result {
      case Updated(template) =>
        r := r.(updatedTemplate := template, success := true);
      case Rejected(message) =>
        r := r.(error := if message != "" then message else UpdateFailed);
    }
    r := r.(submitting := false);
  }
}
