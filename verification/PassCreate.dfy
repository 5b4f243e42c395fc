/** The template creation page: its form state, change handlers, reset,
    validation and the template object it submits. */
module PassCreate {
  import opened Wrappers
  import opened Text
  import opened Js
  import Constants
  import opened TemplateForm

  datatype State = State(form: Form, location: Location, error: string, success: bool, createdTemplate: JsValue)

  const InitialState: State := State(InitialForm, InitialLocation, "", false, Null)

  /** The page's checks: a blank brand name fails with the shared "required"
      message, then the untrimmed minimum length, then blank address and
      blank promotional text, in that order. */
  function ValidateForm(f: Form): (v: Validation)
    ensures IsBlank(f.brandName) ==> v == Invalid("This field is required")
    ensures v == Valid <==>
              !IsBlank(f.brandName) && Utf16Length(f.brandName) >= 2 && !IsBlank(f.address) && !IsBlank(f.promoText)
    ensures !IsBlank(f.brandName) && Utf16Length(f.brandName) < 2 ==> v == Invalid("Must be at least 2 characters")
  {
    Constants.NoPerFieldMessages();
    assert Constants.MinLengthMessage(2) == "Must be at least 2 characters";
    CheckTemplateForm(f, Constants.RequiredMessage)
  }

  /** Typing into a field: only that field changes, and the error clears. */
  function HandleInputChange(s: State, k: Field, v: string): (r: State)
    ensures FieldOf(r.form, k) == v && r.error == ""
    ensures forall k' :: k' != k ==> FieldOf(r.form, k') == FieldOf(s.form, k')
    ensures r.location == s.location && r.success == s.success && r.createdTemplate == s.createdTemplate
  {
    s.(form := WithField(s.form, k, v), error := "")
  }

  function HandleColorPresetSelect(s: State, preset: Constants.ColorPreset): (r: State)
    ensures r.form.backgroundColor == preset.backgroundColor && r.form.foregroundColor == preset.foregroundColor
    ensures forall k :: k != BackgroundColor && k != ForegroundColor ==> FieldOf(r.form, k) == FieldOf(s.form, k)
    ensures r.location == s.location && r.error == s.error
  {
    s.(form := WithPreset(s.form, preset))
  }

  /** A place picked in the address box replaces the whole location. */
  function HandleAddressSelect(s: State, latitude: JsValue, longitude: JsValue, placeId: JsValue): (r: State)
    ensures r.location == Location(latitude, longitude, placeId) && r.form == s.form
  {
    s.(location := Location(latitude, longitude, placeId))
  }

  function HandleReset(s: State): State {
    InitialState
  }

  /** Reset forgets everything typed: whatever the state, it returns the
      page's initial state, whose form then fails validation. */
  lemma ResetRestoresInitialState(s: State)
    ensures HandleReset(s).form == Form("", "", "", "#ffffff", "#000000", "")
    ensures HandleReset(s).location == Location(Null, Null, Null)
    ensures HandleReset(s).error == "" && !HandleReset(s).success && HandleReset(s).createdTemplate == Null
    ensures ValidateForm(HandleReset(s).form) == Invalid("This field is required")
  {
    assert IsBlank(InitialForm.brandName);
  }

  /** `{ ...formData, brandId: ..., ...(coordinates && { latitude, longitude }) }`. */
  function TemplateData(f: Form, loc: Location, now: nat): Entries {
    var withId := Spread(FormEntries(f), [("brandId", Str(BrandIdOrDefault(f.brandId, now)))]);
    Spread(withId, CoordinateEntries(loc))
  }

  /** The submitted object is the form in field order with the brand id
      defaulted in place, followed by the coordinates when both are truthy. */
  lemma TemplateDataShape(f: Form, loc: Location, now: nat)
    ensures TemplateData(f, loc, now) == TemplateFields(f, now) + CoordinateEntries(loc)
  {
    var id := Str(BrandIdOrDefault(f.brandId, now));
    var fe := FormEntries(f);
    PutExistingKey(fe, 5, id);
    assert fe[..5] + [("brandId", id)] + fe[6..] == TemplateFields(f, now);
    assert Spread(fe, [("brandId", id)]) == Put(fe, "brandId", id);
    SpreadNewKeys(TemplateFields(f, now), CoordinateEntries(loc));
  }

  const CreateFailed := "Failed to create pass template"

  /** How the create call settled: with the created template, or thrown
      with `err.message`. */
  datatype CreateResult = Created(template: JsValue) | Rejected(message: string)

  /** The page after submitting, and the template sent, if any. */
  datatype Submitted = Submitted(state: State, sent: Option<Entries>)

  /** Submitting: an invalid form sets its message and sends nothing; a
      valid one sends the template, then records the created template or
      the thrown message (`err.message || 'Failed to create pass template'`). */
  function HandleSubmit(s: State, now: nat, result: CreateResult): (out: Submitted)
    ensures out.sent == None <==> ValidateForm(s.form) != Valid
    ensures ValidateForm(s.form) != Valid ==> out.state == s.(error := ValidateForm(s.form).message)
    ensures ValidateForm(s.form) == Valid ==>
              out.sent == Some(TemplateFields(s.form, now) + CoordinateEntries(s.location)) &&
              out.state.form == s.form && out.state.location == s.location
    ensures ValidateForm(s.form) == Valid && result.Created? ==>
              out.state.success && out.state.createdTemplate == result.template && out.state.error == ""
    ensures ValidateForm(s.form) == Valid && result.Rejected? ==>
              out.state.success == s.success && out.state.createdTemplate == s.createdTemplate &&
              out.state.error == (if result.message != "" then result.message else CreateFailed)
  {
    match ValidateForm(s.form)
    case Invalid(m) => Submitted(s.(error := m), None)
    case Valid =>
      TemplateDataShape(s.form, s.location, now);
      var sent := Some(TemplateData(s.form, s.location, now));
      var started := s.(error := "");
      match result
      case Created(template) => Submitted(started.(createdTemplate := template, success := true), sent)
      case Rejected(message) => Submitted(started.(error := if message != "" then message else CreateFailed), sent)
  }
}
