/** The pass-template form shared by the create, modify and edit pages:
    its six fields, its location, the field-update rules, the default
    brand id and the guarded checks the create and modify pages run. */
module TemplateForm {
  import opened Text
  import opened Js
  import Constants

  datatype Form = Form(
    brandName: string,
    address: string,
    promoText: string,
    backgroundColor: string,
    foregroundColor: string,
    brandId: string)

  /** The names a change handler may update. */
  datatype Field = BrandName | Address | PromoText | BackgroundColor | ForegroundColor | BrandId

  const InitialForm: Form := Form("", "", "", "#ffffff", "#000000", "")

  /** Coordinates are opaque values here; only their truthiness matters. */
  datatype Location = Location(latitude: JsValue, longitude: JsValue, placeId: JsValue)

  const InitialLocation: Location := Location(Null, Null, Null)

  function FieldOf(f: Form, k: Field): string {
    match k
    case BrandName => f.brandName
    case Address => f.address
    case PromoText => f.promoText
    case BackgroundColor => f.backgroundColor
    case ForegroundColor => f.foregroundColor
    case BrandId => f.brandId
  }

  /** `prev => ({ ...prev, [field]: value })`: the named field changes, no other. */
  function WithField(f: Form, k: Field, v: string): (r: Form)
    ensures FieldOf(r, k) == v
    ensures forall k' :: k' != k ==> FieldOf(r, k') == FieldOf(f, k')
  {
    match k
    case BrandName => f.(brandName := v)
    case Address => f.(address := v)
    case PromoText => f.(promoText := v)
    case BackgroundColor => f.(backgroundColor := v)
    case ForegroundColor => f.(foregroundColor := v)
    case BrandId => f.(brandId := v)
  }

  /** Choosing a preset sets both colours and leaves the other four fields alone. */
  function WithPreset(f: Form, preset: Constants.ColorPreset): (r: Form)
    ensures r.backgroundColor == preset.backgroundColor && r.foregroundColor == preset.foregroundColor
    ensures forall k :: k != BackgroundColor && k != ForegroundColor ==> FieldOf(r, k) == FieldOf(f, k)
  {
    f.(backgroundColor := preset.backgroundColor, foregroundColor := preset.foregroundColor)
  }

  /** `locationData.latitude && locationData.longitude`. */
  predicate HasCoordinates(loc: Location) {
    Truthy(loc.latitude) && Truthy(loc.longitude)
  }

  /** `formData.brandId || \`brand-${Date.now()}\``, with the clock as `now`:
      never empty; the form's own id when it has one, otherwise an id that
      carries the timestamp. */
  function BrandIdOrDefault(brandId: string, now: nat): (id: string)
    ensures id != ""
    ensures brandId != "" ==> id == brandId
    ensures brandId == "" ==> StartsWith(id, "brand-") && AllDigits(id[6..]) && ParseDecimal(id[6..]) == now
  {
    if brandId != "" then brandId
    else
      var id := "brand-" + NatToString(now);
      assert id[6..] == NatToString(now);
      ParseNatToString(now);
      id
  }

  /** The form as the object `{ ...formData }` spreads, in declaration order. */
  function FormEntries(f: Form): Entries {
    [("brandName", Str(f.brandName)), ("address", Str(f.address)), ("promoText", Str(f.promoText)),
     ("backgroundColor", Str(f.backgroundColor)), ("foregroundColor", Str(f.foregroundColor)),
     ("brandId", Str(f.brandId))]
  }

  /** The six template fields with the brand id defaulted, in form order. */
  function TemplateFields(f: Form, now: nat): Entries {
    FormEntries(f.(brandId := BrandIdOrDefault(f.brandId, now)))
  }

  /** `latitude` then `longitude`, only when both are truthy. */
  function CoordinateEntries(loc: Location): Entries {
    if HasCoordinates(loc) then [("latitude", loc.latitude), ("longitude", loc.longitude)] else []
  }

  datatype Validation = Valid | Invalid(message: string)

  /** The guarded returns shared by the create and modify pages; they differ
      only in the text for a blank brand name. The blank tests trim, the
      length test does not. */
  function CheckTemplateForm(f: Form, blankBrandMessage: string): (v: Validation)
    ensures v == Valid <==>
              !IsBlank(f.brandName) && Utf16Length(f.brandName) >= 2 && !IsBlank(f.address) && !IsBlank(f.promoText)
    ensures IsBlank(f.brandName) ==> v == Invalid(blankBrandMessage)
    ensures !IsBlank(f.brandName) && Utf16Length(f.brandName) < 2 ==> v == Invalid(Constants.MinLengthMessage(2))
    ensures !IsBlank(f.brandName) && Utf16Length(f.brandName) >= 2 && IsBlank(f.address) ==> v == Invalid("Address is required")
    ensures !IsBlank(f.brandName) && Utf16Length(f.brandName) >= 2 && !IsBlank(f.address) && IsBlank(f.promoText) ==>
              v == Invalid("Promotional text is required")
  {
    BlankIffTrimEmpty(f.brandName);
    BlankIffTrimEmpty(f.address);
    BlankIffTrimEmpty(f.promoText);
    var minLength := Constants.BrandNameMinLength();
    Constants.BrandNameRule();
    if Trim(f.brandName) == "" then Invalid(blankBrandMessage)
    else if Utf16Length(f.brandName) < minLength then Invalid(Constants.MinLengthMessage(minLength))
    else if Trim(f.address) == "" then Invalid("Address is required")
    else if Trim(f.promoText) == "" then Invalid("Promotional text is required")
    else Valid
  }

  /** The length check counts the untrimmed text in UTF-16 units: " a"
      passes it, "a" does not, and a single astral character such as U+1F600
      counts as two units and passes. */
  lemma LengthCountsUntrimmedText(f: Form, message: string)
    requires f.address == "Main St" && f.promoText == "Deal"
    ensures CheckTemplateForm(f.(brandName := " a"), message) == Valid
    ensures CheckTemplateForm(f.(brandName := "a"), message) == Invalid(Constants.MinLengthMessage(2))
    ensures CheckTemplateForm(f.(brandName := "\U{1F600}"), message) == Valid
  {
    assert !IsWhitespace(" a"[1]);
    assert !IsWhitespace("a"[0]);
    assert !IsWhitespace("\U{1F600}"[0]);
    assert IsAstral("\U{1F600}"[0]);
    assert !IsWhitespace("Main St"[0]);
    assert !IsWhitespace("Deal"[0]);
  }
}
