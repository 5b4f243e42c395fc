/** The application's constant tables: the API base URL, the colour presets
    offered by the pass editors, the field validation rules and the shared
    error messages. */
module Constants {
  import opened Wrappers
  import opened Text

  const ApiBaseUrl: string := "https://applepass-originator-ojhsb2liva-uc.a.run.app"

  datatype ColorPreset = ColorPreset(name: string, backgroundColor: string, foregroundColor: string)

  const ColorPresets: seq<ColorPreset> := [
    ColorPreset("Classic", "#ffffff", "#000000"),
    ColorPreset("Dark", "#1a1a1a", "#ffffff"),
    ColorPreset("Blue", "#1e3a8a", "#ffffff"),
    ColorPreset("Green", "#059669", "#ffffff"),
    ColorPreset("Purple", "#7c3aed", "#ffffff"),
    ColorPreset("Orange", "#ea580c", "#ffffff"),
    ColorPreset("Red", "#dc2626", "#ffffff"),
    ColorPreset("Pink", "#db2777", "#ffffff")
  ]

  /** One entry of the validation table. The e-mail rule's regular
      expression is kept as its source text. */
  datatype Rule = Rule(required: bool, minLength: Option<nat>, maxLength: Option<nat>, pattern: Option<string>)

  const ValidationRules: seq<(string, Rule)> := [
    ("brandName", Rule(true, Some(2), Some(50), None)),
    ("address", Rule(true, Some(5), None, None)),
    ("promoText", Rule(true, None, Some(100), None)),
    ("email", Rule(true, None, None, Some("^[^\\s@]+@[^\\s@]+\\.[^\\s@]+$"))),
    ("firstName", Rule(true, Some(2), None, None)),
    ("lastName", Rule(true, Some(2), None, None))
  ]

  /** An entry of the message table: a fixed text or one of the two formatters. */
  datatype Message = Fixed(text: string) | MinLengthFormatter | MaxLengthFormatter

  const ErrorMessages: seq<(string, Message)> := [
    ("required", Fixed("This field is required")),
    ("invalidEmail", Fixed("Please enter a valid email address")),
    ("minLength", MinLengthFormatter),
    ("maxLength", MaxLengthFormatter),
    ("networkError", Fixed("Network error. Please try again.")),
    ("serverError", Fixed("Server error. Please try again later.")),
    ("downloadError", Fixed("Download failed. Please try again."))
  ]

  /** First entry of an ordered table under `key`, `None` when absent
      (JavaScript's `undefined`). */
  function Lookup<V>(table: seq<(string, V)>, key: string): (r: Option<V>)
    ensures r.Some? <==> exists i :: 0 <= i < |table| && table[i].0 == key
    ensures r.Some? ==> exists i :: 0 <= i < |table| && table[i] == (key, r.value)
  {
    if table == [] then None
    else if table[0].0 == key then Some(table[0].1)
    else Lookup(table[1..], key)
  }

  function RuleFor(field: string): Option<Rule> {
    Lookup(ValidationRules, field)
  }

  function MessageFor(key: string): Option<Message> {
    Lookup(ErrorMessages, key)
  }

  const RequiredMessage: string := "This field is required"

  /** `ERROR_MESSAGES.minLength(min)`. */
  function MinLengthMessage(min: nat): string {
    "Must be at least " + NatToString(min) + " characters"
  }

  /** `ERROR_MESSAGES.maxLength(max)`. */
  function MaxLengthMessage(max: nat): string {
    "Must be no more than " + NatToString(max) + " characters"
  }

  /** `VALIDATION_RULES.brandName.minLength`. */
  function BrandNameMinLength(): (n: nat)
    ensures RuleFor("brandName").Some? && RuleFor("brandName").value.minLength == Some(n)
  {
    assert ValidationRules[0].0 == "brandName";
    RuleFor("brandName").value.minLength.value
  }

  /** The minimum-length message carries its bound: the text between the
      fixed prefix and suffix reads back as `min`. */
  lemma MinLengthMessageReadsBack(min: nat)
    ensures var m := MinLengthMessage(min);
            && |m| > 28
            && m[..17] == "Must be at least "
            && m[|m| - 11..] == " characters"
            && AllDigits(m[17..|m| - 11])
            && ParseDecimal(m[17..|m| - 11]) == min
  {
    var d := NatToString(min);
    var m := MinLengthMessage(min);
    assert m[17..|m| - 11] == d;
    ParseNatToString(min);
  }

  /** The maximum-length message carries its bound in the same way. */
  lemma MaxLengthMessageReadsBack(max: nat)
    ensures var m := MaxLengthMessage(max);
            && |m| > 32
            && m[..21] == "Must be no more than "
            && m[|m| - 11..] == " characters"
            && AllDigits(m[21..|m| - 11])
            && ParseDecimal(m[21..|m| - 11]) == max
  {
    var d := NatToString(max);
    var m := MaxLengthMessage(max);
    assert m[21..|m| - 11] == d;
    ParseNatToString(max);
  }

  /** Distinct bounds give distinct messages. */
  lemma MinLengthMessageInjective(a: nat, b: nat)
    ensures MinLengthMessage(a) == MinLengthMessage(b) ==> a == b
  {
    MinLengthMessageReadsBack(a);
    MinLengthMessageReadsBack(b);
  }

  /** Brand names are required, between 2 and 50 characters. */
  lemma BrandNameRule()
    ensures RuleFor("brandName") == Some(Rule(true, Some(2), Some(50), None))
    ensures RuleFor("brandName").value.minLength.value <= RuleFor("brandName").value.maxLength.value
  {
    assert ValidationRules[0].0 == "brandName";
  }

  /** Promotional text is capped at 100 characters; addresses need at least 5. */
  lemma PromoAndAddressRules()
    ensures RuleFor("promoText").Some? && RuleFor("promoText").value.maxLength == Some(100)
    ensures RuleFor("address").Some? && RuleFor("address").value.minLength == Some(5)
  {
    assert ValidationRules[1].0 == "address";
    assert ValidationRules[2].0 == "promoText";
  }

  /** The message table has no per-field sub-objects: only the seven shared keys. */
  lemma NoPerFieldMessages()
    ensures MessageFor("brandName") == None
    ensures MessageFor("address") == None
    ensures MessageFor("promoText") == None
    ensures MessageFor("required") == Some(Fixed(RequiredMessage))
  {
    assert ErrorMessages[0].0 == "required";
    AbsentByInitial("brandName");
    AbsentByInitial("address");
    AbsentByInitial("promoText");
  }

  /** A key whose first letter starts no message key has no message. */
  lemma AbsentByInitial(key: string)
    requires |key| > 0 && key[0] !in "rimnsd"
    ensures MessageFor(key) == None
  {
    assert forall i :: 0 <= i < |ErrorMessages| ==> ErrorMessages[i].0[0] in "rimnsd";
  }

  predicate IsHexDigit(c: char) {
    ('0' <= c <= '9') || ('a' <= c <= 'f') || ('A' <= c <= 'F')
  }

  /** A CSS colour of the form `#rrggbb`. */
  predicate IsHexColor(s: string) {
    |s| == 7 && s[0] == '#' && forall i :: 1 <= i < 7 ==> IsHexDigit(s[i])
  }

  /** Eight presets with distinct names and valid colours, Classic
      (white on black text) first. */
  lemma ColorPresetTable()
    ensures |ColorPresets| == 8
    ensures ColorPresets[0] == ColorPreset("Classic", "#ffffff", "#000000")
    ensures forall i, j :: 0 <= i < j < |ColorPresets| ==> ColorPresets[i].name != ColorPresets[j].name
    ensures forall i :: 0 <= i < |ColorPresets| ==>
              IsHexColor(ColorPresets[i].backgroundColor) && IsHexColor(ColorPresets[i].foregroundColor)
  {
    PresetColorsValid();
  }

  /** Every preset colour is of the form `#rrggbb`. */
  lemma PresetColorsValid()
    ensures forall i :: 0 <= i < |ColorPresets| ==>
              IsHexColor(ColorPresets[i].backgroundColor) && IsHexColor(ColorPresets[i].foregroundColor)
  {
    var colors := ["#ffffff", "#000000", "#1a1a1a", "#1e3a8a", "#059669", "#7c3aed", "#ea580c", "#dc2626", "#db2777"];
    forall c | c in colors ensures IsHexColor(c) {
    }
    assert forall i :: 0 <= i < |ColorPresets| ==>
             ColorPresets[i].backgroundColor in colors && ColorPresets[i].foregroundColor in colors;
  }
}
