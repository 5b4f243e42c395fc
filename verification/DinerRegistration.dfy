/** The diner sign-up page for one pass template: its six inputs, the
    required-field check and the payload it posts. */
module DinerRegistration {
  import opened Wrappers
  import opened Text
  import opened Js

  const MissingFields := "Please fill in all required fields"
  const CreateFailed := "Failed to create diner pass"
  const CreateDinerPassEndpoint := "/api/generate-diner-pass"

  datatype DinerData = DinerData(firstName: string, lastName: string, email: string,
                                 phone: string, birthday: string, heardAbout: string)

  const EmptyDiner: DinerData := DinerData("", "", "", "", "", "")

  datatype Field = FirstName | LastName | Email | Phone | Birthday | HeardAbout

  function FieldOf(d: DinerData, k: Field): string {
    match k
    case FirstName => d.firstName
    case LastName => d.lastName
    case Email => d.email
    case Phone => d.phone
    case Birthday => d.birthday
    case HeardAbout => d.heardAbout
  }

  /** `prev => ({ ...prev, [field]: value })`. */
  function HandleInputChange(d: DinerData, k: Field, v: string): (r: DinerData)
    ensures FieldOf(r, k) == v
    ensures forall k' :: k' != k ==> FieldOf(r, k') == FieldOf(d, k')
  {
    match k
    case FirstName => d.(firstName := v)
    case LastName => d.(lastName := v)
    case Email => d.(email := v)
    case Phone => d.(phone := v)
    case Birthday => d.(birthday := v)
    case HeardAbout => d.(heardAbout := v)
  }

  /** The guard: first name, last name and e-mail must be truthy, that is,
      not the empty string. */
  predicate RequiredFilled(d: DinerData) {
    d.firstName != "" && d.lastName != "" && d.email != ""
  }

  /** The diner's fields as `...dinerData` spreads them, in declaration order. */
  function DinerEntries(d: DinerData): Entries {
    [("firstName", Str(d.firstName)), ("lastName", Str(d.lastName)), ("email", Str(d.email)),
     ("phone", Str(d.phone)), ("birthday", Str(d.birthday)), ("heardAbout", Str(d.heardAbout))]
  }

  /** `{ passId, ...dinerData }`. */
  function Payload(passId: string, d: DinerData): Entries {
    Spread([("passId", Str(passId))], DinerEntries(d))
  }

  /** The payload is the pass id followed by all six diner fields, each
      with the value typed, whether or not it was required. */
  lemma PayloadShape(passId: string, d: DinerData)
    ensures Payload(passId, d) == [("passId", Str(passId))] + DinerEntries(d)
    ensures UniqueKeys(Payload(passId, d))
  {
    SpreadNewKeys([("passId", Str(passId))], DinerEntries(d));
  }

  datatype State = State(data: DinerData, error: string, submitting: bool, success: bool)

  /** How the create call settled: created, or thrown with `err.message`. */
  datatype CreateResult = Created(serialNumber: JsValue) | Rejected(message: string)

  /** A request to an endpoint with a JSON body. */
  datatype Request = Request(endpoint: string, body: Entries)

  datatype Submitted = Submitted(state: State, sent: Option<Request>)

  /** Submitting: a missing required field sets the message and sends
      nothing; otherwise the payload is posted and the page records success
      or the thrown message. */
  function HandleSubmit(s: State, passId: string, result: CreateResult): (out: Submitted)
    ensures !RequiredFilled(s.data) <==> out.sent == None
    ensures !RequiredFilled(s.data) ==> out.state == s.(error := MissingFields)
    ensures RequiredFilled(s.data) ==>
              out.sent == Some(Request(CreateDinerPassEndpoint, [("passId", Str(passId))] + DinerEntries(s.data))) &&
              !out.state.submitting && out.state.data == s.data
    ensures RequiredFilled(s.data) && result.Created? ==> out.state.success && out.state.error == ""
    ensures RequiredFilled(s.data) && result.Rejected? ==>
              out.state.success == s.success &&
              out.state.error == (if result.message != "" then result.message else CreateFailed)
  {
    if !RequiredFilled(s.data) then Submitted(s.(error := MissingFields), None)
    else
      PayloadShape(passId, s.data);
      var sent := Some(Request(CreateDinerPassEndpoint, Payload(passId, s.data)));
      var started := s.(submitting := true, error := "");
      match result
      case Created(_) => Submitted(started.(success := true, submitting := false), sent)
      case Rejected(message) =>
        Submitted(started.(error := if message != "" then message else CreateFailed, submitting := false), sent)
  }

  /** The check is for emptiness, not blankness: a single space is accepted. */
  lemma WhitespaceIsAccepted(d: DinerData)
    requires d.firstName == " " && d.lastName == " " && d.email == " "
    ensures RequiredFilled(d) && IsBlank(d.firstName)
  {
  }

  /** Phone, birthday and how the diner heard of the venue never decide
      whether the form is sent. */
  lemma OptionalFieldsIrrelevant(d: DinerData, k: Field, v: string)
    requires k == Phone || k == Birthday || k == HeardAbout
    ensures RequiredFilled(HandleInputChange(d, k, v)) <==> RequiredFilled(d)
  {
    var r := HandleInputChange(d, k, v);
    assert FieldOf(r, FirstName) == FieldOf(d, FirstName);
    assert FieldOf(r, LastName) == FieldOf(d, LastName);
    assert FieldOf(r, Email) == FieldOf(d, Email);
  }

  /** Each required field alone blocks the submission when emptied. */
  lemma EachRequiredFieldBlocks(d: DinerData, k: Field)
    requires k == FirstName || k == LastName || k == Email
    ensures !RequiredFilled(HandleInputChange(d, k, ""))
  {
  }
}
