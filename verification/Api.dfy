/** The REST client: request URLs and options, the choice between a thrown
    error, the raw response and the parsed JSON body, the FormData built for
    a template upload, and the template, diner and download endpoints.
    `fetch` is not run: its outcome is an input. */
module Api {
  import opened Wrappers
  import opened Text
  import opened Js
  import Constants

  /** `${API_BASE_URL}${endpoint}`: the base URL, then the endpoint, verbatim. */
  function Url(endpoint: string): (url: string)
    ensures |url| == |Constants.ApiBaseUrl| + |endpoint|
    ensures url[..|Constants.ApiBaseUrl|] == Constants.ApiBaseUrl
    ensures url[|Constants.ApiBaseUrl|..] == endpoint
  {
    Constants.ApiBaseUrl + endpoint
  }

  const JsonContentType: Entries := [("Content-Type", Str("application/json"))]

  /** What `...options.headers` spreads: the properties of an object;
      `undefined`, `null` and other primitives spread nothing. */
  function HeadersOf(options: Entries): Entries {
    match Get(options, "headers")
    case Obj(h) => h
    case _ => []
  }

  /** `{ ...defaultOptions, ...options }` where the defaults carry
      `{ 'Content-Type': 'application/json', ...options.headers }`. */
  function RequestConfig(options: Entries): Entries {
    var defaultOptions := [("headers", Obj(Spread(JsonContentType, HeadersOf(options))))];
    Spread(defaultOptions, options)
  }

  /** A caller's `headers` option replaces the merged default headers
      entirely, because `options` is spread last; without one the request
      carries exactly the JSON content type. */
  lemma CallerHeadersReplaceDefaults(options: Entries)
    requires UniqueKeys(options)
    ensures Get(RequestConfig(options), "headers") ==
              if "headers" in Keys(options) then Get(options, "headers") else Obj(JsonContentType)
  {
    var defaultOptions := [("headers", Obj(Spread(JsonContentType, HeadersOf(options))))];
    SpreadGet(defaultOptions, options, "headers");
    if "headers" !in Keys(options) {
      GetAbsent(options, "headers");
      assert HeadersOf(options) == [];
    }
  }

  /** Every other option (method, body, ...) reaches `fetch` unchanged. */
  lemma OtherOptionsPassThrough(options: Entries, k: string)
    requires UniqueKeys(options) && k != "headers" && k in Keys(options)
    ensures Get(RequestConfig(options), k) == Get(options, k)
  {
    var defaultOptions := [("headers", Obj(Spread(JsonContentType, HeadersOf(options))))];
    SpreadGet(defaultOptions, options, k);
  }

  /** A response body as `response.json()` sees it. */
  datatype Body = Json(value: JsValue) | NotJson

  datatype HttpResponse = HttpResponse(ok: bool, status: nat, body: Body)

  /** The settled `fetch` promise. */
  datatype FetchResult = Responded(response: HttpResponse) | NetworkFailure

  /** What the API helpers throw. `HttpError` carries the value passed to `new Error`. */
  datatype ApiError = HttpError(message: JsValue) | TypeError | SyntaxError | NetworkError

  /** How an API helper settles: the raw Response, the parsed body, or a thrown error. */
  datatype ApiOutcome = RawResponse(response: HttpResponse) | Parsed(value: JsValue) | Threw(error: ApiError)

  /** Reading `v.key`: `None` is the TypeError of reading a property of null or undefined. */
  function PropertyOf(v: JsValue, key: string): Option<JsValue> {
    match v
    case Undefined => None
    case Null => None
    case Obj(fields) => Some(Get(fields, key))
    case _ => Some(Undefined)
  }

  function StatusMessage(status: nat): string {
    "HTTP error! status: " + NatToString(status)
  }

  /** The fallback message names the status, and the status reads back from it. */
  lemma StatusMessageReadsBack(status: nat)
    ensures var m := StatusMessage(status);
            && |m| > 20 && m[..20] == "HTTP error! status: "
            && AllDigits(m[20..]) && ParseDecimal(m[20..]) == status
  {
    var m := StatusMessage(status);
    assert m[20..] == NatToString(status);
    ParseNatToString(status);
  }

  /** The error thrown for a non-OK response:
      `errorData.error || \`HTTP error! status: ${response.status}\``,
      where an unreadable body counts as `{}`. */
  function ErrorFor(response: HttpResponse): ApiError {
    var errorData := if response.body.Json? then response.body.value else Obj([]);
    match PropertyOf(errorData, "error")
    case None => TypeError
    case Some(e) => HttpError(if Truthy(e) then e else Str(StatusMessage(response.status)))
  }

  /** The server's `error` field when it is truthy; a JSON `null` body makes
      reading `.error` itself throw. */
  predicate HasServerError(response: HttpResponse) {
    response.body.Json? && response.body.value.Obj? && Truthy(Get(response.body.value.fields, "error"))
  }

  /** The server's own `error` text wins when it is truthy; an unreadable
      body or an object without one falls back to the status message; a
      JSON `null` body throws a TypeError instead. */
  lemma ErrorMessageChoice(response: HttpResponse)
    ensures response.body == Json(Null) ==> ErrorFor(response) == TypeError
    ensures HasServerError(response) ==>
              ErrorFor(response) == HttpError(Get(response.body.value.fields, "error"))
    ensures (response.body.NotJson? || (response.body.Json? && response.body.value.Obj? && !HasServerError(response))) ==>
              ErrorFor(response) == HttpError(Str(StatusMessage(response.status)))
  {
  }

  /** Settling a call whose successful answer is parsed JSON: a network
      failure or error status throws, an unparsable body is a SyntaxError. */
  function JsonCallOutcome(fetched: FetchResult): ApiOutcome {
    match fetched
    case NetworkFailure => Threw(NetworkError)
    case Responded(r) =>
      if !r.ok then Threw(ErrorFor(r))
      else match r.body
        case Json(v) => Parsed(v)
        case NotJson => Threw(SyntaxError)
  }

  /** `apiCall(endpoint)`: like any JSON call, except that an OK response
      to an endpoint containing `/download` is handed back unread. */
  function ApiCall(endpoint: string, fetched: FetchResult): (out: ApiOutcome)
    ensures fetched.Responded? && fetched.response.ok ==>
              (out.RawResponse? <==> Includes(endpoint, "/download"))
    ensures !(fetched.Responded? && fetched.response.ok && Includes(endpoint, "/download")) ==>
              out == JsonCallOutcome(fetched)
  {
    if fetched.Responded? && fetched.response.ok && Includes(endpoint, "/download")
    then RawResponse(fetched.response)
    else JsonCallOutcome(fetched)
  }

  /** `createPassTemplate` and `updatePassTemplate` call `fetch` themselves
      with the same error handling as `apiCall`, but never hand back the
      raw response. */
  function DirectJsonCall(fetched: FetchResult): (out: ApiOutcome)
    ensures !out.RawResponse?
    ensures out.Parsed? <==> fetched.Responded? && fetched.response.ok && fetched.response.body.Json?
    ensures out.Parsed? ==> out.value == fetched.response.body.value
    ensures fetched.Responded? && !fetched.response.ok ==> out == Threw(ErrorFor(fetched.response))
    ensures fetched.NetworkFailure? ==> out == Threw(NetworkError)
    ensures fetched.Responded? && fetched.response.ok && fetched.response.body.NotJson? ==> out == Threw(SyntaxError)
  {
    JsonCallOutcome(fetched)
  }

  /** The options `createDinerPass` gives `apiCall`: a POST of the JSON text. */
  function DinerPassOptions(json: string): Entries {
    [("method", Str("POST")), ("body", Str(json))]
  }

  /** The diner request goes out as a POST of the JSON text carrying exactly
      the JSON content type. */
  lemma DinerPassRequest(json: string)
    ensures Get(RequestConfig(DinerPassOptions(json)), "headers") == Obj(JsonContentType)
    ensures Get(RequestConfig(DinerPassOptions(json)), "method") == Str("POST")
    ensures Get(RequestConfig(DinerPassOptions(json)), "body") == Str(json)
  {
    var options := DinerPassOptions(json);
    assert Keys(options) == ["method", "body"];
    CallerHeadersReplaceDefaults(options);
    OtherOptionsPassThrough(options, "method");
    OtherOptionsPassThrough(options, "body");
  }

  function PassTemplateEndpoint(passId: string): string {
    "/api/passes/templates/" + passId
  }

  function PassesByBrandEndpoint(brandId: string): string {
    "/api/passes/templates/brand/" + brandId
  }

  /** The GET target of `getPassTemplatesByBrand`: the brand listing shares
      its path with the template lookup of the id `brand/<brandId>`. */
  function PassesByBrandUrl(brandId: string): (url: string)
    ensures url == Url(PassesByBrandEndpoint(brandId))
    ensures url == Url(PassTemplateEndpoint("brand/" + brandId))
  {
    Constants.ApiBaseUrl + "/api/passes/templates/brand/" + brandId
  }

  /** The PUT target of `updatePassTemplate`. */
  function UpdatePassTemplateUrl(passId: string): (url: string)
    ensures url == Url(PassTemplateEndpoint(passId)) + "/json"
  {
    Constants.ApiBaseUrl + "/api/passes/templates/" + passId + "/json"
  }

  function DownloadEndpoint(serialNumber: string): string {
    "/api/passes/diners/" + serialNumber + "/download"
  }

  /** The link `downloadPassFile` clicks: its target and its file name. */
  datatype DownloadLink = DownloadLink(href: string, fileName: string)

  function DownloadPassFile(serialNumber: string): (link: DownloadLink)
    ensures link.href == Url(DownloadEndpoint(serialNumber))
    ensures |link.fileName| == |serialNumber| + 7
    ensures link.fileName[..|serialNumber|] == serialNumber
    ensures link.fileName[|serialNumber|..] == ".pkpass"
  {
    DownloadLink(Constants.ApiBaseUrl + "/api/passes/diners/" + serialNumber + "/download",
                 serialNumber + ".pkpass")
  }

  /** `downloadPass` always receives the raw response when the server answers OK. */
  lemma DownloadReturnsRawResponse(serialNumber: string, r: HttpResponse)
    requires r.ok
    ensures ApiCall(DownloadEndpoint(serialNumber), Responded(r)) == RawResponse(r)
  {
    IncludesInfix("/api/passes/diners/" + serialNumber, "/download", "");
    assert "/api/passes/diners/" + serialNumber + "/download" + "" == DownloadEndpoint(serialNumber);
  }

  /** `getPassTemplate` of an id that starts with "download" also gets the
      raw response, since the endpoint then contains `/download`. */
  lemma TemplateIdStartingWithDownload(passId: string, r: HttpResponse)
    requires r.ok && StartsWith(passId, "download")
    ensures ApiCall(PassTemplateEndpoint(passId), Responded(r)) == RawResponse(r)
  {
    IncludesInfix("/api/passes/templates", "/download", passId[8..]);
    assert "/api/passes/templates" + "/download" + passId[8..] == PassTemplateEndpoint(passId);
  }

  /** The three optional image slots of a template upload. */
  datatype ImageFiles = ImageFiles(icon: JsValue, logo: JsValue, strip: JsValue)

  /** The names of the three slots, as the page handlers use them. */
  datatype Slot = Icon | Logo | Strip

  function SlotOf(images: ImageFiles, slot: Slot): JsValue {
    match slot
    case Icon => images.icon
    case Logo => images.logo
    case Strip => images.strip
  }

  function WithSlot(images: ImageFiles, slot: Slot, v: JsValue): (r: ImageFiles)
    ensures SlotOf(r, slot) == v
    ensures forall other :: other != slot ==> SlotOf(r, other) == SlotOf(images, other)
  {
    match slot
    case Icon => images.(icon := v)
    case Logo => images.(logo := v)
    case Strip => images.(strip := v)
  }

  /** The entries of a FormData, in append order. */
  type FormEntries = seq<(string, JsValue)>

  /** The template fields the upload keeps: those whose value is neither
      null nor undefined, in key order. */
  function PresentFields(templateData: Entries): (r: FormEntries)
    ensures |r| <= |templateData|
    ensures forall i :: 0 <= i < |r| ==> !IsNullish(r[i].1) && r[i] in templateData
  {
    if templateData == [] then []
    else
      var last := templateData[|templateData| - 1];
      PresentFields(templateData[..|templateData| - 1]) + (if IsNullish(last.1) then [] else [last])
  }

  /** A template field is uploaded exactly when its value is present. */
  lemma {:induction false} PresentFieldsMembership(templateData: Entries, e: (string, JsValue))
    ensures e in PresentFields(templateData) <==> e in templateData && !IsNullish(e.1)
  {
    if templateData != [] {
      var init := templateData[..|templateData| - 1];
      PresentFieldsMembership(init, e);
      assert templateData == init + [templateData[|templateData| - 1]];
    }
  }

  /** When no value is null or undefined, every template field is uploaded, in order. */
  lemma {:induction false} PresentFieldsKeepsAll(templateData: Entries)
    requires forall i :: 0 <= i < |templateData| ==> !IsNullish(templateData[i].1)
    ensures PresentFields(templateData) == templateData
  {
    if templateData != [] {
      var init := templateData[..|templateData| - 1];
      PresentFieldsKeepsAll(init);
      assert templateData == init + [templateData[|templateData| - 1]];
    }
  }

  /** The image entries, in the fixed order icon, logo, strip, each only when set. */
  function ImageEntries(images: ImageFiles): FormEntries {
    (if Truthy(images.icon) then [("iconImage", images.icon)] else [])
    + (if Truthy(images.logo) then [("logoImage", images.logo)] else [])
    + (if Truthy(images.strip) then [("stripImage", images.strip)] else [])
  }

  /** The FormData `createPassTemplateWithImages` posts: the present
      template fields in key order, then the images. */
  method BuildTemplateFormData(templateData: Entries, images: ImageFiles) returns (formData: FormEntries)
    ensures formData == PresentFields(templateData) + ImageEntries(images)
  {
    formData := [];
    var i := 0;
    while i < |templateData|
      invariant 0 <= i <= |templateData|
      invariant formData == PresentFields(templateData[..i])
    {
      var entry := templateData[i];
      assert templateData[..i + 1][..i] == templateData[..i];
      if !IsNullish(entry.1) {
        formData := formData + [entry];
      }
      i := i + 1;
    }
    assert templateData[..i] == templateData;
    if Truthy(images.icon) { formData := formData + [("iconImage", images.icon)]; }
    if Truthy(images.logo) { formData := formData + [("logoImage", images.logo)]; }
    if Truthy(images.strip) { formData := formData + [("stripImage", images.strip)]; }
  }

  /** The images always follow every template field, and each image key
      appears exactly when its slot is set. */
  lemma ImagesFollowFields(templateData: Entries, images: ImageFiles)
    ensures var fd := PresentFields(templateData) + ImageEntries(images);
            && fd[..|PresentFields(templateData)|] == PresentFields(templateData)
            && fd[|PresentFields(templateData)|..] == ImageEntries(images)
            && (("iconImage", images.icon) in ImageEntries(images) <==> Truthy(images.icon))
            && (("logoImage", images.logo) in ImageEntries(images) <==> Truthy(images.logo))
            && (("stripImage", images.strip) in ImageEntries(images) <==> Truthy(images.strip))
  {
  }
}
