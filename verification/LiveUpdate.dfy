/** The live-update panel of a pass: three text inputs, the reduction that
    keeps only the non-blank ones (trimmed), the submit flow and the
    update-history toggle. */
module LiveUpdate {
  import opened Wrappers
  import opened Text
  import opened Js

  const NothingToSend := "Please provide at least one field to update"
  const SentMessage := "Live update sent successfully!"
  const SendFailed := "Failed to send live update"

  datatype UpdateData = UpdateData(balance: string, memberName: string, promoText: string)

  const EmptyData: UpdateData := UpdateData("", "", "")

  /** The input names, in the order `Object.keys(updateData)` lists them. */
  const UpdateKeys: seq<string> := ["balance", "memberName", "promoText"]

  function ValueOf(d: UpdateData, key: string): string {
    if key == "balance" then d.balance
    else if key == "memberName" then d.memberName
    else if key == "promoText" then d.promoText
    else ""
  }

  /** `e.target.name`/`value`: only the named input changes. */
  function WithValue(d: UpdateData, key: string, v: string): (r: UpdateData)
    requires key in UpdateKeys
    ensures ValueOf(r, key) == v
    ensures forall k :: k in UpdateKeys && k != key ==> ValueOf(r, k) == ValueOf(d, k)
  {
    if key == "balance" then d.(balance := v)
    else if key == "memberName" then d.(memberName := v)
    else d.(promoText := v)
  }

  /** One step of the reduction: a value that is truthy and not blank once
      trimmed is stored, trimmed, under its key. */
  function KeepStep(acc: Entries, key: string, value: string): Entries {
    if value != "" && Trim(value) != "" then Put(acc, key, Str(Trim(value))) else acc
  }

  /** `Object.keys(updateData).reduce(..., {})`, as a left fold over `keys`. */
  function Reduce(acc: Entries, keys: seq<string>, d: UpdateData): Entries
    decreases |keys|
  {
    if keys == [] then acc
    else Reduce(KeepStep(acc, keys[0], ValueOf(d, keys[0])), keys[1..], d)
  }

  function FilteredData(d: UpdateData): Entries {
    Reduce([], UpdateKeys, d)
  }

  /** The entry an input contributes to the update when it is not blank. */
  function KeptEntry(key: string, value: string): Entries {
    if IsBlank(value) then [] else [(key, Str(Trim(value)))]
  }

  /** A step for a key the accumulator does not hold yet appends its entry. */
  lemma KeepStepAppends(acc: Entries, key: string, value: string)
    requires forall i :: 0 <= i < |acc| ==> acc[i].0 != key
    ensures KeepStep(acc, key, value) == acc + KeptEntry(key, value)
  {
    BlankIffTrimEmpty(value);
    if value != "" && Trim(value) != "" {
      PutNewKey(acc, key, Str(Trim(value)));
    }
  }

  /** The non-blank inputs, trimmed, in input order. */
  function KeptEntries(d: UpdateData): Entries {
    KeptEntry("balance", d.balance) + KeptEntry("memberName", d.memberName) + KeptEntry("promoText", d.promoText)
  }

  /** The reduction keeps, in input order, exactly the non-blank inputs,
      each trimmed. */
  lemma FilteredDataIsKeptEntries(d: UpdateData)
    ensures FilteredData(d) == KeptEntries(d)
  {
    var a := KeepStep([], "balance", d.balance);
    KeepStepAppends([], "balance", d.balance);
    var b := KeepStep(a, "memberName", d.memberName);
    KeepStepAppends(a, "memberName", d.memberName);
    var c := KeepStep(b, "promoText", d.promoText);
    KeepStepAppends(b, "promoText", d.promoText);
    var rest := UpdateKeys[1..];
    assert rest == ["memberName", "promoText"];
    assert rest[1..] == ["promoText"];
    assert rest[1..][1..] == [];
    assert Reduce([], UpdateKeys, d) == Reduce(a, rest, d);
    assert Reduce(a, rest, d) == Reduce(b, rest[1..], d);
    assert Reduce(b, rest[1..], d) == Reduce(c, rest[1..][1..], d);
  }

  lemma KeptEntryKeys(key: string, value: string)
    ensures Keys(KeptEntry(key, value)) == if IsBlank(value) then [] else [key]
  {
  }

  lemma KeptEntriesKeys(d: UpdateData, key: string)
    ensures key in Keys(KeptEntries(d)) <==> key in UpdateKeys && !IsBlank(ValueOf(d, key))
  {
    var a := KeptEntry("balance", d.balance);
    var b := KeptEntry("memberName", d.memberName);
    var c := KeptEntry("promoText", d.promoText);
    assert Keys(a + b + c) == Keys(a) + Keys(b) + Keys(c);
    KeptEntryKeys("balance", d.balance);
    KeptEntryKeys("memberName", d.memberName);
    KeptEntryKeys("promoText", d.promoText);
  }

  lemma KeptEntriesValues(d: UpdateData, key: string)
    requires key in UpdateKeys && !IsBlank(ValueOf(d, key))
    ensures Get(KeptEntries(d), key) == Str(Trim(ValueOf(d, key)))
  {
    var a := KeptEntry("balance", d.balance);
    var b := KeptEntry("memberName", d.memberName);
    var c := KeptEntry("promoText", d.promoText);
    assert Keys(a + b) == Keys(a) + Keys(b);
    KeptEntryKeys("balance", d.balance);
    KeptEntryKeys("memberName", d.memberName);
    GetConcat(a + b, c, key);
    GetConcat(a, b, key);
  }

  /** An input's key is sent exactly when its value is not blank, its value
      is sent trimmed, and no other key is ever sent. */
  lemma FilteredDataKeys(d: UpdateData, key: string)
    ensures key in Keys(FilteredData(d)) <==> key in UpdateKeys && !IsBlank(ValueOf(d, key))
    ensures key in Keys(FilteredData(d)) ==> Get(FilteredData(d), key) == Str(Trim(ValueOf(d, key)))
  {
    FilteredDataIsKeptEntries(d);
    KeptEntriesKeys(d, key);
    if key in UpdateKeys && !IsBlank(ValueOf(d, key)) {
      KeptEntriesValues(d, key);
    }
  }

  /** Nothing is sent exactly when all three inputs are blank. */
  lemma FilteredDataEmpty(d: UpdateData)
    ensures FilteredData(d) == [] <==> IsBlank(d.balance) && IsBlank(d.memberName) && IsBlank(d.promoText)
  {
    FilteredDataIsKeptEntries(d);
  }

  /** The panel's state; `error` and `success` are `null` or a message. */
  datatype State = State(data: UpdateData, isLoading: bool, error: Option<string>, success: Option<string>,
                         history: JsValue, showHistory: bool)

  function HandleInputChange(s: State, key: string, v: string): (r: State)
    requires key in UpdateKeys
    ensures ValueOf(r.data, key) == v
    ensures forall k :: k in UpdateKeys && k != key ==> ValueOf(r.data, k) == ValueOf(s.data, k)
    ensures r.error == s.error && r.success == s.success && r.showHistory == s.showHistory
  {
    s.(data := WithValue(s.data, key, v))
  }

  /** How the external send settled: accepted, or thrown with `err.message`. */
  datatype SendResult = Accepted(result: JsValue) | Rejected(message: string)

  /** How the history request settled. */
  datatype HistoryLoad = Loaded(history: JsValue) | LoadFailed

  /** `loadUpdateHistory`: a failure is logged and changes nothing. */
  function LoadHistory(s: State, load: HistoryLoad): (r: State)
    ensures load.Loaded? ==> r == s.(history := load.history)
    ensures load == LoadFailed ==> r == s
  {
    match load
    case Loaded(h) => s.(history := h)
    case LoadFailed => s
  }

  /** The new state, the data sent, and the value handed to the page's
      `onUpdateSuccess` callback when it was called. */
  datatype Submitted = Submitted(state: State, sent: Option<Entries>, succeeded: Option<JsValue>)

  /** Submitting: nothing to send is reported as an error and nothing is
      sent; otherwise the filtered data is sent and, on success, the inputs
      are cleared, the page's `onUpdateSuccess` callback (when one is given)
      gets the send's result, and the history is reloaded; on failure the
      inputs are kept. */
  function HandleSubmit(s: State, hasSuccessCallback: bool, result: SendResult, load: HistoryLoad): (out: Submitted)
    ensures !out.state.isLoading && out.state.showHistory == s.showHistory
    ensures out.state.history == (if FilteredData(s.data) != [] && result.Accepted?
                                  then LoadHistory(s, load).history else s.history)
    ensures out.succeeded.Some? <==> FilteredData(s.data) != [] && result.Accepted? && hasSuccessCallback
    ensures out.succeeded.Some? ==> out.succeeded.value == result.result
    ensures FilteredData(s.data) == [] ==>
              out.sent == None && out.state.error == Some(NothingToSend) && out.state.success == None &&
              out.state.data == s.data
    ensures FilteredData(s.data) != [] ==> out.sent == Some(FilteredData(s.data))
    ensures FilteredData(s.data) != [] && result.Accepted? ==>
              out.state.data == EmptyData && out.state.success == Some(SentMessage) && out.state.error == None
    ensures FilteredData(s.data) != [] && result.Rejected? ==>
              out.state.data == s.data && out.state.success == None &&
              out.state.error == Some(if result.message != "" then result.message else SendFailed)
  {
    var started := s.(isLoading := true, error := None, success := None);
    var filtered := FilteredData(s.data);
    if filtered == [] then
      Submitted(started.(error := Some(NothingToSend), isLoading := false), None, None)
    else match result
      case Accepted(sendResult) =>
        var done := started.(success := Some(SentMessage), data := EmptyData);
        var succeeded := if hasSuccessCallback then Some(sendResult) else None;
        Submitted(LoadHistory(done, load).(isLoading := false), Some(filtered), succeeded)
      case Rejected(message) =>
        var text := if message != "" then message else SendFailed;
        Submitted(started.(error := Some(text), isLoading := false), Some(filtered), None)
  }

  datatype Toggled = Toggled(state: State, requested: bool)

  /** The history button: the history is requested only when the panel is
      being opened, and the panel's visibility flips either way. */
  function HandleShowHistory(s: State, load: HistoryLoad): (out: Toggled)
    ensures out.state.showHistory == !s.showHistory
    ensures out.requested <==> !s.showHistory
    ensures s.showHistory ==> out.state == s.(showHistory := false)
    ensures out.state.data == s.data && out.state.error == s.error
  {
    if !s.showHistory then Toggled(LoadHistory(s, load).(showHistory := true), true)
    else Toggled(s.(showHistory := false), false)
  }

  /** Opening then closing restores the visibility and requests the history once. */
  lemma ShowHistoryRoundTrip(s: State, load1: HistoryLoad, load2: HistoryLoad)
    requires !s.showHistory
    ensures var t1 := HandleShowHistory(s, load1);
            var t2 := HandleShowHistory(t1.state, load2);
            && t2.state.showHistory == s.showHistory && t1.requested && !t2.requested
            && t2.state == t1.state.(showHistory := false)
  {
  }
}
