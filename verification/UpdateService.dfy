/** The live-update client of a diner's passes: a server-sent-event stream
    per user, reconnection with backoff, a polling fallback, per-pass
    subscriptions and the delivery of each update to a callback and a
    browser notification.

    The browser is part of the state: the streams it keeps open, the timers
    it will fire, the intervals it runs and the poll requests still in
    flight. The environment drives the service by firing any of those. */
module UpdateService {
  import opened Wrappers
  import opened Js
  import Api

  const ServiceBase := "https://applepass-7188044708.us-central1.run.app"
  const MaxRetries: nat := 5
  const BaseDelay: nat := 1000
  const PollingPeriod: nat := 30000
  const NotificationTitle := "Pass Updated"
  const DefaultBody := "Your pass has been updated"
  const NotificationIcon := "/favicon.ico"

  function Pow2(n: nat): nat {
    if n == 0 then 1 else 2 * Pow2(n - 1)
  }

  /** `baseDelay * Math.pow(2, retryCount)`. */
  function BackoffDelay(retryCount: nat): nat {
    BaseDelay * Pow2(retryCount)
  }

  /** The schedule the backoff formula would give over the five allowed
      attempts, doubling from one second. */
  lemma BackoffSchedule(n: nat)
    ensures BackoffDelay(0) == 1000 && BackoffDelay(1) == 2000 && BackoffDelay(4) == 16000
    ensures BackoffDelay(n + 1) == 2 * BackoffDelay(n)
  {
  }

  /** A user id as a template literal renders it: `null` becomes "null". */
  function UserText(userId: Option<string>): string {
    if userId.Some? then userId.value else "null"
  }

  /** `!!userId` for a string or `null`. */
  predicate HasUser(userId: Option<string>) {
    userId.Some? && userId.value != ""
  }

  function StreamUrl(userId: Option<string>): string {
    ServiceBase + "/api/sse/subscribe/" + UserText(userId)
  }

  function PassSubscriptionUrl(userId: string, passId: string): string {
    ServiceBase + "/api/sse/subscribe/" + userId + "/pass/" + passId
  }

  function CheckUpdatesUrl(userId: string): string {
    ServiceBase + "/api/passes/check-updates/" + userId
  }

  datatype HttpMethod = Get | Post | Delete

  datatype Request = Request(verb: HttpMethod, url: string)

  /** The identity of the function a caller registered as the update callback. */
  type Callback = nat

  /** Timers the browser holds: the reconnect scheduled by a stream error,
      and the delayed `connect` scheduled by `reconnect`. */
  datatype Timer = ReconnectTimer(delay: nat) | RetryTimer(delay: nat)

  /** What the service does to the outside world. */
  datatype Effect =
    | OpenStream(source: nat, url: string)
    | CloseStream(source: nat)
    | StartInterval(interval: nat, period: nat)
    | StopInterval(interval: nat)
    | Send(request: Request)
    | Deliver(callback: Callback, update: JsValue)
    | Notify(title: string, body: JsValue, icon: string)

  /** The service's fields, then the browser's part: open streams, running
      intervals, the next fresh handle, pending timers, polls in flight. */
  datatype Service = Service(
    eventSource: Option<nat>, connected: bool, userId: Option<string>, callback: Option<Callback>,
    retryCount: nat, pollingInterval: Option<nat>,
    openSources: set<nat>, intervals: set<nat>, nextId: nat, timers: seq<Timer>, pendingPolls: nat)

  /** A freshly constructed service. */
  const Init: Service := Service(None, false, None, None, 0, None, {}, {}, 1, [], 0)

  /** A transition: the new state and what was done, in order. */
  datatype Step = Step(next: Service, effects: seq<Effect>)

  /** What `getConnectionStatus` reports. */
  datatype Status = Status(connected: bool, retryCount: nat, polling: bool)

  function StatusOf(s: Service): (st: Status)
    ensures st.polling <==> s.pollingInterval.Some?
    ensures st.connected == s.connected && st.retryCount == s.retryCount
  {
    Status(s.connected, s.retryCount, s.pollingInterval.Some?)
  }

  /** `connect`: store the user and callback, reset the retry count and open
      a new stream; the previous stream is not closed. */
  function ConnectStep(s: Service, userId: Option<string>, callback: Option<Callback>): Step {
    var id := s.nextId;
    Step(s.(userId := userId, callback := callback, retryCount := 0, eventSource := Some(id),
            openSources := s.openSources + {id}, nextId := id + 1),
         [OpenStream(id, StreamUrl(userId))])
  }

  /** A stream's `onopen`. */
  function Opened(s: Service): Service {
    s.(connected := true, retryCount := 0)
  }

  /** A stream's `onerror`: disconnected, and one reconnect due after `BaseDelay`. */
  function Errored(s: Service): Service {
    s.(connected := false, timers := s.timers + [ReconnectTimer(BaseDelay)])
  }

  /** The result of handling one update: what was done and whether reading
      `update.message` threw. */
  datatype Handled = Handled(effects: seq<Effect>, threw: bool)

  /** `handlePassUpdate` with `showNotification`: the callback, when there
      is one, gets the update; then, when notifications are granted, one is
      shown with the update's message or the default text. Reading the
      message of `null` or `undefined` throws. */
  function HandleUpdate(callback: Option<Callback>, update: JsValue, granted: bool): Handled {
    var delivered := if callback.Some? then [Deliver(callback.value, update)] else [];
    if !granted then Handled(delivered, false)
    else match Api.PropertyOf(update, "message")
      case None => Handled(delivered, true)
      case Some(m) =>
        Handled(delivered + [Notify(NotificationTitle, if Truthy(m) then m else Str(DefaultBody), NotificationIcon)], false)
  }

  /** The data of a `pass-update` event, as `JSON.parse` sees it. */
  datatype EventData = Json(value: JsValue) | NotJson

  /** The `pass-update` listener: a parse failure or a throw while handling
      is caught and logged; the service's fields never change. */
  function Message(s: Service, data: EventData, granted: bool): Step {
    match data
    case NotJson => Step(s, [])
    case Json(update) => Step(s, HandleUpdate(s.callback, update, granted).effects)
  }

  /** `startPolling`: a new interval every `PollingPeriod`, replacing the
      handle without stopping an interval already running. */
  function StartPollingStep(s: Service): Step {
    var id := s.nextId;
    Step(s.(pollingInterval := Some(id), intervals := s.intervals + {id}, nextId := id + 1),
         [StartInterval(id, PollingPeriod)])
  }

  /** `reconnect`: below the retry limit, a delayed connect after the
      backoff delay; at the limit, the polling fallback. */
  function ReconnectStep(s: Service): Step {
    if s.retryCount < MaxRetries then Step(s.(timers := s.timers + [RetryTimer(BackoffDelay(s.retryCount))]), [])
    else StartPollingStep(s)
  }

  /** The delayed connect: `connect(this.userId, this.onUpdateCallback)`
      with the values at firing time, then `retryCount++`. */
  function RetryFired(s: Service): Step {
    var c := ConnectStep(s, s.userId, s.callback);
    Step(c.next.(retryCount := c.next.retryCount + 1), c.effects)
  }

  /** The pending timers without the one at `i`. */
  function WithoutTimer(timers: seq<Timer>, i: nat): seq<Timer>
    requires i < |timers|
  {
    timers[..i] + timers[i + 1..]
  }

  /** The browser fires pending timer `i`; it is gone afterwards. */
  function FireTimerStep(s: Service, i: nat): Step
    requires i < |s.timers|
  {
    var rest := s.(timers := WithoutTimer(s.timers, i));
    match s.timers[i]
    case ReconnectTimer(_) => ReconnectStep(rest)
    case RetryTimer(_) => RetryFired(rest)
  }

  /** `checkForUpdates`, run by an interval tick: without a user nothing
      happens; otherwise a poll request is sent. */
  function CheckForUpdatesStep(s: Service): Step {
    if !HasUser(s.userId) then Step(s, [])
    else Step(s.(pendingPolls := s.pendingPolls + 1), [Send(Request(Get, CheckUpdatesUrl(s.userId.value)))])
  }

  /** How a poll request settled: an array of updates, or anything else
      (a failed request, a body that is not JSON, a value with no usable
      `length` or `forEach`), which ends in the catch handler. */
  datatype PollResponse = Batch(items: seq<JsValue>) | NoBatch

  /** `updates.forEach(handlePassUpdate)`: in array order, stopping at the
      first update whose handling throws. */
  function HandleBatch(callback: Option<Callback>, items: seq<JsValue>, granted: bool): seq<Effect>
    decreases |items|
  {
    if items == [] then []
    else
      var h := HandleUpdate(callback, items[0], granted);
      if h.threw then h.effects else h.effects + HandleBatch(callback, items[1..], granted)
  }

  /** One more update handled: its effects are logged after `before`, and
      the rest of the batch follows unless it threw. */
  lemma BatchStep(callback: Option<Callback>, items: seq<JsValue>, i: nat, granted: bool,
                  before: seq<Effect>, after: seq<Effect>, threw: bool)
    requires i < |items|
    requires after == before + HandleUpdate(callback, items[i], granted).effects
    requires threw == HandleUpdate(callback, items[i], granted).threw
    ensures threw ==> before + HandleBatch(callback, items[i..], granted) == after
    ensures !threw ==> before + HandleBatch(callback, items[i..], granted) ==
                       after + HandleBatch(callback, items[i + 1..], granted)
  {
    assert items[i..][0] == items[i];
    assert items[i..][1..] == items[i + 1..];
    var h := HandleUpdate(callback, items[i], granted);
    if !threw {
      assert before + (h.effects + HandleBatch(callback, items[i + 1..], granted)) ==
             after + HandleBatch(callback, items[i + 1..], granted);
    }
  }

  /** A poll response arrives and is handled with the callback current at
      that moment. */
  function ResolvePollStep(s: Service, response: PollResponse, granted: bool): Step
    requires s.pendingPolls > 0
  {
    var next := s.(pendingPolls := s.pendingPolls - 1);
    if response.Batch? && |response.items| > 0 then Step(next, HandleBatch(s.callback, response.items, granted))
    else Step(next, [])
  }

  /** `stopPolling`: clears the current interval, if any. */
  function StopPollingStep(s: Service): Step {
    match s.pollingInterval
    case None => Step(s, [])
    case Some(id) => Step(s.(pollingInterval := None, intervals := s.intervals - {id}), [StopInterval(id)])
  }

  /** `disconnect`: stop polling, close the current stream, forget the user
      and callback. The retry count and pending timers stay. */
  function DisconnectStep(s: Service): Step {
    var p := StopPollingStep(s);
    var t := p.next;
    var (closed, effects) :=
      if t.eventSource.Some? then (t.openSources - {t.eventSource.value}, p.effects + [CloseStream(t.eventSource.value)])
      else (t.openSources, p.effects);
    Step(t.(eventSource := None, openSources := closed, connected := false, userId := None, callback := None), effects)
  }

  /** `subscribeToPass`: a POST only when connected and a user is set. */
  function Subscribe(s: Service, passId: string): seq<Effect> {
    if !s.connected || !HasUser(s.userId) then []
    else [Send(Request(Post, PassSubscriptionUrl(s.userId.value, passId)))]
  }

  /** `unsubscribeFromPass`: a DELETE whenever a user is set. */
  function Unsubscribe(s: Service, passId: string): seq<Effect> {
    if !HasUser(s.userId) then []
    else [Send(Request(Delete, PassSubscriptionUrl(s.userId.value, passId)))]
  }

  // ---------------------------------------------------------------------
  // Properties of single transitions

  /** A new service reports itself disconnected, with no retries and no polling. */
  lemma InitialStatus()
    ensures StatusOf(Init) == Status(false, 0, false)
  {
  }

  /** `connect` records the user and callback, resets the retry count and
      opens one new stream at the user's URL without closing any other. */
  lemma ConnectOpensNewStream(s: Service, userId: Option<string>, callback: Option<Callback>)
    requires forall id :: id in s.openSources ==> id < s.nextId
    ensures var t := ConnectStep(s, userId, callback);
            && t.next.userId == userId && t.next.callback == callback && t.next.retryCount == 0
            && t.next.eventSource.Some? && t.next.eventSource.value !in s.openSources
            && t.next.openSources == s.openSources + {t.next.eventSource.value}
            && |t.next.openSources| == |s.openSources| + 1
            && t.effects == [OpenStream(t.next.eventSource.value, StreamUrl(userId))]
            && t.next.connected == s.connected
  {
  }

  /** An error disconnects and schedules exactly one reconnect after one
      second; nothing else changes. */
  lemma ErrorSchedulesOneReconnect(s: Service)
    ensures Errored(s).timers == s.timers + [ReconnectTimer(1000)]
    ensures Errored(s) == s.(connected := false, timers := Errored(s).timers)
  {
  }

  /** A delayed connect always leaves the retry count at exactly one. */
  lemma RetryLeavesCountAtOne(s: Service)
    ensures RetryFired(s).next.retryCount == 1
  {
  }

  /** An update reaches the callback exactly once, before any notification;
      the notification body is the update's message when truthy and the
      default text otherwise. */
  lemma UpdateDeliveredThenNotified(callback: Option<Callback>, update: JsValue, granted: bool)
    ensures var h := HandleUpdate(callback, update, granted);
            && (callback.Some? ==> |h.effects| >= 1 && h.effects[0] == Deliver(callback.value, update))
            && (callback.None? ==> forall e :: e in h.effects ==> !e.Deliver?)
            && (h.threw <==> granted && (update == Undefined || update == Null))
            && (!granted || h.threw ==> |h.effects| == (if callback.Some? then 1 else 0))
            && (granted && !h.threw ==>
                  var m := Api.PropertyOf(update, "message").value;
                  h.effects[|h.effects| - 1] == Notify(NotificationTitle, if Truthy(m) then m else Str(DefaultBody), NotificationIcon))
  {
  }

  /** An update with no message is announced with the default text. */
  lemma MissingMessageUsesDefault(fields: Entries)
    requires "message" !in Keys(fields)
    ensures HandleUpdate(None, Obj(fields), true).effects == [Notify(NotificationTitle, Str(DefaultBody), NotificationIcon)]
  {
    GetAbsent(fields, "message");
  }

  /** Without notifications, a polled batch reaches the callback once per
      update, in array order. */
  lemma {:induction false} BatchDeliveredInOrder(c: Callback, items: seq<JsValue>)
    ensures |HandleBatch(Some(c), items, false)| == |items|
    ensures forall i :: 0 <= i < |items| ==> HandleBatch(Some(c), items, false)[i] == Deliver(c, items[i])
  {
    if items != [] {
      BatchDeliveredInOrder(c, items[1..]);
      assert forall i :: 1 <= i < |items| ==> items[i] == items[1..][i - 1];
    }
  }

  /** With notifications on, an update of `null` ends the batch: the updates
      after it are never handled. */
  lemma {:induction false} BatchStopsAtNull(c: Callback, items: seq<JsValue>, k: nat)
    requires k < |items| && items[k] == Null
    requires forall i :: 0 <= i < k ==> items[i].Obj?
    ensures Deliver(c, items[k]) in HandleBatch(Some(c), items, true)
    ensures forall i :: k < i < |items| && items[i] !in items[..k + 1] ==>
              Deliver(c, items[i]) !in HandleBatch(Some(c), items, true)
  {
    var h := HandleUpdate(Some(c), items[0], true);
    if k == 0 {
      assert h.effects == [Deliver(c, items[0])];
    } else {
      BatchStopsAtNull(c, items[1..], k - 1);
      assert items[1..][..k] == items[1..k + 1];
      forall i | k < i < |items| && items[i] !in items[..k + 1]
        ensures Deliver(c, items[i]) !in HandleBatch(Some(c), items, true)
      {
        assert items[i] == items[1..][i - 1];
        assert items[i] != items[0];
        assert items[i] !in items[1..][..k];
      }
    }
  }

  /** Subscribing needs a live connection and a user; unsubscribing only a
      user; a poll tick without a user does nothing. */
  lemma RequestGuards(s: Service, passId: string)
    ensures Subscribe(s, passId) == [] <==> !s.connected || !HasUser(s.userId)
    ensures Unsubscribe(s, passId) == [] <==> !HasUser(s.userId)
    ensures !HasUser(s.userId) ==> CheckForUpdatesStep(s) == Step(s, [])
    ensures HasUser(s.userId) ==> CheckForUpdatesStep(s).effects == [Send(Request(Get, CheckUpdatesUrl(s.userId.value)))]
  {
  }

  /** `disconnect` clears the stream, user, callback and polling, keeps the
      retry count and the pending timers, and a second call changes nothing. */
  lemma DisconnectClearsAndIsIdempotent(s: Service)
    ensures var d := DisconnectStep(s).next;
            && d.eventSource == None && !d.connected && d.userId == None && d.callback == None
            && d.pollingInterval == None && d.retryCount == s.retryCount && d.timers == s.timers
            && !StatusOf(d).polling
            && DisconnectStep(d) == Step(d, [])
  {
  }

  /** A retry timer scheduled before `disconnect` still fires afterwards and
      reconnects as user "null": a new stream opens at `/subscribe/null`
      with no user and no callback, and the retry count becomes one. */
  lemma StaleRetryReconnectsAsNull(s: Service, i: nat)
    requires i < |s.timers| && s.timers[i].RetryTimer?
    ensures var d := DisconnectStep(s).next;
            var t := FireTimerStep(d, i);
            && t.effects == [OpenStream(d.nextId, ServiceBase + "/api/sse/subscribe/null")]
            && t.next.eventSource == Some(d.nextId) && t.next.userId == None && t.next.callback == None
            && t.next.retryCount == 1
  {
    var d := DisconnectStep(s).next;
    assert d.timers == s.timers && d.userId == None && d.callback == None;
    var rest := d.(timers := WithoutTimer(d.timers, i));
    assert FireTimerStep(d, i) == RetryFired(rest);
    assert StreamUrl(rest.userId) == ServiceBase + "/api/sse/subscribe/null";
  }

  // ---------------------------------------------------------------------
  // The reachable states

  predicate TimerOk(t: Timer) {
    match t
    case ReconnectTimer(d) => d == BaseDelay
    case RetryTimer(d) => d == 1000 || d == 2000
  }

  /** What holds in every reachable state: at most one retry counted, every
      timer's delay one or two seconds, handles below the next fresh one,
      the current stream open and the current interval running. */
  predicate Inv(s: Service) {
    && s.retryCount <= 1
    && (forall i :: 0 <= i < |s.timers| ==> TimerOk(s.timers[i]))
    && (forall id :: id in s.openSources ==> id < s.nextId)
    && (forall id :: id in s.intervals ==> id < s.nextId)
    && (s.eventSource.Some? ==> s.eventSource.value in s.openSources)
    && (s.pollingInterval.Some? ==> s.pollingInterval.value in s.intervals)
  }

  /** No polling interval exists. */
  predicate NotPolling(s: Service) {
    s.pollingInterval == None && s.intervals == {}
  }

  /** With the retry count at most one, `reconnect` never reaches the
      polling fallback: it schedules one delayed connect after one or two
      seconds and changes nothing else. */
  lemma ReconnectBelowLimit(s: Service)
    requires s.retryCount <= 1
    ensures ReconnectStep(s) == Step(s.(timers := s.timers + [RetryTimer(if s.retryCount == 0 then 1000 else 2000)]), [])
  {
  }

  /** The fallback exists only from a retry count of five upward. */
  lemma ReconnectAtLimitPolls(s: Service)
    requires s.retryCount >= MaxRetries
    ensures ReconnectStep(s) == StartPollingStep(s)
    ensures StartPollingStep(s).next.pollingInterval == Some(s.nextId)
  {
  }

  lemma WithoutTimerOk(timers: seq<Timer>, i: nat)
    requires i < |timers|
    requires forall j :: 0 <= j < |timers| ==> TimerOk(timers[j])
    ensures forall j :: 0 <= j < |WithoutTimer(timers, i)| ==> TimerOk(WithoutTimer(timers, i)[j])
  {
    forall j | 0 <= j < |WithoutTimer(timers, i)|
      ensures TimerOk(WithoutTimer(timers, i)[j])
    {
      if j < i {
        assert WithoutTimer(timers, i)[j] == timers[j];
      } else {
        assert WithoutTimer(timers, i)[j] == timers[j + 1];
      }
    }
  }

  /** Firing a timer keeps the invariant and never starts polling. */
  lemma FireTimerKeepsInv(s: Service, i: nat)
    requires Inv(s) && i < |s.timers|
    ensures Inv(FireTimerStep(s, i).next)
    ensures FireTimerStep(s, i).next.pollingInterval == s.pollingInterval
    ensures FireTimerStep(s, i).next.intervals == s.intervals
  {
    var rest := s.(timers := WithoutTimer(s.timers, i));
    WithoutTimerOk(s.timers, i);
    assert Inv(rest);
    match s.timers[i]
    case ReconnectTimer(_) =>
      ReconnectBelowLimit(rest);
      var t := ReconnectStep(rest).next;
      assert forall j :: 0 <= j < |t.timers| ==> TimerOk(t.timers[j]) by {
        forall j | 0 <= j < |t.timers| ensures TimerOk(t.timers[j]) {
          if j < |rest.timers| { assert t.timers[j] == rest.timers[j]; }
        }
      }
    case RetryTimer(_) =>
  }

  /** Everything that can happen to the service: the public methods, and
      the browser firing a stream event, a timer, an interval tick or a
      poll response. */
  datatype Action =
    | DoConnect(userId: Option<string>, callback: Option<Callback>)
    | DoSubscribe(passId: string)
    | DoUnsubscribe(passId: string)
    | DoStartPolling
    | DoStopPolling
    | DoDisconnect
    | SourceOpened(source: nat)
    | SourceErrored(source: nat)
    | SourceMessage(source: nat, data: EventData, granted: bool)
    | TimerFired(index: nat)
    | IntervalTicked(interval: nat)
    | PollResolved(response: PollResponse, granted: bool)

  /** Events come only from open streams, pending timers, running
      intervals and requests in flight. */
  predicate Enabled(s: Service, a: Action) {
    match a
    case SourceOpened(src) => src in s.openSources
    case SourceErrored(src) => src in s.openSources
    case SourceMessage(src, _, _) => src in s.openSources
    case TimerFired(i) => i < |s.timers|
    case IntervalTicked(id) => id in s.intervals
    case PollResolved(_, _) => s.pendingPolls > 0
    case _ => true
  }

  function Apply(s: Service, a: Action): Step
    requires Enabled(s, a)
  {
    match a
    case DoConnect(userId, callback) => ConnectStep(s, userId, callback)
    case DoSubscribe(passId) => Step(s, Subscribe(s, passId))
    case DoUnsubscribe(passId) => Step(s, Unsubscribe(s, passId))
    case DoStartPolling => StartPollingStep(s)
    case DoStopPolling => StopPollingStep(s)
    case DoDisconnect => DisconnectStep(s)
    case SourceOpened(_) => Step(Opened(s), [])
    case SourceErrored(_) => Step(Errored(s), [])
    case SourceMessage(_, data, granted) => Message(s, data, granted)
    case TimerFired(i) => FireTimerStep(s, i)
    case IntervalTicked(_) => CheckForUpdatesStep(s)
    case PollResolved(response, granted) => ResolvePollStep(s, response, granted)
  }

  /** Every transition keeps the invariant; every transition but an
      explicit `startPolling` keeps a service that is not polling that way. */
  lemma ApplyKeepsInv(s: Service, a: Action)
    requires Inv(s) && Enabled(s, a)
    ensures Inv(Apply(s, a).next)
    ensures NotPolling(s) && !a.DoStartPolling? ==> NotPolling(Apply(s, a).next)
  {
    match a
    case TimerFired(i) => FireTimerKeepsInv(s, i);
    case SourceErrored(_) =>
      var t := Errored(s);
      assert forall j :: 0 <= j < |t.timers| ==> TimerOk(t.timers[j]) by {
        forall j | 0 <= j < |t.timers| ensures TimerOk(t.timers[j]) {
          if j < |s.timers| { assert t.timers[j] == s.timers[j]; }
        }
      }
    case _ =>
  }

  /** The state after a sequence of actions and everything done on the
      way, in order, or `None` when one of the actions could not have
      happened. */
  function Run(s: Service, trace: seq<Action>): Option<Step>
    decreases |trace|
  {
    if trace == [] then Some(Step(s, []))
    else if !Enabled(s, trace[0]) then None
    else
      var first := Apply(s, trace[0]);
      match Run(first.next, trace[1..])
      case None => None
      case Some(rest) => Some(Step(rest.next, first.effects + rest.effects))
  }

  lemma {:induction false} RunKeepsInv(s: Service, trace: seq<Action>)
    requires Inv(s) && Run(s, trace).Some?
    ensures Inv(Run(s, trace).value.next)
    ensures NotPolling(s) && (forall i :: 0 <= i < |trace| ==> !trace[i].DoStartPolling?) ==>
              NotPolling(Run(s, trace).value.next)
    decreases |trace|
  {
    if trace != [] {
      ApplyKeepsInv(s, trace[0]);
      RunKeepsInv(Apply(s, trace[0]).next, trace[1..]);
      assert forall i :: 1 <= i < |trace| ==> trace[i] == trace[1..][i - 1];
    }
  }

  /** In every state reachable from a new service the retry count is zero
      or one, so every scheduled retry waits one or two seconds, and the
      service polls only if a caller asked for polling explicitly: the
      fallback in `reconnect` is never taken. */
  lemma ReachableStates(trace: seq<Action>)
    requires Run(Init, trace).Some?
    ensures var s := Run(Init, trace).value.next;
            && s.retryCount <= 1
            && (forall i :: 0 <= i < |s.timers| && s.timers[i].RetryTimer? ==>
                  s.timers[i].delay == 1000 || s.timers[i].delay == 2000)
            && ((forall i :: 0 <= i < |trace| ==> !trace[i].DoStartPolling?) ==> !StatusOf(s).polling)
  {
    RunKeepsInv(Init, trace);
    var s := Run(Init, trace).value.next;
    assert forall i :: 0 <= i < |s.timers| ==> TimerOk(s.timers[i]);
  }

  /** No request goes out: nothing in `effects` is a `Send`. */
  predicate SendsNothing(effects: seq<Effect>) {
    forall i :: 0 <= i < |effects| ==> !effects[i].Send?
  }

  lemma SendsNothingConcat(a: seq<Effect>, b: seq<Effect>)
    requires SendsNothing(a) && SendsNothing(b)
    ensures SendsNothing(a + b)
  {
    assert forall i :: |a| <= i < |a + b| ==> (a + b)[i] == b[i - |a|];
  }

  /** Handling polled updates only delivers and notifies. */
  lemma {:induction false} BatchSendsNothing(callback: Option<Callback>, items: seq<JsValue>, granted: bool)
    ensures SendsNothing(HandleBatch(callback, items, granted))
    decreases |items|
  {
    if items != [] {
      var h := HandleUpdate(callback, items[0], granted);
      if !h.threw {
        BatchSendsNothing(callback, items[1..], granted);
        SendsNothingConcat(h.effects, HandleBatch(callback, items[1..], granted));
      }
    }
  }

  /** Without a user, no action other than `connect` sets one or sends a
      request: a leaked interval's tick, a stale retry, a poll answer, a
      subscribe or an unsubscribe all send nothing. */
  lemma ApplyWithoutUser(s: Service, a: Action)
    requires s.userId == None && Enabled(s, a) && !a.DoConnect?
    ensures Apply(s, a).next.userId == None
    ensures SendsNothing(Apply(s, a).effects)
  {
    match a
    case PollResolved(response, granted) =>
      if response.Batch? && |response.items| > 0 {
        BatchSendsNothing(s.callback, response.items, granted);
      }
    case _ =>
  }

  /** Over any run without `connect` from a state without a user, the user
      stays unset and not one request is sent. */
  lemma {:induction false} RunWithoutUser(s: Service, trace: seq<Action>)
    requires s.userId == None && Run(s, trace).Some?
    requires forall i :: 0 <= i < |trace| ==> !trace[i].DoConnect?
    ensures Run(s, trace).value.next.userId == None
    ensures SendsNothing(Run(s, trace).value.effects)
    decreases |trace|
  {
    if trace != [] {
      var first := Apply(s, trace[0]);
      ApplyWithoutUser(s, trace[0]);
      assert forall i :: 1 <= i < |trace| ==> trace[i] == trace[1..][i - 1];
      RunWithoutUser(first.next, trace[1..]);
      SendsNothingConcat(first.effects, Run(first.next, trace[1..]).value.effects);
    }
  }

  /** The teardown promise over whole runs: after `disconnect`, until the
      next `connect`, no poll, subscribe or unsubscribe request is sent and
      no user is set, whatever the intervals, retry timers and polls still
      in flight do. */
  lemma NothingSentAfterDisconnect(s: Service, trace: seq<Action>)
    requires Run(s, [DoDisconnect] + trace).Some?
    requires forall i :: 0 <= i < |trace| ==> !trace[i].DoConnect?
    ensures Run(s, [DoDisconnect] + trace).value.next.userId == None
    ensures SendsNothing(Run(s, [DoDisconnect] + trace).value.effects)
  {
    var t := [DoDisconnect] + trace;
    assert t[0] == DoDisconnect && t[1..] == trace;
    var d := DisconnectStep(s);
    assert SendsNothing(d.effects);
    RunWithoutUser(d.next, trace);
    SendsNothingConcat(d.effects, Run(d.next, trace).value.effects);
  }

  // ---------------------------------------------------------------------
  // The class

  /** The service object: the six fields of the source plus the browser's
      bookkeeping, and a ghost log of everything it has done. */
  class PassUpdateService {
    var eventSource: Option<nat>
    var connected: bool
    var userId: Option<string>
    var onUpdateCallback: Option<Callback>
    var retryCount: nat
    var pollingInterval: Option<nat>
    var openSources: set<nat>
    var intervals: set<nat>
    var nextId: nat
    var timers: seq<Timer>
    var pendingPolls: nat
    ghost var log: seq<Effect>

    /** The service's state; the log is not part of it. */
    function Snapshot(): Service
      reads this`eventSource, this`connected, this`userId, this`onUpdateCallback, this`retryCount,
            this`pollingInterval, this`openSources, this`intervals, this`nextId, this`timers, this`pendingPolls
    {
      Service(eventSource, connected, userId, onUpdateCallback, retryCount, pollingInterval,
              openSources, intervals, nextId, timers, pendingPolls)
    }

    constructor()
      ensures Snapshot() == Init && log == []
    {
      eventSource := None;
      connected := false;
      userId := None;
      onUpdateCallback := None;
      retryCount := 0;
      pollingInterval := None;
      openSources := {};
      intervals := {};
      nextId := 1;
      timers := [];
      pendingPolls := 0;
      log := [];
    }

    method Connect(userId: Option<string>, callback: Option<Callback>)
      modifies this
      ensures var t := ConnectStep(old(Snapshot()), userId, callback);
              Snapshot() == t.next && log == old(log) + t.effects
    {
      this.userId := userId;
      onUpdateCallback := callback;
      retryCount := 0;
      var id := nextId;
      nextId := nextId + 1;
      eventSource := Some(id);
      openSources := openSources + {id};
      log := log + [OpenStream(id, StreamUrl(userId))];
    }

    method OnOpen(source: nat)
      requires source in openSources
      modifies this
      ensures Snapshot() == Opened(old(Snapshot())) && log == old(log)
    {
      connected := true;
      retryCount := 0;
    }

    method OnError(source: nat)
      requires source in openSources
      modifies this
      ensures Snapshot() == Errored(old(Snapshot())) && log == old(log)
    {
      connected := false;
      timers := timers + [ReconnectTimer(BaseDelay)];
    }

    /** `handlePassUpdate`; `threw` reports the TypeError of reading the
        message of `null` or `undefined`. */
    method HandlePassUpdate(update: JsValue, granted: bool) returns (threw: bool)
      modifies this`log
      ensures var h := HandleUpdate(onUpdateCallback, update, granted);
              log == old(log) + h.effects && threw == h.threw
    {
      if onUpdateCallback.Some? {
        log := log + [Deliver(onUpdateCallback.value, update)];
      }
      threw := false;
      if granted {
        var message := Api.PropertyOf(update, "message");
        if message.None? {
          threw := true;
          return;
        }
        var body := if Truthy(message.value) then message.value else Str(DefaultBody);
        log := log + [Notify(NotificationTitle, body, NotificationIcon)];
      }
    }

    method OnPassUpdate(source: nat, data: EventData, granted: bool)
      requires source in openSources
      modifies this`log
      ensures log == old(log) + Message(Snapshot(), data, granted).effects
    {
      if data.Json? {
        var _ := HandlePassUpdate(data.value, granted);
      }
    }

    method SubscribeToPass(passId: string)
      modifies this`log
      ensures log == old(log) + Subscribe(Snapshot(), passId)
    {
      if !connected || !HasUser(userId) {
        return;
      }
      log := log + [Send(Request(Post, PassSubscriptionUrl(userId.value, passId)))];
    }

    method UnsubscribeFromPass(passId: string)
      modifies this`log
      ensures log == old(log) + Unsubscribe(Snapshot(), passId)
    {
      if !HasUser(userId) {
        return;
      }
      log := log + [Send(Request(Delete, PassSubscriptionUrl(userId.value, passId)))];
    }

    method StartPolling()
      modifies this
      ensures var t := StartPollingStep(old(Snapshot()));
              Snapshot() == t.next && log == old(log) + t.effects
    {
      var id := nextId;
      nextId := nextId + 1;
      pollingInterval := Some(id);
      intervals := intervals + {id};
      log := log + [StartInterval(id, PollingPeriod)];
    }

    method Reconnect()
      modifies this
      ensures var t := ReconnectStep(old(Snapshot()));
              Snapshot() == t.next && log == old(log) + t.effects
    {
      if retryCount < MaxRetries {
        var delay := BaseDelay * Pow2(retryCount);
        timers := timers + [RetryTimer(delay)];
      } else {
        StartPolling();
      }
    }

    /** The browser fires pending timer `i`. */
    method FireTimer(i: nat)
      requires i < |timers|
      modifies this
      ensures var t := FireTimerStep(old(Snapshot()), i);
              Snapshot() == t.next && log == old(log) + t.effects
    {
      var timer := timers[i];
      timers := timers[..i] + timers[i + 1..];
      match timer {
        case ReconnectTimer(_) =>
          Reconnect();
        case RetryTimer(_) =>
          Connect(userId, onUpdateCallback);
          retryCount := retryCount + 1;
      }
    }

    /** An interval tick runs `checkForUpdates`. */
    method CheckForUpdates(interval: nat)
      requires interval in intervals
      modifies this
      ensures var t := CheckForUpdatesStep(old(Snapshot()));
              Snapshot() == t.next && log == old(log) + t.effects
    {
      if !HasUser(userId) {
        return;
      }
      pendingPolls := pendingPolls + 1;
      log := log + [Send(Request(Get, CheckUpdatesUrl(userId.value)))];
    }

    /** A poll response arrives; an array of updates is handled in order. */
    method ResolvePoll(response: PollResponse, granted: bool)
      requires pendingPolls > 0
      modifies this
      ensures var t := ResolvePollStep(old(Snapshot()), response, granted);
              Snapshot() == t.next && log == old(log) + t.effects
    {
      pendingPolls := pendingPolls - 1;
      if response.NoBatch? || |response.items| == 0 {
        return;
      }
      HandleUpdates(response.items, granted);
    }

    /** `updates.forEach(update => this.handlePassUpdate(update))`, ended
        early by the first update whose handling throws. */
    method HandleUpdates(updates: seq<JsValue>, granted: bool)
      modifies this`log
      ensures log == old(log) + HandleBatch(onUpdateCallback, updates, granted)
    {
      var i := 0;
      while i < |updates|
        invariant 0 <= i <= |updates|
        invariant old(log) + HandleBatch(onUpdateCallback, updates, granted) ==
                  log + HandleBatch(onUpdateCallback, updates[i..], granted)
      {
        ghost var before := log;
        var threw := HandlePassUpdate(updates[i], granted);
        BatchStep(onUpdateCallback, updates, i, granted, before, log, threw);
        if threw {
          return;
        }
        i := i + 1;
      }
    }

    method StopPolling()
      modifies this
      ensures var t := StopPollingStep(old(Snapshot()));
              Snapshot() == t.next && log == old(log) + t.effects
    {
      if pollingInterval.Some? {
        intervals := intervals - {pollingInterval.value};
        log := log + [StopInterval(pollingInterval.value)];
        pollingInterval := None;
      }
    }

    method GetConnectionStatus() returns (status: Status)
      ensures status == StatusOf(Snapshot())
    {
      status := Status(connected, retryCount, pollingInterval.Some?);
    }

    method Disconnect()
      modifies this
      ensures var t := DisconnectStep(old(Snapshot()));
              Snapshot() == t.next && log == old(log) + t.effects
    {
      StopPolling();
      if eventSource.Some? {
        openSources := openSources - {eventSource.value};
        log := log + [CloseStream(eventSource.value)];
        eventSource := None;
      }
      connected := false;
      userId := None;
      onUpdateCallback := None;
    }
  }
}
