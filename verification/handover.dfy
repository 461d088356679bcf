/**
 * The handover sequencer `BluetoothOppHandover`, as written: make sure local
 * Bluetooth is on, optionally wait out the remote side's enable budget, then
 * hand one OBEX push request to the Bluetooth application.
 *
 * The object's mutable fields become an immutable `Handover` record and each
 * entry point (`start`, the broadcast receiver, the Handler callback) a pure
 * function from record to record. Platform calls (receiver registration,
 * Handler messages, the failure toast, startActivity) are not performed but
 * appended to an effect log; the clock is a `now` parameter.
 */
module BluetoothOppHandover {
  import opened Wrappers
  import opened MimeTypes

  /** STATE_INIT, STATE_TURNING_ON, STATE_WAITING, STATE_COMPLETE. */
  datatype State = StateInit | StateTurningOn | StateWaiting | StateComplete

  /** REMOTE_BT_ENABLE_DELAY_MS: the time the remote radio is given to come up. */
  const RemoteEnableDelayMs: nat := 3000

  /** The remote device, known by its Bluetooth address. */
  datatype Device = Device(address: string)

  /** What the sequencer is constructed with; fixed for its lifetime. */
  datatype Config = Config(device: Device, uris: seq<Uri>, remoteActivating: bool)

  /** The answers of the power manager: isBluetoothEnabled() and enableBluetooth(). */
  datatype Power = Power(enabled: bool, enableAccepted: bool)

  /** The adapter power states a broadcast can report (BluetoothAdapter.STATE_* and ERROR). */
  datatype AdapterState = AdapterOff | AdapterTurningOn | AdapterOn | AdapterTurningOff | AdapterError

  /** The action of a received intent: ACTION_STATE_CHANGED or anything else. */
  datatype IntentAction = StateChanged | OtherAction(name: string)

  /** A received intent: its action and its EXTRA_STATE extra, if present. */
  datatype Broadcast = Broadcast(action: IntentAction, extraState: Option<AdapterState>)

  /** getIntExtra(EXTRA_STATE, ERROR): a missing extra reads as ERROR. */
  function ReportedState(b: Broadcast): (s: AdapterState)
    ensures b.extraState.None? ==> s == AdapterError
    ensures b.extraState.Some? ==> s == b.extraState.value
  {
    b.extraState.GetOr(AdapterError)
  }

  /** ACTION_SEND or ACTION_SEND_MULTIPLE. */
  datatype SendAction = ActionSend | ActionSendMultiple

  /** EXTRA_STREAM: one Uri, or a list of them. */
  datatype Stream = SingleStream(uri: Uri) | StreamList(uris: seq<Uri>)

  /** The resources a stream carries, in order. */
  function StreamUris(s: Stream): seq<Uri> {
    match s
    case SingleStream(u) => [u]
    case StreamList(us) => us
  }

  /** The intent handed to startActivity. */
  datatype SendRequest = SendRequest(
    action: SendAction,
    device: Device,
    mimeType: Option<string>,
    stream: Stream,
    connectionHandover: bool)

  /** A MSG_START_SEND message posted at `postedAt` with delay `delay`. */
  datatype Timer = Timer(postedAt: nat, delay: nat) {
    function Due(): nat { postedAt + delay }
  }

  /** The platform calls the sequencer makes, in the order it makes them. */
  datatype Effect =
    | RegisterReceiver
    | UnregisterReceiver
    | ShowFailureToast
    | SendMessageDelayed(delay: nat)
    | StartActivity(request: SendRequest, at: nat)

  /** The mutable state of one sequencer; `startTime` is None until start() runs. */
  datatype Handover = Handover(
    cfg: Config,
    state: State,
    startTime: Option<nat>,
    pending: seq<Timer>,
    log: seq<Effect>)

  /** The sequencer just after construction: INIT, no start time, nothing posted or done. */
  function Initial(cfg: Config): (h: Handover)
    ensures h.cfg == cfg && h.state == StateInit && h.startTime.None?
    ensures h.pending == [] && h.log == []
    ensures Valid(h) <==> |cfg.uris| > 0
  {
    Handover(cfg, StateInit, None, [], [])
  }

  /**
   * What every reachable sequencer satisfies and the source relies on:
   * it has at least one resource (uris[0] is read unguarded), and
   * mStartTime is set whenever the state is TURNING_ON.
   */
  predicate Valid(h: Handover) {
    |h.cfg.uris| > 0 && (h.state == StateTurningOn ==> h.startTime.Some?)
  }

  /** complete(): enter COMPLETE and unregister the receiver. */
  function Complete(h: Handover): (r: Handover)
    ensures r.state == StateComplete
    ensures r.log == h.log + [UnregisterReceiver]
    ensures r.cfg == h.cfg && r.startTime == h.startTime && r.pending == h.pending
  {
    h.(state := StateComplete, log := h.log + [UnregisterReceiver])
  }

  /** Posts MSG_START_SEND with the given delay. */
  function Schedule(h: Handover, now: nat, delay: nat): (r: Handover)
    ensures r.pending == h.pending + [Timer(now, delay)]
    ensures r.log == h.log + [SendMessageDelayed(delay)]
    ensures r.cfg == h.cfg && r.state == h.state && r.startTime == h.startTime
  {
    h.(pending := h.pending + [Timer(now, delay)], log := h.log + [SendMessageDelayed(delay)])
  }

  /** The intent built by sendIntent(). */
  function BuildRequest(res: Resolver, cfg: Config): (r: SendRequest)
    requires |cfg.uris| > 0
    ensures r.action == ActionSend <==> |cfg.uris| == 1
    ensures r.action == ActionSend <==> r.stream.SingleStream?
    ensures StreamUris(r.stream) == cfg.uris
    ensures r.mimeType == MimeTypeForUri(res, cfg.uris[0])
    ensures r.device == cfg.device
    ensures r.connectionHandover
  {
    var mime := MimeTypeForUri(res, cfg.uris[0]);
    if |cfg.uris| == 1 then
      SendRequest(ActionSend, cfg.device, mime, SingleStream(cfg.uris[0]), true)
    else
      SendRequest(ActionSendMultiple, cfg.device, mime, StreamList(cfg.uris), true)
  }

  /** sendIntent(): start the push activity, then complete(). */
  function SendIntent(res: Resolver, h: Handover, now: nat): (r: Handover)
    requires |h.cfg.uris| > 0
    ensures r.state == StateComplete
    ensures r.log == h.log + [StartActivity(BuildRequest(res, h.cfg), now), UnregisterReceiver]
    ensures r.cfg == h.cfg && r.startTime == h.startTime && r.pending == h.pending
  {
    Complete(h.(log := h.log + [StartActivity(BuildRequest(res, h.cfg), now)]))
  }

  /** start(): record the start time, register the receiver, then branch on the radio. */
  function Start(res: Resolver, h: Handover, now: nat, power: Power): (r: Handover)
    requires |h.cfg.uris| > 0
    ensures r.cfg == h.cfg && r.startTime == Some(now)
    // radio off, enable accepted: wait for the broadcast
    ensures !power.enabled && power.enableAccepted ==>
              r.state == StateTurningOn && r.pending == h.pending
              && r.log == h.log + [RegisterReceiver]
    // radio off, enable refused: toast, then complete
    ensures !power.enabled && !power.enableAccepted ==>
              r.state == StateComplete && r.pending == h.pending
              && r.log == h.log + [RegisterReceiver, ShowFailureToast, UnregisterReceiver]
    // radio on, remote activating: one delayed send of the full budget; the state is not changed
    ensures power.enabled && h.cfg.remoteActivating ==>
              r.state == h.state && r.pending == h.pending + [Timer(now, RemoteEnableDelayMs)]
              && r.log == h.log + [RegisterReceiver, SendMessageDelayed(RemoteEnableDelayMs)]
    // radio on, remote ready: send synchronously
    ensures power.enabled && !h.cfg.remoteActivating ==>
              r.state == StateComplete && r.pending == h.pending
              && r.log == h.log + [RegisterReceiver, StartActivity(BuildRequest(res, h.cfg), now), UnregisterReceiver]
  {
    var registered := h.(startTime := Some(now), log := h.log + [RegisterReceiver]);
    if !power.enabled then
      if power.enableAccepted then registered.(state := StateTurningOn)
      else Complete(registered.(log := registered.log + [ShowFailureToast]))
    else if h.cfg.remoteActivating then
      Schedule(registered, now, RemoteEnableDelayMs)
    else
      SendIntent(res, registered, now)
  }

  /** The delay added on an ON broadcast: what is left of the budget, counted from start(). */
  function RemainingDelay(h: Handover, now: nat): (d: nat)
    requires h.startTime.Some? && h.startTime.value <= now
    requires now - h.startTime.value < RemoteEnableDelayMs
    ensures 0 < d <= RemoteEnableDelayMs
    ensures now + d == h.startTime.value + RemoteEnableDelayMs
  {
    RemoteEnableDelayMs - (now - h.startTime.value)
  }

  /**
   * True when an ON broadcast must wait for the remote side rather than send
   * at once: the remote side is activating and `now` is still before the end
   * of the budget counted from start().
   */
  function MustDelay(h: Handover, now: nat): (wait: bool)
    requires h.startTime.Some? && h.startTime.value <= now
    ensures wait <==> h.cfg.remoteActivating && now < h.startTime.value + RemoteEnableDelayMs
  {
    h.cfg.remoteActivating && now - h.startTime.value < RemoteEnableDelayMs
  }

  /** handleIntent(): the receiver of adapter state broadcasts. */
  function HandleIntent(res: Resolver, h: Handover, b: Broadcast, now: nat): (r: Handover)
    requires |h.cfg.uris| > 0
    requires h.state == StateTurningOn ==> h.startTime.Some? && h.startTime.value <= now
    ensures r.cfg == h.cfg && r.startTime == h.startTime
    // nothing happens unless a state change arrives while TURNING_ON
    ensures b.action != StateChanged || h.state != StateTurningOn ==> r == h
    ensures h.state == StateTurningOn && b.action == StateChanged ==>
              match ReportedState(b)
              case AdapterOn =>
                if MustDelay(h, now) then
                  // the state stays TURNING_ON and the send is due exactly at start + budget
                  r.state == StateTurningOn
                  && |r.pending| == |h.pending| + 1 && r.pending[..|h.pending|] == h.pending
                  && var t := r.pending[|h.pending|];
                     t.postedAt == now && 0 < t.delay <= RemoteEnableDelayMs
                     && t.Due() == h.startTime.value + RemoteEnableDelayMs
                     && r.log == h.log + [SendMessageDelayed(t.delay)]
                else
                  r.state == StateComplete && r.pending == h.pending
                  && r.log == h.log + [StartActivity(BuildRequest(res, h.cfg), now), UnregisterReceiver]
              case AdapterOff =>
                // silent abort: no toast, no send
                r.state == StateComplete && r.pending == h.pending
                && r.log == h.log + [UnregisterReceiver]
              case _ => r == h
  {
    if b.action == StateChanged && h.state == StateTurningOn then
      match ReportedState(b)
      case AdapterOn =>
        if MustDelay(h, now) then Schedule(h, now, RemainingDelay(h, now))
        else SendIntent(res, h, now)
      case AdapterOff => Complete(h)
      case _ => h
    else
      h
  }

  /** The pending timers once the `i`-th has been delivered. */
  function RemoveAt(ts: seq<Timer>, i: nat): (r: seq<Timer>)
    requires i < |ts|
    ensures |r| == |ts| - 1
    ensures forall j :: 0 <= j < i ==> r[j] == ts[j]
    ensures forall j :: i <= j < |r| ==> r[j] == ts[j + 1]
  {
    ts[..i] + ts[i + 1..]
  }

  /**
   * handleMessage(): the Handler delivers the `i`-th pending MSG_START_SEND.
   * The state is not consulted: the send happens whatever the state.
   */
  function HandleMessage(res: Resolver, h: Handover, i: nat, now: nat): (r: Handover)
    requires |h.cfg.uris| > 0
    requires i < |h.pending|
    ensures r.cfg == h.cfg && r.startTime == h.startTime
    ensures r.pending == RemoveAt(h.pending, i)
    ensures r.state == StateComplete
    ensures r.log == h.log + [StartActivity(BuildRequest(res, h.cfg), now), UnregisterReceiver]
  {
    SendIntent(res, h.(pending := RemoveAt(h.pending, i)), now)
  }
}
