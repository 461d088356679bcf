/**
 * Runs of the sequencer: start() followed by any sequence of broadcasts and
 * Handler deliveries, and what holds of the effects they produce.
 */
module HandoverTraces {
  import opened Wrappers
  import opened MimeTypes
  import opened BluetoothOppHandover

  /** One input to the sequencer. */
  datatype Event =
    | StartCalled(now: nat, power: Power)
    | BroadcastReceived(intent: Broadcast, now: nat)
    | MessageDelivered(index: nat, now: nat)

  /**
   * What the platform guarantees about when an event can arrive:
   * start() is called once, first; a broadcast carries a time no earlier
   * than the start time; the Handler delivers only a message that is
   * pending, at a time no earlier than it is due. Successive events are not
   * otherwise ordered in time.
   */
  predicate Enabled(h: Handover, e: Event) {
    match e
    case StartCalled(_, _) => h.startTime.None?
    case BroadcastReceived(_, now) => h.startTime.Some? && h.startTime.value <= now
    case MessageDelivered(i, now) => i < |h.pending| && h.pending[i].Due() <= now
  }

  function Step(res: Resolver, h: Handover, e: Event): (r: Handover)
    requires Valid(h) && Enabled(h, e)
    ensures Valid(r) && r.cfg == h.cfg
  {
    match e
    case StartCalled(now, power) => Start(res, h, now, power)
    case BroadcastReceived(b, now) => HandleIntent(res, h, b, now)
    case MessageDelivered(i, now) => HandleMessage(res, h, i, now)
  }

  /** Every event of `es` is enabled in the state it reaches. */
  predicate Feasible(res: Resolver, h: Handover, es: seq<Event>)
    requires Valid(h)
    decreases |es|
  {
    es == [] || (Enabled(h, es[0]) && Feasible(res, Step(res, h, es[0]), es[1..]))
  }

  function Run(res: Resolver, h: Handover, es: seq<Event>): (r: Handover)
    requires Valid(h) && Feasible(res, h, es)
    ensures Valid(r) && r.cfg == h.cfg
    decreases |es|
  {
    if es == [] then h else Run(res, Step(res, h, es[0]), es[1..])
  }

  // ---------------------------------------------------------------- counting

  datatype Kind = KRegister | KUnregister | KToast | KSchedule | KDispatch

  function KindOf(e: Effect): Kind {
    match e
    case RegisterReceiver => KRegister
    case UnregisterReceiver => KUnregister
    case ShowFailureToast => KToast
    case SendMessageDelayed(_) => KSchedule
    case StartActivity(_, _) => KDispatch
  }

  /** How many effects of kind `k` the log holds. */
  function Count(log: seq<Effect>, k: Kind): nat {
    if log == [] then 0 else (if KindOf(log[0]) == k then 1 else 0) + Count(log[1..], k)
  }

  lemma {:induction false} CountAppend(a: seq<Effect>, b: seq<Effect>, k: Kind)
    ensures Count(a + b, k) == Count(a, k) + Count(b, k)
    decreases |a|
  {
    if a == [] {
      assert a + b == b;
    } else {
      assert (a + b)[1..] == a[1..] + b;
      CountAppend(a[1..], b, k);
    }
  }

  /** The counts of a log with a few effects appended. */
  lemma CountSuffix(log: seq<Effect>, tail: seq<Effect>)
    ensures forall k :: Count(log + tail, k) == Count(log, k) + Count(tail, k)
  {
    forall k { CountAppend(log, tail, k); }
  }

  // ------------------------------------------------- facts of every feasible run

  /**
   * Holds of every state a feasible run reaches, whatever the order of events:
   * STATE_WAITING is never entered, every pending send is due exactly one budget
   * after start(), no send is ever delayed unless the remote side is activating,
   * and when it is, no request is dispatched before the budget has elapsed.
   */
  ghost predicate TimingInv(h: Handover) {
    && Valid(h)
    && h.state != StateWaiting
    && (h.startTime.None? ==> h.state == StateInit && h.log == [] && h.pending == [])
    && (h.startTime.Some? ==>
          && (forall t | t in h.pending :: t.Due() == h.startTime.value + RemoteEnableDelayMs)
          && (!h.cfg.remoteActivating ==> h.pending == [] && Count(h.log, KSchedule) == 0)
          && (h.cfg.remoteActivating ==>
                forall k | 0 <= k < |h.log| && h.log[k].StartActivity? ::
                  h.log[k].at >= h.startTime.value + RemoteEnableDelayMs))
  }

  /** The log of one step is the old log followed by these effects. */
  function StepEffects(res: Resolver, h: Handover, e: Event): (tail: seq<Effect>)
    requires Valid(h) && Enabled(h, e)
    ensures Step(res, h, e).log == h.log + tail
    ensures |tail| <= 3
  {
    match e
    case StartCalled(now, power) =>
      if !power.enabled && power.enableAccepted then [RegisterReceiver]
      else if !power.enabled then [RegisterReceiver, ShowFailureToast, UnregisterReceiver]
      else if h.cfg.remoteActivating then [RegisterReceiver, SendMessageDelayed(RemoteEnableDelayMs)]
      else [RegisterReceiver, StartActivity(BuildRequest(res, h.cfg), now), UnregisterReceiver]
    case BroadcastReceived(b, now) =>
      if b.action == StateChanged && h.state == StateTurningOn then
        match ReportedState(b)
        case AdapterOn =>
          if MustDelay(h, now) then [SendMessageDelayed(RemainingDelay(h, now))]
          else [StartActivity(BuildRequest(res, h.cfg), now), UnregisterReceiver]
        case AdapterOff => [UnregisterReceiver]
        case _ => []
      else []
    case MessageDelivered(i, now) =>
      [StartActivity(BuildRequest(res, h.cfg), now), UnregisterReceiver]
  }

  /** 1 if position `j` of `t` holds an effect of kind `k`, otherwise 0. */
  function KindAt(t: seq<Effect>, j: nat, k: Kind): nat {
    if j < |t| && KindOf(t[j]) == k then 1 else 0
  }

  /** The count of a log of at most three effects, position by position. */
  lemma CountShort(t: seq<Effect>, k: Kind)
    requires |t| <= 3
    ensures Count(t, k) == KindAt(t, 0, k) + KindAt(t, 1, k) + KindAt(t, 2, k)
  {
  }

  /** The counts after one step are the old counts plus those of the step's effects. */
  lemma StepCounts(res: Resolver, h: Handover, e: Event)
    requires Valid(h) && Enabled(h, e)
    ensures forall k :: Count(Step(res, h, e).log, k)
                        == Count(h.log, k) + KindAt(StepEffects(res, h, e), 0, k)
                           + KindAt(StepEffects(res, h, e), 1, k) + KindAt(StepEffects(res, h, e), 2, k)
  {
    var t := StepEffects(res, h, e);
    CountSuffix(h.log, t);
    forall k { CountShort(t, k); }
  }

  lemma TimingInvStep(res: Resolver, h: Handover, e: Event)
    requires TimingInv(h) && Enabled(h, e)
    ensures TimingInv(Step(res, h, e))
  {
    StepCounts(res, h, e);
    match e
    case StartCalled(_, _) => TimingInvStart(res, h, e);
    case BroadcastReceived(_, _) => TimingInvBroadcast(res, h, e);
    case MessageDelivered(_, _) => TimingInvMessage(res, h, e);
  }

  lemma TimingInvStart(res: Resolver, h: Handover, e: Event)
    requires TimingInv(h) && Enabled(h, e) && e.StartCalled?
    ensures TimingInv(Step(res, h, e))
  {
    StepCounts(res, h, e);
  }

  lemma TimingInvBroadcast(res: Resolver, h: Handover, e: Event)
    requires TimingInv(h) && Enabled(h, e) && e.BroadcastReceived?
    ensures TimingInv(Step(res, h, e))
  {
    StepCounts(res, h, e);
  }

  lemma TimingInvMessage(res: Resolver, h: Handover, e: Event)
    requires TimingInv(h) && Enabled(h, e) && e.MessageDelivered?
    ensures TimingInv(Step(res, h, e))
  {
    StepCounts(res, h, e);
    var r := Step(res, h, e);
    assert forall t | t in r.pending :: t in h.pending;
  }

  lemma {:induction false} RunKeepsTimingInv(res: Resolver, h: Handover, es: seq<Event>)
    requires TimingInv(h) && Feasible(res, h, es)
    ensures TimingInv(Run(res, h, es))
    decreases |es|
  {
    if es != [] {
      TimingInvStep(res, h, es[0]);
      RunKeepsTimingInv(res, Step(res, h, es[0]), es[1..]);
    }
  }

  /** STATE_WAITING is declared but no run ever reaches it. */
  lemma WaitingNeverReached(res: Resolver, cfg: Config, es: seq<Event>)
    requires |cfg.uris| > 0 && Feasible(res, Initial(cfg), es)
    ensures Run(res, Initial(cfg), es).state != StateWaiting
  {
    RunKeepsTimingInv(res, Initial(cfg), es);
  }

  /**
   * With the remote side activating, every request is dispatched at least
   * REMOTE_BT_ENABLE_DELAY_MS after start(), and every pending send is due
   * exactly then: the budget is counted from start(), not from the ON broadcast.
   */
  lemma RemoteBudgetRespected(res: Resolver, cfg: Config, es: seq<Event>)
    requires |cfg.uris| > 0 && cfg.remoteActivating && Feasible(res, Initial(cfg), es)
    ensures var h := Run(res, Initial(cfg), es);
            h.startTime.Some? ==>
              && (forall k | 0 <= k < |h.log| && h.log[k].StartActivity? ::
                    h.log[k].at >= h.startTime.value + RemoteEnableDelayMs)
              && (forall t | t in h.pending :: t.Due() == h.startTime.value + RemoteEnableDelayMs)
  {
    RunKeepsTimingInv(res, Initial(cfg), es);
  }

  /** Without the remote side activating, no send is ever delayed. */
  lemma NoDelayUnlessRemoteActivating(res: Resolver, cfg: Config, es: seq<Event>)
    requires |cfg.uris| > 0 && !cfg.remoteActivating && Feasible(res, Initial(cfg), es)
    ensures var h := Run(res, Initial(cfg), es);
            h.pending == [] && Count(h.log, KSchedule) == 0
  {
    RunKeepsTimingInv(res, Initial(cfg), es);
  }

  // ------------------------------------------ single shot, under the trace assumption

  /** An ON or OFF adapter broadcast: the two that make handleIntent act. */
  predicate IsPowerEdge(e: Event) {
    e.BroadcastReceived? && e.intent.action == StateChanged
    && (ReportedState(e.intent) == AdapterOn || ReportedState(e.intent) == AdapterOff)
  }

  /**
   * The assumption the code as written relies on: once a delayed send has
   * been posted from TURNING_ON, no ON or OFF broadcast arrives before it fires.
   */
  predicate QuietStep(h: Handover, e: Event) {
    !(h.state == StateTurningOn && h.pending != [] && IsPowerEdge(e))
  }

  predicate QuietRun(res: Resolver, h: Handover, es: seq<Event>)
    requires Valid(h) && Feasible(res, h, es)
    decreases |es|
  {
    es == [] || (QuietStep(h, es[0]) && QuietRun(res, Step(res, h, es[0]), es[1..]))
  }

  /**
   * The single-shot invariant: the receiver is registered once; at most one
   * send is pending, and only before completion; completion unregisters once
   * and leaves at most one of {dispatch, failure toast}; before completion
   * nothing has been dispatched, toasted or unregistered; after start() the
   * state stays INIT only while a delayed send is pending.
   */
  ghost predicate ShotInv(h: Handover) {
    TimingInv(h) && ShotCounts(h)
  }

  ghost predicate ShotCounts(h: Handover) {
    && |h.pending| <= 1
    && (h.startTime.Some? ==> Count(h.log, KRegister) == 1)
    && (h.startTime.Some? && h.state == StateInit ==> |h.pending| == 1)
    && (h.state != StateComplete ==>
          Count(h.log, KUnregister) == 0 && Count(h.log, KDispatch) == 0 && Count(h.log, KToast) == 0)
    && (h.state == StateComplete ==>
          h.pending == [] && Count(h.log, KUnregister) == 1
          && Count(h.log, KDispatch) + Count(h.log, KToast) <= 1)
  }

  lemma ShotInvStep(res: Resolver, h: Handover, e: Event)
    requires ShotInv(h) && Enabled(h, e) && QuietStep(h, e)
    ensures ShotInv(Step(res, h, e))
  {
    TimingInvStep(res, h, e);
    match e
    case StartCalled(_, _) => ShotCountsStart(res, h, e);
    case BroadcastReceived(_, _) => ShotCountsBroadcast(res, h, e);
    case MessageDelivered(_, _) => ShotCountsMessage(res, h, e);
  }

  lemma ShotCountsStart(res: Resolver, h: Handover, e: Event)
    requires ShotInv(h) && Enabled(h, e) && e.StartCalled?
    ensures ShotCounts(Step(res, h, e))
  {
    StepCounts(res, h, e);
  }

  lemma ShotCountsBroadcast(res: Resolver, h: Handover, e: Event)
    requires ShotInv(h) && Enabled(h, e) && QuietStep(h, e) && e.BroadcastReceived?
    ensures ShotCounts(Step(res, h, e))
  {
    StepCounts(res, h, e);
  }

  lemma ShotCountsMessage(res: Resolver, h: Handover, e: Event)
    requires ShotInv(h) && Enabled(h, e) && e.MessageDelivered?
    ensures ShotCounts(Step(res, h, e))
  {
    StepCounts(res, h, e);
  }

  lemma {:induction false} RunKeepsShotInv(res: Resolver, h: Handover, es: seq<Event>)
    requires ShotInv(h) && Feasible(res, h, es) && QuietRun(res, h, es)
    ensures ShotInv(Run(res, h, es))
    decreases |es|
  {
    if es != [] {
      ShotInvStep(res, h, es[0]);
      RunKeepsShotInv(res, Step(res, h, es[0]), es[1..]);
    }
  }

  /**
   * Under the trace assumption, any run registers the receiver exactly once
   * once start() has run,
   * unregisters it at most once, and does so exactly when it completes, with
   * at most one of a dispatch or a failure toast (none: the silent abort).
   * A started run that has not completed is either still waiting for the
   * power broadcast or holds exactly one pending send.
   */
  lemma SingleShot(res: Resolver, cfg: Config, es: seq<Event>)
    requires |cfg.uris| > 0
    requires Feasible(res, Initial(cfg), es) && QuietRun(res, Initial(cfg), es)
    ensures var h := Run(res, Initial(cfg), es);
            && Count(h.log, KRegister) <= 1
            && (h.startTime.Some? ==> Count(h.log, KRegister) == 1)
            && Count(h.log, KDispatch) + Count(h.log, KToast) <= 1
            && (h.state == StateComplete <==> Count(h.log, KUnregister) == 1)
            && Count(h.log, KUnregister) <= 1
            && (h.startTime.Some? && h.state != StateComplete ==>
                  h.state == StateTurningOn || |h.pending| == 1)
  {
    RunKeepsShotInv(res, Initial(cfg), es);
  }

  /** Under the trace assumption, once COMPLETE every further event changes nothing. */
  lemma CompleteIsInert(res: Resolver, h: Handover, e: Event)
    requires ShotInv(h) && h.state == StateComplete && Enabled(h, e)
    ensures Step(res, h, e) == h
  {
  }

  // ------------------------------------------------ without the trace assumption

  /** An example configuration: one content URI, remote side activating. */
  const ActivatingSingleUri: Config :=
    Config(Device("00:11:22:33:44:55"), [Uri(Some(SchemeContent), "/photo")], true)
  const On: Broadcast := Broadcast(StateChanged, Some(AdapterOn))
  const Off: Broadcast := Broadcast(StateChanged, Some(AdapterOff))

  /** Unrolls one step of a run: feasibility and the final state. */
  lemma RunCons(res: Resolver, h: Handover, e: Event, rest: seq<Event>)
    requires Valid(h) && Enabled(h, e)
    requires Feasible(res, Step(res, h, e), rest)
    ensures Feasible(res, h, [e] + rest)
    ensures Run(res, h, [e] + rest) == Run(res, Step(res, h, e), rest)
  {
  }

  /** The effect counts of the log the abort-then-deliver run ends with. */
  lemma AbortLogCounts(req: SendRequest)
    ensures var log := [RegisterReceiver, SendMessageDelayed(2000), UnregisterReceiver,
                        StartActivity(req, 3000), UnregisterReceiver];
            Count(log, KUnregister) == 2 && Count(log, KDispatch) == 1
  {
    var front := [RegisterReceiver, SendMessageDelayed(2000)];
    var back := [UnregisterReceiver, StartActivity(req, 3000), UnregisterReceiver];
    assert front + back == [RegisterReceiver, SendMessageDelayed(2000), UnregisterReceiver,
                            StartActivity(req, 3000), UnregisterReceiver];
    CountSuffix(front, back);
    CountShort(front, KUnregister);
    CountShort(front, KDispatch);
    CountShort(back, KUnregister);
    CountShort(back, KDispatch);
  }

  /**
   * Radio off at start, enable accepted; ON after 1000 ms posts the send for
   * t = 3000; OFF at 1500 aborts and unregisters; the Handler still delivers
   * at 3000, which dispatches after the abort and unregisters a second time.
   */
  lemma AbortThenTimerCompletesTwice(res: Resolver)
    ensures var es := [StartCalled(0, Power(false, true)), BroadcastReceived(On, 1000),
                       BroadcastReceived(Off, 1500), MessageDelivered(0, 3000)];
            && Feasible(res, Initial(ActivatingSingleUri), es)
            && !QuietRun(res, Initial(ActivatingSingleUri), es)
            && Count(Run(res, Initial(ActivatingSingleUri), es).log, KUnregister) == 2
            && Count(Run(res, Initial(ActivatingSingleUri), es).log, KDispatch) == 1
  {
    AbortRun(res);
    AbortLogCounts(BuildRequest(res, ActivatingSingleUri));
  }

  /** The abort-then-deliver run, step by step. */
  lemma AbortRun(res: Resolver)
    ensures var es := [StartCalled(0, Power(false, true)), BroadcastReceived(On, 1000),
                       BroadcastReceived(Off, 1500), MessageDelivered(0, 3000)];
            && Feasible(res, Initial(ActivatingSingleUri), es)
            && !QuietRun(res, Initial(ActivatingSingleUri), es)
            && Run(res, Initial(ActivatingSingleUri), es).log
               == [RegisterReceiver, SendMessageDelayed(2000), UnregisterReceiver,
                   StartActivity(BuildRequest(res, ActivatingSingleUri), 3000), UnregisterReceiver]
  {
    var e0, e1, e2, e3 := StartCalled(0, Power(false, true)), BroadcastReceived(On, 1000),
                          BroadcastReceived(Off, 1500), MessageDelivered(0, 3000);
    var req := BuildRequest(res, ActivatingSingleUri);
    var h0 := Initial(ActivatingSingleUri);
    var h1 := Handover(ActivatingSingleUri, StateTurningOn, Some(0), [], [RegisterReceiver]);
    var h2 := Handover(ActivatingSingleUri, StateTurningOn, Some(0), [Timer(1000, 2000)],
                       [RegisterReceiver, SendMessageDelayed(2000)]);
    var h3 := Handover(ActivatingSingleUri, StateComplete, Some(0), [Timer(1000, 2000)],
                       [RegisterReceiver, SendMessageDelayed(2000), UnregisterReceiver]);
    var h4 := Handover(ActivatingSingleUri, StateComplete, Some(0), [],
                       [RegisterReceiver, SendMessageDelayed(2000), UnregisterReceiver,
                        StartActivity(req, 3000), UnregisterReceiver]);
    assert Step(res, h0, e0) == h1;
    assert Step(res, h1, e1) == h2;
    assert Step(res, h2, e2) == h3;
    assert Step(res, h3, e3) == h4;
    RunCons(res, h3, e3, []);
    RunCons(res, h2, e2, [e3]);
    RunCons(res, h1, e1, [e2, e3]);
    RunCons(res, h0, e0, [e1, e2, e3]);
    assert !QuietStep(h2, e2);
    assert !QuietRun(res, h2, [e2, e3]);
  }

  /** The effect counts of the log the repeated-ON run ends with. */
  lemma RepeatLogCounts(req: SendRequest)
    ensures var log := [RegisterReceiver, SendMessageDelayed(2000), SendMessageDelayed(1000),
                        StartActivity(req, 3000), UnregisterReceiver,
                        StartActivity(req, 3000), UnregisterReceiver];
            Count(log, KUnregister) == 2 && Count(log, KDispatch) == 2
  {
    var front := [RegisterReceiver, SendMessageDelayed(2000), SendMessageDelayed(1000)];
    var back := [StartActivity(req, 3000), UnregisterReceiver];
    assert front + back + back == [RegisterReceiver, SendMessageDelayed(2000), SendMessageDelayed(1000),
                                   StartActivity(req, 3000), UnregisterReceiver,
                                   StartActivity(req, 3000), UnregisterReceiver];
    CountSuffix(front + back, back);
    CountSuffix(front, back);
    CountShort(front, KUnregister);
    CountShort(front, KDispatch);
    CountShort(back, KUnregister);
    CountShort(back, KDispatch);
  }

  /**
   * Two ON broadcasts while TURNING_ON post two sends; both are delivered
   * and the request is dispatched twice.
   */
  lemma RepeatedOnDispatchesTwice(res: Resolver)
    ensures var es := [StartCalled(0, Power(false, true)), BroadcastReceived(On, 1000),
                       BroadcastReceived(On, 2000), MessageDelivered(0, 3000), MessageDelivered(0, 3000)];
            && Feasible(res, Initial(ActivatingSingleUri), es)
            && !QuietRun(res, Initial(ActivatingSingleUri), es)
            && Count(Run(res, Initial(ActivatingSingleUri), es).log, KDispatch) == 2
            && Count(Run(res, Initial(ActivatingSingleUri), es).log, KUnregister) == 2
  {
    RepeatedOnRun(res);
    RepeatLogCounts(BuildRequest(res, ActivatingSingleUri));
  }

  /** The state the repeated-ON run reaches after its two ON broadcasts. */
  const TwoSendsPosted: Handover :=
    Handover(ActivatingSingleUri, StateTurningOn, Some(0), [Timer(1000, 2000), Timer(2000, 1000)],
             [RegisterReceiver, SendMessageDelayed(2000), SendMessageDelayed(1000)])

  /** The two deliveries that end the repeated-ON run. */
  lemma RepeatedOnDeliveries(res: Resolver)
    ensures var es := [MessageDelivered(0, 3000), MessageDelivered(0, 3000)];
            && Valid(TwoSendsPosted)
            && Feasible(res, TwoSendsPosted, es)
            && Run(res, TwoSendsPosted, es).log
               == TwoSendsPosted.log
                  + [StartActivity(BuildRequest(res, ActivatingSingleUri), 3000), UnregisterReceiver,
                     StartActivity(BuildRequest(res, ActivatingSingleUri), 3000), UnregisterReceiver]
  {
    var e3 := MessageDelivered(0, 3000);
    var req := BuildRequest(res, ActivatingSingleUri);
    var h3 := TwoSendsPosted;
    var h4 := Handover(ActivatingSingleUri, StateComplete, Some(0), [Timer(2000, 1000)],
                       h3.log + [StartActivity(req, 3000), UnregisterReceiver]);
    var h5 := Handover(ActivatingSingleUri, StateComplete, Some(0), [],
                       h3.log + [StartActivity(req, 3000), UnregisterReceiver,
                                 StartActivity(req, 3000), UnregisterReceiver]);
    assert Step(res, h3, e3) == h4;
    assert Step(res, h4, e3) == h5;
    RunCons(res, h4, e3, []);
    RunCons(res, h3, e3, [e3]);
  }

  /** The repeated-ON run, step by step. */
  lemma RepeatedOnRun(res: Resolver)
    ensures var es := [StartCalled(0, Power(false, true)), BroadcastReceived(On, 1000),
                       BroadcastReceived(On, 2000), MessageDelivered(0, 3000), MessageDelivered(0, 3000)];
            && Feasible(res, Initial(ActivatingSingleUri), es)
            && !QuietRun(res, Initial(ActivatingSingleUri), es)
            && Run(res, Initial(ActivatingSingleUri), es).log
               == [RegisterReceiver, SendMessageDelayed(2000), SendMessageDelayed(1000),
                   StartActivity(BuildRequest(res, ActivatingSingleUri), 3000), UnregisterReceiver,
                   StartActivity(BuildRequest(res, ActivatingSingleUri), 3000), UnregisterReceiver]
  {
    var e0, e1, e2, e3 := StartCalled(0, Power(false, true)), BroadcastReceived(On, 1000),
                          BroadcastReceived(On, 2000), MessageDelivered(0, 3000);
    var h0 := Initial(ActivatingSingleUri);
    var h1 := Handover(ActivatingSingleUri, StateTurningOn, Some(0), [], [RegisterReceiver]);
    var h2 := Handover(ActivatingSingleUri, StateTurningOn, Some(0), [Timer(1000, 2000)],
                       [RegisterReceiver, SendMessageDelayed(2000)]);
    assert Step(res, h0, e0) == h1;
    assert Step(res, h1, e1) == h2;
    assert Step(res, h2, e2) == TwoSendsPosted;
    RepeatedOnDeliveries(res);
    RunCons(res, h2, e2, [e3, e3]);
    RunCons(res, h1, e1, [e2, e3, e3]);
    RunCons(res, h0, e0, [e1, e2, e3, e3]);
    assert !QuietStep(h2, e2);
    assert !QuietRun(res, h2, [e2, e3, e3]);
  }
}
