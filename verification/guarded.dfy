/**
 * The sequencer as its declarations suggest it was meant to work: posting the
 * delayed send enters STATE_WAITING (declared, with the comment "need to wait
 * for remote side turning on BT", but never assigned in the code), and the
 * Handler callback sends only from STATE_WAITING. Each entry point is the
 * as-written one with exactly that change.
 */
module GuardedHandover {
  import opened Wrappers
  import opened MimeTypes
  import opened BluetoothOppHandover
  import opened HandoverTraces

  /** start(), entering WAITING when it posts the delayed send. */
  function GuardedStart(res: Resolver, h: Handover, now: nat, power: Power): (r: Handover)
    requires |h.cfg.uris| > 0
    ensures r.cfg == h.cfg && r.startTime == Some(now)
    ensures r.pending == Start(res, h, now, power).pending && r.log == Start(res, h, now, power).log
    ensures power.enabled && h.cfg.remoteActivating ==> r.state == StateWaiting
    ensures !(power.enabled && h.cfg.remoteActivating) ==> r == Start(res, h, now, power)
  {
    var r := Start(res, h, now, power);
    if power.enabled && h.cfg.remoteActivating then r.(state := StateWaiting) else r
  }

  /** handleIntent(), entering WAITING when an ON broadcast posts the delayed send. */
  function GuardedHandleIntent(res: Resolver, h: Handover, b: Broadcast, now: nat): (r: Handover)
    requires |h.cfg.uris| > 0
    requires h.state == StateTurningOn ==> h.startTime.Some? && h.startTime.value <= now
    ensures r.cfg == h.cfg && r.startTime == h.startTime
    ensures r.pending == HandleIntent(res, h, b, now).pending && r.log == HandleIntent(res, h, b, now).log
    ensures |r.pending| > |h.pending| ==> r.state == StateWaiting
    ensures |r.pending| == |h.pending| ==> r == HandleIntent(res, h, b, now)
  {
    var r := HandleIntent(res, h, b, now);
    if h.state == StateTurningOn && b.action == StateChanged && ReportedState(b) == AdapterOn
       && MustDelay(h, now)
    then r.(state := StateWaiting)
    else r
  }

  /** handleMessage(), sending only from WAITING; a stale delivery is dropped. */
  function GuardedHandleMessage(res: Resolver, h: Handover, i: nat, now: nat): (r: Handover)
    requires |h.cfg.uris| > 0
    requires i < |h.pending|
    ensures r.cfg == h.cfg && r.startTime == h.startTime
    ensures r.pending == RemoveAt(h.pending, i)
    ensures h.state == StateWaiting ==> r == HandleMessage(res, h, i, now)
    ensures h.state != StateWaiting ==> r.state == h.state && r.log == h.log
  {
    if h.state == StateWaiting then HandleMessage(res, h, i, now)
    else h.(pending := RemoveAt(h.pending, i))
  }

  function GuardedStep(res: Resolver, h: Handover, e: Event): (r: Handover)
    requires Valid(h) && Enabled(h, e)
    ensures Valid(r) && r.cfg == h.cfg
  {
    match e
    case StartCalled(now, power) => GuardedStart(res, h, now, power)
    case BroadcastReceived(b, now) => GuardedHandleIntent(res, h, b, now)
    case MessageDelivered(i, now) => GuardedHandleMessage(res, h, i, now)
  }

  predicate GuardedFeasible(res: Resolver, h: Handover, es: seq<Event>)
    requires Valid(h)
    decreases |es|
  {
    es == [] || (Enabled(h, es[0]) && GuardedFeasible(res, GuardedStep(res, h, es[0]), es[1..]))
  }

  function GuardedRun(res: Resolver, h: Handover, es: seq<Event>): (r: Handover)
    requires Valid(h) && GuardedFeasible(res, h, es)
    ensures Valid(r) && r.cfg == h.cfg
    decreases |es|
  {
    if es == [] then h else GuardedRun(res, GuardedStep(res, h, es[0]), es[1..])
  }

  /**
   * The single-shot invariant of the guarded sequencer, with no assumption
   * on the order of events: WAITING holds exactly while a send is pending,
   * INIT only before start(), and completion unregisters once with at most
   * one dispatch or failure toast.
   */
  ghost predicate GuardedInv(h: Handover) {
    && Valid(h)
    && |h.pending| <= 1
    && (h.startTime.None? ==> h.state == StateInit && h.log == [] && h.pending == [])
    && (h.startTime.Some? ==>
          && h.state != StateInit
          && Count(h.log, KRegister) == 1
          && (h.state == StateWaiting <==> h.pending != []))
    && (h.state != StateComplete ==>
          Count(h.log, KUnregister) == 0 && Count(h.log, KDispatch) == 0 && Count(h.log, KToast) == 0)
    && (h.state == StateComplete ==>
          Count(h.log, KUnregister) == 1 && Count(h.log, KDispatch) + Count(h.log, KToast) <= 1)
  }

  lemma GuardedInvStep(res: Resolver, h: Handover, e: Event)
    requires GuardedInv(h) && Enabled(h, e)
    ensures GuardedInv(GuardedStep(res, h, e))
  {
    match e
    case StartCalled(_, _) => GuardedInvStart(res, h, e);
    case BroadcastReceived(_, _) => GuardedInvBroadcast(res, h, e);
    case MessageDelivered(_, _) => GuardedInvMessage(res, h, e);
  }

  lemma GuardedInvStart(res: Resolver, h: Handover, e: Event)
    requires GuardedInv(h) && Enabled(h, e) && e.StartCalled?
    ensures GuardedInv(GuardedStep(res, h, e))
  {
    StepCounts(res, h, e);
  }

  lemma GuardedInvBroadcast(res: Resolver, h: Handover, e: Event)
    requires GuardedInv(h) && Enabled(h, e) && e.BroadcastReceived?
    ensures GuardedInv(GuardedStep(res, h, e))
  {
    StepCounts(res, h, e);
  }

  lemma GuardedInvMessage(res: Resolver, h: Handover, e: Event)
    requires GuardedInv(h) && Enabled(h, e) && e.MessageDelivered?
    ensures GuardedInv(GuardedStep(res, h, e))
  {
    StepCounts(res, h, e);
  }

  lemma {:induction false} GuardedRunKeepsInv(res: Resolver, h: Handover, es: seq<Event>)
    requires GuardedInv(h) && GuardedFeasible(res, h, es)
    ensures GuardedInv(GuardedRun(res, h, es))
    decreases |es|
  {
    if es != [] {
      GuardedInvStep(res, h, es[0]);
      GuardedRunKeepsInv(res, GuardedStep(res, h, es[0]), es[1..]);
    }
  }

  /**
   * Whatever the order of broadcasts and deliveries, the guarded sequencer
   * registers exactly once after start(), unregisters at most once and exactly when it completes,
   * and produces at most one of a dispatch or a failure toast.
   */
  lemma GuardedSingleShot(res: Resolver, cfg: Config, es: seq<Event>)
    requires |cfg.uris| > 0 && GuardedFeasible(res, Initial(cfg), es)
    ensures var h := GuardedRun(res, Initial(cfg), es);
            && Count(h.log, KRegister) <= 1
            && (h.startTime.Some? ==> Count(h.log, KRegister) == 1)
            && Count(h.log, KDispatch) + Count(h.log, KToast) <= 1
            && (h.state == StateComplete <==> Count(h.log, KUnregister) == 1)
            && Count(h.log, KUnregister) <= 1
  {
    GuardedRunKeepsInv(res, Initial(cfg), es);
  }

  /** Once the guarded sequencer is COMPLETE, no event has any observable effect. */
  lemma GuardedCompleteIsInert(res: Resolver, h: Handover, e: Event)
    requires GuardedInv(h) && h.state == StateComplete && Enabled(h, e)
    ensures GuardedStep(res, h, e).log == h.log
    ensures GuardedStep(res, h, e).state == StateComplete
  {
  }

  /**
   * How an as-written state `a` and a guarded state `g` correspond on a run
   * obeying the trace assumption: the same fields, except that the guarded
   * one is WAITING exactly while a send is pending.
   */
  ghost predicate Agree(a: Handover, g: Handover) {
    && a.cfg == g.cfg && a.startTime == g.startTime && a.pending == g.pending && a.log == g.log
    && (if a.pending == [] then g.state == a.state else g.state == StateWaiting)
  }

  lemma AgreeStep(res: Resolver, a: Handover, g: Handover, e: Event)
    requires ShotInv(a) && Agree(a, g) && Valid(g) && Enabled(a, e) && QuietStep(a, e)
    ensures Enabled(g, e)
    ensures Agree(Step(res, a, e), GuardedStep(res, g, e))
  {
  }

  lemma {:induction false} AgreeRun(res: Resolver, a: Handover, g: Handover, es: seq<Event>)
    requires ShotInv(a) && Agree(a, g) && Valid(g)
    requires Feasible(res, a, es) && QuietRun(res, a, es)
    ensures GuardedFeasible(res, g, es)
    ensures Agree(Run(res, a, es), GuardedRun(res, g, es))
    decreases |es|
  {
    if es != [] {
      AgreeStep(res, a, g, es[0]);
      ShotInvStep(res, a, es[0]);
      AgreeRun(res, Step(res, a, es[0]), GuardedStep(res, g, es[0]), es[1..]);
    }
  }

  /**
   * On every run that obeys the trace assumption the correction changes
   * nothing observable: the guarded sequencer makes exactly the platform
   * calls the code as written makes.
   */
  lemma GuardedAgreesOnQuietRuns(res: Resolver, cfg: Config, es: seq<Event>)
    requires |cfg.uris| > 0
    requires Feasible(res, Initial(cfg), es) && QuietRun(res, Initial(cfg), es)
    ensures GuardedFeasible(res, Initial(cfg), es)
    ensures GuardedRun(res, Initial(cfg), es).log == Run(res, Initial(cfg), es).log
  {
    AgreeRun(res, Initial(cfg), Initial(cfg), es);
  }

  /** A delivery can only find the guarded sequencer WAITING: the guard is a defence no run triggers. */
  lemma GuardedDeliveryOnlyWhileWaiting(h: Handover, i: nat)
    requires GuardedInv(h) && i < |h.pending|
    ensures h.state == StateWaiting
  {
  }

  /** The effect counts of the log the guarded abort-then-deliver run ends with. */
  lemma GuardedAbortLogCounts(req: SendRequest)
    ensures var log := [RegisterReceiver, SendMessageDelayed(2000), StartActivity(req, 3000), UnregisterReceiver];
            Count(log, KUnregister) == 1 && Count(log, KDispatch) == 1
  {
    var front := [RegisterReceiver, SendMessageDelayed(2000)];
    var back := [StartActivity(req, 3000), UnregisterReceiver];
    assert front + back == [RegisterReceiver, SendMessageDelayed(2000), StartActivity(req, 3000), UnregisterReceiver];
    CountSuffix(front, back);
    CountShort(front, KUnregister);
    CountShort(front, KDispatch);
    CountShort(back, KUnregister);
    CountShort(back, KDispatch);
  }

  /**
   * The events of `AbortThenTimerCompletesTwice` given to the guarded
   * sequencer: the ON broadcast enters WAITING, so the OFF broadcast is
   * ignored, and the delivery sends the request once and unregisters once.
   */
  lemma GuardedAbortThenTimerSendsOnce(res: Resolver)
    ensures var es := [StartCalled(0, Power(false, true)), BroadcastReceived(On, 1000),
                       BroadcastReceived(Off, 1500), MessageDelivered(0, 3000)];
            && GuardedFeasible(res, Initial(ActivatingSingleUri), es)
            && GuardedRun(res, Initial(ActivatingSingleUri), es).log
               == [RegisterReceiver, SendMessageDelayed(2000),
                   StartActivity(BuildRequest(res, ActivatingSingleUri), 3000), UnregisterReceiver]
            && Count(GuardedRun(res, Initial(ActivatingSingleUri), es).log, KUnregister) == 1
            && Count(GuardedRun(res, Initial(ActivatingSingleUri), es).log, KDispatch) == 1
  {
    var e0, e1, e2, e3 := StartCalled(0, Power(false, true)), BroadcastReceived(On, 1000),
                          BroadcastReceived(Off, 1500), MessageDelivered(0, 3000);
    var cfg := ActivatingSingleUri;
    var req := BuildRequest(res, cfg);
    var h0 := Initial(cfg);
    var h1 := Handover(cfg, StateTurningOn, Some(0), [], [RegisterReceiver]);
    var h2 := Handover(cfg, StateWaiting, Some(0), [Timer(1000, 2000)],
                       [RegisterReceiver, SendMessageDelayed(2000)]);
    var h4 := Handover(cfg, StateComplete, Some(0), [],
                       [RegisterReceiver, SendMessageDelayed(2000), StartActivity(req, 3000), UnregisterReceiver]);
    assert GuardedStep(res, h0, e0) == h1;
    assert GuardedStep(res, h1, e1) == h2;
    assert GuardedStep(res, h2, e2) == h2;
    assert GuardedStep(res, h2, e3) == h4;
    GuardedRunCons(res, h2, e3, []);
    GuardedRunCons(res, h2, e2, [e3]);
    GuardedRunCons(res, h1, e1, [e2, e3]);
    GuardedRunCons(res, h0, e0, [e1, e2, e3]);
    GuardedAbortLogCounts(req);
  }

  /** Unrolls one step of a guarded run. */
  lemma GuardedRunCons(res: Resolver, h: Handover, e: Event, rest: seq<Event>)
    requires Valid(h) && Enabled(h, e)
    requires GuardedFeasible(res, GuardedStep(res, h, e), rest)
    ensures GuardedFeasible(res, h, [e] + rest)
    ensures GuardedRun(res, h, [e] + rest) == GuardedRun(res, GuardedStep(res, h, e), rest)
  {
  }
}
