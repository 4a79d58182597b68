/**
 * Runs of the plugin: any sequence of the callbacks Android and Dart make,
 * applied one after the other on the UI thread, and what holds over all of
 * them. Also the single-step properties that relate several calls.
 */
module NfcTrace {
  import opened NfcTypes
  import opened NfcState

  /** One callback into the plugin. */
  datatype Event =
    | NewIntentEvent(intent: Option<Intent>)
    | ResumedEvent(isPluginActivity: bool, nowEnabled: bool, current: Option<Intent>)
    | MethodCallEvent(name: string)
    | AdapterStateEvent(nowEnabled: bool)

  /**
   * The effect of one callback. The adapter-state receiver exists only when
   * an adapter was found, so without one that broadcast never reaches the
   * plugin.
   */
  function Step(s: PluginState, e: Event): PluginState {
    match e
    case NewIntentEvent(intent) => NewIntent(s, intent).1
    case ResumedEvent(ours, nowEnabled, current) => ActivityResumed(s, ours, nowEnabled, current)
    case MethodCallEvent(name) => MethodCall(s, name).1
    case AdapterStateEvent(nowEnabled) => if s.adapterPresent then CheckStateChange(s, nowEnabled) else s
  }

  function Run(s: PluginState, t: seq<Event>): PluginState
    decreases |t|
  {
    if t == [] then s else Run(Step(s, t[0]), t[1..])
  }

  /** Whether `e`, arriving in state `s`, makes onActivityResumed call handleIntent. */
  predicate Processes(s: PluginState, e: Event) {
    e.ResumedEvent? && e.isPluginActivity && s.shouldHandleIntent
  }

  /** How many processing passes (calls of handleIntent) a run makes. */
  function Passes(s: PluginState, t: seq<Event>): nat
    decreases |t|
  {
    if t == [] then 0
    else (if Processes(s, t[0]) then 1 else 0) + Passes(Step(s, t[0]), t[1..])
  }

  /** Whether `e` announces an NFC intent through onNewIntent. */
  predicate Announces(e: Event) {
    e.NewIntentEvent? && e.intent.Some? && IsNfcAction(e.intent.value.action)
  }

  function Announcements(t: seq<Event>): nat {
    if t == [] then 0 else (if Announces(t[0]) then 1 else 0) + Announcements(t[1..])
  }

  function Pending(s: PluginState): nat {
    if s.shouldHandleIntent then 1 else 0
  }

  function Buffered(s: PluginState): nat {
    if s.unhandledMessage.Some? then 1 else 0
  }

  /** How many onMessage calls a sequence of outgoing calls holds. */
  function Deliveries(out: seq<Outgoing>): nat {
    if out == [] then 0 else (if out[0].OnMessage? then 1 else 0) + Deliveries(out[1..])
  }

  lemma {:induction false} DeliveriesAppend(a: seq<Outgoing>, b: seq<Outgoing>)
    ensures Deliveries(a + b) == Deliveries(a) + Deliveries(b)
  {
    if a == [] {
      assert a + b == b;
    } else {
      assert (a + b)[1..] == a[1..] + b;
      DeliveriesAppend(a[1..], b);
    }
  }

  // ---------------------------------------------------------------------------
  // Invariants over runs

  lemma StepKeepsInv(s: PluginState, e: Event)
    requires Inv(s)
    ensures Inv(Step(s, e))
  {
  }

  /** Every state reachable from registration satisfies Inv; in particular `isConfigured ==> unhandledMessage == None`. */
  lemma {:induction false} RunKeepsInv(s: PluginState, t: seq<Event>)
    requires Inv(s)
    ensures Inv(Run(s, t))
    decreases |t|
  {
    if t != [] {
      StepKeepsInv(s, t[0]);
      RunKeepsInv(Step(s, t[0]), t[1..]);
    }
  }

  /** The readiness latch never resets and the outbox is only ever appended to. */
  lemma {:induction false} RunIsMonotone(s: PluginState, t: seq<Event>)
    ensures s.isConfigured ==> Run(s, t).isConfigured
    ensures s.outbox <= Run(s, t).outbox
    ensures Run(s, t).adapterPresent == s.adapterPresent && Run(s, t).nfcAvailable == s.nfcAvailable
    decreases |t|
  {
    if t != [] {
      StepIsMonotone(s, t[0]);
      RunIsMonotone(Step(s, t[0]), t[1..]);
    }
  }

  lemma StepIsMonotone(s: PluginState, e: Event)
    ensures s.isConfigured ==> Step(s, e).isConfigured
    ensures s.outbox <= Step(s, e).outbox
    ensures Step(s, e).adapterPresent == s.adapterPresent && Step(s, e).nfcAvailable == s.nfcAvailable
  {
  }

  // ---------------------------------------------------------------------------
  // At-most-once processing

  lemma StepPassBound(s: PluginState, e: Event)
    ensures (if Processes(s, e) then 1 else 0) + Pending(Step(s, e)) <= (if Announces(e) then 1 else 0) + Pending(s)
  {
  }

  /**
   * Each processing pass uses up either the pending flag the run started
   * with or one announcement: handleIntent runs at most once per
   * announcement, however many times the activity is resumed.
   */
  lemma {:induction false} AtMostOncePerAnnouncement(s: PluginState, t: seq<Event>)
    ensures Passes(s, t) + Pending(Run(s, t)) <= Announcements(t) + Pending(s)
    decreases |t|
  {
    if t != [] {
      StepPassBound(s, t[0]);
      AtMostOncePerAnnouncement(Step(s, t[0]), t[1..]);
    }
  }

  /** From registration (flag initially set), a run makes at most one more pass than it has announcements. */
  lemma ColdStartPasses(hasNfcFeature: bool, defaultAdapterPresent: bool, adapterEnabled: bool, t: seq<Event>)
    ensures Passes(Initialize(hasNfcFeature, defaultAdapterPresent, adapterEnabled), t) <= Announcements(t) + 1
  {
    AtMostOncePerAnnouncement(Initialize(hasNfcFeature, defaultAdapterPresent, adapterEnabled), t);
  }

  // ---------------------------------------------------------------------------
  // At most one delivery per processed intent

  lemma DeliveryAddsAtMostOne(m: Message, out: seq<Outgoing>)
    ensures Deliveries(out + Delivery(m)) <= Deliveries(out) + 1
  {
    DeliveriesAppend(out, Delivery(m));
  }

  lemma StateChangeDeliversNothing(s: PluginState, nowEnabled: bool)
    requires s.adapterPresent
    ensures Deliveries(CheckStateChange(s, nowEnabled).outbox) == Deliveries(s.outbox)
  {
    DeliveriesAppend(s.outbox, [SetNfcEnabled(nowEnabled)]);
  }

  lemma HandleIntentDeliveryBound(s: PluginState, current: Option<Intent>)
    ensures Deliveries(HandleIntent(s, current).outbox) + Buffered(HandleIntent(s, current))
            <= Deliveries(s.outbox) + 1 + Buffered(s)
  {
    if FirstMessage(current).Some? && s.isConfigured {
      DeliveryAddsAtMostOne(FirstMessage(current).value, s.outbox);
    }
  }

  lemma StepDeliveryBound(s: PluginState, e: Event)
    ensures Deliveries(Step(s, e).outbox) + Buffered(Step(s, e))
            <= Deliveries(s.outbox) + (if Processes(s, e) then 1 else 0) + Buffered(s)
  {
    match e
    case NewIntentEvent(_) =>
    case ResumedEvent(ours, nowEnabled, current) =>
      if ours {
        var refreshed := if s.adapterPresent then CheckStateChange(s, nowEnabled) else s;
        if s.adapterPresent { StateChangeDeliversNothing(s, nowEnabled); }
        if refreshed.shouldHandleIntent { HandleIntentDeliveryBound(refreshed, current); }
      }
    case MethodCallEvent(name) =>
      if name == ConfigureMethod && s.unhandledMessage.Some? {
        DeliveryAddsAtMostOne(s.unhandledMessage.value, s.outbox);
      }
    case AdapterStateEvent(nowEnabled) =>
      if s.adapterPresent { StateChangeDeliversNothing(s, nowEnabled); }
  }

  /**
   * Every onMessage call a run makes comes from a distinct processing pass,
   * or from the message buffered when the run started; a message still
   * buffered at the end has not been delivered yet.
   */
  lemma {:induction false} DeliveriesPerPass(s: PluginState, t: seq<Event>)
    ensures Deliveries(Run(s, t).outbox) + Buffered(Run(s, t)) <= Deliveries(s.outbox) + Passes(s, t) + Buffered(s)
    decreases |t|
  {
    if t != [] {
      StepDeliveryBound(s, t[0]);
      DeliveriesPerPass(Step(s, t[0]), t[1..]);
    }
  }

  /** From registration, Dart receives at most one onMessage per announced NFC intent, plus one for the launch intent. */
  lemma ColdStartDeliveries(hasNfcFeature: bool, defaultAdapterPresent: bool, adapterEnabled: bool, t: seq<Event>)
    ensures Deliveries(Run(Initialize(hasNfcFeature, defaultAdapterPresent, adapterEnabled), t).outbox) <= Announcements(t) + 1
  {
    var s := Initialize(hasNfcFeature, defaultAdapterPresent, adapterEnabled);
    DeliveriesPerPass(s, t);
    AtMostOncePerAnnouncement(s, t);
  }

  // ---------------------------------------------------------------------------
  // Properties of a few calls in a row

  /** Announcing again before a resume changes nothing more. */
  lemma NewIntentIdempotent(s: PluginState, first: Option<Intent>, again: Option<Intent>)
    requires NewIntent(s, first).0
    ensures NewIntent(NewIntent(s, first).1, again).1 == NewIntent(s, first).1
  {
  }

  /**
   * A second resume with no onNewIntent in between only refreshes the
   * adapter state: it buffers and delivers nothing, whatever the adapter
   * reported in between.
   */
  lemma SecondResumeProcessesNothing(s: PluginState, firstEnabled: bool, secondEnabled: bool, first: Option<Intent>, second: Option<Intent>)
    ensures
      var r1 := ActivityResumed(s, true, firstEnabled, first);
      ActivityResumed(r1, true, secondEnabled, second)
        == if r1.adapterPresent then CheckStateChange(r1, secondEnabled) else r1
  {
  }

  /** A TAG_DISCOVERED intent is claimed by onNewIntent but handleIntent discards it, consuming the flag. */
  lemma TagDiscoveredIsConsumedUnprocessed(s: PluginState, intent: Intent)
    requires intent.action == Some(ActionTagDiscovered)
    ensures NewIntent(s, Some(intent)).0
    ensures HandleIntent(s, Some(intent)) == s.(shouldHandleIntent := false)
  {
  }

  /** A second `configure` sends nothing and changes nothing. */
  lemma ConfigureTwiceSendsNothing(s: PluginState)
    ensures Configure(Configure(s)) == Configure(s)
    ensures MethodCall(MethodCall(s, ConfigureMethod).1, ConfigureMethod).1 == MethodCall(s, ConfigureMethod).1
  {
  }

  /**
   * Two NFC intents processed before `configure`: only the second one's first
   * payload reaches Dart, and the first is never sent.
   */
  lemma OverwriteBuffering(s: PluginState, i1: Intent, i2: Intent, m1: Message, m2: Message)
    requires !s.isConfigured
    requires FirstMessage(Some(i1)) == Some(m1) && FirstMessage(Some(i2)) == Some(m2)
    ensures
      var t := [NewIntentEvent(Some(i1)), ResumedEvent(true, s.nfcEnabled, Some(i1)),
                NewIntentEvent(Some(i2)), ResumedEvent(true, s.nfcEnabled, Some(i2)),
                MethodCallEvent(ConfigureMethod)];
      Run(s, t).outbox == s.outbox + Delivery(m2) && Run(s, t).unhandledMessage == None
  {
    var s1 := Step(s, NewIntentEvent(Some(i1)));
    var s2 := Step(s1, ResumedEvent(true, s.nfcEnabled, Some(i1)));
    assert s2.unhandledMessage == Some(m1) && s2.outbox == s.outbox;
    var s3 := Step(s2, NewIntentEvent(Some(i2)));
    var s4 := Step(s3, ResumedEvent(true, s.nfcEnabled, Some(i2)));
    assert s4.unhandledMessage == Some(m2) && s4.outbox == s.outbox && !s4.isConfigured;
    var t := [NewIntentEvent(Some(i1)), ResumedEvent(true, s.nfcEnabled, Some(i1)),
              NewIntentEvent(Some(i2)), ResumedEvent(true, s.nfcEnabled, Some(i2)),
              MethodCallEvent(ConfigureMethod)];
    assert Run(s, t) == Run(s1, t[1..]);
    assert Run(s1, t[1..]) == Run(s2, t[2..]);
    assert Run(s2, t[2..]) == Run(s3, t[3..]);
    assert Run(s3, t[3..]) == Run(s4, t[4..]);
    assert Run(s4, t[4..]) == Run(Step(s4, MethodCallEvent(ConfigureMethod)), []);
  }

  /**
   * An NDEF intent resumed before Dart is ready is held, and `configure`
   * delivers its payload and empties the buffer.
   */
  lemma BufferedUntilConfigure(hasNfcFeature: bool, defaultAdapterPresent: bool, adapterEnabled: bool, payload: Payload)
    ensures
      var s0 := Initialize(hasNfcFeature, defaultAdapterPresent, adapterEnabled);
      var hello := Message(Some([Record(payload)]));
      var intent := Intent(Some(ActionNdefDiscovered), Some([hello]));
      var s1 := ActivityResumed(s0, true, adapterEnabled, Some(intent));
      var s2 := MethodCall(s1, ConfigureMethod).1;
      && s1.unhandledMessage == Some(hello) && s1.outbox == []
      && s2.outbox == [OnMessage(payload)] && s2.unhandledMessage == None
  {
  }

  /**
   * The buffer is filled before records are looked at: an NDEF intent whose
   * first message has no records still replaces a deliverable buffered
   * message, and `configure` then sends nothing.
   */
  lemma EmptyRecordsDisplaceBuffer(s: PluginState, intent: Intent, buffered: Message)
    requires !s.isConfigured && s.shouldHandleIntent && s.unhandledMessage == Some(buffered)
    requires FirstPayload(buffered).Some?
    requires intent.action == Some(ActionNdefDiscovered) && intent.rawMessages == Some([Message(Some([]))])
    ensures HandleIntent(s, Some(intent)).unhandledMessage == Some(Message(Some([])))
    ensures Configure(HandleIntent(s, Some(intent))).outbox == s.outbox
  {
  }
}
