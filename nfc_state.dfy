/**
 * The plugin's admission gate, one-message buffer and readiness latch as a
 * value, and each entry point of NfcPlugin as a function from the state before
 * the call to the state after it. The class in module Plugin is proved to
 * follow these functions; the properties of the design are proved about them.
 */
module NfcState {
  import opened NfcTypes

  /**
   * The fields of NfcPlugin that the state machine reads or writes.
   * `adapterPresent` stands for `nfcAdapter != null`; `outbox` is every call
   * made to the Dart side so far, oldest first.
   */
  datatype PluginState = PluginState(
    shouldHandleIntent: bool,
    isConfigured: bool,
    unhandledMessage: Option<Message>,
    nfcEnabled: bool,
    nfcAvailable: bool,
    adapterPresent: bool,
    outbox: seq<Outgoing>)

  /**
   * What every reachable state satisfies: once Dart is configured nothing is
   * buffered; NFC counts as available exactly when an adapter was found; and
   * without an adapter NFC is never reported enabled.
   */
  predicate Inv(s: PluginState) {
    && (s.isConfigured ==> s.unhandledMessage.None?)
    && (s.nfcAvailable <==> s.adapterPresent)
    && (!s.adapterPresent ==> !s.nfcEnabled)
  }

  /**
   * The state right after registration: field initialisers, then `initialize`.
   * Without the NFC system feature the adapter is never looked up.
   */
  function Initialize(hasNfcFeature: bool, defaultAdapterPresent: bool, adapterEnabled: bool): (s: PluginState)
    ensures Inv(s)
    ensures s.shouldHandleIntent && !s.isConfigured && s.unhandledMessage == None && s.outbox == []
    ensures s.nfcAvailable <==> hasNfcFeature && defaultAdapterPresent
    ensures s.nfcEnabled <==> hasNfcFeature && defaultAdapterPresent && adapterEnabled
  {
    if !hasNfcFeature then
      PluginState(true, false, None, false, false, false, [])
    else if !defaultAdapterPresent then
      PluginState(true, false, None, false, false, false, [])
    else
      PluginState(true, false, None, adapterEnabled, true, true, [])
  }

  /** The actions onNewIntent claims; a missing action is not one of them. */
  predicate IsNfcAction(action: Option<string>) {
    action == Some(ActionNdefDiscovered) || action == Some(ActionTagDiscovered)
  }

  /**
   * onNewIntent: an NFC intent marks the current intent as pending for the
   * next resume and is reported handled; anything else is declined untouched.
   */
  function NewIntent(s: PluginState, intent: Option<Intent>): (r: (bool, PluginState))
    ensures r.0 <==> intent.Some? && (intent.value.action == Some(ActionNdefDiscovered) || intent.value.action == Some(ActionTagDiscovered))
    ensures r.0 ==> r.1 == s.(shouldHandleIntent := true)
    ensures !r.0 ==> r.1 == s
    ensures Inv(s) ==> Inv(r.1)
  {
    match intent
    case None => (false, s)
    case Some(i) =>
      if IsNfcAction(i.action) then (true, s.(shouldHandleIntent := true)) else (false, s)
  }

  /** How onNewIntent, as written, can end. */
  datatype NewIntentOutcome = Returned(handled: bool, next: PluginState) | ThrewNullPointer

  /**
   * onNewIntent exactly as written: Java's `switch` on a String throws a
   * NullPointerException when the string is null, so an intent without an
   * action ends the call with an exception instead of `return false`.
   */
  function NewIntentAsWritten(s: PluginState, intent: Option<Intent>): (r: NewIntentOutcome)
    ensures intent.Some? && intent.value.action.None? <==> r.ThrewNullPointer?
    ensures r.Returned? ==> (r.handled, r.next) == NewIntent(s, intent)
  {
    match intent
    case None => Returned(false, s)
    case Some(i) =>
      match i.action
      case None => ThrewNullPointer
      case Some(a) =>
        if a == ActionNdefDiscovered || a == ActionTagDiscovered then Returned(true, s.(shouldHandleIntent := true))
        else Returned(false, s)
  }

  /**
   * An intent without an action: as written, onNewIntent throws; the intended
   * behaviour (NewIntent) declines it and leaves the state alone.
   */
  lemma NullActionThrowsAsWritten(s: PluginState, rawMessages: Option<seq<Message>>)
    ensures NewIntentAsWritten(s, Some(Intent(None, rawMessages))) == ThrewNullPointer
    ensures NewIntent(s, Some(Intent(None, rawMessages))) == (false, s)
  {
  }

  /** The first payload of a message, if it has any. */
  function FirstPayload(m: Message): (r: Option<Payload>)
    ensures r.Some? <==> m.records.Some? && |m.records.value| > 0
    ensures r.Some? ==> r.value == m.records.value[0].payload
  {
    var payloads := PayloadsOf(m);
    if |payloads| == 0 then None else Some(payloads[0])
  }

  /** The calls handleMessage makes for `m`: one onMessage with its first payload, or none. */
  function Delivery(m: Message): seq<Outgoing> {
    match FirstPayload(m)
    case None => []
    case Some(p) => [OnMessage(p)]
  }

  /**
   * handleMessage: sends at most one onMessage call, carrying exactly the
   * first payload, and changes nothing else; a message with no records (or a
   * null record array) sends nothing.
   */
  function HandleMessage(s: PluginState, m: Message): (r: PluginState)
    ensures r.(outbox := s.outbox) == s
    ensures |s.outbox| <= |r.outbox| <= |s.outbox| + 1 && r.outbox[..|s.outbox|] == s.outbox
    ensures |r.outbox| == |s.outbox| + 1 <==> m.records.Some? && |m.records.value| > 0
    ensures |r.outbox| == |s.outbox| + 1 ==> r.outbox[|s.outbox|] == OnMessage(m.records.value[0].payload)
    ensures Inv(s) ==> Inv(r)
  {
    s.(outbox := s.outbox + Delivery(m))
  }

  /**
   * The message handleIntent goes on to deliver or buffer: none for a null
   * intent, for any action but NDEF_DISCOVERED (TAG_DISCOVERED included) and
   * for an intent without messages; otherwise the first message.
   */
  function FirstMessage(current: Option<Intent>): (r: Option<Message>)
    ensures r.Some? <==>
      && current.Some?
      && current.value.action == Some(ActionNdefDiscovered)
      && current.value.rawMessages.Some?
      && |current.value.rawMessages.value| > 0
    ensures r.Some? ==> r.value == current.value.rawMessages.value[0]
  {
    match current
    case None => None
    case Some(intent) =>
      if intent.action != Some(ActionNdefDiscovered) then None
      else
        var messages := MessagesOf(intent);
        if |messages| == 0 then None else Some(messages[0])
  }

  /**
   * handleIntent: the pending flag is cleared before anything is looked at.
   * With a message to process, a configured plugin delivers it at once and
   * leaves the buffer alone; an unconfigured one stores it in the buffer,
   * replacing whatever was there, and sends nothing.
   */
  function HandleIntent(s: PluginState, current: Option<Intent>): (r: PluginState)
    ensures !r.shouldHandleIntent
    ensures r.isConfigured == s.isConfigured && r.nfcEnabled == s.nfcEnabled
    ensures r.nfcAvailable == s.nfcAvailable && r.adapterPresent == s.adapterPresent
    ensures FirstMessage(current).None? ==> r == s.(shouldHandleIntent := false)
    ensures FirstMessage(current).Some? && !s.isConfigured ==>
      r.unhandledMessage == FirstMessage(current) && r.outbox == s.outbox
    ensures FirstMessage(current).Some? && s.isConfigured ==>
      r.unhandledMessage == s.unhandledMessage && r.outbox == s.outbox + Delivery(FirstMessage(current).value)
    ensures Inv(s) ==> Inv(r)
  {
    var consumed := s.(shouldHandleIntent := false);
    match FirstMessage(current)
    case None => consumed
    case Some(m) =>
      if s.isConfigured then HandleMessage(consumed, m) else consumed.(unhandledMessage := Some(m))
  }

  /**
   * onConfigure: latches readiness and hands a buffered message, if any, to
   * handleMessage once, leaving the buffer empty.
   */
  function Configure(s: PluginState): (r: PluginState)
    ensures r.isConfigured && r.unhandledMessage == None
    ensures r.shouldHandleIntent == s.shouldHandleIntent && r.nfcEnabled == s.nfcEnabled
    ensures r.nfcAvailable == s.nfcAvailable && r.adapterPresent == s.adapterPresent
    ensures r.outbox == s.outbox + (if s.unhandledMessage.Some? then Delivery(s.unhandledMessage.value) else [])
    ensures Inv(s) ==> Inv(r)
  {
    var ready := s.(isConfigured := true);
    match s.unhandledMessage
    case None => ready
    case Some(m) => HandleMessage(ready, m).(unhandledMessage := None)
  }

  /**
   * checkStateChange with the adapter reporting `nowEnabled`: afterwards the
   * recorded state equals the adapter's, and a setNfcEnabled call is made
   * exactly when the recorded state changed. The source dereferences the
   * adapter here, so it needs one.
   */
  function CheckStateChange(s: PluginState, nowEnabled: bool): (r: PluginState)
    requires s.adapterPresent
    ensures r.nfcEnabled == nowEnabled
    ensures r.(nfcEnabled := s.nfcEnabled, outbox := s.outbox) == s
    ensures nowEnabled != s.nfcEnabled ==> r.outbox == s.outbox + [SetNfcEnabled(nowEnabled)]
    ensures nowEnabled == s.nfcEnabled ==> r.outbox == s.outbox
    ensures Inv(s) ==> Inv(r)
  {
    if nowEnabled != s.nfcEnabled then
      s.(nfcEnabled := nowEnabled, outbox := s.outbox + [SetNfcEnabled(nowEnabled)])
    else s
  }

  /** The setNfcEnabled call a resume makes before handling the intent: one exactly when there is an adapter and its state changed. */
  function StateNotice(s: PluginState, nowEnabled: bool): seq<Outgoing> {
    if s.adapterPresent && nowEnabled != s.nfcEnabled then [SetNfcEnabled(nowEnabled)] else []
  }

  /**
   * onActivityResumed for the plugin's activity (`isPluginActivity`) or
   * another one, with the adapter reporting `nowEnabled` and `current` the
   * activity's intent. Only the plugin's activity is acted on; the adapter
   * state is refreshed when there is an adapter; a pending intent is then
   * handled: a configured plugin delivers the intent's first message after
   * any setNfcEnabled notice, an unconfigured one buffers it. Afterwards
   * nothing is pending.
   */
  function ActivityResumed(s: PluginState, isPluginActivity: bool, nowEnabled: bool, current: Option<Intent>): (r: PluginState)
    ensures !isPluginActivity ==> r == s
    ensures isPluginActivity ==> !r.shouldHandleIntent
    ensures isPluginActivity && s.adapterPresent ==> r.nfcEnabled == nowEnabled
    ensures !s.adapterPresent ==> r.nfcEnabled == s.nfcEnabled
    ensures r.isConfigured == s.isConfigured
    ensures r.nfcAvailable == s.nfcAvailable && r.adapterPresent == s.adapterPresent
    ensures !s.shouldHandleIntent ==> r.unhandledMessage == s.unhandledMessage
    ensures isPluginActivity && s.shouldHandleIntent && FirstMessage(current).Some? && !s.isConfigured ==>
      r.unhandledMessage == FirstMessage(current) && r.outbox == s.outbox + StateNotice(s, nowEnabled)
    ensures isPluginActivity && s.shouldHandleIntent && FirstMessage(current).Some? && s.isConfigured ==>
      && r.unhandledMessage == s.unhandledMessage
      && r.outbox == s.outbox + StateNotice(s, nowEnabled) + Delivery(FirstMessage(current).value)
    ensures isPluginActivity && (!s.shouldHandleIntent || FirstMessage(current).None?) ==>
      r.unhandledMessage == s.unhandledMessage && r.outbox == s.outbox + StateNotice(s, nowEnabled)
    ensures Inv(s) ==> Inv(r)
  {
    if !isPluginActivity then s
    else
      var refreshed := if s.adapterPresent then CheckStateChange(s, nowEnabled) else s;
      if refreshed.shouldHandleIntent then HandleIntent(refreshed, current) else refreshed
  }

  /**
   * onMethodCall: `configure` runs onConfigure and answers with the
   * availability and enabled flags; `gotoNfcSettings` fails with code "1"
   * exactly when NFC is unavailable; any other name is answered
   * not-implemented. Only `configure` changes the state.
   */
  function MethodCall(s: PluginState, name: string): (r: (Reply, PluginState))
    ensures name == ConfigureMethod ==>
      r.1 == Configure(s) && r.0 == Success(Props(s.nfcAvailable, s.nfcEnabled))
    ensures name == GotoNfcSettingsMethod ==>
      r.1 == s && r.0 == (if s.nfcAvailable then Success(NoValue) else Error("1", "NFC settings not available."))
    ensures name != ConfigureMethod && name != GotoNfcSettingsMethod ==> r == (NotImplemented, s)
    ensures Inv(s) ==> Inv(r.1)
  {
    if name == ConfigureMethod then
      var configured := Configure(s);
      (Success(Props(configured.nfcAvailable, configured.nfcEnabled)), configured)
    else if name == GotoNfcSettingsMethod then
      if !s.nfcAvailable then (Error("1", "NFC settings not available."), s) else (Success(NoValue), s)
    else
      (NotImplemented, s)
  }
}
