/**
 * NfcPlugin as an object: the fields the Android plugin updates in place and
 * its entry points as methods. Each method is proved to take the object from
 * `old(State())` to the state the matching function of NfcState describes,
 * so every property proved there holds of the object too.
 */
module Plugin {
  import opened NfcTypes
  import S = NfcState

  class NfcPlugin {
    /** Whether the activity's current intent still has to be handled on the next resume. */
    var shouldHandleIntent: bool
    /** Whether the Dart side has called `configure`. */
    var isConfigured: bool
    /** A message that arrived before the Dart side was ready; at most one. */
    var unhandledMessage: Option<Message>
    /** The adapter's enabled state as last seen. */
    var nfcEnabled: bool
    /** Whether the device has NFC at all. */
    var nfcAvailable: bool
    /** Whether `nfcAdapter` is non-null. */
    var adapterPresent: bool
    /** Every `invokeMethod` call made on the channel so far, oldest first. */
    var outbox: seq<Outgoing>

    function State(): S.PluginState
      reads this
    {
      S.PluginState(shouldHandleIntent, isConfigured, unhandledMessage, nfcEnabled, nfcAvailable, adapterPresent, outbox)
    }

    predicate Valid()
      reads this
    {
      S.Inv(State())
    }

    /**
     * Construction followed by `initialize`, as registration does: the NFC
     * system feature is checked first, then the default adapter is looked up,
     * and only with an adapter is its enabled state read.
     */
    constructor (hasNfcFeature: bool, defaultAdapterPresent: bool, adapterEnabled: bool)
      ensures Valid()
      ensures State() == S.Initialize(hasNfcFeature, defaultAdapterPresent, adapterEnabled)
    {
      shouldHandleIntent := true;
      isConfigured := false;
      unhandledMessage := None;
      outbox := [];
      nfcAvailable := true;
      nfcEnabled := false;
      adapterPresent := false;
      if !hasNfcFeature {
        nfcAvailable := false;
      } else {
        adapterPresent := defaultAdapterPresent;
        if !defaultAdapterPresent {
          nfcAvailable := false;
        } else {
          nfcEnabled := adapterEnabled;
        }
      }
    }

    /** onNewIntent; `handled` is the value returned to Flutter. */
    method OnNewIntent(intent: Option<Intent>) returns (handled: bool)
      requires Valid()
      modifies this
      ensures Valid()
      ensures (handled, State()) == S.NewIntent(old(State()), intent)
    {
      if intent.None? {
        return false;
      }
      var action := intent.value.action;
      if action == Some(ActionNdefDiscovered) || action == Some(ActionTagDiscovered) {
        shouldHandleIntent := true;
        return true;
      }
      return false;
    }

    /**
     * onActivityResumed. `isPluginActivity` says whether the resumed activity
     * is the registrar's, `nowEnabled` is what the adapter reports, and
     * `current` is that activity's intent.
     */
    method OnActivityResumed(isPluginActivity: bool, nowEnabled: bool, current: Option<Intent>)
      requires Valid()
      modifies this
      ensures Valid()
      ensures State() == S.ActivityResumed(old(State()), isPluginActivity, nowEnabled, current)
    {
      if !isPluginActivity {
        return;
      }
      if adapterPresent {
        CheckStateChange(nowEnabled);
      }
      if shouldHandleIntent {
        HandleIntent(current);
      }
    }

    /** onMethodCall; `reply` is what is passed to the channel's result. */
    method OnMethodCall(name: string) returns (reply: Reply)
      requires Valid()
      modifies this
      ensures Valid()
      ensures (reply, State()) == S.MethodCall(old(State()), name)
    {
      if name == ConfigureMethod {
        OnConfigure();
        reply := Success(Props(nfcAvailable, nfcEnabled));
      } else if name == GotoNfcSettingsMethod {
        if !nfcAvailable {
          reply := Error("1", "NFC settings not available.");
        } else {
          reply := Success(NoValue);
        }
      } else {
        reply := NotImplemented;
      }
    }

    /** checkStateChange, with `nowEnabled` the adapter's current state; also what the adapter-state receiver runs. */
    method CheckStateChange(nowEnabled: bool)
      requires Valid() && adapterPresent
      modifies this
      ensures Valid()
      ensures State() == S.CheckStateChange(old(State()), nowEnabled)
    {
      if nowEnabled != nfcEnabled {
        nfcEnabled := nowEnabled;
        NotifyNfcState();
      }
    }

    /** onConfigure. */
    method OnConfigure()
      requires Valid()
      modifies this
      ensures Valid()
      ensures State() == S.Configure(old(State()))
    {
      isConfigured := true;
      if unhandledMessage.Some? {
        HandleMessage(unhandledMessage.value);
        unhandledMessage := None;
      }
    }

    /** notifyNfcState: tells Dart the recorded enabled state. */
    method NotifyNfcState()
      requires Valid()
      modifies this
      ensures Valid()
      ensures State() == old(State()).(outbox := old(outbox) + [SetNfcEnabled(nfcEnabled)])
    {
      outbox := outbox + [SetNfcEnabled(nfcEnabled)];
    }

    /** handleIntent, with `current` the activity's intent. */
    method HandleIntent(current: Option<Intent>)
      requires Valid()
      modifies this
      ensures Valid()
      ensures State() == S.HandleIntent(old(State()), current)
    {
      shouldHandleIntent := false;
      if current.None? {
        return;
      }
      var intent := current.value;
      if intent.action != Some(ActionNdefDiscovered) {
        return;
      }
      var messages := GetMessages(intent);
      if messages.Length == 0 {
        return;
      }
      var message := messages[0];
      if isConfigured {
        HandleMessage(message);
      } else {
        unhandledMessage := Some(message);
      }
    }

    /** handleMessage: sends the first payload of `message`, if any, as onMessage. */
    method HandleMessage(message: Message)
      modifies this
      ensures State() == S.HandleMessage(old(State()), message)
    {
      var payloads := GetPayloads(message);
      if payloads.Length == 0 {
        return;
      }
      var payload := payloads[0];
      outbox := outbox + [OnMessage(payload)];
    }

    /** getMessages: copies the intent's NDEF messages into a new array; an absent extra gives an empty one. */
    static method GetMessages(intent: Intent) returns (messages: array<Message>)
      ensures fresh(messages)
      ensures messages[..] == MessagesOf(intent)
    {
      if intent.rawMessages.None? {
        messages := new Message[0];
        return;
      }
      var raw := intent.rawMessages.value;
      messages := new Message[|raw|];
      var i := 0;
      while i < |raw|
        invariant 0 <= i <= |raw|
        invariant forall k :: 0 <= k < i ==> messages[k] == raw[k]
      {
        messages[i] := raw[i];
        i := i + 1;
      }
    }

    /** getPayloads: the payload of each record, in order, in a new array; a null record array gives an empty one. */
    static method GetPayloads(message: Message) returns (payloads: array<Payload>)
      ensures fresh(payloads)
      ensures payloads[..] == PayloadsOf(message)
    {
      if message.records.None? {
        payloads := new Payload[0];
        return;
      }
      var records := message.records.value;
      payloads := new Payload[|records|];
      var i := 0;
      while i < |records|
        invariant 0 <= i <= |records|
        invariant forall k :: 0 <= k < i ==> payloads[k] == records[k].payload
      {
        payloads[i] := records[i].payload;
        i := i + 1;
      }
    }
  }
}
