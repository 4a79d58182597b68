/** Values the NFC plugin receives from Android and exchanges with the Dart side. */
module NfcTypes {

  /** Stands for a Java reference that may be null. */
  datatype Option<+T> = None | Some(value: T)

  /** The raw bytes of one NDEF record's payload. */
  type Payload = seq<bv8>

  /** One NDEF record; the plugin only ever looks at its payload. */
  datatype Record = Record(payload: Payload)

  /** An NDEF message; `records` is None when the platform hands back a null record array. */
  datatype Message = Message(records: Option<seq<Record>>)

  /**
   * An Android intent as far as the plugin reads it: its action (null for an
   * intent without one) and the EXTRA_NDEF_MESSAGES extra (absent or present).
   */
  datatype Intent = Intent(action: Option<string>, rawMessages: Option<seq<Message>>)

  const ActionNdefDiscovered: string := "android.nfc.action.NDEF_DISCOVERED"
  const ActionTagDiscovered: string := "android.nfc.action.TAG_DISCOVERED"

  /** Names of the calls the Dart side may make over the method channel. */
  const ConfigureMethod: string := "configure"
  const GotoNfcSettingsMethod: string := "gotoNfcSettings"

  /** A call the plugin makes to the Dart side (`invokeMethod`): its method name and argument. */
  datatype Outgoing = OnMessage(payload: Payload) | SetNfcEnabled(enabled: bool)

  /** The value passed to `result.success`. */
  datatype ReplyValue = Props(nfcAvailable: bool, nfcEnabled: bool) | NoValue

  /** How the plugin answers an incoming method call. */
  datatype Reply = Success(value: ReplyValue) | Error(code: string, message: string) | NotImplemented

  /** The messages an intent carries; an absent extra yields none. */
  function MessagesOf(intent: Intent): seq<Message> {
    match intent.rawMessages
    case None => []
    case Some(ms) => ms
  }

  /** The payload of every record of a message, in order; a null record array yields none. */
  function PayloadsOf(m: Message): seq<Payload> {
    match m.records
    case None => []
    case Some(rs) => seq(|rs|, i requires 0 <= i < |rs| => rs[i].payload)
  }
}
