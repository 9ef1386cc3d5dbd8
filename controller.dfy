/**
  The openHAB controller node (nodes/openhab-v2-controller.js): the base URL
  and Basic-auth header it builds from its configuration, the event-stream
  client's bookkeeping of `node._client` and `node.retryTimer`, the parse and
  dispatch rule of `onMessage`, the classification of stream errors, and the
  classification of `getItems` request errors.

  The EventSource itself is not modelled: the client is its `readyState` and
  whether this node's listeners are attached, and what the client reports
  (open, a message, an error) arrives as a call of the matching handler. Every
  `node.emit` is appended to a log, every `node.warn` to another.
*/
module Controller {
  import opened Wrappers
  import opened JsValues
  import opened Utility

  // ---------------------------------------------------------------------------
  // URL and headers
  // ---------------------------------------------------------------------------

  /** `${protocol}://${host}:${port}`. */
  function BaseUrl(protocol: string, host: string, port: string): (r: string)
    ensures r == protocol + "://" + host + ":" + port
    ensures protocol <= r
  {
    protocol + "://" + host + ":" + port
  }

  /** The URL of the event stream. */
  function EventsUrl(base: string): (r: string)
    ensures base <= r && r[|base|..] == "/rest/events"
  {
    base + "/rest/events"
  }

  /** The Authorization header, present only when both credentials are
      non-empty; `encode` is the Base64 encoder. */
  function AuthHeader(username: string, password: string, encode: string -> string): (r: Option<string>)
    ensures r.Some? <==> username != "" && password != ""
    ensures r.Some? ==> r.value == "Basic " + encode(username + ":" + password)
  {
    if username != "" && password != "" then Some("Basic " + encode(username + ":" + password)) else None
  }

  // ---------------------------------------------------------------------------
  // The client and the node's state
  // ---------------------------------------------------------------------------

  /** `node._client`: connection state (0 connecting, 1 open, 2 closed) and
      whether the node's `open`/`message`/`error` listeners are attached. */
  datatype Client = Client(readyState: int, listening: bool)

  /** `node.retryTimer`: the 15 s reconnection timeout and whether it is still pending. */
  datatype RetryTimer = RetryTimer(delay: int, pending: bool)

  /** What the node emits: a connection state with optional text on the
      EVENTSOURCE_STATE channel, or an item event on `item/type`. */
  datatype Emit =
    | StateEmit(code: int, text: JsValue)
    | ItemEmit(channel: string, item: string, eventType: JsValue, state: JsValue, payload: JsValue)

  datatype ControllerState = ControllerState(
    client: Option<Client>,
    retryTimer: Option<RetryTimer>,
    emits: seq<Emit>,
    warnings: seq<string>)

  const RetryDelay: int := 15000

  /** `isConnected()`, `isConnecting()` and `isDisconnected()`. */
  predicate IsConnected(s: ControllerState) {
    s.client.Some? && s.client.value.readyState == CONNECTED
  }

  predicate IsConnecting(s: ControllerState) {
    s.client.Some? && s.client.value.readyState == CONNECTING
  }

  predicate IsDisconnected(s: ControllerState) {
    s.client.None? || s.client.value.readyState == DISCONNECTED
  }

  function Emitted(s: ControllerState, e: Emit): ControllerState {
    s.(emits := s.emits + [e])
  }

  /** `connect()`: a new client only when there is none; CONNECTING always. */
  function ConnectStep(s: ControllerState): ControllerState {
    var s1 := if s.client.None? then s.(client := Some(Client(CONNECTING, true))) else s;
    Emitted(s1, StateEmit(CONNECTING, Undefined))
  }

  /** `disconnect()`: the client is closed and its listeners removed, but it
      stays in `_client`; a pending retry is cleared. */
  function DisconnectStep(s: ControllerState): ControllerState {
    var s1 := if s.client.Some?
              then Emitted(s.(client := Some(Client(DISCONNECTED, false))), StateEmit(DISCONNECTED, Undefined))
              else s;
    if s1.retryTimer.Some? then s1.(retryTimer := Some(s1.retryTimer.value.(pending := false))) else s1
  }

  /** The client opened (its readyState is then OPEN) and `onOpen` emits CONNECTED. */
  function OnOpenStep(s: ControllerState): ControllerState {
    var s1 := if s.client.Some? then s.(client := Some(s.client.value.(readyState := CONNECTED))) else s;
    Emitted(s1, StateEmit(CONNECTED, Undefined))
  }

  /** The retry timeout expires and calls `connect()`. */
  function FireRetryStep(s: ControllerState): ControllerState {
    if s.retryTimer.Some? && s.retryTimer.value.pending
    then ConnectStep(s.(retryTimer := Some(s.retryTimer.value.(pending := false))))
    else s
  }

  // ---------------------------------------------------------------------------
  // Stream errors
  // ---------------------------------------------------------------------------

  datatype ErrorKind = NotFound | NotAuthorized | Refused | CertificateError | Lost

  function KindText(k: ErrorKind): string {
    match k
    case NotFound => "Not found"
    case NotAuthorized => "Not authorized"
    case Refused => "Connection refused"
    case CertificateError => "Certificate error"
    case Lost => "Connection lost"
  }

  /** Whether the kind lets the node reconnect. */
  predicate Retries(k: ErrorKind) {
    k != NotAuthorized && k != CertificateError
  }

  /** The if-chain of `onError` on the upper-cased message and the HTTP status. */
  function ClassifyError(upper: string, status: JsValue): (r: ErrorKind)
    ensures r == NotFound <==> Contains(upper, "ENOTFOUND") || status == Num(404)
    ensures r == NotAuthorized <==> !Contains(upper, "ENOTFOUND") && status in {Num(401), Num(403)}
    ensures r == Refused <==>
      !Contains(upper, "ENOTFOUND") && status !in {Num(404), Num(401), Num(403)} && Contains(upper, "ECONNREFUSED")
    ensures r == CertificateError <==>
      !Contains(upper, "ENOTFOUND") && status !in {Num(404), Num(401), Num(403)}
      && !Contains(upper, "ECONNREFUSED") && Contains(upper, "CERTIFICATE")
    ensures r == Lost <==>
      !Contains(upper, "ENOTFOUND") && status !in {Num(404), Num(401), Num(403)}
      && !Contains(upper, "ECONNREFUSED") && !Contains(upper, "CERTIFICATE")
  {
    if Contains(upper, "ENOTFOUND") || status == Num(404) then NotFound
    else if status == Num(401) || status == Num(403) then NotAuthorized
    else if Contains(upper, "ECONNREFUSED") then Refused
    else if Contains(upper, "CERTIFICATE") then CertificateError
    else Lost
  }

  /** `event.message || ''` upper-cased; a truthy non-string message has no `toUpperCase`. */
  function UpperMessage(message: JsValue): Result<string, JsError> {
    var m := if Truthy(message) then message else Str("");
    if m.Str? then Ok(ToUpper(m.s)) else Err(TypeError)
  }

  function ErrorText(url: string, k: ErrorKind): string {
    "EventSource " + url + " - " + KindText(k)
  }

  /** `onError(event)`. A failure (bad message, no client) leaves the state as it was. */
  function OnErrorStep(url: string, s: ControllerState, message: JsValue, status: JsValue): Result<ControllerState, JsError> {
    match UpperMessage(message)
    case Err(e) => Err(e)
    case Ok(upper) =>
      var kind := ClassifyError(upper, status);
      var text := ErrorText(url, kind);
      if s.client.None? then Err(TypeError)
      else if !Truthy(message) then
        Ok(Emitted(s, StateEmit(s.client.value.readyState, Undefined)).(warnings := s.warnings + [text]))
      else
        var s1 := s.(client := None);
        var s2 := if Retries(kind) then s1.(retryTimer := Some(RetryTimer(RetryDelay, true))) else s1;
        var s3 := Emitted(s2, StateEmit(ERROR, Str(text)));
        Ok(s3.(warnings := s3.warnings + [text]))
  }

  // ---------------------------------------------------------------------------
  // Stream messages
  // ---------------------------------------------------------------------------

  /** The item name inside a topic such as `smarthome/items/<name>/state`. */
  function TopicItem(topic: string): string {
    Slice(topic, 16, LastIndexOf(topic, '/'))
  }

  /** `onMessage(messageEvent)`: `envelope` is the parsed frame (None when the
      parse threw, and `parsedMessage` stayed undefined), `parsedPayload` the
      parse of its `payload` field (None when that parse threw, and the field
      kept its text). */
  function ParseFrame(envelope: Option<JsValue>, parsedPayload: Option<JsValue>): Result<Emit, JsError> {
    match envelope
    case None => Err(TypeError)
    case Some(frame) =>
      if !frame.Obj? then Err(TypeError)
      else
        var fields := frame.fields;
        var topic := if "topic" in fields then fields["topic"] else Undefined;
        var eventType := if "type" in fields then fields["type"] else Undefined;
        var payload := match parsedPayload
                       case Some(p) => p
                       case None => if "payload" in fields then fields["payload"] else Undefined;
        if !topic.Str? then Err(TypeError)
        else
          match Prop(payload, "value")
          case Err(e) => Err(e)
          case Ok(state) =>
            var item := TopicItem(topic.s);
            Ok(ItemEmit(item + "/" + ToStr(eventType), item, eventType, state, payload))
  }

  function OnMessageStep(s: ControllerState, envelope: Option<JsValue>, parsedPayload: Option<JsValue>): Result<ControllerState, JsError> {
    match ParseFrame(envelope, parsedPayload)
    case Err(e) => Err(e)
    case Ok(e) => Ok(Emitted(s, e))
  }

  // ---------------------------------------------------------------------------
  // getItems
  // ---------------------------------------------------------------------------

  /** How `getItems()` settles: the body, or (after its `catch`) undefined with a warning. */
  datatype ItemsResult = ItemsResult(items: JsValue, warning: Option<string>)

  const ItemsEndpoint: string := "/rest/items/"

  /** The if-chain of `getItems`' `catch` on the upper-cased message: the
      stream's classification without an HTTP status, so never Not authorized. */
  function ItemsErrorKind(upper: string): (k: ErrorKind)
    ensures k == ClassifyError(upper, Undefined)
    ensures k != NotAuthorized
  {
    if Contains(upper, "ENOTFOUND") then NotFound
    else if Contains(upper, "ECONNREFUSED") then Refused
    else if Contains(upper, "CERTIFICATE") then CertificateError
    else Lost
  }

  /** The warning of a failed `getItems` request: the kind's text and the endpoint. */
  function ItemsErrorText(upper: string): string {
    KindText(ItemsErrorKind(upper)) + " - GET Request " + ItemsEndpoint
  }

  /** `getItems()` given how the request settled; Err is a rejection of the
      returned promise (an error without a string message). */
  function GetItems(response: Result<JsValue, JsValue>): (r: Result<ItemsResult, JsError>)
    ensures response.Ok? ==> r == Ok(ItemsResult(response.value, None))
    ensures response.Err? && Prop(response.error, "message").Ok? && Prop(response.error, "message").value.Str? ==>
      r == Ok(ItemsResult(Undefined, Some(ItemsErrorText(ToUpper(Prop(response.error, "message").value.s)))))
    ensures r.Err? <==> response.Err? && !(Prop(response.error, "message").Ok? && Prop(response.error, "message").value.Str?)
  {
    match response
    case Ok(body) => Ok(ItemsResult(body, None))
    case Err(error) =>
      match Prop(error, "message")
      case Err(e) => Err(e)
      case Ok(message) =>
        if message.Str? then Ok(ItemsResult(Undefined, Some(ItemsErrorText(ToUpper(message.s)))))
        else Err(TypeError)
  }

  // ---------------------------------------------------------------------------
  // The node
  // ---------------------------------------------------------------------------

  class ControllerNode {
    const url: string
    const authorization: Option<string>
    var client: Option<Client>
    var retryTimer: Option<RetryTimer>
    var emits: seq<Emit>
    var warnings: seq<string>

    function Snapshot(): ControllerState
      reads this
    {
      ControllerState(client, retryTimer, emits, warnings)
    }

    /** The node is created and connects at once. */
    constructor (protocol: string, host: string, port: string, username: string, password: string, encode: string -> string)
      ensures url == BaseUrl(protocol, host, port)
      ensures authorization == AuthHeader(username, password, encode)
      ensures Snapshot() == ConnectStep(ControllerState(None, None, [], []))
    {
      url := protocol + "://" + host + ":" + port;
      authorization := if username != "" && password != "" then Some("Basic " + encode(username + ":" + password)) else None;
      client, retryTimer, emits, warnings := None, None, [], [];
      new;
      Connect();
    }

    method Connect()
      modifies this
      ensures Snapshot() == ConnectStep(old(Snapshot()))
    {
      if client.None? {
        client := Some(Client(CONNECTING, true));
      }
      emits := emits + [StateEmit(CONNECTING, Undefined)];
    }

    method Disconnect()
      modifies this
      ensures Snapshot() == DisconnectStep(old(Snapshot()))
    {
      if client.Some? {
        client := Some(Client(DISCONNECTED, false));
        emits := emits + [StateEmit(DISCONNECTED, Undefined)];
      }
      if retryTimer.Some? {
        retryTimer := Some(retryTimer.value.(pending := false));
      }
    }

    method OnOpen()
      modifies this
      ensures Snapshot() == OnOpenStep(old(Snapshot()))
    {
      if client.Some? {
        client := Some(client.value.(readyState := CONNECTED));
      }
      emits := emits + [StateEmit(CONNECTED, Undefined)];
    }

    method OnError(message: JsValue, status: JsValue) returns (threw: bool)
      modifies this
      ensures threw <==> OnErrorStep(EventsUrl(url), old(Snapshot()), message, status).Err?
      ensures !threw ==> Snapshot() == OnErrorStep(EventsUrl(url), old(Snapshot()), message, status).value
      ensures threw ==> Snapshot() == old(Snapshot())
    {
      var upper := UpperMessage(message);
      if upper.Err? {
        return true;
      }
      var kind := ClassifyError(upper.value, status);
      var errorMessage := "EventSource " + (url + "/rest/events") + " - " + KindText(kind);
      if client.None? {
        return true;
      }
      if !Truthy(message) {
        emits := emits + [StateEmit(client.value.readyState, Undefined)];
      } else {
        client := None;
        if Retries(kind) {
          retryTimer := Some(RetryTimer(RetryDelay, true));
        }
        emits := emits + [StateEmit(ERROR, Str(errorMessage))];
      }
      warnings := warnings + [errorMessage];
      return false;
    }

    method OnMessage(envelope: Option<JsValue>, parsedPayload: Option<JsValue>) returns (threw: bool)
      modifies this
      ensures threw <==> OnMessageStep(old(Snapshot()), envelope, parsedPayload).Err?
      ensures !threw ==> Snapshot() == OnMessageStep(old(Snapshot()), envelope, parsedPayload).value
      ensures threw ==> Snapshot() == old(Snapshot())
    {
      var e := ParseFrame(envelope, parsedPayload);
      if e.Err? {
        return true;
      }
      emits := emits + [e.value];
      return false;
    }

    method FireRetry()
      modifies this
      ensures Snapshot() == FireRetryStep(old(Snapshot()))
    {
      if retryTimer.Some? && retryTimer.value.pending {
        retryTimer := Some(retryTimer.value.(pending := false));
        Connect();
      }
    }
  }
}
