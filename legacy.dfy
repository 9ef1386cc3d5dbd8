/**
  The single-file implementation of openhab-v2.js: its status codes and status
  mapping with per-node suppression, the URL builder and its cache field, the
  HTTP request a command becomes and how its response is judged, the parse and
  dispatch rule for stream frames, the response handling of the item-state
  fetch, the cached item list, the in node's de-duplication of state events and
  the out node's input rule.
*/
module Legacy {
  import opened Wrappers
  import opened JsValues
  import Utility

  // ---------------------------------------------------------------------------
  // STATE and STATE_MSG
  // ---------------------------------------------------------------------------

  const CONNECTING: int := 1
  const CONNECTED: int := 2
  const DISCONNECTED: int := 3
  const CURRENT_STATE: int := 4
  const IDLE: int := 5
  const NO_PAYLOAD: int := 6
  const OK: int := 7
  const WARN: int := 98
  const ERROR: int := 99

  /** The text shown when no custom message is truthy. */
  function TextOr(customMessage: JsValue, default: JsValue): JsValue {
    if Truthy(customMessage) then customMessage else default
  }

  /** `updateNodeStatus(node, state, customMessage)`: the status shown, given
      the node's `currentState` context value. */
  function LegacyStatus(state: int, customMessage: JsValue, currentState: JsValue): (r: Utility.StatusDescriptor)
    ensures r.Cleared? <==> state == IDLE
    ensures state != IDLE && Truthy(customMessage) ==> r.text == customMessage
    ensures state == CURRENT_STATE && !Truthy(customMessage) ==> r.text == currentState
    ensures state !in {CONNECTING, CONNECTED, DISCONNECTED, CURRENT_STATE, IDLE, NO_PAYLOAD, OK, ERROR} ==>
      r.fill == "yellow" && r.shape == "ring" && r.text == TextOr(customMessage, Str("?"))
  {
    if state == CONNECTING then Utility.Status("green", "ring", TextOr(customMessage, Str("Connecting")))
    else if state == CONNECTED then Utility.Status("green", "dot", TextOr(customMessage, Str("Connected")))
    else if state == DISCONNECTED then Utility.Status("red", "ring", TextOr(customMessage, Str("Disconnected")))
    else if state == CURRENT_STATE then Utility.Status("green", "dot", TextOr(customMessage, currentState))
    else if state == IDLE then Utility.Cleared
    else if state == NO_PAYLOAD then Utility.Status("red", "ring", TextOr(customMessage, Str("No payload specified")))
    else if state == OK then Utility.Status("green", "dot", TextOr(customMessage, Str("Ok")))
    else if state == ERROR then Utility.Status("red", "dot", TextOr(customMessage, Str("Error")))
    else Utility.Status("yellow", "ring", TextOr(customMessage, Str("?")))
  }

  /** The `disabledNodeStates` of the events and out nodes; the in node has none. */
  const ConnectionStates: seq<int> := [CONNECTING, CONNECTED, DISCONNECTED]

  /** A node's `updateNodeStatus` method: None when the state is suppressed. */
  function FilteredStatus(disabled: Option<seq<int>>, state: int, customMessage: JsValue, currentState: JsValue): (r: Option<Utility.StatusDescriptor>)
    ensures r.None? <==> disabled.Some? && state in disabled.value
    ensures r.Some? ==> r.value == LegacyStatus(state, customMessage, currentState)
  {
    if disabled.Some? && state in disabled.value then None
    else Some(LegacyStatus(state, customMessage, currentState))
  }

  // ---------------------------------------------------------------------------
  // getURL
  // ---------------------------------------------------------------------------

  /** The configuration fields `getURL` reads; None is undefined (or null). */
  datatype UrlConfig = UrlConfig(
    protocol: string,
    username: Option<string>,
    password: Option<string>,
    host: string,
    port: Option<string>,
    path: Option<string>)

  /** `path.replace(/^[\/]+/, '')`. */
  function StripLeadingSlashes(s: string): (r: string)
    ensures r != [] ==> r[0] != '/'
    ensures |r| <= |s| && r == s[|s| - |r|..]
    ensures forall k :: 0 <= k < |s| - |r| ==> s[k] == '/'
  {
    if s != [] && s[0] == '/' then StripLeadingSlashes(s[1..]) else s
  }

  /** `path.replace(/[\/]+$/, '')`. */
  function StripTrailingSlashes(s: string): (r: string)
    ensures r != [] ==> r[|r| - 1] != '/'
    ensures r <= s
    ensures forall k :: |r| <= k < |s| ==> s[k] == '/'
  {
    if s != [] && s[|s| - 1] == '/' then StripTrailingSlashes(s[..|s| - 1]) else s
  }

  function ProtocolPart(cfg: UrlConfig): string {
    if cfg.protocol != "" then cfg.protocol else "http"
  }

  function UserPart(cfg: UrlConfig): string {
    if cfg.username.Some? && |Trim(cfg.username.value)| != 0 then
      Trim(cfg.username.value)
      + (if cfg.password.Some? && |cfg.password.value| != 0 then ":" + cfg.password.value else "")
      + "@"
    else ""
  }

  function PortPart(cfg: UrlConfig): string {
    if cfg.port.Some? && |Trim(cfg.port.value)| != 0 then ":" + Trim(cfg.port.value) else ""
  }

  function PathPart(cfg: UrlConfig): string {
    if cfg.path.Some? && |Trim(cfg.path.value)| != 0
    then "/" + StripTrailingSlashes(StripLeadingSlashes(Trim(cfg.path.value)))
    else ""
  }

  /** The URL `getURL` builds: protocol, user info, host, port and path. */
  function BuildUrl(cfg: UrlConfig): string {
    ProtocolPart(cfg) + "://" + UserPart(cfg) + cfg.host + PortPart(cfg) + PathPart(cfg)
  }

  // ---------------------------------------------------------------------------
  // send
  // ---------------------------------------------------------------------------

  const ITEMS_PATH: string := "/rest/items/"
  const EVENTS_PATH: string := "/rest/events/"

  datatype Verb = Put | Post | Get

  /** The request `send` issues. */
  datatype Request = Request(verb: Verb, url: string, body: string)

  /** The URL of an item resource. */
  function ItemUrl(base: string, itemName: JsValue): string {
    base + ITEMS_PATH + ToStr(itemName)
  }

  /** `send(itemName, topic, payload)` as written: an update appends `state`
      straight after the item name. */
  function SendRequest(base: string, itemName: JsValue, topic: JsValue, payload: JsValue): (r: Request)
    ensures r.verb == Put <==> topic == Str("ItemUpdate")
    ensures r.verb == Post <==> topic == Str("ItemCommand")
    ensures r.body == ToStr(payload)
    ensures ItemUrl(base, itemName) <= r.url
  {
    var url := ItemUrl(base, itemName);
    if topic == Str("ItemUpdate") then Request(Put, url + "state", ToStr(payload))
    else if topic == Str("ItemCommand") then Request(Post, url, ToStr(payload))
    else Request(Get, url, ToStr(payload))
  }

  /** `send` with the update addressed to the item's `/state` sub-resource. */
  function SendRequestCorrected(base: string, itemName: JsValue, topic: JsValue, payload: JsValue): (r: Request)
    ensures r.verb == Put <==> topic == Str("ItemUpdate")
    ensures r.verb == Post <==> topic == Str("ItemCommand")
    ensures r.body == ToStr(payload)
    ensures r.verb == Put ==> r.url == ItemUrl(base, itemName) + "/state"
    ensures r.verb != Put ==> r.url == ItemUrl(base, itemName)
  {
    var url := ItemUrl(base, itemName);
    if topic == Str("ItemUpdate") then Request(Put, url + "/state", ToStr(payload))
    else if topic == Str("ItemCommand") then Request(Post, url, ToStr(payload))
    else Request(Get, url, ToStr(payload))
  }

  /** What the controller emits and which item events it raises. */
  datatype LegacyEmit =
    | StateChange(code: int, text: JsValue)
    | Raw(channel: string, message: JsValue)
    | ItemState(channel: string, eventType: JsValue, state: JsValue)

  /** The request callback of `send`: a transport error, or the response status. */
  function SendResponse(url: string, response: Result<int, string>): (r: Option<LegacyEmit>)
    ensures r.None? <==> response.Ok? && 200 <= response.value <= 210
    ensures r.Some? ==> r.value.StateChange? && r.value.code == ERROR
    ensures response.Ok? && r.Some? ==> r.value.text == Undefined
  {
    match response
    case Err(error) => Some(StateChange(ERROR, Str("Request error: " + error + " on " + url)))
    case Ok(status) => if 200 <= status <= 210 then None else Some(StateChange(ERROR, Undefined))
  }

  // ---------------------------------------------------------------------------
  // onMessage
  // ---------------------------------------------------------------------------

  /** `('smarthome/items/').length`. */
  const ItemStart: int := 16

  /** The item name: from index 16 to the next '/' (`substring` swaps its
      bounds, so without one it is the first 16 characters). */
  function FrameItemName(topic: string): string {
    Substring(topic, ItemStart, IndexOfFrom(topic, '/', ItemStart))
  }

  predicate IsStateEventType(t: JsValue) {
    t == Str("ItemStateEvent") || t == Str("ItemStateChangedEvent") || t == Str("GroupItemStateChangedEvent")
  }

  /** What a handler emitted, and whether it threw afterwards. */
  datatype Emits = Emits(emits: seq<LegacyEmit>, failed: bool)

  /** The `try` block of `onMessage`: the frame as `JSON.parse` returned it
      (None when it threw), the parse of its payload likewise. The emits made
      before a failure stay made. */
  function MessageTry(allowRawEvents: JsValue, message: JsValue, frame: Option<JsValue>, parsedPayload: Option<JsValue>): Emits {
    if frame.None? || !frame.value.Obj? || parsedPayload.None? then Emits([], true)
    else
      var fields := frame.value.fields;
      var topic := if "topic" in fields then fields["topic"] else Undefined;
      var eventType := if "type" in fields then fields["type"] else Undefined;
      if !topic.Str? then Emits([], true)
      else
        var itemName := FrameItemName(topic.s);
        var raw := if allowRawEvents == Bool(true)
                   then [Raw("RawEvent", message), Raw(itemName + "/RawEvent", message)]
                   else [];
        if !IsStateEventType(eventType) then Emits(raw, false)
        else
          match Prop(parsedPayload.value, "value")
          case Err(_) => Emits(raw, true)
          case Ok(state) => Emits(raw + [ItemState(itemName + "/StateEvent", eventType, state)], false)
  }

  /** `onMessage` as written: the `catch` block reads `error.type.Error`, and
      `error.type` is undefined, so it throws again before emitting anything. */
  function OnMessage(allowRawEvents: JsValue, message: JsValue, frame: Option<JsValue>, parsedPayload: Option<JsValue>): (r: Emits)
    ensures r.failed <==> MessageTry(allowRawEvents, message, frame, parsedPayload).failed
    ensures forall k :: 0 <= k < |r.emits| ==> !r.emits[k].StateChange?
  {
    MessageTry(allowRawEvents, message, frame, parsedPayload)
  }

  /** `onMessage` with a catch block that reports the failure as an ERROR
      state with `errorText` instead of throwing. */
  function OnMessageCorrected(allowRawEvents: JsValue, message: JsValue, frame: Option<JsValue>, parsedPayload: Option<JsValue>, errorText: string): (r: Emits)
    ensures !r.failed
    ensures var t := MessageTry(allowRawEvents, message, frame, parsedPayload);
      r.emits == t.emits + (if t.failed then [StateChange(ERROR, Str(errorText))] else [])
  {
    var t := MessageTry(allowRawEvents, message, frame, parsedPayload);
    if t.failed then Emits(t.emits + [StateChange(ERROR, Str(errorText))], false) else t
  }

  // ---------------------------------------------------------------------------
  // getItemStates
  // ---------------------------------------------------------------------------

  /** One `{ type: 'ItemStateEvent', state }` per fetched item, in order; an
      item that is null or undefined throws. */
  function EachItemState(items: seq<JsValue>): (r: Emits)
    ensures |r.emits| <= |items|
    ensures !r.failed ==> |r.emits| == |items|
    ensures forall k :: 0 <= k < |r.emits| ==> r.emits[k].ItemState? && r.emits[k].eventType == Str("ItemStateEvent")
  {
    if items == [] then Emits([], false)
    else
      match (Prop(items[0], "name"), Prop(items[0], "state"))
      case (Ok(name), Ok(state)) =>
        var rest := EachItemState(items[1..]);
        Emits([ItemState(ToStr(name) + "/StateEvent", Str("ItemStateEvent"), state)] + rest.emits, rest.failed)
      case _ => Emits([], true)
  }

  /** How the response of `getItemStates` is handled. */
  datatype StatesOutcome = StatesOutcome(emits: Emits, retryAfter: Option<int>)

  function ItemStatesResponse(url: string, response: Result<(int, JsValue), string>): (r: StatesOutcome)
    ensures r.retryAfter.Some? <==> response.Ok? && response.value.0 == 503
    ensures r.retryAfter.Some? ==> r.retryAfter.value == 5000
    ensures response.Err? ==> r.emits == Emits([StateChange(WARN, Str("Request error: " + response.error + " on " + url))], false)
    ensures response.Ok? && response.value.0 !in {200, 503} ==> r.emits == Emits([StateChange(ERROR, Undefined)], false)
  {
    match response
    case Err(error) => StatesOutcome(Emits([StateChange(WARN, Str("Request error: " + error + " on " + url))], false), None)
    case Ok((status, body)) =>
      if status == 503 then StatesOutcome(Emits([StateChange(WARN, Undefined)], false), Some(5000))
      else if status == 200 then
        StatesOutcome(if body.Arr? then EachItemState(body.elems) else Emits([], true), None)
      else StatesOutcome(Emits([StateChange(ERROR, Undefined)], false), None)
  }

  // ---------------------------------------------------------------------------
  // The out node's input rule
  // ---------------------------------------------------------------------------

  /** A non-empty configured value overrides the message's. */
  function OverrideOr(configured: string, fromMessage: JsValue): JsValue {
    if configured != "" then Str(configured) else fromMessage
  }

  datatype OutAction = SendCommand(item: JsValue, topic: JsValue, payload: JsValue) | ShowStatus(status: Option<Utility.StatusDescriptor>)

  /** `input` of the out node. */
  function OutInput(cfgItem: string, cfgTopic: string, cfgPayload: string, msgItem: JsValue, msgTopic: JsValue, msgPayload: JsValue): (r: OutAction)
    ensures r.SendCommand? <==> Truthy(OverrideOr(cfgItem, msgItem)) && Truthy(OverrideOr(cfgTopic, msgTopic)) && Truthy(OverrideOr(cfgPayload, msgPayload))
    ensures r.SendCommand? ==> r.topic == OverrideOr(cfgTopic, msgTopic) && r.item == OverrideOr(cfgItem, msgItem) && r.payload == OverrideOr(cfgPayload, msgPayload)
  {
    var item := OverrideOr(cfgItem, msgItem);
    var topic := OverrideOr(cfgTopic, msgTopic);
    var payload := OverrideOr(cfgPayload, msgPayload);
    if Truthy(item) && Truthy(topic) && Truthy(payload) then SendCommand(item, topic, payload)
    else ShowStatus(FilteredStatus(Some(ConnectionStates), NO_PAYLOAD, Undefined, Undefined))
  }

  // ---------------------------------------------------------------------------
  // The in node's state events
  // ---------------------------------------------------------------------------

  /** The message the in node sends on its first output. */
  datatype InMsg = InMsg(payload: JsValue, item: JsValue, event: string)

  datatype InState = InState(currentState: JsValue, statuses: seq<Utility.StatusDescriptor>, emits: seq<LegacyEmit>, sent: seq<InMsg>)

  /** Whether `processStateEvent` acts on a state. */
  predicate IsNewState(state: JsValue, currentState: JsValue) {
    !LooseEquals(state, currentState) && !LooseEquals(state, Str("null"))
  }

  function ProcessStateEventStep(itemName: JsValue, s: InState, state: JsValue): InState {
    if IsNewState(state, s.currentState) then
      InState(state,
              s.statuses + [LegacyStatus(CURRENT_STATE, Undefined, state)],
              s.emits + [StateChange(CURRENT_STATE, Str("State: " + ToStr(state)))],
              s.sent + [InMsg(state, itemName, "StateEvent")])
    else s
  }

  class InNode {
    const itemName: JsValue
    var currentState: JsValue
    var statuses: seq<Utility.StatusDescriptor>
    var emits: seq<LegacyEmit>
    var sent: seq<InMsg>

    function Snapshot(): InState
      reads this
    {
      InState(currentState, statuses, emits, sent)
    }

    /** The node shows CONNECTING and clears `currentState`. */
    constructor (name: JsValue)
      ensures itemName == name
      ensures Snapshot() == InState(Undefined, [LegacyStatus(CONNECTING, Undefined, Undefined)], [], [])
    {
      itemName := name;
      currentState := Undefined;
      statuses := [LegacyStatus(CONNECTING, Undefined, Undefined)];
      emits, sent := [], [];
    }

    method ProcessStateEvent(state: JsValue)
      modifies this
      ensures Snapshot() == ProcessStateEventStep(itemName, old(Snapshot()), state)
    {
      if !LooseEquals(state, currentState) && !LooseEquals(state, Str("null")) {
        currentState := state;
        statuses := statuses + [LegacyStatus(CURRENT_STATE, Undefined, currentState)];
        emits := emits + [StateChange(CURRENT_STATE, Str("State: " + ToStr(state)))];
        sent := sent + [InMsg(state, itemName, "StateEvent")];
      }
    }
  }

  // ---------------------------------------------------------------------------
  // The controller node's caches
  // ---------------------------------------------------------------------------

  /** The item list cache after `getItemsList(callback, forceRefresh)`, and
      whether a request was made; `response` is only read when it was. */
  datatype ListOutcome = ListOutcome(itemList: JsValue, requested: bool)

  function ItemsListStep(itemList: JsValue, forceRefresh: bool, response: Result<JsValue, string>): ListOutcome {
    if forceRefresh || itemList == Undefined then
      ListOutcome(if response.Ok? then response.value else Undefined, true)
    else ListOutcome(itemList, false)
  }

  /** The user-info step of `getURL`: the trimmed user name, then `:` and
      the password when one is set, then `@`; nothing without a user name. */
  method BuildUserInfo(cfg: UrlConfig) returns (s: string)
    ensures s == UserPart(cfg)
  {
    s := "";
    if cfg.username.Some? && |Trim(cfg.username.value)| != 0 {
      s := Trim(cfg.username.value);
      if cfg.password.Some? && |cfg.password.value| != 0 {
        s := s + (":" + cfg.password.value);
      }
      s := s + "@";
    }
  }

  /** The path step of `getURL`: the trimmed path without leading or
      trailing slashes, after one `/`; nothing for an empty path. */
  method BuildPath(cfg: UrlConfig) returns (s: string)
    ensures s == PathPart(cfg)
  {
    s := "";
    if cfg.path.Some? && |Trim(cfg.path.value)| != 0 {
      var path := Trim(cfg.path.value);
      path := StripLeadingSlashes(path);
      path := StripTrailingSlashes(path);
      s := "/" + path;
    }
  }

  class LegacyController {
    const cfg: UrlConfig
    var url: Option<string>
    var itemList: JsValue

    constructor (config: UrlConfig)
      ensures cfg == config && url == None && itemList == Undefined
    {
      cfg := config;
      url := None;
      itemList := Undefined;
    }

    /** `getURL()`: builds the URL step by step and stores it in `_url`. */
    method GetURL() returns (r: string)
      modifies this
      ensures r == BuildUrl(cfg)
      ensures url == Some(r) && itemList == old(itemList)
    {
      if cfg.protocol != "" {
        r := cfg.protocol;
      } else {
        r := "http";
      }
      assert r == ProtocolPart(cfg);
      r := r + "://";
      var userInfo := BuildUserInfo(cfg);
      r := r + userInfo;
      r := r + cfg.host;
      var portPart := "";
      if cfg.port.Some? && |Trim(cfg.port.value)| != 0 {
        portPart := ":" + Trim(cfg.port.value);
      }
      assert portPart == PortPart(cfg);
      r := r + portPart;
      var pathPart := BuildPath(cfg);
      r := r + pathPart;
      url := Some(r);
    }

    /** `getItemsList(callback, forceRefresh)`; answers what the callback receives. */
    method GetItemsList(forceRefresh: bool, response: Result<JsValue, string>) returns (delivered: JsValue, requested: bool)
      modifies this
      ensures ListOutcome(itemList, requested) == ItemsListStep(old(itemList), forceRefresh, response)
      ensures delivered == itemList && url == old(url)
    {
      requested := forceRefresh || itemList == Undefined;
      if requested {
        match response {
          case Err(_) => itemList := Undefined;
          case Ok(body) => itemList := body;
        }
      }
      delivered := itemList;
    }
  }
}
