/**
  `updateNodeStatus` of nodes/includes/utility.js as a pure function from
  (domain, state code, optional text) to the one status descriptor the node
  shows, with the state constants of nodes/includes/states.js.
*/
module Utility {
  import opened Wrappers
  import opened JsValues

  /** A node status as handed to `node.status`: coloured shape with text, or `{}`. */
  datatype StatusDescriptor = Status(fill: string, shape: string, text: JsValue) | Cleared

  const EVENTSOURCE_STATE: string := "EVENTSOURCE_STATE"
  const NODE_STATE: string := "NODE_STATE"

  // EVENTSOURCE_STATE_TYPE
  const CONNECTING: int := 0
  const CONNECTED: int := 1
  const DISCONNECTED: int := 2
  const ERROR: int := 3

  // NODE_STATE_TYPE
  const CURRENT_STATE: int := 1
  const NODE_ERROR: int := 99

  /** The supplied text when it is not `undefined`, else the default text. */
  function TextOr(text: JsValue, default: string): JsValue {
    if text != Undefined then text else Str(default)
  }

  /** The descriptor `updateNodeStatus(node, domain, stateType, text)` passes to
      `node.status`. The two default branches read the undeclared
      `currentStateText` when no text is given: a ReferenceError. */
  function NodeStatus(domain: string, stateType: int, text: JsValue): (r: Result<StatusDescriptor, JsError>)
    ensures r.Err? <==> text == Undefined
                        && ((domain == EVENTSOURCE_STATE && stateType !in {CONNECTING, CONNECTED, DISCONNECTED, ERROR})
                            || (domain == NODE_STATE && stateType != NODE_ERROR))
    ensures r.Ok? && (domain == EVENTSOURCE_STATE || domain == NODE_STATE) ==> r.value.Status?
    ensures text != Undefined && (domain == EVENTSOURCE_STATE || domain == NODE_STATE) ==> r.Ok? && r.value.text == text
    ensures domain != EVENTSOURCE_STATE && domain != NODE_STATE ==> r == Ok(Cleared)
  {
    if domain == EVENTSOURCE_STATE then
      if stateType == CONNECTED then Ok(Status("green", "dot", TextOr(text, "connected")))
      else if stateType == CONNECTING then Ok(Status("green", "ring", TextOr(text, "connecting")))
      else if stateType == DISCONNECTED then Ok(Status("grey", "dot", TextOr(text, "disconnected")))
      else if stateType == ERROR then Ok(Status("red", "dot", TextOr(text, "error")))
      else if text != Undefined then Ok(Status("grey", "dot", text))
      else Err(ReferenceError)
    else if domain == NODE_STATE then
      if stateType == NODE_ERROR then Ok(Status("red", "dot", TextOr(text, "error")))
      else if text != Undefined then Ok(Status("grey", "dot", text))
      else Err(ReferenceError)
    else Ok(Cleared)
  }

  /** The colour and shape of each connection state, whatever the text. */
  lemma EventSourceLooks(text: JsValue)
    ensures var r := NodeStatus(EVENTSOURCE_STATE, CONNECTED, text); r.Ok? && r.value.fill == "green" && r.value.shape == "dot"
    ensures var r := NodeStatus(EVENTSOURCE_STATE, CONNECTING, text); r.Ok? && r.value.fill == "green" && r.value.shape == "ring"
    ensures var r := NodeStatus(EVENTSOURCE_STATE, DISCONNECTED, text); r.Ok? && r.value.fill == "grey" && r.value.shape == "dot"
    ensures var r := NodeStatus(EVENTSOURCE_STATE, ERROR, text); r.Ok? && r.value.fill == "red" && r.value.shape == "dot"
  {
  }

  /** Without text, each connection state shows its own name. */
  lemma EventSourceDefaultTexts()
    ensures NodeStatus(EVENTSOURCE_STATE, CONNECTED, Undefined).value.text == Str("connected")
    ensures NodeStatus(EVENTSOURCE_STATE, CONNECTING, Undefined).value.text == Str("connecting")
    ensures NodeStatus(EVENTSOURCE_STATE, DISCONNECTED, Undefined).value.text == Str("disconnected")
    ensures NodeStatus(EVENTSOURCE_STATE, ERROR, Undefined).value.text == Str("error")
  {
  }

  /** The empty string is not `undefined`, so it replaces the default text. */
  lemma EmptyTextReplacesDefault(domain: string, stateType: int)
    requires domain == EVENTSOURCE_STATE || domain == NODE_STATE
    ensures NodeStatus(domain, stateType, Str("")).Ok?
    ensures NodeStatus(domain, stateType, Str("")).value.text == Str("")
  {
  }

  /** Node domain: ERROR is a red dot reading 'error' by default; any other code is a grey dot with the given text. */
  lemma NodeStateLooks(stateType: int, text: JsValue)
    ensures NodeStatus(NODE_STATE, NODE_ERROR, text) == Ok(Status("red", "dot", if text == Undefined then Str("error") else text))
    ensures stateType != NODE_ERROR && text != Undefined ==> NodeStatus(NODE_STATE, stateType, text) == Ok(Status("grey", "dot", text))
  {
  }
}
