/**
  The get node of nodes/openhab-v2-get.js. On input it chooses the items to
  fetch, sanitises them into `{item: name}` records (an array of names is
  rewritten in place), issues one `getItem` request per record, and once every
  request has settled sends one message whose payload maps each fetched item's
  name to the item, together with its transitively nested group members when
  that is configured.
*/
module Get {
  import opened Wrappers
  import opened JsValues
  import opened Utility

  // ---------------------------------------------------------------------------
  // Choosing the items
  // ---------------------------------------------------------------------------

  /** The field `key` of a value that is not nullish. */
  function Field(v: JsValue, key: string): JsValue {
    match Prop(v, key)
    case Ok(x) => x
    case Err(_) => Undefined
  }

  /** JavaScript's `a || b`. */
  function Or(a: JsValue, b: JsValue): JsValue {
    if Truthy(a) then a else b
  }

  /** The items one input asks for: the node's own, or, when overriding is
      allowed, `payload.items || payload.item || node.items`; reading a field
      of a nullish payload throws. */
  function SelectItems(allowItemOverride: bool, payload: JsValue, nodeItems: JsValue): (r: Result<JsValue, JsError>)
    ensures !allowItemOverride ==> r == Ok(nodeItems)
    ensures allowItemOverride ==> (r.Err? <==> IsNullish(payload))
  {
    if !allowItemOverride then Ok(nodeItems)
    else if IsNullish(payload) then Err(TypeError)
    else Ok(Or(Or(Field(payload, "items"), Field(payload, "item")), nodeItems))
  }

  // ---------------------------------------------------------------------------
  // Sanitising
  // ---------------------------------------------------------------------------

  /** The record `{item: name}`. */
  function ItemRecord(name: JsValue): JsValue {
    Obj(map["item" := name])
  }

  /** `typeof v === 'object'`: null, arrays and objects. */
  predicate IsObjectTyped(v: JsValue) {
    v.Null? || v.Arr? || v.Obj?
  }

  predicate AllStrings(xs: seq<JsValue>) {
    forall i :: 0 <= i < |xs| ==> xs[i].Str?
  }

  predicate AllObjectTyped(xs: seq<JsValue>) {
    forall i :: 0 <= i < |xs| ==> IsObjectTyped(xs[i])
  }

  /** A value from which `({item}) => ...` destructures a defined `item`. */
  predicate HasItem(v: JsValue) {
    !IsNullish(v) && Field(v, "item") != Undefined
  }

  /** `xs.every(val => val.item !== undefined)`: it stops at the first element
      without an item and throws on a nullish element reached before that. */
  function EveryHasItem(xs: seq<JsValue>): (r: Result<bool, JsError>)
    ensures r == Ok(true) <==> forall i :: 0 <= i < |xs| ==> HasItem(xs[i])
    ensures r.Err? <==> exists i :: 0 <= i < |xs| && IsNullish(xs[i]) && forall j :: 0 <= j < i ==> HasItem(xs[j])
  {
    if xs == [] then Ok(true)
    else
      match Prop(xs[0], "item")
      case Err(e) => Err(e)
      case Ok(v) =>
        if v == Undefined then Ok(false)
        else
          var rest := EveryHasItem(xs[1..]);
          assert forall i :: 1 <= i < |xs| ==> xs[i] == xs[1..][i - 1];
          rest
  }

  /** What the rewrite of an array of names leaves: each name in its record. */
  function Wrapped(xs: seq<JsValue>): (r: seq<JsValue>)
    ensures |r| == |xs| && forall i :: 0 <= i < |xs| ==> r[i] == ItemRecord(xs[i])
  {
    seq(|xs|, i requires 0 <= i < |xs| => ItemRecord(xs[i]))
  }

  /** The sanitised item list: a name becomes one record, an array of names
      its records, an array of objects that all carry an item is kept, and
      anything else is the empty list. */
  function Sanitise(items: JsValue): (r: Result<seq<JsValue>, JsError>)
    ensures r.Ok? ==> forall i :: 0 <= i < |r.value| ==> HasItem(r.value[i])
    ensures items.Str? ==> r == Ok([ItemRecord(items)])
    ensures items.Arr? && AllStrings(items.elems) ==> r == Ok(Wrapped(items.elems))
    ensures items.Arr? && (forall i :: 0 <= i < |items.elems| ==> HasItem(items.elems[i])) ==> r == Ok(items.elems)
    ensures items.Arr? && !AllStrings(items.elems) && (exists i :: 0 <= i < |items.elems| && !HasItem(items.elems[i])) && r.Ok?
      ==> r == Ok([])
    ensures r.Err? <==>
      && items.Arr? && AllObjectTyped(items.elems)
      && exists i :: 0 <= i < |items.elems| && items.elems[i] == Null && forall j :: 0 <= j < i ==> HasItem(items.elems[j])
    ensures !items.Str? && !items.Arr? ==> r == Ok([])
  {
    match items
    case Str(_) => Ok([ItemRecord(items)])
    case Arr(xs) =>
      if AllStrings(xs) then
        assert xs != [] ==> !HasItem(xs[0]);
        Ok(Wrapped(xs))
      else if AllObjectTyped(xs) then
        match EveryHasItem(xs)
        case Err(e) => Err(e)
        case Ok(every) => Ok(if every then xs else [])
      else Ok([])
    case _ => Ok([])
  }

  /** `items.forEach((val, index) => { items[index] = { item: val } })`. */
  method WrapInPlace(a: array<JsValue>)
    modifies a
    ensures a[..] == Wrapped(old(a[..]))
  {
    var i := 0;
    while i < a.Length
      invariant 0 <= i <= a.Length
      invariant forall k :: 0 <= k < i ==> a[k] == ItemRecord(old(a[k]))
      invariant forall k :: i <= k < a.Length ==> a[k] == old(a[k])
    {
      a[i] := ItemRecord(a[i]);
      i := i + 1;
    }
  }

  // ---------------------------------------------------------------------------
  // Requests
  // ---------------------------------------------------------------------------

  /** The argument of the `getItem` call made for one entry. */
  function ItemName(entry: JsValue): JsValue {
    Field(entry, "item")
  }

  /** One request per entry, in order. */
  function ItemNames(entries: seq<JsValue>): (r: seq<JsValue>)
    ensures |r| == |entries| && forall i :: 0 <= i < |entries| ==> r[i] == ItemName(entries[i])
  {
    seq(|entries|, i requires 0 <= i < |entries| => ItemName(entries[i]))
  }

  // ---------------------------------------------------------------------------
  // Items from the hub and their group members
  // ---------------------------------------------------------------------------

  /** An item as the hub returns it: its name, its other fields, and its
      members when `members` is an array (only group items have one). */
  datatype Item = Item(name: string, fields: map<string, JsValue>, members: Members)

  /** `members` is an array, or absent or of some other kind. */
  datatype Members = MemberList(list: seq<Item>) | NotAList

  /** `getMembers`: for each member in order, spread the result so far, the
      member under its name and the member's own members; later keys win. */
  function GetMembers(obj: Item): map<string, Item>
    decreases obj, 1, 0
  {
    match obj.members
    case NotAList => map[]
    case MemberList(ms) => SpreadMembers(obj, |ms|)
  }

  /** The object `getMembers(obj)` holds after its first `n` members. */
  function SpreadMembers(obj: Item, n: nat): map<string, Item>
    requires obj.members.MemberList? && n <= |obj.members.list|
    decreases obj, 0, n
  {
    if n == 0 then map[]
    else
      var m := obj.members.list[n - 1];
      SpreadMembers(obj, n - 1) + map[m.name := m] + GetMembers(m)
  }

  /** The message payload `reduce` builds from the fetched items: each item
      under its name, followed by its group members when they are wanted. */
  function Reduce(items: seq<Item>, getGroupMembers: bool): map<string, Item>
    decreases |items|
  {
    if items == [] then map[]
    else
      var item := items[|items| - 1];
      Reduce(items[..|items| - 1], getGroupMembers)
        + map[item.name := item]
        + (if getGroupMembers then GetMembers(item) else map[])
  }

  // ---------------------------------------------------------------------------
  // The node
  // ---------------------------------------------------------------------------

  datatype Config = Config(items: JsValue, getGroupMembers: bool, allowItemOverride: bool)

  /** A sent message: a clone of the input whose payload is the reduced items. */
  datatype OutMsg = OutMsg(message: map<string, JsValue>, payload: map<string, Item>)

  /** What an observer of the node sees: the `getItem` calls made, the
      messages sent, the warnings logged and the statuses shown. */
  datatype GetState = GetState(requests: seq<JsValue>, sent: seq<OutMsg>, warnings: seq<JsValue>, statuses: seq<StatusDescriptor>)

  datatype Outcome = Outcome(state: GetState, threw: bool)

  const NoControllerText: string := "No controller"

  /** The state the constructor leaves: without a controller it warns, shows
      the error status and attaches no handler. */
  function StartStep(attached: bool): GetState {
    if attached then GetState([], [], [], [])
    else GetState([], [], [Str(NoControllerText)], [NodeStatus(NODE_STATE, NODE_ERROR, Str(NoControllerText)).value])
  }

  /** The `then` or `catch` of `Promise.all(reqs)`: a message with the reduced
      items, or a warning and the error status with the error's message. */
  function SettleStep(cfg: Config, s: GetState, message: map<string, JsValue>, settled: Result<seq<Item>, JsValue>): GetState {
    match settled
    case Ok(items) => s.(sent := s.sent + [OutMsg(message, Reduce(items, cfg.getGroupMembers))])
    case Err(errorMessage) =>
      s.(warnings := s.warnings + [errorMessage],
         statuses := s.statuses + [NodeStatus(NODE_STATE, NODE_ERROR, errorMessage).value])
  }

  /** One input message, with `settled` the outcome of the requests it makes. */
  function InputStep(cfg: Config, attached: bool, s: GetState, message: map<string, JsValue>, settled: Result<seq<Item>, JsValue>): Outcome {
    if !attached then Outcome(s, false)
    else
      var payload := if "payload" in message then message["payload"] else Undefined;
      match SelectItems(cfg.allowItemOverride, payload, cfg.items)
      case Err(_) => Outcome(s, true)
      case Ok(items) =>
        if !Truthy(items) then Outcome(s, false)
        else
          match Sanitise(items)
          case Err(_) => Outcome(s, true)
          case Ok(entries) =>
            Outcome(SettleStep(cfg, s.(requests := s.requests + ItemNames(entries)), message, settled), false)
  }

  /** One input message as written. The controller defines no `getItem`, so
      the call inside the `forEach` throws a TypeError at the first entry:
      no request is made and neither the `then` nor the `catch` of
      `Promise.all` runs. Only an empty sanitised list reaches `Promise.all([])`,
      which sends an empty payload. */
  function InputStepAsWritten(cfg: Config, attached: bool, s: GetState, message: map<string, JsValue>): Outcome {
    if !attached then Outcome(s, false)
    else
      var payload := if "payload" in message then message["payload"] else Undefined;
      match SelectItems(cfg.allowItemOverride, payload, cfg.items)
      case Err(_) => Outcome(s, true)
      case Ok(items) =>
        if !Truthy(items) then Outcome(s, false)
        else
          match Sanitise(items)
          case Err(_) => Outcome(s, true)
          case Ok(entries) =>
            if entries == [] then Outcome(SettleStep(cfg, s, message, Ok([])), false)
            else Outcome(s, true)
  }

  /** A controller event: the node shows the connection state. */
  function ControllerEventStep(s: GetState, event: int, message: JsValue): Outcome {
    match NodeStatus(EVENTSOURCE_STATE, event, message)
    case Ok(d) => Outcome(s.(statuses := s.statuses + [d]), false)
    case Err(_) => Outcome(s, true)
  }

  class GetNode {
    const cfg: Config
    /** Whether a controller was found, and with it the handlers attached. */
    const attached: bool
    var requests: seq<JsValue>
    var sent: seq<OutMsg>
    var warnings: seq<JsValue>
    var statuses: seq<StatusDescriptor>

    function Snapshot(): GetState
      reads this
    {
      GetState(requests, sent, warnings, statuses)
    }

    constructor (config: Config, hasController: bool)
      ensures cfg == config && attached == hasController
      ensures Snapshot() == StartStep(hasController)
    {
      cfg := config;
      attached := hasController;
      requests := [];
      sent := [];
      if hasController {
        warnings := [];
        statuses := [];
      } else {
        warnings := [Str(NoControllerText)];
        statuses := [NodeStatus(NODE_STATE, NODE_ERROR, Str(NoControllerText)).value];
      }
    }

    method OnControllerEvent(event: int, message: JsValue) returns (threw: bool)
      modifies this
      ensures Outcome(Snapshot(), threw) == ControllerEventStep(old(Snapshot()), event, message)
    {
      var d := NodeStatus(EVENTSOURCE_STATE, event, message);
      threw := d.Err?;
      if d.Ok? {
        statuses := statuses + [d.value];
      }
    }

    method OnInput(message: map<string, JsValue>, settled: Result<seq<Item>, JsValue>) returns (threw: bool)
      modifies this
      ensures Outcome(Snapshot(), threw) == InputStep(cfg, attached, old(Snapshot()), message, settled)
    {
      threw := false;
      if !attached {
        return;
      }
      var payload := if "payload" in message then message["payload"] else Undefined;
      var selected := SelectItems(cfg.allowItemOverride, payload, cfg.items);
      if selected.Err? {
        threw := true;
        return;
      }
      var items := selected.value;
      if !Truthy(items) {
        return;
      }
      var kept := SanitiseItems(items);
      if kept.Err? {
        threw := true;
        return;
      }
      RequestAll(kept.value);
      Settle(message, settled);
    }

    /** The sanitising step: a list of names is rewritten in place into item
        records; anything else goes through the filter. */
    method SanitiseItems(items: JsValue) returns (kept: Result<seq<JsValue>, JsError>)
      ensures kept == Sanitise(items)
    {
      if items.Str? {
        kept := Ok([ItemRecord(items)]);
      } else if items.Arr? && AllStrings(items.elems) {
        var xs := items.elems;
        var a := new JsValue[|xs|](i requires 0 <= i < |xs| => xs[i]);
        assert a[..] == xs;
        WrapInPlace(a);
        kept := Ok(a[..]);
      } else {
        kept := Sanitise(items);
      }
    }

    /** One `controller.getItem` request per entry, in order. */
    method RequestAll(entries: seq<JsValue>)
      modifies this
      ensures Snapshot() == old(Snapshot()).(requests := old(requests) + ItemNames(entries))
    {
      for k := 0 to |entries|
        invariant requests == old(requests) + ItemNames(entries[..k])
        invariant sent == old(sent) && warnings == old(warnings) && statuses == old(statuses)
      {
        assert ItemNames(entries[..k + 1]) == ItemNames(entries[..k]) + [ItemName(entries[k])];
        requests := requests + [ItemName(entries[k])];
      }
      assert entries[..|entries|] == entries;
    }

    /** The settlement of the requests: the reduced payload is sent, or the
        rejection is warned about and shown. */
    method Settle(message: map<string, JsValue>, settled: Result<seq<Item>, JsValue>)
      modifies this
      ensures Snapshot() == SettleStep(cfg, old(Snapshot()), message, settled)
    {
      match settled {
        case Ok(fetched) =>
          sent := sent + [OutMsg(message, Reduce(fetched, cfg.getGroupMembers))];
        case Err(errorMessage) =>
          warnings := warnings + [errorMessage];
          statuses := statuses + [NodeStatus(NODE_STATE, NODE_ERROR, errorMessage).value];
      }
    }
  }
}
