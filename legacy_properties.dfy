/**
  What openhab-v2.js promises, proved about module Legacy: status suppression,
  the shape of the built URL, the verb and URL of a command with the update
  URL's missing separator, the acceptance window, the frame dispatch rule with
  its catch block that throws, state-event de-duplication, the out node's
  override rule and the item-list cache.
*/
module LegacyProperties {
  import opened Wrappers
  import opened JsValues
  import Utility
  import opened Legacy
  import Operators

  // ---------------------------------------------------------------------------
  // Status
  // ---------------------------------------------------------------------------

  /** The events and out nodes hide the three connection states and show
      everything else; the in node, with no list, shows every state. */
  lemma ConnectionStatesSuppressed(state: int, customMessage: JsValue, currentState: JsValue)
    ensures FilteredStatus(Some(ConnectionStates), state, customMessage, currentState).None? <==> state in {1, 2, 3}
    ensures FilteredStatus(None, state, customMessage, currentState) == Some(LegacyStatus(state, customMessage, currentState))
  {
  }

  /** The code table: IDLE clears, NO_PAYLOAD is a red ring, ERROR a red dot,
      and CURRENT_STATE shows the stored state. */
  lemma LegacyStatusTable(currentState: JsValue)
    ensures LegacyStatus(IDLE, Undefined, currentState) == Utility.Cleared
    ensures LegacyStatus(NO_PAYLOAD, Undefined, currentState) == Utility.Status("red", "ring", Str("No payload specified"))
    ensures LegacyStatus(ERROR, Undefined, currentState) == Utility.Status("red", "dot", Str("Error"))
    ensures LegacyStatus(WARN, Undefined, currentState) == Utility.Status("yellow", "ring", Str("?"))
    ensures LegacyStatus(CURRENT_STATE, Undefined, currentState) == Utility.Status("green", "dot", currentState)
  {
  }

  /** An empty custom message is falsy, so the default text stays. */
  lemma EmptyMessageKeepsDefault(state: int, currentState: JsValue)
    requires state == CONNECTED
    ensures LegacyStatus(state, Str(""), currentState).text == Str("Connected")
  {
  }

  // ---------------------------------------------------------------------------
  // getURL
  // ---------------------------------------------------------------------------

  lemma {:induction false} StripLeadingOfSlashes(i: nat, p: string)
    requires p == [] || p[0] != '/'
    ensures StripLeadingSlashes(Slashes(i) + p) == p
  {
    var t := Slashes(i) + p;
    if i == 0 {
      assert t == p;
    } else {
      assert t[0] == '/';
      assert t[1..] == Slashes(i - 1) + p;
      StripLeadingOfSlashes(i - 1, p);
    }
  }

  lemma {:induction false} StripTrailingOfSlashes(p: string, j: nat)
    requires p == [] || p[|p| - 1] != '/'
    ensures StripTrailingSlashes(p + Slashes(j)) == p
  {
    var t := p + Slashes(j);
    if j == 0 {
      assert t == p;
    } else {
      assert t[|t| - 1] == '/';
      assert t[..|t| - 1] == p + Slashes(j - 1);
      StripTrailingOfSlashes(p, j - 1);
    }
  }

  function Slashes(n: nat): (r: string)
    ensures |r| == n && forall k :: 0 <= k < n ==> r[k] == '/'
  {
    if n == 0 then "" else "/" + Slashes(n - 1)
  }

  /** Any run of leading and trailing slashes is removed from the path, and
      nothing else. */
  lemma {:induction false} PathSlashesStripped(i: nat, p: string, j: nat)
    requires p != [] && p[0] != '/' && p[|p| - 1] != '/'
    ensures StripTrailingSlashes(StripLeadingSlashes(Slashes(i) + p + Slashes(j))) == p
  {
    var tail := p + Slashes(j);
    assert tail[0] == p[0];
    assert Slashes(i) + p + Slashes(j) == Slashes(i) + tail;
    StripLeadingOfSlashes(i, tail);
    StripTrailingOfSlashes(p, j);
  }

  /** The appended path never starts with a doubled slash nor ends with one,
      except that a path of slashes only leaves a lone trailing '/'. */
  lemma PathPartShape(cfg: UrlConfig)
    ensures var pp := PathPart(cfg);
      pp == "" || (pp[0] == '/' && (|pp| == 1 || (pp[1] != '/' && pp[|pp| - 1] != '/')))
  {
  }

  lemma SlashOnlyPath(cfg: UrlConfig)
    requires cfg.path == Some("//")
    ensures PathPart(cfg) == "/"
  {
    assert !IsJsWhitespace('/');
    assert Trim("//") == "//";
    assert StripLeadingSlashes("//") == "";
  }

  /** A blank user name drops the password as well. */
  lemma BlankUserDropsPassword(cfg: UrlConfig)
    requires cfg.username.Some? && Trim(cfg.username.value) == ""
    ensures UserPart(cfg) == ""
  {
  }

  lemma TrimPlainWord(w: string)
    requires w != [] && !IsJsWhitespace(w[0]) && !IsJsWhitespace(w[|w| - 1])
    ensures Trim(w) == w
  {
  }

  lemma {:induction false} PathPartOfSlashed(cfg: UrlConfig, p: string)
    requires p != [] && p[0] != '/' && p[|p| - 1] != '/'
    requires cfg.path == Some("/" + p + "/")
    ensures PathPart(cfg) == "/" + p
  {
    var w := "/" + p + "/";
    assert w[0] == '/' && w[|w| - 1] == '/';
    TrimPlainWord(w);
    assert w == Slashes(1) + p + Slashes(1);
    PathSlashesStripped(1, p, 1);
  }

  /** The URL is the protocol (http by default), `://`, the optional user info,
      the host, the optional port and the optional path, in that order. */
  lemma {:induction false} UrlLayout(user: string, password: string, host: string, port: string, p: string)
    requires user != [] && !IsJsWhitespace(user[0]) && !IsJsWhitespace(user[|user| - 1])
    requires port != [] && !IsJsWhitespace(port[0]) && !IsJsWhitespace(port[|port| - 1])
    requires p != [] && p[0] != '/' && p[|p| - 1] != '/'
    requires password != ""
    ensures BuildUrl(UrlConfig("", Some(user), Some(password), host, Some(port), Some("/" + p + "/")))
            == "http" + "://" + (user + ":" + password + "@") + host + (":" + port) + ("/" + p)
  {
    var cfg := UrlConfig("", Some(user), Some(password), host, Some(port), Some("/" + p + "/"));
    UserPartOf(cfg, user, password);
    PortPartOf(cfg, port);
    PathPartOfSlashed(cfg, p);
  }

  lemma UserPartOf(cfg: UrlConfig, user: string, password: string)
    requires user != [] && !IsJsWhitespace(user[0]) && !IsJsWhitespace(user[|user| - 1])
    requires cfg.username == Some(user) && cfg.password == Some(password) && password != ""
    ensures UserPart(cfg) == user + ":" + password + "@"
  {
    TrimPlainWord(user);
  }

  lemma PortPartOf(cfg: UrlConfig, port: string)
    requires port != [] && !IsJsWhitespace(port[0]) && !IsJsWhitespace(port[|port| - 1])
    requires cfg.port == Some(port)
    ensures PortPart(cfg) == ":" + port
  {
    TrimPlainWord(port);
  }

  // ---------------------------------------------------------------------------
  // send
  // ---------------------------------------------------------------------------

  /** As written, an update goes to the item URL followed directly by `state`,
      which is never the item's `/state` sub-resource. */
  lemma UpdateUrlAsWritten(base: string, itemName: JsValue, payload: JsValue)
    ensures var r := SendRequest(base, itemName, Str("ItemUpdate"), payload);
      && r.verb == Put
      && r.url == ItemUrl(base, itemName) + "state"
      && r.url != ItemUrl(base, itemName) + "/state"
  {
    var u := ItemUrl(base, itemName);
    assert (u + "state")[|u|] == 's' && (u + "/state")[|u|] == '/';
  }

  lemma UpdateUrlExample()
    ensures SendRequest("http://localhost:8080", Str("Light"), Str("ItemUpdate"), Str("ON")).url
            == "http://localhost:8080/rest/items/Lightstate"
  {
  }

  /** The corrected request differs from the written one only in the update URL. */
  lemma CorrectedAgreesElsewhere(base: string, itemName: JsValue, topic: JsValue, payload: JsValue)
    ensures topic != Str("ItemUpdate") ==> SendRequestCorrected(base, itemName, topic, payload) == SendRequest(base, itemName, topic, payload)
    ensures SendRequestCorrected(base, itemName, topic, payload).verb == SendRequest(base, itemName, topic, payload).verb
  {
  }

  /** 200 through 210 is accepted; the statuses just outside are errors. */
  lemma AcceptanceWindowEdges(url: string)
    ensures SendResponse(url, Ok(200)).None? && SendResponse(url, Ok(210)).None?
    ensures SendResponse(url, Ok(199)) == Some(StateChange(ERROR, Undefined))
    ensures SendResponse(url, Ok(211)) == Some(StateChange(ERROR, Undefined))
  {
  }

  // ---------------------------------------------------------------------------
  // onMessage
  // ---------------------------------------------------------------------------

  const Prefix16: string := "smarthome/items/"

  lemma NextSlashAt(t: string, p: int)
    requires 16 <= p < |t| && t[p] == '/'
    requires forall k :: 16 <= k < p ==> t[k] != '/'
    ensures IndexOfFrom(t, '/', 16) == p
  {
  }

  /** The item name is recovered from `smarthome/items/<name>/<rest>` when the
      name has no slash, whatever the rest holds. */
  lemma {:induction false} FrameItemNameRoundTrip(name: string, rest: string)
    requires '/' !in name
    ensures FrameItemName(Prefix16 + name + "/" + rest) == name
  {
    var t := Prefix16 + name + "/" + rest;
    var p := 16 + |name|;
    assert |Prefix16| == 16;
    assert t[p] == '/';
    forall k | 16 <= k < p
      ensures t[k] != '/'
    {
      assert t[k] == name[k - 16];
    }
    NextSlashAt(t, p);
    assert t[16..p] == name;
  }

  /** Without a '/' after the prefix, `substring` swaps its bounds and the
      "item name" is the first 16 characters. */
  lemma {:induction false} NoSlashGivesPrefix(topic: string)
    requires |topic| >= 16 && forall k :: 16 <= k < |topic| ==> topic[k] != '/'
    ensures FrameItemName(topic) == topic[..16]
  {
    assert IndexOfFrom(topic, '/', 16) == -1;
  }

  /** A well-formed state frame raises the StateEvent, preceded by the two raw
      events exactly when `allowRawEvents` is the boolean true. */
  lemma StateFrameDispatch(allowRawEvents: JsValue, message: JsValue, name: string, rest: string, eventType: string, value: JsValue, other: map<string, JsValue>)
    requires '/' !in name
    requires eventType in {"ItemStateEvent", "ItemStateChangedEvent", "GroupItemStateChangedEvent"}
    ensures var frame := Obj(other["topic" := Str(Prefix16 + name + "/" + rest)]["type" := Str(eventType)]);
      var raw := if allowRawEvents == Bool(true) then [Raw("RawEvent", message), Raw(name + "/RawEvent", message)] else [];
      OnMessage(allowRawEvents, message, Some(frame), Some(Obj(map["value" := value])))
        == Emits(raw + [ItemState(name + "/StateEvent", Str(eventType), value)], false)
  {
    FrameItemNameRoundTrip(name, rest);
  }

  /** Other event types raise no StateEvent. */
  lemma OtherTypesNoStateEvent(allowRawEvents: JsValue, message: JsValue, frame: map<string, JsValue>, parsedPayload: JsValue)
    requires "topic" in frame && frame["topic"].Str?
    requires "type" in frame && !IsStateEventType(frame["type"])
    ensures var r := OnMessage(allowRawEvents, message, Some(Obj(frame)), Some(parsedPayload));
      !r.failed && forall k :: 0 <= k < |r.emits| ==> r.emits[k].Raw?
  {
  }

  /** As written, a frame that does not parse makes the handler throw from its
      catch block with nothing emitted, ERROR included. */
  lemma UnparsableFrameAsWritten(allowRawEvents: JsValue, message: JsValue, parsedPayload: Option<JsValue>)
    ensures OnMessage(allowRawEvents, message, None, parsedPayload) == Emits([], true)
  {
  }

  /** The corrected handler reports the same frame as an ERROR state. */
  lemma UnparsableFrameCorrected(allowRawEvents: JsValue, message: JsValue, parsedPayload: Option<JsValue>, errorText: string)
    ensures OnMessageCorrected(allowRawEvents, message, None, parsedPayload, errorText) == Emits([StateChange(ERROR, Str(errorText))], false)
  {
  }

  // ---------------------------------------------------------------------------
  // getItemStates
  // ---------------------------------------------------------------------------

  /** A 200 response raises one StateEvent per item, on `<name>/StateEvent`, in order. */
  lemma {:induction false} ItemStatesInOrder(items: seq<JsValue>)
    requires forall k :: 0 <= k < |items| ==> items[k].Obj? && "name" in items[k].fields && "state" in items[k].fields
    ensures var r := EachItemState(items);
      && !r.failed && |r.emits| == |items|
      && forall k :: 0 <= k < |items| ==>
           r.emits[k] == ItemState(ToStr(items[k].fields["name"]) + "/StateEvent", Str("ItemStateEvent"), items[k].fields["state"])
  {
    if items != [] {
      ItemStatesInOrder(items[1..]);
      var r := EachItemState(items);
      var rest := EachItemState(items[1..]);
      assert r.emits == [ItemState(ToStr(items[0].fields["name"]) + "/StateEvent", Str("ItemStateEvent"), items[0].fields["state"])] + rest.emits;
      forall k | 0 <= k < |items|
        ensures r.emits[k] == ItemState(ToStr(items[k].fields["name"]) + "/StateEvent", Str("ItemStateEvent"), items[k].fields["state"])
      {
        if k > 0 { assert r.emits[k] == rest.emits[k - 1] && items[1..][k - 1] == items[k]; }
      }
    }
  }

  // ---------------------------------------------------------------------------
  // The out node
  // ---------------------------------------------------------------------------

  /** With all three configured, the node always sends them and ignores the message. */
  lemma OutConfigWins(cfgItem: string, cfgTopic: string, cfgPayload: string, msgItem: JsValue, msgTopic: JsValue, msgPayload: JsValue)
    requires cfgItem != "" && cfgTopic != "" && cfgPayload != ""
    ensures OutInput(cfgItem, cfgTopic, cfgPayload, msgItem, msgTopic, msgPayload) == SendCommand(Str(cfgItem), Str(cfgTopic), Str(cfgPayload))
  {
  }

  /** Anything missing shows the red NO_PAYLOAD ring instead of sending. */
  lemma OutMissingShowsNoPayload(msgItem: JsValue, msgTopic: JsValue)
    ensures OutInput("", "", "", msgItem, msgTopic, Undefined)
            == ShowStatus(Some(Utility.Status("red", "ring", Str("No payload specified"))))
  {
  }

  // ---------------------------------------------------------------------------
  // The in node
  // ---------------------------------------------------------------------------

  /** A state acts iff it differs loosely from the stored one and is not 'null'. */
  lemma ProcessActsOnNewStates(itemName: JsValue, s: InState, state: JsValue)
    ensures var r := ProcessStateEventStep(itemName, s, state);
      && (IsNewState(state, s.currentState) ==>
            r.currentState == state && r.sent == s.sent + [InMsg(state, itemName, "StateEvent")])
      && (!IsNewState(state, s.currentState) ==> r == s)
  {
  }

  /** The same state twice is output once. */
  lemma ProcessDeduplicates(itemName: JsValue, s: InState, state: JsValue)
    ensures var once := ProcessStateEventStep(itemName, s, state);
      ProcessStateEventStep(itemName, once, state) == once
  {
    LooseEqualsReflexive(state);
  }

  /** The string 'null' is never output. */
  lemma NullStringIgnored(itemName: JsValue, s: InState)
    ensures ProcessStateEventStep(itemName, s, Str("null")) == s
  {
    LooseEqualsReflexive(Str("null"));
  }

  /** A number does not repeat the string of its digits: the state event
      `26` after the stored state `'26'` outputs nothing. */
  lemma NumberRepeatsItsString(itemName: JsValue, s: InState, d: string)
    requires AllDigits(d) && s.currentState == Str(d)
    ensures ProcessStateEventStep(itemName, s, Num(DigitsValue(d))) == s
  {
    DigitStringToNumber(d);
    assert LooseEquals(Num(DigitsValue(d)), Str(d));
  }

  // ---------------------------------------------------------------------------
  // getItemsList
  // ---------------------------------------------------------------------------

  /** A cached list is served without a request; a failed request empties the
      cache, so the next call requests again. */
  lemma ItemsListCache(itemList: JsValue, response: Result<JsValue, string>)
    ensures itemList != Undefined ==> ItemsListStep(itemList, false, response) == ListOutcome(itemList, false)
    ensures ItemsListStep(itemList, true, response).requested
    ensures response.Err? ==> ItemsListStep(itemList, true, response).itemList == Undefined
    ensures response.Err? ==> ItemsListStep(ItemsListStep(itemList, true, response).itemList, false, response).requested
  {
  }
}
