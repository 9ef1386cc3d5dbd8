/**
  What the controller promises, proved about the step functions of module
  Controller: the topic-to-item round trip, the exclusive connection queries,
  the error classification and retry rule, the connect/disconnect bookkeeping,
  and an invariant that holds over any sequence of client events.
*/
module ControllerProperties {
  import opened Wrappers
  import opened JsValues
  import opened Utility
  import opened Controller

  const TopicPrefix: string := "smarthome/items/"

  /** The last '/' of a string whose tail after position p has none is at p. */
  lemma LastSlashAt(t: string, p: int)
    requires 0 <= p < |t| && t[p] == '/'
    requires forall k :: p < k < |t| ==> t[k] != '/'
    ensures LastIndexOf(t, '/') == p
  {
  }

  /** The item name comes back out of any topic `smarthome/items/<name>/<event>`,
      even a name holding slashes, as long as the event part has none. */
  lemma {:induction false} TopicItemRoundTrip(name: string, event: string)
    requires '/' !in event
    ensures TopicItem(TopicPrefix + name + "/" + event) == name
  {
    var t := TopicPrefix + name + "/" + event;
    var p := 16 + |name|;
    assert |TopicPrefix| == 16;
    assert t[p] == '/';
    forall k | p < k < |t|
      ensures t[k] != '/'
    {
      assert t[k] == event[k - p - 1];
    }
    LastSlashAt(t, p);
    assert t[16..p] == name;
  }

  /** A well-formed frame is emitted on `item/type` with the payload's `value`
      as state and the payload unchanged. */
  lemma FrameEmits(name: string, event: string, eventType: string, payload: map<string, JsValue>, other: map<string, JsValue>)
    requires '/' !in event && "value" in payload
    ensures var frame := Obj(other["topic" := Str(TopicPrefix + name + "/" + event)]["type" := Str(eventType)]);
      ParseFrame(Some(frame), Some(Obj(payload)))
        == Ok(ItemEmit(name + "/" + eventType, name, Str(eventType), payload["value"], Obj(payload)))
  {
    TopicItemRoundTrip(name, event);
  }

  /** A frame that fails to parse leaves `parsedMessage` undefined and the
      handler throws on the topic access. */
  lemma UnparsableFrameThrows(parsedPayload: Option<JsValue>)
    ensures ParseFrame(None, parsedPayload) == Err(TypeError)
  {
  }

  /** A payload that does not parse keeps its text, which has no `value`: the
      emitted state is undefined. */
  lemma UnparsablePayloadGivesUndefinedState(topic: string, text: string, fields: map<string, JsValue>)
    requires "topic" in fields && fields["topic"] == Str(topic) && "payload" in fields && fields["payload"] == Str(text)
    ensures ParseFrame(Some(Obj(fields)), None).Ok?
    ensures ParseFrame(Some(Obj(fields)), None).value.state == Undefined
  {
  }

  /** The three connection queries never hold together, and with a client in
      one of the three states exactly one of them holds. */
  lemma QueriesExclusive(s: ControllerState)
    ensures !(IsConnected(s) && IsConnecting(s))
    ensures !(IsConnected(s) && IsDisconnected(s))
    ensures !(IsConnecting(s) && IsDisconnected(s))
    ensures s.client.Some? && s.client.value.readyState in {CONNECTING, CONNECTED, DISCONNECTED} ==>
      IsConnected(s) || IsConnecting(s) || IsDisconnected(s)
  {
  }

  /** Only the two configuration problems stop the node from reconnecting. */
  lemma RetryRule(upper: string, status: JsValue)
    ensures !Retries(ClassifyError(upper, status)) <==>
      (!Contains(upper, "ENOTFOUND") && status != Num(404))
      && (status in {Num(401), Num(403)} || (!Contains(upper, "ECONNREFUSED") && Contains(upper, "CERTIFICATE")))
  {
  }

  lemma EnotfoundUpper()
    ensures ToUpper("enotfound") == "ENOTFOUND"
  {
    var r := ToUpper("enotfound");
    assert r[0] == 'E' && r[1] == 'N' && r[2] == 'O' && r[3] == 'T' && r[4] == 'F';
    assert r[5] == 'O' && r[6] == 'U' && r[7] == 'N' && r[8] == 'D';
  }

  /** The message is matched case-insensitively: a lower-case `enotfound`
      inside any message is Not found. */
  lemma LowerCaseMessageMatches(before: string, after: string, status: JsValue)
    ensures UpperMessage(Str(before + "enotfound" + after)).Ok?
    ensures ClassifyError(UpperMessage(Str(before + "enotfound" + after)).value, status) == NotFound
  {
    var m := before + "enotfound" + after;
    assert UpperMessage(Str(m)) == Ok(ToUpper(m)) by {
      assert |m| > 0;
    }
    assert Contains(ToUpper(m), "ENOTFOUND") by {
      UpperInfix(before, "enotfound", after);
      EnotfoundUpper();
      SuffixContained(ToUpper(m), |before|, "ENOTFOUND");
    }
  }

  /** Upper-casing a string upper-cases each of its slices in place. */
  lemma UpperInfix(before: string, w: string, after: string)
    ensures ToUpper(w) <= ToUpper(before + w + after)[|before|..]
  {
    var m := before + w + after;
    var u := ToUpper(m);
    var v := ToUpper(w);
    forall k | 0 <= k < |w|
      ensures u[|before|..][k] == v[k]
    {
      assert m[|before| + k] == w[k];
    }
  }

  lemma {:induction false} SuffixContained(s: string, i: nat, sub: string)
    requires i <= |s| && sub <= s[i..]
    ensures Contains(s, sub)
    decreases i
  {
    if i > 0 {
      assert s[1..][i - 1..] == s[i..];
      SuffixContained(s[1..], i - 1, sub);
    }
  }

  /** An error without message keeps the client and re-emits its state. */
  lemma ErrorWithoutMessageKeepsClient(url: string, s: ControllerState, message: JsValue, status: JsValue)
    requires s.client.Some? && !Truthy(message)
    ensures var r := OnErrorStep(url, s, message, status);
      && r.Ok? && r.value.client == s.client && r.value.retryTimer == s.retryTimer
      && r.value.emits == s.emits + [StateEmit(s.client.value.readyState, Undefined)]
  {
  }

  /** An error with a message drops the client, schedules one 15 s retry
      exactly when the kind allows it, and emits ERROR with the text. */
  lemma ErrorWithMessageDropsClient(url: string, s: ControllerState, message: string, status: JsValue)
    requires s.client.Some? && message != ""
    ensures var kind := ClassifyError(ToUpper(message), status);
      var r := OnErrorStep(url, s, Str(message), status);
      && r.Ok? && r.value.client.None?
      && (Retries(kind) ==> r.value.retryTimer == Some(RetryTimer(15000, true)))
      && (!Retries(kind) ==> r.value.retryTimer == s.retryTimer)
      && r.value.emits == s.emits + [StateEmit(ERROR, Str("EventSource " + url + " - " + KindText(kind)))]
  {
  }

  /** Without a client the handler throws before changing anything. */
  lemma ErrorWithoutClientThrows(url: string, s: ControllerState, message: JsValue, status: JsValue)
    requires s.client.None?
    ensures OnErrorStep(url, s, message, status).Err?
  {
  }

  /** `connect` keeps an existing client, whatever its state, and still announces CONNECTING. */
  lemma ConnectKeepsClient(s: ControllerState)
    requires s.client.Some?
    ensures ConnectStep(s).client == s.client
    ensures ConnectStep(s).emits == s.emits + [StateEmit(CONNECTING, Undefined)]
  {
  }

  /** `disconnect` keeps the closed client, so a second call announces
      DISCONNECTED again, and a later `connect` does not replace it. */
  lemma DisconnectKeepsClosedClient(s: ControllerState)
    requires s.client.Some?
    ensures var d := DisconnectStep(s);
      && d.client == Some(Client(DISCONNECTED, false))
      && DisconnectStep(d).emits == s.emits + [StateEmit(DISCONNECTED, Undefined), StateEmit(DISCONNECTED, Undefined)]
      && IsDisconnected(ConnectStep(d))
  {
  }

  /** `disconnect` leaves no retry pending. */
  lemma DisconnectCancelsRetry(s: ControllerState)
    ensures var d := DisconnectStep(s);
      d.retryTimer.Some? ==> !d.retryTimer.value.pending
  {
  }

  /** `getItems` settles with a warning for any error carrying a string
      message: the same kind the stream's classification gives that message
      without a status, so never Not authorized, followed by the endpoint. */
  lemma GetItemsErrors(message: string, error: map<string, JsValue>)
    requires "message" in error && error["message"] == Str(message)
    ensures var kind := ClassifyError(ToUpper(message), Undefined);
      && kind != NotAuthorized
      && GetItems(Err(Obj(error)))
         == Ok(ItemsResult(Undefined, Some(KindText(kind) + " - GET Request /rest/items/")))
  {
    var kind := ClassifyError(ToUpper(message), Undefined);
    assert KindText(kind) + " - GET Request " + ItemsEndpoint == KindText(kind) + " - GET Request /rest/items/";
  }

  /** An error value without a string message makes `getItems` reject. */
  lemma GetItemsRejects(error: JsValue)
    requires Prop(error, "message").Err? || !Prop(error, "message").value.Str?
    ensures GetItems(Err(error)).Err?
  {
  }

  // ---------------------------------------------------------------------------
  // URL and header round trips
  // ---------------------------------------------------------------------------

  /** The base URL splits back into its parts: the first ':' ends the
      protocol and is followed by "//", the next ':' ends the host. */
  lemma {:induction false} BaseUrlSplits(protocol: string, host: string, port: string)
    requires ':' !in protocol && ':' !in host
    ensures var r := BaseUrl(protocol, host, port);
      var i := IndexOfFrom(r, ':', 0);
      var j := IndexOfFrom(r, ':', i + 1);
      && i == |protocol| && j == |protocol| + 3 + |host|
      && r[..i] == protocol && r[i..i + 3] == "://" && r[i + 3..j] == host && r[j + 1..] == port
  {
    var r := BaseUrl(protocol, host, port);
    var p := |protocol|;
    var q := p + 3 + |host|;
    assert r[p] == ':' && r[q] == ':';
    assert forall k :: 0 <= k < p ==> r[k] == protocol[k];
    assert forall k :: p + 3 <= k < q ==> r[k] == host[k - p - 3];
    FirstColonAt(r, 0, p);
    FirstColonAt(r, p + 1, q);
    assert r[..p] == protocol;
    assert r[p + 3..q] == host;
    assert r[q + 1..] == port;
  }

  /** A ':' at p with none in [from, p) is what `indexOf(':', from)` finds. */
  lemma FirstColonAt(s: string, from: nat, p: nat)
    requires from <= p < |s| && s[p] == ':'
    requires forall k :: from <= k < p ==> s[k] != ':'
    ensures IndexOfFrom(s, ':', from) == p
  {
  }

  /** The events URL is the base URL followed by the stream's path, so two
      different bases never give the same events URL. */
  lemma EventsUrlSplits(base: string, other: string)
    ensures var r := EventsUrl(base);
      && |r| == |base| + 12 && r[..|base|] == base && r[|base|..] == "/rest/events"
      && (EventsUrl(other) == r ==> other == base)
  {
    var r := EventsUrl(base);
    if EventsUrl(other) == r {
      assert |other| == |base|;
      assert other == r[..|base|];
    }
  }

  /** The Authorization header decodes back to the two credentials: its
      "Basic " prefix is followed by the encoding of "<username>:<password>",
      and a username without ':' ends at the first ':'. There is no header
      exactly when either credential is empty. */
  lemma {:induction false} AuthHeaderRoundTrip(username: string, password: string, encode: string -> string, decode: string -> string)
    requires forall x :: decode(encode(x)) == x
    requires ':' !in username
    ensures var r := AuthHeader(username, password, encode);
      && (r.None? <==> username == "" || password == "")
      && (r.Some? ==>
            && r.value[..6] == "Basic "
            && var credentials := decode(r.value[6..]);
               var i := IndexOfFrom(credentials, ':', 0);
               && 0 <= i < |credentials|
               && credentials[..i] == username && credentials[i + 1..] == password)
  {
    var r := AuthHeader(username, password, encode);
    if r.Some? {
      var c := username + ":" + password;
      assert r.value == "Basic " + encode(c);
      assert r.value[..6] == "Basic ";
      assert r.value[6..] == encode(c);
      assert decode(r.value[6..]) == c;
      CredentialsSplit(username, password);
    }
  }

  /** "<username>:<password>" splits back at its first ':' when the username
      holds none. */
  lemma CredentialsSplit(username: string, password: string)
    requires ':' !in username
    ensures var c := username + ":" + password;
      var i := IndexOfFrom(c, ':', 0);
      && i == |username| && c[..i] == username && c[i + 1..] == password
  {
    var c := username + ":" + password;
    assert forall k :: 0 <= k < |username| ==> c[k] == username[k];
    FirstColonAt(c, 0, |username|);
    assert c[..|username|] == username;
    assert c[|username| + 1..] == password;
  }

  // ---------------------------------------------------------------------------
  // The invariant over any sequence of client events
  // ---------------------------------------------------------------------------

  /** A retry is pending only while there is no client, and the client's state
      is one of the three connection states. */
  predicate Inv(s: ControllerState) {
    (s.retryTimer.Some? && s.retryTimer.value.pending ==> s.client.None?)
    && (s.client.Some? ==> s.client.value.readyState in {CONNECTING, CONNECTED, DISCONNECTED})
  }

  datatype Event =
    | Opened
    | Errored(message: JsValue, status: JsValue)
    | Received(envelope: Option<JsValue>, parsedPayload: Option<JsValue>)
    | RetryExpires
    | Closed

  function Step(url: string, s: ControllerState, e: Event): ControllerState {
    match e
    case Opened => OnOpenStep(s)
    case Errored(message, status) => (match OnErrorStep(url, s, message, status) case Ok(r) => r case Err(_) => s)
    case Received(envelope, parsedPayload) => (match OnMessageStep(s, envelope, parsedPayload) case Ok(r) => r case Err(_) => s)
    case RetryExpires => FireRetryStep(s)
    case Closed => DisconnectStep(s)
  }

  function RunEvents(url: string, s: ControllerState, es: seq<Event>): ControllerState
    decreases |es|
  {
    if es == [] then s else RunEvents(url, Step(url, s, es[0]), es[1..])
  }

  /** The state the constructor leaves. */
  lemma StartInv()
    ensures Inv(ConnectStep(ControllerState(None, None, [], [])))
  {
  }

  lemma StepInv(url: string, s: ControllerState, e: Event)
    requires Inv(s)
    ensures Inv(Step(url, s, e))
  {
  }

  lemma {:induction false} RunInv(url: string, s: ControllerState, es: seq<Event>)
    requires Inv(s)
    ensures Inv(RunEvents(url, s, es))
    decreases |es|
  {
    if es != [] {
      StepInv(url, s, es[0]);
      RunInv(url, Step(url, s, es[0]), es[1..]);
    }
  }
}
