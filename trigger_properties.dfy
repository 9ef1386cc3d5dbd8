/**
  What the trigger node promises, proved about the step functions of module
  Trigger: an invariant every handler keeps, the rising-edge rule for the start
  message, the effect of disarming, and the behaviour of each after-trigger
  policy.
*/
module TriggerProperties {
  import opened Wrappers
  import opened JsValues
  import opened Utility
  import opened Trigger

  // ---------------------------------------------------------------------------
  // Arm values
  // ---------------------------------------------------------------------------

  /** Only a null payload makes `armTrigger` throw. */
  lemma ArmThrowsOnlyOnNullPayload(input: ArmInput)
    ensures ArmedFor(input).Err? <==> input.payload == Null
  {
  }

  /** `payload.state` is read only when the payload is falsy, and a falsy
      payload that does not throw has no `state`: the first truthy of `state`
      and `payload` decides alone. */
  lemma PayloadStateNeverDecides(input: ArmInput)
    requires input.payload != Null
    ensures ArmValue(input) == Ok(if Truthy(input.state) then input.state
                                  else if Truthy(input.payload) then input.payload
                                  else Bool(false))
  {
  }

  /** The listed values disarm, anything else truthy arms, and a falsy value
      (the number 0, the empty string, null, undefined) falls through to `false`. */
  lemma ArmedValues(v: JsValue)
    ensures v in DisarmValues ==> ArmedFor(ArmInput(v, Undefined)) == Ok(false)
    ensures Truthy(v) && v !in DisarmValues ==> ArmedFor(ArmInput(v, Undefined)) == Ok(true)
    ensures !Truthy(v) ==> ArmedFor(ArmInput(v, Undefined)) == Ok(false)
  {
  }

  lemma ArmedExamples()
    ensures ArmedFor(ArmInput(Str("ON"), Undefined)) == Ok(true)
    ensures ArmedFor(ArmInput(Str("OPEN"), Undefined)) == Ok(true)
    ensures ArmedFor(ArmInput(Bool(true), Undefined)) == Ok(true)
    ensures ArmedFor(ArmInput(Num(0), Undefined)) == Ok(false)
    ensures ArmedFor(ArmInput(Undefined, Str("CLOSED"))) == Ok(false)
  {
    assert Str("ON") !in DisarmValues;
    assert Str("OPEN") !in DisarmValues;
  }

  /** Arming to the value already held changes nothing at all (no status either). */
  lemma ArmToSameIsNoop(cfg: Config, s: NodeState, armed: bool)
    requires s.armed == Some(armed)
    ensures ArmWith(cfg, s, armed) == s
  {
  }

  /** Disarming an armed node resets it: not triggered, no last trigger, the
      timer cancelled exactly when configured; the grey status is shown and
      nothing is sent. */
  lemma DisarmResets(cfg: Config, s: NodeState)
    requires s.armed != Some(false)
    ensures var r := ArmWith(cfg, s, false);
      && r.armed == Some(false) && !r.triggered && r.lastTrigger == None
      && r.timer == (if cfg.cancelTimerWhenDisarmed then None else s.timer)
      && r.statuses == s.statuses + [Status("grey", "ring", Str("disarmed"))]
      && r.sent == s.sent && r.immediates == s.immediates
  {
  }

  /** Arming a node keeps its trigger state and timer and shows the blue ring. */
  lemma ArmKeepsTriggerState(cfg: Config, s: NodeState)
    requires s.armed != Some(true)
    ensures var r := ArmWith(cfg, s, true);
      && r.armed == Some(true) && r.triggered == s.triggered && r.lastTrigger == s.lastTrigger
      && r.timer == s.timer && r.statuses == s.statuses + [Status("blue", "ring", Str("armed"))]
  {
  }

  // ---------------------------------------------------------------------------
  // The start message
  // ---------------------------------------------------------------------------

  /** A disarmed node only records the new state. */
  lemma DisarmedRecordsOnly(cfg: Config, s: NodeState, ev: ItemEvent, now: JsValue)
    requires !IsArmed(s)
    ensures OnEventStep(cfg, s, ev, now) == Outcome(s.(itemState := ev.state, storedState := if cfg.storeState then ev.state else s.storedState), false)
  {
  }

  /** `triggerAction` sends exactly one message, the start message, on a rising
      edge with no timer pending, and none otherwise; it stores the trigger
      then, and leaves `triggered` at whether the conditions passed. */
  lemma StartMessageOnRisingEdge(cfg: Config, s: NodeState, ev: ItemEvent, now: JsValue)
    ensures var r := TriggerActionStep(cfg, s, ev, now);
      && (Fires(cfg, s, ev) ==> r.sent == s.sent + [StartMessage(cfg, ev, now)] && r.lastTrigger == Some(TriggerOf(ev, now)))
      && (!Fires(cfg, s, ev) ==> r.sent == s.sent && r.lastTrigger == s.lastTrigger)
      && r.triggered == HasTriggered(cfg, s, ev)
      && r.timer == s.timer && r.armed == s.armed
  {
  }

  /** Fires only when not already triggered and no timer is pending. */
  lemma NoStartWhileTriggeredOrTiming(cfg: Config, s: NodeState, ev: ItemEvent)
    requires s.triggered || s.timer.Some?
    ensures !Fires(cfg, s, ev)
  {
  }

  /** The start message carries the event's state in its trigger, and takes its
      topic and payload from the event when configured to. */
  lemma StartMessageContents(cfg: Config, ev: ItemEvent, now: JsValue)
    ensures StartMessage(cfg, ev, now).trigger == Some(TriggerInfo(ev.state, now, ev.item, ev.eventType))
    ensures cfg.topic == FromMessage("item") ==> StartMessage(cfg, ev, now).topic == ev.item
    ensures cfg.payload == FromMessage("state") ==> StartMessage(cfg, ev, now).payload == ev.state
  {
  }

  /** With the `once` frequency the additional conditions are checked only on
      the edge: once triggered they pass whatever they say. */
  lemma OnceChecksOnlyTheEdge(cfg: Config)
    requires cfg.additionalFrequency == "once"
    ensures AdditionalConditionsPassed(cfg, true)
  {
  }

  /** No additional conditions: the trigger conditions alone decide. */
  lemma NoAdditionalConditions(cfg: Config, s: NodeState, ev: ItemEvent)
    requires cfg.additionalConditions == []
    ensures HasTriggered(cfg, s, ev) <==> TriggerConditionsPassed(cfg, ev.state)
  {
  }

  /** AND over no conditions passes, OR over none fails. */
  lemma EmptyTriggerConditions(cfg: Config, state: JsValue)
    requires cfg.triggerConditions == []
    ensures TriggerConditionsPassed(cfg, state) <==> cfg.triggerLogic == And
  {
  }

  // ---------------------------------------------------------------------------
  // After-trigger policies
  // ---------------------------------------------------------------------------

  /** `finally` with `do_not_change` keeps the arm state, ends triggered and
      shows the arm status. */
  lemma FinallyKeepsArm(cfg: Config, s: NodeState)
    requires cfg.armDisarm == "do_not_change"
    ensures var r := FinallyStep(cfg, s);
      && r.armed == s.armed && !r.triggered && r.lastTrigger == s.lastTrigger
      && r.statuses == s.statuses + [ArmStatus(IsArmed(s))] && r.sent == s.sent
  {
  }

  /** `finally` with `disarm` leaves the node disarmed and its last trigger gone. */
  lemma FinallyDisarms(cfg: Config, s: NodeState)
    requires cfg.armDisarm == "disarm" && Inv(s)
    ensures var r := FinallyStep(cfg, s);
      && r.armed == Some(false) && !r.triggered && r.lastTrigger == None
  {
  }

  /** Under `nothing`, whatever the arm setting, the node is never left
      triggered and never starts a timer (a pending one survives unless
      `finally` disarms and disarming cancels it; any setting other than
      `do_not_change` and `arm` disarms), so every event whose
      conditions pass fires anew. */
  lemma NothingPolicyNeverStaysTriggered(cfg: Config, s: NodeState, ev: ItemEvent, now: JsValue)
    requires cfg.afterTrigger == Nothing && IsArmed(s)
    ensures var r := OnEventStep(cfg, s, ev, now);
      && !r.threw && !r.state.triggered
      && (r.state.timer == s.timer || r.state.timer.None?)
      && (cfg.armDisarm in {"do_not_change", "arm"} || !cfg.cancelTimerWhenDisarmed ==> r.state.timer == s.timer)
      && (cfg.armDisarm in {"do_not_change", "arm"} ==> IsArmed(r.state))
      && r.state.sent == s.sent + (if Fires(cfg, s, ev) then [StartMessage(cfg, ev, now)] else [])
  {
  }

  /** Under `untrigger`, a triggered node whose conditions stop passing sends
      the end message with the stored trigger and is reset; the next passing
      event is a rising edge again. */
  lemma UntriggerSendsEndOnFallingEdge(cfg: Config, s: NodeState, ev: ItemEvent, now: JsValue)
    requires cfg.afterTrigger == Untrigger
    requires IsArmed(s) && s.triggered && !HasTriggered(cfg, s, ev)
    ensures var r := OnEventStep(cfg, s, ev, now);
      && !r.threw && !r.state.triggered
      && (cfg.armDisarm in {"do_not_change", "arm"} ==> IsArmed(r.state))
      && r.state.sent == s.sent + [EndMessage(cfg, s)]
  {
  }

  /** Under `untrigger`, a node that was not triggered sends no end message:
      at most the start message of a rising edge goes out. */
  lemma UntriggerNoEndWithoutTrigger(cfg: Config, s: NodeState, ev: ItemEvent, now: JsValue)
    requires cfg.afterTrigger == Untrigger
    requires IsArmed(s) && !s.triggered
    ensures var r := OnEventStep(cfg, s, ev, now);
      && !r.threw
      && r.state.sent == s.sent + (if Fires(cfg, s, ev) then [StartMessage(cfg, ev, now)] else [])
  {
  }

  /** Under `untrigger`, a triggered node whose conditions still pass sends nothing. */
  lemma UntriggerHoldsWhileTriggered(cfg: Config, s: NodeState, ev: ItemEvent, now: JsValue)
    requires cfg.afterTrigger == Untrigger
    requires IsArmed(s) && s.triggered && HasTriggered(cfg, s, ev)
    ensures var r := OnEventStep(cfg, s, ev, now);
      !r.threw && r.state.triggered && r.state.sent == s.sent
  {
  }

  /** Under `timer`, a passing event starts the delay when none is pending (or
      restarts it when every trigger resets it); nothing is sent yet. */
  lemma TimerPolicyStartsDelay(cfg: Config, s: NodeState, ev: ItemEvent, now: JsValue)
    requires cfg.afterTrigger == TimerPolicy && IsArmed(s) && TimerValue(cfg) > 0
    requires HasTriggered(cfg, s, ev) && (s.timer.None? || cfg.timerResetEveryTrigger)
    ensures var r := OnEventStep(cfg, s, ev, now);
      && !r.threw && r.state.timer == Some(Timer(TimerValue(cfg), TimerFunction))
      && r.state.triggered
  {
  }

  /** When the delay expires while still triggered and armed with reset on, it
      is started again; otherwise the end message goes out and `finally` runs. */
  lemma TimerExpiry(cfg: Config, s: NodeState)
    requires s.timer == Some(Timer(TimerValue(cfg), TimerFunction))
    ensures var r := FireTimerStep(cfg, s);
      && (s.triggered && IsArmed(s) && cfg.timerResetEveryTrigger && TimerValue(cfg) > 0 ==>
            r == s)
      && (!(s.triggered && IsArmed(s) && cfg.timerResetEveryTrigger) ==>
            r == FinallyStep(cfg, s.(timer := None, sent := s.sent + [EndMessage(cfg, s)])))
  {
  }

  /** Under `nodelay` the end message is queued and `finally` runs first, so
      when `finally` disarms, the end message carries no trigger. */
  lemma NoDelayDisarmDropsTrigger(cfg: Config, s: NodeState, ev: ItemEvent, now: JsValue)
    requires cfg.afterTrigger == NoDelay && cfg.armDisarm == "disarm"
    requires IsArmed(s) && HasTriggered(cfg, s, ev)
    ensures var r := OnEventStep(cfg, s, ev, now).state;
      && r.immediates == s.immediates + [SendEnd]
      && r.armed == Some(false)
      && EndMessage(cfg, r).trigger == None
  {
  }

  /** An afterTrigger key that names no action throws after `triggerAction`
      has run, so the new state is not recorded. */
  lemma UnknownPolicyThrows(cfg: Config, s: NodeState, ev: ItemEvent, now: JsValue)
    requires cfg.afterTrigger == Unknown && IsArmed(s)
    ensures OnEventStep(cfg, s, ev, now) == Outcome(TriggerActionStep(cfg, s, ev, now), true)
  {
  }

  // ---------------------------------------------------------------------------
  // Delay values
  // ---------------------------------------------------------------------------

  /** The delay in milliseconds for every configuration: the advanced value
      as given, milliseconds kept, minutes and hours scaled, and any other
      unit name read as seconds. */
  lemma TimerUnits(cfg: Config)
    ensures cfg.timer.Advanced? ==> TimerValue(cfg) == cfg.timer.value
    ensures cfg.timer.Basic? ==> var t := cfg.timer.timer;
      && (cfg.timer.units == "milliseconds" ==> TimerValue(cfg) == t)
      && (cfg.timer.units == "minutes" ==> TimerValue(cfg) == 60000 * t)
      && (cfg.timer.units == "hours" ==> TimerValue(cfg) == 3600000 * t)
      && (cfg.timer.units !in {"milliseconds", "minutes", "hours"} ==> TimerValue(cfg) == 1000 * t)
  {
  }

  // ---------------------------------------------------------------------------
  // Controller events
  // ---------------------------------------------------------------------------

  /** Only CONNECTED is acted upon. */
  lemma OtherControllerEventsIgnored(cfg: Config, s: NodeState, code: int, fetched: Result<JsValue, JsValue>)
    requires code != CONNECTED
    ensures ControllerEventStep(cfg, s, code, fetched) == s
  {
  }

  /** Without an arm item the configured initial state is applied on connect. */
  lemma ConnectAppliesTriggerState(cfg: Config, s: NodeState, fetched: Result<JsValue, JsValue>)
    requires cfg.armedItem == ""
    ensures ControllerEventStep(cfg, s, CONNECTED, fetched).armed == Some(cfg.triggerState == "armed")
  {
  }

  /** With an arm item, the fetched state decides; a failed fetch shows an
      error status and leaves the arm state alone. */
  lemma ConnectUsesArmItem(cfg: Config, s: NodeState, fetched: Result<JsValue, JsValue>)
    requires cfg.armedItem != ""
    ensures fetched.Err? ==> ControllerEventStep(cfg, s, CONNECTED, fetched).armed == s.armed
    ensures fetched.Err? && fetched.error != Undefined ==>
      ControllerEventStep(cfg, s, CONNECTED, fetched).statuses == s.statuses + [Status("red", "dot", fetched.error)]
    ensures fetched.Ok? && fetched.value.Obj? && "state" in fetched.value.fields ==>
      ControllerEventStep(cfg, s, CONNECTED, fetched).armed == Some(ArmedFor(ArmInput(fetched.value.fields["state"], Undefined)).value)
  {
  }

  /** As written, an arm item is never fetched: CONNECTED with an arm item
      throws and changes nothing, and in every other case the handler does
      what the intended one does, whatever the fetch would have given. */
  lemma ArmItemFetchThrowsAsWritten(cfg: Config, s: NodeState, event: int)
    ensures var r := ControllerEventStepAsWritten(cfg, s, event);
      && (r.threw <==> event == CONNECTED && cfg.armedItem != "")
      && (r.threw ==> r.state == s)
      && (!r.threw ==> forall fetched :: r.state == ControllerEventStep(cfg, s, event, fetched))
  {
  }

  /** So, as written, a node with an arm item that has not been armed before
      is still not armed after the controller connects. */
  lemma ArmItemNeverArmsOnConnectAsWritten(cfg: Config, s: NodeState)
    requires cfg.armedItem != "" && !IsArmed(s)
    ensures !IsArmed(ControllerEventStepAsWritten(cfg, s, CONNECTED).state)
  {
  }

  // ---------------------------------------------------------------------------
  // The invariant over any sequence of events
  // ---------------------------------------------------------------------------

  /** Triggered only while armed, and a last trigger only while armed. */
  predicate Inv(s: NodeState) {
    (s.triggered ==> IsArmed(s)) && (!IsArmed(s) ==> s.lastTrigger == None)
  }

  /** Everything that can happen to a trigger node. */
  datatype Event =
    | ItemChanged(ev: ItemEvent, now: JsValue)
    | ArmItemChanged(ev: ItemEvent)
    | Input(input: ArmInput)
    | ControllerState(code: int, fetched: Result<JsValue, JsValue>)
    | TimerExpires
    | ImmediateRuns
    | Closed

  /** The state after one event; a handler that throws leaves the state it reached. */
  function Step(cfg: Config, s: NodeState, e: Event): NodeState {
    match e
    case ItemChanged(ev, now) => OnEventStep(cfg, s, ev, now).state
    case ArmItemChanged(ev) =>
      (match ArmStep(cfg, s, ArmInput(ev.state, ev.payload)) case Ok(r) => r case Err(_) => s)
    case Input(input) => (match InputStep(cfg, s, input) case Ok(r) => r case Err(_) => s)
    case ControllerState(code, fetched) => ControllerEventStep(cfg, s, code, fetched)
    case TimerExpires => FireTimerStep(cfg, s)
    case ImmediateRuns => RunImmediateStep(cfg, s)
    case Closed => CloseStep(s)
  }

  function RunEvents(cfg: Config, s: NodeState, es: seq<Event>): NodeState
    decreases |es|
  {
    if es == [] then s else RunEvents(cfg, Step(cfg, s, es[0]), es[1..])
  }

  lemma InitialInv()
    ensures Inv(Initial)
  {
  }

  lemma ArmWithInv(cfg: Config, s: NodeState, armed: bool)
    requires Inv(s)
    ensures Inv(ArmWith(cfg, s, armed))
  {
  }

  lemma FinallyInv(cfg: Config, s: NodeState)
    requires Inv(s)
    ensures Inv(FinallyStep(cfg, s))
  {
    if cfg.armDisarm != "do_not_change" {
      ArmWithInv(cfg, s, cfg.armDisarm == "arm");
    }
  }

  lemma CallbackInv(cfg: Config, s: NodeState, cb: Callback)
    requires Inv(s)
    ensures Inv(RunCallback(cfg, s, cb))
  {
    var s1 := s.(timer := None);
    if cb == TimerFunction && !(s1.triggered && IsArmed(s1) && cfg.timerResetEveryTrigger) {
      FinallyInv(cfg, SendMessageStep(cfg, s1));
    }
  }

  /** The trigger action keeps the invariant on an armed node. */
  lemma TriggerActionInv(cfg: Config, s: NodeState, ev: ItemEvent, now: JsValue)
    requires Inv(s) && IsArmed(s)
    ensures Inv(TriggerActionStep(cfg, s, ev, now)) && IsArmed(TriggerActionStep(cfg, s, ev, now))
  {
  }

  /** Every after-trigger action keeps the invariant, also when it throws. */
  lemma AfterTriggerInv(cfg: Config, s: NodeState, initial: bool, has: bool)
    requires Inv(s)
    ensures match AfterTriggerStep(cfg, s, initial, has) case Ok(r) => Inv(r) case Err(r) => Inv(r)
  {
    match cfg.afterTrigger
    case Nothing => if has { FinallyInv(cfg, s); }
    case FinallyKey => FinallyInv(cfg, s);
    case SendMessageKey =>
    case TimerPolicy =>
    case Untrigger => if initial && !has { FinallyInv(cfg, SendMessageStep(cfg, s)); }
    case NoDelay => if has { FinallyInv(cfg, StartTimerStep(s, SendEnd, 0)); }
    case Unknown =>
  }

  lemma OnEventInv(cfg: Config, s: NodeState, ev: ItemEvent, now: JsValue)
    requires Inv(s)
    ensures Inv(OnEventStep(cfg, s, ev, now).state)
  {
    if IsArmed(s) {
      TriggerActionInv(cfg, s, ev, now);
      AfterTriggerInv(cfg, TriggerActionStep(cfg, s, ev, now), s.triggered, HasTriggered(cfg, s, ev));
    }
  }

  lemma StepInv(cfg: Config, s: NodeState, e: Event)
    requires Inv(s)
    ensures Inv(Step(cfg, s, e))
  {
    match e
    case ItemChanged(ev, now) => OnEventInv(cfg, s, ev, now);
    case ArmItemChanged(ev) =>
    case Input(input) =>
    case ControllerState(code, fetched) =>
    case TimerExpires => if s.timer.Some? { CallbackInv(cfg, s, s.timer.value.callback); }
    case ImmediateRuns => if s.immediates != [] { CallbackInv(cfg, s.(immediates := s.immediates[1..]), s.immediates[0]); }
    case Closed =>
  }

  /** The invariant holds after any sequence of events from a state that has it. */
  lemma {:induction false} RunInv(cfg: Config, s: NodeState, es: seq<Event>)
    requires Inv(s)
    ensures Inv(RunEvents(cfg, s, es))
    decreases |es|
  {
    if es != [] {
      StepInv(cfg, s, es[0]);
      RunInv(cfg, Step(cfg, s, es[0]), es[1..]);
    }
  }

  /** Messages are only ever appended: a run never takes back a sent message. */
  lemma {:induction false} SentOnlyGrows(cfg: Config, s: NodeState, es: seq<Event>)
    ensures s.sent <= RunEvents(cfg, s, es).sent
    decreases |es|
  {
    if es != [] {
      StepSentGrows(cfg, s, es[0]);
      SentOnlyGrows(cfg, Step(cfg, s, es[0]), es[1..]);
    }
  }

  lemma ArmWithKeepsSent(cfg: Config, s: NodeState, armed: bool)
    ensures ArmWith(cfg, s, armed).sent == s.sent
  {
  }

  lemma FinallyKeepsSent(cfg: Config, s: NodeState)
    ensures FinallyStep(cfg, s).sent == s.sent
  {
    if cfg.armDisarm != "do_not_change" {
      ArmWithKeepsSent(cfg, s, cfg.armDisarm == "arm");
    }
  }

  lemma CallbackSentGrows(cfg: Config, s: NodeState, cb: Callback)
    ensures s.sent <= RunCallback(cfg, s, cb).sent
  {
    var s1 := s.(timer := None);
    if cb == TimerFunction && !(s1.triggered && IsArmed(s1) && cfg.timerResetEveryTrigger) {
      FinallyKeepsSent(cfg, SendMessageStep(cfg, s1));
    }
  }

  /** Every after-trigger action keeps the messages already sent, also when it throws. */
  lemma AfterTriggerSentGrows(cfg: Config, s: NodeState, initial: bool, has: bool)
    ensures match AfterTriggerStep(cfg, s, initial, has) case Ok(r) => s.sent <= r.sent case Err(r) => s.sent <= r.sent
  {
    match cfg.afterTrigger
    case Nothing => if has { FinallyKeepsSent(cfg, s); }
    case FinallyKey => FinallyKeepsSent(cfg, s);
    case SendMessageKey =>
    case TimerPolicy =>
    case Untrigger => if initial && !has { FinallyKeepsSent(cfg, SendMessageStep(cfg, s)); }
    case NoDelay => if has { FinallyKeepsSent(cfg, StartTimerStep(s, SendEnd, 0)); }
    case Unknown =>
  }

  lemma OnEventSentGrows(cfg: Config, s: NodeState, ev: ItemEvent, now: JsValue)
    ensures s.sent <= OnEventStep(cfg, s, ev, now).state.sent
  {
    if IsArmed(s) {
      var s1 := TriggerActionStep(cfg, s, ev, now);
      assert s.sent <= s1.sent;
      AfterTriggerSentGrows(cfg, s1, s.triggered, HasTriggered(cfg, s, ev));
    }
  }

  lemma StepSentGrows(cfg: Config, s: NodeState, e: Event)
    ensures s.sent <= Step(cfg, s, e).sent
  {
    match e
    case ItemChanged(ev, now) => OnEventSentGrows(cfg, s, ev, now);
    case ArmItemChanged(ev) =>
    case Input(input) =>
    case ControllerState(code, fetched) =>
    case TimerExpires => if s.timer.Some? { CallbackSentGrows(cfg, s, s.timer.value.callback); }
    case ImmediateRuns => if s.immediates != [] { CallbackSentGrows(cfg, s.(immediates := s.immediates[1..]), s.immediates[0]); }
    case Closed =>
  }
}
