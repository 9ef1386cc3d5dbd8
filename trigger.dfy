/**
  The trigger node (nodes/openhab-v2-trigger.js).

  Each handler of the node is given twice: as a pure step function on a
  snapshot of the node's context (`NodeState`), about which the lemmas at the
  end of the module are proved, and as a method of the class `TriggerNode`,
  which updates the same fields one statement at a time as the handler does and
  is proved to end in the state the step function computes.

  Timers are explicit: `timer` is `node.timerObject` (at most one pending
  timeout), `immediates` are the callbacks queued by `setImmediate`, and the
  environment runs them through `FireTimer` and `RunImmediate`. Sent messages and
  shown statuses are appended to logs.
*/
module Trigger {
  import opened Wrappers
  import opened JsValues
  import opened Operators
  import opened Utility

  // ---------------------------------------------------------------------------
  // Configuration
  // ---------------------------------------------------------------------------

  /** `config.*.logic === 'AND' ? 'AND' : 'OR'`. */
  datatype Logic = And | Or

  function LogicOf(name: string): Logic {
    if name == "AND" then And else Or
  }

  /** A trigger condition: comparator key and the operand `getValueAs` produced. */
  datatype Condition = Condition(comparator: string, value: JsValue)

  /** An additional condition: comparator key, the resolved variable and the resolved operand. */
  datatype AdditionalCondition = AdditionalCondition(comparator: string, variableValue: JsValue, value: JsValue)

  /** The delay setting: a count and unit, or the advanced value `getValueAs` produced. */
  datatype TimerSetting = Basic(timer: int, units: string) | Advanced(value: int)

  /** The keys of `afterTriggerAction` that `config.afterTrigger` may name. */
  datatype AfterTrigger = Nothing | NoDelay | TimerPolicy | Untrigger | FinallyKey | SendMessageKey | Unknown

  function AfterTriggerOf(name: string): AfterTrigger {
    if name == "nothing" then Nothing
    else if name == "nodelay" then NoDelay
    else if name == "timer" then TimerPolicy
    else if name == "untrigger" then Untrigger
    else if name == "finally" then FinallyKey
    else if name == "sendMessage" then SendMessageKey
    else Unknown
  }

  /** Where a message field comes from: a property of the message (`'msg'`) or a fixed value. */
  datatype Source = FromMessage(key: string) | Fixed(value: JsValue)

  datatype Config = Config(
    triggerConditions: seq<Condition>,
    triggerLogic: Logic,
    additionalConditions: seq<AdditionalCondition>,
    additionalLogic: Logic,
    additionalFrequency: string,
    timerResetEveryTrigger: bool,
    cancelTimerWhenDisarmed: bool,
    timer: TimerSetting,
    afterTrigger: AfterTrigger,
    armDisarm: string,
    topic: Source,
    payload: Source,
    topicEnd: Source,
    payloadEnd: Source,
    triggerState: string,
    armedItem: string,
    inputArmDisarm: bool,
    storeState: bool)

  // ---------------------------------------------------------------------------
  // Events, messages and the node's context
  // ---------------------------------------------------------------------------

  /** An item event as the controller emits it: `{ item, type, state, payload }`. */
  datatype ItemEvent = ItemEvent(item: JsValue, eventType: JsValue, state: JsValue, payload: JsValue)

  /** The properties of a message that `armTrigger` destructures. */
  datatype ArmInput = ArmInput(state: JsValue, payload: JsValue)

  /** `{ state, timestamp, ...message }`, the record kept as `lastTrigger`. */
  datatype TriggerInfo = TriggerInfo(state: JsValue, timestamp: JsValue, item: JsValue, eventType: JsValue)

  /** `{ topic, payload, trigger }`; a None trigger is `undefined`. */
  datatype Msg = Msg(topic: JsValue, payload: JsValue, trigger: Option<TriggerInfo>)

  /** The two callbacks the node ever schedules. */
  datatype Callback = SendEnd | TimerFunction

  /** `node.timerObject`: a pending timeout with its delay. */
  datatype Timer = Timer(delay: int, callback: Callback)

  datatype NodeState = NodeState(
    armed: Option<bool>,
    triggered: bool,
    lastTrigger: Option<TriggerInfo>,
    itemState: JsValue,
    storedState: JsValue,
    timer: Option<Timer>,
    immediates: seq<Callback>,
    sent: seq<Msg>,
    statuses: seq<StatusDescriptor>)

  /** The context right after construction: only `triggered` is set (to false). */
  const Initial: NodeState :=
    NodeState(None, false, None, Undefined, Undefined, None, [], [], [])

  /** `node.get('armed')` is truthy. */
  predicate IsArmed(s: NodeState) {
    s.armed == Some(true)
  }

  // ---------------------------------------------------------------------------
  // Arming
  // ---------------------------------------------------------------------------

  /** The values that disarm: `['OFF', 'CLOSED', '0', 'NULL', 'UNDEF', false]`. */
  const DisarmValues: seq<JsValue> :=
    [Str("OFF"), Str("CLOSED"), Str("0"), Str("NULL"), Str("UNDEF"), Bool(false)]

  /** `payload: { state: payloadState } = {}`: the default applies to undefined,
      null cannot be destructured. */
  function PayloadState(payload: JsValue): Result<JsValue, JsError> {
    if payload == Undefined then Ok(Undefined) else Prop(payload, "state")
  }

  /** `state || payload || payloadState || false`. */
  function ArmValue(input: ArmInput): Result<JsValue, JsError> {
    match PayloadState(input.payload)
    case Err(e) => Err(e)
    case Ok(payloadState) =>
      Ok(if Truthy(input.state) then input.state
         else if Truthy(input.payload) then input.payload
         else if Truthy(payloadState) then payloadState
         else Bool(false))
  }

  /** The armed value `armTrigger` computes from a message. */
  function ArmedFor(input: ArmInput): Result<bool, JsError> {
    match ArmValue(input)
    case Err(e) => Err(e)
    case Ok(v) => Ok(v !in DisarmValues)
  }

  function ArmStatus(armed: bool): StatusDescriptor {
    if armed then Status("blue", "ring", Str("armed")) else Status("grey", "ring", Str("disarmed"))
  }

  /** The part of `armTrigger` after the armed value is known. */
  function ArmWith(cfg: Config, s: NodeState, armed: bool): NodeState {
    if s.armed == Some(armed) then s
    else
      var reset := if armed then s
                   else s.(triggered := false, lastTrigger := None,
                           timer := if cfg.cancelTimerWhenDisarmed then None else s.timer);
      reset.(armed := Some(armed), statuses := reset.statuses + [ArmStatus(armed)])
  }

  /** `node.armTrigger(message)`; it throws before changing anything when the payload is null. */
  function ArmStep(cfg: Config, s: NodeState, input: ArmInput): Result<NodeState, JsError> {
    match ArmedFor(input)
    case Err(e) => Err(e)
    case Ok(armed) => Ok(ArmWith(cfg, s, armed))
  }

  // ---------------------------------------------------------------------------
  // Conditions and delay
  // ---------------------------------------------------------------------------

  /** `triggerConditionsPassed(state)`: `every` or `some` over the trigger conditions. */
  predicate TriggerConditionsPassed(cfg: Config, state: JsValue) {
    var cs := cfg.triggerConditions;
    match cfg.triggerLogic
    case And => forall i :: 0 <= i < |cs| ==> Compare(cs[i].comparator, state, cs[i].value)
    case Or => exists i :: 0 <= i < |cs| && Compare(cs[i].comparator, state, cs[i].value)
  }

  predicate AdditionalHolds(c: AdditionalCondition) {
    Compare(c.comparator, c.variableValue, c.value)
  }

  /** `additionalConditionsPassed()`, given the stored `triggered` flag. */
  predicate AdditionalConditionsPassed(cfg: Config, triggered: bool) {
    var cs := cfg.additionalConditions;
    if |cs| == 0 then true
    else if cfg.additionalFrequency == "once" && triggered then true
    else match cfg.additionalLogic
      case And => forall i :: 0 <= i < |cs| ==> AdditionalHolds(cs[i])
      case Or => exists i :: 0 <= i < |cs| && AdditionalHolds(cs[i])
  }

  /** `getTimerValue()` in milliseconds. */
  function TimerValue(cfg: Config): int {
    match cfg.timer
    case Advanced(v) => v
    case Basic(t, units) =>
      if units == "milliseconds" then t
      else if units == "minutes" then t * (60 * 1000)
      else if units == "hours" then t * (60 * 60 * 1000)
      else t * 1000
  }

  // ---------------------------------------------------------------------------
  // Messages and timers
  // ---------------------------------------------------------------------------

  /** A property of the item event, the message `getTopic`/`getPayload` read for the start message. */
  function EventField(ev: ItemEvent, key: string): JsValue {
    if key == "item" then ev.item
    else if key == "type" then ev.eventType
    else if key == "state" then ev.state
    else if key == "payload" then ev.payload
    else Undefined
  }

  function Resolve(src: Source, ev: Option<ItemEvent>): JsValue {
    match src
    case Fixed(v) => v
    case FromMessage(key) => if ev.Some? then EventField(ev.value, key) else Undefined
  }

  function TriggerOf(ev: ItemEvent, now: JsValue): TriggerInfo {
    TriggerInfo(ev.state, now, ev.item, ev.eventType)
  }

  function StartMessage(cfg: Config, ev: ItemEvent, now: JsValue): Msg {
    Msg(Resolve(cfg.topic, Some(ev)), Resolve(cfg.payload, Some(ev)), Some(TriggerOf(ev, now)))
  }

  /** The end message reads `lastTrigger` when it is sent; its topic and payload
      are resolved against the empty message `{}`. */
  function EndMessage(cfg: Config, s: NodeState): Msg {
    Msg(Resolve(cfg.topicEnd, None), Resolve(cfg.payloadEnd, None), s.lastTrigger)
  }

  /** `node.startTimer(cb, timeout)`: a positive timeout replaces the pending
      timer, any other queues the callback with `setImmediate`. */
  function StartTimerStep(s: NodeState, cb: Callback, timeout: int): NodeState {
    if timeout > 0 then s.(timer := Some(Timer(timeout, cb)))
    else s.(immediates := s.immediates + [cb])
  }

  /** `afterTriggerAction.sendMessage()`. */
  function SendMessageStep(cfg: Config, s: NodeState): NodeState {
    s.(sent := s.sent + [EndMessage(cfg, s)])
  }

  /** `afterTriggerAction.finally()`. */
  function FinallyStep(cfg: Config, s: NodeState): NodeState {
    var s1 := if cfg.armDisarm != "do_not_change" then ArmWith(cfg, s, cfg.armDisarm == "arm") else s;
    var s2 := s1.(triggered := false);
    s2.(statuses := s2.statuses + [ArmStatus(IsArmed(s2))])
  }

  /** The body of `timerFunction`, run when the timer expires. */
  function TimerFunctionStep(cfg: Config, s: NodeState): NodeState {
    var s1 := s.(timer := None);
    if s1.triggered && IsArmed(s1) && cfg.timerResetEveryTrigger then
      StartTimerStep(s1, TimerFunction, TimerValue(cfg))
    else
      FinallyStep(cfg, SendMessageStep(cfg, s1))
  }

  function RunCallback(cfg: Config, s: NodeState, cb: Callback): NodeState {
    match cb
    case SendEnd => SendMessageStep(cfg, s)
    case TimerFunction => TimerFunctionStep(cfg, s)
  }

  /** The pending timeout expires; nothing happens when none is pending. */
  function FireTimerStep(cfg: Config, s: NodeState): NodeState {
    match s.timer
    case None => s
    case Some(t) => RunCallback(cfg, s, t.callback)
  }

  /** The oldest `setImmediate` callback runs; nothing happens when none is queued. */
  function RunImmediateStep(cfg: Config, s: NodeState): NodeState {
    if s.immediates == [] then s
    else RunCallback(cfg, s.(immediates := s.immediates[1..]), s.immediates[0])
  }

  // ---------------------------------------------------------------------------
  // onEvent
  // ---------------------------------------------------------------------------

  /** `hasTriggered`: the trigger conditions and then the additional conditions pass. */
  predicate HasTriggered(cfg: Config, s: NodeState, ev: ItemEvent) {
    TriggerConditionsPassed(cfg, ev.state) && AdditionalConditionsPassed(cfg, s.triggered)
  }

  /** The start message goes out: conditions pass, no timer is pending, and the
      node was not triggered before (a rising edge). */
  predicate Fires(cfg: Config, s: NodeState, ev: ItemEvent) {
    HasTriggered(cfg, s, ev) && s.timer.None? && !s.triggered
  }

  /** `triggerAction()`. */
  function TriggerActionStep(cfg: Config, s: NodeState, ev: ItemEvent, now: JsValue): NodeState {
    var has := HasTriggered(cfg, s, ev);
    var s1 := if Fires(cfg, s, ev)
              then s.(sent := s.sent + [StartMessage(cfg, ev, now)], lastTrigger := Some(TriggerOf(ev, now)))
              else s;
    var s2 := s1.(triggered := has);
    if has then s2.(statuses := s2.statuses + [Status("blue", "dot", Str("triggered"))]) else s2
  }

  /** `afterTriggerAction[config.afterTrigger]()`, given the `triggered` flag
      before the event and `hasTriggered`; Err (with the state reached) when the
      key names no action and the call throws. */
  function AfterTriggerStep(cfg: Config, s: NodeState, initial: bool, has: bool): Result<NodeState, NodeState> {
    match cfg.afterTrigger
    case Nothing => Ok(if has then FinallyStep(cfg, s) else s)
    case FinallyKey => Ok(FinallyStep(cfg, s))
    case SendMessageKey => Ok(SendMessageStep(cfg, s))
    case TimerPolicy =>
      Ok(if has && (s.timer.None? || cfg.timerResetEveryTrigger) then StartTimerStep(s, TimerFunction, TimerValue(cfg)) else s)
    case Untrigger => Ok(if initial && !has then FinallyStep(cfg, SendMessageStep(cfg, s)) else s)
    case NoDelay => Ok(if has then FinallyStep(cfg, StartTimerStep(s, SendEnd, 0)) else s)
    case Unknown => Err(s)
  }

  /** `node.setState(state)`. */
  function SetStateStep(cfg: Config, s: NodeState, state: JsValue): NodeState {
    s.(itemState := state, storedState := if cfg.storeState then state else s.storedState)
  }

  /** What a handler leaves behind: the state and whether it threw. */
  datatype Outcome = Outcome(state: NodeState, threw: bool)

  /** `node.onEvent(event)` with the clock reading `now`. */
  function OnEventStep(cfg: Config, s: NodeState, ev: ItemEvent, now: JsValue): Outcome {
    if IsArmed(s) then
      var s1 := TriggerActionStep(cfg, s, ev, now);
      match AfterTriggerStep(cfg, s1, s.triggered, HasTriggered(cfg, s, ev))
      case Ok(s2) => Outcome(SetStateStep(cfg, s2, ev.state), false)
      case Err(s2) => Outcome(s2, true)
    else
      Outcome(SetStateStep(cfg, s, ev.state), false)
  }

  // ---------------------------------------------------------------------------
  // Controller events, input and close
  // ---------------------------------------------------------------------------

  /** The text of the TypeError raised when the fetched item cannot be destructured. */
  const DestructureErrorText: JsValue := Str("Cannot destructure property 'state'")

  function ErrorStatus(s: NodeState, message: JsValue): NodeState {
    match NodeStatus(NODE_STATE, NODE_ERROR, message)
    case Ok(d) => s.(statuses := s.statuses + [d])
    case Err(_) => s
  }

  /** `node.onControllerEvent(event)`. On CONNECTED with an arm item (a
      non-empty `armedItem`), `fetched` is how `controller.getItem` settled: the
      item, or the rejection's message. */
  function ControllerEventStep(cfg: Config, s: NodeState, event: int, fetched: Result<JsValue, JsValue>): NodeState {
    if event != CONNECTED then s
    else if cfg.armedItem != "" then
      match fetched
      case Err(message) => ErrorStatus(s, message)
      case Ok(item) =>
        match Prop(item, "state")
        case Err(_) => ErrorStatus(s, DestructureErrorText)
        case Ok(state) =>
          match ArmStep(cfg, s, ArmInput(state, Undefined))
          case Ok(s1) => s1
          case Err(_) => s
    else
      ArmWith(cfg, s, cfg.triggerState == "armed")
  }

  /** `node.onControllerEvent(event)` as written. The controller defines no
      `getItem`, so on CONNECTED with an arm item the call throws a TypeError
      before any request: neither `then` nor `catch` runs and the node keeps
      its state. The other cases do not call it. */
  function ControllerEventStepAsWritten(cfg: Config, s: NodeState, event: int): Outcome {
    if event == CONNECTED && cfg.armedItem != "" then Outcome(s, true)
    else if event != CONNECTED then Outcome(s, false)
    else Outcome(ArmWith(cfg, s, cfg.triggerState == "armed"), false)
  }

  /** An input message arms or disarms, when input is enabled. */
  function InputStep(cfg: Config, s: NodeState, input: ArmInput): Result<NodeState, JsError> {
    if cfg.inputArmDisarm then ArmStep(cfg, s, input) else Ok(s)
  }

  /** The `close` handler removes the pending timer. */
  function CloseStep(s: NodeState): NodeState {
    s.(timer := None)
  }

  // ---------------------------------------------------------------------------
  // The node
  // ---------------------------------------------------------------------------

  class TriggerNode {
    const cfg: Config
    var armed: Option<bool>
    var triggered: bool
    var lastTrigger: Option<TriggerInfo>
    var itemState: JsValue
    var storedState: JsValue
    var timerObject: Option<Timer>
    var immediates: seq<Callback>
    var sent: seq<Msg>
    var statuses: seq<StatusDescriptor>

    function Snapshot(): NodeState
      reads this
    {
      NodeState(armed, triggered, lastTrigger, itemState, storedState, timerObject, immediates, sent, statuses)
    }

    constructor (config: Config)
      ensures cfg == config && Snapshot() == Initial
    {
      cfg := config;
      armed, triggered, lastTrigger := None, false, None;
      itemState, storedState := Undefined, Undefined;
      timerObject, immediates := None, [];
      sent, statuses := [], [];
    }

    method RemoveTimer()
      modifies this
      ensures Snapshot() == old(Snapshot()).(timer := None)
    {
      timerObject := None;
    }

    method StartTimer(cb: Callback, timeout: int)
      modifies this
      ensures Snapshot() == StartTimerStep(old(Snapshot()), cb, timeout)
    {
      if timeout > 0 {
        RemoveTimer();
        timerObject := Some(Timer(timeout, cb));
      } else {
        immediates := immediates + [cb];
      }
    }

    /** Everything of `armTrigger` after the armed value is computed. */
    method ApplyArm(newArmed: bool)
      modifies this
      ensures Snapshot() == ArmWith(cfg, old(Snapshot()), newArmed)
    {
      if armed == Some(newArmed) {
        return;
      }
      if !newArmed {
        triggered := false;
        lastTrigger := None;
        if cfg.cancelTimerWhenDisarmed {
          RemoveTimer();
        }
      }
      armed := Some(newArmed);
      statuses := statuses + [ArmStatus(newArmed)];
    }

    method ArmTrigger(input: ArmInput) returns (threw: bool)
      modifies this
      ensures threw <==> ArmStep(cfg, old(Snapshot()), input).Err?
      ensures !threw ==> Snapshot() == ArmStep(cfg, old(Snapshot()), input).value
      ensures threw ==> Snapshot() == old(Snapshot())
    {
      var v := ArmedFor(input);
      if v.Err? {
        return true;
      }
      ApplyArm(v.value);
      return false;
    }

    method SendMessage()
      modifies this
      ensures Snapshot() == SendMessageStep(cfg, old(Snapshot()))
    {
      sent := sent + [Msg(Resolve(cfg.topicEnd, None), Resolve(cfg.payloadEnd, None), lastTrigger)];
    }

    method Finally()
      modifies this
      ensures Snapshot() == FinallyStep(cfg, old(Snapshot()))
    {
      if cfg.armDisarm != "do_not_change" {
        ApplyArm(cfg.armDisarm == "arm");
      }
      triggered := false;
      statuses := statuses + [ArmStatus(armed == Some(true))];
    }

    method TimerFunction()
      modifies this
      ensures Snapshot() == TimerFunctionStep(cfg, old(Snapshot()))
    {
      RemoveTimer();
      if triggered && armed == Some(true) && cfg.timerResetEveryTrigger {
        StartTimer(Callback.TimerFunction, TimerValue(cfg));
      } else {
        SendMessage();
        Finally();
      }
    }

    method Run(cb: Callback)
      modifies this
      ensures Snapshot() == RunCallback(cfg, old(Snapshot()), cb)
    {
      match cb
      case SendEnd => SendMessage();
      case TimerFunction => TimerFunction();
    }

    /** The environment lets the pending timeout expire. */
    method FireTimer()
      modifies this
      ensures Snapshot() == FireTimerStep(cfg, old(Snapshot()))
    {
      if timerObject.Some? {
        Run(timerObject.value.callback);
      }
    }

    /** The environment runs the oldest `setImmediate` callback. */
    method RunImmediate()
      modifies this
      ensures Snapshot() == RunImmediateStep(cfg, old(Snapshot()))
    {
      if immediates != [] {
        var cb := immediates[0];
        immediates := immediates[1..];
        Run(cb);
      }
    }

    method SetState(state: JsValue)
      modifies this
      ensures Snapshot() == SetStateStep(cfg, old(Snapshot()), state)
    {
      itemState := state;
      if cfg.storeState {
        storedState := state;
      }
    }

    /** `triggerAction()`; answers `hasTriggered`. */
    method TriggerAction(ev: ItemEvent, now: JsValue) returns (hasTriggered: bool)
      modifies this
      ensures hasTriggered == HasTriggered(cfg, old(Snapshot()), ev)
      ensures Snapshot() == TriggerActionStep(cfg, old(Snapshot()), ev, now)
    {
      var triggerInitialState := triggered;
      hasTriggered := TriggerConditionsPassed(cfg, ev.state) && AdditionalConditionsPassed(cfg, triggered);
      if hasTriggered && timerObject.None? && hasTriggered != triggerInitialState {
        sent := sent + [StartMessage(cfg, ev, now)];
        lastTrigger := Some(TriggerOf(ev, now));
      }
      triggered := hasTriggered;
      if hasTriggered {
        statuses := statuses + [Status("blue", "dot", Str("triggered"))];
      }
    }

    /** `afterTriggerAction[config.afterTrigger]()`; answers whether it threw. */
    method AfterTrigger(triggerInitialState: bool, hasTriggered: bool) returns (threw: bool)
      modifies this
      ensures threw <==> AfterTriggerStep(cfg, old(Snapshot()), triggerInitialState, hasTriggered).Err?
      ensures !threw ==> Snapshot() == AfterTriggerStep(cfg, old(Snapshot()), triggerInitialState, hasTriggered).value
      ensures threw ==> Snapshot() == old(Snapshot())
    {
      threw := false;
      match cfg.afterTrigger {
        case Nothing =>
          if hasTriggered { Finally(); }
        case FinallyKey =>
          Finally();
        case SendMessageKey =>
          SendMessage();
        case TimerPolicy =>
          if hasTriggered && (timerObject.None? || cfg.timerResetEveryTrigger) {
            StartTimer(Callback.TimerFunction, TimerValue(cfg));
          }
        case Untrigger =>
          if triggerInitialState && !hasTriggered {
            SendMessage();
            Finally();
          }
        case NoDelay =>
          if hasTriggered {
            StartTimer(SendEnd, 0);
            Finally();
          }
        case Unknown =>
          threw := true;
      }
    }

    method OnEvent(ev: ItemEvent, now: JsValue) returns (threw: bool)
      modifies this
      ensures Outcome(Snapshot(), threw) == OnEventStep(cfg, old(Snapshot()), ev, now)
    {
      var triggerInitialState := triggered;
      if armed == Some(true) {
        var hasTriggered := TriggerAction(ev, now);
        threw := AfterTrigger(triggerInitialState, hasTriggered);
        if threw {
          return;
        }
      }
      SetState(ev.state);
      threw := false;
    }

    method OnControllerEvent(event: int, fetched: Result<JsValue, JsValue>)
      modifies this
      ensures Snapshot() == ControllerEventStep(cfg, old(Snapshot()), event, fetched)
    {
      if event != CONNECTED {
        return;
      }
      if cfg.armedItem != "" {
        match fetched {
          case Err(message) =>
            var d := NodeStatus(NODE_STATE, NODE_ERROR, message);
            if d.Ok? { statuses := statuses + [d.value]; }
          case Ok(item) =>
            var state := Prop(item, "state");
            if state.Err? {
              var d := NodeStatus(NODE_STATE, NODE_ERROR, DestructureErrorText);
              if d.Ok? { statuses := statuses + [d.value]; }
            } else {
              var threw := ArmTrigger(ArmInput(state.value, Undefined));
            }
        }
      } else {
        var threw := ArmTrigger(ArmInput(Bool(cfg.triggerState == "armed"), Undefined));
      }
    }

    method OnInput(input: ArmInput) returns (threw: bool)
      modifies this
      ensures threw <==> InputStep(cfg, old(Snapshot()), input).Err?
      ensures !threw ==> Snapshot() == InputStep(cfg, old(Snapshot()), input).value
      ensures threw ==> Snapshot() == old(Snapshot())
    {
      threw := false;
      if cfg.inputArmDisarm {
        threw := ArmTrigger(input);
      }
    }

    method Close()
      modifies this
      ensures Snapshot() == CloseStep(old(Snapshot()))
    {
      RemoveTimer();
    }
  }
}
