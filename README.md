# openHAB v2 nodes for Node-RED, modelled in Dafny

This project models the decision logic of the Node-RED nodes that connect a flow to an openHAB 2 home-automation hub, and proves properties of that model.

It covers:
- the **trigger** node's arm/disarm and trigger state machine, with its four after-trigger policies and its timer;
- the six **comparators** the trigger conditions use;
- the **controller** node, which holds the event-stream client, classifies its errors, schedules a reconnection and turns stream frames into per-item events;
- the **status** descriptor mapping the nodes share;
- the **legacy** single-file implementation: URL builder, command requests, frame dispatch, the in node's deduplication, the out node's input rule, the item-list cache and the status filter;
- the **get** node: item sanitisation, recursive group-member flattening and the result object keyed by name;
- the editor helpers: text truncation, the in-place sort by one property, and the item type/tag filter.

Layout, one module per program part:

| file | module | models |
|---|---|---|
| wrappers.dfy | Wrappers | `Option` and `Result` |
| jsvalues.dfy | JsValues | JavaScript values and the built-ins the code uses (`trim`, `toUpperCase`, `lastIndexOf`, `substring`, loose `==`, `String(x)`, `Number(s)`) |
| operators.dfy | Operators | the comparator table |
| utility.dfy | Utility | `updateNodeStatus` of the shared utility module |
| trigger.dfy, trigger_properties.dfy | Trigger, TriggerProperties | the trigger node |
| controller.dfy, controller_properties.dfy | Controller, ControllerProperties | the controller node |
| legacy.dfy, legacy_properties.dfy | Legacy, LegacyProperties | the legacy single-file implementation |
| getnode.dfy, get_properties.dfy | Get, GetProperties | the get node |
| editor_utilities.dfy | EditorUtilities | the editor helpers |

Stateful nodes follow one pattern:
- Each is a `class` whose fields are the node's context variables.
- Its state is read through `Snapshot()`.
- Each handler is a `method` whose `ensures` ties the new snapshot to a pure step function of the old one.
- The properties are lemmas about the step functions. These include invariants preserved over any sequence of events.

Emitted events, sent messages and status updates are appended to output logs in the state. Hub responses are parameters of the handlers. A JavaScript exception is an `Err` result, or a `threw` flag on a method.

## Model

| member | source | states |
|---|---|---|
| Operators.Lookup | public/js/node-red-openhab-v2-operators.js:36-45 | the table has exactly the keys eq, neq, lt, lte, gt, gte, each naming its own comparator |
| Operators.UnknownKeyIsFalse | nodes/openhab-v2-trigger.js:86-93 | a comparator key outside the table compares false for every pair of operands |
| Operators.NeqIsNotEq | public/js/node-red-openhab-v2-operators.js:38-39 | `eq` is strict equality of the two values, and `neq` is exactly its negation |
| Operators.GtIsFlippedLt | public/js/node-red-openhab-v2-operators.js:40-43 | `gt(a,b)` equals `lt(b,a)` and `gte(a,b)` equals `lte(b,a)` for all operands |
| Operators.NumberOrdering | public/js/node-red-openhab-v2-operators.js:40-43 | for numbers, `lte` is `lt` or `eq`, `gte` is `gt` or `eq`, and `lt` is integer `<` |
| Operators.StringOrdering | public/js/node-red-openhab-v2-operators.js:38-43 | for two strings, `lte` is `lt` or `eq` and `gte` is `gt` or `eq` |
| Operators.StringLtIsStrictOrder | public/js/node-red-openhab-v2-operators.js:40 | `lt` on strings is irreflexive and transitive |
| Operators.UndefinedNeverOrders | public/js/node-red-openhab-v2-operators.js:40-43 | an undefined left operand (NaN) makes all four orderings false |
| Operators.DigitStringAgainstNumber | public/js/node-red-openhab-v2-operators.js:38-42 | a digit string against a number orders by the string's numeric value, and `eq` is false because the types differ |
| Operators.NumericStringGt | public/js/node-red-openhab-v2-operators.js:42 | a numeric string is greater than a number iff its converted value is greater |
| Operators.NumericStringLt | public/js/node-red-openhab-v2-operators.js:40 | a numeric string is less than a number iff its converted value is less |
| Operators.LessThanAsymmetric | public/js/node-red-openhab-v2-operators.js:40-43 | for any two operands, whenever `a < b` holds, `b < a` is false rather than undefined, so `lt(a,b)` implies `lte(a,b)` and excludes `lt(b,a)` and `gte(a,b)`; this holds for strings, numbers and objects alike |
| Operators.LessThan | public/js/node-red-openhab-v2-operators.js:40-43 | the abstract relational comparison: two strings lexicographically, anything else by numeric conversion, undefined on NaN; its laws are `StringOrdering`, `NumericStringLt`, `UndefinedNeverOrders` and `LessThanAsymmetric` |
| Operators.Apply | public/js/node-red-openhab-v2-operators.js:38-43 | the six comparator methods; `NeqIsNotEq`, `GtIsFlippedLt` and `NumberOrdering` relate them |
| Operators.Compare | nodes/openhab-v2-trigger.js:86-93 | a condition's `compare`: the table's method for a known key and false otherwise, as `UnknownKeyIsFalse` states |
| Utility.NodeStatus | nodes/includes/utility.js:38-80 | fails exactly in the two default branches when no text is given; otherwise it yields a status carrying the supplied text, and any other domain clears the status |
| Utility.EventSourceLooks | nodes/includes/utility.js:42-59 | CONNECTED is a green dot, CONNECTING a green ring, DISCONNECTED a grey dot and ERROR a red dot |
| Utility.EventSourceDefaultTexts | nodes/includes/utility.js:44-59 | without text the four connection states show 'connected', 'connecting', 'disconnected' and 'error' |
| Utility.EmptyTextReplacesDefault | nodes/includes/utility.js:45-72 | an empty-string text is shown as given in every branch of both domains |
| Utility.NodeStateLooks | nodes/includes/utility.js:65-74 | the node ERROR state is a red dot with 'error' by default; any other node state is a grey dot with the given text |
| Trigger.TriggerNode.constructor | nodes/openhab-v2-trigger.js:60-130 | a new node keeps its configuration; it is not triggered, its armed value is unset, and it has no last trigger and no timer |
| Trigger.TriggerNode.RemoveTimer | nodes/openhab-v2-trigger.js:240-243 | clears the pending timer and nothing else |
| Trigger.TriggerNode.StartTimer | nodes/openhab-v2-trigger.js:230-238 | a positive timeout replaces the one pending timer; otherwise the callback is queued as an immediate |
| Trigger.TriggerNode.ApplyArm | nodes/openhab-v2-trigger.js:207-227 | applies a computed armed value as the step function states |
| Trigger.TriggerNode.ArmTrigger | nodes/openhab-v2-trigger.js:205-228 | throws exactly when the step throws, leaving the state unchanged; otherwise the state of the arm step |
| Trigger.TriggerNode.SendMessage | nodes/openhab-v2-trigger.js:326-335 | appends the end message carrying the last trigger |
| Trigger.TriggerNode.Finally | nodes/openhab-v2-trigger.js:315-325 | the state of the `finally` action |
| Trigger.TriggerNode.TimerFunction | nodes/openhab-v2-trigger.js:343-355 | the state after the timer callback runs |
| Trigger.TriggerNode.Run | nodes/openhab-v2-trigger.js:343-375 | runs one queued callback as the step function states |
| Trigger.TriggerNode.FireTimer | nodes/openhab-v2-trigger.js:230-355 | expiry of the pending timer runs its callback |
| Trigger.TriggerNode.RunImmediate | nodes/openhab-v2-trigger.js:236-375 | runs the oldest queued immediate callback |
| Trigger.TriggerNode.SetState | nodes/openhab-v2-trigger.js:76-83 | stores the item state, and the configured variable when `storeState` is set |
| Trigger.TriggerNode.TriggerAction | nodes/openhab-v2-trigger.js:287-312 | returns whether the conditions passed, with the state of the trigger action |
| Trigger.TriggerNode.AfterTrigger | nodes/openhab-v2-trigger.js:314-387 | dispatches on the configured policy; an unknown policy throws |
| Trigger.TriggerNode.OnEvent | nodes/openhab-v2-trigger.js:280-391 | the outcome of one item event, as the event step states |
| Trigger.TriggerNode.OnControllerEvent | nodes/openhab-v2-trigger.js:249-278 | the state after a controller event, with the arm item's fetch result as a parameter |
| Trigger.TriggerNode.OnInput | nodes/openhab-v2-trigger.js:394-397 | input only arms or disarms, when enabled |
| Trigger.TriggerNode.Close | nodes/openhab-v2-trigger.js:424-447 | closing removes the pending timer |
| Trigger.ArmValue | nodes/openhab-v2-trigger.js:205-206 | the first truthy of state, payload and the payload's own state, else false; a null payload throws; `ArmedValues` and `ArmThrowsOnlyOnNullPayload` state it |
| Trigger.ArmWith | nodes/openhab-v2-trigger.js:207-227 | keeps the state when the armed flag is unchanged; a disarm resets `triggered` and `lastTrigger` and may cancel the timer; `ArmToSameIsNoop`, `DisarmResets` and `ArmKeepsTriggerState` state it |
| Trigger.TriggerConditionsPassed | nodes/openhab-v2-trigger.js:170-182 | `every` (AND) or `some` (OR) of the comparators over the event state; `EmptyTriggerConditions` states the empty cases |
| Trigger.AdditionalConditionsPassed | nodes/openhab-v2-trigger.js:184-203 | true without conditions or, in `once` mode, once triggered; otherwise `every` or `some` of the additional comparators; `NoAdditionalConditions` and `OnceChecksOnlyTheEdge` state it |
| Trigger.TimerValue | nodes/openhab-v2-trigger.js:108-127 | the delay in milliseconds; `TimerUnits` states its value for every unit |
| Trigger.AfterTriggerOf | nodes/openhab-v2-trigger.js:387 | the key of `afterTriggerAction` a configured name selects, `Unknown` for any other name |
| Trigger.TriggerActionStep | nodes/openhab-v2-trigger.js:287-312 | sends the start message on a rising edge with no timer pending and records `triggered`; `StartMessageOnRisingEdge` and `StartMessageContents` state it |
| Trigger.AfterTriggerStep | nodes/openhab-v2-trigger.js:314-387 | the six after-trigger actions and the throw of an unknown key; the policy lemmas such as `TimerPolicyStartsDelay` and `UnknownPolicyThrows` state them |
| Trigger.OnEventStep | nodes/openhab-v2-trigger.js:280-391 | while armed the trigger action then the after-trigger action, then `setState`; disarmed only `setState`; `DisarmedRecordsOnly` and `OnEventInv` state it |
| Trigger.FireTimerStep | nodes/openhab-v2-trigger.js:230-238 | the pending timeout runs its callback; `TimerExpiry` states its effect |
| TriggerProperties.ArmThrowsOnlyOnNullPayload | nodes/openhab-v2-trigger.js:205-206 | destructuring `payload.state` throws exactly when the payload is null |
| TriggerProperties.PayloadStateNeverDecides | nodes/openhab-v2-trigger.js:205-206 | the tested value is the first truthy of state and payload, else false; `payload.state` can never be chosen, because a truthy payload comes first |
| TriggerProperties.ArmedValues | nodes/openhab-v2-trigger.js:206 | a value in the disarm list disarms; any other truthy value arms; any falsy value disarms |
| TriggerProperties.ArmedExamples | nodes/openhab-v2-trigger.js:206 | 'ON', 'OPEN' and true arm; 0 and a falsy state with payload 'CLOSED' disarm |
| TriggerProperties.ArmToSameIsNoop | nodes/openhab-v2-trigger.js:207-212 | arming to the stored value changes nothing |
| TriggerProperties.DisarmResets | nodes/openhab-v2-trigger.js:214-227 | a disarm clears triggered and the last trigger, removes the timer only with `cancelTimerWhenDisarmed`, and shows 'disarmed'; sent messages stay as they were |
| TriggerProperties.ArmKeepsTriggerState | nodes/openhab-v2-trigger.js:214-227 | arming keeps triggered, the last trigger and the timer, and shows 'armed' |
| TriggerProperties.DisarmedRecordsOnly | nodes/openhab-v2-trigger.js:286-390 | an event while not armed only records the item state, plus the stored variable with `storeState` |
| TriggerProperties.StartMessageOnRisingEdge | nodes/openhab-v2-trigger.js:289-308 | the start message is sent and the last trigger set exactly on a rising edge with no timer pending; afterwards triggered equals the condition result |
| TriggerProperties.NoStartWhileTriggeredOrTiming | nodes/openhab-v2-trigger.js:292 | no start message while already triggered or while a timer is pending |
| TriggerProperties.StartMessageContents | nodes/openhab-v2-trigger.js:293-297 | the message's trigger holds state, timestamp, item and type; `msg`-typed topic and payload read the event's fields |
| TriggerProperties.OnceChecksOnlyTheEdge | nodes/openhab-v2-trigger.js:189 | with frequency 'once' and already triggered, the additional conditions pass |
| TriggerProperties.NoAdditionalConditions | nodes/openhab-v2-trigger.js:184-203 | with no additional conditions, the event triggers iff the trigger conditions pass |
| TriggerProperties.EmptyTriggerConditions | nodes/openhab-v2-trigger.js:96-97 | an empty trigger condition list passes under AND (`every`) and fails under OR (`some`) |
| TriggerProperties.FinallyKeepsArm | nodes/openhab-v2-trigger.js:315-325 | with 'do_not_change', `finally` keeps armed, clears triggered and shows the arm status |
| TriggerProperties.FinallyDisarms | nodes/openhab-v2-trigger.js:316-321 | with 'disarm', `finally` leaves the node disarmed, untriggered and with no last trigger |
| TriggerProperties.NothingPolicyNeverStaysTriggered | nodes/openhab-v2-trigger.js:336-341 | under 'nothing', for every arm setting, the node never stays triggered, starts no timer and sends at most the start message; with 'do_not_change' or 'arm' it stays armed |
| TriggerProperties.UntriggerSendsEndOnFallingEdge | nodes/openhab-v2-trigger.js:364-371 | under 'untrigger', for every arm setting, a falling edge sends exactly the end message and resets triggered |
| TriggerProperties.UntriggerNoEndWithoutTrigger | nodes/openhab-v2-trigger.js:364-371 | under 'untrigger' a node that was not triggered sends no end message, only the start message of a rising edge |
| TriggerProperties.UntriggerHoldsWhileTriggered | nodes/openhab-v2-trigger.js:364-371 | under 'untrigger' a repeated trigger sends nothing and stays triggered |
| TriggerProperties.TimerPolicyStartsDelay | nodes/openhab-v2-trigger.js:356-362 | under 'timer' a trigger with no pending timer, or with reset-every-trigger, starts the one timer with the configured delay |
| TriggerProperties.TimerExpiry | nodes/openhab-v2-trigger.js:343-355 | on expiry the timer restarts iff triggered, armed and reset-every-trigger hold; otherwise the end message is sent and `finally` runs |
| TriggerProperties.NoDelayDisarmDropsTrigger | nodes/openhab-v2-trigger.js:372-380 | under 'nodelay' the end message is queued and `finally` runs first, so with 'disarm' the queued message goes out with no trigger |
| TriggerProperties.UnknownPolicyThrows | nodes/openhab-v2-trigger.js:387 | an unknown policy throws after the trigger action; the item state is not stored |
| TriggerProperties.TimerUnits | nodes/openhab-v2-trigger.js:108-127 | for every configuration: the advanced value is used as given; milliseconds are kept, minutes are 60000 ms, hours 3600000 ms, and any other unit name counts seconds |
| TriggerProperties.OtherControllerEventsIgnored | nodes/openhab-v2-trigger.js:249-278 | only CONNECTED changes the node |
| TriggerProperties.ConnectAppliesTriggerState | nodes/openhab-v2-trigger.js:268-270 | without an arm item, CONNECTED arms iff the configured trigger state is 'armed' |
| TriggerProperties.ConnectUsesArmItem | nodes/openhab-v2-trigger.js:254-267 | with an arm item, a failed fetch keeps the armed value and shows the error; a fetched state is applied as the arm value |
| Trigger.ControllerEventStepAsWritten | nodes/openhab-v2-trigger.js:249-278 | as written, CONNECTED with an arm item calls the undefined `controller.getItem` and throws before any request; `ArmItemFetchThrowsAsWritten` states it |
| TriggerProperties.ArmItemFetchThrowsAsWritten | nodes/openhab-v2-trigger.js:249-278 | as written the handler throws exactly on CONNECTED with an arm item, keeping the state; otherwise it equals the intended handler for any fetch result |
| TriggerProperties.ArmItemNeverArmsOnConnectAsWritten | nodes/openhab-v2-trigger.js:253-257 | as written a node with an arm item is not armed by connecting |
| TriggerProperties.InitialInv | nodes/openhab-v2-trigger.js:130 | the initial state satisfies the invariant: triggered only while armed, and a last trigger only while armed |
| TriggerProperties.ArmWithInv | nodes/openhab-v2-trigger.js:205-228 | arming or disarming preserves the invariant |
| TriggerProperties.FinallyInv | nodes/openhab-v2-trigger.js:315-325 | `finally` preserves the invariant |
| TriggerProperties.CallbackInv | nodes/openhab-v2-trigger.js:326-380 | every timer or immediate callback preserves the invariant |
| TriggerProperties.TriggerActionInv | nodes/openhab-v2-trigger.js:287-312 | the trigger action of an armed node preserves the invariant and keeps it armed |
| TriggerProperties.AfterTriggerInv | nodes/openhab-v2-trigger.js:314-387 | every after-trigger policy preserves the invariant, also when it throws |
| TriggerProperties.OnEventInv | nodes/openhab-v2-trigger.js:280-391 | an item event preserves the invariant |
| TriggerProperties.StepInv | nodes/openhab-v2-trigger.js:249-447 | every event a node can receive preserves the invariant |
| TriggerProperties.RunInv | nodes/openhab-v2-trigger.js:249-447 | the invariant holds after any sequence of events |
| TriggerProperties.SentOnlyGrows | nodes/openhab-v2-trigger.js:301-334 | sent messages are only ever appended, over any sequence of events |
| TriggerProperties.ArmWithKeepsSent | nodes/openhab-v2-trigger.js:205-228 | arming sends nothing |
| TriggerProperties.FinallyKeepsSent | nodes/openhab-v2-trigger.js:315-325 | `finally` sends nothing |
| TriggerProperties.CallbackSentGrows | nodes/openhab-v2-trigger.js:326-380 | a callback only appends messages |
| TriggerProperties.AfterTriggerSentGrows | nodes/openhab-v2-trigger.js:314-387 | an after-trigger policy only appends messages |
| TriggerProperties.OnEventSentGrows | nodes/openhab-v2-trigger.js:280-391 | an item event only appends messages |
| TriggerProperties.StepSentGrows | nodes/openhab-v2-trigger.js:249-447 | one event only appends messages |
| Controller.BaseUrl | nodes/openhab-v2-controller.js:268 | the base URL starts with the protocol; its parts come back by `ControllerProperties.BaseUrlSplits` |
| ControllerProperties.BaseUrlSplits | nodes/openhab-v2-controller.js:268 | for a protocol and host without ':', the first ':' of the URL ends the protocol and is followed by '//', and the next ':' ends the host, so protocol, host and port are recovered |
| Controller.EventsUrl | nodes/openhab-v2-controller.js:90 | the stream URL extends the base URL |
| ControllerProperties.EventsUrlSplits | nodes/openhab-v2-controller.js:90 | the stream URL is the base URL followed by '/rest/events', so distinct base URLs give distinct stream URLs |
| Controller.AuthHeader | nodes/openhab-v2-controller.js:272-275 | a header is set iff both user name and password are non-empty; its round trip is `ControllerProperties.AuthHeaderRoundTrip` |
| ControllerProperties.AuthHeaderRoundTrip | nodes/openhab-v2-controller.js:272-275 | with a decoder inverting the encoder and a user name without ':', the header starts with 'Basic ' and decodes back to the user name and the password split at the first ':'; no header exactly when either credential is empty |
| Controller.ClassifyError | nodes/openhab-v2-controller.js:156-168 | each kind holds exactly when the if-chain reaches it: not found iff ENOTFOUND or 404; not authorized iff not that and 401 or 403; refused iff none of those and ECONNREFUSED; certificate iff none of those and CERTIFICATE; lost iff none of the three words and none of the three statuses |
| Controller.ControllerNode.constructor | nodes/openhab-v2-controller.js:262-322 | fixes the URL and the auth header, and connects once |
| Controller.ControllerNode.Connect | nodes/openhab-v2-controller.js:196-212 | the state of the connect step |
| Controller.ControllerNode.Disconnect | nodes/openhab-v2-controller.js:214-228 | the state of the disconnect step |
| Controller.ControllerNode.OnOpen | nodes/openhab-v2-controller.js:124-127 | emits CONNECTED |
| Controller.ControllerNode.OnError | nodes/openhab-v2-controller.js:149-191 | throws exactly when the step throws, leaving the state unchanged; otherwise the state of the error step |
| Controller.ControllerNode.OnMessage | nodes/openhab-v2-controller.js:129-147 | throws exactly when the step throws, leaving the state unchanged; otherwise the state of the message step |
| Controller.ControllerNode.FireRetry | nodes/openhab-v2-controller.js:180-183 | the retry timer's expiry reconnects |
| ControllerProperties.TopicItemRoundTrip | nodes/openhab-v2-controller.js:139-141 | the item is recovered from 'smarthome/items/' + item + '/' + event whenever the event part has no '/' |
| ControllerProperties.FrameEmits | nodes/openhab-v2-controller.js:141-146 | a frame emits on 'item/type' with the item, the type, `payload.value` as state and the payload unchanged |
| ControllerProperties.UnparsableFrameThrows | nodes/openhab-v2-controller.js:132-141 | when the frame does not parse, reading the topic throws |
| ControllerProperties.UnparsablePayloadGivesUndefinedState | nodes/openhab-v2-controller.js:134-143 | when only the payload fails to parse, the event is still emitted, with an undefined state |
| ControllerProperties.QueriesExclusive | nodes/openhab-v2-controller.js:99-109 | the three connection queries are mutually exclusive, and one holds for a client in a known state |
| ControllerProperties.RetryRule | nodes/openhab-v2-controller.js:156-183 | no retry iff the error is not 'not found' and is either 401/403 or a certificate error without ECONNREFUSED |
| ControllerProperties.LowerCaseMessageMatches | nodes/openhab-v2-controller.js:150-156 | matching is case-insensitive: a message containing 'enotfound' is classified not found |
| ControllerProperties.ErrorWithoutMessageKeepsClient | nodes/openhab-v2-controller.js:172-173 | an error without a message keeps client and retry timer and re-emits the client's state |
| ControllerProperties.ErrorWithMessageDropsClient | nodes/openhab-v2-controller.js:174-187 | an error with a message drops the client, schedules one 15000 ms retry iff the kind retries, and emits ERROR with the classified text |
| ControllerProperties.ErrorWithoutClientThrows | nodes/openhab-v2-controller.js:173-177 | an error while no client exists throws |
| ControllerProperties.ConnectKeepsClient | nodes/openhab-v2-controller.js:196-211 | connect keeps an existing client and always emits CONNECTING |
| ControllerProperties.DisconnectKeepsClosedClient | nodes/openhab-v2-controller.js:214-228 | disconnect closes but keeps the client, so a second disconnect emits DISCONNECTED again and a later connect reuses the closed client |
| ControllerProperties.DisconnectCancelsRetry | nodes/openhab-v2-controller.js:224-227 | after disconnect no retry is pending |
| ControllerProperties.GetItemsErrors | nodes/openhab-v2-controller.js:288-308 | an error with a string message settles to undefined with the warning '<kind> - GET Request /rest/items/', the kind being the stream's classification of the message without a status, which is never Not authorized |
| ControllerProperties.GetItemsRejects | nodes/openhab-v2-controller.js:291-295 | an error without a string message makes the returned promise reject |
| Controller.ItemsErrorKind | nodes/openhab-v2-controller.js:295-303 | the `catch` chain picks exactly the kind the stream classification gives the same message without a status, and never Not authorized |
| Controller.ItemsErrorText | nodes/openhab-v2-controller.js:296-302 | the warning is the kind's text ('Not found', 'Connection refused', 'Certificate error', 'Connection lost'), then ' - GET Request ' and the endpoint |
| Controller.GetItems | nodes/openhab-v2-controller.js:288-308 | a response body is returned as is with no warning; an error with a string message gives undefined and its warning; it rejects exactly for an error without a string message |
| Controller.ConnectStep | nodes/openhab-v2-controller.js:196-212 | creates a listening client only when there is none, and always emits CONNECTING; `ConnectKeepsClient` states it |
| Controller.DisconnectStep | nodes/openhab-v2-controller.js:214-228 | closes a present client, emitting DISCONNECTED, and cancels a retry; `DisconnectKeepsClosedClient` and `DisconnectCancelsRetry` state it |
| Controller.OnErrorStep | nodes/openhab-v2-controller.js:149-191 | the error handler; `ErrorWithoutMessageKeepsClient`, `ErrorWithMessageDropsClient` and `ErrorWithoutClientThrows` state its three outcomes |
| Controller.OnMessageStep | nodes/openhab-v2-controller.js:129-147 | appends the frame's item event, or throws without changing the state |
| Controller.ParseFrame | nodes/openhab-v2-controller.js:132-146 | the item event of a frame; `FrameEmits`, `UnparsableFrameThrows` and `UnparsablePayloadGivesUndefinedState` state it |
| Controller.TopicItem | nodes/openhab-v2-controller.js:141 | the topic between index 16 and its last '/'; `TopicItemRoundTrip` recovers any item name |
| Controller.IsConnected | nodes/openhab-v2-controller.js:99-101 | a client whose ready state is OPEN |
| Controller.IsConnecting | nodes/openhab-v2-controller.js:103-105 | a client whose ready state is CONNECTING |
| Controller.IsDisconnected | nodes/openhab-v2-controller.js:107-109 | no client, or one whose ready state is CLOSED; `QueriesExclusive` relates the three queries |
| ControllerProperties.StartInv | nodes/openhab-v2-controller.js:322 | the started controller satisfies the invariant: a retry is pending only without a client, and a client is in one of the three states |
| ControllerProperties.StepInv | nodes/openhab-v2-controller.js:124-228 | every stream event, retry or close preserves the invariant |
| ControllerProperties.RunInv | nodes/openhab-v2-controller.js:124-228 | the invariant holds after any sequence of events |
| Legacy.LegacyStatus | openhab-v2.js:105-146 | IDLE clears the status; a truthy custom message replaces the default; CURRENT_STATE shows the current state; unknown states are yellow rings with '?' |
| Legacy.FilteredStatus | openhab-v2.js:491-495 | a state in the disabled list shows nothing; any other shows the status mapping |
| Legacy.StripLeadingSlashes | openhab-v2.js:261 | the result is a suffix without a leading '/', and every removed character was a '/' |
| Legacy.StripTrailingSlashes | openhab-v2.js:262 | the result is a prefix without a trailing '/', and every removed character was a '/' |
| Legacy.SendRequest | openhab-v2.js:182-201 | ItemUpdate is a PUT and ItemCommand a POST, anything else a GET; the body is `String(payload)`; the URL starts with the item's URL |
| Legacy.SendRequestCorrected | openhab-v2.js:182-201 | as `SendRequest`, but ItemUpdate puts to the item URL + '/state' |
| Legacy.SendResponse | openhab-v2.js:201-212 | an ERROR is emitted iff the request fails or the status is outside 200..210; a bad status carries no text |
| Legacy.OnMessage | openhab-v2.js:383-406 | fails exactly when the try block fails, and emits no error state then |
| Legacy.OnMessageCorrected | openhab-v2.js:383-406 | never fails; emits what the try block emitted, followed by an ERROR state if it failed |
| Legacy.EachItemState | openhab-v2.js:329-333 | at most one emit per item, exactly one unless it fails, each an 'ItemStateEvent' |
| Legacy.ItemStatesResponse | openhab-v2.js:314-342 | a retry after 5000 ms iff the status is 503; a request error warns with its text and URL; statuses other than 200 and 503 emit ERROR |
| Legacy.OutInput | openhab-v2.js:655-666 | the command is sent iff item, topic and payload are all truthy after non-empty config values override the message's |
| Legacy.BuildUrl | openhab-v2.js:237-265 | protocol, '://', user info, host, port and path; `UrlLayout` states the layout |
| Legacy.FrameItemName | openhab-v2.js:389-390 | the topic from index 16 to the next '/'; `FrameItemNameRoundTrip` and `NoSlashGivesPrefix` state it |
| Legacy.MessageTry | openhab-v2.js:384-399 | the emits of the `try` block and whether it threw; `StateFrameDispatch` and `OtherTypesNoStateEvent` state them |
| Legacy.IsNewState | openhab-v2.js:583 | a state loosely different from the current one and from 'null'; `ProcessDeduplicates` and `NullStringIgnored` state it |
| Legacy.ProcessStateEventStep | openhab-v2.js:580-594 | a new state becomes current, is shown and sent; `ProcessActsOnNewStates` states it |
| Legacy.ItemsListStep | openhab-v2.js:277-297 | requests when forced or without a cached list and caches the response; `ItemsListCache` states it |
| Legacy.InNode.constructor | openhab-v2.js:541-567 | no current state and a CONNECTING status |
| Legacy.InNode.ProcessStateEvent | openhab-v2.js:580-594 | the state of the processing step |
| Legacy.BuildUserInfo | openhab-v2.js:244-251 | computes the user-info part by `+=` steps |
| Legacy.BuildPath | openhab-v2.js:258-265 | computes the path part by `+=` steps |
| Legacy.LegacyController.constructor | openhab-v2.js:154-162 | no cached URL and no cached item list |
| Legacy.LegacyController.GetURL | openhab-v2.js:232-269 | rebuilds the URL from the configuration on every call, since the reuse test at line 236 always holds: the cached URL is written but never read; the item list is untouched |
| Legacy.LegacyController.GetItemsList | openhab-v2.js:277-298 | the cache and request flag follow the cache step, and the callback receives the new cache |
| LegacyProperties.ConnectionStatesSuppressed | openhab-v2.js:485-560 | with the events/out list exactly states 1, 2, 3 are suppressed; with no list nothing is |
| LegacyProperties.LegacyStatusTable | openhab-v2.js:125-144 | the IDLE, NO_PAYLOAD, ERROR, WARN and CURRENT_STATE defaults |
| LegacyProperties.EmptyMessageKeepsDefault | openhab-v2.js:114 | an empty custom message is falsy, so the default text shows |
| LegacyProperties.StripLeadingOfSlashes | openhab-v2.js:261 | any run of leading slashes is removed exactly |
| LegacyProperties.StripTrailingOfSlashes | openhab-v2.js:262 | any run of trailing slashes is removed exactly |
| LegacyProperties.Slashes | openhab-v2.js:261-262 | a run of n slashes |
| LegacyProperties.PathSlashesStripped | openhab-v2.js:261-262 | slashes on both sides are stripped and the inner path is kept |
| LegacyProperties.PathPartShape | openhab-v2.js:258-265 | the path part is empty or one '/' then a path not starting or ending with '/' |
| LegacyProperties.SlashOnlyPath | openhab-v2.js:258-264 | a path of only slashes still appends a lone '/' |
| LegacyProperties.BlankUserDropsPassword | openhab-v2.js:244-251 | a blank user name drops the whole user info, password included |
| LegacyProperties.TrimPlainWord | openhab-v2.js:244-255 | trimming a word with no outer whitespace keeps it |
| LegacyProperties.PathPartOfSlashed | openhab-v2.js:258-265 | '/p/' becomes '/p' |
| LegacyProperties.UrlLayout | openhab-v2.js:237-265 | with no protocol, the URL is 'http://' + user + ':' + password + '@' + host + ':' + port + '/' + path |
| LegacyProperties.UserPartOf | openhab-v2.js:244-251 | a user name and a non-empty password give 'user:password@' |
| LegacyProperties.PortPartOf | openhab-v2.js:254-256 | a port gives ':port' |
| LegacyProperties.UpdateUrlAsWritten | openhab-v2.js:183-187 | the update URL is the item URL + 'state' with no separator |
| LegacyProperties.UpdateUrlExample | openhab-v2.js:183-187 | item 'Light' on localhost updates '…/rest/items/Lightstate' |
| LegacyProperties.CorrectedAgreesElsewhere | openhab-v2.js:185-199 | the corrected request differs only for ItemUpdate, and never in its verb |
| LegacyProperties.AcceptanceWindowEdges | openhab-v2.js:207 | 200 and 210 succeed; 199 and 211 emit ERROR |
| LegacyProperties.NextSlashAt | openhab-v2.js:390 | `indexOf('/', 16)` finds the first slash after index 16 |
| LegacyProperties.FrameItemNameRoundTrip | openhab-v2.js:389-390 | the item name is recovered from the topic prefix + name + '/' + rest |
| LegacyProperties.NoSlashGivesPrefix | openhab-v2.js:389-390 | with no later slash, `substring(16, -1)` gives the first 16 characters |
| LegacyProperties.StateFrameDispatch | openhab-v2.js:392-399 | for the three state event types, the raw events when allowed and then the item's StateEvent with `payload.value` |
| LegacyProperties.OtherTypesNoStateEvent | openhab-v2.js:397-399 | other event types emit at most raw events |
| LegacyProperties.UnparsableFrameAsWritten | openhab-v2.js:384-405 | an unparsable frame emits nothing and the handler fails |
| LegacyProperties.UnparsableFrameCorrected | openhab-v2.js:400-403 | with the corrected catch, an unparsable frame emits one ERROR state |
| LegacyProperties.ItemStatesInOrder | openhab-v2.js:329-333 | one StateEvent per item, in order, on 'name/StateEvent' with the item's state |
| LegacyProperties.OutConfigWins | openhab-v2.js:657-662 | non-empty configured item, topic and payload are sent whatever the message holds |
| LegacyProperties.OutMissingShowsNoPayload | openhab-v2.js:661-666 | without a payload the status becomes 'No payload specified' |
| LegacyProperties.ProcessActsOnNewStates | openhab-v2.js:580-594 | a state that is loosely different and not 'null' becomes current and is sent; any other changes nothing |
| LegacyProperties.ProcessDeduplicates | openhab-v2.js:583 | processing the same state twice acts once |
| LegacyProperties.NullStringIgnored | openhab-v2.js:583 | the string 'null' is ignored |
| LegacyProperties.NumberRepeatsItsString | openhab-v2.js:583 | a number equal to the current digit string is loosely equal, so it is ignored |
| LegacyProperties.ItemsListCache | openhab-v2.js:277-297 | a cached list is reused without a request; a forced refresh requests; a failed request empties the cache, so the next call requests again |
| Get.SelectItems | nodes/openhab-v2-get.js:128-129 | without override the configured items; with override it throws iff the payload is nullish |
| Get.EveryHasItem | nodes/openhab-v2-get.js:141 | true iff every element has an item; throws iff a nullish element comes before any element without an item |
| Get.Wrapped | nodes/openhab-v2-get.js:138-140 | each string becomes an `{item}` record at its own index |
| Get.Sanitise | nodes/openhab-v2-get.js:133-150 | every kept entry has an item; a string and an all-strings array are wrapped; an array whose every element carries an item is kept as is; any other array and any other value become empty; it throws exactly on an all-objects array with a null before the first element without an item |
| Get.WrapInPlace | nodes/openhab-v2-get.js:138-140 | rewrites the array in place into its wrapped form |
| Get.ItemNames | nodes/openhab-v2-get.js:152-155 | one requested name per entry, in order |
| Get.GetMembers | nodes/openhab-v2-get.js:158-166 | the members of a group, and theirs, keyed by name; `GetMembersIsMapOfNested` and `GetMembersKeys` state it |
| Get.Reduce | nodes/openhab-v2-get.js:170-177 | the payload keyed by item name, with members when wanted; `ReduceIsMapOfExpand` states it |
| Get.SettleStep | nodes/openhab-v2-get.js:168-191 | sends the reduced items, or warns and shows the error status; `FailureSendsNothing` states the failure case |
| Get.InputStep | nodes/openhab-v2-get.js:127-196 | one input message end to end; `FalsyItemsDoNothing`, `InvalidItemsSendEmptyPayload` and `NoControllerIgnoresInput` state it |
| Get.InputStepAsWritten | nodes/openhab-v2-get.js:152-155 | as written, the undefined `controller.getItem` throws at the first sanitised entry, so no request is made; `GetItemThrowsAsWritten` and `ConfiguredNameThrowsAsWritten` state it |
| Get.GetNode.constructor | nodes/openhab-v2-get.js:47-61 | keeps its configuration and whether a controller is attached; without one it warns and shows the error status |
| Get.GetNode.OnControllerEvent | nodes/openhab-v2-get.js:111-125 | the outcome of the status update for a controller event |
| Get.GetNode.OnInput | nodes/openhab-v2-get.js:127-196 | the outcome of the input step |
| Get.GetNode.SanitiseItems | nodes/openhab-v2-get.js:133-150 | the loop-based sanitisation yields exactly `Sanitise` |
| Get.GetNode.RequestAll | nodes/openhab-v2-get.js:152-155 | the request loop appends the entries' item names in order |
| Get.GetNode.Settle | nodes/openhab-v2-get.js:168-191 | the state of the settlement step |
| GetProperties.MapOfAppend | nodes/openhab-v2-get.js:170-177 | merging by name over a concatenation is the later merge overriding the earlier |
| GetProperties.MapOfSingle | nodes/openhab-v2-get.js:174 | one item gives a one-key object |
| GetProperties.MapOfKeys | nodes/openhab-v2-get.js:170-177 | the keys are exactly the names present |
| GetProperties.MapOfLastWins | nodes/openhab-v2-get.js:170-177 | a name maps to its last occurrence |
| GetProperties.MapOfValues | nodes/openhab-v2-get.js:170-177 | each value is an element with that name |
| GetProperties.GetMembersIsMapOfNested | nodes/openhab-v2-get.js:158-166 | `getMembers` is the by-name merge of the members in pre-order |
| GetProperties.SpreadIsMapOfPrefix | nodes/openhab-v2-get.js:161-163 | after n members the accumulated object is the merge of their pre-order |
| GetProperties.NestedIsDescendants | nodes/openhab-v2-get.js:158-166 | the pre-order holds exactly the transitive members |
| GetProperties.NestedPrefixIsDescendants | nodes/openhab-v2-get.js:161-163 | the first n members' pre-order holds exactly those members and their descendants |
| GetProperties.GetMembersKeys | nodes/openhab-v2-get.js:158-166 | keyed by name over every transitive member; recursion only through an array `members` |
| GetProperties.ReduceIsMapOfExpand | nodes/openhab-v2-get.js:170-177 | the reduction is the by-name merge of each item followed by its members |
| GetProperties.ExpandWithoutMembers | nodes/openhab-v2-get.js:171 | without `getGroupMembers` no member is added |
| GetProperties.PayloadWithoutMembers | nodes/openhab-v2-get.js:170-177 | without members the keys are exactly the item names |
| GetProperties.LastItemWins | nodes/openhab-v2-get.js:172-176 | a later item of the same name overrides an earlier one |
| GetProperties.PayloadWithMembers | nodes/openhab-v2-get.js:170-177 | with members every item and every nested member has its name as a key |
| GetProperties.ExpandHolds | nodes/openhab-v2-get.js:170-177 | the expansion holds every item and nested member |
| GetProperties.MemberOverridesItem | nodes/openhab-v2-get.js:172-176 | a member with the group's own name overrides the group, since members spread last |
| GetProperties.SelectionOrder | nodes/openhab-v2-get.js:129 | with override, the first truthy of `payload.items`, `payload.item` and the configured items |
| GetProperties.NullAfterMissingItem | nodes/openhab-v2-get.js:141-146 | `every` stops at the first missing item, so a later null is harmless; an earlier null throws |
| GetProperties.MixedArrayDiscarded | nodes/openhab-v2-get.js:136-146 | a mix of a string and an object becomes empty |
| GetProperties.FalsyItemsDoNothing | nodes/openhab-v2-get.js:132-195 | falsy items make no request and send nothing |
| GetProperties.RequestsInOrder | nodes/openhab-v2-get.js:152-155 | one request per sanitised entry in order, each naming a defined item |
| GetProperties.GetItemThrowsAsWritten | nodes/openhab-v2-get.js:152-155 | as written no request is ever made: an input that would make one throws and leaves the node unchanged, and an empty sanitised list sends the intended empty payload |
| GetProperties.ConfiguredNameThrowsAsWritten | nodes/openhab-v2-get.js:129-155 | as written a configured item name, without override, throws on every input |
| GetProperties.SingleNameRequested | nodes/openhab-v2-get.js:134-155 | a configured name requests exactly that item |
| GetProperties.FailureSendsNothing | nodes/openhab-v2-get.js:185-191 | a failed request sends nothing, and after requests it warns and shows an ERROR status |
| GetProperties.InvalidItemsSendEmptyPayload | nodes/openhab-v2-get.js:147-183 | items of another type make no request and send an empty payload |
| GetProperties.NoControllerIgnoresInput | nodes/openhab-v2-get.js:51-55 | without a controller the node shows 'No controller' and ignores input |
| EditorUtilities.Truncate | static/js/node-red-openhab-v2-utilities.js:58-64 | falsy text is returned unchanged; a truthy non-string throws; a string gives a string |
| EditorUtilities.LongTextTruncated | static/js/node-red-openhab-v2-utilities.js:60 | a longer text keeps max-1 characters and gets '&hellip;' |
| EditorUtilities.ShortTextKept | static/js/node-red-openhab-v2-utilities.js:60 | a text shorter than max is kept |
| EditorUtilities.ExactLengthLosesLastChar | static/js/node-red-openhab-v2-utilities.js:58-60 | a 30-character text loses its last character without an ellipsis |
| EditorUtilities.TruncateCorrected | static/js/node-red-openhab-v2-utilities.js:58-64 | the same falsy and non-string cases as `truncateWithEllipses` |
| EditorUtilities.CorrectedKeepsFittingText | static/js/node-red-openhab-v2-utilities.js:60 | a fitting text is kept; a longer one is truncated as before, and the result is the text or a prefix of it plus the ellipsis |
| EditorUtilities.SortKey | static/js/node-red-openhab-v2-utilities.js:75-76 | the key lookup throws iff the element is nullish or, case-insensitively, the value is not a string; case-insensitively a readable key is the lowercased value |
| EditorUtilities.BeforeAsymmetric | static/js/node-red-openhab-v2-utilities.js:78-83 | the comparator's order is asymmetric |
| EditorUtilities.BeforeTransitive | static/js/node-red-openhab-v2-utilities.js:78-83 | the comparator's order is transitive |
| EditorUtilities.Insert | static/js/node-red-openhab-v2-utilities.js:74-84 | insertion adds the element and keeps a sorted sequence sorted |
| EditorUtilities.InsertionSort | static/js/node-red-openhab-v2-utilities.js:74-84 | the result is a sorted permutation |
| EditorUtilities.SortBy | static/js/node-red-openhab-v2-utilities.js:72-90 | sorts the same array in place and returns it |
| EditorUtilities.SortResult | static/js/node-red-openhab-v2-utilities.js:72-90 | the sorted array, or the array unchanged once the comparator throws; `SortPermutes`, `SortedByName` and `MissingKeyLeavesOrder` state it |
| EditorUtilities.SortPermutes | static/js/node-red-openhab-v2-utilities.js:72-90 | always a permutation; sorted when every key can be read; unchanged when the comparator throws |
| EditorUtilities.SortedByName | static/js/node-red-openhab-v2-utilities.js:78-83 | ascending or descending order on string keys |
| EditorUtilities.MissingKeyLeavesOrder | static/js/node-red-openhab-v2-utilities.js:75-87 | case-insensitively, an element without the property throws and the order is kept |
| EditorUtilities.CaseInsensitiveTies | static/js/node-red-openhab-v2-utilities.js:75-83 | 'Hall' and 'hall' tie case-insensitively but are ordered case-sensitively |
| EditorUtilities.Label | static/js/node-red-openhab-v2-utilities.js:179 | a Group's label gets ' [G]' |
| EditorUtilities.SharedTags | static/js/node-red-openhab-v2-utilities.js:173 | holds exactly the filter tags the item has |
| EditorUtilities.BuildOptions | static/js/node-red-openhab-v2-utilities.js:157-181 | an optional empty option, then the listed items in order |
| EditorUtilities.Listed | static/js/node-red-openhab-v2-utilities.js:166-178 | the type filter is empty or names the type, and the tag filter is empty or shares a tag; `FiltersExclude` states it |
| EditorUtilities.ListedOptions | static/js/node-red-openhab-v2-utilities.js:162-181 | the options of the listed items in order; `ListedOptionsSound` and `NoFiltersListAll` state it |
| EditorUtilities.ListedOptionsSound | static/js/node-red-openhab-v2-utilities.js:162-181 | every option comes from a listed item |
| EditorUtilities.NoFiltersListAll | static/js/node-red-openhab-v2-utilities.js:166-176 | with no filters every item is listed in order |
| EditorUtilities.FiltersExclude | static/js/node-red-openhab-v2-utilities.js:166-178 | an item outside a non-empty type filter, or sharing no tag with a non-empty tag filter, is not listed; a listed item is |

## Left out

- Transport: the event-stream client, HTTP requests and the admin routes. Hub responses are handler parameters, and emits are appended to an output log.
- Timers: `setTimeout`, `setImmediate` and `clearTimeout` are a pending-timer field and a queue of immediates, with explicit fire steps. Real time does not pass in the model.
- The clock and time-zone formatting: the trigger timestamp is a parameter.
- Base64: `Buffer.from(...).toString('base64')` is the `encode` parameter of `Controller.AuthHeader`.
- JSON parsing, including the `Function`-based `parseJSON`: the parsed frame and payload are parameters, `None` when parsing fails.
- `getValueAs` and `RED.util.evaluateNodeProperty`: condition operands and message fields are given already resolved. Only the 'msg'-typed topic and payload are read from the event; 'date' and the other kinds are taken as configured values.
- Trigger.TimerValue: the advanced timer setting (lines 109-110) is resolved by `getValueAs` and is taken as a given number.
- Numbers are integers. Fractions, exponents, hexadecimal literals and NaN arithmetic are not modelled; a string that is not a decimal integer converts to NaN.
- Operators.LessThan: JavaScript objects are compared structurally, not by identity, and ordering on arrays and objects is left out.
- Case mapping (`toUpperCase`, `toLowerCase`) is ASCII only.
- Object key order: result objects are maps, so the order in which keys were spread is not kept.
- `controller.getItem`: nodes/openhab-v2-controller.js defines only `getItems`, so the `getItem` calls at nodes/openhab-v2-get.js:154 and nodes/openhab-v2-trigger.js:256-257 throw a TypeError before any request is made. `Get.InputStepAsWritten` and `Trigger.ControllerEventStepAsWritten` model that (see Findings). The rest of the model follows the evident intent: the item is fetched, and how the fetch settles is a parameter of the trigger and get handlers.
- Controller.ParseFrame: a frame's topic is taken to be a string. A topic of another type is modelled as a throw, although an array topic would still have `slice` and `lastIndexOf` at nodes/openhab-v2-controller.js:141.
- The timing of `Promise.all`: a get node's requests settle in one step.
- Get.WrapInPlace: the rewrite of the message's own array (lines 138-140) works on a copy. The model does not capture that the caller's array is aliased.
- The get node assumes hub items well formed (a string name and an optional list of members).
- EditorUtilities.SortKey: `Array.prototype.sort` never hands an `undefined` element to the comparator and places such elements last; the model treats an undefined element as an unusable key, so the array is left unchanged. The editor only sorts the hub's item list, which holds no undefined element.
- EditorUtilities.SortResult: for the same reason an array holding `undefined` elements is returned unsorted rather than sorted with those elements last.
- Trigger.AfterTriggerOf: names inherited from `Object.prototype` (`toString`, `constructor`, ...) index a function that nodes/openhab-v2-trigger.js:387 calls without throwing; the model maps every name outside the six actions to `Unknown`, which throws. The editor offers only the six action names.
- Operators.Lookup: inherited names such as `constructor` are not looked up in the table; in the source they give an undefined `compare` (nodes/openhab-v2-trigger.js:87), which `triggerConditionsPassed` and `additionalConditionsPassed` turn into false (nodes/openhab-v2-trigger.js:174-180 and 195-201), the same outcome as the always-false comparator the model gives them.
- EditorUtilities.SortBy: mixed-type keys are not ordered, and stability of the sort is not proved. The model sorts by insertion; the engine's sort algorithm is not modelled.
- The DOM, jQuery and SlimSelect parts of the editor helpers (`workaroundForEmptyItemsList`, `fixForTypedInputElements` and the option elements). Options are a returned sequence.
- The legacy stream lifecycle: `getEventSource`, the stream's `onOpen` and `onError`, and the controller's close handler at openhab-v2.js:355-374, 414-468. These are connection plumbing with one emit each.
- The legacy events node's `processRawEvent` (openhab-v2.js:508-518), which only re-parses and forwards a frame.
- The trigger node's no-controller path (nodes/openhab-v2-trigger.js:53-57): the model starts from an attached node. The get node models the same path, in `Get.GetNode.constructor`.
- The wording of JavaScript's own error messages: the TypeError raised when a fetched arm item cannot be destructured is shown with a fixed placeholder text.
- The variable type of the trigger's stored state: `storeState` writes one stored variable.
- EventEmitter fan-out, listener registration and removal on close, and `setMaxListeners`.

## Findings

| source | as written | input that shows it | evidently intended | confidence | as-written member | corrected member |
|---|---|---|---|---|---|---|
| openhab-v2.js:186-187 | the ItemUpdate URL is the item URL + 'state' | item 'Light' on http://localhost:8080 updates http://localhost:8080/rest/items/Lightstate | item URL + '/state', openHAB's state endpoint | not executed | Legacy.SendRequest; LegacyProperties.UpdateUrlAsWritten, LegacyProperties.UpdateUrlExample | Legacy.SendRequestCorrected; LegacyProperties.CorrectedAgreesElsewhere |
| openhab-v2.js:400-401 | the catch block reads `error.type.Error`, and `error.type` is undefined, so it throws again | a frame whose data is not JSON | emit an ERROR state with a parse message | not executed | Legacy.OnMessage; LegacyProperties.UnparsableFrameAsWritten | Legacy.OnMessageCorrected; LegacyProperties.UnparsableFrameCorrected |
| static/js/node-red-openhab-v2-utilities.js:60 | keeps `max - 1` characters even when no ellipsis is added | a 30-character name with the default max | keep text of at most `max` characters whole | not executed | EditorUtilities.Truncate; EditorUtilities.ExactLengthLosesLastChar | EditorUtilities.TruncateCorrected; EditorUtilities.CorrectedKeepsFittingText |
| nodes/openhab-v2-get.js:154 | `controller.getItem(item)` is called, but the controller defines only `getItems`, so the call throws a TypeError inside `forEach`; the same call at nodes/openhab-v2-trigger.js:257 throws on CONNECTED | any input whose items sanitise to a non-empty list, such as a configured item 'Light'; a trigger with an arm item when the controller connects | fetch each item from the hub (GET /rest/items/{name}) and continue with `then`/`catch` | not executed | Get.InputStepAsWritten; GetProperties.GetItemThrowsAsWritten, GetProperties.ConfiguredNameThrowsAsWritten, Trigger.ControllerEventStepAsWritten, TriggerProperties.ArmItemFetchThrowsAsWritten | Get.InputStep; GetProperties.RequestsInOrder, TriggerProperties.ConnectUsesArmItem |
