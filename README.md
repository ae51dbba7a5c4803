# frex.js remote-control bridge, modelled in Dafny

This project models `lib/remote.js` of frex.js. The file is the HTTP bridge that lets a browser
drive engine runtimes on the server. It has two parts.

- **The command dispatcher** (`js.dfy`, `dispatcher.dfy`). `Remote.prototype.execute` resolves a
  dotted `objPath` inside an engine's instance graph with `_getObject`, then performs a `call`
  (apply a function, optionally with a synthesized delivery function that completes the
  command) or a `set` (overwrite a property). `_processCommands` runs a request's commands in
  order. It skips commands whose engine has no runtime or whose permission check is refused,
  and it collects the `{id, type: 'callback', args}` events.
  - The instance graph is a JavaScript value (`Js.Value`) with plain objects as maps.
  - Truthiness, own-property reads and `String.prototype.split` on strings are modelled; the
    limits (prototype properties, number coercion) are listed under "## Left out".
  - The collaborators' answers are inputs of the model: the runtime registry, each permission
    answer, and the arguments a target passes to its delivery function.
- **The long-poll event aggregator** (`aggregator.dfy`). This is the `/frex/remote/event` route.
  One request is a `Session` object whose fields are the route's local variables (`commands`,
  `events`, `listeners`, `ready`, `eventSet.ts`, each handler's wrapper and `pushed` flag) and
  what it has registered on runtimes and sent. Each asynchronous answer is a method of the
  session:
  - a permission answer, a `pullEvents` answer;
  - an 'updated' notification from a runtime;
  - the 10 ms linger timer, the 60 s timeout;
  - the client closing.

  Each such method keeps the session invariant `Valid()` and states the new state exactly.
  The filter, the fetch, the listener bookkeeping and what is sent are specification functions
  with their own lemmas.

The model follows the code as written, including where the code does something a reader of
the route would not expect:

- A `set` walks the whole path, target included, and needs every value on it to be truthy.
  So `set foo.bar = 5` over `foo = {bar: 0}` throws a TypeError instead of writing
  (`ScenarioSetOverZero`). Over a truthy `bar` it writes (`ScenarioSetOverTruthy`).
- Live handlers are registered on the runtime's `'updated'` notifier, not on the
  subscription's own `event` name.
- A handler's `pushed` flag is never set to true. So every live event pushes the same shared
  wrapper onto `events` again. A batch holds the wrapper of subscription `k` once per event it
  received, and every copy shows all of that subscription's events
  (`RenderRepeatsLiveWrapper`, invariant `Collecting`).
- The 60 s timeout is never cancelled. After a linger flush it fires and sends a second time,
  and after the client closes it still sends (`Session.FireTimeout`).
- Closing only removes the handlers (`Session.Close`).
- Commands and subscriptions are processed one after another in submission order, because
  `forEachAsync` waits for `next`. They are not fanned out concurrently.

## Model

| member | source | states |
|---|---|---|
| Js.TruthyGetIsOwn | lib/remote.js:302-307 | a truthy property read implies a plain object that owns the key |
| Js.LookupAppend | lib/remote.js:300-315 | reading one key more along a path is one more property read |
| Js.Split | lib/remote.js:285 | `split('.')` yields at least one piece, and no piece contains the separator |
| Js.JoinSplit | lib/remote.js:285 | joining the pieces of a split gives back the string, so the split loses nothing |
| Js.SplitJoin | lib/remote.js:285 | splitting joined separator-free pieces gives back the pieces |
| Js.SplitNoSep | lib/remote.js:285 | a string without a separator splits into itself alone |
| Js.IndexKeyRoundTrip | lib/remote.js:346 | the property key `apply` reads for argument `i` denotes `i`, so distinct arguments come from distinct properties |
| Dispatcher.Walk | lib/remote.js:300-316 | a found target lies within the path, is truthy and has a plain-object parent; an error names a path segment or "undefined" |
| Dispatcher.WalkResolves | lib/remote.js:300-316 | the walk succeeds iff every value from the given segment through the last is truthy; it then yields the parent of the last segment and the value it holds |
| Dispatcher.WalkPastEndFails | lib/remote.js:302-305 | a walk starting past the end of the path (an `objPath` with only the engine name) fails on key "undefined" |
| Dispatcher.AssignFrame | lib/remote.js:357-360 | after the assignment the written slot holds the new value, and every slot apart from it reads as before |
| Dispatcher.AssignKeepsObjects | lib/remote.js:357-360 | the objects on the way to the written slot stay objects |
| Dispatcher.ApplyList | lib/remote.js:346 | `apply` passes no arguments for `undefined`/`null`, an array's elements, an array-like object's properties "0".."length-1", and throws on a primitive |
| Dispatcher.CallArgs | lib/remote.js:323-346 | with a truthy `callback`: the elements of array `args` in order, the delivery function, then what `concat(data)` appends for a truthy `data`, and a throw for non-array `args`; with a falsy one: exactly `apply`'s list from `args`; the delivery function is passed iff `callback` is truthy |
| Dispatcher.CallSpec | lib/remote.js:319-348 | a `call` invokes the target iff the walk found a function and the argument list can be built, applying it to the parent with those arguments; otherwise it throws; it completes early iff `callback` is falsy |
| Dispatcher.ExecuteSpec | lib/remote.js:276-381 | `execute`: an engine without a runtime completes with null; only a `set` with a truthy value changes a graph, and only its own engine's; a `set` completes or throws; a `set` event carries no arguments |
| Dispatcher.SetWithoutValue | lib/remote.js:350-354 | a `set` with a falsy value completes with null and changes nothing |
| Dispatcher.SetNeedsTruthySlot | lib/remote.js:356-360 | a `set` onto a missing or falsy slot, or with no segment after the engine, throws and changes nothing |
| Dispatcher.SetWritesOneSlot | lib/remote.js:356-378 | a `set` that resolves writes the value into exactly its slot and completes with an empty-argument event iff `callback` is truthy |
| Dispatcher.PrefixesAreObjects | lib/remote.js:300-316 | along a resolving path every value before the last is a plain object |
| Dispatcher.SetThenWalk | lib/remote.js:350-378 | after a `set`, walking the same path finds the written value |
| Dispatcher.CallCompletion | lib/remote.js:300-348 | a `call` changes no graph; it invokes the target iff the instance is readable, the path resolves to a function and the arguments can be built, applied to the parent; an undefined or null instance throws before any completion; otherwise it completes early iff `callback` is falsy, and the delivery function is passed iff `callback` is truthy |
| Dispatcher.StepSpec | lib/remote.js:21-64 | one command adds at most one event, which belongs to it and is only added when its engine has a runtime and permission was granted; a skipped command changes nothing; for a permitted one the graphs become `execute`'s: its non-null completion, or the arguments the target delivers, are appended as its event and the batch goes on; an early-completing `call` goes on with no event; a `call` whose target never delivers, or an unknown `cmd`, stalls the batch; a thrown TypeError ends it as an error |
| Dispatcher.ProcessSpec | lib/remote.js:18-70 | the batch extends the events gathered so far by at most one per command, and keeps the set of engines |
| Dispatcher.ProcessConcat | lib/remote.js:18-70 | commands run one after another: the batch of two lists in a row is the first list's batch continued by the second from the graphs and events it left, unless the first stopped |
| Dispatcher.DeliveredCallAnswers | lib/remote.js:319-346 | a permitted `call` of a resolved function with array `args` and a truthy `callback` answers exactly `{id, args}` with the arguments the target delivers, after the earlier events, and changes no graph; without a delivery the batch stalls |
| Dispatcher.EarlyCallAnswers | lib/remote.js:341-346 | a permitted `call` of a resolved function with a falsy `callback` and `args` that `apply` accepts completes with no event, and the batch goes on unchanged |
| Dispatcher.SetAnswers | lib/remote.js:350-378 | a permitted `set` with a truthy value onto a resolving path writes the value there and answers `{id, args: []}` iff `callback` is truthy |
| Dispatcher.RefusedCommandIsInert | lib/remote.js:30-51 | a command without a runtime or without permission contributes nothing: the batch is as if it were absent |
| Dispatcher.EventsComeFromPermittedCommands | lib/remote.js:44-61 | every event in the answer belongs to a command whose engine has a runtime and whose permission was granted |
| Dispatcher.Remote.constructor | lib/remote.js:7-11 | the bridge starts over the given runtimes' graphs |
| Dispatcher.Remote.Execute | lib/remote.js:276-381 | the method's outcome and new graphs are those of `ExecuteSpec` |
| Dispatcher.Remote.RunCommand | lib/remote.js:21-64 | one iteration's result and new graphs are those of `StepSpec` |
| Dispatcher.Remote.ProcessCommands | lib/remote.js:18-70 | the loop's answer and final graphs are those of `ProcessSpec` |
| Dispatcher.ScenarioSetOverZero | lib/remote.js:350-360 | `set foo.bar = 5` over `foo = {bar: 0}` throws and leaves `foo` unchanged |
| Dispatcher.ScenarioSetOverTruthy | lib/remote.js:350-377 | `set foo.bar = 5` over `foo = {bar: 1}` writes 5 and answers `[]` |
| Dispatcher.ScenarioCallObjectArgs | lib/remote.js:341-346 | a `call` of `foo.f` with `args = {}` and no `callback` invokes `f` with no arguments and answers `[]` |
| Aggregator.CursorUsable | lib/remote.js:87-90 | with a clock past 0 the cursor handed to `pullEvents` is never falsy or "null" |
| Aggregator.CursorEcho | lib/remote.js:87-90 | a client that sends back the `ts` it was answered with (past 0) polls from exactly that time |
| Aggregator.NextEligible | lib/remote.js:209-221 | the next subscription asked for permission is the first one after the current one with a runtime and a truthy `callback`; all those skipped lack one of the two |
| Aggregator.NextEligibleIsFirst | lib/remote.js:209-221 | the first eligible index after a run of ineligible ones is the next one asked |
| Aggregator.Filter | lib/remote.js:209-243 | the filter accepts at most one entry per subscription |
| Aggregator.FilterAccepts | lib/remote.js:213-237 | a subscription with a runtime, a truthy `callback` and granted permission is accepted, with its engine's runtime |
| Aggregator.FilterOnlyPermitted | lib/remote.js:213-237 | every accepted entry is such a subscription, paired with its own engine |
| Aggregator.UnaskedAnswersIgnored | lib/remote.js:215-221 | the runtime and `callback` checks come first: answers for subscriptions failing them change nothing |
| Aggregator.Fetch | lib/remote.js:162-191 | the fetch yields at most one wrapper per accepted subscription |
| Aggregator.FetchWrappers | lib/remote.js:169-183 | each fetched wrapper is `{id, events}` of an accepted subscription whose pull had no error and was not empty |
| Aggregator.FetchHoldsNoLive | lib/remote.js:162-191 | the fetch yields stored wrappers only |
| Aggregator.FetchPrefix | lib/remote.js:164-186 | the fetch so far depends only on the pulls answered so far |
| Aggregator.FetchEmpty | lib/remote.js:171-174 | the fetch yields nothing iff every pull failed or came back empty, which is when listening starts |
| Aggregator.Render | lib/remote.js:203-204 | what is sent has one wrapper per entry of `events` |
| Aggregator.FlushSendsPulls | lib/remote.js:169-183 | an immediate flush sends, in subscription order, one wrapper `{id, events}` per pull without error and with events, holding exactly that pull's events, and no other wrapper |
| Aggregator.RenderRepeatsLiveWrapper | lib/remote.js:115-131 | two entries of the same live wrapper are sent identically, both holding all that subscription's live events |
| Aggregator.RemoveLast | lib/remote.js:156 | removing a handler drops exactly one registration of it |
| Aggregator.UnhookRemoves | lib/remote.js:155-157 | the removal loop drops one registration per listener and nothing else |
| Aggregator.UnhookAll | lib/remote.js:153-160 | removing every listener the session holds leaves none of its handlers registered |
| Aggregator.Targets | lib/remote.js:143 | a notification reaches at most one handler per registration |
| Aggregator.TargetsReach | lib/remote.js:143 | an 'updated' notification of a runtime reaches handler `k` iff `k` is registered on that runtime |
| Aggregator.TargetsBelow | lib/remote.js:110-148 | with the handlers as registered, a notification reaches only existing handlers, in increasing order, so each at most once |
| Aggregator.CollectingPush | lib/remote.js:121-141 | a handler's run keeps the live-phase invariant: each wrapper was pushed once per event it holds, and `ready` iff something was pushed |
| Aggregator.Session.constructor | lib/remote.js:85-100 | the cursor is fixed, nothing is fetched or sent, and the filter waits for the first eligible subscription's permission or has finished |
| Aggregator.Session.ContinueFilter | lib/remote.js:209-243 | ineligible subscriptions are dropped without asking; then the session waits on the next permission, starts pulling, or starts listening with the timeout armed |
| Aggregator.Session.StartFetch | lib/remote.js:162-191 | with no accepted subscription the fetch ends at once and listening starts |
| Aggregator.Session.FinishFetch | lib/remote.js:246-267 | stored events are sent at once with the request time as cursor, the wrappers being those of the successful non-empty pulls in order; otherwise every handler is registered with an empty wrapper and the timeout is armed |
| Aggregator.Session.Permit | lib/remote.js:224-239 | a granted subscription is appended to `commands` with its runtime, a refused one is dropped; the filter then goes on |
| Aggregator.Session.Pulled | lib/remote.js:169-186 | a pull without error and with events adds its wrapper; after the last pull the session flushes or starts listening |
| Aggregator.Session.SetListener | lib/remote.js:108-151 | one handler per accepted subscription is registered, each with an empty wrapper and `pushed` false |
| Aggregator.Session.RemoveListener | lib/remote.js:153-160 | every handler in `listeners` is unregistered and the list emptied |
| Aggregator.Session.ReadyToSend | lib/remote.js:193-206 | with no events nothing happens; otherwise the handlers are removed and `eventSet` with all wrappers is sent |
| Aggregator.Session.Handle | lib/remote.js:121-141 | the event joins its wrapper, the cursor moves to its time, the wrapper is pushed again, and the linger timer is armed on the first push only |
| Aggregator.Session.Notify | lib/remote.js:143 | the next registered handler runs iff it is registered on the notifying runtime |
| Aggregator.Session.NotifyFrom | lib/remote.js:121-143 | running the handlers from the `j`-th on keeps the live invariant and extends what the first `j` did to every registered handler |
| Aggregator.Session.Updated | lib/remote.js:121-143 | a notification appends the event to the wrapper of every handler registered on that runtime, pushes them in registration order, moves the cursor and arms the linger timer if this is the first push |
| Aggregator.Session.FireLinger | lib/remote.js:133-137 | the linger timer sends the accumulated wrappers and removes the handlers |
| Aggregator.Session.FireTimeout | lib/remote.js:256-266 | the timeout removes the handlers and sends `eventSet` with the current time as cursor, whatever it holds and whether or not a flush already happened |
| Aggregator.Session.Close | lib/remote.js:102-106 | closing removes the handlers and keeps the session invariant |

## Left out

- Prototype chains and inherited properties: property reads see a plain object's own properties only. Arrays, functions and strings have no readable properties in the model.
- Numbers are integers, so floating point, `NaN` and `-0` are not modelled.
- Dispatcher.ApplyList: an array-like's `length` is coerced only for `undefined`, `null`, booleans and numbers; a string or object `length` is taken as 0. A function passed as `args` is taken to have no parameters, since function arity is not modelled. The `RangeError` for a huge `length` is not modelled.
- Dispatcher.CallSpec: a target that is not a function is taken to throw at `obj.apply`. A plain object with its own or an inherited `apply` function would have that function called instead; this is not modelled.
- Dispatcher.StepSpec: at most one call of the delivery function is modelled. In the source every call pushes an event and calls `next()` again, so a target that delivers twice adds two events and advances the iteration twice.
- Dispatcher.StepSpec: a `call` with a falsy `callback` that then throws at `obj.apply` is modelled as ending the batch (`Crashed`). In the source `complete(command, null)` has already called `next()`, so whether the remaining commands still run depends on how `forEachAsync` schedules `next`, which is not part of this model.
- `objPath` is a string in the model. A missing or non-string `objPath` makes `split('.')` throw a TypeError (lines 26, 211, 285); that path is not modelled.
- A `pullEvents` answer always carries a list in the model. An answer with no error and no list makes `es.length` throw at line 171; that path is not modelled.
- Aliasing and cycles in instance graphs: a `set` rebuilds the graph along the written path as a value. It does not update a shared object in place.
- What an invoked function does is not modelled. Its only modelled effect is the delivery arguments it passes, which are an input.
- HTTP: request parsing (`JSON.parse` of `cmds` and `on`, and its errors), `res.json`/`res.end` (modelled as appending to `sent`), and the error Express raises for a second send.
- The `/frex/remote` route body (lines 73-83) is not modelled beyond `_processCommands`. The `_processCommands` answer is the batch.
- Clocks and timers: the request time and the timeout's current time are parameters. The two clock reads at lines 90 and 98 are taken as one instant. A timer firing is a method call, with no delays modelled.
- Aggregator.Cursor: the loose comparison `== 'null'` is modelled as equality with the string "null". Non-string values that coerce to "null" are not modelled.
- `forEachAsync` is modelled as in-order iteration. An iterator that returns without calling `next` (a skipped command or subscription) moves on to the next item.
- `getRuntime`, `check_permission` and `pullEvents` are inputs. They are modelled as the set of known engines, the permission answers and the pull answers. Their internals and the `command.event` / cursor arguments of `pullEvents` are not part of this model.
- Several sessions sharing one runtime's notifier are not modelled. Each session sees only its own handlers.
- The `runtime.engine.instance` indirection: a runtime is named by its engine and maps directly to its instance graph.
