# sgl client core in Dafny

A model of the browser side of the `sgl` game: the shared engine (`src/engine.ts`),
the networked client `ClientGame` (`src/client.ts`), the single-box prototype `Game`
(`src/app.ts`), the keyboard helper `createKey` (`src/utils.ts`, repeated verbatim in
`src/utils/index.ts`) and the `Student` greeter (`src/objects/greeter.ts`).

Modules, one per source file or concern:

- `Wrappers` (wrappers.dfy): `Option`, standing for `null`, `undefined` and `NaN`.
- `Engine` (engine.dfy): `Direction`, `Input`, the generic player record `Player<V>`,
  the mutable `Vector` class, `CreateBasePlayer`, and the fixed-timestep scheduler:
  the pure rule (`Due`, `Mod`, `NextLoopTime`) and the `BaseCore` class whose
  `RunLoop` follows it. The abstract `update()` is counted in `BaseCore.updates`.
- `Keyboard` (keyboard.dfy): the key record of `createKey` as a class `Key` with its
  two handlers, proved against the pure transition `Handle`.
- `ClientSpec` (client_spec.dfy): what the client's update step means, as functions
  on values: `EntryEffect`, `SnapshotEffect` and `DrainEffect` for draining the
  snapshot queue, `Unacknowledged` for reconciliation, `Held` and `InputEffect` for
  input capture, and the lemmas about them.
- `Client` (client.dfy): the `ClientGame` class. Its methods carry the source's loops
  (the `while (true)` drain, the splice loop, the key loop) and are proved to compute
  exactly the `ClientSpec` functions. It also holds the spinner rule of the control
  panel.
- `Prototype` (prototype.dfy): `Game` from `src/app.ts`, which reuses the scheduler
  rule of `Engine`.
- `Greeter` (greeter.dfy): `Student` and `greeter`.

Modelling choices:

- Players on the client are values (`Player<Vec>`) in a `map<string, Player<Vec>>`.
  They arrive in snapshots as plain `{x, y}` records. The local player `player` is
  kept as its key in that map.
- A missing id is filed under the key `"undefined"`, as JavaScript's property-key
  conversion does it (`KeyOf`).
- `applyInput` is not defined in any of these files (`src/client.ts:150,185` calls it).
  `ClientGame.ApplyInput` only records each call (player key and input) in the
  `applied` log. The properties about it say which inputs it receives and in which
  order.
- `MessageQueue` is not defined in these files either. It is a plain FIFO `seq`, and
  `Recv` returns `None` when the queue is empty.
- Packets passed to the delayed `io.emit` are recorded, in order, in the `sent` log.
- Clock readings (`Date.now()`) are method parameters. Times are `real`, because
  `interval = 1000 / frameTime` and `nextLoopTime` are fractional. `%` is
  JavaScript's remainder on a non-negative dividend, defined through `Floor`.
- `handleInputs` iterates `for (let direction in Object.keys(this.keyboard))`. That
  walks the indices 0..3 of the key array, which coincide with the keys `Direction`
  Down, Left, Right, Up. `Held` captures the held directions in that order.

## Model

| member | source | states |
|---|---|---|
| `Engine.DirectionOf` | src/engine.ts:42-47 | the numeric value `n < 4` names the direction whose enum value is `n` |
| `Engine.Vector.constructor` | src/engine.ts:62 | the new vector holds the given coordinates |
| `Engine.Vector.Create` | src/engine.ts:73-75 | a new object with the coordinates of the argument |
| `Engine.Vector.Copy` | src/engine.ts:64-66 | a new object equal to the receiver; being fresh, changing it later cannot change the receiver |
| `Engine.Vector.Add` | src/engine.ts:68-71 | the receiver becomes the componentwise sum of its old value and the argument's old value (also when the argument is the receiver itself); a distinct argument is unchanged |
| `Engine.CreateBasePlayer` | src/engine.ts:49-58 | no id, empty input log, `lastInputSeq = lastInputTime = 0`, `prevPos = pos = (0,0)`, `speed = (5,5)`, three distinct new vector objects |
| `Engine.TickInterval` | src/engine.ts:116-118 | the interval is positive and `interval * frameTime == 1000` |
| `Engine.Mod` | src/engine.ts:104 | the remainder lies in `[0, interval)` and differs from the dividend by a whole number of intervals |
| `Engine.Due` | src/engine.ts:100-102 | the tick condition of the loop; a due tick was scheduled in the past (for a non-negative interval) |
| `Engine.NextLoopTime` | src/engine.ts:100-105 | on a tick the schedule moves strictly forward but never past `now`; without a tick it stays put |
| `Engine.TickLandsInWindow` | src/engine.ts:100-104 | after a tick `0 <= now - nextLoopTime < interval` |
| `Engine.TickAdvancesWholeIntervals` | src/engine.ts:100-104 | a tick advances `nextLoopTime` by `k * interval` with whole `k >= 1`: skipped ticks are never replayed |
| `Engine.BaseCore.constructor` | src/engine.ts:89-94 | `nextLoopTime = now`, `inputSeq = 0`, `lastRun = 0`, `showTickRate = false`, no update run yet |
| `Engine.BaseCore.RunLoop` | src/engine.ts:96-112 | `deltaLoopTime = now - nextLoopTime`; `update` runs once exactly when that exceeds the interval and never more than once; `nextLoopTime` moves as `NextLoopTime` says (unchanged without a tick); `lastRun` takes the last clock reading |
| `Keyboard.Handle` | src/utils.ts:36-47 | a handler changes nothing for another key code; for the key's own code, key-down sets `isDown` and clears `isUp`, key-up the reverse; the code never changes |
| `Keyboard.HandleAllState` | src/utils/index.ts:21-37 | over any sequence of events the code is kept, `isUp == !isDown` is preserved, and `isDown` is true exactly when the last event for this key was a key-down (initial value when there was none) |
| `Keyboard.HandleIdempotent` | src/utils/index.ts:26-37 | repeating an event has no further effect |
| `Keyboard.Key.constructor` | src/utils.ts:30-35 | `code = keyCode`, `isDown = false`, `isUp = true` |
| `Keyboard.Key.DownHandler` | src/utils.ts:36-41 | the record becomes `Handle(old, KeyDown(keyCode))` |
| `Keyboard.Key.UpHandler` | src/utils.ts:42-47 | the record becomes `Handle(old, KeyUp(keyCode))` |
| `ClientSpec.Unacknowledged` | src/client.ts:142-153 | the inputs the splice loop keeps: never more than were pending, each newer than the acknowledged `lastInputSeq` |
| `ClientSpec.UnacknowledgedMembers` | src/client.ts:142-153 | an input survives reconciliation exactly when it was pending and its `seq` exceeds the acknowledged `lastInputSeq` |
| `ClientSpec.UnacknowledgedAllNew` | src/client.ts:142-153 | when every pending input is newer than the acknowledgement, none is dropped |
| `ClientSpec.UnacknowledgedIncreasing` | src/client.ts:142-153 | reconciling a log with strictly increasing `seq`s keeps it strictly increasing |
| `ClientSpec.UnacknowledgedSuffix` | src/client.ts:142-153 | on an increasing log, the survivors are exactly a tail of the old log, in the old order |
| `ClientSpec.ReplayExample` | src/client.ts:142-153 | pending inputs 1..5 acknowledged up to 3 leave exactly 4 and 5, replayed in that order |
| `ClientSpec.EntryEffect` | src/client.ts:137-160 | after one snapshot entry the player it names is in the map at the server's `pos`, which the model's `applyInput` never moves; an unknown id is stored as received; a known player keeps every other field of its own record, and its pending log becomes `Unacknowledged` of the old one with prediction on and empty with it off |
| `ClientSpec.EntryEffectFrame` | src/client.ts:136-160 | one snapshot entry adds its key if it was unknown, removes no player, changes no other player, keeps players filed under their own ids, leaves the sent log and counter alone |
| `ClientSpec.SnapshotEffectFrame` | src/client.ts:136-161 | the same for all entries of one snapshot |
| `ClientSpec.DrainEffectFrame` | src/client.ts:130-163 | draining the queue makes the key set exactly the old keys plus the keys the snapshots name; a player no snapshot names is left exactly as it was |
| `ClientSpec.DrainEffectKeepsLogOrdered` | src/client.ts:130-163 | if the local player is known and its pending `seq`s are strictly increasing and at most `inputSeq`, that still holds after draining any queue |
| `ClientSpec.Held` | src/client.ts:166-171 | the directions captured from the key slots: at most one per slot, and one for every slot when all keys are down |
| `ClientSpec.HeldMembers` | src/client.ts:166-171 | a direction is captured exactly when its key is down |
| `ClientSpec.HeldInSlotOrder` | src/client.ts:166-171 | captured directions come in key order Down, Left, Right, Up, each at most once |
| `ClientSpec.HeldEmpty` | src/client.ts:166-172 | nothing is captured exactly when no key is down |
| `Client.ClientGame.HeldDirections` | src/client.ts:166-171 | the key loop collects exactly `Held` of the four `isDown` flags: the held directions in key order |
| `ClientSpec.InputEffect` | src/client.ts:172-187 | with nothing held nothing changes; otherwise no player is added or removed, players other than the local one are untouched, and exactly one packet with the held directions and a higher `seq` is sent |
| `ClientSpec.InputEffectKeepsLogOrdered` | src/client.ts:165-188 | with no key held nothing changes; otherwise `inputSeq` rises by exactly 1 and one packet with that `seq` and the held directions is appended last to the local log, which stays strictly increasing and bounded by `inputSeq` |
| `ClientSpec.UpdateKeepsLogOrdered` | src/client.ts:120-128 | a whole update (drain, then capture) keeps the local pending log ordered |
| `Client.ClientGame.constructor` | src/client.ts:23-44 | no local player, no players, empty queue, prediction off, `timeDelay = 1000`, `inputSeq = 0`, keys 40, 37, 39, 38 for Down, Left, Right, Up, all released |
| `Client.ClientGame.OnMapUpdate` | src/client.ts:229-231 | the snapshot is appended to the queue |
| `Client.ClientGame.Recv` | src/client.ts:132-135 | FIFO: the oldest snapshot and the rest of the queue, or nothing from an empty queue |
| `Client.ClientGame.ApplyInput` | src/client.ts:150 | the call (player key, input) is appended to the `applied` log |
| `Client.ClientGame.CreatePlayer` | src/client.ts:199-204 | the record is stored under its own id, replacing what was there |
| `Client.ClientGame.RemovePlayer` | src/client.ts:206-209 | a known id is deleted from the map; an unknown id fails and changes nothing |
| `Client.ClientGame.OnLogin` | src/client.ts:223-225 | the record is stored under its id and becomes the local player |
| `Client.ClientGame.OnLogout` | src/client.ts:226-228 | removes the player as `RemovePlayer` does |
| `Client.ClientGame.OnConnect` | src/client.ts:213-219 | every player is removed: the map becomes empty |
| `Client.ClientGame.ToggleClientPredict` | src/client.ts:106-108 | prediction is switched to the opposite setting |
| `Client.ClientGame.Reconcile` | src/client.ts:141-153 | the splice loop leaves exactly `Unacknowledged(inputs, ack)`, and `applyInput` is called once per survivor, in order |
| `Client.ClientGame.ProcessEntry` | src/client.ts:136-160 | a known player's `pos` is set to the snapshot's and its log reconciled (prediction on) or cleared (off); an unknown one is inserted |
| `Client.ClientGame.ProcessServerMessages` | src/client.ts:130-163 | receives until the queue is empty and processes every snapshot, entry by entry, in arrival order |
| `Client.ClientGame.HandleInputs` | src/client.ts:165-188 | the new state is `InputEffect` of the held directions, `floor(now / 1000)` and the prediction setting |
| `Client.ClientGame.Update` | src/client.ts:120-128 | nothing changes without a local player; otherwise the queue is drained first and input captured second |
| `Client.SpinnerStep` | src/client.ts:61-74 | the spinner rule as written: the result is `NaN` exactly when "up" is clicked on unreadable text |
| `Client.SpinnerOnNumbers` | src/client.ts:66-74 | on a number "up" gives `old + 1`; any other direction gives `old - 1` if `old > 1`, else 1 |
| `Client.SpinnerDownAtLeastOne` | src/client.ts:68-74 | "down" always yields a number of at least 1 |
| `Client.SpinnerUpOnUnreadable` | src/client.ts:61-67 | "up" on unreadable text yields `NaN` |
| `Client.SpinnerStepGuarded` | src/client.ts:61-74 | always a number; agrees with the source on readable text; unreadable text counts as 1 |
| `Prototype.Move` | src/app.ts:48-61 | one tick of the `switch (true)`: the box stays exactly when no key is held, and at most one coordinate changes |
| `Prototype.MoveOneAxis` | src/app.ts:47-62 | with no key held the box stays; otherwise exactly one coordinate changes, by exactly 5 |
| `Prototype.MovePriority` | src/app.ts:48-61 | Right gives `x + 5` whatever else is held; otherwise Left `x - 5`, then Up `y - 5`, then Down `y + 5`; Right or Left leaves `y` alone |
| `Prototype.HorizontalRunKeepsY` | src/app.ts:49-54 | over any run of ticks with Right or Left held, `y` never changes |
| `Prototype.Game.Interval` | src/app.ts:38-40 | the interval is positive and `interval * 60 == 1000` |
| `Prototype.Game.constructor` | src/app.ts:17-36 | `nextLoopTime = now`, box at (0, 0), keys 40, 37, 39, 38 released |
| `Prototype.Game.Update` | src/app.ts:47-62 | the box moves as `Move` of the four `isDown` flags |
| `Prototype.Game.RunGameLoop` | src/app.ts:64-75 | ticks exactly when `now - nextLoopTime > interval`; on a tick the schedule lands within one interval of `now` and the box moves and is rendered once; without a tick nothing moves and nothing renders |
| `Greeter.NewStudent` | src/objects/greeter.ts:9-11 | the name parts are stored unchanged; `fullName` is first name, a space, middle initial, a space, last name, so its length is the parts' lengths plus 2 |
| `Greeter.Greet` | src/objects/greeter.ts:13-15 | the greeting is `"Hello, "` followed by the first name, one space and the last name |
| `Greeter.GreetIgnoresMiddleInitial` | src/objects/greeter.ts:9-15 | the greeting depends only on the first and last names: it is the full name with the middle initial and its space removed |

`ClientSpec.SnapshotEffect`, `ClientSpec.DrainEffect` and `ClientSpec.UpdateEffect` are the
reference definitions of the `for…of` loop over one snapshot (src/client.ts:136-161), the drain
loop (src/client.ts:130-163) and `update` (src/client.ts:120-128). The rows of
`SnapshotEffectFrame`, `DrainEffectFrame` and `UpdateKeepsLogOrdered` state what is proved about
them, and the rows of `ProcessServerMessages` and `Update` tie the methods to them.

`src/utils/index.ts:20-41` is the same code as `src/utils.ts:30-51`. The `Keyboard`
members model both.

## Findings

| source | as written | input that shows it | evidently intended | confidence | as-written member | corrected member |
|---|---|---|---|---|---|---|
| src/client.ts:61-74 | the `isNaN` guard tests `value`, which is still uninitialised and is overwritten right after, so it has no effect; "up" computes `oldValue + 1` even when `oldValue` is `NaN` | spinner input text that `parseInt` cannot read (for example empty), "up" button: the new value is `NaN`. For "fps" it becomes `frameTime`, `interval` becomes `NaN`, and the loop stops ticking until the fps value is next set by a "down" click or a keystroke in the field, both of which give 1 | unreadable text counts as 1, as the keydown handler at src/client.ts:91-94 does | medium, not executed | `Client.SpinnerUpOnUnreadable` | `Client.SpinnerStepGuarded` |

## Left out

- The `requestAnimationFrame` polyfill, the re-arming `requestAnimationFrame` calls and `updateId` (timers and window state). One `runLoop` or `runGameLoop` call is modelled, with the clock as a parameter.
- The `tickRate` diagnostic and its `console.log` (floating-point division, possibly by zero). `lastRun` is kept.
- Engine.Vector.Add: assumes integer coordinates. On those the `toFixed`/`parseInt` round trip is the identity, up to the magnitude (10^21) where `toFixed` switches to exponent notation. Above 2^53 the source's floating-point sum is also inexact, while the model's `int` sum stays exact. The argument is a `Vector` rather than any `IVector`.
- Engine.BaseCore.RunLoop: requires a positive `frameTime`. Zero, negative or `NaN` frame rates, reachable only through the panel's "fps" input, are not modelled. Times are exact reals rather than doubles.
- Rendering with PIXI: `render`, `createBox`, `createText`, `canvasEl`, the `Application` and the stage. `Update` does not model its final `render()` call; `Game.RunGameLoop` counts `renderer.render()` calls.
- DOM and socket wiring: `createSocket`'s registration of handlers (their effects are `OnConnect`, `OnLogin`, `OnLogout`, `OnMapUpdate`), `checkLatency` and the latency display, the `message`/`disconnect` logs, and the panel apart from the spinner value rule and the prediction toggle. Not modelled among these: the spinner's keydown handler, writing the spinner value into the input, `changeTPS` and setting `frameTime`. The listeners `createKey` registers on `window` are also left out.
- The `setTimeout` delay of the input `io.emit`. The packets are recorded in `sent` in call order, which is their emit order because every packet has the same delay.
- ClientSpec.EntryEffect: the body of `applyInput` and the internals of `MessageQueue` are not defined in these files. So the model does not move a player during prediction or replay: after reconciliation a known player's `pos` is the snapshot's, and its other fields are those of its own record, where the source's `applyInput` may change them.
- Client.ClientGame.HandleInputs: the source keeps `this.player` as an object reference. The model keeps its key. They differ only after `OnConnect`, or an `OnLogout` for the local id, removes the local player. The source then goes on pushing packets onto the removed object, and the model stores them nowhere. If a later snapshot brings the id back, the model's local player is the new record, while the source's is still the removed one.
- Client players are values, so the aliasing of a snapshot's objects into the map (`createPlayer` stores the received object; `player.pos = playerData.pos` shares its vector) is not captured. Only the body of `applyInput`, which is not modelled, could observe it.
- Client.ClientGame.Reconcile: works on the pending log and writes it back when done. In the source, `applyInput` could see the log half spliced, but its calls are only recorded here.
- The client's own `runLoop` is `BaseCore.RunLoop` with `update` being `ClientGame.Update`. The two are specified separately, not composed into one method, because there is no inheritance here. The constructors' first `runLoop`/`runGameLoop` call is not part of the constructor models.
- `Math.floor(Date.now() / 1000)` is integer division of the millisecond clock.
- `server.ts`, `config/index.ts`, `gulpfile.ts` and `gulpfile.js`: HTTP serving, template paths and build tooling. No server-side simulation is part of this model.
