# Sunshine watch face: sync receiver and face engine

A verified model of the two pieces of sequential logic in the Sunshine
Android Wear watch face.

- The **sync receiver** (`DataListenerService`) takes messages pushed from the
  paired handheld. A message on one of three routes (minimum temperature,
  maximum temperature, weather icon) is written into the shared key-value
  store under that route's key, overwriting any earlier value. It is then
  announced by exactly one local broadcast carrying that key and value.
  Any other message goes to the listener's default handler.
- The **face engine** (`SunshineWatchFaceService.Engine`) reacts to the host's
  lifecycle callbacks: visibility, ambient mode, display properties, time
  tick, time-zone broadcast, destruction. It keeps a once-a-second redraw
  timer running exactly while the face is visible and interactive, and at
  most one timer message is ever pending. Each tick is rescheduled to the
  next whole second of the wall clock. On low-bit-ambient displays it turns
  the text paints' anti-aliasing off in ambient mode and back on outside it,
  all four paints together.
- The **draw decision** (`onDraw`) picks the background, the clock text
  (`H:MM` in ambient mode, `H:MM:SS` in interactive mode) and the weather
  part. The weather part shows both temperatures, plus the icon scaled to a
  quarter of the bounds when it decodes, if all three weather values are
  stored. Otherwise it shows the text "No data found".

Layout, one module per concern:

- `wearable_constants.dfy` (`WearableConstants`): the routes and store keys.
- `key_value_store.dfy` (`KeyValueStore`): the shared store, as a map.
- `data_listener.dfy` (`DataListener`): the receiver.
  - A pure transition `Receive`.
  - Its lemmas over any sequence of messages.
  - The class `DataListenerService`, whose method is specified by `Receive`.
- `time_text.dfy` (`TimeText`): `%d` and `%02d` formatting, with a parser as its partner.
- `frame_plan.dfy` (`FramePlan`): what one frame draws.
- `watch_face_engine.dfy` (`WatchFaceEngine`): the engine.
  - Its state as a value, with one function per callback and `Run` over event sequences.
  - The invariants kept by any sequence of callbacks.
  - The class `Engine`, with a `Paint` object per paint. Each method is specified by the matching function.
- `java_arith.dfy` (`JavaArith`): Java's truncating `/` and `%`.
- `wrappers.dfy` (`Wrappers`): `Option`, for Java's nullable values.

Modelling choices:

- Clock readings (`System.currentTimeMillis()`, `Time.setToNow()`) are parameters: `now` in milliseconds, and hour, minute and second for a draw.
- The handler's message queue is the sequence `pending` of due times, in milliseconds.
  - The real handler schedules on the uptime clock (`SystemClock.uptimeMillis()`), not on the wall clock.
  - The model uses the single clock `now` for both.
  - So `sendEmptyMessage` queues a message due at `now`, and `sendEmptyMessageDelayed(d)` one due at `now + d`.
  - `removeMessages` empties the queue.
- `invalidate()` is counted, in `invalidations`.
- The framework's `isVisible()` and `isInAmbientMode()` are the engine's `visible` and `ambient`.
  - The framework updates its own copy just before it calls `onVisibilityChanged` or `onAmbientModeChanged`.
  - `mAmbient` is set to the same value in that callback.
  - So at every point the model observes, the two agree.
- The platform calls that register and unregister the time-zone receiver are logged in `receiverCalls`. This shows that the `mRegisteredTimeZoneReceiver` guard makes them alternate.
- `onDraw` writes the fields `minTemp` and `maxTemp`. In the source these belong to the enclosing service; here they sit on the engine.
- The icon decoder `Utility.StringToBitMap` is a parameter `decodes: string -> bool`: whether decoding gives an image.

## Model

| member | source | states |
|---|---|---|
| `WearableConstants.RoutesDistinct` | common/src/main/java/com/sarahehabm/common/WearableConstants.java:7-9 | The three route paths are pairwise distinct. |
| `WearableConstants.KeysDistinct` | common/src/main/java/com/sarahehabm/common/WearableConstants.java:11-13 | The three store keys are pairwise distinct. |
| `DataListener.RouteKey` | sunshinewearable/src/main/java/com/example/android/sunshine/app/DataListenerService.java:17-51 | A path has a key exactly when it is one of the three routes. Max maps to `maxTemp`, min to `minTemp`, icon to `resId`, each in both directions. |
| `DataListener.RouteKeyInjective` | sunshinewearable/src/main/java/com/example/android/sunshine/app/DataListenerService.java:17-44 | Two known routes that map to the same key are the same route. |
| `DataListener.Receive` | sunshinewearable/src/main/java/com/example/android/sunshine/app/DataListenerService.java:16-52 | A message on a known route makes its key hold the payload and leaves every other key as it was. It appends exactly one broadcast with that key and payload. A message on an unknown route changes neither store nor broadcasts and is passed to the default handler. |
| `DataListener.ReceiveThenGet` | sunshinewearable/src/main/java/com/example/android/sunshine/app/DataListenerService.java:17-22 | After a message on a known route, reading its key gives back the payload. |
| `DataListener.ReceiveKeepsOtherKeys` | sunshinewearable/src/main/java/com/example/android/sunshine/app/DataListenerService.java:28-33 | A message leaves every key other than its route's key unchanged, present or absent. |
| `DataListener.LastWriteWins` | sunshinewearable/src/main/java/com/example/android/sunshine/app/DataListenerService.java:39-44 | Two messages on one route leave the store exactly as the second alone would. |
| `DataListener.DistinctRoutesCommute` | sunshinewearable/src/main/java/com/example/android/sunshine/app/DataListenerService.java:17-44 | Messages on different routes give the same store in either order. |
| `DataListener.ReceiveAllStore` | sunshinewearable/src/main/java/com/example/android/sunshine/app/DataListenerService.java:16-52 | After any sequence of messages, each key holds the payload of the last message routed to it. A key that no message was routed to keeps its earlier value. |
| `DataListener.ReceiveAllBroadcasts` | sunshinewearable/src/main/java/com/example/android/sunshine/app/DataListenerService.java:24-27 | After any sequence of messages, the broadcast log has grown by exactly one broadcast per message on a known route, in order, with the key and value stored. |
| `DataListener.ReceiveAllWritesOnlyKeys` | sunshinewearable/src/main/java/com/example/android/sunshine/app/DataListenerService.java:22-44 | No sequence of messages writes a key other than the three store keys. |
| `DataListener.DataListenerService.constructor` | sunshinewearable/src/main/java/com/example/android/sunshine/app/DataListenerService.java:12-13 | A listener starts over the given store with no broadcasts and nothing delegated. |
| `DataListener.DataListenerService.OnMessageReceived` | sunshinewearable/src/main/java/com/example/android/sunshine/app/DataListenerService.java:16-52 | The if/else chain on the path has the effect `Receive` describes. For each route it names the key written and the broadcast appended. |
| `DataListener.DataListenerService.SuperOnMessageReceived` | sunshinewearable/src/main/java/com/example/android/sunshine/app/DataListenerService.java:50-51 | The default handler only records the delegated path. |
| `KeyValueStore.Get` | sunshinewearable/src/main/java/com/example/android/sunshine/app/SunshineWatchFaceService.java:287-289 | A read returns the stored value, or none (null) when the key is absent. |
| `KeyValueStore.Put` | sunshinewearable/src/main/java/com/example/android/sunshine/app/DataListenerService.java:22 | After a write, the key reads back the new value and every other key reads as before. |
| `JavaArith.JavaDiv` | sunshinewearable/src/main/java/com/example/android/sunshine/app/SunshineWatchFaceService.java:295 | Java's `/` truncates toward zero. For non-negative operands the quotient is the floor. |
| `JavaArith.JavaRem` | sunshinewearable/src/main/java/com/example/android/sunshine/app/SunshineWatchFaceService.java:101-103 | Java's `%` takes the dividend's sign. With `JavaDiv` it splits the dividend exactly, and it lies in `[0, b)` for a non-negative dividend. |
| `TimeText.DecimalString` | sunshinewearable/src/main/java/com/example/android/sunshine/app/SunshineWatchFaceService.java:274 | `%d` gives at least one digit, has no leading zero except for zero itself, and is one digit exactly below 10. |
| `TimeText.Pad2` | sunshinewearable/src/main/java/com/example/android/sunshine/app/SunshineWatchFaceService.java:274-275 | `%02d` gives exactly two digits below 100, and plain `%d` from 10 on. |
| `TimeText.FormatTime` | sunshinewearable/src/main/java/com/example/android/sunshine/app/SunshineWatchFaceService.java:273-275 | The length of the clock text is the hour's digits plus `:MM`, plus `:SS` outside ambient mode. |
| `TimeText.DecimalStringRoundTrip` | sunshinewearable/src/main/java/com/example/android/sunshine/app/SunshineWatchFaceService.java:274 | Parsing `%d` of `n` gives back `n`. |
| `TimeText.Pad2RoundTrip` | sunshinewearable/src/main/java/com/example/android/sunshine/app/SunshineWatchFaceService.java:274-275 | Parsing `%02d` of `n` gives back `n`. |
| `TimeText.FormatTimeRoundTrip` | sunshinewearable/src/main/java/com/example/android/sunshine/app/SunshineWatchFaceService.java:273-275 | Parsing the clock text gives back the hour and minute. It gives back the second exactly in interactive mode and no second in ambient mode. |
| `TimeText.InteractiveExtendsAmbient` | sunshinewearable/src/main/java/com/example/android/sunshine/app/SunshineWatchFaceService.java:273-275 | The interactive text is the ambient text followed by `:` and the padded second. |
| `TimeText.FormatTimeExample` | sunshinewearable/src/main/java/com/example/android/sunshine/app/SunshineWatchFaceService.java:270-275 | 9:05:03 is drawn as `9:05:03` interactively and as `9:05` in ambient mode. |
| `FramePlan.CompleteSnapshot` | sunshinewearable/src/main/java/com/example/android/sunshine/app/SunshineWatchFaceService.java:291 | A snapshot is complete exactly when all three store keys are present, that is, none of the three reads is null. |
| `FramePlan.IconSize` | sunshinewearable/src/main/java/com/example/android/sunshine/app/SunshineWatchFaceService.java:295 | For non-negative bounds, each icon side is the largest integer with four times it no larger than the bound. |
| `FramePlan.WeatherFor` | sunshinewearable/src/main/java/com/example/android/sunshine/app/SunshineWatchFaceService.java:287-309 | Temperatures are drawn exactly when all three values are stored. They are the stored min and max. The icon is drawn exactly when the stored string decodes, at a quarter of the bounds. Otherwise only "No data found" is drawn. |
| `FramePlan.Render` | sunshinewearable/src/main/java/com/example/android/sunshine/app/SunshineWatchFaceService.java:263-309 | The background is black exactly in ambient mode, and the bounds-sized background rectangle otherwise. The weather part is `WeatherFor` of the store. |
| `FramePlan.RenderTimeText` | sunshinewearable/src/main/java/com/example/android/sunshine/app/SunshineWatchFaceService.java:270-275 | A frame's clock text reads back as hour, minute and, only in interactive mode, second. |
| `FramePlan.WeatherDependsOnSnapshotOnly` | sunshinewearable/src/main/java/com/example/android/sunshine/app/SunshineWatchFaceService.java:287-291 | Two stores that agree on the three weather keys draw the same weather. |
| `FramePlan.IncompleteSnapshotsLookAlike` | sunshinewearable/src/main/java/com/example/android/sunshine/app/SunshineWatchFaceService.java:305-309 | Every incomplete snapshot, partial or empty, draws the same "No data found" text. |
| `FramePlan.UndecodableIconKeepsTemperatures` | sunshinewearable/src/main/java/com/example/android/sunshine/app/SunshineWatchFaceService.java:292-304 | With a complete snapshot whose icon does not decode, both temperatures are still drawn and only the icon is left out. |
| `WatchFaceEngine.ShouldTimerBeRunning` | sunshinewearable/src/main/java/com/example/android/sunshine/app/SunshineWatchFaceService.java:327-329 | The timer should run in exactly one of the four display states: visible and not ambient. |
| `WatchFaceEngine.TimerPredicateTable` | sunshinewearable/src/main/java/com/example/android/sunshine/app/SunshineWatchFaceService.java:327-329 | Of the four visible/ambient combinations, only visible and interactive runs the timer. |
| `WatchFaceEngine.NextTickDelay` | sunshinewearable/src/main/java/com/example/android/sunshine/app/SunshineWatchFaceService.java:101-103 | For a non-negative clock the delay lies in `[1, 1000]` and ends on a multiple of 1000. |
| `WatchFaceEngine.NextTickIsNextSecond` | sunshinewearable/src/main/java/com/example/android/sunshine/app/SunshineWatchFaceService.java:101-104 | The next tick is strictly after `now` and no later than any whole second after `now`: it is the next whole-second boundary. |
| `WatchFaceEngine.TimerUpdated` | sunshinewearable/src/main/java/com/example/android/sunshine/app/SunshineWatchFaceService.java:316-321 | All pending messages are removed first. Afterwards exactly one message due `now` (no delay) is pending if the timer should run, and none otherwise. Nothing else changes. |
| `WatchFaceEngine.ReceiverRegistered` | sunshinewearable/src/main/java/com/example/android/sunshine/app/SunshineWatchFaceService.java:192-199 | Afterwards the receiver is registered. The platform is called only if it was not registered before. |
| `WatchFaceEngine.ReceiverUnregistered` | sunshinewearable/src/main/java/com/example/android/sunshine/app/SunshineWatchFaceService.java:201-207 | Afterwards the receiver is not registered. The platform is called only if it was registered before. |
| `WatchFaceEngine.ReceiverCallsIdempotent` | sunshinewearable/src/main/java/com/example/android/sunshine/app/SunshineWatchFaceService.java:192-207 | Registering twice equals registering once, and likewise for unregistering. |
| `WatchFaceEngine.VisibilityChanged` | sunshinewearable/src/main/java/com/example/android/sunshine/app/SunshineWatchFaceService.java:173-190 | Visibility and registration follow the new value. The timer queue is `[now]` exactly when the face is now visible and interactive, and empty otherwise. |
| `WatchFaceEngine.AmbientModeChanged` | sunshinewearable/src/main/java/com/example/android/sunshine/app/SunshineWatchFaceService.java:243-260 | The mode becomes the new one. On a real change with low-bit ambient, all four text paints become anti-aliased exactly when interactive. Otherwise no anti-alias flag changes. The background paint is untouched. A redraw is requested only on a real change. The timer is then updated. |
| `WatchFaceEngine.PropertiesChanged` | sunshinewearable/src/main/java/com/example/android/sunshine/app/SunshineWatchFaceService.java:231-235 | Low-bit ambient is on exactly when the host reports it as true. An absent property means false. |
| `WatchFaceEngine.TimeTicked` | sunshinewearable/src/main/java/com/example/android/sunshine/app/SunshineWatchFaceService.java:237-241 | A time tick requests exactly one redraw. |
| `WatchFaceEngine.TimeZoneChanged` | sunshinewearable/src/main/java/com/example/android/sunshine/app/SunshineWatchFaceService.java:82-91 | A time-zone broadcast to the registered receiver requests one redraw. |
| `WatchFaceEngine.TimerFired` | sunshinewearable/src/main/java/com/example/android/sunshine/app/SunshineWatchFaceService.java:97-105 | A delivered timer message always requests a redraw and leaves the queue. A next message, due `now` plus the delay, is queued only if the timer should still run. |
| `WatchFaceEngine.Destroyed` | sunshinewearable/src/main/java/com/example/android/sunshine/app/SunshineWatchFaceService.java:159-163 | Destruction removes every pending timer message. |
| `WatchFaceEngine.Drawn` | sunshinewearable/src/main/java/com/example/android/sunshine/app/SunshineWatchFaceService.java:287-288 | A draw leaves the stored min and max temperatures (or null) in the engine's fields. |
| `WatchFaceEngine.InitialInvariant` | sunshinewearable/src/main/java/com/example/android/sunshine/app/SunshineWatchFaceService.java:139-153 | The created state satisfies the engine invariant. A tick is pending exactly when the timer should run, since none is pending and the face is hidden. |
| `WatchFaceEngine.StepKeepsInvariant` | sunshinewearable/src/main/java/com/example/android/sunshine/app/SunshineWatchFaceService.java:173-260 | Every callback keeps the invariant. Every callback except destruction keeps "a tick is pending exactly when the timer should run". No callback touches the background paint. |
| `WatchFaceEngine.VisibilityKeepsInvariant` | sunshinewearable/src/main/java/com/example/android/sunshine/app/SunshineWatchFaceService.java:173-207 | A visibility change keeps the engine invariant, and afterwards a tick is pending exactly when the timer should run. |
| `WatchFaceEngine.AmbientKeepsInvariant` | sunshinewearable/src/main/java/com/example/android/sunshine/app/SunshineWatchFaceService.java:243-260 | An ambient-mode change keeps the engine invariant, and afterwards a tick is pending exactly when the timer should run. |
| `WatchFaceEngine.TimerFiredKeepsInvariant` | sunshinewearable/src/main/java/com/example/android/sunshine/app/SunshineWatchFaceService.java:97-105 | A timer delivery keeps the engine invariant and keeps "a tick is pending exactly when the timer should run". |
| `WatchFaceEngine.RunKeepsInvariant` | sunshinewearable/src/main/java/com/example/android/sunshine/app/SunshineWatchFaceService.java:97-321 | After any sequence of callbacks, at most one tick is pending, and one only while visible and interactive. The four text paints agree on anti-aliasing. Register and unregister calls alternate, starting with register. The background paint is unchanged. |
| `WatchFaceEngine.RunKeepsTimerLive` | sunshinewearable/src/main/java/com/example/android/sunshine/app/SunshineWatchFaceService.java:316-329 | Until destruction, after any sequence of callbacks a tick is pending exactly while visible and interactive. |
| `WatchFaceEngine.AtMostOneTickPending` | sunshinewearable/src/main/java/com/example/android/sunshine/app/SunshineWatchFaceService.java:312-321 | From creation, no sequence of callbacks leaves more than one timer message pending. |
| `WatchFaceEngine.TimerRescheduleAligned` | sunshinewearable/src/main/java/com/example/android/sunshine/app/SunshineWatchFaceService.java:97-105 | A message the handler queues for itself is due on a whole second, after `now` and at most 1000 ms later. |
| `WatchFaceEngine.LowBitAmbientStyling` | sunshinewearable/src/main/java/com/example/android/sunshine/app/SunshineWatchFaceService.java:243-255 | While the display keeps reporting low-bit ambient, the text paints are anti-aliased exactly in interactive mode, whatever the callbacks. |
| `WatchFaceEngine.Engine.constructor` | sunshinewearable/src/main/java/com/example/android/sunshine/app/SunshineWatchFaceService.java:126-157 | Creation gives the initial state: four anti-aliased text paints and a plain background paint, all distinct. |
| `WatchFaceEngine.Engine.UpdateTimer` | sunshinewearable/src/main/java/com/example/android/sunshine/app/SunshineWatchFaceService.java:316-321 | Has the effect `TimerUpdated` describes. |
| `WatchFaceEngine.Engine.RegisterReceiver` | sunshinewearable/src/main/java/com/example/android/sunshine/app/SunshineWatchFaceService.java:192-199 | Has the effect `ReceiverRegistered` describes. |
| `WatchFaceEngine.Engine.UnregisterReceiver` | sunshinewearable/src/main/java/com/example/android/sunshine/app/SunshineWatchFaceService.java:201-207 | Has the effect `ReceiverUnregistered` describes. |
| `WatchFaceEngine.Engine.OnVisibilityChanged` | sunshinewearable/src/main/java/com/example/android/sunshine/app/SunshineWatchFaceService.java:173-190 | Keeps the engine invariant and has the effect `VisibilityChanged` describes. |
| `WatchFaceEngine.Engine.OnPropertiesChanged` | sunshinewearable/src/main/java/com/example/android/sunshine/app/SunshineWatchFaceService.java:231-235 | Keeps the invariant and has the effect `PropertiesChanged` describes. |
| `WatchFaceEngine.Engine.OnTimeTick` | sunshinewearable/src/main/java/com/example/android/sunshine/app/SunshineWatchFaceService.java:237-241 | Keeps the invariant and has the effect `TimeTicked` describes. |
| `WatchFaceEngine.Engine.TimeZoneReceiverOnReceive` | sunshinewearable/src/main/java/com/example/android/sunshine/app/SunshineWatchFaceService.java:82-91 | Keeps the invariant and has the effect `TimeZoneChanged` describes. |
| `WatchFaceEngine.Engine.OnAmbientModeChanged` | sunshinewearable/src/main/java/com/example/android/sunshine/app/SunshineWatchFaceService.java:243-260 | Keeps the invariant and has the effect `AmbientModeChanged` describes. Only the four text paints may change; the background paint stays as it was. |
| `WatchFaceEngine.Engine.HandleMessage` | sunshinewearable/src/main/java/com/example/android/sunshine/app/SunshineWatchFaceService.java:97-105 | Keeps the invariant and has the effect `TimerFired` describes. |
| `WatchFaceEngine.Engine.OnDestroy` | sunshinewearable/src/main/java/com/example/android/sunshine/app/SunshineWatchFaceService.java:159-163 | Keeps the invariant and has the effect `Destroyed` describes. |
| `WatchFaceEngine.Engine.OnDraw` | sunshinewearable/src/main/java/com/example/android/sunshine/app/SunshineWatchFaceService.java:262-310 | Returns the frame `Render` describes for the current mode, clock and store, and stores the read temperatures as `Drawn` describes. |

## Left out

- Decoding a message payload from bytes (`new String(byte[])`) depends on the platform's default charset. The receiver takes the decoded string.
- Logging (`Log.v`), the broadcast's intent action and `LocalBroadcastManager` delivery are left out. A broadcast is modelled by its key and value only.
- `Utility.getString` and `Utility.putString` persist through platform preferences. `Utility` is not part of this model; the store is a map handed to both components.
- All canvas drawing is left out: paint colours, typefaces, text sizes, `measureText`, and coordinate and offset arithmetic in floats. So is `onApplyWindowInsets`. Only what is drawn is modelled.
- The date line (`SimpleDateFormat("EEE, dd MMM yyyy")` upper-cased) and the divider line are left out. The date text depends on locale and library.
- The bitmap is not decoded or scaled. Only whether `Utility.StringToBitMap` succeeds is modelled, as a parameter, together with the target size.
- Time zones are left out: `mTime.clear`, `setToNow` and `calendar.setTimeZone`. Drawing takes the hour, minute and second as parameters.
- `WatchFaceStyle`, resources, and the OS's receiver registration are left out. Only the registered flag and the sequence of register/unregister calls remain.
- Real `Handler` and `Looper` timing is left out. The model does not decide when a due message is delivered.
- WatchFaceEngine.TimerRescheduleAligned: treats the handler's uptime clock as the wall clock. Its "due on a whole second" therefore holds only while the two clocks advance together; a wall-clock change or deep sleep breaks it.
- TimeText.DecimalString: assumes a default locale whose digits are `'0'` to `'9'`. `String.format` without a `Locale` uses the locale's own digits, zero padding included; an Arabic locale, for example, writes U+0660-based digits.
- TimeText.Pad2: assumes the same `'0'`-to-`'9'` locale, so the padding zero is `'0'`.
- TimeText.FormatTime: inherits the same locale assumption through `DecimalString` and `Pad2`.
- `WatchFaceEngine.Engine.HandleMessage` requires a pending message, because the looper calls the handler only for a message it has just taken off the queue. `TimerFired` covers the empty queue as "nothing delivered".
- `WatchFaceEngine.Engine.TimeZoneReceiverOnReceive` requires the receiver to be registered, since the platform delivers the broadcast to registered receivers only.
- `now` is an unbounded integer, not Java's 64-bit `long`. Wall-clock milliseconds are far from overflow, and `%` is modelled as Java's truncating remainder.
