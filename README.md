# Custom haptic pattern sequencer of the iOS haptics demo

This project models `CustomPatternRow` of the haptics demo app. This is the list row that plays one of two hand-authored CoreHaptics patterns, "Phone Ringing" or "Max Intensity". It has two parts:

- **Timeline builders.** `playRingingPattern` and `playMaxIntensityPattern` build an array of `CHHapticEvent`s by appending inside loops. Each event is a transient or continuous event with an intensity, a sharpness, a start offset and, for a continuous event, a duration. `PatternBuilder.BuildRingingEvents` and `PatternBuilder.BuildMaxIntensityEvents` do the same appends in the same loops. Each one is proved equal to a function that says which event stands at position `i`. The lemmas then prove:
  - the number of events and their order;
  - the exact offsets and parameters;
  - the bounds on intensity, sharpness and offsets;
  - that the reset delay outlasts every event.
- **Play/idle state machine.** `PlaybackSession.CustomPatternRow` is a class holding:
  - the row's `@State` fields `isPlaying` and `hapticEngine`;
  - the reset callback scheduled with `asyncAfter`, as a pending delay;
  - the calls the row has made into CoreHaptics, each recorded with the value `isPlaying` had at that moment.

  Its methods are `PrepareHaptics`, `PlayRingingPattern`, `PlayMaxIntensityPattern`, the button action `Press`, and `TimerFires`, which models the deferred callback.

Units and representation:
- Time is in whole milliseconds. Every constant of the app (0.05 s, 0.15 s, 0.25 s, 0.5 s, 1.2 s, 2.1 s, ...) is then an exact integer.
- Intensity and sharpness are Dafny `real`s.
- The number of rings and the ring length are parameters of the ringing builder. The app uses 3 and 1.2 s (`PatternBuilder.NumberOfRings` and `PatternBuilder.RingDuration`).

CoreHaptics is an oracle. The methods take its answers as parameters:
- whether the hardware supports haptics;
- whether engine creation and `start()` succeed;
- whether `CHHapticPattern(events:)`, `makePlayer(with:)` and `start(atTime:)` throw (`EngineOutcome`).

`hapticEngine` is optional. When no engine was ever created, `hapticEngine?.makePlayer` yields nil and `player?.start` is skipped, so neither can throw. The play then takes the success path: the row stays playing and schedules its reset (`Throws`, `EngineTrace`). A later failed re-creation, when the row appears again, keeps the earlier engine (`PrepareHaptics`).

Facts about the app's code that the model keeps:
- The reset delay is a written expression, not computed from the events. For the ringing pattern it is `numberOfRings·(ringDuration + 0.5)` = 5.1 s, while its last event ends at 4.45 s (`DefaultRingingTiming`). For the max-intensity pattern it is the literal 2.1 s, while its last event ends at 2.0 s.
- Events are not validated when they are built. The model proves that every event the builders emit is well formed.
- A play makes up to three CoreHaptics calls: pattern creation, player creation and player start. With a nil engine only the first of these happens.
- A ring has six events: one buzz, four pulses, one buzz.

## Model

| member | source | states |
|---|---|---|
| PatternBuilder.BuildRingingEvents | haptics/ContentView.swift:378-408 | The nested loops append exactly the ringing timeline. Position `i` holds slot `i % 6` of ring `i / 6`. |
| PatternBuilder.RingingRingContents | haptics/ContentView.swift:385-408 | There are 6 events per ring, so 6·n in all. Ring r occupies positions 6r..6r+5 and starts at s = r·(ringDuration+0.5). In order: a continuous buzz at s (0.2 s, intensity 1.0, sharpness 0.8); four transients at s+0.25, s+0.40, s+0.55, s+0.70 (intensity 0.9, sharpness 1.0); a continuous buzz at s+0.85 like the first. |
| PatternBuilder.RingingWellFormed | haptics/ContentView.swift:386-406 | For any ring count and ring length, every ringing event has intensity and sharpness in [0,1] and a start offset ≥ 0. Continuous events have a positive duration. |
| PatternBuilder.RingingStartsStrictlyIncreasing | haptics/ContentView.swift:385-407 | Start offsets increase strictly in append order, across ring boundaries too. This needs ring length + 0.5 s > 0.85 s, which the app's 1.2 s meets. |
| PatternBuilder.RingingTimelineEnd | haptics/ContentView.swift:386-407 | With at least one ring, the timeline ends with the last ring's second buzz, at (n−1)·(ringDuration+0.5) + 1.05 s. |
| PatternBuilder.RingingResetCovers | haptics/ContentView.swift:415-416 | The reset delay n·(ringDuration+0.5) is at least the end of every event if and only if n = 0 or ring length + 0.5 s ≥ 1.05 s. |
| PatternBuilder.DefaultRingingFirstRing | haptics/ContentView.swift:382-407 | With 3 rings of 1.2 s there are 18 events. The first six are a buzz at 0, pulses at 0.25/0.40/0.55/0.70 s and a buzz at 0.85 s. |
| PatternBuilder.DefaultRingingTiming | haptics/ContentView.swift:382-416 | With 3 rings of 1.2 s, the second ring's first buzz is at 1.7 s, the last event ends at 4.45 s, and the reset fires at 5.1 s. |
| PatternBuilder.BuildMaxIntensityEvents | haptics/ContentView.swift:430-469 | The straight-line code and its two ten-step loops append exactly the 23-event max-intensity timeline. |
| PatternBuilder.MaxIntensityShape | haptics/ContentView.swift:435-469 | The max-intensity timeline has 23 events, in this order: a continuous event at 0 (0.5 s); ten transients at i·0.05 s; a continuous event at 0.6 s (0.5 s); ten transients at 0.6 + i·0.05 s; a continuous event at 1.2 s (0.8 s). |
| PatternBuilder.MaxIntensityWellFormed | haptics/ContentView.swift:436-468 | Every max-intensity event is well formed, with intensity = sharpness = 1.0. |
| PatternBuilder.MaxIntensityStartsNonDecreasing | haptics/ContentView.swift:438-468 | Max-intensity start offsets never decrease in append order. |
| PatternBuilder.MaxIntensityResetCovers | haptics/ContentView.swift:468-476 | The max-intensity timeline ends at exactly 2.0 s, strictly before the 2.1 s reset delay. |
| PlaybackSession.PatternsFitResetDelay | haptics/ContentView.swift:410-478 | For both patterns the app plays, every event is well formed and ends no later than that pattern's reset delay. |
| PlaybackSession.EngineTraceShape | haptics/ContentView.swift:410-414 | A play attempt calls pattern creation first. It starts the player only when there is an engine and neither pattern nor player creation threw. With no engine it makes only the pattern-creation call, so only that call can fail the attempt. |
| PlaybackSession.CustomPatternRow.constructor | haptics/ContentView.swift:301-304 | A new row is idle and has no engine, no pending reset and no engine calls. |
| PlaybackSession.CustomPatternRow.PrepareHaptics | haptics/ContentView.swift:362-371 | Without haptics hardware nothing changes. If engine creation throws, `hapticEngine` keeps its old value. If `start()` throws, the new engine is kept but is not running. The play state is untouched. |
| PlaybackSession.CustomPatternRow.SubmitToEngine | haptics/ContentView.swift:410-422 | Called only once the row is playing. It makes exactly the calls of `EngineTrace`, stopping at the first throw. It reports a throw exactly when `Throws` holds: pattern creation failed, or an engine exists and player creation or start failed. |
| PlaybackSession.CustomPatternRow.PlayRingingPattern | haptics/ContentView.swift:373-423 | Unsupported hardware: nothing changes. Otherwise every engine call happens with `isPlaying` already true. A throw leaves the row idle with no reset pending. Otherwise the row is playing with a 5.1 s reset pending; this includes the nil-engine case. |
| PlaybackSession.CustomPatternRow.PlayMaxIntensityPattern | haptics/ContentView.swift:425-483 | The same as the ringing pattern, with the 23-event timeline and a 2.1 s reset. |
| PlaybackSession.CustomPatternRow.Press | haptics/ContentView.swift:316-331 | A press while playing changes nothing and calls no engine. Otherwise the row plays its own pattern with the outcomes above. The invariant "a reset is pending iff playing" and "every engine call happened while playing" is kept. |
| PlaybackSession.CustomPatternRow.TimerFires | haptics/ContentView.swift:416-418 | The scheduled callback sets the row to idle and clears the pending reset. Nothing else changes. |
| PlaybackSession.PlayUntilReset | haptics/ContentView.swift:316-423 | The press sequence on haptics hardware. After a press, the row is playing (with its pattern's reset delay pending) exactly when nothing threw, a nil engine included. A second press makes no engine calls exactly when the first one left the row playing. After the reset fires, the row is idle. |

## Left out

- SwiftUI layout, icons, colours, navigation and the preview: presentation only.
- The enum tables `feedbackStyle`, `feedbackType`, `iconFill` and `iconColor`: fixed mappings to platform constants.
- The one-shot UIKit feedback generators (`playHaptic`, `playNotificationHaptic`, `playSelectionHaptic`): foreign calls with no logic.
- CoreHaptics itself (`capabilitiesForHardware`, `CHHapticEngine`, `CHHapticPattern`, `makePlayer`, `start(atTime:)`). These are an oracle: their answers are method parameters, and the model records the calls made. Whether the engine accepts a given event list is not modelled.
- Wall-clock time, the main dispatch queue and the background/suspend behaviour of `asyncAfter`. The reset is a pending delay that fires only when `TimerFires` is called.
- IEEE-754 rounding of `TimeInterval`. Times are exact integer milliseconds, so whether 0.25 + 3·0.15 equals 0.7 bit for bit in a `Double` is not modelled.
- Console logging with `print` on engine errors.
- `.disabled(isPlaying)` on the button: the same guard as the `if !isPlaying` check, modelled once in `Press`.
- PlaybackSession.CustomPatternRow.PlayRingingPattern: requires the row to be idle. Its only caller, the button action, checks `!isPlaying` first. Calling it while playing would schedule a second reset callback, which the model does not represent.
- PlaybackSession.CustomPatternRow.PlayMaxIntensityPattern: requires the row to be idle, for the same reason.
- A row playing a zero-ring pattern: the row always plays 3 rings, so this case cannot arise in the app. Only the builder takes the ring count as a parameter; with zero rings it returns no events and the reset delay is 0.
