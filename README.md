# react-native-scanner core, modelled in Dafny

This project models the core of the `react-native-scanner` camera barcode
scanner. It covers three parts:

- **The barcode frame lifecycle store** (`ios/BarcodeFrameManager.swift`),
  module `FrameLifecycle`, class `BarcodeFrameManager`.
  - The store keeps one frame (a rectangle and a last-seen time) per decoded
    payload.
  - Each detection update refreshes the payloads it names and drops every
    other one at once.
  - A single cleanup timer drops frames not seen for `frameTimeout`
    seconds, and re-arms itself while frames remain.
  - Every update that leaves frames re-arms the timer `frameTimeout` after
    the moment all those frames were seen. An update with an empty
    detection leaves any pending timer as it was. Either way the store
    invariant guarantees that a fired timer finds every frame stale.
  - Observers are notified with a snapshot of the tracked rectangles. The
    model records these snapshots in a ghost log.
- **The iOS value types** (`ios/Models.swift`), modules `Models` and
  `HexColor`:
  - barcode formats and their Vision symbologies;
  - the scan strategy;
  - the focus-area frame size;
  - the focus-area and barcode-frame prop configurations decoded from bridge
    dictionaries;
  - the detection, error and load event payloads encoded into dictionaries;
  - the channel arithmetic of `UIColor(hexString:)`.
- **The Android prop setters** (`android/src/main/java/com/scanner/ScannerViewManager.kt`),
  module `ScannerViewManager`.
  - Each setter reads its prop and forwards it to the scanner view.
  - The view is an object that records the setter calls it receives, in
    order.
  - A read from a React Native `ReadableMap` is modelled abstractly: it
    either returns a value or raises.

Module `BridgeValues` holds what both platforms share:

- `Option`;
- the dynamically typed bridge value `Value`;
- the rectangle `Rect`.

In `ios/BarcodeFrameManager.swift`, the bodies of the manager's methods are
comments describing their implementation:

- `updateBarcodeFrames`, `clearAllFrames`, `scheduleCleanup`,
  `cleanupStaleFrames` and `notifyFramesChanged` list numbered steps.
- `getActiveFrames` (lines 57-60) has a one-line comment about
  thread-safe access to the frames and returns an empty array as a placeholder.
- `shutdown` (lines 71-73) has a one-line comment: stop the timer and
  release the frames.
- `deinit` (lines 101-104) has real code: it invalidates the timer.

The model implements what those comments describe. `GetActiveFrames`
returns the tracked rectangles rather than the placeholder's empty array.

- Time is explicit. Every operation that reads the clock takes `now`, in
  seconds.
- A frame is stale once `now - lastSeenTime >= frameTimeout`. This is how
  the model reads "older than timeout" (step 2 at
  `ios/BarcodeFrameManager.swift:88`), with the boundary counted as stale.
  The boundary matters only at the exact fire instant. There it is
  harmless: `lastSeenTime` is stamped in update step 1, before step 3
  schedules the timer, so a frame seen in that update has reached
  `frameTimeout` exactly when the timer fires.
- The cleanup timer is kept as its pending fire time (`Option<real>`). So
  there is never more than one pending timer.
- `CleanupStaleFrames` may only run while a timer is pending, at or after
  its fire time. Therefore a cancelled timer can never fire.
- `clearAllFrames` notifies observers every time, even when the store is
  already empty. Step 3 at `ios/BarcodeFrameManager.swift:67` notifies
  unconditionally.
- `shutdown` stops the timer and empties the store without notifying. The
  code keeps no "shut down" flag, so an update after `Shutdown` behaves
  like any other update.

## Model

| member | source | states |
|---|---|---|
| BridgeValues.Rect.Standardized | ios/Models.swift:205-211 | the rectangle with non-negative width and height and the same min/max edges, which are what the detection event reports |
| HexColor.TrimNonAlphanumerics | ios/Models.swift:307 | the result is a contiguous slice of the input with only non-alphanumerics outside it; it is empty or starts and ends with an alphanumeric; it is empty exactly when the input has no alphanumeric; an input with nothing to trim is returned unchanged |
| HexColor.TrimBothEnds | ios/Models.swift:307 | what is left after trimming both ends is a slice of the input with only non-alphanumerics cut away, starts and ends with an alphanumeric, and is empty exactly when the input has none |
| HexColor.TrimIsIdempotent | ios/Models.swift:307 | trimming twice is trimming once |
| HexColor.TrimIgnoresHashPrefix | ios/Models.swift:307 | a leading `#` does not change the trimmed text |
| HexColor.HexValueBound | ios/Models.swift:308-309 | n hexadecimal digits denote a value below 16^n |
| HexColor.ScanHexInt | ios/Models.swift:308-309 | the scanned value (optional `0x` prefix, then the leading hex digits) is below 16^(length of the string) |
| HexColor.ScanHexIntOfDigits | ios/Models.swift:309 | a string made only of hex digits scans to its full hexadecimal value |
| HexColor.LeadingHexDigitsOfHex | ios/Models.swift:309 | the scan stops nowhere inside a string of hex digits |
| HexColor.ChannelsFor | ios/Models.swift:311-321 | for a value that fits in the trimmed length, every channel is a byte |
| HexColor.HexChannels | ios/Models.swift:306-321 | every channel (alpha, red, green, blue) is a byte, for every input string |
| HexColor.HexChannelsIgnoresHash | ios/Models.swift:307 | a leading `#` does not change the colour |
| HexColor.HexChannelsOfDigits | ios/Models.swift:307-312 | a string of hex digits is not trimmed and is scanned whole, so its channels are those of its full value |
| HexColor.ThreeDigitChannels | ios/Models.swift:313-314 | `RGB` gives opaque alpha and each channel as its digit times 17; a leading `#` changes nothing |
| HexColor.SixDigitChannels | ios/Models.swift:315-316 | `RRGGBB` gives opaque alpha and the three digit pairs as red, green and blue; a leading `#` changes nothing |
| HexColor.EightDigitChannels | ios/Models.swift:317-318 | `AARRGGBB` is read as ARGB: the first pair is alpha, then red, green and blue; a leading `#` changes nothing |
| HexColor.OtherLengthIsOpaqueBlack | ios/Models.swift:319-320 | any trimmed length other than 3, 6 or 8 gives opaque black |
| Models.FormatFromRawValue | ios/Models.swift:15-27 | a parsed format has exactly the raw value that was parsed |
| Models.FormatRawValueRoundTrip | ios/Models.swift:15-27 | every format's raw value parses back to that format |
| Models.VisionSymbology | ios/Models.swift:29-43 | the Vision symbology is `upce` exactly for UPC-A and UPC-E |
| Models.VisionSymbologyMergesOnlyUpc | ios/Models.swift:36-37 | two different formats share a symbology only if they are UPC-A and UPC-E |
| Models.AllFormats | ios/Models.swift:46-48 | lists eleven formats, every format, each once |
| Models.StrategyFromRawValue | ios/Models.swift:54-58 | a parsed strategy has exactly the raw value that was parsed |
| Models.StrategyRawValueRoundTrip | ios/Models.swift:54-58 | every strategy's raw value parses back to that strategy |
| Models.DefaultStrategy | ios/Models.swift:60 | the default strategy is the one whose raw value is `ALL`, and `ALL` parses to it |
| Models.SizeOf | ios/Models.swift:71-78 | a square's size is as wide as it is high; a rectangle keeps its width and height |
| Models.FrameSizeFrom | ios/Models.swift:81-90 | a number gives a square of that size; a dictionary gives a rectangle exactly when it has numeric `width` and `height`; any other value gives the 300-point square |
| Models.FrameSizeRoundTrip | ios/Models.swift:81-90 | decoding the prop value of a frame size gives that frame size back |
| Models.BoolEntry | ios/Models.swift:120-126 | a boolean entry is taken when present and boolean, otherwise the fallback |
| Models.ColorEntry | ios/Models.swift:132-138 | a string entry becomes the colour made from that hex string, otherwise the fallback |
| Models.PositionEntry | ios/Models.swift:140-144 | a position dictionary with numeric `x` and `y` becomes that point, otherwise the fallback |
| Models.FocusAreaConfigFrom | ios/Models.swift:117-147 | each field takes its entry when that entry has the right type (colours as made from their hex string), and otherwise keeps the default |
| Models.FocusAreaConfigFromEmpty | ios/Models.swift:105-118 | an empty dictionary decodes to the default configuration (disabled, no overlay, 300-point square, clear border, half-transparent black tint, position 50/50) |
| Models.FocusAreaConfigKeyIsolation | ios/Models.swift:117-147 | setting one entry changes at most the field that entry names |
| Models.BarcodeFramesConfigFrom | ios/Models.swift:168-184 | each field takes its well-typed entry, and otherwise keeps the default |
| Models.BarcodeFramesConfigFromEmpty | ios/Models.swift:159-169 | an empty dictionary decodes to the default (disabled, yellow, not only in the focus area) |
| Models.DetectionResultToDictionary | ios/Models.swift:198-219 | the keys are `data`, `format` and `timestamp`, plus `boundingBox` and `area` exactly when present |
| Models.DetectionResultRoundTrip | ios/Models.swift:198-219 | decoding the event gives the result back with its box standardized; it gives the result back unchanged exactly when there is no box or the box's width and height are non-negative |
| Models.ErrorCodeFromRawValue | ios/Models.swift:271-277 | a parsed error code has exactly the raw value that was parsed |
| Models.ScannerErrorFrom | ios/Models.swift:280-282 | the message is kept and the stored code parses back to the given code |
| Models.ScannerErrorToDictionary | ios/Models.swift:263-268 | exactly the keys `error` and `code` |
| Models.ScannerErrorRoundTrip | ios/Models.swift:263-268 | the error event decodes back to the same error |
| Models.LoadEventToDictionary | ios/Models.swift:293-299 | `success` always, `error` exactly when there is one |
| Models.LoadEventRoundTrip | ios/Models.swift:293-299 | the load event decodes back to the same payload |
| FrameLifecycle.IsStale | ios/BarcodeFrameManager.swift:88 | a frame is stale exactly when `frameTimeout` or more has passed since it was last seen |
| FrameLifecycle.StaleStaysStale | ios/BarcodeFrameManager.swift:88 | a frame stale at one moment is stale at every later moment |
| FrameLifecycle.Refreshed | ios/BarcodeFrameManager.swift:47-53 | the store after an update holds exactly the detected payloads, each with its detected rectangle and last seen at the update time |
| FrameLifecycle.WithoutStale | ios/BarcodeFrameManager.swift:85-91 | the store after a cleanup holds exactly the frames that are not stale, unchanged |
| FrameLifecycle.BarcodeFrameManager.constructor | ios/BarcodeFrameManager.swift:38-41 | empty store, no timer, nothing notified, timeout as given (1 second by default) |
| FrameLifecycle.BarcodeFrameManager.UpdateBarcodeFrames | ios/BarcodeFrameManager.swift:47-53 | the store becomes the refreshed detection, so every payload absent from the update is gone at once however recently it was seen; a non-empty result re-arms the timer `frameTimeout` from now; exactly one notification, holding a snapshot of the new store; the store invariant (frames imply a pending timer that fires no earlier than any frame expires) is kept |
| FrameLifecycle.BarcodeFrameManager.RefreshDetected | ios/BarcodeFrameManager.swift:49 | every detected payload is added or refreshed with its new rectangle and time; every other entry stays, with its frame unchanged |
| FrameLifecycle.BarcodeFrameManager.RemoveUndetected | ios/BarcodeFrameManager.swift:50 | every payload missing from the detection is removed; the others keep their frames |
| FrameLifecycle.BarcodeFrameManager.GetActiveFrames | ios/BarcodeFrameManager.swift:57-60 | the result is a snapshot: one rectangle per tracked payload, each as often as payloads show it |
| FrameLifecycle.BarcodeFrameManager.ClearAllFrames | ios/BarcodeFrameManager.swift:63-68 | timer cancelled, store empty, one notification with no rectangles |
| FrameLifecycle.BarcodeFrameManager.Shutdown | ios/BarcodeFrameManager.swift:71-73 | timer cancelled, store empty, nothing notified |
| FrameLifecycle.BarcodeFrameManager.ScheduleCleanup | ios/BarcodeFrameManager.swift:78-82 | the pending timer, if any, is replaced by one firing `frameTimeout` from now |
| FrameLifecycle.BarcodeFrameManager.CleanupStaleFrames | ios/BarcodeFrameManager.swift:85-91 | stale frames removed and nothing else; one notification exactly when something was stale; re-armed exactly when frames remain, otherwise no timer; since the invariant puts the fire time no earlier than any frame's expiry, a fired timer leaves the store empty |
| FrameLifecycle.BarcodeFrameManager.NotifyFramesChanged | ios/BarcodeFrameManager.swift:94-99 | appends one snapshot of the current store to the notifications |
| FrameLifecycle.RefreshedIsUnique | ios/BarcodeFrameManager.swift:47-53 | a store holding exactly the detected payloads, refreshed, is the refreshed store |
| FrameLifecycle.ShowingStep | ios/BarcodeFrameManager.swift:57-60 | collecting one more payload adds one occurrence of its own rectangle and of no other |
| FrameLifecycle.SnapshotMembership | ios/BarcodeFrameManager.swift:57-60 | a snapshot contains a rectangle exactly when some tracked payload shows it |
| FrameLifecycle.SnapshotIsUniqueUpToOrder | ios/BarcodeFrameManager.swift:57-60 | two snapshots of one store differ at most in order |
| FrameLifecycle.SnapshotOfEmpty | ios/BarcodeFrameManager.swift:63-68 | the only snapshot of an empty store is the empty list |
| FrameLifecycle.NoPrematureExpiry | ios/BarcodeFrameManager.swift:88 | a cleanup less than `frameTimeout` after an update removes nothing and does not notify |
| FrameLifecycle.ExpiryAfterTimeout | ios/BarcodeFrameManager.swift:88 | a cleanup `frameTimeout` or more after the last update removes all of its frames, and notifies if there were any |
| FrameLifecycle.WithoutStaleIsIdempotent | ios/BarcodeFrameManager.swift:85-91 | a second cleanup at the same moment removes nothing |
| ScannerViewManager.FrameSizeFor | android/src/main/java/com/scanner/ScannerViewManager.kt:74-85 | a number gives a square; a map gives a rectangle; it raises exactly when reading the type, the number, or the map's width or height raises; any other type gives the 300 square |
| ScannerViewManager.ColorCalls | android/src/main/java/com/scanner/ScannerViewManager.kt:60-66 | a border or tint colour setter is called exactly when that colour is present, at most once each |
| ScannerViewManager.ForwardColors | android/src/main/java/com/scanner/ScannerViewManager.kt:60-66 | the view receives exactly those colour calls |
| ScannerViewManager.ForwardFlagsAndColors | android/src/main/java/com/scanner/ScannerViewManager.kt:56-66 | the view receives the enabled flag, the overlay flag, then the colour calls, and nothing else |
| ScannerViewManager.ForwardFocusArea | android/src/main/java/com/scanner/ScannerViewManager.kt:56-86 | after the six reads, the view receives the calls of `ForwardedEffect` and the step raises exactly when it says so |
| ScannerViewManager.ForwardPosition | android/src/main/java/com/scanner/ScannerViewManager.kt:68-72 | with a position map, the position is set exactly when reading `x` and `y` succeeds, and the setter raises otherwise; without one, no call |
| ScannerViewManager.ForwardFrameSize | android/src/main/java/com/scanner/ScannerViewManager.kt:74-86 | the frame size chosen by the size's type is set once, unless reading the type, the number, or a map's width or height raises |
| ScannerViewManager.FocusAreaOutcome | android/src/main/java/com/scanner/ScannerViewManager.kt:47-90 | of the calls `setFocusArea` makes (`FocusAreaEffect`): null makes no call and does not raise; otherwise it raises exactly when one of its reads raises; any call made starts with the enabled and overlay flags; without a raise the frame size is the last call |
| ScannerViewManager.SetFocusAreaProp | android/src/main/java/com/scanner/ScannerViewManager.kt:47-90 | the view receives the focus-area calls, in order, and the setter raises exactly when a read raises |
| ScannerViewManager.NullFocusAreaCallsNothing | android/src/main/java/com/scanner/ScannerViewManager.kt:47-48 | a null focus area makes no call |
| ScannerViewManager.FocusAreaForwarding | android/src/main/java/com/scanner/ScannerViewManager.kt:56-86 | when every read succeeds: the calls are exactly the two flags, then the colours present, then the position if present, then the frame size |
| ScannerViewManager.FailedEagerReadCallsNothing | android/src/main/java/com/scanner/ScannerViewManager.kt:48-55 | a failed read of one of the first five entries raises before any setter is called |
| ScannerViewManager.FocusAreaLateRaise | android/src/main/java/com/scanner/ScannerViewManager.kt:56-86 | once the five eager reads succeed, the calls begin with the two flags and the colours present; a failed `x` or `y` read raises right after them; a failed size read raises after the position call, and the frame size is never set |
| ScannerViewManager.PositionWithoutYStopsAfterColors | android/src/main/java/com/scanner/ScannerViewManager.kt:56-72 | a position map with `x` and no `y`: the flags and the border colour are set, then the setter raises without setting the position or the frame size |
| ScannerViewManager.BarcodeFramesEffect | android/src/main/java/com/scanner/ScannerViewManager.kt:94-110 | null makes no call; when the reads succeed, exactly the enabled flag, the only-in-focus-area flag and, when present, the colour are set, in that order; a failed read raises before any call |
| ScannerViewManager.SetBarcodeFramesProp | android/src/main/java/com/scanner/ScannerViewManager.kt:94-110 | the view receives exactly those calls, and the setter raises exactly when a read raises |
| ScannerViewManager.SetTorchProp | android/src/main/java/com/scanner/ScannerViewManager.kt:113-116 | one torch call with the value |
| ScannerViewManager.SetZoomProp | android/src/main/java/com/scanner/ScannerViewManager.kt:138-141 | one zoom call with the value, when there is a view |
| ScannerViewManager.SetPauseScanningProp | android/src/main/java/com/scanner/ScannerViewManager.kt:143-150 | `true` pauses and `false` resumes, with no other call |
| ScannerViewManager.StrategyOrDefault | android/src/main/java/com/scanner/ScannerViewManager.kt:154 | a missing strategy becomes `ALL`; a given one is passed as is |
| ScannerViewManager.MissingStrategyIsIosDefault | android/src/main/java/com/scanner/ScannerViewManager.kt:154 | the Android fallback strategy parses to the iOS default strategy |
| ScannerViewManager.SetBarcodeScanStrategyProp | android/src/main/java/com/scanner/ScannerViewManager.kt:152-155 | one strategy call with the strategy or its fallback |
| ScannerViewManager.SetKeepScreenOnProp | android/src/main/java/com/scanner/ScannerViewManager.kt:157-160 | one keep-screen-on call with the value |
| ScannerViewManager.ClampEmissionInterval | android/src/main/java/com/scanner/ScannerViewManager.kt:170-180 | the forwarded interval is never negative: a negative one becomes 0, and 0 or more passes unchanged |
| ScannerViewManager.ClampIsIdempotent | android/src/main/java/com/scanner/ScannerViewManager.kt:170-180 | clamping an already-clamped interval changes nothing |
| ScannerViewManager.SetBarcodeEmissionIntervalProp | android/src/main/java/com/scanner/ScannerViewManager.kt:162-183 | one interval call with the clamped interval, when there is a view |
| ScannerViewManager.DoubleToInt | android/src/main/java/com/scanner/ScannerViewManager.kt:76 | a 32-bit result; truncation toward zero within range, saturation outside it |
| ScannerViewManager.FrameSizePlatformsAgree | android/src/main/java/com/scanner/ScannerViewManager.kt:74-85 | iOS and Android decode one size prop alike, up to Android's truncation to whole points; the exception is a map without numeric `width` and `height`, where iOS falls back to the 300-point square and Android raises |

## Left out

- Concurrency:
  - the manager's concurrent dispatch queue;
  - delivery of notifications on the main thread;
  - the weak delegate reference.

  All operations are modelled as atomic. The delegate and the `onFramesChanged` callback are merged into a single notification log.
- The clock (`Date()`) and the run-loop `Timer` are not modelled. Time is a parameter, and the timer is its fire time. The `deinit` timer invalidation is the timer half of `Shutdown`.
- A call to `updateBarcodeFrames` after `shutdown` is not silenced. The code has no state that could do so.
- Floating point is not modelled:
  - `CGFloat`, `TimeInterval` and Kotlin `Double` are mathematical reals;
  - NaN and infinities are not represented;
  - the final division of the colour channels by 255 is omitted;
  - the `toFloat()` narrowing of position and zoom on Android is omitted.
- `CharacterSet.alphanumerics` is restricted to ASCII letters and digits. Unicode letters and digits are not modelled.
- HexColor.HexChannels: the trimmed length is counted in characters, not in Swift's grapheme clusters (`hex.count`, `ios/Models.swift:312`). An interior `\r\n` or a combining mark is one cluster but two characters, so it can change which case is taken. For example, `#AB\r\nCDEF` has 7 clusters and is opaque black in Swift, while the model counts 8 and reads it as ARGB. Grapheme segmentation needs Unicode tables that this model does not have.
- `Scanner.scanHexInt64` is modelled without its 64-bit overflow. The scanned value is only used for trimmed lengths 3, 6 and 8, which cannot overflow.
- The bridge's `NSNumber` boxing is not modelled. A JavaScript boolean is never read as a number, and a number is never read as a boolean.
- `BarcodeDetectionResult.from(observation:boundingBox:format:)` (`ios/Models.swift:222-239`) is not modelled. It reads a Vision observation and the clock.
- ScannerViewManager.DynamicOf states host-library behaviour as an assumption. It assumes React Native's `Dynamic.type` and `Dynamic.asInt()` do not raise for a present entry, that `asInt()` and `getInt` truncate like `Double.toInt()`, and that `getInt` raises on a missing or non-numeric entry. Every setter's own model takes the reads' outcomes as inputs, including a raising `type` or `asInt()` read, and makes no such assumption.
- `setBarcodeTypes` and the three event-handler props (`onBarcodeScanned`, `onScannerError`, `onLoad`) only write to the log on Android. The same holds for the log lines in the other setters.
- `getExportedCustomBubblingEventTypeConstants`, `getName`, `getDelegate` and `createViewInstance` are framework wiring with no behaviour to model.
- The ScannerView is seen only through the calls it receives. Its camera, ML Kit analysis and rendering are not part of this model.
