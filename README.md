# Ground-station telemetry: fusion, recording and playback in Dafny

This project models the core of a rocket ground-station dashboard. The core
fuses two telemetry feeds, records the fused stream and plays a recording back:

- **Source adapters** (`MockLoRaService`, `MockRtkService`). Each has a
  connection flag, at most one stream timer, a latest-sample slot and an
  append-only listener list. The two classes have the same lifecycle code,
  so the one generic class `SourceAdapter.Adapter<S>` models both. It is
  used as `Adapter<RocketTelemetry>` (LoRa, the attitude feed) and as
  `Adapter<RtkData>` (RTK GPS, the position feed).
- **Fusion coordinator** (`TelemetryManagerService`, module `Fusion`). It
  has two overwrite-only slots. Each incoming sample recomputes a combined
  record. The record is captured into the recording store while that store
  is armed, and then handed to every subscriber in registration order.
- **Recording store** (`FileLoggingService`, module `Recording`). An
  Idle/Armed machine with an append-only entry list. It can reload a
  recording by matching its path, and it exports CSV with a fixed 25-column
  header.
- **Playback scheduler and mode controller** (`TelemetryProvider`, module
  `Playback`). The provider's state cells are class fields. Each handler is
  one method, together with the effects its state change triggers: loading
  a log, play, pause, seek, the playback timer's tick, and switching between
  live and playback mode.
- **Chart windowing** (`TelemetryCharts`, module `Charts`). Live mode uses a
  sliding buffer of at most 100 points. Playback uses an integer window of
  log indices centred on the cursor. This module also holds the per-panel
  chart selection.

Callbacks are known to the model only by their identities (`ListenerId`). A
notify loop returns the calls it makes (`Telemetry.Fanout`). The
coordinator's publication returns its effects in order: the capture into the
recording, then one delivery per subscriber. The provider's constructor
performs the mount-time wiring. It registers the coordinator's handlers on
both adapters and the provider's subscription on the coordinator, then
connects both adapters and starts both streams. `TelemetryProvider.Valid()`
states what stays true from then on:

- the coordinator's slots equal the adapters' latest samples;
- the adapters stream exactly in live mode;
- the logging flag mirrors the store;
- in playback mode, while the cursor is below the log length, the
  published record is the one under the cursor.

Plain getters (`isConnected`, `isLogging` of the store, `getLogFilePath`)
are the fields themselves.

Where the written design and the code differ, the model follows the code:

- Seeking does not clamp. A record is published only when the index is
  below the log length.
- Leaving live mode with an empty log keeps the last live record on
  display. The design says the display becomes empty.
- Loading a non-empty log publishes its first record. Each tick then
  publishes the next one. Playback stops on the tick after the last record,
  and that tick only clears the playing flag.
- Switching to live mode does not clear the playing flag. It only stops the
  ticks. Returning to playback therefore resumes ticking.
- The combined timestamp counts an empty slot as 0. This differs from "the
  newest held timestamp" only for negative timestamps
  (`Fusion.NegativeStampLosesToAbsentSlot`).
- Loading an unknown path yields an empty log, not an error. The mock
  adapters' connect cannot fail.
- The provider's subscription captured the mode of the first render
  (live), so it forwards every record. Playback is protected only because
  the streams are stopped.

## Model

| member | source | states |
|---|---|---|
| `Telemetry.FanoutCallsEachOnceInOrder` | src/lib/services/loraService.ts:61-65 | a notification calls every registered listener exactly once, in registration order, each with the same data |
| `Telemetry.FanoutExtends` | src/lib/services/rtkService.ts:57-65 | since registration only appends, the calls for earlier listeners come first and are unaffected by later registrations |
| `SourceAdapter.Adapter.constructor` | src/lib/services/loraService.ts:9-12 | a new adapter is disconnected, has no timer, no listeners and no latest sample |
| `SourceAdapter.Adapter.Connect` | src/lib/services/loraService.ts:14-19 | connect always sets the flag and returns true, touching nothing else |
| `SourceAdapter.Adapter.Disconnect` | src/lib/services/loraService.ts:21-26 | disconnect stops the stream, clears the flag and returns true |
| `SourceAdapter.Adapter.GetLatestData` | src/lib/services/loraService.ts:32-34 | the slot is empty until the first tick, then holds the last emitted sample |
| `SourceAdapter.Adapter.StartDataStream` | src/lib/services/loraService.ts:36-48 | a running timer is kept (no second interval); otherwise a 1000 ms timer starts; the connection flag is neither read nor changed |
| `SourceAdapter.Adapter.StopDataStream` | src/lib/services/rtkService.ts:50-55 | afterwards there is no timer, whatever the state before (idempotent) |
| `SourceAdapter.Adapter.OnDataReceived` | src/lib/services/rtkService.ts:57-59 | registration appends exactly one listener and removes none |
| `SourceAdapter.Adapter.Tick` | src/lib/services/rtkService.ts:43-47 | a timer firing (only while a timer exists) stores the sample as latest, extends the emitted history, then calls every listener once in order |
| `SourceAdapter.Adapter.NotifyListeners` | src/lib/services/loraService.ts:61-65 | the loop makes one call per listener, the i-th to the i-th registered listener |
| `SourceAdapter.EulerCounter` | src/lib/services/loraService.ts:71 | `floor(now/1000) % 10000` with JavaScript's sign-following remainder: in [0, 9999] for non-negative `now`, in [-9999, 0] for negative `now`, congruent to the seconds count |
| `SourceAdapter.EulerCounterAdvancesPerPeriod` | src/lib/services/loraService.ts:43-71 | one 1000 ms sampling period advances the counter by one, wrapping from 9999 to 0 |
| `Recording.FileLoggingService.constructor` | src/lib/services/loggingService.ts:8-10 | a new store is idle, empty and has no path |
| `Recording.FileLoggingService.StartLogging` | src/lib/services/loggingService.ts:12-21 | from idle: armed, empty entry list, fresh path; already armed: nothing changes |
| `Recording.FileLoggingService.StopLogging` | src/lib/services/loggingService.ts:23-34 | afterwards idle; entries and path are kept (a no-op when idle) |
| `Recording.FileLoggingService.AddLogEntry` | src/lib/services/loggingService.ts:47-56 | armed: exactly one entry appended at the end, stamped with the record's timestamp; idle: ignored |
| `Recording.FileLoggingService.LoadLogFile` | src/lib/services/loggingService.ts:58-71 | the entries' records in capture order iff the store is non-empty and the path matches; otherwise the empty log |
| `Recording.FileLoggingService.ExportCsv` | src/lib/services/loggingService.ts:73-126 | the loop's text is the header line followed by one row line per entry, in order |
| `Recording.CaptureSession` | src/lib/services/loggingService.ts:12-71 | arm, offer n records, disarm, reload by the session path: the same n records in order; the export has n+1 lines |
| `Recording.EntryData` | src/lib/services/loggingService.ts:65 | the reload's map keeps length and order, taking each entry's record |
| `Recording.CsvCells` | src/lib/services/loggingService.ts:94-120 | a row has 25 fields in header order: the timestamp, then each of the 18 LoRa values in its own column and each of the 6 RTK values in its own column, empty when the sample is absent or the value is 0; no later field is a rendered 0 |
| `Recording.HeaderHas25Fields` | src/lib/services/loggingService.ts:78-87 | the header line has 25 names (24 commas) and one newline |
| `Recording.RowHas25Fields` | src/lib/services/loggingService.ts:94-122 | every row line has 25 fields (24 commas) and ends in its single newline, when numbers render without commas or newlines |
| `Recording.LineShape` | src/lib/services/loggingService.ts:122 | joining 25 separator-free fields with commas and a newline yields 24 commas and one newline |
| `Recording.CsvLineCount` | src/lib/services/loggingService.ts:87-125 | n entries export as n+1 newline-terminated lines |
| `Recording.CsvConfusesZeroWithAbsent` | src/lib/services/loggingService.ts:96-119 | the export is lossy: an all-zero LoRa sample renders exactly like no LoRa sample |
| `Recording.CsvKeepsNonzeroValues` | src/lib/services/loggingService.ts:96-119 | for each of the 24 value columns, a present value survives the export in its own column iff it is non-zero; a zero becomes the empty field |
| `Fusion.CombineLatest` | src/lib/services/telemetryManager.ts:103-118 | no record exactly when both slots are empty; otherwise it carries the held samples (absent where none is held), and its stamp is at least each held timestamp and equals one of them or 0; with both slots held it is one of the two, so their maximum, negative or not |
| `Fusion.TelemetryManagerService.GetLatestCombinedData` | src/lib/services/telemetryManager.ts:103-118 | no record exactly when both slots are empty; otherwise the record carries both slots' samples as they are |
| `Fusion.CombinedStampIsNewest` | src/lib/services/telemetryManager.ts:108-111 | for non-negative clocks the stamp is the only held timestamp, or the larger of the two |
| `Fusion.NegativeStampLosesToAbsentSlot` | src/lib/services/telemetryManager.ts:109-111 | an empty slot counts as 0, so a lone negative timestamp is stamped 0 |
| `Fusion.PublishOrder` | src/lib/services/telemetryManager.ts:155-170 | one publication: the capture first iff the store is armed, then exactly one delivery per subscriber, in registration order, all of the same record |
| `Fusion.TelemetryManagerService.constructor` | src/lib/services/telemetryManager.ts:18-21 | starts with a fresh idle store, no adapters, empty slots and no subscribers |
| `Fusion.TelemetryManagerService.SetLoRaService` | src/lib/services/telemetryManager.ts:23-31 | adopts the adapter and registers exactly one LoRa handler on it |
| `Fusion.TelemetryManagerService.SetRtkService` | src/lib/services/telemetryManager.ts:33-41 | adopts the adapter and registers exactly one RTK handler on it |
| `Fusion.TelemetryManagerService.SetLoggingService` | src/lib/services/telemetryManager.ts:43-45 | replaces the recording store |
| `Fusion.TelemetryManagerService.ConnectLoRa` | src/lib/services/telemetryManager.ts:47-54 | false with nothing changed when no adapter is set; otherwise the adapter is connected and true is returned |
| `Fusion.TelemetryManagerService.ConnectRtk` | src/lib/services/telemetryManager.ts:56-63 | the same guarded delegation for the RTK adapter |
| `Fusion.TelemetryManagerService.DisconnectLoRa` | src/lib/services/telemetryManager.ts:65-72 | false when unset; otherwise the adapter is stopped and disconnected and true is returned |
| `Fusion.TelemetryManagerService.DisconnectRtk` | src/lib/services/telemetryManager.ts:74-81 | the same for the RTK adapter |
| `Fusion.TelemetryManagerService.StartDataStreams` | src/lib/services/telemetryManager.ts:83-91 | each adapter that is set is streaming afterwards, a running one keeping its timer |
| `Fusion.TelemetryManagerService.StopDataStreams` | src/lib/services/telemetryManager.ts:93-101 | each adapter that is set has no timer afterwards; connection flags are kept |
| `Fusion.TelemetryManagerService.OnDataUpdated` | src/lib/services/telemetryManager.ts:120-122 | subscribing appends exactly one callback |
| `Fusion.TelemetryManagerService.StartLogging` | src/lib/services/telemetryManager.ts:124-131 | delegates to the store's start; no store, no change |
| `Fusion.TelemetryManagerService.StopLogging` | src/lib/services/telemetryManager.ts:133-140 | delegates to the store's stop; entries and path are kept |
| `Fusion.TelemetryManagerService.IsLogging` | src/lib/services/telemetryManager.ts:142-144 | false without a store, otherwise the store's flag |
| `Fusion.TelemetryManagerService.LoadLogFile` | src/lib/services/telemetryManager.ts:146-153 | the empty log without a store, otherwise the store's reload |
| `Fusion.TelemetryManagerService.OnLoRaData` | src/lib/services/telemetryManager.ts:27-30 | a LoRa sample overwrites only the LoRa slot, then exactly one publication of the recomputed record follows |
| `Fusion.TelemetryManagerService.OnRtkData` | src/lib/services/telemetryManager.ts:37-40 | an RTK sample overwrites only the RTK slot, then exactly one publication follows |
| `Fusion.TelemetryManagerService.DeliverToSubscribers` | src/lib/services/telemetryManager.ts:166-169 | the subscriber loop yields exactly one delivery per registered callback, the i-th going to the i-th callback, all carrying the same record |
| `Fusion.TelemetryManagerService.NotifyDataUpdated` | src/lib/services/telemetryManager.ts:155-170 | nothing without a record; otherwise the record is appended to the store iff it is armed, before any subscriber, then each subscriber is called once in order |
| `Playback.NatText` | src/lib/contexts/TelemetryContext.tsx:152 | the text of a non-negative whole number is a non-empty digit string without a leading zero whose decimal value is the number |
| `Playback.DecimalText` | src/lib/contexts/TelemetryContext.tsx:152 | a timestamp's text starts with a minus sign exactly when it is negative, and its digits denote the magnitude; it is never empty, so the displayed path is null only without a combined record |
| `Playback.MountServices` | src/lib/contexts/TelemetryContext.tsx:71-94 | the mount effect's wiring: new adapters adopted by the coordinator, one sample handler on each, the provider as the only subscriber, both adapters connected and streaming, empty slots and an idle, empty store |
| `Playback.TelemetryProvider.constructor` | src/lib/contexts/TelemetryContext.tsx:58-105 | mounting wires both adapters to the coordinator and the provider to it, connects and starts both streams, live mode, nothing loaded; the coordinator, adapters and store it creates are new objects |
| `Playback.TelemetryProvider.OnManagerUpdate` | src/lib/contexts/TelemetryContext.tsx:79-83 | the subscription forwards every record, whatever the current mode |
| `Playback.TelemetryProvider.LoRaStreamTick` | src/lib/services/loraService.ts:43-47 | a LoRa timer firing reaches the display as the recomputed record and is captured iff logging, the store's flag and path kept; it can only happen in live mode |
| `Playback.TelemetryProvider.RtkStreamTick` | src/lib/services/rtkService.ts:43-47 | an RTK timer firing reaches the display as the recomputed record and is captured iff logging, the store's flag and path kept; only in live mode |
| `Playback.TelemetryProvider.SetLiveMode` | src/lib/contexts/TelemetryContext.tsx:181-187 | entering live starts both streams, entering playback stops them; connections and the playing flag are kept; entering playback publishes the record under the cursor, if any |
| `Playback.TelemetryProvider.LoadLogFile` | src/lib/contexts/TelemetryContext.tsx:160-168 | replaces the log; non-empty: cursor 0 and its first record published; empty: cursor and published record unchanged |
| `Playback.TelemetryProvider.PlayLog` | src/lib/contexts/TelemetryContext.tsx:170-174 | sets playing only in playback mode with a non-empty log, otherwise changes nothing |
| `Playback.TelemetryProvider.PauseLog` | src/lib/contexts/TelemetryContext.tsx:176-178 | clears playing unconditionally, cursor unchanged |
| `Playback.TelemetryProvider.SetCurrentLogIndex` | src/lib/contexts/TelemetryContext.tsx:143-147 | the index is taken unclamped; the record is published iff in playback mode and the index is below the length |
| `Playback.TelemetryProvider.PlaybackTick` | src/lib/contexts/TelemetryContext.tsx:119-131 | ticks only while playing in playback mode with a non-empty log; advances and publishes the next record while one exists, otherwise only clears playing; keeps the cursor inside the log |
| `Playback.TelemetryProvider.PlayToEnd` | src/lib/contexts/TelemetryContext.tsx:113-140 | playing from the cursor publishes every later record once, in order, ends on the last index and takes one tick more than the records left |
| `Playback.TelemetryProvider.StartLogging` | src/lib/contexts/TelemetryContext.tsx:149-153 | arms the store (keeping a running session), shows logging, and shows the current record's timestamp text as path, or none |
| `Playback.TelemetryProvider.StopLogging` | src/lib/contexts/TelemetryContext.tsx:155-158 | disarms the store, keeping what it captured |
| `Playback.RecordAndReplay` | src/lib/contexts/TelemetryContext.tsx:149-178 | on a freshly mounted provider: start logging, one LoRa then one RTK sample, stop, switch to playback, reload by the session path, play: the log is the two fused records in arrival order, the first is shown on loading, playback publishes the second and takes two ticks |
| `Charts.ConvertToChartPoint` | src/components/TelemetryCharts.tsx:152-191 | the point carries the record's timestamp; its series are all absent exactly when there is no LoRa sample, and otherwise equal the sample's components |
| `Charts.KeepRecent` | src/components/TelemetryCharts.tsx:199-204 | the last min(n, 100) points, in order |
| `Charts.AppendKeepsNewest` | src/components/TelemetryCharts.tsx:194-205 | after an append the buffer has at most 100 points, the new point last, the most recent earlier ones before it in arrival order |
| `Charts.PlaybackWindow` | src/components/TelemetryCharts.tsx:131-146 | `0 <= startIdx <= endIdx <= n-1`; contains the cursor when it is inside the log; at most 101 points, exactly 101 iff the cursor is at least 50 from both ends; the whole log when n <= 100; at least 100 points when n >= 100 |
| `Charts.WindowRefill` | src/components/TelemetryCharts.tsx:139-146 | for every non-negative cursor, including one past the end of the log: a short window anchored at 0 ends at `min(n-1, 99)`; one anchored only at the end starts at `max(0, n-100)`; a full one is the centred one |
| `Charts.VisibleDataForPlayback` | src/components/TelemetryCharts.tsx:148 | the window's records as chart points, in log order, including the cursor's record |
| `Charts.TelemetryCharts.constructor` | src/components/TelemetryCharts.tsx:64-66 | an empty buffer and the default four chart selections |
| `Charts.TelemetryCharts.AppendDataPoint` | src/components/TelemetryCharts.tsx:194-206 | the buffer becomes the newest 100 of the old points plus the new one, which is last |
| `Charts.TelemetryCharts.HandleChartTypeChange` | src/components/TelemetryCharts.tsx:209-217 | an empty value is ignored; otherwise exactly the slot at the index changes |
| `Charts.TelemetryCharts.OnTelemetryChange` | src/components/TelemetryCharts.tsx:115-128 | no record: no change; live: the record is appended; playback: rebuilt from the window only when the log is non-empty |

## Left out

- Mock sample generation is left out: `Math.random`, the trigonometric
  positions, `Date.now()` and the fixed gravity vector. A tick receives its
  sample as a parameter. Only the integer counter formula is kept
  (`SourceAdapter.EulerCounter`).
- Timer plumbing is left out: the interval ids, `clearInterval` and the
  playback period `1000 / playbackSpeed`. The playback timer is the
  condition `TelemetryProvider.PlaybackTimerRunning()`; a tick requires it.
  `playbackSpeed` and its setter only change that floating-point period and
  are not modelled.
- The playback interval's callback closes over the log of the render that
  created it. Its first write of the displayed record is replaced at once
  by the cursor effect, which reads the current log. The model keeps only
  the resulting state.
- Every awaited call is modelled as a synchronous step: connecting and
  disconnecting the adapters, the coordinator's reload, and the provider's
  reload. Interleavings with other handlers while a promise is pending are
  not modelled.
- Mounting is modelled as a synchronous constructor: the async
  `setupServices`, React batching and context creation are not modelled.
  The unmount cleanup (stop, disconnect, clear the interval) is not
  modelled. The effect that copies the store's logging flag becomes the
  invariant `isLogging == logger.isCurrentlyLogging`.
- Callbacks are identities. What an arbitrary subscriber does is outside
  the model; only the provider's own subscription is followed through. No
  exception handling is modelled, and the source has none.
- `Recording.FileLoggingService.ExportCsv`: only the 'csv' format is
  modelled. The 'json' format (`JSON.stringify`) is left out. JavaScript's
  number-to-text conversion is the parameter `fmt`.
- `Recording.CsvCells`: numbers are reals, so the NaN case of `||` (NaN is
  falsy too) is not modelled.
- `Charts.ConvertToChartPoint`: the magnitudes `velocityMag` and
  `linearAccelMag` are not modelled because they use `Math.sqrt`. The
  `time` label is not modelled because it uses locale date formatting.
- `Playback.DecimalText`: plain decimal digits only. JavaScript's exponent
  form for magnitudes of 1e21 and above is not modelled.
- `Playback.TelemetryProvider.SetCurrentLogIndex`: the index is a natural
  number, because the slider's minimum is 0. A negative index would make
  JavaScript publish `undefined`.
- `Charts.TelemetryCharts.HandleChartTypeChange`: the index is required to
  name an existing slot, as the three panels' calls do (0 to 2 of 4). An
  empty string stands for the toggle's null value.
- The manager's store has type `FileLoggingService`, the only
  implementation of the logging interface, so the `instanceof` check always
  holds.
- The `console` output, the ISO-date file name (the parameter `freshPath`)
  and the port names (accepted and ignored) are not modelled.
- Rendering (`ControlPanel`, `TelemetryDisplay`, `Trajectory3D`, the page
  and layout) and `dateUtils` are not part of this model. The interface
  files only declare the record shapes, and those shapes are the datatypes
  in `Telemetry`.
