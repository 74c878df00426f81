# Cerebro session pipeline — a verified model

Cerebro is a desktop EEG application (a Tauri backend in Rust, a React frontend in
TypeScript). A NeuroSky headset streams through the ThinkGear Connector (TGC). The
backend's reader thread turns each JSON line into a band-power payload. The frontend's
session hooks then:

- gate and normalise each payload for the live chart;
- stage the two model files (the ONNX network and its scaler parameters) and hand them
  to the backend;
- walk the operator through a four-step calibration whose second step checks the
  signal;
- record one CSV row per accepted packet;
- count elapsed seconds and nominal samples;
- keep the list of session summaries.

This project models those hooks and helpers in Dafny:

- Pure code (`parse_packet`, `normalizeBandPowers`, `classifyFile`, `rowToLine`,
  `buildCsv`, the formatters) becomes functions over datatypes, with lemmas.
- Each hook that keeps state becomes a class. Its fields are the hook's state and refs.
  Its methods are the handlers, effects and timer callbacks, and each method states the
  whole new state in terms of the old one.
- Event listeners and timers become method calls. The dialog's answer, the backend's
  answer, the decoded JSON and the timestamp become parameters.
- Short scenario methods run an object through the sequences the hooks are built for and
  state what is observed.

Modules:

| file | module | models |
|---|---|---|
| wrappers.dfy | Wrappers | `Option`, with `:-` for Rust's `?` |
| js_text.dfy | JsText | `String(n)`, `padStart`, `split`, `join`, `pop()`, ASCII `toLowerCase` |
| tgc_data.dfy | TgcData | src-tauri/src/models/tgc_data.rs |
| tgc_reader.dfy | TgcReader | `parse_packet` in src-tauri/src/networking/tgc_reader.rs |
| eeg_types.dfy | EegTypes | src/types/eeg.ts, `FocusPrediction` |
| tgc_connection.dfy | TgcConnection | src/screens/session/hooks/useTgcConnection.ts |
| model_files.dfy | ModelFiles | the file dialog and the file-name extraction both loaders share |
| model_loader.dfy | ModelLoader | src/screens/session/hooks/useModelLoader.ts |
| legacy_model_loader.dfy | LegacyModelLoader | src/screens/session/hooks/useModelLoader.tsx |
| session_constants.dfy | SessionConstants | `calibrationSteps` in src/screens/session/constants.ts |
| calibration.dfy | Calibration | src/screens/session/hooks/useCalibration.ts |
| legacy_calibration.dfy | LegacyCalibration | src/screens/session/hooks/useCalibration.tsx |
| session_recorder.dfy | SessionRecorder | src/screens/session/hooks/useSessionRecorder.ts |
| session_timer.dfy | SessionTimer | src/screens/session/hooks/useSessionTimer.ts |
| legacy_session_timer.dfy | LegacySessionTimer | src/screens/session/hooks/useSessionTimer.tsx |
| session_format.dfy | SessionFormat | src/screens/session/utils.ts |
| session_store.dfy | SessionStore | src/lib/useSessionStore.ts |

Modelling choices:

- Numbers are unbounded `nat`/`int` on the frontend. The Rust payload keeps `u8`/`u32`
  as bounded newtypes.
- `Math.round` of a float quotient is modelled as exact half-up rounding of the rational
  `100·b/total`. `toFixed(1)` of `n/1000` is modelled as exact half-up rounding to tenths.
- `serde_json::from_str` is a parameter `decode`, a partial function from lines to
  packets.
- The CSV header is written as its 14 column names joined by commas. That is the same
  text as the literal at useSessionRecorder.ts:22-24.
- A dialog result of `""` is treated like a cancel, because both loaders test the path
  for truthiness.
- The newer loader follows its intended two-slot table, not the code as shipped. Its
  `classifyFile` looks up an `ext` field in `requiredModels`, but the `requiredModels` in
  src/screens/session/constants.ts:1-20 is the older three-file table: it has no `ext`
  field and its keys are ddqn/tcn/scaler. The newer loader is therefore modelled with the
  two slots its dialog filter and the backend name: `onnx` takes `.onnx` and `scaler`
  takes `.json` (useModelLoader.ts:12, src-tauri/src/commands/headset.rs:15-16). The
  older table is used for useModelLoader.tsx.

## Model

| member | source | states |
|---|---|---|
| TgcReader.ParsePacket | src-tauri/src/networking/tgc_reader.rs:79-101 | A payload comes out exactly when the line is non-empty, decodes, and carries `eegPower`; heartbeats and undecodable lines give none. A missing signal level becomes 200 and a present one is copied. A missing eSense object or metric gives 0. The seven bands are copied and TGC's `highGamma` lands in `midGamma`. |
| EegTypes.FromPayload | src/types/eeg.ts:4-19 | The `tgc-data` payload as the hook receives it: every field keeps its camelCase name and its value, with `u8`/`u32` widened. No contract of its own; DefaultLevelIsGated uses it to pass a parsed packet to the hook. |
| TgcConnection.Divisor | src/screens/session/hooks/useTgcConnection.ts:19-21 | `total \|\| 1`: a zero band total gives the divisor 1, and a positive total is the divisor itself, so it is always at least 1. |
| TgcConnection.RoundedPercent | src/screens/session/hooks/useTgcConnection.ts:24-31 | A band never exceeds 100 % of the total it belongs to: the percentage is at most 100 whenever the band is at most the total. |
| TgcConnection.RoundedPercentNearest | src/screens/session/hooks/useTgcConnection.ts:24-31 | The percentage is the integer nearest to 100·b/total, a half rounded up, as the two-sided bound 2t·r − t ≤ 200b < 2t·r + t. |
| TgcConnection.Normalize | src/screens/session/hooks/useTgcConnection.ts:14-33 | Each of the eight bands becomes its rounded percentage of the total and is at most 100. `attention`, `meditation` and `poorSignalLevel` are unchanged. A zero total (divisor 1) gives all-zero bands. |
| TgcConnection.NormalizeScaleInvariant | src/screens/session/hooks/useTgcConnection.ts:19-31 | Multiplying all eight bands by any k ≥ 1 gives the same normalised packet: only the ratios matter. |
| TgcConnection.NormalizedTotalNear100 | src/screens/session/hooks/useTgcConnection.ts:19-31 | For a positive total the eight percentages add up to between 97 and 104, not necessarily 100. |
| TgcConnection.Connection.constructor | src/screens/session/hooks/useTgcConnection.ts:40-47 | Starts with no data, disconnected, at the "no contact" level 200. |
| TgcConnection.Connection.SetActive | src/screens/session/hooks/useTgcConnection.ts:49-90 | Deactivating clears both data values, sets disconnected and resets the level to 200. Activating starts listening and changes no value. The invariant holds throughout: the live data is the normalisation of the raw data, a kept packet had a usable signal, and an inactive hook holds the initial values. |
| TgcConnection.Connection.OnData | src/screens/session/hooks/useTgcConnection.ts:65-72 | While listening, every packet sets the level, dropped packets included. A packet below 50 becomes the raw data and its normalisation becomes the live data. A packet at 50 or above leaves both unchanged. The connection flag is never touched. |
| TgcConnection.Connection.OnStatus | src/screens/session/hooks/useTgcConnection.ts:76-82 | `connected` sets the flag and touches nothing else. `disconnected` clears the flag and both data values. The level is never touched. |
| TgcConnection.GatedStream | src/screens/session/hooks/useTgcConnection.ts:65-72 | Over a good, a poor and a good packet, the chart keeps the first through the poor one while the level follows every packet, and then shows the last. |
| TgcConnection.DefaultLevelIsGated | src/screens/session/hooks/useTgcConnection.ts:65-72 | A packet the reader parsed without a signal level (tgc_reader.rs:84 defaults it to 200) reaches a listening hook after a good packet. The level becomes 200, and the raw and live data stay the good packet and its normalisation. |
| JsText.NatToString | src/screens/session/utils.ts:2-5 | `toString()` of a non-negative integer: at least one decimal digit and no leading zero. ParseNatToString reads it back, and NatToStringLength bounds its length. |
| JsText.PadStart | src/screens/session/utils.ts:2-5 | `padStart(width, fill)` never truncates. The result is `width` long when the input is shorter, ends with the input, and holds only the fill before it. |
| JsText.Split | src/screens/session/hooks/useModelLoader.ts:18-19 | `split` always gives at least one part, and a single part is the whole input. SplitSingleIffFree, SplitPartsFree and AfterLastIsTail state the rest. |
| JsText.Join | src/screens/session/hooks/useSessionRecorder.ts:80-82 | `join` with a one-character separator. No contract of its own; SplitJoin gives the parts back from the joined text. |
| JsText.Lower | src/screens/session/hooks/useModelLoader.ts:19 | `toLowerCase()` on ASCII keeps the length. LowerLeavesNoCapitals states which letter each character becomes. |
| JsText.LowerLeavesNoCapitals | src/screens/session/hooks/useModelLoader.ts:19 | After `toLowerCase()` every capital is its own small letter (code + 32) and every other character is kept. So no capital is left, and lower-casing again changes nothing. |
| JsText.NatToStringLength | src/screens/session/utils.ts:2-10 | `String(n)` has one digit exactly below 10, at most two exactly below 100 and at most three exactly below 1000. |
| JsText.IntToString | src/screens/session/hooks/useSessionRecorder.ts:26-43 | `String(i)` for the numeric CSV columns: at least one character, each a digit or a minus sign. IntToStringReadBack gives its value. |
| JsText.IntToStringReadBack | src/screens/session/hooks/useSessionRecorder.ts:26-43 | `String(i)` reads back as i: the plain digits of i when it is non-negative, and `-` followed by the digits of −i when it is negative. |
| JsText.ParseNatToString | src/screens/session/utils.ts:2-10 | `String(n)` reads back as n. |
| JsText.ParseNatLeadingZeros | src/screens/session/utils.ts:4 | Leading zeros, as `padStart(_, "0")` adds them, keep the value. |
| JsText.AfterLastIsTail | src/screens/session/hooks/useModelLoader.ts:18 | `split(...).pop()` gives a separator-free tail of the string that is either all of it or preceded by a separator. |
| JsText.SplitSingleIffFree | src/screens/session/hooks/useModelLoader.ts:18 | A string splits into one part if and only if it holds no separator. |
| JsText.SplitJoin | src/screens/session/hooks/useSessionRecorder.ts:80-82 | Splitting a comma- or newline-join gives back every part before the last when those hold no separator; the last is split in turn. |
| ModelFiles.PickedPath | src/screens/session/hooks/useModelLoader.ts:9-15 | The loader goes on exactly when the dialog returned a non-empty path, and then with that path. |
| ModelFiles.FileName | src/screens/session/hooks/useModelLoader.ts:18 | `path.split(/[\\/]/).pop()`: the text after the last `/` or `\`. No contract of its own; AfterLastIsTail and FileNameIgnoresDirectories state what it gives. |
| ModelFiles.FileNameIgnoresDirectories | src/screens/session/hooks/useModelLoader.ts:18 | The file name of `dir + sep + name` is `name` for either separator, whatever the directory is. |
| ModelLoader.Extension | src/screens/session/hooks/useModelLoader.ts:18-19 | The lower-cased text after the last `.` of the file name. No contract of its own; ClassifyFile and ClassifyByFileName state what it decides. |
| ModelLoader.ClassifyFile | src/screens/session/hooks/useModelLoader.ts:17-31 | It returns the slot whose required extension equals the lower-cased text after the last `.` of the file name. It returns none exactly when no slot has that extension. |
| ModelLoader.ExtensionIgnoresCase | src/screens/session/hooks/useModelLoader.ts:18-20 | For a file name `stem.ext` (`ext` without a dot, neither part holding a path separator), the slot is the one whose extension is the lower-cased `ext`. The letter case of `ext` never changes the slot. |
| ModelLoader.UpperCaseExtensions | src/screens/session/hooks/useModelLoader.ts:18-20 | `stem.ONNX` takes the network slot and `stem.JSON` the scaler slot, as their lower-case forms do. |
| ModelLoader.ClassifyByFileName | src/screens/session/hooks/useModelLoader.ts:18-20 | Classification depends on the file name alone, never on the directories before it. |
| ModelLoader.Loader.constructor | src/screens/session/hooks/useModelLoader.ts:47-54 | Nothing staged, no paths, model not ready. |
| ModelLoader.Loader.StageFile | src/screens/session/hooks/useModelLoader.ts:59-64 | Exactly that slot gets its path and its flag; the other slot and `modelReady` are untouched. The returned map is the new staged map. |
| ModelLoader.Loader.ActivateModel | src/screens/session/hooks/useModelLoader.ts:66-75 | Both staged paths go to the backend. Only success sets `modelReady`; a failure is returned as an error and changes nothing. |
| ModelLoader.Loader.Rollback | src/screens/session/hooks/useModelLoader.ts:77-84 | Both flags false, both paths cleared, model not ready. |
| ModelLoader.Loader.HandleLoadModel | src/screens/session/hooks/useModelLoader.ts:86-109 | A dialog error rolls everything back. A cancel, an unknown extension, or a file for an already-staged slot changes nothing. Otherwise the slot is staged, and the backend is called exactly when both slots are then staged, with both paths. On success the model is ready; a backend failure rolls everything back. The invariant `modelReady ⇒ both staged`, with paths present exactly for staged slots, is kept. |
| ModelLoader.FailedActivationScenario | src/screens/session/hooks/useModelLoader.ts:86-109 | A wrong file is refused, then the model file waits alone. The scaler then triggers activation with both paths, and its failure leaves the loader as it started. |
| ModelLoader.SameSlotTwiceScenario | src/screens/session/hooks/useModelLoader.ts:94-97 | A second model file while the first is staged is refused; the first path stays and no activation happens. |
| ModelLoader.DialogErrorAfterActivationScenario | src/screens/session/hooks/useModelLoader.ts:106-108 | After a successful activation, a dialog error on the next pick still rolls `modelReady` back to false. |
| LegacyModelLoader.MatchRequired | src/screens/session/hooks/useModelLoader.tsx:27 | A key comes back exactly when the file name equals one of the three required file names, and its file name is that one. |
| LegacyModelLoader.LegacyLoader.constructor | src/screens/session/hooks/useModelLoader.tsx:7-11 | All three flags start false. |
| LegacyModelLoader.LegacyLoader.AllLoaded | src/screens/session/hooks/useModelLoader.tsx:13 | True exactly when all three flags are true. |
| LegacyModelLoader.LegacyLoader.HandleLoadModel | src/screens/session/hooks/useModelLoader.tsx:15-67 | A dialog error, a cancel, an unmatched name or an already-loaded key change nothing. Otherwise exactly the matched flag becomes true, and the outcome says whether all are now loaded. Flags only ever go from false to true; there is no rollback. |
| LegacyModelLoader.LoadAllScenario | src/screens/session/hooks/useModelLoader.tsx:25-50 | The three required files, from any directory, load everything; after two, not all are loaded. |
| LegacyModelLoader.NamedIn | src/screens/session/hooks/useModelLoader.tsx:18-27 | A required file in any directory is a non-empty pick, and its file name matches the model it belongs to. |
| Calibration.Calibration.constructor | src/screens/session/hooks/useCalibration.ts:15-21 | Step 0, no start button, no failure; the refs hold the initial inputs. |
| Calibration.Calibration.SyncInputs | src/screens/session/hooks/useCalibration.ts:22-27 | The refs take the latest connection inputs; the step and both flags are unchanged. |
| Calibration.Calibration.Tick | src/screens/session/hooks/useCalibration.ts:29-53 | Nothing happens while inactive or after a failure. At step 1 the check reads the refs at that moment: disconnected or a level ≥ 50 fails and stays at step 1; otherwise it moves to step 2. Other steps before the last advance by one, and the last shows the start button. The invariant holds throughout: step ≤ 3, the start button only at the last step and without failure, a failure only at step 1. |
| Calibration.Calibration.Reset | src/screens/session/hooks/useCalibration.ts:55-59 | From any state: step 0, no start button, no failure. |
| Calibration.CalibrationRun | src/screens/session/hooks/useCalibration.ts:19-53 | After four timeouts the run is ready exactly when the connection was good at the check, whatever it was when calibration started. Otherwise it has failed at step 1. |
| Calibration.FailureNeedsReset | src/screens/session/hooks/useCalibration.ts:29-59 | A failed check stays failed after the signal recovers; only reset returns to step 0 without failure. |
| LegacyCalibration.LegacyCalibration.constructor | src/screens/session/hooks/useCalibration.tsx:5-6 | Step 0, no start button. |
| LegacyCalibration.LegacyCalibration.Tick | src/screens/session/hooks/useCalibration.tsx:8-21 | Nothing happens while the dialog is hidden. Below the last step the step advances by one; at the last step the start button shows. The step never exceeds 3. |
| LegacyCalibration.LegacyCalibration.Reset | src/screens/session/hooks/useCalibration.tsx:23-26 | Step 0, no start button. |
| LegacyCalibration.FourTicksFromReset | src/screens/session/hooks/useCalibration.tsx:8-26 | After two timeouts and a reset, three timeouts do not show the start button and the fourth does, at step 3. |
| SessionRecorder.NewRow | src/screens/session/hooks/useSessionRecorder.ts:60-75 | The row copies the eight bands, both metrics and the level raw from the packet. Without a prediction it is labelled −1 / "N/A"; with one it takes the prediction's label and name. |
| SessionRecorder.RowFields | src/screens/session/hooks/useSessionRecorder.ts:26-43 | A row has exactly 14 fields, one per header column. |
| SessionRecorder.RowToLine | src/screens/session/hooks/useSessionRecorder.ts:26-43 | rowToLine: the 14 fields joined by commas, without quoting. No contract of its own. RowLineFields, RowLineIsSingleLine and CommaInLabelNameShiftsColumns state when it splits back and when it does not. |
| SessionRecorder.RowLineIsSingleLine | src/screens/session/hooks/useSessionRecorder.ts:26-43 | A row whose timestamp and label name hold no line break gives a line with no line break. |
| SessionRecorder.HeaderSplitsIntoColumns | src/screens/session/hooks/useSessionRecorder.ts:22-24 | The header is a single line of 14 comma-separated column names. |
| SessionRecorder.RowLineFields | src/screens/session/hooks/useSessionRecorder.ts:26-43 | When neither the timestamp nor the label name holds a comma, a row's line splits back into its fields, in header order, as many as the header's columns. |
| SessionRecorder.CommaInLabelNameShiftsColumns | src/screens/session/hooks/useSessionRecorder.ts:26-43 | Without quoting, one comma in the label name, wherever it sits, yields 15 fields, one more than the header. |
| SessionRecorder.BuildCsv | src/screens/session/hooks/useSessionRecorder.ts:80-82 | buildCsv: the header, then each row's line, joined by line breaks. No contract of its own; CsvLines states how it splits back. |
| SessionRecorder.CsvLines | src/screens/session/hooks/useSessionRecorder.ts:80-82 | When no timestamp or label name holds a line break, the export splits into the header followed by one line per row in insertion order: N rows give N + 1 lines. |
| SessionRecorder.Recorder.constructor | src/screens/session/hooks/useSessionRecorder.ts:51-52 | An empty buffer and a zero count. |
| SessionRecorder.Recorder.Record | src/screens/session/hooks/useSessionRecorder.ts:59-77 | Exactly one row is appended at the end; earlier rows are unchanged and the count is the buffer's length. |
| SessionRecorder.Recorder.Clear | src/screens/session/hooks/useSessionRecorder.ts:85-88 | An empty buffer and a zero count, whatever came before, so clearing twice equals clearing once. |
| SessionRecorder.RecordScenario | src/screens/session/hooks/useSessionRecorder.ts:59-88 | Three packets, the first with a prediction, give three rows in arrival order, labelled [label, −1, −1] and named [name, "N/A", "N/A"], each with its own timestamp. Two clears leave a zero count. |
| SessionTimer.SessionTimer.constructor | src/screens/session/hooks/useSessionTimer.ts:4-5 | Both counters start at 0. |
| SessionTimer.SessionTimer.Tick | src/screens/session/hooks/useSessionTimer.ts:8-16 | While scanning, one second and 512 samples are added in the same callback; otherwise nothing changes. The invariant `sampleCount == 512 · elapsed` is kept. |
| SessionTimer.SessionTimer.Reset | src/screens/session/hooks/useSessionTimer.ts:17-20 | Both counters back to 0. |
| SessionTimer.ScanPauseScan | src/screens/session/hooks/useSessionTimer.ts:8-20 | Three scanning seconds around a pause give 3 s and 1536 samples; a reset gives 0 and 0. |
| LegacySessionTimer.LegacySessionTimer.constructor | src/screens/session/hooks/useSessionTimer.tsx:4-5 | Both counters start at 0. |
| LegacySessionTimer.LegacySessionTimer.TickElapsed | src/screens/session/hooks/useSessionTimer.tsx:8-12 | Adds a second only while scanning, leaving the sample count alone. |
| LegacySessionTimer.LegacySessionTimer.TickSamples | src/screens/session/hooks/useSessionTimer.tsx:14-19 | Adds 512 samples only while scanning, leaving the elapsed time alone; the count stays a multiple of 512. |
| LegacySessionTimer.LegacySessionTimer.Reset | src/screens/session/hooks/useSessionTimer.tsx:21-24 | Both counters back to 0. |
| LegacySessionTimer.IndependentIntervalsDrift | src/screens/session/hooks/useSessionTimer.tsx:8-19 | Because the two intervals are independent, the display can show 2 s against 512 samples, off the 512-per-second rate. |
| SessionFormat.TwoDigits | src/screens/session/utils.ts:2-5 | Zero-padding keeps the digits' value (the text reads back as n), gives exactly two characters below 100, and never truncates above. |
| SessionFormat.FormatElapsed | src/screens/session/utils.ts:1-7 | formatElapsed: padded minutes, a colon, padded seconds. No contract of its own; FormatElapsedShape and FormatElapsedRoundTrip state its shape and its read-back. |
| SessionFormat.FormatElapsedShape | src/screens/session/utils.ts:1-7 | Minutes, a colon, and two-digit seconds below 60. The output has exactly five characters if and only if secs < 6000; from 6000 on the minutes field grows. |
| SessionFormat.ClockRoundTrip | src/screens/session/utils.ts:1-7 | Whole minutes and seconds below 60, each padded to two digits and joined by a colon, read back as 60·minutes + seconds. |
| SessionFormat.FormatElapsedRoundTrip | src/screens/session/utils.ts:1-7 | Reading the display back as 60·minutes + seconds gives the original number of seconds, at any duration. |
| SessionFormat.Thousands | src/screens/session/utils.ts:10 | `(n / 1000).toFixed(1)`: digits, a point and one digit. FormatSamplesAccuracy states its value. |
| SessionFormat.FormatSamples | src/screens/session/utils.ts:9-10 | Below 1000, one to three digits without a leading zero; from 1000 on, the label ends in "k". |
| SessionFormat.FormatSamplesAccuracy | src/screens/session/utils.ts:9-10 | Every label reads back. Below 1000 it is the count exactly; from 1000 on it is within half a hundred of the count, halves rounding up. |
| SessionStore.WithSession | src/lib/useSessionStore.ts:21-22 | The new list is one longer, keeps every earlier summary in place, and ends with the new one. |
| SessionStore.AddsKeepCallOrder | src/lib/useSessionStore.ts:21-22 | Any sequence of adds yields the earlier list followed by the summaries in call order. |
| SessionStore.SessionStore.constructor | src/lib/useSessionStore.ts:14 | The list starts empty. |
| SessionStore.SessionStore.LoadSessions | src/lib/useSessionStore.ts:16-19 | A loaded index replaces the whole list; a failed load leaves it as it was. |
| SessionStore.SessionStore.AddSession | src/lib/useSessionStore.ts:21-22 | Appends the summary at the end of the current list. |
| SessionStore.ExportsThenLoad | src/lib/useSessionStore.ts:16-22 | Two adds list both summaries in order; a load completing afterwards replaces them with the saved index. |
| SessionStore.FailedLoadKeepsSessions | src/lib/useSessionStore.ts:16-22 | A failed load after an add keeps the added summary. |

## Left out

- Tauri `invoke`/`listen`/unlisten, the `start_tgc`/`stop_tgc` calls and the sileo
  toasts are left out. Listener callbacks are method calls and the toasts appear only as
  the outcome values the handlers return. The asynchronous registration of listeners,
  and a packet arriving before registration completes, are not modelled.
- `setTimeout`/`setInterval` are not modelled; each firing is a `Tick` call. The 1400 ms
  dwell (src/screens/session/constants.ts:29) and the one-second period are not
  modelled, and neither is the cancellation of a pending timeout when an effect re-runs.
- TgcConnection.Connection.SetActive: the listeners are registered through a promise
  (useTgcConnection.ts:73, :83). If the effect's cleanup (useTgcConnection.ts:87-88) runs
  before that promise resolves, `unlistenData` is still undefined and the listener stays
  registered, so an inactive hook could still take packets. The model's deactivation
  always stops listening, so the `!listening ==> Idle()` half of `Connection.Valid` does
  not cover that interleaving.
- ModelLoader.ClassifyFile: the lookup as shipped is not modelled. It reads an `ext`
  field that the shared `requiredModels` table (constants.ts:1-20) does not have, so as
  written every pick is refused as an unrecognised file and no model is ever staged. The
  model uses the intended `onnx`/`json` slots instead.
- Concurrent `handleLoadModel` calls are not modelled: each call runs to completion
  before the next. The React batching of state updates, and the render-time snapshot of
  `staged` that a concurrent second call would read, are not modelled either.
- TgcConnection.RoundedPercentNearest: exact half-up rounding. `Math.round` of a float quotient
  can differ from it when the quotient lands near a half.
- SessionFormat.FormatSamples: the k-branch uses exact half-up rounding to tenths.
  `toFixed(1)` on a binary float can round a tie differently.
- `toLowerCase` is modelled on ASCII letters only; other characters are kept as they are.
- `new Date().toISOString()` in `record` is a string parameter.
- Frontend numbers are modelled as unbounded integers, so a JS number's precision limits
  are not modelled. Rust's `u8`/`u32` are kept as bounded types.
- JSON decoding (serde) is the `decode` parameter.
- The TCP reader loop, connection attempts and the handshake in
  src-tauri/src/networking/tgc_reader.rs are not part of this model. They are I/O,
  sleeps and a cross-thread stop flag.
- src-tauri/src/lib.rs is not part of this model: a background thread and an atomic
  flag. Neither is src-tauri/src/commands/headset.rs beyond the `SessionSummary`
  record (filesystem, threads, ONNX).
- src-tauri/src/models/ml_data.rs is not part of this model: f32 feature extraction,
  scaling and the foreign ONNX runtime. Predictions enter the recorder as parameters.
- No summary builder exists in the modelled files, so the means and the signal-quality
  percentage in `SessionSummary` are only stored, never computed.
- The UI (Session.tsx, dialogs, cards, charts, intro screens) is not part of this model.
- `buildCsv` is modelled as a function of the row buffer, so it cannot change the rows.
