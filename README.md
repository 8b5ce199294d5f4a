# Sensor notification handler

The repository collects IMU readings from three or four Bluetooth sensors
and writes them to a CSV file. Its core is `notification_handler`, which
all six applications define and run once per sensor notification. Each call:

- appends the decoded chunk to that sensor's text buffer;
- repeatedly cuts off the text up to the first newline, writing the rest back first;
- skips blank lines;
- parses each remaining line into floats;
- stores the reading in the sensor's slot, timed from the sensor's start time;
- when every slot is filled, appends one row (sensor 1's timestamp, then every
  sensor's values in id order) and clears all slots.

The validating applications count refused lines in `error_counter` and ask for
a stop from the fourth failure on. Most applications drop the call while
`STOP_FLAG` is set.

The six applications differ in only four ways, and `Handler.Variant` captures
all four:

- the number of sensors;
- whether `STOP_FLAG` is honoured;
- whether starting an exercise clears the start times;
- how a line is validated:
  - count the fields, then convert them (four-sensor application);
  - convert, then count, and stop the exercise at once at the threshold (wizard and main application);
  - no validation: a `ValueError` escapes and ends the call (the three earlier collectors).

The six constants `FourSensorApp`, `WizardDualWindow`, `MainApp`,
`DataCollectionBle`, `MainDataCollection` and `DataCollectionNewApp` give each
file's variant.

Modules:

- `PyText`: `str.isspace`, `strip`, `split(sep)` and `split(sep, 1)`.
- `PyFloat`: the grammar `float()` accepts on text, with exact real values.
- `LineBuffer`: buffer to lines, and the chunk-boundary theorem.
- `LineParser`: the three ways a line is parsed.
- `Handler`: the handler as functions on a `State` value.
- `HandlerProps`: what one line, one loop and one call do.
- `HandlerInvariants`: what every call preserves.
- `Output`: the CSV name, the labelled name and the headers.
- `Hub`: the class `SensorHub`. Its fields are the module-level globals, and it has
  imperative methods with the source's `while` and `for` loops. Each method is
  proved to have exactly the effect of the function in `Handler`, so every lemma
  about `Handler` applies to the object.

Inputs outside the program become parameters:

- The clock `datetime.now()` is an integer `now` in microseconds, read once per call.
- The chunk is the already decoded string.
- The CSV appends are a ghost sequence of rows.

## Model

| member | source | states |
|---|---|---|
| Handler.Notify | 4_sensor_application.py:45-93 | The whole handler. Its own contract is well-formedness only; what a call does is stated by `HandlerProps.NotifyFacts`, `NotifyFold`, `NotifyChunked` and `HandlerInvariants.NotifyPreservesInvariant`. |
| Handler.Drain | 4_sensor_application.py:56-93 | The `while '\n' in buffer` loop. Its own contract is well-formedness only; `HandlerProps.DrainFacts`, `DrainIsFold` and `UncheckedRaiseKeepsRest` state what it does. |
| Handler.HandleLine | 4_sensor_application.py:59-93 | One cut-off line. Its own contract is well-formedness only; `HandlerProps.HandleLineFacts`, `WhitespaceLineSkipped`, `BadLineCounted`, `GoodLineStored`, `UncheckedNumericLineStored` and `UncheckedBadLineRaises` state what it does. |
| Handler.HandleParsed | 4_sensor_application.py:62-93 | The `try` block after the blank test. Its own contract is well-formedness only; the same `HandlerProps` lemmas as for `HandleLine` state what it does. |
| Handler.Store | 4_sensor_application.py:69-87 | Storing a reading, then the row check. Its own contract is well-formedness only; `HandlerProps.StoreSpec` and `LaterReadingSupersedes` state what it does. |
| Handler.RecordFailure | 4_sensor_application.py:88-93 | The `except ValueError` branch. It has no contract of its own; `HandlerProps.BadLineCounted` and `HandlerInvariants.HandleLineStopFlag` state what it does. |
| Handler.StartExercise | 4_sensor_application.py:238-249 | `startExercise` as it affects the handler's state. Its own contract is well-formedness only; `HandlerProps.StartExerciseResetsOnly` states what it keeps and what it resets. |
| Handler.SetStopFlag | old_code/main_app.py:96-104 | The runner's `run` and `stop`. It has no contract of its own; `HandlerInvariants.SetStopFlagPreservesInvariant` and `StoppedRunnerDropsNotifications` state its effect. |
| HandlerProps.NotifyFacts | 4_sensor_application.py:45-58 | A call blocked by `STOP_FLAG` returns the state unchanged. An unblocked call sets the sensor's start time only if it was unset. A validating handler returns with no newline in that sensor's buffer. Other sensors' buffers are untouched, and the counters and rows only grow. |
| HandlerProps.DrainFacts | 4_sensor_application.py:56-58 | The line loop leaves the start times and other sensors' buffers alone. When validating it stops only once no newline is left. Counts and rows never decrease. |
| HandlerProps.HandleLineFacts | 4_sensor_application.py:59-93 | One line never lowers `error_counter` or the stop requests and never removes a row. Only an unvalidated handler raises, and then it has changed nothing. |
| HandlerProps.DrainIsFold | 4_sensor_application.py:56-58 | When validating, the loop handles exactly the complete lines of the buffer (`ExtractLines`), in order, and leaves the unterminated rest in the buffer. |
| HandlerProps.NotifyFold | 4_sensor_application.py:50-58 | An unblocked validating call sets the start time, handles the complete lines of `buffer + chunk` in order, and keeps the rest. |
| HandlerProps.NotifyChunked | 4_sensor_application.py:53-58 | For a validating handler whose first call does not set the stop flag, delivering `a` and then `b` at the same clock reading `now` has the same effect as delivering `a + b` at that reading. |
| HandlerProps.FourSensorChunked | 4_sensor_application.py:53-58 | For the four-sensor application, at the same clock reading `now`, chunk boundaries never matter: two calls with `a` and `b` equal one call with `a + b`. |
| HandlerProps.NotifyKeepsStopFlag | 4_sensor_application.py:88-93 | The four-sensor application and the unvalidated collectors never change `STOP_FLAG` inside the handler. |
| HandlerProps.StartExerciseResetsOnly | 4_sensor_application.py:238-249 | Starting an exercise empties the CSV (opened with `'w'`). Where the application does it, every start time is forgotten. Buffers, slots, `error_counter` and the stop flag carry over. |
| HandlerProps.ParseSpec | 4_sensor_application.py:63-67 | The variant's parse accepts exactly six numeric fields when validating, and any all-numeric line otherwise. The values are the fields' numbers, at least one of them. |
| HandlerProps.WhitespaceLineSkipped | 4_sensor_application.py:59-60 | A line of whitespace only changes nothing and does not raise. |
| HandlerProps.BadLineCounted | 4_sensor_application.py:62-93 | A validating handler refuses a line that is not six numbers. It adds exactly one to `error_counter` and requests a stop when the count reaches 4. The stop flag is set only for the immediate-stop variants. No slot and no row changes. |
| HandlerProps.GoodLineStored | 4_sensor_application.py:67-87 | A line of six numbers replaces its own sensor's slot with `now - start` and its values. A row is appended exactly when every slot is then filled, and the slots are then all cleared. Otherwise only that slot changes. Counters are untouched. |
| HandlerProps.UncheckedNumericLineStored | old_code/data_collection_ble.py:43-57 | The unvalidated collectors store an all-numeric line whatever its field count (at least one). The row rule is the same. |
| HandlerProps.UncheckedBadLineRaises | old_code/data_collection_ble.py:44 | Without validation, a non-numeric line raises and changes no slot and no count. |
| HandlerProps.UncheckedRaiseKeepsRest | old_code/data_collection_ble.py:37-57 | Without validation, the first line that is neither blank nor all-numeric ends the loop. The lines before it are handled in order (`HandleLines`), it is already gone from the buffer, and the text after it stays buffered unhandled. The start times are unchanged. |
| HandlerProps.LaterReadingSupersedes | 4_sensor_application.py:69-71 | A second reading for the same sensor before the row completes overwrites the first, which leaves no trace: last write wins. |
| HandlerProps.StoreSpec | 4_sensor_application.py:69-87 | Storing changes only that slot, unless every slot is then filled. In that case exactly one row is appended (`BuildRow`) and all slots are cleared. |
| HandlerProps.RowWidth | old_code/data_collection_ble.py:49-54 | A row has one column for the timestamp plus one per value held. |
| HandlerProps.SixValueRowWidth | 4_sensor_application.py:74-79 | With six values in every slot, a row has `1 + 6 * n` columns. |
| HandlerProps.FourSensorRowShape | 4_sensor_application.py:74-77 | The row is `[timestamp of sensor 1] + values1 + values2 + values3 + values4`. |
| HandlerProps.ThreeSensorRowShape | old_code/wizard_dual_window.py:56-57 | The row is `[timestamp of sensor 1] + values1 + values2 + values3`. |
| HandlerProps.RefusedLinesBelowThreshold | 4_sensor_application.py:88-93 | Refused lines that keep `error_counter` below 4 are only counted: no stop is requested, and no slot, row or flag changes. |
| HandlerProps.StaleErrorsStopNextExercise | 4_sensor_application.py:238-249 | As written, after three failures in any earlier exercise, the first refused line of a new exercise already requests a stop. |
| HandlerProps.StartExerciseFresh | 4_sensor_application.py:238-249 | The corrected start of an exercise: as `StartExercise`, with the failure count set back to zero. |
| HandlerProps.FreshExerciseToleratesErrors | 4_sensor_application.py:88-93 | After the corrected start, up to three refused lines request no stop, whatever earlier exercises counted. |
| HandlerInvariants.InitialInvariant | 4_sensor_application.py:18-24 | The module-level initial state satisfies the invariant: one stop request per failure from the fourth on, six values per stored reading when validating, rows of `1 + 6n` columns, and no complete line left in any buffer. |
| HandlerInvariants.NotifyPreservesInvariant | 4_sensor_application.py:45-93 | Every call keeps the invariant. |
| HandlerInvariants.StartExercisePreservesInvariant | 4_sensor_application.py:238-249 | Starting an exercise keeps the invariant. |
| HandlerInvariants.SetStopFlagPreservesInvariant | 4_sensor_application.py:128-137 | Starting or stopping the runner keeps the invariant. |
| HandlerInvariants.StorePreservesAggInvariant | 4_sensor_application.py:69-87 | Storing a six-value reading keeps six values per slot and the row width. |
| HandlerInvariants.HandleLinePreservesAggInvariant | 4_sensor_application.py:59-93 | One line keeps the loop invariant: stop requests match the failures at or above the threshold, and slots and rows keep their widths. |
| HandlerInvariants.DrainPreservesAggInvariant | 4_sensor_application.py:56-93 | The whole line loop keeps the loop invariant. |
| HandlerInvariants.FourSensorRowsHave25Columns | 4_sensor_application.py:78-79 | Every row the four-sensor application writes has 25 columns, so the `len(row) != 25` check never raises. |
| HandlerInvariants.ThreeSensorRowsHave19Columns | old_code/wizard_dual_window.py:59-60 | Every row the wizard and the main application write has 19 columns, so the `len(row) != 19` check never raises. |
| HandlerInvariants.StoppedRunnerDropsNotifications | 4_sensor_application.py:47-48 | Once the runner is stopped, every call of an application that checks `STOP_FLAG` leaves the whole state unchanged. |
| HandlerInvariants.HandleLineStopFlag | old_code/wizard_dual_window.py:70-74 | In the immediate-stop variants, a line keeps a set stop flag set. A failure adds exactly one to the counter, and when it reaches 4 the flag is set. |
| HandlerInvariants.DrainStopFlag | old_code/wizard_dual_window.py:41-75 | In the immediate-stop variants, the loop keeps a set stop flag set, and sets it whenever it counts a failure that reaches 4. |
| HandlerInvariants.ImmediateAbortIgnoresLaterCalls | old_code/main_app.py:68-73 | In the wizard and the main application, a call whose count of failures reaches 4 returns with `STOP_FLAG` set. Every later call then changes nothing. |
| LineBuffer.SplitFirstLine | 4_sensor_application.py:57 | `split('\n', 1)` on a buffer with a newline returns a newline-free line and the rest, and `line + "\n" + rest` is the buffer. |
| LineBuffer.ExtractLines | 4_sensor_application.py:56-58 | The extracted lines and the rest have no newline, and the terminated lines followed by the rest give back the buffer. |
| LineBuffer.ExtractLinesUnique | 4_sensor_application.py:56-58 | Any split of a buffer into newline-free terminated lines plus a newline-free rest is the one `ExtractLines` finds. |
| LineBuffer.ChunkBoundary | 4_sensor_application.py:53-58 | Extracting from `buffer + a` and then from `rest + b` yields the same lines, in order, and the same rest as extracting from `buffer + (a + b)`. |
| LineParser.ParseCountThenConvert | 4_sensor_application.py:63-67 | It has no contract of its own; `LineParser.CountThenConvertSpec` states what it accepts and refuses. |
| LineParser.ParseConvertThenCount | old_code/main_app.py:46-48 | It has no contract of its own; `LineParser.ConvertThenCountSpec` states what it accepts and refuses. |
| LineParser.ParseUnchecked | old_code/main_data_collection.py:37 | It has no contract of its own; `LineParser.UncheckedSpec` states what it accepts. |
| LineParser.ParseFieldsSpec | 4_sensor_application.py:67 | `list(map(float, parts))` succeeds exactly when every part is a number, and then yields each part's number in order. |
| LineParser.CountThenConvertSpec | 4_sensor_application.py:63-67 | Counting first accepts exactly six numeric fields, with their values. A wrong count is reported as such. |
| LineParser.ConvertThenCountSpec | old_code/wizard_dual_window.py:48-50 | Converting first accepts the same lines with the same values. A non-numeric field is reported whatever the count. |
| LineParser.UncheckedSpec | old_code/main_data_collection.py:37 | Without a count check, any all-numeric line is accepted, with one value per field. |
| LineParser.ValidationOrdersAgree | old_code/main_app.py:46-48 | The two validation orders accept the same lines with the same values. |
| PyText.IsBlank | 4_sensor_application.py:59 | It has no contract of its own; `PyText.BlankIffAllSpace` states when it holds. |
| PyText.LStripSpec | 4_sensor_application.py:59 | `lstrip` keeps a suffix, drops only whitespace, and stops at a character that is not whitespace. |
| PyText.RStripSpec | 4_sensor_application.py:59 | `rstrip` keeps a prefix, drops only whitespace, and stops at a character that is not whitespace. |
| PyText.BlankIffAllSpace | 4_sensor_application.py:59 | `line.strip() == ""` holds exactly when every character of the line is whitespace. |
| PyText.Split | 4_sensor_application.py:63 | `split(',')` returns at least one part, no part holds a comma, and joining the parts with commas gives back the line. |
| PyText.SplitJoin | 4_sensor_application.py:63 | Splitting the comma-join of comma-free parts gives back the parts. |
| PyText.SplitOnceUnique | 4_sensor_application.py:57 | `split(sep, 1)` cuts at the first separator: any separator-free prefix followed by `sep` is the one it finds. |
| PyFloat.ParseFloat | 4_sensor_application.py:67 | Python's `float()` on one field. It has no contract of its own; `PyFloat.ParseIntText` and `BlankIsNotNumber` state what it accepts and refuses. |
| PyFloat.ParseIntText | 4_sensor_application.py:67 | `float()` reads the decimal text of every integer back exactly. |
| PyFloat.BlankIsNotNumber | 4_sensor_application.py:67 | `float()` refuses a field that is empty or only whitespace. |
| Output.OutputName | old_code/main_app.py:186 | The CSV name built at the start of an exercise. It has no contract of its own; `Output.LabelledOutputName` states what its labelled form is. |
| Output.LabelledName | old_code/main_app.py:222-223 | The name a kept file is renamed to. It has no contract of its own; `Output.LabelledOutputName` states its value for every name `OutputName` builds. |
| Output.RFind | 4_sensor_application.py:283 | The index found holds the last occurrence of the character. None means the character does not occur. |
| Output.RFindPastTail | 4_sensor_application.py:283 | Text without the character, appended at the end, does not move its last occurrence. |
| Output.SplitExt | 4_sensor_application.py:283 | `os.path.splitext` returns a root and an extension that concatenate to the path. |
| Output.SplitExtAtDot | 4_sensor_application.py:283 | `splitext` cuts at the last dot when the last `/` precedes it and a non-dot lies between them. |
| Output.LastDotStartsExt | 4_sensor_application.py:283 | When the extension starts with its only dot, the last dot of `stem + ext` is where `ext` begins. |
| Output.LastSlashInPrefix | 4_sensor_application.py:283 | When the tail holds no `/`, the last `/` of `prefix + tail` lies in the prefix. |
| Output.SplitCsvName | 4_sensor_application.py:248-283 | `splitext` splits a name `prefix_exercise.csv`, whose prefix holds a `/` and whose exercise holds none, into `prefix_exercise` and `.csv`. |
| Output.LabelledOutputName | old_code/main_app.py:186-224 | For a name `./data/{school}_{date}_{grade}_{exercise}.csv` with no `/` in the exercise, the labelled name `base + "_" + label + ext` is `./data/{school}_{date}_{grade}_{exercise}_{label}.csv`. |
| Output.FourSensorRowsMatchHeader | 4_sensor_application.py:251-262 | Every row of the four-sensor application has one column per header name (25). |
| Output.WizardRowsMatchHeader | old_code/wizard_dual_window.py:236-241 | Every row of the wizard has one column per header name (19). |
| Output.MainAppRowsMatchHeader | old_code/main_app.py:189-194 | Every row of the main application has one column per header name (19). |
| Hub.SensorHub.constructor | 4_sensor_application.py:18-24 | The object starts in `Handler.Initial`: empty buffers, no start times, empty slots, no errors, stop flag clear. |
| Hub.SensorHub.SlotsAllFilled | 4_sensor_application.py:73 | The loop over the sensors answers exactly whether every slot is filled. |
| Hub.SensorHub.ClearSlots | 4_sensor_application.py:85-87 | The `for` loop leaves every slot empty. |
| Hub.SensorHub.Store | 4_sensor_application.py:69-87 | The store, the all-filled check, the row append and the clearing have the effect of `Handler.Store`. |
| Hub.SensorHub.RecordFailure | 4_sensor_application.py:88-93 | The `except ValueError` branch has the effect of `Handler.RecordFailure`. |
| Hub.SensorHub.HandleParsed | 4_sensor_application.py:69-93 | The `try` block after the parse stores the reading, counts the failure, or lets the error escape, with exactly the effect and raise outcome of `Handler.HandleParsed`. |
| Hub.SensorHub.HandleLine | 4_sensor_application.py:59-93 | One iteration on an already cut-off line has the effect and raise outcome of `Handler.HandleLine`. |
| Hub.SensorHub.NextLine | 4_sensor_application.py:57-58 | It cuts off the first line, writes the buffer back, then handles the line. |
| Hub.SensorHub.DrainLines | 4_sensor_application.py:56-58 | The `while '\n' in buffer` loop has the effect of `Handler.Drain`. |
| Hub.SensorHub.Notify | 4_sensor_application.py:45-58 | One handler call has the effect of `Handler.Notify`, so every `Handler` lemma holds of the object. |
| Hub.SensorHub.StartExercise | old_code/wizard_dual_window.py:220-234 | Starting an exercise has the effect of `Handler.StartExercise`. |
| Hub.SensorHub.SetStop | 4_sensor_application.py:128-137 | The runner's `run` and `stop` set `STOP_FLAG`, and nothing else changes. |

## Left out

- BLE discovery, connection and `start_notify` are left out, as are the asyncio tasks, the QThread and Qt signals, and the GUI. One notification is modelled as one atomic call, because the handler body never awaits.
- `async_runner.wait()` called from inside the handler of the wizard and the main application is left out. So are their message boxes and the rename or deletion of the CSV file. The model records only that `STOP_FLAG` is set during the call.
- The four-sensor application's deferred stop through `QTimer.singleShot` is counted as a stop request (`abortRequests`). The stop it later causes is a separate `SetStop` call, not part of the handler.
- File I/O is left out; the CSV appends are a sequence of rows. Rows appended after a stop, while the file may already have been renamed or deleted, go to that same sequence.
- Floating point: values are exact reals, infinities and NaN. Binary rounding, overflow to infinity and the sign of zero are not modelled. `round(ms, 3)` is exact at microsecond resolution.
- `float()` accepts only ASCII digits here; Python also accepts other Unicode decimal digits.
- UTF-8 decoding of the chunk is left out; the chunk arrives as text.
- `datetime.now()` is read once per call: every line of a call gets the same `now`. The source reads the clock again for each line.
- `os.path.splitext` is modelled as the POSIX one; the Windows separator rules are not.
- The header rows are constants; only their widths are related to the rows.
- The source's `len(row) != 25` and `len(row) != 19` checks are not modelled as branches. `FourSensorRowsHave25Columns` and `ThreeSensorRowsHave19Columns` prove they never fire.
- `Handler.Notify`, `Handler.Drain`, `Handler.HandleLine`, `Handler.HandleParsed`, `Handler.Store` and `Handler.StartExercise` carry only well-formedness in their own contracts. `Handler.RecordFailure`, `Handler.SetStopFlag`, the three `LineParser` parses, `PyFloat.ParseFloat`, `PyText.IsBlank` and the two `Output` names carry none. What each does is stated by the lemmas named in its row above.
- HandlerProps.NotifyChunked: requires that the first call not change the stop flag. Without that, the second call of an immediate-stop variant is dropped, and the equality fails.
- HandlerProps.NotifyChunked: holds only for the validating variants. Without validation, a refused line ends the first call and leaves the later lines for the second call to handle, whereas a single call with `a + b` stops at that line.
- The three earlier collectors name their file `./{school}_{date}_{grade}_{exercise}.csv`. `Output.OutputName` is the `./data/` form of the other three applications.
- The `print` of each refused line and its error (4_sensor_application.py:90, old_code/main_app.py:70, and the same line in the wizard) is left out, because it is console output only and changes no state.
- Persisting the school name and date to text files, `QDate` formatting and the elapsed-time timers are left out.

## Findings

| source | as written | input that shows it | evidently intended | confidence | as-written member | corrected member |
|---|---|---|---|---|---|---|
| 4_sensor_application.py:238-249 | `startExercise` resets `start_times` but never `error_counter`, so failures add up across exercises (the same holds in the wizard and the main application) | three refused lines in one exercise, then `startExercise`, then one refused line: that first failure of the new exercise already requests a stop | each exercise counts its own failures, so it stops only at its fourth | medium, not executed | HandlerProps.StaleErrorsStopNextExercise | HandlerProps.StartExerciseFresh |

`HandlerProps.FreshExerciseToleratesErrors` proves the intended property of the corrected start. `Handler.StartExercise` and `Hub.SensorHub.StartExercise` keep the behaviour as written, because the rest of the model follows the code.
