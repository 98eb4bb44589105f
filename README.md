# Door alarm service — Dafny model

The alarm service is a single Python script. It polls the GPIO pin wired to a
door reed switch once a second and logs "Door is open" or "Door is closed"
to a rotating log file. It also redirects the process's standard output and
error streams into that log. This project models the two pieces of logic in it:

- **The stream adapter `MyLogger`** (`logging.dfy`, module `Logging`). An object
  with two fields, a logger and a level. Its `write(message)` forwards
  `message.rstrip()` as one record at that level, but only when the stripped
  text is not empty. The logger is a class `Logger` whose `records` sequence
  `Log` appends to. The two adapters that replace standard output (INFO) and
  standard error (ERROR) share one logger. `rstrip()` is the function `RStrip`.
  Its contract fully determines it: the longest prefix that does not end in
  whitespace, with only whitespace after it.
- **The poll loop** (`poll.dfy`, module `PollLoop`). The `while True` loop is run
  over a finite sequence of pin readings (`true` = high = switch open). Each
  iteration logs exactly one INFO record and overwrites the `door` flag: 0
  after "open", 1 after "closed". `Poll` is proved against the function
  `Transcript` (the records logged for a sequence of readings) and against
  `FinalDoor`. The lemmas state what those functions promise.

The comments next to the `door` assignments say that the flag keeps the loop
from acting again until the switch changes. The code never reads the flag
before it branches. The model follows the code: one record per iteration,
whatever came before (`RepeatedReadingRepeatsRecord`, `TranscriptAppend`).

Severities use the logging library's numbers: INFO is 20 and ERROR is 40.

## Model

| member | source | states |
|---|---|---|
| `Logging.RStrip` | alarm/alarm_service.py:55 | `rstrip()`: the result is a prefix of the message. It is empty or ends in a non-whitespace character. Everything the message has after it is whitespace. |
| `Logging.RStripUnique` | alarm/alarm_service.py:55 | Any prefix with those three properties equals `RStrip`, so the contract of `RStrip` pins down its result. |
| `Logging.RStripIdempotent` | alarm/alarm_service.py:55-56 | Stripping an already stripped text leaves it unchanged. |
| `Logging.RStripEmptyIffBlank` | alarm/alarm_service.py:54-55 | The guard `message.rstrip() != ""` fails exactly when every character of the message is whitespace (the empty message included). |
| `Logging.RStripExample` | alarm/alarm_service.py:55-56 | `"x\n"` strips to `"x"`. |
| `Logging.Forwarded` | alarm/alarm_service.py:53-56 | One write forwards at most one record. It forwards none exactly when the message is blank. Any record it forwards carries the adapter's level. Its text is non-empty, does not end in whitespace, and is a prefix of the message. |
| `Logging.ForwardedText` | alarm/alarm_service.py:55-56 | For a message that is not blank, exactly one record is forwarded, and only whitespace of the message is left out of its text. |
| `Logging.ForwardedIsStable` | alarm/alarm_service.py:55-56 | Writing a forwarded record's text again forwards the same record, unchanged. |
| `Logging.PrintNewlineSuppressed` | alarm/alarm_service.py:54-56 | The writes `"x"` then `"\n"` produce the single record `"x"`; the bare newline produces none. |
| `Logging.Logger.constructor` | alarm/alarm_service.py:33 | A new logger holds no records. |
| `Logging.Logger.Log` | alarm/alarm_service.py:56 | `logger.log(level, msg)` appends one record with that level and text and keeps all earlier records. |
| `Logging.Logger.Info` | alarm/alarm_service.py:73 | `logger.info(msg)` appends one INFO record and keeps all earlier records. |
| `Logging.MyLogger.constructor` | alarm/alarm_service.py:48-51 | The adapter stores the given logger and level. Both fields are constants, so no later call changes them. |
| `Logging.MyLogger.Write` | alarm/alarm_service.py:53-56 | The logger's records become the old records followed by `Forwarded(level, message)`. Earlier records are untouched. Nothing else changes. |
| `Logging.RedirectStreams` | alarm/alarm_service.py:58-61 | Two new adapters share the logger: standard output logs at INFO, standard error at ERROR. |
| `PollLoop.StepRecord` | alarm/alarm_service.py:72-79 | One iteration logs an INFO record. Its text is "Door is open" exactly when the pin is high, and "Door is closed" exactly when it is low. |
| `PollLoop.StepDoor` | alarm/alarm_service.py:72-80 | One iteration leaves `door` at 0 or 1. It is 1 exactly when the pin is low. |
| `PollLoop.TranscriptAt` | alarm/alarm_service.py:70-81 | After N readings exactly N records were logged. Record i is the record of reading i alone. |
| `PollLoop.TranscriptAppend` | alarm/alarm_service.py:70-81 | Running over readings p then q logs the records of p followed by those of q. No iteration depends on earlier ones. |
| `PollLoop.FinalDoorLastReading` | alarm/alarm_service.py:67-80 | `door` starts at 0. It ends as 1 exactly when there was a last reading and it was low. Otherwise it ends as 0. |
| `PollLoop.DoorMatchesLastRecord` | alarm/alarm_service.py:70-80 | After at least one iteration, `door` is 1 exactly when the last record logged is "Door is closed". |
| `PollLoop.RepeatedReadingRepeatsRecord` | alarm/alarm_service.py:77-80 | Two equal readings in a row log the same record twice. The flag does not suppress repeats. |
| `PollLoop.ExampleRun` | alarm/alarm_service.py:70-81 | Readings high, high, low, high log open, open, closed, open, and leave `door` at 0. |
| `PollLoop.Poll` | alarm/alarm_service.py:66-81 | Running the loop appends `Transcript(readings)` to the logger's records after the records already there. It returns `FinalDoor(readings)` as `door`. |

## Left out

- `Logging.RStrip`: whitespace is the six ASCII characters space, tab, line feed, carriage return, vertical tab and form feed. That is what `rstrip()` strips from a Python 2 byte string. A Python 3 string would also lose `\x1c`–`\x1f` and the Unicode space characters.
- GPIO access (`io.setmode`, `io.setup`, `io.input`): a hardware library; the pin readings are a sequence given to `Poll`.
- Command-line parsing with `argparse`: it only chooses the log file path, which the model does not have.
- Logging configuration: the named logger's `setLevel`, the midnight-rotating file handler with its backup count, and the timestamped line format. The model keeps every record it is given, as level and text only. It does not model files, rotation or timestamps.
- Replacing `sys.stdout` and `sys.stderr` for the whole process: `RedirectStreams` builds the two adapters, but no other code writes to them in the model.
- `time.sleep(1)` and the loop's non-termination: `Poll` runs one iteration per reading and then returns.
- Failures of the pin read, the file handler or the sleep: in the source they end the process; the model has no such failures.
