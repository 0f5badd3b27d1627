# Homework status watcher, modelled in Dafny

The watcher is a single Python script (`homework.py`). It polls a homework-review
service from a fixed `from_date`, compares the first homework of each answer
with the last one it has seen, and sends a chat message when that homework
changes. Its logger writes every record to a file and to the console. A third
handler forwards every record at ERROR or above to the same chat through
`send_message`, and `send_message` itself logs a WARNING when the chat
transport raises.

This project models:

- the formatter `parse_homework_status`;
- the answer classifier `get_homeworks`, once the HTTP call has returned;
- the severity routing between the logger and `send_message`;
- the start of `main` and one pass of its loop, as a pure step function, plus
  finite runs of such passes.

It is organised in seven modules:

- `JsonValues`: decoded JSON values, Python `==` between them (`PyEq`: `True
  == 1`, dictionaries compare key by key) and `str()` of a value (`Show`).
- `Wrappers`: `Option`, and `Result`, which the model returns where the
  Python code raises.
- `Exceptions`: the Python exceptions the core can raise, with the text
  `str(e)` gives.
- `Logging`: levels, records, the observable effects (`Polled`, `Wrote`,
  `Sent`, `Slept`) and the mutually recursive `Log` / `SendMessage`.
  `SendMessage` terminates because the send-failure record is a WARNING,
  below the ERROR threshold of the chat handler. The `decreases` clauses
  state exactly that.
- `Formatter`: `parse_homework_status`, and a reader that takes a message
  back to the name and verdict it announces.
- `Client`: `get_homeworks` as a classifier of the HTTP outcome.
- `Watch`: `main`. `Start` covers the lines before the loop. `Step(state,
  cycle)` is one pass, where `cycle` holds the HTTP outcome and the outcome
  of the pass's one send attempt. `Run` chains passes. `Classify` is the
  reference account of a pass: crashed, idle, or notified with a message.

The outside world is passed in as parameters:

- the HTTP call becomes a `FetchOutcome`: a transport failure, or a status
  code plus a body that did or did not decode;
- the chat transport becomes a `Delivery`: a receipt, or a failure reason;
- the clock reading at start-up becomes `now`.

Behaviour of the code worth knowing:

- The cursor is never clamped: the clamp in `get_homeworks` is commented
  out, so a future `from_date` is sent unchanged.
- The last homework is replaced *before* formatting. So a homework whose
  formatting raises still becomes the last one, and is not retried.
- The name check is `is None`, so an empty-string name is accepted.
- An unrecognised status leaves `verdict` unbound and raises
  UnboundLocalError.
- The pass after a failure sleeps the same `SLEEP_TIME` as every other pass.

## Model

| member | source | states |
|---|---|---|
| Formatter.ParseHomeworkStatus | homework.py:63-76 | formatting succeeds exactly for a dict with a non-null name whose status is `rejected`, `reviewing` or `approved`; a record without a name always fails |
| Formatter.FormatterMessages | homework.py:63-76 | the exact outcomes: a dict without a name fails with ValueError "Нет такого поля" whatever its status; a named record without `status` raises KeyError 'status'; any other status raises UnboundLocalError for `verdict`; `reviewing` gives "Домашка <name> взята в работу"; `rejected` and `approved` give the shared template with their own verdict sentence |
| Formatter.ReadRendered | homework.py:67-76 | reading a rendered message back recovers the name and the status it was rendered from |
| Formatter.ReadOnlyRendered | homework.py:67-76 | every message the reader accepts is the rendering of what it reads, so rendering and reading are inverse |
| Formatter.FormattedNotice | homework.py:63-76 | every successful formatting announces the record's shown name and its status, recoverably |
| Formatter.MessagesSeparateStatuses | homework.py:67-76 | two records with the same shown name get the same message exactly when their statuses are equal |
| Client.GetHomeworks | homework.py:83-91 | the classification succeeds exactly for status 200 with a decoded dictionary without an `error` key, and then returns that dictionary unchanged; at most one INFO record is written |
| Client.ClassifierMessages | homework.py:85-90 | a status other than 200 fails with "Ошибка ответа сервера <code>"; an `error` key fails with "Ошибка ответа сервера"; the INFO record is written exactly when the status is 200 |
| Logging.Log | homework.py:44-57 | logging a record first writes it; the chat handler's sends follow (its measure, the record's level, shows the dispatch terminates) |
| Logging.SendMessage | homework.py:94-98 | `send_message` starts with its one send attempt; its measure, one above WARNING, proves that the failure WARNING cannot lead back to another send |
| Logging.SendMessageEffects | homework.py:94-98 | one `send_message` call is exactly one send attempt; a failed attempt writes one WARNING record naming the reason, and a delivered one writes nothing |
| Logging.SendMessageTailBelowThreshold | homework.py:94-98 | after its attempt, `send_message` writes only records below the forwarding threshold |
| Logging.QuietBelowThreshold | homework.py:44-48 | a record below ERROR is only written, never sent |
| Logging.AlertRouting | homework.py:24-27 | a record is forwarded exactly when its level reaches ERROR, as one attempt carrying its log line; besides the record, at most the send-failure WARNING is written, and that is below the threshold |
| Logging.AlertEffects | homework.py:44-48 | logging at ERROR or above yields one alert record, one send of its line and no sleep |
| Logging.LogShape | homework.py:24-27 | the complete effect sequence of logging one record: the write, then, at ERROR or above, the attempt and, on failure, the WARNING |
| Logging.SendMessageIsNoAlert | homework.py:94-98 | a `send_message` call never alerts and never sleeps |
| JsonValues.PyEqReflexive | homework.py:117 | every decoded value compares equal to itself |
| JsonValues.PyEqSymmetric | homework.py:117 | the comparison of homeworks is symmetric |
| JsonValues.BoolEqualsOne | homework.py:117 | a record holding `true` compares equal to one holding `1`, though the two differ structurally |
| Watch.Newest | homework.py:116 | taking the first homework: a missing `homeworks` key raises KeyError, an empty list or empty string raises IndexError, and it succeeds exactly for a non-empty list (its first element) or a non-empty string (its first character) |
| Watch.Observe | homework.py:109-116 | what a pass learns: the classifier's error when the answer is refused; the empty list exactly for an accepted answer whose `homeworks` is `[]`; otherwise the first homework exactly when indexing succeeds, and the error indexing raises when it does not |
| Watch.Crash | homework.py:125-127 | the `except` clause writes the ERROR record, sends its line next, and ends by sleeping `SLEEP_TIME` |
| Watch.Start | homework.py:101-105 | start-up sends the start message exactly once, ends with the DEBUG record, and starts from cursor `now` with no last homework |
| Watch.Step | homework.py:107-127 | every pass queries once, from the unchanged cursor, first, and ends by sleeping `SLEEP_TIME` |
| Watch.StepNextState | homework.py:111-120 | the last homework changes only when the first homework differs from it, and then it becomes that homework; the cursor is never modified |
| Watch.StepEffects | homework.py:107-127 | a pass's sends, alerts, sleeps and queries follow its reference account: a crash alerts once and sends that alert's line, an idle pass sends nothing, a notifying pass sends its message; one sleep and one query per pass |
| Watch.BrokenPassKeepsState | homework.py:125-127 | a pass whose query, answer or indexing raises keeps the state and sends only its ERROR line |
| Watch.MissingHomeworksIsError | homework.py:111-116 | an accepted answer without `homeworks` is not an empty list: it raises KeyError and alerts "Бот упал с ошибкой: 'homeworks'" |
| Watch.EmptyListIsQuiet | homework.py:111-114 | an empty `homeworks` list logs "нету домашних работ", sends nothing, keeps the state and sleeps the usual time |
| Watch.UnchangedIsQuiet | homework.py:117-123 | a first homework equal to the last one sends nothing, alerts nothing and changes nothing |
| Watch.ChangedBecomesLast | homework.py:117-121 | a changed homework becomes the last one whether or not it formats; the pass sends the message, or the alert for the formatting error |
| Watch.StepBounded | homework.py:117-127 | one pass makes at most one send attempt and one alert, and when it alerts, its send is that alert's line |
| Watch.RepeatIsQuiet | homework.py:116-119 | the same answer twice in a row, when it yields a first homework: the second pass sends nothing and changes nothing |
| Watch.NotifiedPassEnd | homework.py:120-123 | a notifying pass sends exactly its message, never alerts, sleeps once and does not query again |
| Watch.CrashedPassEnd | homework.py:125-127 | the `except` clause sends exactly the ERROR line, writes one alert and sleeps once |
| Watch.Run | homework.py:107-127 | finitely many passes of the loop keep the cursor, and a non-empty run starts with a query from it |
| Watch.Main | homework.py:101-127 | start-up followed by the loop: the start message is sent first, the cursor stays at `now`, and each pass adds at most one send |
| Watch.RunKeepsCursor | homework.py:104-109 | over any finite run the cursor never moves |
| Watch.RunPollsFromCursor | homework.py:83-84 | over any finite run there is one query per pass, every one from the starting cursor |
| Watch.RunSleepsEveryPass | homework.py:107-127 | over any finite run there is one sleep of `SLEEP_TIME` per pass |
| Watch.RunSendsAtMostOncePerPass | homework.py:107-127 | over any finite run there is at most one send attempt and one alert per pass, however many sends fail |
| Watch.RunTwice | homework.py:116-123 | two passes over the same answer, when it yields a first homework: they end where the first pass did and send only what the first sent |
| Watch.SameAnswerTwiceSendsOnce | homework.py:116-121 | the same homework fetched twice in a row is announced at most once |
| Watch.ReviewingScenario | homework.py:101-123 | start-up, then the same reviewing homework twice: exactly the start message and one "Домашка <name> взята в работу" message are sent, and that homework is the last one seen |
| Watch.ReviewingTwice | homework.py:107-123 | from the start-up state, two passes over one reviewing homework send its one notification and remember it |
| Watch.RepeatedFailureAlertsTwice | homework.py:125-127 | the same answer twice when it raises before comparing: the state is kept and both passes send the ERROR line, one attempt each |
| Watch.BoolChangeUnnoticed | homework.py:117 | a last homework holding `true` and a new one holding `1` compare equal: the pass sends nothing and keeps the old record |
| Watch.ServerErrorScenario | homework.py:85-86 | a status other than 200 keeps the cursor and the last homework, alerts "Бот упал с ошибкой: Ошибка ответа сервера <code>" and sleeps the usual time |

## Left out

- The HTTP request, JSON decoding and the chat bot are not modelled. Each is
  replaced by its outcome, passed in as a parameter (`FetchOutcome`,
  `Delivery`).
- Environment variables, tokens, headers and the URL carry no logic and are
  left out.
- The file and console handlers are modelled only as "the record is
  written", with no files or streams.
- `Logging.LogLine`: the time stamp at the head of the forwarded line is
  left out, because the clock is outside the model. The line is
  `levelname, name, message`, with the logger name `__main__`.
- `time.sleep` is an effect, `Slept(seconds)`. `time.time()` at start-up is
  the parameter `now`.
- The infinite `while True` loop is modelled as finite runs of passes. Its
  `else` branch (lines 128-130) is unreachable and is left out.
- Floating-point JSON numbers are left out; numbers are integers.
- `JsonValues.Show`: lists and dictionaries are rendered as fixed
  placeholders, not in Python's `repr` form.
- `Exceptions.Describe`: the UnboundLocalError text is the one used by
  Python 3.8 to 3.10. Later versions word it differently.
- `Watch.Step`: its own contract states only the frame of a pass: one
  query first, the cursor kept, one sleep last. What a pass sends, alerts and
  stores is stated by `Watch.StepEffects`, `Watch.StepNextState` and the
  lemmas built on them.
- `Watch.ResponseText`: `str()` of a sent message is modelled as the
  transport's receipt.
- `Watch.Step`: one delivery outcome is given per pass. A pass makes at most
  one send attempt, which `Watch.StepBounded` proves, so this loses nothing.
