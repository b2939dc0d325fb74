# homework_bot decision logic in Dafny

A model of the decision logic of `homework.py`, a Telegram bot that polls the
Practicum homework-review API and forwards the newest status change of a
homework as a Russian notification. The HTTP request, the Telegram bot, the
environment and the clock become parameters; what remains is the status
catalog, the notification text, the response and token checks, and the polling
loop as a transition of its time cursor.

- `wrappers.dfy` — `Option` and `Result`.
- `py_values.dfy` (module `PyValues`) — decoded JSON values as Python sees
  them: truthiness, `d[key]`, `d.get(key)`, `v[0]`, `str(v)`, and the
  exceptions these raise (`KeyError`, `TypeError`, `IndexError`,
  `AttributeError`), plus the failures of the outside world.
- `homework.dfy` (module `Homework`) — `HOMEWORK_STATUSES` as `Statuses`,
  `parse_status` as `ParseStatus`, `check_response` as `CheckResponse`,
  `check_tokens` as `CheckTokens`, and `get_api_answer` as `FromDate`,
  `Answer` and `GetApiAnswer`. `ReadNotification` reads a notification back
  to its name and status; it is the inverse against which the message format
  is proved.
- `polling.dfy` (module `Polling`) — one pass of `main`'s loop as the pure
  `Iterate` (with `Process` for the part after the request), a finite run of
  passes as `Run`, and the class `Poller`, whose fields are the loop's cursor
  and the messages sent, with `Poll` (one pass) and `Serve` (a bounded loop)
  proved against `Iterate` and `Run`.

Five behaviours of homework.py that the model follows exactly:
- `check_response` returns an empty `homeworks` list like any other list;
  it does not reject it.
- `main` calls neither `check_response` nor `check_tokens`. It reads
  `homeworks` with `.get` and tests it for truthiness, and a missing
  `PRACTICUM_TOKEN` or `TELEGRAM_CHAT_ID` does not stop the loop.
- The cursor starts at the constant 1643477528, not at the current time.
- When `parse_status` or the send raises, the cursor does not advance. A
  newest record with an unknown status therefore blocks notifications for as
  long as the endpoint keeps answering with that record first
  (`RunStuckOnUnparsableRecord`). A newer record that parses ends the block
  (`NewerRecordUnblocks`).
- The cursor becomes whatever `current_date` the reply carries, or None when
  it is absent. Nothing makes it non-decreasing.

The two bare `raise` statements raise a `RuntimeError` in Python; the model
names them `NonOkStatus(code)` and `NotAList` so the cause stays visible. The
loop treats every exception alike, so this changes no behaviour.

## Model

| member | source | states |
|---|---|---|
| `Homework.VerdictOf` | homework.py:60 | the catalog lookup succeeds exactly for the three status strings and yields their verdict; an unhashable status is a TypeError, any other a KeyError carrying the status |
| `Homework.ParseStatus` | homework.py:56-61 | succeeds exactly when the record is a dict with `homework_name` and a catalog `status`, and then the text is the change notice, the quoted name, and the verdict; a non-dict is a TypeError; a missing name is a KeyError even when the status is missing too; a missing status is a KeyError |
| `Homework.ParseStatusCatalog` | homework.py:26-61 | for each of approved, reviewing and rejected and any string name, the message is exactly `Изменился статус проверки работы "` + name + `". ` + the catalog verdict, whatever other fields the record has |
| `Homework.ParseStatusUnknown` | homework.py:60 | a status other than the three catalog strings produces no message, only an error |
| `Homework.ReadNotificationInverts` | homework.py:61 | reading a notification back yields the name and the status it was built from, so distinct (name, status) pairs never share a message |
| `Homework.ReadNotificationSound` | homework.py:61 | anything that reads as a notification is the notification of the name and catalog status it reads as |
| `Homework.ParseStatusReadable` | homework.py:56-61 | the message of a successful parse reads back to the record's displayed name and its status code |
| `Homework.CheckResponse` | homework.py:48-53 | succeeds exactly when the response is a dict whose `homeworks` is a list, and returns that list unchanged; a non-dict is a TypeError, a missing key a KeyError, a non-list value the bare raise |
| `Homework.CheckResponseReturnsList` | homework.py:50-53 | any list under `homeworks` comes back as it is; the empty list is a success |
| `Homework.CheckTokens` | homework.py:64-74 | true exactly when all three secrets are set (an empty string counts as set); the `.env` test never changes the answer |
| `Homework.FromDate` | homework.py:40 | the window starts at the cursor when it is truthy, at the current time otherwise |
| `Homework.Answer` | homework.py:42-45 | a reply is a success exactly when its status is 200 and its body decodes, and then the decoded body is returned; any other status is an error carrying that status and no body |
| `Homework.GetApiAnswer` | homework.py:38-45 | the endpoint is asked with the cursor when it is truthy and with the current time otherwise, and a success is exactly a 200 reply carrying the returned body |
| `Homework.Notification` | homework.py:61 | the message is the change notice, then the quoted name, then the separator and the verdict, each at its place, with the length of the four parts together |
| `PyValues.Truthy` | homework.py:94 | a value is falsy exactly when it is the empty or zero value of its own type (None, False, 0, "", [], {}) |
| `PyValues.DictGet` | homework.py:93 | `d.get(key)` is the value `d[key]` yields when that succeeds, and None when `d[key]` would raise |
| `PyValues.Digits` | homework.py:61 | `str(n)` of a natural number is a canonical decimal numeral: digits only, with no leading zero except for 0 itself |
| `PyValues.CanonicalIsDigits` | homework.py:61 | every canonical numeral is the one `str()` writes for its value, so the canonical numeral of a number is unique |
| `PyValues.DigitsReadBack` | homework.py:61 | the digits `str(n)` writes read back to n, so they are its decimal form |
| `PyValues.Display` | homework.py:61 | the f-string shows a string name as it is, None as `None`, booleans as `True` and `False`, and an integer name as the canonical signed numeral that reads back to it |
| `PyValues.Subscript` | homework.py:58-59 | `d[key]` succeeds exactly on a dict holding the key and yields its value |
| `PyValues.First` | homework.py:96 | `v[0]` succeeds exactly on a non-empty list or string and yields element 0 or the first character; an empty list or string raises IndexError, a dict KeyError(0), anything else TypeError |
| `Polling.Process` | homework.py:93-97 | at most one message is sent, and only the notification of element 0 of a non-empty `homeworks` list; a falsy `homeworks` sends nothing and moves the cursor to `current_date`, and a pass that neither sends nor raises is one whose `homeworks` was falsy; an iteration ends without exception exactly when the reply is a dict and, if `homeworks` is truthy, its element 0 exists, parses and is delivered; on an exception the cursor stays and nothing is sent |
| `Polling.Iterate` | homework.py:89-103 | a failed request leaves the cursor and sends nothing; a pass without exception moves the cursor to the reply's `current_date`; at most one message per pass |
| `Polling.ProcessSendsFirstRecord` | homework.py:93-97 | when element 0 parses and is delivered, its notification is the only message and the cursor becomes `current_date` |
| `Polling.NewerRecordUnblocks` | homework.py:91-97 | with a truthy cursor, a reply whose newest record parses and is delivered sends that record's notification and moves the cursor to `current_date`, ending a block by an unparsable record |
| `Polling.OnlyFirstRecordMatters` | homework.py:93-96 | records after element 0 never change the outcome of a pass |
| `Polling.MainSkipsCheckResponse` | homework.py:93-97 | a reply without `homeworks`, which check_response rejects, still ends the pass normally and moves the cursor |
| `Polling.MissingDateFallsBackToNow` | homework.py:97 | a successful reply without `current_date` leaves the cursor None, and the next request starts at the current time |
| `Polling.NonOkStatusKeepsCursor` | homework.py:43-44 | a non-200 reply is caught: nothing is sent and the cursor stays |
| `Polling.ApprovedExample` | homework.py:93-97 | one approved record named hw1 with `current_date` 1700000000 sends `Изменился статус проверки работы "hw1". ` followed by the approved verdict and moves the cursor to 1700000000 |
| `Polling.ApprovedHw1Message` | homework.py:56-61 | the record named hw1 with status approved formats to the hw1 notice followed by the approved verdict |
| `Polling.Run` | homework.py:89-103 | over a finite run of the loop, at most one message is sent and at most one exception is caught per pass |
| `Polling.RunSendsAtMostOnePerIteration` | homework.py:89-103 | over any run, messages sent plus exceptions caught never exceed the number of passes |
| `Polling.RunFailingKeepsCursor` | homework.py:99-103 | when every request fails, the cursor never moves, nothing is sent, and every pass logs one exception |
| `Polling.PassStuckOnUnparsableRecord` | homework.py:91-103 | one pass whose newest record parse_status rejects keeps the cursor, sends nothing and catches parse_status's exception |
| `Polling.RunStuckOnUnparsableRecord` | homework.py:91-103 | with a truthy cursor and an endpoint that keeps returning a newest record parse_status rejects, the cursor never moves and nothing is ever sent |
| `Polling.Poller.constructor` | homework.py:88 | the cursor starts at 1643477528 with nothing sent |
| `Polling.Poller.Poll` | homework.py:90-103 | one pass: the new cursor, the messages appended to the outbox and the caught exception are those of `Iterate` on the old cursor |
| `Polling.Poller.Serve` | homework.py:89-103 | a bounded run of the loop: final cursor, outbox and exception log are those of `Run` on the old cursor |

## Left out

- The HTTP request (`requests.get`, the endpoint URL, the `Authorization`
  header and the encoding of `from_date`) is the parameter `Server`, a
  function from the query value to a reply; `response.json()` is the optional
  decoded body.
- The Telegram bot and the chat id: `send_message` is the parameter
  `deliver`, which says whether the text was accepted; a refusal is the
  `SendError` exception.
- Logging, the rotating log handler, `print`, and the error logged by the
  `else:` clause after every successful pass: output with no decision in it.
- `load_dotenv` and `os.getenv`: the secrets are `Option<string>` parameters
  of `CheckTokens`; `os.path.exists` is the boolean `envFileExists`.
- `time.time` and `time.sleep(RETRY_TIME)`: the current time is a parameter
  of each pass and the sleep is not modelled; `while True` is modelled by
  one pass and by finite runs of passes.
- The Telegram `Bot` constructor at homework.py:87 is not part of this
  model. Whatever it does with a missing `TELEGRAM_TOKEN` before the loop
  starts is not captured; the model starts at the loop.
- JSON floating-point numbers are not part of the value model.
- Display: a `homework_name` that is a JSON array or object is rendered as a
  fixed placeholder rather than by Python's repr; strings, integers, booleans
  and None are rendered as `str()` renders them.
- Python dict ordering is not modelled (objects are maps).
