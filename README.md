# Homework status bot: a Dafny model of its polling core

The bot in `homework.py` polls the Yandex Practicum homework-status API for one
student. It checks the decoded reply against the documented shape and maps the
first homework's review status to a fixed verdict text. It sends that text to a
Telegram chat. It then waits and polls again. Failures inside an iteration are
caught at the loop boundary and reported to the same chat. A failure is reported
again only when its text differs from the last one reported.

The model has four modules, one per part of the program:

- `Python` (python.dfy) holds the pieces of Python's runtime the code relies on.
  These are decoded JSON values, `dict.get` with and without a default, the class
  names `type()` reports, `str()` of an integer, `str.join` and `repr` of a plain
  string.
- `Exceptions` (exceptions.dfy) holds the exception classes of exceptions.py and
  the built-in exceptions the code raises. Each carries the text `str(e)` gives,
  because the loop's duplicate suppression compares exactly that text. The module
  also models how homework.py imports those classes (see Findings).
- `Homework` (homework.dfy) holds the verdict catalogue, `check_tokens`,
  `get_api_answer`, `check_response` and `parse_status`.
  - `check_tokens` is a method with the source's `for` loop. It is proved against
    the function `MissedTokens`.
  - `get_api_answer` is modelled after the request. It is a function of a
    `FetchOutcome`: either a transport exception's text, or a reply with its
    status code, reason and decoded (or undecodable) body.
- `PollLoop` (poll_loop.dfy) holds one iteration of the loop in `main`. The class
  `Bot` has fields for the three variables that carry over between iterations:
  - `timestamp`, the `from_date` watermark;
  - `lastError`, the last failure text reported;
  - `sendStatus`, the last `send_message_status`, which is `None` while that
    Python local is still unbound.

  `Bot.Step` follows the `try`/`except` of one iteration statement by statement.
  Each message handed to the bot is appended to the ghost log `sent`. Each
  request's `from_date` is appended to the ghost log `fromDates`. `Step` is proved
  against the pure function `Cycle`, and the loop's properties are lemmas about
  `Cycle`.

Behaviour of the code worth knowing, which the model keeps:

- Every status other than exactly 200 is an error, so other 2xx replies are
  errors too.
- The watermark starts at 0, not at the current time.
- After an empty homework list the watermark does not always advance. The code
  reads the `send_message_status` left by an earlier iteration:
  - while it is still unbound, the iteration raises `UnboundLocalError` and
    reports it (`FirstEmptyListCycleReportsFailure`);
  - when it is true, the watermark advances;
  - when it is false, nothing changes.
- `check_response` returns the list itself, not the tuple its annotation names.
- `response.get('current_date', timestamp)` stores whatever JSON value the
  payload holds there. So `timestamp` is a JSON value in the model, not an integer.

## Model

| member | source | states |
|---|---|---|
| `Python.NatToStringValue` | homework.py:80-82 | the decimal digits printed for a non-negative number denote that number again |
| `Python.IntToString` | homework.py:80-82 | `str()` of a status code: non-empty, all digits except a leading minus sign, the minus sign appears exactly for negative codes, the digits after it denote the code's magnitude, and there are no leading zeros (0 prints as "0") |
| `Python.IntToStringInjective` | homework.py:80-82 | distinct status codes print as distinct texts |
| `Exceptions.ImportFrom` | homework.py:12-13 | `from m import ...` succeeds exactly when every name is defined; otherwise it fails naming the first undefined name, after only defined ones |
| `Exceptions.AsWrittenImportFails` | homework.py:12-13 | the import as spelled (Cyrillic first letter) fails on `СheckTokensError`, and the name raised at line 49 is not defined by exceptions.py either |
| `Exceptions.ImportOnlyCorrectionLeavesRaiseUnbound` | homework.py:49 | with only the import corrected, the name the `raise` uses is still not bound, so check_tokens would fail with NameError |
| `Exceptions.CorrectedImportResolves` | exceptions.py:1-14 | with the Latin spelling at the import and the raise, all four classes exceptions.py defines are imported and the raised name is one of them |
| `Homework.MissedTokensExactly` | homework.py:42-45 | a name is collected exactly when some setting with that name is unset |
| `Homework.MissedTokensInDeclarationOrder` | homework.py:37-45 | the collected names are the unset ones among PRACTICUM_TOKEN, TELEGRAM_TOKEN, TELEGRAM_CHAT_ID, in that order |
| `Homework.CheckTokens` | homework.py:33-49 | passes exactly when all three settings are set; otherwise raises CheckTokensError whose text is the fixed prefix followed by the unset names in declaration order, comma-separated |
| `Homework.GetApiAnswer` | homework.py:75-87 | three non-overlapping failures: a transport exception gives RequestApiError, any status other than 200 gives ResponseApiError, a 200 with an undecodable body gives InvalidJSONError; otherwise the decoded body is returned unchanged. A ResponseApiError text contains the status code and the reason |
| `Homework.ResponseApiErrorTextInjective` | homework.py:80-82 | two ResponseApiError texts are equal only when both the codes and the reasons are equal |
| `Homework.CheckResponse` | homework.py:90-105 | accepts exactly a dict with a `homeworks` key holding a list, and returns that list unchanged; a non-dict gives TypeError, a missing key gives KeyError, a non-list gives the two-argument TypeError |
| `Homework.ParseStatus` | homework.py:108-129 | succeeds exactly on a dict with a non-null `homework_name` and a `status` that is one of the three catalogue keys; the result starts with the announcement prefix and ends with that status's verdict; a non-dict fails with AttributeError, every other refusal is a TypeError |
| `Homework.ParseStatusOfRecord` | homework.py:26-30 | approved, reviewing and rejected each give `Изменился статус проверки работы "<name>". ` followed by their fixed verdict, for any name including the empty one; every other status string is refused |
| `Homework.ParseStatusFailureOrder` | homework.py:112-119 | a missing or null name is reported before a missing status, and a missing status before an unknown one |
| `Homework.AnnouncementsDistinguishStatus` | homework.py:121-129 | for one homework, different statuses give different announcements |
| `PollLoop.Bot.constructor` | homework.py:136-137 | the loop starts with timestamp 0, an empty last error, the send status unbound, and nothing sent or requested |
| `PollLoop.Bot.SendMessage` | homework.py:52-63 | one message goes to the bot per call, and the result says whether the bot API accepted it |
| `PollLoop.Bot.Step` | homework.py:139-159 | one iteration: the new watermark, last error and send status are those of `Cycle`, the messages sent are appended to the log, and the request's `from_date` was the old watermark |
| `PollLoop.AtMostOneMessage` | homework.py:144-159 | no iteration sends more than one message |
| `PollLoop.FailedCycle` | homework.py:154-159 | when the iteration raises, the watermark and the send status are unchanged, the last error becomes `Сбой в работе программы: ` followed by str(e), and that text is sent only when it differs from the previous last error |
| `PollLoop.WatermarkMovesOnlyOnConfirmedCycle` | homework.py:150-152 | the watermark changes only in an iteration that raised nothing and whose send status is true, and that iteration clears the last error |
| `PollLoop.StatusCycle` | homework.py:144-152 | with a non-empty list, only `homeworks[0]` is examined and its announcement is the one message. If delivered, the watermark becomes `current_date` (or stays when absent) and the last error is cleared. If not delivered, the watermark and last error are unchanged and nothing is raised. A refused first homework is handled as a failure |
| `PollLoop.EmptyListCycle` | homework.py:144-151 | with an empty list no status message is sent. An unbound send status raises UnboundLocalError. A true one advances the watermark and clears the last error. A false one changes nothing |
| `PollLoop.RepeatedFailureNotifiedOnce` | homework.py:154-159 | two consecutive failures with identical text send at most one message between them and keep the watermark |
| `PollLoop.ChangedFailureNotified` | homework.py:154-159 | after one failure is handled, a second failure with a different text is sent, whether or not the first was |
| `PollLoop.RepeatedErrorReplies` | homework.py:79-82 | two consecutive non-200 replies keep the watermark; the second is silent exactly when code and reason both repeat |
| `PollLoop.UndeliveredAnnouncementRetried` | homework.py:147-152 | an undelivered announcement leaves the watermark, so the same payload on the next iteration sends the same announcement again |
| `PollLoop.FirstEmptyListCycleReportsFailure` | homework.py:144-151 | from the start state, an empty list with a `current_date` raises on the unbound send status: one failure message, watermark still 0 |
| `PollLoop.ApprovedHomeworkAnnounced` | homework.py:144-152 | an approved homework named X, delivered, sends its exact announcement, moves the watermark to 1100 and clears the last error |
| `PollLoop.RepeatedServiceUnavailable` | homework.py:79-82 | from the start state, two 503 replies with the same reason: one message naming 503 and the reason, then none, and the watermark stays 0 |
| `PollLoop.UnknownStatusReported` | homework.py:121-124 | an `archived` status is a failure: exactly one message with the refusal text, and the watermark is unchanged |

## Findings

| source | as written | input that shows it | evidently intended | confidence | as-written member | corrected member |
|---|---|---|---|---|---|---|
| homework.py:12-49 | imports (line 13) and raises (line 49) `СheckTokensError` whose first letter is CYRILLIC CAPITAL LETTER ES (U+0421), while exceptions.py:1 defines `CheckTokensError` with a Latin C | loading homework.py at all: the import raises ImportError before `main` can run; with only the import fixed, a missing setting makes line 49 raise NameError | spell the name with a Latin C at both the import and the raise | high (not executed) | `Exceptions.AsWrittenImportFails` | `Exceptions.CorrectedImportResolves` |

The rest of the model assumes the Latin spelling at both the import and the
raise: `Homework.CheckTokens` raises `CheckTokensError`.

## Left out

- The HTTP request: `requests.get`, `ENDPOINT`, `HEADERS` and the decoding in
  `response.json()` are network I/O. `Homework.GetApiAnswer` takes their
  classified outcome as a parameter.
- The Telegram bot: `telebot.TeleBot` and `bot.send_message` are a foreign call.
  `Bot.SendMessage` takes the call's success as a parameter and logs the message.
  An exception other than the two that `send_message` catches is not modelled.
- The environment: `load_dotenv` and `os.getenv` are not modelled.
  `CheckTokens` takes the three settings as parameters.
- The call of `check_tokens` at the start of `main` is not modelled.
- Building the bot before the loop is not modelled.
- `time.sleep(RETRY_PERIOD)` and the endless `while True` are not modelled.
  One iteration is `Bot.Step`. Repeated iterations are lemmas over `Cycle` and the
  client method `OutageReportedOnce`.
- Logging and the logging configuration in `__main__` are side effects only, so
  they are not modelled.
- Bot.Step: takes one boolean for the result of whichever send the iteration
  makes. `AtMostOneMessage` shows an iteration makes at most one send.
- Python.PyStr: a list- or dict-valued `homework_name` is rendered as a fixed
  placeholder. Python would print its repr, and for a dict that depends on key
  insertion order, which a map does not keep.
- Python.Repr: this is exact only for strings without quotes, backslashes or
  control characters. That covers the literal messages it is applied to.
- JSON numbers with a fraction or exponent (Python floats) are not modelled.
- UnboundLocalError uses the Python 3.11+ wording. Earlier versions say
  "local variable 'send_message_status' referenced before assignment".
