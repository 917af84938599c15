# homework_bot: a verified model of the polling core

homework_bot is a Telegram bot. It polls a homework-review API and tells one chat when a
homework's review status changes. Every cycle it requests the statuses changed since its
cursor (`timestamp`), checks the answer's shape, and turns each homework into a Russian
message from a fixed verdict table. It sends those messages, then moves the cursor to the
answer's `current_date`. An exception that the bot can still report is sent to the chat,
unless it is the same exception that was reported last. A failure of the messenger itself is
only logged, but when such a failure happens while reporting an error, it ends the bot.

The model has five modules:

- `Errors` (`errors.dfy`) defines the exception kinds the core raises, plus `Option` and `Result`.
- `Json` (`json.dfy`) defines a decoded JSON value. It also gives Python's `type(...).__name__`
  and `str(...)` of such a value, since those appear in error messages.
- `Homework` (`homework.dfy`) is the pure part. It holds the verdict table, the messenger
  rewrap in `send_message`, the status check and projection of `get_api_answer`,
  `check_response`, `parse_status`, and `ParseMessage`, the inverse of the message template.
- `Poller` (`poller.dfy`) is the loop in `main`. Specification functions describe it: `Notify`
  (the `for` loop), `TryBlock`, `HandleError` (the `except` branches), `CycleSpec` (one pass)
  and `RunSpec` (a finite run). The class `Poller` holds the loop's local variables as fields
  and implements `Send`, `NotifyAll`, `Try`, `Handle`, `Cycle` and `Run`. Each method is proved
  equal to its specification function.
- `Scenarios` (`scenarios.dfy`) has concrete runs: an empty answer, one approved homework, an
  unknown status on one cycle and again on the next, and an endpoint that is down on two
  consecutive cycles.

Python exceptions have no `__eq__`, so `error != last_error_sent` at homework.py:205 compares
objects by identity, and every caught exception is a new object. The model records each caught
exception as `Raised(id, error)`, where `id` is the number of exceptions raised so far. The
class takes an `ErrorEquality`:

- `Identity` is the code as written: same kind and text is not enough, the `id` must match.
- `ByValue` compares kind and text. This is what the comments at homework.py:177 and 206 ask for.

Every lemma about the poller is stated for any `eq` and holds for both comparisons, except the
three that show how the comparisons differ. `IdentityNeverSuppresses` and
`IdentityNotifiesRepeat` fix `Identity`, and `ByValueSuppressesRepeat` fixes `ByValue`; see
"## Findings".

The environment is replaced by inputs:

- The HTTP request becomes a `FetchOutcome`: a request error, or a status code with a body
  that decodes to JSON or does not.
- The messenger becomes a scripted `seq<SendOutcome>`: the k-th send request of a cycle gets
  the k-th outcome, and `Delivered` once the script runs out.
- `while True` becomes a finite `seq<Script>` of cycles.

## Model

| member | source | states |
|---|---|---|
| Homework.VerdictTableIsClosed | homework.py:32-36 | exactly three statuses are known: approved, reviewing, rejected |
| Homework.SendMessage | homework.py:44-60 | a delivered send raises nothing; a messenger failure is rewrapped as DoNotSendToBot with text "Unable to send message: " followed by the messenger's reason |
| Homework.Project | homework.py:83-86 | the answer keeps exactly the keys homeworks and current_date; each holds the body's value, or None when the body lacks it |
| Homework.GetApiAnswer | homework.py:71-98 | succeeds exactly when the status is 200 and the body is a JSON object, and returns its projection; a non-200 status raises EndpointResponse with the status in its text; a request error, undecodable JSON and a non-object body raise generic exceptions with their exact texts |
| Homework.CheckResponse | homework.py:105-138 | succeeds exactly when the value is a dict with both keys, an int current_date and a list homeworks, and then returns true; otherwise raises TypeError or KeyError with the message of the first failed check, in the source's order |
| Homework.CheckAfterProjection | homework.py:83-86 | an answer from GetApiAnswer never fails the key check, only a type check; it passes exactly when the body has an int current_date and a list homeworks; a body without homeworks fails with "Cannot get list of homeworks." |
| Homework.FormatRoundTrip | homework.py:159-160 | the message template (FormatVerdict) is invertible: parsing the message of any name and known status gives back that name and status |
| Homework.ParseStatus | homework.py:141-160 | succeeds exactly when the homework is a dict with homework_name and status and the status is a known status string; a non-dict raises AttributeError on keys, a missing key raises KeyError with the text "One or more keys is missingin homework's dictionary.", a list or dict status raises TypeError (unhashable), any other status raises ValueError naming str(status) |
| Homework.ParseStatusRoundTrip | homework.py:153-160 | every message ParseStatus produces parses back to str(homework_name) and the homework's status |
| Homework.ParseStatusText | homework.py:153-160 | for a string name and a known status, the message is the template with that name and that status's verdict text |
| Json.TypeName | homework.py:124-127 | Python's type name of a decoded value; it is "int", "list" or "dict" exactly for those kinds of value |
| Json.IntToString | homework.py:79-80 | str of an int: a minus sign exactly for negatives, then canonical decimal digits (no leading zero) whose value is the number's magnitude |
| Json.Str | homework.py:157-160 | the f-string rendering of a decoded value: a str verbatim, an int as its canonical decimal text |
| Poller.Notify | homework.py:191-193 | the messages delivered are, in order, ParseStatus of the leading homeworks, each sent with a Delivered outcome; the loop ends without an exception only after all homeworks; otherwise the exception is ParseStatus's error or the rewrapped send failure at the first item not delivered |
| Poller.NotifyStaysFailed | homework.py:191-193 | after the first exception, later homeworks change nothing |
| Poller.NotifySucceedsIff | homework.py:191-193 | the loop raises nothing exactly when every homework parses and every send is delivered |
| Poller.TryBlock | homework.py:181-195 | the try block: at most one send request beyond the delivered messages, none beyond them on success; sends happen only after the answer is fetched and validated; on success the new cursor is the validated answer's current_date; an EndpointResponse exception exactly when the status is not 200; its cycle-level consequences are SuccessfulCycle, CursorMovesOnlyOnSuccess and DeliveredInListOrder |
| Poller.HandleError | homework.py:199-208 | the except branches: the cursor stays and one more exception is counted; at most one send, made exactly for a non-messenger exception that is not the last notified, and then the marker becomes it; a delivered notice is the exception's text; only a messenger failure escapes; UnsendableIsOnlyLogged and SuppressionRule give the cycle-level rules |
| Poller.CycleSpec | homework.py:180-211 | one pass of the loop body: the try block's messages stay sent, every delivered message took a send request, an escaping exception is a messenger failure after a failed try block, one exception is counted exactly when the try block failed, and the marker is either kept or becomes that exception |
| Poller.SuccessfulCycle | homework.py:185-195 | a cycle that raises nothing sends one message per homework, in list order, makes no other send, and sets the cursor to current_date; the error marker is unchanged |
| Poller.CursorMovesOnlyOnSuccess | homework.py:195 | the cursor becomes current_date when the cycle succeeds and stays put otherwise |
| Poller.DeliveredInListOrder | homework.py:191-195 | messages delivered before an exception stay sent and are those of the leading homeworks |
| Poller.UnsendableIsOnlyLogged | homework.py:199-200 | a messenger failure inside the try block is only logged: no further send, marker and cursor unchanged, the loop goes on |
| Poller.SuppressionRule | homework.py:203-208 | any other exception: if it is not the last one notified, the marker becomes it and exactly one send of its text is made, and a failure of that send ends the loop; otherwise nothing is sent and the marker stays; the cursor stays in both cases |
| Poller.CyclePreservesFresh | homework.py:203-208 | the marker is always an exception raised before any still to come |
| Poller.IdentityNeverSuppresses | homework.py:205 | under identity comparison, every exception other than a messenger failure is notified |
| Poller.IdentityNotifiesRepeat | homework.py:205-208 | as written, two consecutive cycles failing with the same exception text make a notification attempt each |
| Poller.ByValueSuppressesRepeat | homework.py:177-208 | comparing by value, the second of two consecutive identical failures is not notified, and the marker stays |
| Poller.DifferentFailures | homework.py:203-208 | two consecutive different failures are both notified, under either comparison |
| Poller.RunSpec | homework.py:180-211 | a run performs every scripted cycle unless an exception escapes; only a failed error notification (DoNotSendToBot) escapes, and it stops the run after the cycle in which it happened |
| Poller.RunStaysHalted | homework.py:203-211 | a run that has stopped stays stopped: later script entries change nothing |
| Poller.RunPreservesFresh | homework.py:175-211 | freshness of the marker holds across any run |
| Poller.TwoCycles | homework.py:180-211 | a run of two entries whose first cycle does not stop is the first cycle followed by the second, from the state the first left |
| Poller.RunCursor | homework.py:175-195 | each success overwrites the cursor: after a run, the cursor is the current_date of the last successful cycle among those performed (the last Some in Moves), and the starting cursor when none succeeded |
| Poller.Poller.constructor | homework.py:175-178 | the loop starts with cursor 0, no error notified and nothing sent |
| Poller.Poller.Send | homework.py:44-60 | one send request; the text is recorded as delivered exactly when the messenger delivers it |
| Poller.Poller.NotifyAll | homework.py:191-193 | the for loop in place: its sends, its attempts and its exception are those of Notify |
| Poller.Poller.Try | homework.py:181-195 | the try block in place, equal to TryBlock |
| Poller.Poller.Handle | homework.py:199-208 | the except branches in place, equal to HandleError |
| Poller.Poller.Cycle | homework.py:180-211 | one pass of the loop body: the new state, the record of delivered messages and the escaping exception are those of CycleSpec |
| Poller.Poller.Run | homework.py:180-211 | the loop over a finite script: the new state, the messages and the escaping exception are those of RunSpec |
| Scenarios.EmptyAnswer | homework.py:187-195 | an answer with no homeworks sends nothing and only moves the cursor |
| Scenarios.OneApproved | homework.py:185-195 | one approved homework sends exactly one message, with the approved verdict text, and moves the cursor |
| Scenarios.UnknownVerdict | homework.py:156-157 | an unknown status raises ValueError naming it; the error is then notified and the cursor stays |
| Scenarios.BogusAgain | homework.py:203-208 | the same unknown status on the next cycle, from the state the first left: only counted comparing by value, notified again as written |
| Scenarios.UnavailableTwiceAsWritten | homework.py:77-81 | as written, an endpoint answering 503 on two consecutive cycles is reported twice |

## Left out

- The HTTP request (`requests.get`), its headers and parameters, and JSON decoding are not modelled. Their outcome is the `FetchOutcome` input. The `from_date=timestamp` parameter is not tied to the input.
- The Telegram client (`telegram.Bot`) is not modelled: the messenger's answer to each send is a scripted input.
- Homework.SendMessage: `Failed` stands for a `telegram.TelegramError` only, the one class homework.py:56 rewraps. Any other exception from `bot.send_message` would leave `send_message` unwrapped: raised inside the try block it would be notified through homework.py:203-208, and raised by the notification at homework.py:208 it would end `main` without being a DoNotSendToBot. The model has no such outcome, so Poller.HandleError and Poller.RunSpec promise that only DoNotSendToBot escapes under the assumption that the client raises nothing but TelegramError.
- Sending an error notification passes the exception object, not a string, as `text` (homework.py:208). The model assumes the client accepts the object and sends the exception's message, which is the notice text Poller.HandleError states. The client library is not among the modelled files, so this is an assumption, not a fact about it. A client that JSON-encodes `text` would raise a TypeError there, which is not a TelegramError and would end `main` on the first notified error; a client that calls `str()` would send a KeyError's text inside quotes.
- `check_tokens`, reading the environment, `sys.exit` and the bot's construction (homework.py:39-41, 169-174) are configuration and are not modelled.
- Logging and `time.sleep(RETRY_PERIOD)` have no effect on the loop state, so they are left out.
- `while True` is modelled by a finite script of cycles. An endless run is any prefix of one.
- The `response is None` branch (homework.py:182) is dead, because `get_api_answer` never returns None. It is not modelled.
- The `except Exception` branch of `check_response` (homework.py:137-138) cannot be reached, because the checks raise only TypeError and KeyError. It is not modelled.
- Homework.CheckResponse: the KeyError text stops at "Keys recieved: ". A JSON object is modelled as a map, so the insertion-ordered `dict_keys([...])` listing cannot be rendered.
- Json.Str: a list or dict is rendered as a placeholder, not as Python's repr. A float is carried as the text Python's repr gives it, which the model takes as given.
- Homework.GetApiAnswer: the text "No valid json found in response." for an undecodable body holds for requests before version 2.27 using the standard library's decoder, whose `JSONDecodeError` is the class imported at homework.py:2. From 2.27 on, `response.json()` raises `requests.exceptions.JSONDecodeError`, which is also a `RequestException`. The handler at homework.py:91-92 then catches it first, and the text is "Unexpected request error: " followed by the decoder's message; that is the model's outcome for `RequestFailed` with that message. Before 2.27 with simplejson installed, simplejson's error is neither class and reaches the handler at homework.py:97-98. The model fixes the pre-2.27 standard-library text for `Undecodable`; the 2.27+ behaviour is reachable through `RequestFailed`; the simplejson case, an "Unexpected error: " text from homework.py:97-98 for an undecodable body, has no `FetchOutcome` that produces it and is not represented.
- The model does not claim the cursor only grows, because nothing constrains the server's `current_date`.
- Integers are unbounded, as in Python. Status codes and dates are plain `int`.

## Findings

| source | as written | input that shows it | evidently intended | confidence | as-written member | corrected member |
|---|---|---|---|---|---|---|
| homework.py:205 | `error != last_error_sent` compares exception objects by identity. Each cycle raises a new object, so no repeat is ever suppressed. | two consecutive cycles whose endpoint answers 503, or whose only homework has the unknown status "bogus" | a repeated failure with the same kind and text is not sent again (comments at homework.py:177 and 206) | high, not executed | Poller.IdentityNotifiesRepeat | Poller.ByValueSuppressesRepeat |
