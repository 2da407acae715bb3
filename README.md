# homework_bot decision logic in Dafny

A model of the homework-status Telegram bot (`homework.py`). It covers the parts
of the bot that decide things: the start-up guard on the three configuration
values (`check_tokens`), the shape check of the review service's answer
(`check_response`), the rendering of a homework's status as a notification
through the `HOMEWORK_VERDICTS` table (`parse_status`), and one iteration of the
polling loop in `main`, with its cursor (`timestamp`) and its two
deduplication slots (`LAST_STATUS`, `ERROR`).

Files:

- `runtime.dfy`, module `PyRuntime`: the Python behaviour the bot relies on.
  This covers decoded JSON values (`Json`) and the exceptions (`PyError`) with
  their `str()` text. It also covers `dict.get`, `str()` of values as
  f-strings embed them (decimal integers included), and `needle in container`
  for dicts, lists, strings and non-containers.
- `homework.dfy`, module `Homework`: `HOMEWORK_VERDICTS`, `check_tokens` (an
  imperative method over the token dict, including the collapse of equal
  token values into one dict entry), `check_response` and `parse_status`
  (functions returning a `Result`).
- `poller.dfy`, module `Bot`: the loop body. `Attempt` is the `try` block,
  `Next` one iteration on an explicit `State`, and `Run` several iterations
  in a row. The class `Poller` holds the loop's variables as fields. Its
  `Step` method updates them in place and appends every message sent to
  `sent`; its contract ties it to `Next`. `Launch` is `main` up to the loop.

The fetch is an input to `Step`. It is either the decoded answer
(`Fetched(json)`) or the text of the exception the fetch raised
(`FetchFailed(text)`).

Where the code does something a reader might not expect, the model follows
the code as written:

- The loop at homework.py:100-106 only calls `dict.get`, which never raises
  KeyError. So an answer without `current_date` is accepted. An answer
  without `homeworks` fails the list test with a TypeError.
- An empty `homeworks` list raises IndexError. `main` catches it like every
  other error and sends its text as a deduplicated error notification.
- `timestamp` is overwritten from `current_date` before validation runs. A
  dict answer that then fails validation still moves the cursor. An absent
  `current_date` sets it to None.
- `response.get` runs before `check_response`. An answer that is not a dict
  therefore fails with an AttributeError there. `check_response`'s own
  "not a dict" TypeError never reaches `main`.
- Errors are deduplicated by their `str()` text. For a KeyError that text is
  the message in single quotes.
- When a token is missing, the bare `sys.exit()` at homework.py:143 ends the
  process with exit status 0, not a failure status. `Launch` models only
  that the loop is never entered and nothing is sent.
- The token dict in `check_tokens` is keyed by the token values. Equal values
  (two unset tokens, say) collapse into one entry carrying the later name, so
  fewer names may be logged than tokens are missing.

## Model

| member | source | states |
|---|---|---|
| Homework.VerdictsTable | homework.py:41-45 | The verdict table knows exactly `approved`, `reviewing` and `rejected`, and no two statuses share a text. |
| Homework.DictInsert | homework.py:50-54 | One item of a dict display keeps keys distinct and adds its key to the dict's keys. The entry for that key carries the new value. Every entry with another key is kept, and nothing else is added. |
| Homework.Tokens | homework.py:50-54 | The token dict has distinct keys, exactly the three token values. Every entry pairs a token's value with that token's own name. A collision keeps the later name: the chat id's entry carries its name; the Telegram token's does unless it equals the chat id; the Practicum token's does only when it equals neither. |
| Homework.ScanTokens | homework.py:55-62 | The loop over the dict's items: the flag stays true iff every value is truthy; no name is logged iff it stays true; every logged name is that of a falsy entry, and every falsy entry's name is logged. |
| Homework.CheckTokens | homework.py:48-62 | Returns true iff all three tokens are set and non-empty. It reports no name iff it returns true. Every reported name belongs to a falsy token. A falsy token's name is reported unless a later token has the same value. |
| Homework.CheckResponse | homework.py:94-117 | A non-dict is rejected with TypeError before any key is looked at. A missing or non-list `homeworks` gives TypeError. An empty list gives IndexError. Otherwise the result is exactly `homeworks[0]`. `current_date` is never required. |
| Homework.CheckResponseIgnoresCurrentDate | homework.py:100-106 | The value of `current_date`, or its absence, never changes check_response's outcome. |
| Homework.RequireKeys | homework.py:122-126 | On a dict, no error iff every key is present; otherwise a KeyError naming the first missing key, all earlier keys being present. |
| Homework.IsKnownStatus | homework.py:129 | Membership in the verdict table holds exactly for the three known strings. A list or dict status raises TypeError (unhashable); any other value is simply not a member. |
| Homework.ParseStatus | homework.py:120-133 | A KeyError names `homework_name` when it is missing, else `status` when it is missing. A list or dict status raises TypeError. Any other status that is not a known string (another string, None, an int, a bool) raises an Exception whose text embeds `str()` of it. Success holds exactly when both keys are present and the status is known. The text is the template with the name and that status's verdict. |
| Homework.StatusMessage | homework.py:133 | The notification splits back into the fixed opening, the name, the closing quote and the verdict text. |
| Homework.UnknownStatusIsQuoted | homework.py:129-131 | For a status that is neither a known string nor a list or dict, parse_status fails and its error text contains `str()` of the status verbatim. |
| Homework.StatusMessageDeterminesVerdict | homework.py:132-133 | For one homework name, equal notifications have equal verdict texts. |
| Homework.StatusChangeChangesMessage | homework.py:41-45 | Two records with the same name and different known statuses render to different notifications. |
| PyRuntime.ErrorText | homework.py:156 | `str(error)`: a KeyError's message between a leading and a trailing single quote, every other exception's message unchanged. |
| PyRuntime.NatToString | homework.py:130 | Non-empty, all decimal digits, a leading zero only for 0. |
| PyRuntime.IntToString | homework.py:130 | Non-empty; a leading minus exactly for negative integers, decimal digits after it. |
| PyRuntime.DigitsValueOfNatToString | homework.py:130 | Reading the digits back gives the natural number again. |
| PyRuntime.ParseIntToString | homework.py:130 | Reading the printed integer back gives the integer, so distinct integers print differently. |
| PyRuntime.Show | homework.py:133 | A string is embedded in an f-string as itself. |
| PyRuntime.HasSubstring | homework.py:124 | The substring test holds iff the needle occurs at some index. |
| PyRuntime.Contains | homework.py:124 | `key in x`: key membership for a dict, element membership for a list, substring for a str. A TypeError is raised exactly for None, bool and int. |
| Homework.Truthy | homework.py:59 | No contract: `not token` is false exactly for a set, non-empty value. Its meaning is stated through CheckTokens and Launch. |
| Homework.MissingKeyMessage | homework.py:125-126 | The KeyError text is the fixed opening, then the missing key verbatim, then `!`. |
| Homework.UnknownStatusMessage | homework.py:130-131 | The error text is the fixed opening, then the printed status verbatim, then `!`. |
| PyRuntime.Get | homework.py:108 | `dict.get`: the stored value when the key is present, None when it is absent. |
| PyRuntime.NoGetMessage | homework.py:148 | The AttributeError text of `response.get` on a non-dict starts with a quote and names the value's type. |
| Bot.Attempt | homework.py:146-149 | No contract: the `try` block, giving the cursor it leaves and the status message or error text. Its properties are stated by CursorUpdate, NonDictAnswer, EmptyHomeworksReported and StatusChangeSent. |
| Bot.Next | homework.py:145-160 | No contract: one loop iteration on an explicit state. Its properties are stated by StatusDeduplicated, ErrorDeduplicated, CursorUpdate, NextIdempotent and Poller.Step. |
| Bot.Run | homework.py:145 | No contract: consecutive iterations. Its properties are stated by RepeatedOutcome, RunAppends and ReviewThenApproveScenario. |
| Bot.Initial | homework.py:139-144 | No contract: the state after start-up. The constructor and Launch are proved to reach it. |
| Bot.Poller.constructor | homework.py:139-144 | After start-up the cursor is the current time, both slots are empty and only the start-up notice has been sent. |
| Bot.Poller.Step | homework.py:145-160 | One loop iteration updates the cursor, both slots and the sent messages exactly as `Next` does on the old state. |
| Bot.Launch | homework.py:138-144 | The bot starts iff all three tokens are truthy, and then sends only the start-up notice. |
| Bot.StatusDeduplicated | homework.py:149-152 | On success the message is sent iff it differs from LAST_STATUS. LAST_STATUS then holds it and ERROR is unchanged. |
| Bot.ErrorDeduplicated | homework.py:154-159 | On failure the error text is sent iff it differs from ERROR. ERROR then holds it and LAST_STATUS is unchanged. |
| Bot.CursorUpdate | homework.py:147-148 | A dict answer sets the cursor to its `current_date` (None if absent), whatever validation says afterwards. A failed fetch or a non-dict answer leaves the cursor unchanged. |
| Bot.NextIdempotent | homework.py:145-160 | Repeating an iteration with the same outcome changes nothing and sends nothing. |
| Bot.RepeatedOutcome | homework.py:145-160 | Any number of consecutive iterations with the same outcome end in the state of the first one alone. |
| Bot.RunAppends | homework.py:150-159 | Sent messages are only appended, at most one per iteration. |
| Bot.NonDictAnswer | homework.py:147-149 | A non-dict answer is reported with the AttributeError of `response.get`, never with check_response's "not a dict" text, and the cursor stays. |
| Bot.EmptyHomeworksReported | homework.py:112-116 | An empty `homeworks` list is sent as an error unless ERROR already holds it. The cursor still advances and LAST_STATUS is untouched. |
| Bot.StatusChangeSent | homework.py:147-152 | For any two dict answers that pass check_response and parse_status, if their first homeworks share a name and differ in status, the second answer's notification is sent right after the first one's. |
| Bot.ReviewThenApproveScenario | homework.py:145-160 | Polls of "reviewing", "reviewing" again, then "approved" for one homework send the start-up notice and two notifications. The repeat sends nothing. |

## Left out

- `get_api_answer` (homework.py:76-91) is not modelled: it is an HTTP call. Its outcome is the input of `Step`. A transport failure there reaches line 87 with `homework_statuses` unbound; the model sees only the text of whatever it raised.
- `send_message` (homework.py:65-73) is a Telegram call that logs and swallows delivery errors. A send is an append to `sent`, and delivery failure is not modelled.
- Logging and the logger setup (homework.py:22-29) are not modelled. `CheckTokens` returns the names it would log at critical level, but no text.
- Environment loading (homework.py:16-19, 32-34), `HEADERS`, `ENDPOINT`, `RETRY_PERIOD`, the Telegram bot object and `sys.exit` are not modelled. The tokens and the start time are parameters of `Launch`.
- `time.sleep` (including the second sleep on the success path) and the endless `while True` are not modelled. `Step` is one iteration and `Run` is a finite sequence of them.
- Show: the `str()` of a list or dict (a Python repr) is rendered as a fixed placeholder. So a notification or error whose homework name or status is a list or dict has placeholder text, not Python's.
- JSON numbers with a fraction (Python floats) are not part of the `Json` type.
- Texts Python itself produces (AttributeError, "not iterable" and "unhashable" TypeErrors) follow CPython 3.8 to 3.13. Later versions may word them differently.
