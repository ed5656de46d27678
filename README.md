# snow_day_bot, modelled in Dafny

snow_day_bot predicts snow days. It pulls a weather forecast, boils it down to a
dict of per-hour and per-day values, turns that into prompts for a language model,
and delivers the prediction by SMS gateway e-mail to the users who signed up
through a Google Form. This project models the bot's data-handling core and proves
what that code promises. The network, the clock, files and the language model
are all left out.

| file | module | models |
|---|---|---|
| `wrappers.dfy` | `Wrappers` | `Option` |
| `text.dfy` | `Text` | the Python `str` operations the core uses: `strip`, `split`, `" ".join`, `replace('\n', …)`, `f'{n}'` for integers and `int(s)` |
| `json_values.dfy` | `JsonValues` | decoded JSON values and Python's subscription semantics: `x[key]`, `x[i]`, `x.get(key, default)`, `len`, iteration, `in`, truthiness, with the exception each one raises; table-driven runs of `d[prefix + name] = obj[...]` assignments |
| `general_functions.dfy` | `GeneralFunctions` | `split_text_message`, `add_page_numbers`, and the line loop of `get_user_phone_numbers` |
| `email_delivery.dfy` | `EmailDelivery` | the SMTP connection as a class over a scripted server; the `send_email` retry loop; the `send_email_to_user` batch |
| `daily_weather.dfy` | `DailyWeather` | `get_relevant_weather_information` of weather_data.py, which copies 16 day-level fields |
| `hourly_weather.dfy` | `HourlyWeather` | `get_hourly_forecast_data` and `get_relevant_weather_information` of weatherapi/weather_data.py, which copy hourly fields and the first alert |
| `json_text.dfy` | `JsonText` | `json.dumps` and `json.loads` on a list of `{"role", "content"}` messages |
| `open_ai_data.dfy` | `OpenAiData` | `create_hourly_weather_summary` and `create_open_ai_prediction_check_message` |
| `google_forms.dfy` | `GoogleForms` | the credential check and the response loop of `get_sign_up_responses` |

Exceptions are values in the model. `JsonValues.Result` is either `Ok(value)` or
`Err(fault)`, where the fault is a `KeyError`, `IndexError`, `TypeError`,
`ValueError` or `AttributeError`. Each `try`/`except` is then a match on that
fault, catching exactly the exception types the code names.

Each loop in the source is a `method` with a loop, proved equal to a recursive
specification function. The properties themselves are lemmas about that
function.

Notes on the source, which the model follows:
- The weather functions catch only `KeyError`. An `IndexError`, `TypeError`,
  `ValueError` or `AttributeError` escapes them.
- SMS text is cut into fixed slices of 130 characters.
- `send_email` sleeps only after an `SMTPException`, not after a non-250 status.
- `send_email_to_user` does not close the connection when an exception leaves
  the loop.

## Model

| member | source | states |
|---|---|---|
| GeneralFunctions.SlicesConcat | general_functions.py:23-26 | concatenating the slices taken by the split loop gives back the input text exactly |
| GeneralFunctions.SlicesShape | general_functions.py:24-26 | there are ceil(len/130) slices; every slice but the last has exactly 130 characters, and the last has 1 to 130 |
| GeneralFunctions.PageSuffix | general_functions.py:42 | the page tag starts with `" ("` and ends with `")"` |
| GeneralFunctions.AddPageNumbers | general_functions.py:32-48 | one page per chunk, in input order; page i is chunk i with every newline removed, followed by `" (i/N)"`, where N is the number of chunks |
| GeneralFunctions.SplitTextMessage | general_functions.py:17-29 | the pages are the page-numbered 130-character slices; there are ceil(len/130) of them, so empty text gives none; text of 1 to 130 characters gives one page ending in `" (1/1)"` |
| GeneralFunctions.PagesReconstructText | general_functions.py:24-42 | each page's text before its tag has no newline and at most 130 characters; the page texts concatenated equal the input with its newlines removed |
| GeneralFunctions.PhoneEntry | general_functions.py:63-66 | a stripped non-blank line yields an entry exactly when it contains exactly one comma |
| GeneralFunctions.PhoneEntryParts | general_functions.py:65-66 | the entry is the stripped text before the comma, one space, and the stripped text after it |
| GeneralFunctions.GetUserPhoneNumbers | general_functions.py:51-73 | a missing file gives `[]`; otherwise the result is the entry list of the file's lines |
| GeneralFunctions.PhoneEntriesFirst | general_functions.py:62-66 | a blank line is skipped, a malformed line ends parsing, a good line's entry comes first |
| GeneralFunctions.EntriesCons | general_functions.py:62-66 | a good line in front of good lines gives its entry in front of theirs |
| GeneralFunctions.PhoneEntriesAppend | general_functions.py:62-66 | over well-formed lines, the entries of two runs of lines concatenate |
| GeneralFunctions.PhoneEntriesStop | general_functions.py:62-73 | the first malformed line ends parsing; the entries gathered before it are returned, not an error |
| GeneralFunctions.PhoneEntriesWellFormed | general_functions.py:62-66 | when every line is well formed, there is one entry per non-blank line, in line order |
| EmailDelivery.SmtpConnection.constructor | email_functions/email_delivery.py:72-84 | a new connection has made no attempts, sent nothing, and is open |
| EmailDelivery.SmtpConnection.SendAndProbe | email_functions/email_delivery.py:56-57 | one `send_message` and `noop()`: the outcome is the server's next scripted answer, and the message is appended to what was sent |
| EmailDelivery.SmtpConnection.Quit | email_functions/email_delivery.py:87-92 | the connection is closed; nothing else changes |
| EmailDelivery.SendEmail | email_functions/email_delivery.py:42-69 | the connection receives the composed message (body plus signature, sender, recipient, subject) once per attempt of the retry run; the retries, the seconds slept and whether the error is logged match the run |
| EmailDelivery.RetryAttemptsBounded | email_functions/email_delivery.py:53-56 | at most `max_retries` sends, and at least one when `max_retries` > 0 |
| EmailDelivery.RetryStopsAtFirstSuccess | email_functions/email_delivery.py:57-60 | every attempt before the last was retryable; delivery happens exactly when the last attempt answered 250 |
| EmailDelivery.RetryEscapes | email_functions/email_delivery.py:55-67 | an exception other than `SMTPException` leaves the loop exactly when the last attempt raised one; it is not retried |
| EmailDelivery.RetryExhaustedAllFailed | email_functions/email_delivery.py:53-69 | a loop that runs out of retries made `max_retries` attempts, all retryable |
| EmailDelivery.RetrySleeps | email_functions/email_delivery.py:64-67 | the number of sleeps equals the number of `SMTPException` attempts |
| EmailDelivery.ErrorLoggedIffAllFailed | email_functions/email_delivery.py:68-69 | the failure is logged exactly when `max_retries` >= 0 and every attempt failed; with 0, nothing is sent and it is still logged |
| EmailDelivery.AllFailedExhausts | email_functions/email_delivery.py:53-69 | if every attempt is retryable, the loop ends exhausted with `retries == max_retries` |
| EmailDelivery.SendEmailToUser | email_functions/email_delivery.py:24-39 | a failed setup sends nothing and logs the SMTP or socket error, or lets any other exception propagate; otherwise one fresh connection carries the batch's messages and is closed only if no exception escaped |
| EmailDelivery.SendToEach | email_functions/email_delivery.py:32-33 | the loop over recipients sends exactly the batch's messages and reports the exception that stopped it |
| EmailDelivery.SendToRecipient | email_functions/email_delivery.py:33 | one round of the batch: `send_email` for recipient i, then the rest unless an exception escaped |
| EmailDelivery.BatchUnfold | email_functions/email_delivery.py:32-33 | one recipient's messages come before the rest of the batch; an escaping exception ends the batch |
| EmailDelivery.SentAfterRecipient | email_functions/email_delivery.py:32-33 | after one `send_email` call, what the connection has sent plus what the rest of the batch sends is what the whole batch sends; an escaping exception is the batch's outcome |
| EmailDelivery.BatchMessages | email_functions/email_delivery.py:32-52 | every message sent is the composed mail of a recipient at or after the current position |
| EmailDelivery.MessagesPrepended | email_functions/email_delivery.py:32-33 | messages to recipient i placed before a run addressed to later recipients keep every message matched to its recipient |
| EmailDelivery.BatchOrder | email_functions/email_delivery.py:32-33 | recipients are served in order, each once, starting at the current one; a batch without an exception reaches the last recipient |
| EmailDelivery.VisitsThen | email_functions/email_delivery.py:32-33 | one or more sends to recipient i, followed by an in-order visit of the later recipients, is an in-order visit from i |
| EmailDelivery.OrderStopped | email_functions/email_delivery.py:32-36 | a batch whose first `send_email` lets an exception out has visited only that recipient |
| EmailDelivery.OrderContinues | email_functions/email_delivery.py:32-33 | a batch that gets past recipient i visits it and then the later recipients in order |
| EmailDelivery.RepeatThenStepwise | email_functions/email_delivery.py:32-33 | repeated sends to one recipient followed by a stepwise run that starts at the next one are stepwise |
| EmailDelivery.BatchEscapesAndBound | email_functions/email_delivery.py:29-39 | only a socket error or a non-SMTP exception stops the batch; at most 3 sends per recipient |
| JsonValues.Iterate | weatherapi/weather_data.py:13 | iterating a list gives its items; iterating `None`, a bool or a number raises |
| JsonValues.Caught | weatherapi/weather_data.py:61-64 | `except KeyError` returns the dict gathered so far; every other fault escapes |
| JsonValues.AssignFieldsFault | weather_data.py:16-23 | a run of assignments fails exactly when a lookup fails, and it fails with that lookup's fault |
| JsonValues.AssignFieldsKeys | weather_data.py:16-23 | the keys after a run are the old keys plus the prefixed names of the assignments made before the first failing lookup |
| JsonValues.AssignFieldsKeeps | weather_data.py:16-23 | a key the run does not assign keeps its value |
| JsonValues.AssignFieldsValues | weather_data.py:16-23 | each assignment made stores the looked-up value unchanged |
| JsonValues.AssignedKeysSize | weather_data.py:16-23 | distinct field names give as many keys as assignments |
| JsonValues.AssignedKeysNext | weather_data.py:16-23 | with distinct names, each assignment adds one new key |
| JsonValues.PrefixedNamesDistinct | weather_data.py:16-23 | distinct field names give distinct keys under one prefix |
| DailyWeather.AssignDay | weather_data.py:15-23 | the eight straight-line assignments equal the table-driven run over the day fields |
| DailyWeather.GetRelevantWeatherInformation | weather_data.py:8-38 | the result is the two-day extraction; a `KeyError` never escapes |
| DailyWeather.DayFieldsDistinct | weather_data.py:16-23 | the eight day-field names are distinct |
| DailyWeather.TwoDaysKeysInOrder | weather_data.py:13-38 | the keys present are exactly the first n in program order, where n counts the lookups that succeeded before the first missing one; each value is the source value unchanged |
| DailyWeather.FirstRunInOrder | weather_data.py:15-23 | the day-0 assignments alone leave their keys in order, with day 0's values |
| DailyWeather.BothRunsInOrder | weather_data.py:15-34 | a complete day-0 run followed by the day-1 run leaves the keys of both in order, with each day's values |
| DailyWeather.TwoRunKeysDistinct | weather_data.py:16-34 | the 16 keys of the two runs are pairwise different |
| DailyWeather.FirstRunStore | weather_data.py:15-23 | the day-0 run stores exactly the keys before its first missing field, with day 0's values |
| DailyWeather.SecondRunStore | weather_data.py:26-34 | the day-1 run adds the keys before its first missing field, with day 1's values, and keeps every day-0 key and value |
| DailyWeather.SecondRunKeys | weather_data.py:26-34 | the keys after the day-1 run are the first 8 plus the day-1 keys that were assigned |
| DailyWeather.SecondRunKeeps | weather_data.py:26-34 | the day-1 run leaves every day-0 key and value as it was |
| DailyWeather.TwoDaysComplete | weather_data.py:15-34 | all lookups succeed exactly when the result has 16 keys |
| DailyWeather.SecondDayImpliesFirstDay | weather_data.py:15-34 | if any `next_day_*` key is present, all eight `current_day_*` keys are present |
| DailyWeather.DailySixteenKeys | weather_data.py:15-34 | the result has 16 keys exactly when all 16 lookups succeed |
| DailyWeather.DailyKeysInOrder | weather_data.py:8-38 | `get_relevant_weather_information` keeps exactly the first n of its 16 keys in program order, where n counts the lookups that succeeded before the first missing one; each value is the one read |
| DailyWeather.DailyNextImpliesCurrent | weather_data.py:15-34 | in the result of `get_relevant_weather_information`, any `next_day_*` key means all eight `current_day_*` keys are present |
| HourlyWeather.GetHourlyForecastData | weatherapi/weather_data.py:8-34 | the loop's result is the hourly extraction of the entries |
| HourlyWeather.StoreHour | weatherapi/weather_data.py:14-32 | one pass of the loop: a missing `time`, an unparsable hour or a missing field raises; an hour outside the window changes nothing |
| HourlyWeather.HourlyAfterNext | weatherapi/weather_data.py:13-32 | the loop goes on from the dict the earlier entries left |
| HourlyWeather.AssignHour | weatherapi/weather_data.py:18-32 | the fifteen straight-line assignments equal the table-driven run over the hourly fields |
| HourlyWeather.AssignHourHead | weatherapi/weather_data.py:18-22 | the first five assignments continue the run from field 0 to field 5 |
| HourlyWeather.AssignHourMiddle | weatherapi/weather_data.py:23-27 | the next five continue the run from field 5 to field 10 |
| HourlyWeather.AssignHourTail | weatherapi/weather_data.py:28-32 | the last five continue the run from field 10 to field 15 |
| HourlyWeather.HourlyErrorSticks | weatherapi/weather_data.py:13-34 | once an entry raises, later entries do not change the outcome |
| HourlyWeather.HourlyErrorStep | weatherapi/weather_data.py:13-32 | an entry after one that raised does not change the outcome |
| HourlyWeather.GetRelevantWeatherInformation | weatherapi/weather_data.py:36-64 | the result is the evening, morning and alert extraction; a `KeyError` never escapes |
| HourlyWeather.AssignAlert | weatherapi/weather_data.py:54-59 | the five alert assignments equal the table-driven run over the alert fields |
| HourlyWeather.HourKeyInjective | weatherapi/weather_data.py:18-32 | `hour_{h}_name` keys determine both the hour and the field |
| HourlyWeather.WindowHours | weatherapi/weather_data.py:15-17 | an entry contributes only when `start_hour <= h < end_hour` |
| HourlyWeather.HourlyKeys | weatherapi/weather_data.py:13-34 | the keys are exactly the 15 per-hour keys of each hour in the window that some entry has |
| HourlyWeather.HourlyKeysStep | weatherapi/weather_data.py:13-32 | after k entries, the keys are those of the hours in the window the first k entries have |
| HourlyWeather.AddHourKeys | weatherapi/weather_data.py:17-32 | an entry in the window adds its hour's 15 keys and removes none |
| HourlyWeather.AddHourSkips | weatherapi/weather_data.py:17 | an entry outside the window leaves the dict unchanged |
| HourlyWeather.AddHourStores | weatherapi/weather_data.py:17-32 | an entry in the window stores each field's looked-up value under its hour's key |
| HourlyWeather.AddHourKeeps | weatherapi/weather_data.py:17-32 | an entry for another hour leaves hour h's keys and values as they were |
| HourlyWeather.LastWithLatest | weatherapi/weather_data.py:13-17 | the entry found has hour h and no later entry has it; none is found exactly when no entry has hour h |
| HourlyWeather.HourlyLastWins | weatherapi/weather_data.py:13-32 | of two entries with the same hour, the later one's values are stored |
| HourlyWeather.HourlyForecastKeys | weatherapi/weather_data.py:8-34 | the keys of `get_hourly_forecast_data` are the keys of the hours in the window |
| HourlyWeather.EveningMorningDisjoint | weatherapi/weather_data.py:45-50 | the evening's and the morning's key sets are disjoint, so the second `update` overwrites nothing |
| HourlyWeather.HourKeysDisjoint | weatherapi/weather_data.py:46-50 | hours in disjoint sets of hours have disjoint keys |
| HourlyWeather.NoAlertKeyInHours | weatherapi/weather_data.py:55-59 | no hour key is a `weather_alert_*` key |
| HourlyWeather.AlertKeysNeedAlert | weatherapi/weather_data.py:53-59 | an alert key is present only when `'alerts'` exists and its `'alert'` list is non-empty |
| HourlyWeather.AlertValuesStored | weatherapi/weather_data.py:53-59 | the alert values stored are those of the first alert |
| HourlyWeather.AlertAssignStores | weatherapi/weather_data.py:54-59 | copying the alert raises at most a `KeyError`, and each field before the first missing one is stored with the alert's value |
| HourlyWeather.AlertFieldsDistinct | weatherapi/weather_data.py:55-59 | the five alert key names are distinct |
| HourlyWeather.EveningKeyErrorGivesEmpty | weatherapi/weather_data.py:43-64 | a `KeyError` on day 0 discards everything: `{}` |
| HourlyWeather.MorningKeyErrorKeepsEvening | weatherapi/weather_data.py:43-64 | a `KeyError` on day 1 keeps the evening and drops all of the morning |
| HourlyWeather.HourlyFieldsDistinct | weatherapi/weather_data.py:18-32 | the fifteen field names are distinct |
| HourlyWeather.HourWritesFifteenKeys | weatherapi/weather_data.py:18-32 | an hour in the window writes exactly 15 keys |
| HourlyWeather.HourFieldLookups | weatherapi/weather_data.py:18-32 | `snow_cm` defaults to 0; every other top-level field raises `KeyError` exactly when it is missing |
| Text.StripShape | general_functions.py:63 | `strip()` never lengthens, and leaves no whitespace at either end |
| Text.StripRemovesOnlyEdges | general_functions.py:63 | `strip()` removes only leading and trailing whitespace |
| Text.StripPadded | openai_actions/open_ai_data.py:69 | stripping text that has no edge whitespace but trailing padding drops just the padding |
| Text.StripUnpadded | general_functions.py:63 | `strip()` leaves text without edge whitespace unchanged |
| Text.TrimEndPadding | openai_actions/open_ai_data.py:154 | trailing whitespace after a non-space character is all removed, and nothing more |
| Text.TrimEndSpaces | openai_actions/open_ai_data.py:154 | appending whitespace does not change the right-stripped text |
| Text.IntToStringRoundTrip | weatherapi/weather_data.py:15-18 | `int(f'{n}') == n` |
| Text.NegativeRoundTrip | weatherapi/weather_data.py:15-18 | `int('-' + f'{n}') == -n` |
| Text.NatToStringValue | weatherapi/weather_data.py:18 | the digits `f'{n}'` writes read back as n |
| Text.IntToStringChars | weatherapi/weather_data.py:18 | `f'{i}'` is digits, after an optional leading minus sign |
| Text.IntToStringInjective | weatherapi/weather_data.py:18 | distinct hours render differently |
| Text.ParseDigits | weatherapi/weather_data.py:15 | `int()` of ASCII digits is their decimal value |
| Text.ParseSignedDigits | weatherapi/weather_data.py:15 | `int()` honours a leading sign |
| Text.ParseUnsignedDigits | weatherapi/weather_data.py:15 | an unsigned run of ASCII digits parses to its decimal value |
| Text.SplitParts | weatherapi/weather_data.py:15 | `split(sep)` gives at least one part; the first has no separator; there is one part exactly when the separator is absent |
| Text.RemoveNewlines | general_functions.py:41 | no newline is left, and the text never gets longer |
| Text.RemoveNewlinesAppend | general_functions.py:41 | removing newlines distributes over concatenation |
| Text.EscapeNewlines | openai_actions/open_ai_data.py:153 | no newline is left, and the text never gets shorter |
| Text.EscapeNewlinesAppend | openai_actions/open_ai_data.py:153 | escaping distributes over concatenation |
| JsonText.EncodeChar | openai_actions/open_ai_data.py:155 | an encoded character never begins with a quote |
| JsonText.Hex4RoundTrip | openai_actions/open_ai_data.py:155 | reading four hex digits back gives the code unit |
| JsonText.HexRoundTrip | openai_actions/open_ai_data.py:155 | reading back the hex digits of a number of a given width gives the number |
| JsonText.DecodePlainChar | openai_actions/open_ai_data.py:155 | a printable character other than a quote or backslash is written as itself and read back |
| JsonText.DecodeShortEscape | openai_actions/open_ai_data.py:155 | a character with a two-character escape is read back from it |
| JsonText.DecodeUnicodeEscape | openai_actions/open_ai_data.py:155 | a control or non-ASCII character of the basic plane is read back from its `\uXXXX` escape |
| JsonText.DecodeSurrogatePair | openai_actions/open_ai_data.py:155 | a character beyond the basic plane is read back from its surrogate-pair escape |
| JsonText.DecodeEncodedChar | openai_actions/open_ai_data.py:155 | `json.loads` reads back each escape that `json.dumps` writes, including surrogate pairs |
| JsonText.DecodeEncodedChars | openai_actions/open_ai_data.py:155 | an encoded string followed by its closing quote decodes to the original string |
| JsonText.LoadDumpedMessage | openai_actions/open_ai_data.py:155 | a dumped message object loads back to itself |
| JsonText.LoadMessageAccepts | openai_actions/open_ai_data.py:155 | an object with the `role` and `content` strings in the dumped layout loads as that message |
| JsonText.LoadsAccepts | openai_actions/open_ai_data.py:155 | a non-empty list whose entries load leaves nothing unread and gives those messages |
| JsonText.LoadDumpedEntries | openai_actions/open_ai_data.py:155 | a dumped non-empty list of messages loads back to itself |
| JsonText.LoadsDumps | openai_actions/open_ai_data.py:155 | `json.loads(json.dumps(ms)) == ms` for every list of messages |
| OpenAiData.SegmentParts | openai_actions/open_ai_data.py:29-45 | a segment is `"Hour {h}:"` followed by 14 labelled pieces |
| OpenAiData.Range | openai_actions/open_ai_data.py:28 | `range(lo, hi)` in increasing order |
| OpenAiData.CreateHourlyWeatherSummary | openai_actions/open_ai_data.py:21-69 | the two loops build the hourly summary |
| OpenAiData.SummaryHoursInOrder | openai_actions/open_ai_data.py:28-49 | the 13 segments are for hours 19 to 23, then 0 to 7, in that order |
| OpenAiData.TerminatedJoin | openai_actions/open_ai_data.py:46-67 | appending each segment plus a space is the space-join plus one trailing space |
| OpenAiData.SegmentsAppend | openai_actions/open_ai_data.py:28-49 | one more hour adds its segment at the end |
| OpenAiData.TerminatedAppend | openai_actions/open_ai_data.py:46-67 | `hourly_summary += summary + " "` appends the segment and one space |
| OpenAiData.JoinFirst | openai_actions/open_ai_data.py:30-45 | a join starts with the first character of its first part |
| OpenAiData.JoinLast | openai_actions/open_ai_data.py:44-45 | a join ends with the last character of its last part |
| OpenAiData.SegmentLastChar | openai_actions/open_ai_data.py:44-45 | a segment ends with the last character of its UV value |
| OpenAiData.SegmentStartsWithHour | openai_actions/open_ai_data.py:30 | each segment starts with `Hour` |
| OpenAiData.SummaryIsJoin | openai_actions/open_ai_data.py:46-69 | the summary is the segments joined by single spaces, with trailing whitespace removed |
| OpenAiData.SummaryExactJoin | openai_actions/open_ai_data.py:44-69 | when the last UV value does not end in whitespace, the summary is exactly the space-joined segments |
| OpenAiData.SummaryReadsExtractedKeys | openai_actions/open_ai_data.py:31-44 | every key the summary reads is one the hourly extraction writes |
| OpenAiData.SummaryHoursAreWindows | openai_actions/open_ai_data.py:28-49 | the summary's hours are exactly those of the evening and morning windows of the extraction |
| OpenAiData.EscapedTemplate | openai_actions/open_ai_data.py:148-153 | escaping the template escapes the opening, the prediction, and the closing newline separately |
| OpenAiData.EscapedFilled | openai_actions/open_ai_data.py:148-153 | escaping distributes over the opening, the prediction and the final newline with its indent |
| OpenAiData.CheckContentShape | openai_actions/open_ai_data.py:148-154 | the message content is the escaped opening, the escaped prediction and an escaped newline |
| OpenAiData.CheckMessageShape | openai_actions/open_ai_data.py:148-156 | the result is one message with role `"user"`; its content is the escaped template around the escaped prediction, with no newline in it |
| GoogleForms.CheckCredentials | google_functions/google_forms.py:68-74 | `ValueError` exactly when credentials are missing, or invalid and not both expired and holding a refresh token; a refresh exactly in the latter case |
| GoogleForms.GetSignUpResponses | google_functions/google_forms.py:44-104 | the loop computes the sign-up dict; credential errors are raised; every fetch failure or parse exception gives `{}` |
| GoogleForms.ParseErrorSticks | google_functions/google_forms.py:89-96 | once a response raises, the loop never resumes |
| GoogleForms.ParseFailsIffSomeResponseRaises | google_functions/google_forms.py:89-104 | the parse fails exactly when some response raises |
| GoogleForms.ParsedKeys | google_functions/google_forms.py:89-96 | the dict's keys are exactly the emails of responses with a truthy email and a truthy name |
| GoogleForms.LastFor | google_functions/google_forms.py:96 | finds the latest response that stores a given email; none exactly when the email is not stored |
| GoogleForms.ParsedLastWins | google_functions/google_forms.py:96 | a later response with the same email overwrites the earlier name |
| GoogleForms.NoResponsesGivesEmpty | google_functions/google_forms.py:82-104 | a failed request, or a payload without `'responses'`, gives `{}` |
| GoogleForms.AnyRaiseGivesEmpty | google_functions/google_forms.py:89-104 | an exception from any one response discards all of them: `{}` |
| GoogleForms.EmptyAnswersRaise | google_functions/google_forms.py:93 | an empty `answers` list raises `IndexError` |
| GoogleForms.StoredIffPathPresent | google_functions/google_forms.py:90-96 | a response is stored exactly when its email is truthy and hashable and `answers['778b574a'].textAnswers.answers[0].value` is present and truthy |

## Left out

- File I/O is not modelled. `get_user_phone_numbers` takes the file's lines as a parameter, and `None` stands for `FileNotFoundError`. `get_snow_day_policy` is not modelled.
- Logging, `print`, and `time.sleep` are not modelled. A sleep is counted in seconds, and whether the delivery error is logged is a boolean result.
- Network calls are not modelled: SMTP login and `starttls`, `requests.get`, OAuth refresh, and writing `token.json`. The SMTP server is a script of outcomes, and the HTTP request is a `Fetch` parameter.
- `EmailDelivery.SmtpConnection.Quit`: a `quit()` that raises is not modelled.
- The except branch of `add_page_numbers` is not modelled. Chunks are always strings there.
- `Text.ParseInt` accepts only ASCII digits. Python's `int()` also accepts other Unicode decimal digits.
- `OpenAiData.CreateHourlyWeatherSummary` takes values already rendered as text. It does not model `str()` of numbers, because floating-point rendering is out of scope.
- `JsonValues.Truthy` treats a number as false exactly when its literal is a zero spelling. It does not model floating-point truthiness beyond that.
- `JsonValues.Iterate` gives placeholder items when it iterates a dict, not its keys. Every use of those items raises anyway.
- `JsonText.Loads` reads only the layout that `Dumps` writes. It does not read general JSON whitespace, or key orders other than `role` first. A lone surrogate escape is rejected, where Python would accept it.
- The `except` path of `create_open_ai_prediction_check_message` is unreachable for string input, so the model has no `None` result.
- `create_open_ai_snow_day_message` depends on the clock and the time zone, so it is not modelled.
- `GoogleForms.GetSignUpResponses`: the dict's insertion order is not modelled. In Python an overwrite keeps the key's first position, and that order is the order in which `send_email_to_user` visits recipients; the result here is an unordered map, and the batch takes its recipients as a sequence.
- `GoogleForms.GetSignUpResponses`: dict keys use structural equality, not Python's. Python treats `1`, `1.0` and `true` as one key.
- `GoogleForms.GetSignUpResponses`: a `creds.refresh()` that raises is not modelled.
- `get_sign_up_responses` errors raised by `_load_credentials` are not modelled. An absent token file is `None`.
- The network and SDK wrappers and the OAuth bootstrap scripts are not part of this model.
