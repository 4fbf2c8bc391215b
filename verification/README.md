# Keno bright-number poller — a Dafny model

The repository polls a Keno web page and tells a Telegram chat which numbers
the page is "lighting up" for the next draw. Two versions of the poller make
up its core:

- `bot.py`. Its detector reads the page four ways: elements with a
  flash-like class, elements with an animated inline style, number tokens
  inside preview-like containers, and raw-markup patterns. The union then
  passes a grid filter. A `while True` loop runs one check about every 2 seconds.
  A bright alert goes out only when the set is new and a 10-second cooldown
  has passed. A status call comes every 150 checks.
- `app.py`. Its detector first counts the distinct number tokens on the whole
  page. If there are between 1 and 15, those are the answer. Otherwise,
  including when there are none, it takes the
  numbers inside containers whose class or id names a preview indicator, and
  discards more than 20 of them. A scheduler runs the check and a periodic
  status update. There is no cooldown; alerts are deduplicated against the
  last alerted set.

The modules follow that structure:

| module | file | what it holds |
|---|---|---|
| `Wrappers` | wrappers.dfy | `Option`, Python truthiness of an optional string |
| `Text` | text.dfy | ASCII character classes, lower-casing, `in` on strings, `str.strip`, `str.isdigit`, `int()` of a digit string |
| `Tokens` | tokens.dfy | the shared regular expression `\b([1-9]\|[1-7][0-9]\|80)\b` as a scanner, with a declarative reference and the proof that they agree |
| `Markup` | markup.dfy | the parsed page as a list of elements; keyword matching on classes and attributes |
| `BotDetect` | bot_detect.dfy | `detect_bright_numbers` of bot.py |
| `AppDetect` | app_detect.dfy | `detect_bright_numbers` of app.py |
| `Telegram` | telegram.dfy | message kinds, delivery outcome, the message record |
| `BotMonitor` | bot_monitor.dfy | `send_telegram_alert`, `check_and_alert`, `monitor_loop` of bot.py |
| `AppMonitor` | app_monitor.dfy | `send_telegram_alert`, `check_and_alert`, `send_status_update`, `start_monitor` of app.py |

Effects become inputs:

- A fetch is an `Option<string>` of markup, together with the elements an
  HTML parser would produce from it, as an `Option` too: `None` stands for a
  parse or traversal that raised, which both detectors turn into the empty
  set.
- Each poll carries the clock reading `time.time()` as a `real`.
- The outcome of a `send_message` call is a `Delivery` value. Nothing in the
  state depends on it, and `DeliveryLeavesNoTrace` shows this.
- The loops are modelled over any finite prefix of their polls.

Behaviours of the code worth noting, modelled as written:

- In bot.py, `last_detected_numbers` is updated whenever the guard of
  `check_and_alert` passes, even when the cooldown suppressed the alert. The
  alert time also advances before the send, whether or not delivery succeeds.
  As a result the same set can be alerted twice in a row (see
  `SameSetAlertedTwice`).
- The periodic status calls of bot.py pass the empty set, so
  `send_telegram_alert` returns at once. No status message ever goes out,
  and this includes the startup message. In app.py a status update is
  likewise dropped whenever the detection is empty.
- Neither poller keeps restart counters, consecutive-error counters or a
  backoff state. The only loop state is the monitor and bot.py's
  `check_count`.
- The keyword lists are the ones in the code. For example, bot.py strategy 1
  uses `blink, flash, pulse, shine, glowing, preview, nextdraw`.

## Model

| member | source | states |
|---|---|---|
| Text.Strip | bot.py:75 | `str.strip()` yields an infix of the text with only whitespace dropped before and after it, has no leading or trailing whitespace itself, and is empty exactly when the text is all whitespace |
| Text.ZeroPaddedValue | bot.py:76 | `int()` of a digit string ignores its leading zeros |
| Text.PrefixValueAtMost | bot.py:76 | reading fewer leading digits never yields a larger value |
| Text.ContainsInJoin | app.py:74 | a space-free keyword occurs in the classes joined by spaces exactly when it occurs in one of the classes |
| Text.ContainsAcrossSeparator | app.py:79 | a keyword without the separator occurs in `a + sep + b` exactly when it occurs in `a` or in `b` |
| Tokens.RunEnd | app.py:57 | the scanner reads a run of word characters up to its end, so a `\b` lies at the right end of every run it reads |
| Tokens.ScanFrom | app.py:57 | every string the scanner reports is one of the three alternatives of the pattern |
| Tokens.FindNumbers | app.py:57 | `re.findall` with the number pattern yields exactly the numerals that fill a whole maximal word run, and nothing else |
| Tokens.ScanExact | app.py:57 | from any position not inside a word, the scanner's outputs are exactly the reference tokens to the right |
| Tokens.NumeralIsDecimal | bot.py:95-97 | a string matches the pattern iff it is a digit string without a leading zero whose value is in 1..80, so the range check at line 97 always holds |
| Tokens.NumeralValueInRange | bot.py:97 | every matched token converts to a value in 1..80 |
| Tokens.NumeralValueInjective | app.py:57-58 | two matched tokens with the same `int` value are the same string |
| Tokens.ValuesCardinality | app.py:58 | the number of distinct matched strings equals the number of distinct values |
| Tokens.TokenValuesInRange | app.py:62-63 | every value the page rule adds is a Keno number |
| Tokens.FortyTwoExample | app.py:57 | "42" is matched once as "42", value 42 |
| Tokens.LeadingZeroExample | app.py:57 | "07" is not matched: the whole word run "07" fits no alternative, and "7" alone has no `\b` before it |
| Tokens.PaddedNumberExample | app.py:57 | "080" is not matched |
| Tokens.UnitSuffixExample | app.py:57 | "42px" is not matched, because no `\b` lies between digits and letters |
| Tokens.LetterPrefixExample | app.py:57 | "a42" is not matched |
| Tokens.OutOfRangeExample | app.py:57 | "81" is not matched |
| BotDetect.BareNumber | bot.py:75-77 | an element's text counts only as a number in 1..80 |
| BotDetect.BareNumberExactly | bot.py:75-77 | an element's text reads as v exactly when, once stripped, it is some zeros followed by a pattern token whose value is v |
| BotDetect.ByStrongClass | bot.py:69-78 | strategy 1 yields exactly the numbers read from the bare text of elements one of whose classes names a strong indicator, all in 1..80 |
| BotDetect.ByAnimationStyle | bot.py:80-88 | strategy 2 yields exactly the numbers read from the bare text of elements whose style names an animation keyword, all in 1..80 |
| BotDetect.ByPreviewContainer | bot.py:90-99 | strategy 3 yields exactly the values of the tokens in the text of containers whose class names a preview keyword |
| BotDetect.ByRawPatterns | bot.py:101-114 | strategy 4 keeps exactly the captured values in 1..80 |
| BotDetect.Candidates | bot.py:66-114 | the union of the four strategies holds only Keno numbers |
| BotDetect.SuppressFalsePositives | bot.py:116-136 | the filter returns a subset of its input with at most 15 numbers |
| BotDetect.SuppressKeepsOrClears | bot.py:119-133 | the filter either passes the set through unchanged or empties it, and applying it twice is the same as once |
| BotDetect.SuppressExactly | bot.py:119-133 | a non-empty set survives iff it has at most 15 numbers and is not a grid prefix (min 1, max at least 10, at least 8 numbers) |
| BotDetect.FirstNumbers | bot.py:124-130 | the numbers 1..n, n of them |
| BotDetect.GridPrefixSuppressed | bot.py:119-130 | a grid prefix 1..n with n >= 10 is always discarded, by one rule or the other |
| BotDetect.Detect | bot.py:56-140 | the detection is in 1..80, has at most 15 numbers, and is empty without markup or when parsing raised. Otherwise it is the whole candidate union exactly when that union is empty or has at most 15 numbers and is not a grid prefix, and empty in every other case |
| BotDetect.BareNumberExtendsTokens | bot.py:76 | every text that strips to a pattern token is read by strategies 1 and 2 with the same value |
| BotDetect.LeadingZeroAccepted | bot.py:76 | strategies 1 and 2 read " 07" as 7, although the token pattern rejects "07" |
| BotDetect.LoneNumberSurvives | bot.py:119-133 | any single detected number passes the filter |
| BotDetect.BlinkingNumberAmidGrid | bot.py:68-136 | a page with one blinking "42", whose other elements name no keyword of strategies 1-3, and no pattern hit detects exactly {42} |
| BotDetect.UnmarkedStrategies | bot.py:68-99 | elements that name no keyword of strategies 1-3 give those strategies nothing |
| BotDetect.UnmarkedPageYieldsNothing | bot.py:68-136 | a page whose elements name no keyword of strategies 1-3, with no pattern hit, detects nothing |
| AppDetect.PageNumbers | app.py:57-64 | the page rule returns exactly the values of the tokens in the markup |
| Tokens.InfixTokens | app.py:76 | cutting non-word characters off both ends of a text keeps exactly its tokens |
| Tokens.StripKeepsTokens | app.py:76-81 | the tokens of the stripped text are exactly the tokens of the text |
| AppDetect.ContainerNumbers | app.py:72-83 | the container rule, which scans the stripped text, yields exactly the values of the tokens in the text of elements whose class or id names an indicator |
| AppDetect.IndicatorInClassOrId | app.py:73-80 | joining the classes and the id with spaces does not let an indicator match across two of them |
| AppDetect.Detect | app.py:45-99 | the detection is in 1..80, has at most 20 numbers, and is empty without markup or when parsing raised. With 1..15 distinct tokens on the page it is exactly their values. Otherwise it is the container numbers when there are at most 20 of them, and empty when there are more |
| BotMonitor.SendAlert | bot.py:142-176 | a message goes out iff the set is non-empty and, for a bright alert, the cooldown has elapsed. Only a sent bright alert moves the alert time, to now. The last detection is untouched |
| BotMonitor.Observe | bot.py:181-183 | a failed fetch detects nothing, and any detection is a plausible alert set |
| BotMonitor.Decide | bot.py:178-199 | a bright alert goes out iff the fetch succeeded, the set is new, non-empty and of size 1..15, and the cooldown allows it. The set is recorded whenever the guard passes, sent or not |
| BotMonitor.Iterate | bot.py:219-231 | the check counter advances modulo 150 |
| BotMonitor.MonitorLoop | bot.py:201-219 | the loop refuses to start iff a credential is missing, and otherwise starts from the fresh state with no message sent |
| BotMonitor.DeliveryLeavesNoTrace | bot.py:160-176 | the state after a send is the same whether Telegram delivered the message or not |
| BotMonitor.CooldownStillRecordsSet | bot.py:150-192 | a new set held back by the cooldown is still recorded as the last detection |
| BotMonitor.SameDetectionNeverRealerts | bot.py:186-187 | the check right after one that saw a set never alerts on that same set, whatever the clock says |
| BotMonitor.NewSetAfterCooldownAlerts | bot.py:186-192 | a new non-empty detection after the cooldown is alerted and becomes both last detection and alert time |
| BotMonitor.IterateIsCheck | bot.py:219-231 | an iteration changes the monitor and the messages sent exactly as one check does: the periodic status call adds nothing |
| BotMonitor.IterateConsistent | bot.py:219-231 | one iteration keeps the run consistent: only bright alerts, at least 10 s apart, the last setting the alert time |
| BotMonitor.AppendAttemptConsistent | bot.py:150-160 | a bright alert admitted by the cooldown keeps successive alerts at least 10 s apart |
| BotMonitor.RunConsistent | bot.py:219-241 | any number of iterations keeps the run consistent |
| BotMonitor.RunCountsChecks | bot.py:218-231 | after n iterations from a count c, the counter is (c + n) mod 150 |
| BotMonitor.AlertTimeMonotone | bot.py:160 | the alert time never moves backwards |
| BotMonitor.MonitorLoopBehaviour | bot.py:201-241 | without credentials nothing runs. With them, after n polls the counter is n mod 150, only bright alerts have gone out, they are at least 10 s apart, and the last detection is plausible |
| BotMonitor.PatternPollDetects | bot.py:108-136 | a page whose only evidence is a small non-grid set of pattern hits detects exactly that set |
| BotMonitor.SameSetAlertedTwice | bot.py:186-192 | {7}, then {8} within the cooldown, then {7} again yields two alerts, both reporting {7} |
| BotMonitor.RepeatedAlertTrace | bot.py:150-192 | the alert list of that run is exactly {7} at 100 s and {7} at 120 s |
| AppMonitor.Observe | app.py:129-133 | a failed fetch detects nothing, and any detection has at most 20 Keno numbers |
| AppMonitor.SendAlert | app.py:101-125 | a message goes out iff the set is non-empty, carrying that set and kind |
| AppMonitor.Decide | app.py:127-143 | a bright alert goes out iff the fetch succeeded and the set is non-empty and differs from the last one. The set is remembered exactly when it is sent |
| AppMonitor.StatusUpdate | app.py:145-149 | a status message goes out iff the current detection is non-empty, and it carries that detection |
| AppMonitor.ObserveAll | app.py:170-178 | each scheduled job keeps its task and delivery and observes what its own fetch detects, a plausible detection |
| AppMonitor.StartMonitor | app.py:162-178 | the start-up status message goes out first exactly when the first detection is non-empty. Every later message and the final monitor are those of the scheduled jobs run from the fresh state. The run is deduplicated and the remembered set stays plausible |
| AppMonitor.RunAfterPrefix | app.py:175-178 | running jobs after some messages were sent leaves those messages in front, untouched, and otherwise acts as without them |
| AppMonitor.SentNonEmpty | app.py:103-104 | no job ever hands the channel a message with an empty set |
| AppMonitor.FailedFetchChangesNothing | app.py:142-148 | a failed fetch sends nothing and changes nothing, as a check and as a status update |
| AppMonitor.SameDetectionSilent | app.py:136 | the check right after one that saw a set sends nothing when it sees that same set |
| AppMonitor.RealertsAfterOtherSet | app.py:136-139 | only the last set is remembered: {7}, {8}, {7} sends three alerts, the last repeating the first |
| AppMonitor.AlertsAppend | app.py:138 | appending one message adds its set to the alert sequence iff it is a bright alert |
| AppMonitor.PerformDeduplicated | app.py:127-149 | a check or a status update keeps the run deduplicated: every alert is non-empty, differs from the alert before it, and the last one is the remembered set |
| AppMonitor.StartDeduplicated | app.py:167 | the initial status update leaves the run deduplicated |
| AppMonitor.RunDeduplicated | app.py:175-178 | any sequence of jobs keeps the run deduplicated |
| AppMonitor.RunPlausible | app.py:139 | the remembered set is always at most 20 Keno numbers |
| AppMonitor.ReportsLeaveMonitor | app.py:145-149 | status updates never change the monitor |

## Left out

- HTTP fetching (`fetch_website_content`) is a foreign call. Its result is an input: markup or `None`.
- HTML parsing by BeautifulSoup is a foreign library. A page arrives with its flat element list. Each element carries its class values, id, style and full descendant text.
- BotDetect.ByRawPatterns: the three raw-markup regular expressions of bot.py lines 102-106 are not modelled. They use lazy `.*?` over `re.DOTALL`. Their captured values are an input, and only the range guard of line 112 is modelled.
- The keyword matching of `re.compile(keyword, re.IGNORECASE)` is modelled as a case-insensitive substring search over ASCII. The keywords contain no regex metacharacters.
- Characters are ASCII. Python's Unicode `\w`, `\s`, `str.isdigit` and case folding are not modelled. On ASCII digit strings `int()` cannot raise. Beyond ASCII, `str.isdigit` accepts strings such as "²" that `int()` rejects; the `ValueError` then empties the whole bot.py detection through lines 138-140, and the model does not cover that case. The other sources of an exception inside the `try` of bot.py lines 64-140 and app.py lines 52-99 (BeautifulSoup, `find_all`, `get_text`) are modelled only by their outcome: a parsed page of `None`, for which both detectors return the empty set.
- Logging, message text and the timestamps inside messages are left out. A message is its kind and its number set.
- Telegram delivery is asynchronous and may fail. Its outcome is an input, and both pollers ignore it.
- The sleep arithmetic of bot.py lines 233-241 is left out, and so is the loop-level `except` with its 2-second pause. A poll's clock reading is an input.
- The `schedule` library's 5-second and 30-minute timers in app.py are left out. The order of the jobs is an input.
- Threads, asyncio event loops and the Flask routes (`/`, `/health`, `/status`) are left out. The routes return static pages apart from the current time. web_server.py is not part of this model.
- Time is an exact `real`, not a floating-point number.
- BotMonitor.MonitorLoop: the startup status message is dropped as written, because it is called with `set()`. The model therefore ties the result to the fresh loop and does not carry a separate startup trace.

## Findings

None claimed. The behaviours noted above are consistent, deliberate-looking
code, and they are modelled as written.
