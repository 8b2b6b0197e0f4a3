# Coffee Brew Logger — a Dafny model of the brew timer and the brew record

Coffee Brew Logger is a Streamlit form in which a person logs a coffee brew:
bean, roaster, roast level, brewing method, grind size, dose, water, temperature,
extraction time, rating and notes. An extraction stopwatch sits above the form.
All of its logic lives inline in two scripts. `app/streamlit_app.py` sends each
record to a `brews` table. `app/app.py` is an earlier copy that only echoes the
values on screen.

This project models that logic as pure functions over immutable values:

- `Optional` — the `Option` datatype standing for Python's `None`.
- `PyValues` — the Python conversions the scripts rely on. `int()` of a clock
  difference truncates toward zero. `x or 0` gives the time field's default. The
  three null-introducing conversions are `s or None` (`StrOrNone`),
  `int(x) if x else None` (`IntOrNone`) and `None if x == "未選択" else x`
  (`NoneIf`). Their left inverses are `OrEmpty`, `OrZero` and `OrSentinel`.
- `IsoDate` — `datetime.date`, `str(date)` and the
  `datetime.combine(date, time(0, 0)).isoformat()` text. A parser for each text
  form is proved to read it back to the same date, and only that date.
- `Timer` — the two session keys `timer_start` and `total_time_sec`, including
  their initialisation on every run. It also holds START, STOP, the status line,
  the prefill of the time field, and the invariant "never both set". Both scripts
  share this module, since their timer code is line for line the same.
- `BrewLogger` — `app/streamlit_app.py`: the form values, the payload row, the
  submit handler with the insert outcome as a boolean, and one whole script run
  (`Cycle`).
- `EchoApp` — `app/app.py`: the echo submit, which always clears the
  measurement. The later script's row is proved to hold everything the echo
  shows.

The wall clock `time.time()` becomes an integer parameter counting milliseconds.
The Supabase insert becomes a boolean: it succeeded or it raised.

## Model

| member | source | states |
|---|---|---|
| PyValues.TruncSeconds | app/streamlit_app.py:45 | `int(now - timer_start)` truncates toward zero: for a non-negative difference the result is the whole seconds elapsed (result·1000 ≤ d < result·1000 + 1000); for a negative one it rounds up toward zero |
| PyValues.TruncSecondsMonotone | app/streamlit_app.py:45 | with a clock that does not run backwards, the measured seconds are never negative and grow with the difference |
| PyValues.StrOrNone | app/streamlit_app.py:113 | `roaster or None`: null exactly when the text is empty, the text unchanged otherwise |
| PyValues.IntOrNone | app/streamlit_app.py:118-121 | `int(x) if x else None`: null exactly when the number is 0, the number unchanged otherwise |
| PyValues.NoneIf | app/streamlit_app.py:114-116 | `None if x == "未選択" else x`: null exactly for the sentinel, the choice unchanged otherwise |
| PyValues.OrZero | app/streamlit_app.py:94 | `x or 0` on an optional int: 0 for None, the value otherwise |
| PyValues.ConversionsInvertible | app/streamlit_app.py:113-122 | each null-introducing conversion has a left inverse (empty text, 0, sentinel), so none loses information |
| PyValues.ConversionsCanonical | app/streamlit_app.py:113-122 | an optional value that does not hold the value standing for null survives the inverse and the conversion unchanged |
| IsoDate.Pad | app/streamlit_app.py:111 | zero-padded decimal field: exactly `width` digits whose decimal value is `n` |
| IsoDate.PadValueOf | app/streamlit_app.py:111 | a digit string is the padding of its own value, so padding is the only spelling of a value at that width |
| IsoDate.DateString | app/app.py:107 | `str(date)` is "YYYY-MM-DD": ten characters with dashes in place, and the three digit fields spell the year, month and day |
| IsoDate.MidnightIso | app/streamlit_app.py:107-111 | the stored timestamp is the date text followed by "T00:00:00", 19 characters |
| IsoDate.ParseDateString | app/app.py:107 | `str(date)` reads back as the same date |
| IsoDate.DateStringOfParse | app/app.py:107 | any text that reads back as a date is exactly that date's `str` |
| IsoDate.ParseMidnightIsoRoundTrip | app/streamlit_app.py:107-111 | the stored `brewed_at` text reads back as the chosen date |
| IsoDate.MidnightIsoOfParse | app/streamlit_app.py:107-111 | only a date's own midnight timestamp reads back as that date |
| Timer.InitKeys | app/streamlit_app.py:27-30 | a missing key is set to None; a key already present keeps its value |
| Timer.InitKeysRerun | app/streamlit_app.py:27-30 | a fresh session starts idle, and later runs' initialisation does not disturb stored state |
| Timer.Start | app/streamlit_app.py:34-38 | START at `now` sets `timer_start = now` and clears the result, whatever the prior state |
| Timer.Stop | app/streamlit_app.py:41-48 | STOP without a start time only warns and changes nothing; otherwise it stores the truncated elapsed seconds, clears the start time, and keeps the invariant |
| Timer.ClearResult | app/streamlit_app.py:136 | clearing the result leaves `timer_start` untouched |
| Timer.StatusOf | app/streamlit_app.py:51-54 | "running" iff a start time is set; otherwise the stored result if there is one; otherwise nothing |
| Timer.Prefill | app/streamlit_app.py:94 | the time field defaults to the stored result, or 0 when none is stored |
| Timer.StatusReflectsSession | app/streamlit_app.py:51-54 | under the invariant, a shown result is the prefilled time, a running timer prefills 0, and no status means idle |
| Timer.StartStopMeasures | app/streamlit_app.py:34-48 | START at t0 then STOP at t1 ≥ t0 shows, stores and prefills the floor of (t1 − t0) in seconds |
| Timer.TimerSection | app/streamlit_app.py:27-94 | one run's timer part: the keys are initialised, the button is handled, then the status and prefill are derived from the resulting session |
| Timer.RunKeepsNotBoth | app/streamlit_app.py:34-54 | over any sequence of START, STOP and result clearing, `timer_start` and `total_time_sec` are never both set |
| Timer.RunKeepsSane | app/streamlit_app.py:34-48 | with a clock that never runs backwards, every stored result is non-negative as well |
| BrewLogger.UserId | app/streamlit_app.py:20 | "me" exactly for the "自分" entry, "friend" for anything else |
| BrewLogger.Payload | app/streamlit_app.py:107-123 | the row: each sentinel choice, blank text or zero number becomes null and nothing else does, and every other field carries the form's value unchanged; the dose passes through; `brewed_at` reads back as the chosen date; the row holds no value that stands for null |
| BrewLogger.PayloadRoundTrip | app/streamlit_app.py:107-123 | the form values can be recovered from the row, so the mapping is injective |
| BrewLogger.PayloadOfRecover | app/streamlit_app.py:107-123 | every canonical row that reads back as a form is that form's payload, so canonical rows are exactly the payloads |
| BrewLogger.WidgetValuesSent | app/streamlit_app.py:117-121 | within the widget bounds, temperature and rating are always sent; a time of 0 is sent as null |
| BrewLogger.Submit | app/streamlit_app.py:125-140 | the payload is sent; a successful insert clears only `total_time_sec`; a failed insert changes no session state |
| BrewLogger.Cycle | app/streamlit_app.py:27-140 | a run's session is the timer step of its event; a button run shows that button's timer section and neither sends nor reports an insert; a submit run shows the timer section with no button pressed, so the status and prefill are the ones from before the submit; the outcome is "saved" iff the insert succeeded |
| BrewLogger.CyclesAreTimerRun | app/streamlit_app.py:27-140 | any sequence of script runs is the timer machine run on the runs' events |
| BrewLogger.CyclesNeverBoth | app/streamlit_app.py:27-140 | starting from a fresh session, no sequence of runs holds both a start time and a result |
| BrewLogger.StopThenSubmitScenario | app/streamlit_app.py:34-136 | START, then STOP 47.5 s later, shows and prefills 47; submitting 47 sends 47; a successful insert returns the session to idle |
| BrewLogger.FailedInsertKeepsSession | app/streamlit_app.py:138-140 | a failed insert leaves the session exactly as before and shows the failure |
| EchoApp.Echo | app/app.py:104-120 | the echo passes every value through: the sentinel stays text, empty stays empty, and `brewed_at` is the plain date text that reads back as the date |
| EchoApp.EchoOfRow | app/app.py:104-120 | reading a row back: each of the nine nullable fields gives the sentinel, the empty text or 0 when null and the held value otherwise; user id, bean and dose are kept; a `brewed_at` that reads as a date gives that date's `str` |
| EchoApp.EchoFromPayload | app/app.py:104-120 | the earlier script's echo can be read back from the later script's row, so the row holds everything the echo shows |
| EchoApp.SameRowIffSameEcho | app/app.py:104-120 | two submits send the same row exactly when they echo the same values |
| EchoApp.EchoKeepsWhatPayloadNulls | app/app.py:109-116 | for the sentinel, a blank roaster or a zero time, the echo shows the raw value where the row holds null |
| EchoApp.SubmitEcho | app/app.py:100-123 | a submit always clears `total_time_sec` and leaves `timer_start` as it was |
| EchoApp.Cycle | app/app.py:24-123 | a run's session is the timer step of its event; a button run shows that button's timer section; a submit run shows the timer section from before the submit, shows the echo, and clears the result |
| EchoApp.CycleKeepsNotBoth | app/app.py:24-123 | one run of the earlier script from a state that is never both set keeps that invariant, and is one timer step |
| EchoApp.CyclesKeepNotBoth | app/app.py:24-123 | by induction over the runs, any sequence of the earlier script's runs keeps "never both set" |
| EchoApp.CyclesNeverBoth | app/app.py:24-123 | starting from a fresh session, the earlier script never holds both keys |

The timer lines of `app/app.py` (24-51 and 91) are the same as those of
`app/streamlit_app.py` (27-54 and 94). Both scripts therefore use the one
`Timer` module.

Two points about the scripts' behaviour:

- A successful insert clears only `total_time_sec`; `timer_start` is kept.
- STOP stores `int(...)`, which truncates toward zero.

## Left out

- Rendering and Streamlit control flow: page config, titles, columns, `st.success`,
  `st.warning`, `st.error`, `st.exception`, `st.json` and dividers. Messages appear
  only as the `Notice` and `Outcome` tags and the echoed row.
- Widget bounds and clamping (`app/streamlit_app.py:85-98`): Streamlit enforces
  these, not the scripts. They are the `BrewLogger.FromWidgets` predicate, used as
  a hypothesis in `BrewLogger.WidgetValuesSent`. Streamlit raises when a stored
  negative or over-1200 result is used as the time field's default; that is not
  modelled.
- Streamlit's widget identity and state retention. Form values arrive as
  parameters of the submit, whatever the user typed over the prefill.
- The wall clock: an integer parameter counting milliseconds. Sub-millisecond
  resolution and float rounding of `time.time()` are not modelled.
- `dose_g` as a float: an opaque `Grams` value passed through unchanged by
  `float()`.
- The Supabase insert (`app/streamlit_app.py:126`): a boolean outcome parameter,
  where false is the exception caught at line 138. The inserted row id shown at
  lines 129-133 is display only.
- A failure of `get_supabase_client()` (`app/streamlit_app.py:104`): it is called
  outside the `try`, so a missing configuration ends the run with Streamlit's
  traceback instead of the failure message. That crash is not modelled. Session
  state is unchanged in that case too.
- `app/supabase_client.py`: environment and secret lookup, plus SDK construction.
  This is I/O and a foreign library.
- `app/auth.py`: sign-in, sign-out and the cached user. These depend entirely on
  the external auth service and on Streamlit's rerun and stop.
- The user radio is a form field (`Form.user`) here. In the scripts it sits just
  above the timer, outside the form; its value is the same at submit time.

