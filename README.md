# recreation-gov-bot, modelled in Dafny

The bot (`rec_gov_bot.py`) drives a browser through a reservation on
recreation.gov. Each bot instance has three phases: `LOGGED_OUT`,
`RESERVING` and `PURCHASING`. `run` calls `next_state` in an endless loop.
`next_state` makes the call of the current phase (`login`, `reserve`, or the
console prompt of the purchasing phase) and advances the phase when that call
returns true. Any exception is caught by `run`, which sleeps and tries again.
`main` repeats every configured request `--instances` times and starts one bot
per entry.

The model treats the browser as given observations:

- each `wait_for_element` result is `Found` or `NotFound` (`Attempts.Lookup`);
- the `any_of` race between "final button clickable" and "No available
  times" is a boolean, timed out or not;
- the final button's `disabled` attribute is an `Option<string>`.

From these, the model fixes the path the code takes: raise, return false, or
click and return true. It also records everything the bot does, in order, as a
trace of `Action`s: navigation, lookups, clicks, keys typed, the attribute
read, the console prompt, sleeps, and `run`'s "Current state" line.

Files:

- `wrappers.dfy`: `Option`.
- `date_split.dfy`: Python's `str.split('/')` and `'/'.join`, and the
  unpacking of the date into month, day and year.
- `expansion.dfy`: the replication comprehension of `main`.
- `attempts.dfy`: the decision logic of `login` and `reserve`.
- `rec_gov_bot.dfy`: the phase transition table, the bot as a class with a
  mutable `state` and `trace`, `next_state`/`run` as methods, the launch of
  one bot per expanded entry, and lemmas about whole runs.

Where the code differs from what its comments and branches suggest, the
model follows the code:

- `reserve` does not check WHICH condition ended the `any_of` wait. If the
  "No available times" message appeared but the button's `disabled`
  attribute is not `"true"`, the code clicks and returns true. The model does
  the same, so success depends only on the timeout and the attribute.
- `login` never returns false: every missing element raises. The
  "Failed to log in" branch of `next_state`, with its 5-second sleep, is dead
  code. `RecBot.RecGovBot.NextState` marks that branch unreachable.
  `RecBot.ReturnPause` still gives it the 5-second `LoginRetryPause`.
- A login failure does not take the longer cooldown in `next_state`. It
  raises, and `run` then takes its generic 5-second sleep. A reservation that
  raises (missing date inputs or final button) also gets that 5-second sleep.
  Only a `False` return from `reserve` gets the 1-second sleep.
- The date is never checked to be a calendar date. Any string with exactly
  two `'/'` unpacks, empty parts included (`"1//2"` gives month `"1"`, day
  `""` and year `"2"`). Any other string raises before the browser is touched.

## Model

| member | source | states |
|---|---|---|
| `DateSplit.Split` | rec_gov_bot.py:119 | `str.split('/')` always yields at least one piece, and no piece contains `'/'` |
| `DateSplit.JoinSplit` | rec_gov_bot.py:119 | joining the pieces of a split with `'/'` gives back the original string |
| `DateSplit.SplitJoin` | rec_gov_bot.py:119 | splitting a `'/'`-join of one or more `'/'`-free pieces gives back exactly those pieces |
| `DateSplit.SplitCount` | rec_gov_bot.py:119 | a split has exactly one more piece than the string has `'/'` |
| `DateSplit.ParseDate` | rec_gov_bot.py:119 | the unpacking `month, day, year = date.split('/')`: a result exactly when the split has three pieces, and then the result is those pieces in order (see `ParseDateSucceeds` and `ParseDateRoundTrip`) |
| `DateSplit.ParseDateSucceeds` | rec_gov_bot.py:119 | unpacking into month, day and year succeeds exactly when the date holds exactly two `'/'` |
| `DateSplit.ParseDateRoundTrip` | rec_gov_bot.py:119 | on success, month, day and year contain no `'/'`, and month + "/" + day + "/" + year is the configured date |
| `DateSplit.FormatParse` | rec_gov_bot.py:119 | three `'/'`-free parts written as month/day/year unpack back to the same three parts |
| `Expansion.Repeat` | rec_gov_bot.py:218 | `range(n)` repeats its entry max(n, 0) times |
| `Expansion.Expand` | rec_gov_bot.py:218 | the comprehension: each configured entry in turn, repeated `range(n)` times. Empty for n <= 0; for n > 0 and a non-empty configuration it starts with the first entry (length, order and counts are in `ExpandLength`, `ExpandAt` and `ExpandMultiplicity`) |
| `Expansion.ExpandLength` | rec_gov_bot.py:218 | the expanded list has `len(options) * n` entries, and none when n <= 0 |
| `Expansion.ExpandAt` | rec_gov_bot.py:218 | for n > 0, entry i of the expansion is `options[i / n]`: order is kept and each entry fills n consecutive places |
| `Expansion.ExpandBlock` | rec_gov_bot.py:218 | place j of the k-th run of n places holds configured entry k |
| `Expansion.ExpandMultiplicity` | rec_gov_bot.py:218 | every value occurs in the expansion exactly max(n, 0) times as often as in the configuration |
| `Expansion.ExpandOnce` | rec_gov_bot.py:213-218 | the default factor of 1 leaves the list unchanged |
| `Expansion.ExpandNonPositive` | rec_gov_bot.py:218 | a factor of 0 or less gives the empty list, so no bot starts |
| `Attempts.Login` | rec_gov_bot.py:87-115 | login never returns false. It returns true exactly when the login button, both credential fields and the user-name marker are all found. Each missing element raises its own exception, in the order of the code. Every attempt starts by navigating to the request URL and looking for the login button. The login button is clicked exactly when it was found. The email and the password are typed exactly when the button and both fields were found |
| `Attempts.Reserve` | rec_gov_bot.py:118-158 | reserve returns true exactly when the date unpacks, all four elements are found, the race did not time out and `disabled` is not `"true"`. It raises exactly when the date does not unpack or an element is missing, and a bad date raises before any browser action. A missing date input raises its own exception exactly when the date unpacked, and a missing final button raises its own exception exactly when the date was entered. It returns false exactly on a timed-out race or a disabled button. The final button is clicked exactly on the success path. The attribute is read only when nothing was missing and the race resolved |
| `Attempts.FinalButtonAfterDate` | rec_gov_bot.py:121-139 | the final button is waited for exactly when the date unpacked and all three date inputs were found and filled |
| `Attempts.ReserveTraceShape` | rec_gov_bot.py:121-133 | once the date inputs are found, the first nine actions are the three lookups, the three date parts typed in order, and a TAB through each input. Nothing is typed after that |
| `Attempts.ReserveTypesDate` | rec_gov_bot.py:119-128 | month, day and year inputs each receive exactly one text: the three parts of the configured date, in order, none containing `'/'`. Joined with `'/'`, they give back the configured date |
| `Attempts.DateKeysTyped` | rec_gov_bot.py:126-132 | while the date is entered, each date input receives its own part of the date and no other text |
| `RecBot.PurchasePrompt` | rec_gov_bot.py:176-179 | the purchasing step only prompts. It raises exactly when the prompt gets no acknowledgement (end of input) |
| `RecBot.Call` | rec_gov_bot.py:163-179 | the call each phase makes: `login` when logged out, `reserve` when reserving, the console prompt when purchasing. A login attempt never returns false and starts by navigating to the request URL. A reservation returns true exactly when it clicked the final button. The purchasing call only prompts |
| `RecBot.ReturnPause` | rec_gov_bot.py:165-175 | the sleep of `next_state` after a call that returned: none after true, at most one sleep in any case, never in purchasing, and exactly 1 second after a false reservation |
| `RecBot.AfterCall` | rec_gov_bot.py:165-190 | what follows a call within one iteration of run: exactly the 5-second sleep of run's handler after an exception, nothing after a true return, and otherwise at most one sleep |
| `RecBot.Transition` | rec_gov_bot.py:162-180 | the transition table. An exception or a false return leaves the phase unchanged. Purchasing never changes. The phase changes exactly when a non-purchasing call returned true, and then advances by exactly one phase |
| `RecBot.NextPhase` | rec_gov_bot.py:162-190 | from logged out, the bot moves to reserving exactly when login returned true, and stays exactly when login raised. From reserving, it moves to purchasing exactly when reserve returned true, which is exactly when the final button was clicked. Otherwise it stays reserving. Purchasing is absorbing. A step advances by at most one phase |
| `RecBot.RecGovBot.constructor` | rec_gov_bot.py:51-53 | a new bot keeps its request, starts logged out and has done nothing yet |
| `RecBot.RecGovBot.NextState` | rec_gov_bot.py:162-180 | next_state makes the current phase's call and appends that call's actions. If the call raised, it propagates the same exception and leaves the phase unchanged. Otherwise it returns the new phase, appends next_state's sleep, and sets the phase to `NextPhase` |
| `RecBot.RecGovBot.Step` | rec_gov_bot.py:184-190 | one iteration of run: it reports the phase, makes the step, and catches an exception. The new phase is `NextPhase` and the trace grows by exactly `StepTrace` |
| `RecBot.RecGovBot.Run` | rec_gov_bot.py:183-190 | running the given steps leaves the bot in `RunPhase` and appends exactly `RunTrace`. No exception stops the loop early |
| `RecBot.Launch` | rec_gov_bot.py:218-226 | main creates one fresh, distinct bot per entry of the expanded configuration, in order. Each bot holds that entry, starts logged out, and has its own phase and its own trace |
| `RecBot.StepAdvances` | rec_gov_bot.py:162-190 | a single step moves the bot to a later phase only when the call of that step returned true |
| `RecBot.RunMonotone` | rec_gov_bot.py:162-190 | a bot never returns to an earlier phase |
| `RecBot.PurchasingAbsorbs` | rec_gov_bot.py:176-180 | from purchasing, any number of steps leaves the bot in purchasing |
| `RecBot.LeavesOnlyOnSuccess` | rec_gov_bot.py:162-190 | a run that gets past phase p passed through p, and in p made a call that returned true. Exceptions and false returns never move a bot |
| `RecBot.ReservingNeedsLogin` | rec_gov_bot.py:164-166 | a bot leaves logged out only through a login that returned true |
| `RecBot.PurchasingNeedsClick` | rec_gov_bot.py:170-172 | a bot reaches purchasing only through a reservation step that returned true and clicked the final button |
| `RecBot.CallReportsNothing` | rec_gov_bot.py:183-190 | the state line is written by run alone, never by the call of a step |
| `RecBot.StepReports` | rec_gov_bot.py:183-190 | each step writes the state line exactly once, with its starting phase |
| `RecBot.RunReports` | rec_gov_bot.py:183-190 | a run of n steps writes the state line n times, once per step, each time with the phase that step starts in. No exception ends the loop |
| `RecBot.VisitedAt` | rec_gov_bot.py:183-190 | entry i of the reported phases is the phase after the first i steps |
| `RecBot.LoginRetryStartsOver` | rec_gov_bot.py:87-95 | after a login that raised, the bot is still logged out. The next step starts over: it navigates to the request URL and looks for the login button again |

## Left out

- Selenium itself (driver setup, element lookup, `send_keys`, `click`,
  `get_attribute`, navigation). Their results are given as observations, and
  `wait_for_element` is taken to return found or not found without raising,
  as its own catch-all handler makes it.
- Exceptions raised by the driver calls other than the lookups are not
  modelled: navigation, clicks, typing, the attribute read, and the `any_of`
  wait failing for a reason other than its timeout. Such an exception would
  reach `run` like any other. `Transition` keeps the phase for every
  `Raised` outcome, whatever its cause.
- RecBot.RecGovBot.Run: `run` loops for ever. The model runs one step per
  entry of a given finite sequence of observations, so it covers every finite
  prefix of a run.
- Threads in `main`: one thread per bot. Each bot has its own phase and
  trace. The replicas of one entry hold the same options object, which no
  bot writes. `Launch` creates the distinct bots. Starting and joining the
  threads, and the interleaving of their steps, are not modelled.
- The console is shared: every bot in the purchasing phase reads the same
  standard input. One Enter releases only one waiting prompt, and end of
  input makes every waiting prompt raise. The model gives each prompt its
  own acknowledgement, independent of the other bots.
- The durations of `time.sleep` and the waits' timeouts are not modelled as
  time. The sleeps appear only as `Pause(seconds)` actions in the trace.
- The console prompt is reduced to acknowledged or end of input. The text
  typed at the prompt is ignored, as the code ignores it.
- Logging, except `run`'s "Current state" line, which is kept as the
  `ReportState` action. The other log messages are left out, and so is the
  line `main` prints for each bot it starts ("Starting bot for" and the URL).
- Reading the JSON configuration, writing the sample configuration file, and
  argparse. These are file and command-line plumbing.
- The XPath selector strings. Each selector that `login` and `reserve` look
  up has its own `Element` constructor. The "No available times" selector is
  part of the `AwaitFinalOrNoTimes` action. The submit-button and time-buttons
  selectors are never used by the code, so the model has no name for them.
