# Reddit Helper relay, content-script dispatcher and browsing session, in Dafny

This project models the parts of the Reddit Helper system that decide anything:

- **The relay server's in-memory store** (`api-server.js`). A queue of pending commands and an append-only history of results. An enqueue validates and appends; a poll drains the queue; a result report appends to the history; the history read returns the most recent fifty; the status read reports both lengths. It is a class `Store` whose methods update `seq` fields. The clock and the process uptime are parameters.
- **The content script** (`content.js`):
  - `processApiCommand` is split into two functions. `Decode` covers the `switch`, the field checks and the duration defaults. `Execute` covers the call on the page and the result it gives.
  - `pollApiCommands`, `startApiPolling` (with its immediate first poll) and `stopApiPolling` are methods of a class `ContentScript` that holds the script's module-level variables.
  - The shared auto-browse session (`startAutoBrowse`, `startHomeFeedBrowse`, `stopAutoBrowse` and one iteration of `browseLoop`/`homeFeedBrowseLoop`, split at its two `await`s) is a pure state machine. The class methods are proved against it.
  - The scrolling sub-loops `continuousScroll`, `humanLikeScroll` and `scrollMainPage` are objects with a `Step` per timer callback, and `getRandomDelay` is a function.
  - The page functions are an adapter whose call returns a value or throws. `Math.random()` draws are `real` parameters in [0, 1); the clock is an integer parameter.
- **The popup** (`popup.js`):
  - The empty-input checks of the search and login buttons.
  - The `parseInt(...) || 5` duration field.
  - The `M:SS` remaining-time text.
  - The countdown, as a class `PopupUi` whose handlers update its fields.
- **The test client** (`test-api.js`): the interactive line decoder (trim, split at single spaces, lowercase the first word, map the name) and the command-line argument handling of `main`.

The JavaScript semantics the code relies on are written out, not borrowed:

- Truthiness, `||`, destructuring defaults, `String(v)` in template literals, `Number(v)`, property reads that throw on `null`.
- `trim`, `split(' ')`, `join`, `toLowerCase`, `Number.prototype.toString`, `parseInt`, `padStart`, and `%`, which truncates toward zero.

Behaviour worth noting:

- A queued command keeps `status: 'pending'` forever; nothing sets it to delivered (api-server.js:32, 55-56).
- The stored history is unbounded. `push` never evicts; only the read is cut to the last fifty (api-server.js:77, 90). `historyLength` reports the full count.
- The two browse loops share one `autoBrowsing` flag. A home-feed start is refused while the general loop runs, and the reverse (content.js:1401, 1459).
- The duration defaults differ by path. The relay's `browseHomeFeed` defaults to 10 minutes, the popup's to 5 (content.js:1634, 1034).
- The relay's `scrollDown` and `scrollUp` call functions that do not exist, so they always report an error (content.js:1648, 1653).

## Model

| member | source | states |
|---|---|---|
| RelayServer.Store.constructor | api-server.js:12-13 | The queue and the history start empty, with nothing accepted or delivered. |
| RelayServer.Store.Enqueue | api-server.js:16-43 | A falsy `command` is rejected with 400 "Command is required" and the queue is unchanged. Otherwise exactly one entry is appended at the end. It has id = text of the clock, `data` defaulted to `{}`, status "pending", and the reply names the command. The history never changes. "Accepted = delivered ++ pending" is kept. |
| RelayServer.Store.Poll | api-server.js:46-62 | Returns every pending command in enqueue order and empties the queue. The returned commands join the delivered ones; the history is unchanged. |
| RelayServer.PollTwice | api-server.js:46-62 | A poll right after a poll returns nothing. |
| RelayServer.Store.RecordResult | api-server.js:65-84 | Always succeeds, whatever the id, and appends exactly one record with `data` defaulted to `{}`. The queue is untouched. |
| RelayServer.Store.History | api-server.js:87-92 | Returns the last min(n, 50) results in chronological order, ending with the most recent. It mutates nothing. |
| RelayServer.Store.Status | api-server.js:95-103 | Reports "running", the queue length and the full history length, and changes nothing. |
| RelayServer.IdsCollideExactlyOnEqualClocks | api-server.js:26 | Two enqueues get the same id exactly when they read the same clock value. |
| RelayServer.IncreasingClockGivesDistinctIds | api-server.js:26 | Under a strictly increasing clock, ids are pairwise distinct. |
| Text.TrimStart | popup.js:97 | Drops exactly a whitespace prefix; the result does not start with whitespace. |
| Text.TrimEnd | popup.js:97 | Drops exactly a whitespace suffix; the result does not end with whitespace. |
| Text.TrimIdempotent | popup.js:97 | Trimming twice is trimming once. |
| Text.TrimOfTrimmed | test-api.js:118 | A string with no surrounding whitespace is its own trim. |
| Text.TrimAllWhitespace | popup.js:98 | An all-whitespace input trims to the empty string. |
| Text.Split | test-api.js:118 | `split(' ')` has at least one piece and no piece holds the separator. There is one piece exactly when the separator is absent. |
| Text.JoinSplit | test-api.js:118-120 | Joining the pieces of a split with the separator gives the string back. |
| Text.SplitJoin | test-api.js:118 | Splitting a join of separator-free pieces gives the pieces back. |
| Text.SplitAtFirst | test-api.js:118 | A split peels off the piece before the first separator. |
| Text.RestAfterFirst | test-api.js:163 | The pieces after the first joined back with spaces are exactly the text after the first separator. |
| Text.NatToString | api-server.js:26 | The decimal text is non-empty, all digits, and without a leading zero unless the number is 0. |
| Text.NatToStringValue | api-server.js:26 | Reading the decimal digits back gives the number. |
| Text.IntToStringInjective | api-server.js:26 | Two integers have the same text exactly when they are equal. |
| Text.IntToStringParses | test-api.js:178 | `parseInt` of an integer's text gives the integer back. |
| Text.DigitPrefix | test-api.js:178 | The length of the longest leading run of digits in the radix. |
| Text.PadStartShape | popup.js:208 | `padStart` gives length max(len s, width), ends with `s`, and is fill characters before it. |
| JsValues.Lookup | content.js:1584 | A missing key reads as `undefined`; of duplicate keys the last wins, as `JSON.parse` keeps the last. |
| JsValues.LookupFinds | content.js:1584 | A defined read comes from a property carrying that key, and no later property carries it. |
| JsValues.Get | content.js:1576 | Reading a field fails (TypeError) exactly when the value is `undefined` or `null`. |
| Pacing.RandomDelay | content.js:1157-1159 | `getRandomDelay(min, max)` is an integer in [min, max] for a draw in [0, 1). |
| Pacing.RandomDelayCoversRange | content.js:1157-1159 | Every integer in [min, max] is produced by some draw. |
| Pacing.ContinuousScroll.constructor | content.js:1163-1166 | endTime = start + duration, with lastScrollHeight 0 and reachedBottom false. |
| Pacing.ContinuousScroll.Step | content.js:1168-1219 | It finishes exactly at or after endTime, and then changes nothing. Before endTime it keeps scrolling: it jumps exactly when at the bottom (within 50 px) and the height equals the last step's; the jump target is the position draw's point in [0, 0.7·height) and sets reachedBottom. It otherwise scrolls the amount draw's 40–100 % of the viewport, forward exactly when the draw is below 0.85, and a forward scroll clears reachedBottom. It records the height and waits the delay draw's 600–1200 ms. |
| Pacing.StuckAtBottomJumps | content.js:1183-1214 | Two callbacks before endTime on a page sitting at the bottom with an unchanged height: the first keeps scrolling, the second jumps back into the first 70 % and sets reachedBottom. |
| Pacing.JumpTarget | content.js:1193 | `floor(r · height · 0.7)` is 0 or below 70 % of the height. |
| Pacing.HumanLikeScroll.constructor | content.js:1228-1230 | All three counters start at 0. |
| Pacing.HumanLikeScroll.Step | content.js:1234-1281 | It finishes, with the counters unchanged, at the bottom, after 20 attempts, or after 3 stagnant steps. Otherwise it counts a stagnant step when the height did not change (and resets the counter when it did), jumps to the bottom on the second stagnant step, counts the attempt and waits the delay draw's point in 1.2–2 s. |
| Pacing.HumanScrollTerminates | content.js:1231-1246 | Whatever the pages do, `humanLikeScroll` finishes within 21 steps. |
| Pacing.StagnantPageEndsSoon | content.js:1249-1262 | On a page whose height never changes, it finishes within five steps. |
| Pacing.MainPageScroll.constructor | content.js:1291-1292 | `floor(r·3)+2` scroll actions planned, none done. |
| Pacing.MainPageScroll.Step | content.js:1294-1309 | Counts one scroll; it pauses exactly when more scrolls remain, for the pause draw's point in 0.8–1.5 s. |
| Pacing.ScrollMainPage | content.js:1288-1314 | The chain performs exactly the planned number of scrolls, between 2 and 4. |
| Session.HomeFeedVisitsMore | content.js:1427 | A draw that visits a post on the general loop (below 0.7) also does on the home feed (below 0.8), and [0.7, 0.8) separates them. |
| Session.DurationMs | content.js:1466 | minutes × 60 × 1000, with NaN staying NaN. |
| Session.Stop | content.js:1516-1524 | The flag goes down and no timer is pending; start time and duration are kept. |
| Session.Begin | content.js:1470-1480 | Does nothing while the flag is down. Stops without choosing an action once `now - start >= duration`. Otherwise it chooses the action by the variant's threshold and changes nothing. |
| Session.Rearm | content.js:1503 | Arms the variant's timer with the draw's delay in [lo, hi]; flag, start and duration are untouched. |
| Session.AfterAction | content.js:1483-1507 | After the first action completes the state is unchanged, and the iteration goes on to the extra scroll exactly when the flag is still up. A throw re-arms the timer for 2–5 s whatever the flag, and ends the iteration. |
| Session.AfterExtraScroll | content.js:1497-1507 | After the extra scroll the timer is re-armed for 1–3 s (2–5 s on a throw) with no second look at the flag; flag, start and duration are untouched. |
| Session.Start | content.js:1458-1468 | Refused (false, nothing changed) while either loop runs. Otherwise it returns true, records now and minutes·60000, and runs the first iteration at once. So a start of 0 or fewer minutes ends immediately. |
| Session.ApplyKeepsInv | content.js:1500-1505 | Every event keeps "a pending loop timer waits 1–5 s". |
| Session.RunKeepsInv | content.js:1500-1505 | Every run keeps "a pending loop timer waits 1–5 s". |
| Session.StopDuringExtraScroll | content.js:1471-1503 | A stop while the extra scroll is in flight leaves a 1–3 s timer armed on the stopped session; its fire runs only the guard and changes nothing. |
| Session.StopDuringAction | content.js:1493-1524 | A stop before the first action completes ends the iteration quietly, with no timer pending. |
| Session.ThrowAfterStopArmsTimer | content.js:1504-1507 | The `catch` branch re-arms a 2–5 s timer even on a stopped session, and no extra scroll follows. |
| Session.StopIdempotent | content.js:1516-1524 | Any number k ≥ 1 of stops equals one stop: flag down, no timer. |
| Session.StoppedStaysStopped | content.js:1471-1493 | A stopped session with no new start stays stopped with its start and duration; timers left by iterations in flight may fire, but no action is ever chosen. |
| Session.NaNDurationNeverExpires | content.js:1475 | A session whose duration is NaN never expires; each fire chooses an action. |
| Session.FireAfterDeadlineStops | content.js:1474-1479 | A fire at or after start + duration stops the session without an action. |
| Session.StartedSessionLasts | content.js:1464-1466 | A start for m > 0 minutes is expired at time t exactly when t ≥ now + m·60000. |
| Agent.Decode | content.js:1582-1674 | An unknown kind reports "Unknown command: <kind>". `scrollDown` and `scrollUp` become calls of undefined functions. |
| Agent.PageResult | content.js:1588-1670 | For search, login and logout, `success` is the page call's value, and the success message is shown exactly when that value is truthy. checkAuth, scrollToTop, goHome and refresh succeed. Only checkAuth carries data: `{authenticated: !!v, username: v}`. |
| Agent.Execute | content.js:1588-1670 | Only a start or a stop changes the session. A stop gives Session.Stop and "Auto browse stopped". A start gives Session.Start of the numeric minutes, with success exactly when no loop was running. An undefined function throws its ReferenceError. A page call that throws reports the error; one that returns reports PageResult of its value. |
| Agent.Process | content.js:1575-1682 | Exactly one report, under the command's id; a command decided before any page call leaves the session unchanged. |
| Agent.UnknownCommandReported | content.js:1672-1673 | An unknown kind gives `{success:false, "Unknown command: <kind>"}` and changes nothing. |
| Agent.SearchNeedsQuery | content.js:1583-1593 | A search without a truthy `query` fails with "Query parameter required for search", whatever the page would do. |
| Agent.LoginNeedsBothFields | content.js:1595-1605 | A login without both truthy `email` and `password` fails without the page. |
| Agent.QueryDecodes | content.js:1584-1585 | A non-empty string query reaches the page's search. |
| Agent.FilledLoginDecodes | content.js:1596-1597 | Two non-empty string fields reach the page's login. |
| Agent.NullDataThrows | content.js:1576 | With `null` data (the `= {}` default applies only to `undefined`) a field-reading kind reports "Error: Cannot read properties of null…". |
| Agent.ThrownErrorsAreReported | content.js:1675-1678 | Any error a page call throws becomes `{success:false, "Error: <message>"}`, with the session untouched. |
| Agent.ScrollDownUpAlwaysFail | content.js:1647-1655 | `scrollDown`/`scrollUp` always report "Error: scrollDown is not defined" (resp. scrollUp) and change nothing. |
| Agent.CheckAuthDecodes | content.js:1615-1616 | `checkAuth` reads no field and always calls the page. |
| Agent.CheckAuthAlwaysSucceeds | content.js:1615-1622 | `checkAuth` reports success true, with data `{authenticated: !!v, username: v}`. |
| Agent.CheckAuthNamesObject | content.js:1619 | When the page resolves an object the message is "Authenticated as: [object Object]". |
| Agent.LogoutReportsObject | content.js:1607-1613 | `logout` reports the adapter's resolved object itself as `success`, with "Logout performed". |
| Agent.StartLoopSucceeds | content.js:1624-1640 | An idle start for n > 0 minutes runs for n·60000 ms and reports "... started for n minutes". |
| Agent.DefaultDurationDecodes | content.js:1625 | A falsy duration becomes 5 for `startAutoBrowse` and 10 for `browseHomeFeed`. |
| Agent.AutoBrowseDefaultsToFive | content.js:1624-1631 | A missing/falsy duration starts a 5-minute general loop, "Auto browse started for 5 minutes". |
| Agent.HomeFeedDefaultsToTen | content.js:1633-1640 | A missing/falsy duration starts a 10-minute home-feed loop, "Home feed browse started for 10 minutes". |
| Agent.StartWhileBrowsingRefused | content.js:1624-1640 | A start while either loop runs changes nothing and reports the kind's failure message. |
| Agent.OneReportPerCommand | content.js:1563-1565 | A batch yields exactly one report per command, in batch order, each under its command's id. |
| Agent.HandleMessage | content.js:1025-1043 | Answers exactly the startAutoBrowse, browseHomeFeed and stopAutoBrowse messages. A stop gives Session.Stop and "Auto browse stopped". A start while a loop runs fails with the kind's "already running" text and changes nothing; an idle start succeeds at the current time. |
| Agent.PopupStartsFor | content.js:1025-1039 | A browse message with a non-zero `duration` of m starts an idle session for m·60000 ms, for either kind. |
| Agent.EmptyIsUndefinedDuration | content.js:1584 | Data `{}` decodes as data whose fields are all `undefined`. |
| Agent.PopupDefaultsToFive | content.js:1025-1039 | A popup browse message without a duration starts a 5-minute session for either kind. |
| Agent.HomeFeedDefaultsDiffer | content.js:1034 | Without a duration, a home-feed start lasts 5 minutes from the popup but 10 from the relay. |
| Agent.AutoBrowseDefaultsAgree | content.js:1026 | Without a duration, the general loop gets the same session from either path. |
| Agent.ContentScript.constructor | content.js:1099-1102 | Browsing and polling both start down, with no timer and no interval. |
| Agent.ContentScript.StartBrowsing | content.js:1458-1468 | The new variables, the flag returned and the first action are exactly Session.Start's. Polling is untouched. |
| Agent.ContentScript.StopAutoBrowse | content.js:1516-1524 | The session becomes Session.Stop of the old one: flag down, timer cleared. |
| Agent.ContentScript.FireBrowseTimer | content.js:1470-1480 | The new variables and the action are Session.Begin's. |
| Agent.ContentScript.SettleAction | content.js:1483-1507 | The new variables and whether the extra scroll follows are Session.AfterAction's. Polling is untouched. |
| Agent.ContentScript.SettleExtraScroll | content.js:1497-1507 | The new variables are Session.AfterExtraScroll's. Polling is untouched. |
| Agent.ContentScript.StartApiPolling | content.js:1706-1726 | Always answers true. When already active nothing changes and nothing is polled (no second interval). Otherwise a 2000 ms interval is armed and one poll runs at once: its session and reports are Agent.RunBatch's over the commands received. |
| Agent.ContentScript.StopApiPolling | content.js:1727-1740 | Afterwards polling is inactive with no interval; when already inactive nothing changes. |
| Agent.ContentScript.ProcessApiCommand | content.js:1575-1682 | The new session and the one report are Process's, under the command's id. |
| Agent.ContentScript.PollApiCommands | content.js:1548-1572 | Nothing while inactive. Otherwise the received commands are processed in order, as RunBatch, one report each. The polling flags are untouched. |
| Agent.TransportErrorsSwallowed | content.js:1567-1571 | A failed fetch or an error status processes no command. |
| Popup.SearchClick | popup.js:96-106 | Refused with "Please enter a search term" exactly when the trimmed input is empty; otherwise it sends `{query: trimmed}`. |
| Popup.SearchQueryIsTrimmed | popup.js:97-103 | The sent query is non-empty with no surrounding whitespace; typing it again sends the same. |
| Popup.LoginClick | popup.js:170-184 | Refused exactly when the trimmed email or password is empty; otherwise it sends both trimmed. |
| Popup.SentLoginPassesScriptCheck | popup.js:179 | Every login the popup sends passes the content script's field check. |
| Popup.DurationInput | popup.js:196 | The minutes are never 0: the parsed number, or 5 when the parse gives NaN or 0. |
| Popup.DurationInputReadsNumber | popup.js:196 | A field holding the text of n ≠ 0 reads as n. |
| Popup.DurationInputZeroIsFive | popup.js:196 | A field holding "0" reads as 5. |
| Popup.JsRem | popup.js:208 | `%` agrees with the mathematical remainder for a ≥ 0 and takes the dividend's sign for a < 0. |
| Popup.JsRemOdd | popup.js:208 | The remainder of −a is minus that of a. |
| Popup.SecondsField | popup.js:208 | For r < 60 the padded seconds are two digits worth r. |
| Popup.FormatShape | popup.js:208 | For s ≥ 0 the text is the minutes `floor(s/60)`, a colon, and two digits worth `s mod 60`. |
| Popup.FormatInjective | popup.js:213 | Different non-negative remaining times are displayed differently. |
| Popup.FormatOf | popup.js:208 | s = 60q + r (r < 60) is displayed as q, ":", r padded to two places. |
| Popup.FormatWholeMinutes | popup.js:208 | Whole minutes display as `M:00`. |
| Popup.StartCountdown | popup.js:207 | Starting arms the countdown at minutes·60 with the controls locked. |
| Popup.ResetCountdown | popup.js:265-277 | The reset clears the interval, unlocks the controls and empties the status. |
| Popup.TickCountdown | popup.js:210-218 | A cleared countdown ignores ticks. A tick drops the time by one, and resets when it reaches 0. |
| Popup.CountdownDrops | popup.js:211-213 | Until it reaches zero the countdown drops by one per tick. |
| Popup.ClosedStaysClosed | popup.js:273-276 | Once cleared, ticks change nothing. |
| Popup.CountdownRuns | popup.js:207-213 | After k < n ticks an n-second countdown still runs with n − k left. |
| Popup.CountdownCloses | popup.js:210-218 | From the n-th tick on, an n-second countdown is closed, unlocked and blank. |
| Popup.PopupUi.constructor | popup.js:193 | No interval, nothing shown. |
| Popup.PopupUi.AutoBrowseClick | popup.js:195-219 | Sends `startAutoBrowse` with the read duration and arms the countdown at minutes·60 with its status line. |
| Popup.PopupUi.Arm | popup.js:200-208 | Locks the controls, shows the full time and arms the interval. |
| Popup.PopupUi.Tick | popup.js:210-218 | The fields follow TickCountdown, and the status line always shows what the countdown holds. |
| Popup.PopupUi.ShowRemaining | popup.js:213 | The remaining time and the status line are set together. |
| Popup.PopupUi.ResetUi | popup.js:265-277 | The fields follow ResetCountdown; the status is empty. |
| Popup.PopupUi.StopClick | popup.js:221-225 | Sends `stopAutoBrowse` and resets the countdown. |
| Popup.PopupUi.HomeFeedClick | popup.js:228-232 | Sends `browseHomeFeed` with the read duration and leaves the countdown alone. |
| Popup.PopupStartMatchesSession | popup.js:196-207 | The popup start makes the page run for as many minutes as the countdown counts in seconds. |
| TestClient.Dispatch | test-api.js:122-214 | The loop quits exactly on `quit` or `exit`, and does nothing exactly on an empty word. Only `search` and `startbrowse` send data. `search` shows the usage exactly when no argument follows. A bare `startbrowse` asks for 5 minutes. EverySendIsKnown and UnknownExactlyOffTheHelp state the rest. |
| TestClient.DispatchSearch | test-api.js:159-165 | `search` with arguments sends them joined by spaces as the query. |
| TestClient.DecodeLine | test-api.js:116-216 | A blank line does nothing; every command sent is a kind the content script handles. |
| TestClient.EverySendIsKnown | test-api.js:182-208 | Every name mapped onto a kind maps onto one the content script handles. |
| TestClient.UnknownExactlyOffTheHelp | test-api.js:210-213 | The unknown-command hint appears exactly for a non-empty word that is not listed in the help and is neither `help` nor `exit`; an empty word does nothing. |
| TestClient.FirstWordSelects | test-api.js:118-120 | A line is decided by its lowercased first word and the words after the first space. |
| TestClient.SingleWordSelects | test-api.js:118-120 | A one-word line is decided by the lowercased word alone. |
| TestClient.DecodeByWords | test-api.js:118-122 | The decision depends only on the lowercased first word and the remaining words. |
| TestClient.SearchWithQuery | test-api.js:159-165 | A search line with a space sends the non-empty trimmed text after the first space, and the page searches for it. |
| TestClient.SearchQueryIsRestOfLine | test-api.js:159-165 | With no argument it only shows the usage. Otherwise the query sent is exactly the trimmed line after its first space; it is non-empty, so the page searches for it. |
| TestClient.StartBrowseDefaultsToFive | test-api.js:178 | `startbrowse` without an argument asks for 5 minutes. |
| TestClient.StartBrowseReadsNumber | test-api.js:177-180 | `startbrowse n`, in any letter case, asks for n minutes. |
| TestClient.StartBrowseSendsParsed | test-api.js:178 | `startbrowse arg` sends `parseInt(arg)`, NaN included, with no fallback. |
| TestClient.UnreadableDurationRunsFive | test-api.js:178 | An unreadable argument is sent as NaN, and the content script's or-default turns it into 5 minutes. |
| TestClient.PromptedLoginChecked | test-api.js:167-175 | A prompted login reaches the page exactly when both answers are non-empty; otherwise it gets the field-check failure. |
| TestClient.DecodeArgs | test-api.js:240-281 | No arguments start interactive mode, and only then; `demo` first runs the demo, and only then; anything else is a one-shot of the first argument as typed. Its data is `{query}` of the later arguments joined by spaces for `search`, `{duration}` of `parseInt` of the second for `startAutoBrowse`, each when the second argument is non-empty, and `{}` in every other case. |
| TestClient.CommandLineSearchJoins | test-api.js:274-275 | `search a b …` sends the later arguments joined by spaces, and the page searches for them. |
| TestClient.CommandLineSearchWithoutQuery | test-api.js:274 | `search` without a query sends `{}`, which the content script refuses. |
| TestClient.CommandLineDuration | test-api.js:276-277 | `startAutoBrowse n` sends duration n. |
| TestClient.InteractiveIgnoresCase | test-api.js:119 | One-word lines that differ only in letter case act alike. |
| TestClient.InteractiveSessionKinds | test-api.js:182-192 | `logout`, `checkauth` and `stopbrowse` send `logout`, `checkAuth` and `stopAutoBrowse` with `{}`. |
| TestClient.InteractivePageKinds | test-api.js:194-208 | `scrolldown`, `scrollup`, `gohome` and `refresh` send `scrollDown`, `scrollUp`, `goHome` and `refresh` with `{}`. |
| TestClient.OnlyQuitEnds | test-api.js:123-127 | The loop ends exactly on `quit` or `exit`. |
| TestClient.CommandLineIsCaseSensitive | test-api.js:271-280 | On the command line `checkauth` goes out as typed and the content script reports it unknown. |
| TestClient.DemoEndsWithFailure | test-api.js:250-262 | The demo's commands are all known kinds; its last one, `scrollDown`, calls an undefined function. |

## Left out

- HTTP and Express plumbing are not modelled: routing, CORS, body parsing, the error middleware, `listen`, and the static command catalogue (api-server.js:106-174), which is constant data. The JSON round trip is not modelled either, so a NaN duration stays NaN here where JSON would carry `null`.
- Timestamps are the clock's integer reading, not the ISO date string. `process.uptime()` is a parameter.
- The DOM adapter's internals are not modelled: `performSearch`, `performLogin`, `checkAuthentication`, `performLogout`, `scrollToTop`, navigation and the link finders are selector heuristics over a page that cannot be seen. Each becomes a call that returns a value or throws, chosen by a parameter. The model claims no more than the switch: `checkAuth` always reports success, and `logout` reports whatever the adapter resolved.
- Timers and concurrency become explicit events (start, stop, timer fire, the first action settling, the extra scroll settling), and a `setInterval` is a stored period. Any timer or settling event may come between any two of these events, but not inside a relay poll (see Agent.ContentScript.PollApiCommands below). Two behaviours are left out:
  - A `setInterval` poll re-entering while the previous asynchronous poll is still running.
  - The identity of the loop an event belongs to: after a stop and a new start, an old iteration still in flight settles against the new session like any other.
- Agent.ContentScript.PollApiCommands: a drained batch is processed with no event in between, as Agent.RunBatch. The script awaits each `processApiCommand`, its login, logout and auth-check page calls and each report fetch (content.js:1564, 1597, 1608, 1616, 1681). So a browse-timer fire, a settling iteration or a popup start or stop can fall between two commands of one batch. The model does not reach those interleavings. For example, in a batch `startAutoBrowse, logout, stopAutoBrowse`, the first action may settle during the logout and the extra scroll may then re-arm a timer after the stop.
- Agent.ContentScript.StartApiPolling: the immediate poll is taken to finish before `startApiPolling` returns. In the script its fetch settles later, and other events may come first.
- Floating point: durations and scroll amounts are integers. The viewport fractions (0.8, 0.6, −0.3) are not computed. Only the 0.7 jump fraction and the draw thresholds are kept, as `real`. `Math.random()` draws are parameters.
- `humanLikeScroll` is never called by the script (content.js:1226). It is modelled because it is part of the browsing pacing.
- `browsePost` and `browseHomeFeedPost` are not modelled. Their post choice, linger time and `history.back` are page interaction, and their effect on the session is the Outcome of an iteration.
- `Text.ToLower` maps only ASCII letters; `toLowerCase` on other scripts is not modelled.
- Text.StringToNumber covers integers only (decimal, or `0x` hexadecimal); fractions and exponents in `Number(string)` are not modelled.
- Agent.HandleMessage covers only the popup's `startAutoBrowse`, `browseHomeFeed` and `stopAutoBrowse` messages. The other `executeOnReddit` commands and the second message listener (content.js:1755-1775) are Chrome messaging around the same page calls.
- Popup.PopupUi: `sendToReddit`'s tab query, its navigate-first path and `showStatus` are not modelled; messages are returned as values. `updateAuthStatus` and `updateApiStatus` are display-only.
- The test client's I/O is not modelled: the `rl.question` recursion of `askCommand`, the HTTP calls of `sendCommand`, `checkStatus`, `getHistory` and `getAvailableCommands`, and the console output. The answers to the login prompts are parameters. The demo's pauses are not modelled.
- logger.js, background.js and test-autopoll.js are not part of this model.
- The commented-out code (content.js:247-497), the keyboard shortcuts and the Tab monitor (content.js:1527-1538, 1780-1806) are not modelled.
