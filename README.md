# cctv-alarm monitor core in Dafny

cctv-alarm is a Telegram bot. It pings a list of CCTV cameras on a fixed interval and
tells its subscribers when a camera goes DOWN or comes back UP. It also sends a daily
heartbeat summary and lets admins approve or deny the chats that ask for access. This
project models the bot's monitoring core and proves properties about it:

- `Liveness` is the per-camera state machine of one probe (`Observe`). Each camera
  has a record with a status (UNKNOWN, UP, DOWN), the current failure and success
  streaks, and the times of the last alert, the last UP and the last DOWN. The module
  also holds lemmas about whole streams of probes.
- `AlertLog` is a ghost history of every alert sent. It holds the cooldown discipline:
  alerts for a camera are spaced by at least that camera's cooldown, and the camera's
  record remembers its latest alert.
- `CameraConfig` turns the configuration document into a configuration, with its
  defaults (poll 10 s, fail threshold 3, recover threshold 2, cooldown 600 s). It also
  holds the camera lookups used by `/ping` and the ping buttons. The loader as the
  Python bot writes it is kept beside the corrected one; see Findings.
- `Notify` holds the message kinds and `SendWithRetry`: 3 attempts with back-off
  sleeps of 2, 4, … seconds. `Survivors` and `Prunings` describe a run of broadcasts:
  the subscribers left after it, and how many of its broadcasts wrote the subscriber
  file. `BroadcastRun` ties the two to the counter and the file's content, and
  `RunDeliveries` says who received each message of the run and who was dropped.
- `Heartbeat` sorts the cameras into UP, DOWN and UNKNOWN for the daily summary.
- `Tick` is one monitoring tick as a function on the state map.
- `Bot` holds the class `BotApp`, with the bot's mutable state:
  - the configuration;
  - the state map;
  - the subscriber and pending chat sets;
  - the state file and subscriber file, each as a snapshot plus a write counter;
  - the broadcasts sent;
  - a ghost log of alerts.

  Its methods are:
  - the tick;
  - the broadcast that prunes unreachable chats;
  - the heartbeat;
  - `/start`, `/stop` and `/testalert`;
  - the approve/deny buttons;
  - `/reload`;
  - the two camera lookups.

  `IsAuthorized` (subscriber or admin) is the access guard. The contracts of the
  commands are stated in terms of it.

Two kinds of outside input become parameters:
- Probe results arrive as a `seq<bool>` and the clock as an `int` timestamp.
- Message delivery is an oracle `deliver(b, chat, k)`. It says whether attempt `k` of
  broadcast number `b` to `chat` goes through.

The order in which a set of chats is walked is left open (`:|`). The result of a
broadcast does not depend on it.

The configuration thresholds are taken as they are given. The code does not check that
they are positive, and neither does the model. A threshold of 1 or less makes the first
probe of the matching kind cause a transition.

## Model

| member | source | states |
|---|---|---|
| Liveness.Observe | bot.py:433-464 | A success sets `succ+1` and resets `fails`, and a failure does the opposite, so one counter is always 0. A transition happens iff the probe is a success from DOWN/UNKNOWN with `succ+1 >= recTh`, or a failure from a status other than DOWN with `fails+1 >= failTh`. The transition sets UP/DOWN and the matching up/down time. Without a transition, the status and times stay. UNKNOWN is never entered. An alert is sent iff there is a transition and `now - lastAlert >= cooldown`, and only an alert moves `lastAlert`. |
| Liveness.CountersAreStreaks | bot.py:435-453 | After a stream of probes, `fails` is the length of the trailing run of failures, plus the starting count if every probe failed. The same holds for `succ` and successes. |
| Liveness.TransitionNeedsStreak | bot.py:437-452 | Starting from zero counters, a transition needs at least `failTh` consecutive failures, or `recTh` consecutive successes, ending at that probe. |
| Liveness.AlternatingIsQuiet | bot.py:435-452 | With both thresholds at least 2, an alternating stream of results that begins from an empty streak causes no transition and no alert. It leaves the status and `lastAlert` unchanged. |
| Liveness.AlertsRespectCooldown | bot.py:441-462 | In a stream of probes for one camera, consecutive alerts are at least `cooldown` apart. `lastAlert` ends as the time of the last alert. |
| AlertLog.SpacedAppend | bot.py:441-447 | Appending an alert that the cooldown permits keeps the whole alert history spaced. |
| AlertLog.StepKeepsCooldown | bot.py:441-462 | One camera's step either logs an alert that passed the cooldown check and stores its time, or logs nothing and keeps the time. Either way, the history stays spaced and tracked by the state map. |
| AlertLog.SpacedPair | bot.py:441-462 | The single-pair form of the above, for alerts `i < j`: it walks back from `j` to the previous alert for the same camera. |
| AlertLog.SpacedPairwise | bot.py:426-462 | In a spaced history where all alerts for a camera carry one cooldown of at least 0, any two alerts for that camera are at least that cooldown apart, not only consecutive ones. No assumption about the clock is needed. |
| CameraConfig.NormalizeCameras | bot.py:147-154 | The result is a success iff every camera has a name and a host. On success, each camera keeps its name and host and gets its own cooldown, or the default one. On failure, it reports the first incomplete camera, checking the name before the host. |
| CameraConfig.ParseConfig | bot.py:139-154 | Each scalar setting gets its default when it is absent. The cameras are normalised as above. The result is all or nothing. |
| CameraConfig.CompletePrefix | bot.py:148-154 | It gives the normalised cameras up to the first incomplete one, and stops exactly there. |
| CameraConfig.LoadAsWritten | bot.py:139-154 | The loader as written. Poll interval, thresholds and default cooldown always take the new document's values, whether or not loading fails. It fails iff the whole parse fails, with the same error. On success it gives exactly the parsed configuration. On failure it keeps fewer cameras than the document lists, each complete and normalised. |
| CameraConfig.FailedLoadReplacesConfig | bot.py:139-154 | Take a document whose second camera has no name. Loading it as written raises the error, yet it leaves the new poll interval and only the first new camera in force, and the old camera is dropped. |
| CameraConfig.Lower | bot.py:328 | Lower-casing leaves no upper-case ASCII letter and keeps every other character in place, so the length is kept. |
| CameraConfig.LowerIdempotent | bot.py:328 | Lower-casing an already lower-cased name changes nothing. |
| CameraConfig.FindCamera | bot.py:328 | It returns the first camera whose name matches, exactly or ignoring case. It returns None iff no camera matches. |
| CameraConfig.ExactMatchFoundIgnoringCase | bot.py:396 | Any name the exact lookup (a ping button) finds is also found by the case-ignoring lookup (`/ping <name>`). |
| Notify.SendWithRetry | bot.py:497-508 | It succeeds iff some attempt below `tries` goes through. Every retry is preceded by a failed attempt and a sleep of 2·2^i seconds. After a success, no further attempt is made. A failure comes after exactly `tries-1` sleeps. |
| Notify.SurvivorsReached | bot.py:511-520 | After a run of broadcasts, a chat is still subscribed iff it was subscribed before and every one of those broadcasts reached it within its 3 attempts. |
| Notify.PruningsIffDropped | bot.py:511-522 | A run of broadcasts never adds a subscriber. It writes the subscriber file at least once iff it dropped some chat. |
| Notify.SurvivorsSplit | bot.py:511-522 | The subscribers left, and the file writes, after `m + k` broadcasts are those after `m` followed by those of the next `k`. |
| Notify.RunDeliveriesExtend | bot.py:511-522 | A run's delivery list grows by one broadcast whose recipients are the survivors so far, minus the chats that broadcast could not reach, which it also drops. |
| Notify.QuietRun | bot.py:511-522 | A run of zero broadcasts changes nothing: no counter, subscriber or file write. |
| Notify.BroadcastRunCompose | bot.py:511-522 | Two runs of broadcasts one after the other are one run. This covers the counter, the subscribers, the file writes and the file's content. |
| Heartbeat.Summarize | bot.py:474-483 | The loop builds the UP, DOWN and UNKNOWN lists, each equal to the camera names with that status in configuration order. A missing record counts as UNKNOWN. |
| Heartbeat.SummaryCoversAll | bot.py:474-483 | The three lists together have as many names as there are cameras. |
| Heartbeat.ListedIffStatus | bot.py:476-483 | A name appears under a status iff a camera of that name is configured and has that status. |
| Heartbeat.AllUpWhenNothingElse | bot.py:488-493 | "All cameras UP" is reported, meaning both other lists are empty, iff every camera's status is UP. |
| Tick.RunTick | bot.py:426-464 | The tick as a function over the camera/result pairs, in order. It sends no more alerts than there are camera entries, and none unless some status changed. |
| Tick.TickKeys | bot.py:426-433 | After a tick, every probed camera has a record. Records of other names are unchanged. |
| Tick.TickCountersExclusive | bot.py:426-453 | After a tick, no probed camera has both counters nonzero. |
| Tick.TickNeverUnknown | bot.py:426-464 | A tick never puts a camera back to UNKNOWN. |
| Tick.UnchangedTickIsQuiet | bot.py:426-467 | A tick that changes no status sends no alert. It leaves every existing status and up/down time as it was. Records it creates are UNKNOWN. |
| Tick.TickAlertsStamped | bot.py:424-462 | Every alert of a tick carries the tick's time, and the host and cooldown of a configured camera of that name. |
| Tick.TickKeepsCooldown | bot.py:426-464 | A tick keeps the alert history spaced and tracked by the state map. |
| Tick.TickMovesOneCamera | bot.py:426-464 | When a camera is the only one with its name, a tick moves its record exactly as one `Observe` step on its probe result does, starting from its record or a fresh one. |
| Tick.TickExtendsFeed | bot.py:426-464 | For such a camera, successive ticks feed its results to `Observe` as one stream. If its record is the outcome of `Feed` on the probes so far, the tick leaves the outcome of `Feed` on those probes plus this one. The stream lemmas of `Liveness` therefore apply to the records the tick keeps. |
| Bot.BotApp.constructor | bot.py:80-93 | Start-up uses the parsed configuration and the loaded files. Every configured camera gets a fresh UNKNOWN record unless it already has one. Records of unconfigured names are kept. |
| Bot.BotApp.AddMissingEntries | bot.py:86-93 | It adds a fresh record for each configured camera that lacks one. Existing records are kept unchanged. |
| Bot.BotApp.MonitorTick | bot.py:408-467 | The new state is the functional tick over the camera/result pairs (`zip`). With no cameras the pairs are empty and nothing changes. The tick's alerts are logged. Each is broadcast in order as a camera alert with that camera's name, host, new status and time. Every such broadcast goes to the subscribers the earlier ones left and drops the chats it could not reach (`RunDeliveries`). The subscriber side has gone through exactly one broadcast per alert (`NotifiedSince`). A tick without an alert leaves the subscribers, the subscriber file and the broadcast counter as they were. The state file is written exactly when some status changed. The cooldown invariant is kept. |
| Bot.BotApp.ProbeAll | bot.py:426-464 | The loop over the pairs computes exactly the functional tick: state, changed flag, alerts. Each alert is broadcast to the survivors of the earlier ones, and the unreachable chats are dropped. The subscriber side has gone through one broadcast per alert, and through none when there was no alert. The cooldown invariant is kept. |
| Bot.BotApp.ProbeNext | bot.py:426-464 | One turn of that loop keeps the loop's invariant: the first `i + 1` pairs have been applied as the functional tick applies them. |
| Bot.BotApp.ApplyProbe | bot.py:427-464 | One loop body: the record moves as `Observe` says. Exactly one alert is broadcast and logged, iff `Observe` announces the transition. The alert names the camera, its host, the new status and the time. It is delivered to the subscribers before the call minus the chats it could not reach, and those chats are dropped. The subscriber side goes through exactly that many broadcasts more, so with no alert nothing on it changes. |
| Bot.BotApp.Announce | bot.py:441-462 | Broadcasting one camera alert: the alert is logged, and the message is delivered to the current subscribers minus the chats it could not reach. The run of broadcasts so far grows by one. |
| Bot.BotApp.SaveStateIf | bot.py:466-467 | The state file receives the current records exactly when some status changed. Otherwise the file and its write counter stay. |
| Bot.BotApp.Broadcast | bot.py:511-522 | The chats that all 3 attempts failed to reach are removed from the subscribers, and the rest receive the message. The subscriber file is written iff some chat was dropped. This is one step of a run of broadcasts. |
| Bot.BotApp.SendAll | bot.py:512-517 | A chat is listed as dead iff it is a recipient and every attempt to it failed. |
| Bot.BotApp.SaveSubscribers | bot.py:156-157 | It writes both chat sets to the subscriber file. |
| Bot.BotApp.IsAuthorized | bot.py:159-160 | Subscribers and admins may use the guarded commands. An admin always may. A chat waiting for approval may not, while the pending and subscriber sets are disjoint. |
| Bot.BotApp.DailyHeartbeat | bot.py:470-494 | With no subscribers, nothing is sent and nothing changes. Otherwise one summary is appended to the outbox, with the camera count and the DOWN and UNKNOWN lists of the current state. It is delivered to the subscribers minus the chats it could not reach, and those chats are dropped. Earlier deliveries are kept. The subscribers and the file change as that one broadcast states. |
| Bot.BotApp.TestAlertCommand | bot.py:240-243 | A test message is broadcast iff the sender is an admin. It is delivered to the subscribers minus the chats it could not reach, and earlier deliveries are kept. Otherwise the outbox, the subscribers, the subscriber file and the broadcast counter stay as they were. |
| Bot.BotApp.StartCommand | bot.py:189-201 | The reply is decided in this order: admin, already subscribed, already pending, otherwise a new request. Only a new request adds the chat to pending and writes the file. Every other reply leaves the file's content and write counter as they were. A pending chat is not authorized. Pending and subscribers stay disjoint. |
| Bot.BotApp.StopCommand | bot.py:218-228 | It unsubscribes the chat, or else withdraws its pending request, or else reports that the chat is not registered. The file is written iff something changed. When nothing changed, the file's content stays too. Afterwards, a non-admin chat is not authorized. |
| Bot.BotApp.ApprovalButton | bot.py:348-384 | Only admins may act, and data without a chat id is refused. Approving moves a pending chat to the subscribers, and denying drops it from pending. Without a pending request, nothing changes. The file is written iff a request was decided. Otherwise its content stays too. Disjointness is kept. |
| Bot.BotApp.ReloadCommand | bot.py:285-318 | The command is for admins only. A document with an incomplete camera is refused and changes nothing. Otherwise the new configuration replaces the old one and new cameras get fresh records. The state file is written and the job is rescheduled with the new interval. The cooldown invariant is kept. |
| Bot.BotApp.PingCommand | bot.py:320-330 | Unauthorized chats are refused. "Not found" is returned iff no configured name equals the argument ignoring case. Otherwise the target is the name and host of the first configured camera whose name equals the argument ignoring case. |
| Bot.BotApp.PingButton | bot.py:387-398 | Unauthorized chats are refused. "Not found" is returned iff no configured name equals the button's name exactly. Otherwise the target is the name and host of the first camera with exactly that name. |

## Left out

- Every handler is modelled as one atomic step. In the Python bot, handlers interleave at every `await`:
  - A tick's alert broadcast can sleep 2 + 4 s for each unreachable chat (bot.py:506).
  - During that sleep, `/reload` can change the thresholds, and the rest of the same tick reads the new values (bot.py:438, 453). `ProbeAll` reads them once per tick.
  - `/stop` or an approval can land in the middle of a broadcast, whose recipient list was copied at bot.py:513.
- AlertLog.SpacedPairwise: needs one cooldown for all alerts of a camera. A `/reload` that changes a camera's cooldown breaks this premise for the class's alert log, and then only consecutive alerts are known to be spaced by the cooldown in force.
- The Telegram layer is not part of this model: message texts, HTML escaping, inline keyboards, editing messages, and the notices sent to admins on `/start` and to the chat after an approval.
- The ping command-line call (`ping_host`), the semaphore, and the concurrent `gather` of probes are not modelled. A tick receives the results as a list in camera order.
- Job scheduling is not modelled (`run_repeating`, `run_daily`, misfire handling). Rescheduling is a field holding the current interval.
- The clock and `asyncio.sleep` are not modelled. Times are integer parameters, and sleeps are listed as back-off values rather than waited.
- Reading and writing JSON, YAML and `.env` files is not modelled. Loaded state entries are assumed to have all six fields.
- `int(...)` conversions of configuration values are not modelled. Numbers arrive already as integers.
- Start-up failures (no admin ids, no token) and the constructor's parse of the document are preconditions of the constructor, not error paths.
- `/status`, `/pending` and `/help` only display state and are not modelled.
- The `/ping` argument is joined from the command's words with single spaces and stripped of surrounding whitespace (bot.py:327). The model takes the resulting name as its parameter.
- The log lines printed for a transition suppressed by the cooldown (bot.py:449, 464) and for a failed send (bot.py:517) are not modelled. They change no state.
- Case-insensitive matching lower-cases ASCII letters only. Python's `str.lower` also folds other Unicode letters.
- A subscriber list that is saved and loaded again is not modelled as a round trip. The snapshot fields hold exactly what was written.

## Findings

| source | as written | input that shows it | evidently intended | confidence | as-written member | corrected member |
|---|---|---|---|---|---|---|
| bot.py:139-154 | `_load_config` stores the poll interval, the thresholds and an empty camera list before normalising the cameras. A camera without `name` or `host` raises half-way, and `/reload` catches the error and reports failure. | Reload a document with `poll_interval_seconds: 30`, a complete camera "Lobby" and a second camera without a name. | A failed reload leaves the configuration in force unchanged. Instead, the poll interval, both thresholds and the default cooldown take the document's values. The camera list is cut to the complete cameras before the bad one, so only "Lobby" is monitored and every camera watched before is silently dropped. The monitoring job is not rescheduled (bot.py:317 skips bot.py:304-311), so it keeps its old period. The changed poll value shows as the "old" interval in the reply to the next successful reload (bot.py:290, 314). | not executed | CameraConfig.FailedLoadReplacesConfig | Bot.BotApp.ReloadCommand |
