# Lab monitor operator bot: alert cooldown engine and command decisions

This project models the core of the lab monitor's chat bot (`User_awareness/telegram_bot.py`)
in Dafny and proves properties of the model.

The bot polls the lab registry for a status snapshot: labs, each with four optional
thresholds (`t_low`, `t_high`, `h_low`, `h_high`) and a list of sensors with optional
temperature `t` and humidity `h` readings. For each sensor it makes four guarded comparisons.
When a comparison trips and the cooldown for that (lab, kind) pair has elapsed, the bot sends
an alert to every known chat. It then records the current time in the cooldown table
`_last_alert`. Chats become known by sending `/start` or `/help`. The message handler turns a
tokenised command into a registry request or a usage reply.

Files:

- `wrappers.dfy` (module `Wrappers`): the `Option` type used for absent JSON fields.
- `alerts.dfy` (module `Alerts`): the snapshot datatypes and `should_alert` / `track_alert`
  on values. It also holds one evaluation pass as a function (`Guard`, `SensorStep`,
  `SensorsPass`, `LabsPass`) over a `Cycle`: the cooldown table, the outbox and a log of
  firings. The invariant and the lemmas about the pass are here too.
- `commands.dfy` (module `Commands`): the branching of `handle` as a pure function
  from the token list and chat id to a `Decision`.
- `bot.dfy` (module `TelegramBot`): class `Bot`, which holds the process-wide state
  (`knownChats`, `lastAlert`, `outbox`, and a ghost log `fired`). Its methods have loops:
  `PollOnce` runs one pass over labs, sensors and chats. Each method is proved equal to the
  functions in `Alerts` and `Commands`. `PollOnce` and `Handle` also keep `Valid()`. The
  building blocks `TrackAlert`, `Notify`, `Raise` and `CheckSensor` make no promise about
  `Valid()`: a lone `TrackAlert` does not log a firing, so it breaks the invariant. The
  invariant holds again once a whole pass has run (`Alerts.LabsPassPreservesInv`).

The cooldown invariant (`Alerts.Inv`) says two things. First, the table holds the time of
each pair's last logged firing. Second, every firing came at least `cooldown` after the
previous firing of its pair, where a pair that never fired counts as fired at time 0. Every
pass keeps this invariant, and `Bot.Valid()` holds it. From it follow
`AllPairsSpaced` / `InvSpacing`: with a non-negative cooldown, no two recorded firings of a
pair are closer than the cooldown, however many passes lie between them.

Where the documented behaviour and the code differ, the model follows the code:

- A missing bound is not "never triggers". The code compares against 999 (high) or -999
  (low) (`telegram_bot.py:95`, `:100`, `:106`, `:111`). So a lab with no thresholds and a
  reading of 1000 does alert (`ScenarioNoThresholds`).
- Two sensors of one lab that violate the same bound in the same pass do not both fire when
  the cooldown is positive. `track_alert` runs right after the first firing
  (`telegram_bot.py:99`), so the second check is suppressed (`SecondSensorSuppressed`,
  `PassFiresEachPairOnce`).

## Model

| member | source | states |
|---|---|---|
| `Alerts.TriggerRules` | User_awareness/telegram_bot.py:94-111 | Each guard trips exactly when its field is present and strictly beyond its bound. `t > t_high` and `h > h_high` use 999 when the bound is missing; `t < t_low` and `h < h_low` use -999. |
| `Alerts.NoReadingNoAlert` | User_awareness/telegram_bot.py:90-105 | A sensor with no reading, or with no `t` (no `h`), trips no temperature (humidity) guard. |
| `Alerts.MissingBoundStillTriggers` | User_awareness/telegram_bot.py:95-111 | With every bound missing, a value above 999 (or below -999) still trips its guard. |
| `Alerts.ShouldAlert` | User_awareness/telegram_bot.py:74-76 | For a recorded pair: true exactly when `now - last >= cooldown`. For a pair never recorded: true exactly when `now >= cooldown` (last defaults to 0). |
| `Alerts.SuppressedWithinCooldown` | User_awareness/telegram_bot.py:74-76 | Once a pair is recorded at T, a check at any time before T + cooldown is suppressed. |
| `Alerts.Track` | User_awareness/telegram_bot.py:70-71 | The pair is set to `now`, the key set grows by that pair only, and every other entry keeps its value. |
| `Alerts.Fanout` | User_awareness/telegram_bot.py:97-98 | One firing sends exactly one message per known chat, in chat order, each carrying the alert. |
| `Alerts.BroadcastLength` | User_awareness/telegram_bot.py:97-99 | k firings send exactly k times the number of known chats messages. |
| `Alerts.BroadcastAt` | User_awareness/telegram_bot.py:97-98 | Within a run of firings, message k * chats + i is firing k's alert sent to chat i. |
| `Alerts.BroadcastAppend` | User_awareness/telegram_bot.py:97-98 | The messages of two runs of firings are the messages of the first run followed by those of the second. |
| `Alerts.LabsPassAdvances` | User_awareness/telegram_bot.py:86-115 | A pass only appends to the log. Every new firing is at `now` and its value lies beyond its bound. The outbox grows by each new firing's fan-out to every chat. Fired pairs are recorded at `now`, and no other table entry changes. Where the firings come from is stated by `LabsPassProvenance`, and which pairs must fire by `TrippedFires`. |
| `Alerts.GuardFires` | User_awareness/telegram_bot.py:95-99 | One guarded check fires exactly when its comparison trips and should_alert allows the pair. A firing appends exactly one entry: the sensor's alert (lab, kind, sensor id, value, configured bound) at `now`. |
| `Alerts.GuardAdvances` | User_awareness/telegram_bot.py:95-99 | One guarded check, fired or not, only appends to the log, sends the fan-out of what it fired, and records only the pair it fired. |
| `Alerts.SensorStepAdvances` | User_awareness/telegram_bot.py:94-115 | The four checks of one sensor, in order, append to the log, send one message per chat per firing, and touch only the pairs that fired. |
| `Alerts.SensorStepProvenance` | User_awareness/telegram_bot.py:90-115 | Every firing the four checks of one sensor add is an alert that sensor reports, with its comparison tripping. |
| `Alerts.SensorsPassAdvances` | User_awareness/telegram_bot.py:89-115 | Evaluating the sensors of one lab in order appends to the log, sends the fan-outs, and touches only the pairs that fired. |
| `Alerts.SensorsPassProvenance` | User_awareness/telegram_bot.py:89-115 | Every firing added for one lab is reported by one of that lab's sensors, with the lab's bound. |
| `Alerts.LabsPassProvenance` | User_awareness/telegram_bot.py:86-115 | Every firing a pass adds is the alert of some lab and some sensor of the snapshot: the lab id, the sensor id, the reading's value and the lab's configured bound, with that comparison tripping. |
| `Alerts.TrippedFires` | User_awareness/telegram_bot.py:86-115 | For every cooldown: a pair that a sensor of the snapshot trips and that should_alert allows at the start of the pass fires during the pass, and its table entry becomes `now`. |
| `Alerts.LabsPassSettles` | User_awareness/telegram_bot.py:86-115 | With a positive cooldown, after a pass every pair that a sensor of the snapshot trips is suppressed at the same `now`. |
| `Alerts.FirePreservesInv` | User_awareness/telegram_bot.py:95-99 | A firing allowed by should_alert, with its record, keeps the cooldown invariant. |
| `Alerts.LabsPassPreservesInv` | User_awareness/telegram_bot.py:86-115 | A whole pass keeps the cooldown invariant: the table agrees with the log, and each firing is at least the cooldown after the previous firing of its pair. |
| `Alerts.AllPairsSpaced` | User_awareness/telegram_bot.py:74-99 | Under the invariant, with cooldown >= 0, any two logged firings of the same pair are at least the cooldown apart. |
| `Alerts.InvSpacing` | User_awareness/telegram_bot.py:74-99 | The same for the whole log at once: no two firings of a pair are closer than the cooldown. |
| `Alerts.PassFiresEachPairOnce` | User_awareness/telegram_bot.py:95-115 | With a positive cooldown and a fixed `now`, one pass fires each (lab, kind) at most once. |
| `Alerts.RerunIsQuiet` | User_awareness/telegram_bot.py:86-115 | With a positive cooldown, re-running the pass on the same snapshot at the same time changes nothing: no firing, no message, the same table. |
| `Alerts.ScenarioCooldown` | User_awareness/telegram_bot.py:74-99 | Lab L1 (t_high 30, reading 35, cooldown 300): fires at T0 and records T0, is suppressed at T0+10, and fires again at T0+301. |
| `Alerts.ScenarioNoThresholds` | User_awareness/telegram_bot.py:95-111 | Lab L2 with no thresholds and t = h = 1000 fires t_high and h_high, with no bound recorded. |
| `Alerts.SecondSensorSuppressed` | User_awareness/telegram_bot.py:89-99 | Two sensors over t_high in one lab, in one pass: only the first fires. |
| `TelegramBot.Bot.constructor` | User_awareness/telegram_bot.py:22-23 | At start the known chats, the cooldown table and the outbox are empty, and the invariant holds. |
| `TelegramBot.Bot.TrackAlert` | User_awareness/telegram_bot.py:70-71 | The table becomes `Track(old table, pair, now)`, and every other entry looks up as before. |
| `TelegramBot.Bot.Notify` | User_awareness/telegram_bot.py:97-98 | The loop over known chats appends exactly `Fanout(knownChats, alert)` to the outbox. |
| `TelegramBot.Bot.Raise` | User_awareness/telegram_bot.py:96-99 | Notify, then track_alert: the new state is `Fire(old state, alert)`. |
| `TelegramBot.Bot.CheckSensor` | User_awareness/telegram_bot.py:90-115 | The four guarded checks of one sensor, in source order, give exactly `SensorStep` of the old state. |
| `TelegramBot.Bot.PollOnce` | User_awareness/telegram_bot.py:81-115 | With no known chat: no fetch, and table, outbox and log unchanged. Otherwise the nested loops give exactly `LabsPass` of the old state. Either way `Valid()` (the cooldown invariant) is kept. |
| `TelegramBot.Bot.Handle` | User_awareness/telegram_bot.py:119-130 | The decision is `Translate(tokens, chat)`. `/start` and `/help` add the chat to the known chats (as a set: old + {chat}); no other message changes them. |
| `Commands.Lower` | User_awareness/telegram_bot.py:127 | Lower-casing keeps the length and maps each character through the ASCII lower-case map. |
| `Commands.Translate` | User_awareness/telegram_bot.py:119-254 | No tokens: ignored. Unknown exactly when the lower-cased verb is none of the fourteen verbs. Help exactly for /start and /help; Status and ListLabs exactly for their verbs. A command request exactly for /turn_on or /turn_off with 3 tokens, with lab, actuator and action ON iff /turn_on. The bulk switch exactly with 2 tokens, on lab `parts[1]`, ON iff /turn_on_all. AddLab exactly for /add_lab with 3 or more tokens, notes = the remaining tokens joined by single spaces. RemoveLab, RemoveSensor and RemoveActuator exactly with 2 tokens, and AddSensor and AddActuator exactly with 4, each carrying its tokens in order. A usage reply only for a known verb, starting "Usage: ". |
| `Commands.Dispatch` | User_awareness/telegram_bot.py:129-254 | On the lower-cased verb and the tokens after it: Unknown exactly for a verb outside the fourteen; Help, Status and ListLabs exactly for their verbs; the single and bulk switch requests exactly with 2 and 1 arguments, with their lab, actuator and ON/OFF action; every registry-editing verb decided by `Registry`; a usage reply only for a known verb. |
| `Commands.Registry` | User_awareness/telegram_bot.py:192-252 | /add_lab exactly with at least 2 arguments (lab, name, notes joined by single spaces). /remove_lab, /remove_sensor and /remove_actuator exactly with 1, /add_sensor and /add_actuator exactly with 3, each carrying its arguments in order. Otherwise a usage reply starting "Usage: ". |
| `Commands.SwitchUsage` | User_awareness/telegram_bot.py:162-165 | /turn_on and /turn_off with a token count other than 3 give the usage line naming the lower-cased command. |
| `Commands.UsageReplies` | User_awareness/telegram_bot.py:172-245 | A wrong token count gives each command's own usage reply: `Usage: <cmd> <lab>` for the bulk switches, and the fixed text of /add_lab, /remove_lab, /add_sensor, /remove_sensor, /add_actuator and /remove_actuator. |
| `Commands.RegistryUsage` | User_awareness/telegram_bot.py:192-245 | The same usage replies for the six registry-editing verbs, stated on `Registry`. |
| `Commands.AddLabNotes` | User_awareness/telegram_bot.py:192-197 | /add_lab with 3 or more tokens, whatever the tokens hold, gives AddLab whose notes are the remaining tokens joined by single spaces. When no note token holds a space, splitting the notes at spaces gives those tokens back. |
| `Commands.SplitJoin` | User_awareness/telegram_bot.py:197 | Joining one or more space-free tokens with single spaces and splitting at spaces gives the tokens back. |
| `Commands.CaseInsensitive` | User_awareness/telegram_bot.py:127 | Only the lower-cased first token decides: lower-casing it first yields the same decision. |

## Left out

- `User_awareness/operator_bridge.py` is not part of this model. It is a thin wrapper over HTTP requests with no logic of its own.
- Registry HTTP calls (`_get`, `_post`, `requests.delete`) are network I/O. The status snapshot is an input of `PollOnce`. A failed fetch gives `{"error": ...}` and so no labs, which is the same as passing an empty snapshot.
- The chat library (`bot.sendMessage`, `telepot.glance`, `MessageLoop`) is foreign code. Sends are entries appended to `outbox`. The check that a message is text is not modelled, because the handler's input is already the token list.
- Failed sends: in the source, `bot.sendMessage` in `poll_alerts` (`telegram_bot.py:98`, `:103`, `:109`, `:114`) is not guarded by `try`. A send that raises ends the alert thread for good. The `track_alert` of that firing is skipped, and the remaining chats get nothing. The model treats every send as delivered, so `Notify` always reaches every known chat.
- `shlex.split` and `.strip()` are a foreign tokenizer. `Handle` and `Translate` take the tokens as input.
- The clock, `time.sleep`, the endless `while True` loop, the daemon thread and `__main__` are left out. The clock is the parameter `now`, and one pass is modelled.
- PollOnce: should_alert and track_alert read the clock separately in the source, and the recorded time is read after the messages are sent. The model uses one clock reading `now` for the whole pass.
- Concurrency: the handler can add to KNOWN_CHATS while a pass iterates over it (`telegram_bot.py:97`, `:102`, `:108`, `:113`). In the source that raises `RuntimeError` ("Set changed size during iteration") and ends the alert thread, as a failed send does. The model treats the known chats as fixed during a pass.
- KNOWN_CHATS is a Python set, whose iteration order is unspecified. The model keeps it as a sequence without repeats, in registration order, so the outbox order is fixed. `Handle` also states the set view.
- `fmt_status` and the alert message text are presentation. An alert is the structured record (lab, kind, sensor, value, configured bound) instead.
- The replies built from registry answers ("OK", "Error: ...", "No labs.", the full help text) are not modelled. `/status` and `/list_labs` are decisions only.
- `/turn_on_all` and `/turn_off_all`: only the token count and the ON/OFF action are modelled. The per-actuator requests and the error list depend on live HTTP answers.
- JSON values: readings and bounds are integers, not floats. A bound present but null (which would make Python's comparison raise) is not distinguished from a missing bound. A lab without `lab_id` or a sensor without `sensor_id` (Python `None`, `telegram_bot.py:87`, `:91`) is not modelled, because ids are strings.
- Commands.Lower: models `str.lower()` on ASCII letters only. Non-ASCII case mappings are not modelled.
