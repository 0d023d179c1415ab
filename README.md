# Lunaris bot core in Dafny

Lunaris is a Telegram bot that tracks a menstrual cycle for a small
whitelist of users. It tells each user which cycle day and phase they are
in and predicts the next period, PMS and ovulation dates. It learns the
cycle length from the period starts users log, stores mood notes and an AI
chat history per user, and sends a daily reminder on the days that matter.

This project models the bot's core and proves properties of the model:

- `cycle.dfy` (module `Cycle`) is the cycle engine:
  - the cycle day;
  - the five-phase classifier with fixed day boundaries;
  - the phase label, description and detail tables;
  - date prediction and the start of the current cycle.

  Dates are whole-day ordinals (`int`), and "today" is a parameter.
  `PredictDates` keeps the source's `while` loop and is proved against
  `CurrentCycleStart`.
- `store.dfy` (module `Store`) is the SQLite store, modelled as the class
  `Database`. Its tables are maps keyed by chat id:
  - the users whitelist with admin and active flags;
  - each chat's cycle config;
  - each chat's mood logs and chat history, as sequences in insertion order;
  - the two legacy single-user tables that the admin bootstrap migrates from.

  `Valid()` is the foreign-key invariant: every per-chat row belongs to a
  known user.
- `text.dfy` (module `Text`) covers two things:
  - escaping for Telegram's legacy Markdown, kept as the source's loop of
    `replace` passes and proved equal to a one-pass definition;
  - the length caps applied to notes and chat messages.
- `ratelimit.dfy` (module `RateLimit`) is the per-chat AI rate limiter: a
  class holding a map from chat id to timestamps, updated in place. Ghost
  fields record every call it has allowed, and its invariant says that no
  allowed call had five others in the sixty seconds before it.
- `handlers.dfy` (module `Handlers`) holds the command handlers' decisions:
  - the access gates;
  - argument validation for `/setup`, `/settings`, `/adjust` and `/period`;
  - the cycle-length learning rule, written once and used by both the
    `/period` command and the "period started today" button;
  - what each handler writes to the store and which reply it chooses.
- `scheduler.dfy` (module `Scheduler`) is the daily reminder sweep:
  - which users get a message;
  - which header the message carries;
  - which notes go with it.

  It is an imperative loop over the active users, proved against a per-user
  specification `PlanFor`.

## Model

| member | source | states |
|---|---|---|
| Cycle.PhaseNamesAreTheKeys | src/cycle.py:12-32 | The five phase names are distinct, and they are exactly the keys of the phase tables. |
| Cycle.CycleDay | src/cycle.py:4-9 | The cycle day lies in 1..L. A reference start after today gives day 1, and so does the start day itself. |
| Cycle.CycleDayPeriodic | src/cycle.py:9 | Once today is on or after the start, one full cycle later is the same cycle day. |
| Cycle.CycleDayAfterWholeCycles | src/cycle.py:4-9 | Offset d (0 <= d < L) past any whole number of cycles after the start is cycle day d+1. In particular start+L is day 1 again. |
| Cycle.GetPhase | src/cycle.py:12-23 | Each phase holds exactly on its day range, in both directions: menstruation 1-5, follicular 6-13, ovulation 14, luteal 15-21. PMS holds exactly on days <= 0 or >= 22. |
| Cycle.PhaseIgnoresCycleLength | src/cycle.py:12-23 | The phase does not depend on the cycle-length argument. |
| Cycle.TablesHaveThePhaseKeys | src/cycle.py:26-95 | The label, description and detail tables are each keyed by exactly the five phase names. |
| Cycle.DetailRangesAgreeWithPhase | src/cycle.py:42-95 | Within days 1..28, a day lies in the range printed in a phase's detail heading (1-5, 6-13, 14, 15-21, 22-28) iff the classifier gives that phase. |
| Cycle.GetPhaseInfo | src/cycle.py:98-106 | The result echoes the day, and its phase is the classifier's. Its label and description are that phase's table entries. |
| Cycle.LabelIdentifiesPhase | src/cycle.py:26-32 | Two days get the same label iff they are in the same phase. |
| Cycle.DaysUntil | src/cycle.py:129-131 | today + result == target: 0 on the same day, negative for a past target. |
| Cycle.CurrentCycleStart | src/cycle.py:134-140 | Before the reference start, the result is that start. Otherwise the result is a whole number of cycles after the start, is <= today and is > today - L, and today - result + 1 is the cycle day. |
| Cycle.CurrentCycleStartIsLatest | src/cycle.py:134-140 | Every whole-cycle multiple on or before today is <= the current start. |
| Cycle.PredictDates | src/cycle.py:109-126 | The loop ends, and the next period is after today and equals the current cycle start + L. PMS is 7 days before it, and ovulation is L - 14 days before it. |
| Cycle.NextPeriodAfterCurrentStart | src/cycle.py:116-119 | The multiple at which the loop stops is the current cycle start + L. |
| Cycle.NextPeriodIsEarliest | src/cycle.py:116-119 | No whole-cycle multiple after today comes before the predicted next period. |
| Store.LimitCount | src/db.py:227-233 | `LIMIT n` lets min(n, available) rows through; a negative limit lets all through. |
| Store.Newest | src/db.py:252-258 | The kept rows are the newest ones of the table, in their original order. |
| Store.NewestOfNewest | src/db.py:260-268 | Keeping the newest n of the newest k rows keeps the newest min(k, n), so pruning twice is pruning once at the smaller size. |
| Store.Reverse | src/db.py:227-233 | The rows are the same in the opposite order (newest first). |
| Store.LogsDated | src/db.py:235-241 | Every returned log has that date, and each log with that date is returned as many times as it is stored; no other log is returned. |
| Store.LogsDatedAppend | src/db.py:235-241 | The selection works piece by piece: selecting from `a + b` is selecting from `a`, then from `b`. The rows therefore come in stored order, an order the model chooses (see Left out). |
| Store.LogsDatedSingle | src/db.py:235-241 | A single log is returned iff it carries the date. With `LogsDatedAppend`, this fixes the result for every table. |
| Store.WithAdmin | src/db.py:91-104 | After bootstrap the admin row exists and is an active admin. An existing row keeps `added_by`, a new row has none, and every other user is unchanged. |
| Store.MigratedConfigs | src/db.py:110-125 | An admin who already has a config keeps it. Otherwise the admin gets the legacy config, or the defaults when there is none. |
| Store.MigratedLogs | src/db.py:127-136 | An admin with no logs receives all legacy logs in order. An admin who already has logs keeps them. Other chats are unchanged. |
| Store.BootstrapIdempotent | src/db.py:91-138 | Bootstrapping a second time leaves users, configs and logs as the first run left them. |
| Store.Database.constructor | src/db.py:7-14 | A fresh database file has empty per-user tables and holds the given legacy tables. |
| Store.Database.BootstrapAdmin | src/db.py:91-106 | The new state is `WithAdmin`, `MigratedConfigs` and `MigratedLogs` of the old one. Chat history and the legacy tables are unchanged. |
| Store.Database.MigrateLegacyData | src/db.py:108-138 | Its loop inserts the legacy logs one by one and ends in `MigratedConfigs` and `MigratedLogs` of the old state. |
| Store.Database.AddUser | src/db.py:142-147 | The chat becomes active with `added_by` set, and its admin flag is kept (a new user is not an admin). No other user changes. |
| Store.Database.RemoveUser | src/db.py:149-151 | Only `is_active` is cleared. The row stays, and the chat is no longer authorized. |
| Store.Database.IsUserAuthorized | src/db.py:153-158 | Only a chat with a users row can be authorized, and then exactly when the row is active. |
| Store.Database.IsAdmin | src/db.py:160-165 | An admin is always an authorized user, and an authorized user is an admin exactly when the admin flag is set. |
| Store.Database.GetAllActiveUsers | src/db.py:167-172 | It lists exactly the authorized (active) users, each once. |
| Store.Database.GetAllWhitelistedUsers | src/db.py:174-179 | It lists exactly the users in the whitelist, active or not, each once. |
| Store.Database.GetUserConfig | src/db.py:183-188 | The chat's config row is returned iff there is one. Under the foreign keys, a chat with a config is a known user. |
| Store.Database.UserHasConfig | src/db.py:190-191 | True iff the chat has a config row. |
| Store.Database.UpsertUserConfig | src/db.py:193-201 | The chat's config becomes exactly the given pair, whether or not it existed. No other config changes. |
| Store.Database.UpdateUserCycleLength | src/db.py:203-208 | Only that chat's cycle length changes, and only if the chat has a config. |
| Store.Database.UpdateUserLastPeriodDate | src/db.py:210-215 | Only that chat's last period date changes, and only if the chat has a config. |
| Store.Database.AddUserLog | src/db.py:219-225 | The new log is appended to that chat's logs, and no other chat's logs change. |
| Store.Database.GetUserRecentLogs | src/db.py:227-233 | It returns the chat's newest `limit` logs, newest first. |
| Store.Database.AddChatMessage | src/db.py:245-250 | The message is appended to that chat's history. |
| Store.Database.GetChatHistory | src/db.py:252-258 | It returns the chat's last `limit` messages in ascending order. |
| Store.Database.PruneChatHistory | src/db.py:260-268 | Exactly the `keep` newest messages of that chat remain, and other chats are unchanged. |
| Store.Database.ClearChatHistory | src/db.py:270-272 | That chat's history becomes empty, and other chats are unchanged. |
| Store.ListOf | src/db.py:167-179 | The listed ids are exactly the members of the set, each once. |
| Text.EscapeMarkdown | src/handlers.py:42-46 | The four sequential `replace` passes give exactly `Escaped`: each of `*`, `_`, `` ` `` and `[` gets one backslash, and every other character is kept. |
| Text.EscapeOneMore | src/handlers.py:44-45 | A further `replace` pass for a new special character escapes it and nothing twice. |
| Text.EscapedLength | src/handlers.py:42-46 | The output length is the input length plus the number of special characters. |
| Text.EscapedPlainText | src/handlers.py:42-46 | Text without special characters is returned unchanged. |
| Text.EscapedLeavesNoBareSpecial | src/handlers.py:42-46 | Every special character in the output directly follows a backslash. |
| Text.UnescapeEscaped | src/handlers.py:42-46 | Escaping loses nothing: reading the escaped text back gives the original. |
| Text.Truncate | src/handlers.py:642 | `s[:n]` is a prefix of s of length min(len(s), n); s is kept whole when it fits. |
| RateLimit.Recent | src/handlers.py:35 | Each timestamp inside the window (now - t < 60) is kept as many times as it occurs, and every other timestamp is dropped. |
| RateLimit.RecentAppend | src/handlers.py:35 | The filter works piece by piece, so order is kept: filtering `a + b` is filtering `a`, then `b`. |
| RateLimit.RecentSingle | src/handlers.py:35 | A single timestamp is kept iff it is inside the window. With `RecentAppend`, this fixes the result for every list. |
| RateLimit.RecentTwice | src/handlers.py:35 | Filtering at an earlier and then a later time equals filtering at the later time. |
| RateLimit.AiRateLimiter.constructor | src/handlers.py:28 | A fresh limiter holds no timestamps and has allowed no calls. |
| RateLimit.CheckStep | src/handlers.py:33-39 | For one chat, filtering its stored timestamps at a later request equals filtering all its allowed calls. The kept timestamps, plus `now` when fewer than 5 remain, again track the allowed calls. |
| RateLimit.AiRateLimiter.Check | src/handlers.py:31-39 | The result is true iff fewer than 5 of the chat's stored timestamps are in the window, which is the same as fewer than 5 of all its allowed calls. The chat's list becomes the kept timestamps, plus `now` only when allowed, and the allowed calls grow by `now` only when allowed. `now` becomes the chat's latest request. Other chats are untouched. The invariant holds: each list keeps at most 5 entries and is the chat's allowed calls inside the window of its latest request, and every allowed call had fewer than 5 allowed calls in the 60 seconds before it. |
| RateLimit.RespectsLimitExtend | src/handlers.py:36-39 | A call with fewer than 5 allowed calls in the window before it may join allowed calls that respect the limit, and the limit still holds. |
| RateLimit.AtMostFivePerWindow | src/handlers.py:31-39 | When calls respect the limit, at most 5 of them fall in the 60 seconds ending at any one of them, that call included. |
| RateLimit.LimiterAllowsFivePerWindow | src/handlers.py:31-39 | For any limiter reached through `Check`, at most 5 of a chat's allowed calls fall in the 60 seconds ending at any of them. |
| Handlers.RoundTenths | src/handlers.py:609 | The result is the nearest integer to n/10; an exact half goes to the even neighbour. |
| Handlers.BlendedLength | src/handlers.py:609 | The blended length lies between min(gap, L) and max(gap, L), within half a day of 0.7*gap + 0.3*L. |
| Handlers.LearnCycleLength | src/handlers.py:607-617 | The start date always moves to the new date. When 18 <= gap <= 45, the length becomes `BlendedLength(gap, L)`; otherwise it is kept. |
| Handlers.LearningKeepsAnExactCycle | src/handlers.py:607-610 | A cycle exactly as long as the estimate leaves the estimate unchanged. |
| Handlers.LearningStaysPlausible | src/handlers.py:607-610 | A length in 18..45 stays in 18..45 after learning. |
| Handlers.LearningMovesTowardsTheGap | src/handlers.py:607-610 | A longer cycle never shortens the estimate and a shorter one never lengthens it, and the estimate never passes the gap. |
| Handlers.LearningCanLeaveTheSetupRange | src/handlers.py:607-610 | A length of 20 and a gap of 18 learn 19, which `/setup` and `/settings` would refuse. |
| Handlers.LearningExample | src/handlers.py:607-610 | An estimate of 28 and a gap of 30 learn 29. |
| Handlers.NoteFor | src/handlers.py:607-615 | The reply says "updated" iff the gap is learnable, "unusual" iff it is positive but not learnable, and "unchanged" iff it is <= 0. An updated length is the learned one. |
| Handlers.SplitJoinWords | src/handlers.py:642 | Joining the words with single spaces loses nothing: cutting the result at its spaces gives back exactly the words, in order. |
| Handlers.CheckPastDate | src/handlers.py:590-603 | A date argument is accepted iff it parses and is not after today. An unparsable one is refused as a bad date format, and a future one as a date in the future. |
| Handlers.ValidateSetup | src/handlers.py:239-268 | It accepts iff there are at least two arguments, the first is an int in 20..45, and the second is a date not after today. The config is then exactly those two values. The refusals come in the handler's order: fewer than two arguments get the usage reply, then a non-number, then a length out of range, then the date refusal of `CheckPastDate`. |
| Handlers.ValidateSettings | src/handlers.py:741-762 | No argument means show the settings. A new length is accepted iff it is an int in 20..45. A non-number is refused as such, and a number out of range as out of range. |
| Handlers.PeriodDate | src/handlers.py:590-605 | No argument means today. An accepted date is never after today. |
| Handlers.AdjustDate | src/handlers.py:705-724 | A date is required, and an accepted date is never after today. |
| Handlers.Gate | src/handlers.py:108-144 | A handler proceeds iff the chat is an active user with a config. Otherwise it refuses as "not for you" or "set up first". |
| Handlers.SetupCommand | src/handlers.py:237-284 | Only an active user may set up. A valid request writes exactly the validated config and replies with today's cycle day and phase label. An invalid one writes nothing. |
| Handlers.RecordPeriod | src/handlers.py:607-617 | The chat's config becomes `LearnCycleLength` of the old config, and the reply note is `NoteFor`. |
| Handlers.PeriodCommand | src/handlers.py:583-624 | When gated or given a bad or future date, it writes nothing. Otherwise it stores `LearnCycleLength(old config, date)`. |
| Handlers.PeriodToday | src/handlers.py:510-533 | When gated, it writes nothing. Otherwise it stores `LearnCycleLength(old config, today)`, the same rule as `/period`. |
| Handlers.AdjustCommand | src/handlers.py:703-733 | It writes only the new period date, and only after it passes the checks. The length is untouched. |
| Handlers.SettingsCommand | src/handlers.py:736-769 | It shows the config, or writes only the new length after the range check. |
| Handlers.LogCommand | src/handlers.py:627-649 | Without words it writes nothing. Otherwise it appends one log with the note cut to 500 characters and today's phase, and echoes the note escaped with the phase label. |
| Handlers.TipCommand | src/handlers.py:556-580 | After the gate, the rate limiter decides. A refused call gets the slow-down reply, and a failed AI call gets the "brain froze" reply. The tip button behaves the same way (src/handlers.py:395-424). |
| Handlers.ChatHandler | src/handlers.py:774-818 | The message is cut to 2000 characters and rate-limited. Only an answered message is stored, followed by the answer. A refused or failed call stores nothing. |
| Handlers.StoreExchange | src/handlers.py:810-811 | The message and then the answer are appended to that chat's history, and nothing else changes. |
| Handlers.ClearChatCommand | src/handlers.py:289-294 | Any set-up user may clear their own history. After the gate, only that chat's history is emptied. |
| Scheduler.WarningDay | src/scheduler.py:37-38 | The warning day is two days before the PMS start L - 6. |
| Scheduler.ShouldSend | src/scheduler.py:41-47 | A message is due iff the phase is not follicular and, when luteal, the day is the warning day. |
| Scheduler.HeaderFor | src/scheduler.py:58-61 | The PMS warning is chosen exactly on a luteal warning day. Otherwise the header is the good-morning header with the phase label and day. |
| Scheduler.PeriodDuration | src/scheduler.py:28 | A missing or zero period duration means 5. |
| Scheduler.Age | src/scheduler.py:29-30 | The age is present iff a non-zero birth year is, and then birth year + age == this year. |
| Scheduler.ReminderLogs | src/scheduler.py:53 | The notes are today's logs if there are any, else the 3 newest. |
| Scheduler.PlanFor | src/scheduler.py:20-61 | A chat without a config gets no reminder, and a planned reminder is addressed to that chat. `PlanForToday` states which day, phase, header and notes it carries. |
| Scheduler.PlanForToday | src/scheduler.py:20-61 | A configured chat gets a reminder iff `ShouldSend` accepts today's cycle day and phase. The reminder then carries that chat, that day and phase, the `HeaderFor` header and the `ReminderLogs` notes. |
| Scheduler.PlanReminder | src/scheduler.py:21-61 | One pass of the loop body, with its `continue`s and `should_send` flag, equals `PlanFor`. |
| Scheduler.SendDailyReminder | src/scheduler.py:15-67 | It sends to exactly the active users for whom `PlanFor` plans a reminder, once each, with that reminder. Its loop keeps the reminders collected so far equal to `Planned` of the chats swept so far. |
| Scheduler.PlannedMembers | src/scheduler.py:15-67 | Each reminder the sweep collects is the `PlanFor` plan of a swept chat, and every swept chat's plan is collected. |
| Scheduler.PlannedOncePerChat | src/scheduler.py:15-67 | Sweeping chats without repeats collects at most one reminder per chat. |
| Scheduler.FollicularIsQuiet | src/scheduler.py:41-51 | A chat on a follicular day gets no reminder. |
| Scheduler.LoudPhasesAlwaysSend | src/scheduler.py:42-45 | Period, ovulation and PMS days always get a message, with the good-morning header. |
| Scheduler.PmsWarningNeedsMidLength | src/scheduler.py:37-61 | The PMS warning is chosen iff 23 <= L <= 29 and the day is L - 8; no other cycle length ever sees it. |
| Scheduler.PmsWarningLeadTime | src/scheduler.py:37-59 | From the warning day up to day 21 the phase is luteal, and PMS begins on day 22, 30 - L days later. That matches the "in 2 days" of the warning only when L = 28. |

## Left out

- Telegram I/O is not modelled: message text, keyboards, Markdown
  rendering, `button_handler` dispatch and edits of old messages. A reply is
  a `Reply` value that names the message and the values shown in it.
- Display-only commands are not modelled: `/start`, `/status`, `/next`,
  `/phase` and `/history`. Neither are the menu buttons that show the same
  values or a prompt (`_show_menu`, `_show_status`, `_show_next`,
  `_show_phase`, `_show_history`, `_show_settings`, `_show_chat_intro`,
  `_show_period_confirm`). They only show `GetPhaseInfo`, `PredictDates`,
  `DaysUntil` and `GetUserRecentLogs`. Two buttons do more and are
  modelled: `_show_tip` acts as `Handlers.TipCommand`, and
  `_do_period_today` is `Handlers.PeriodToday`.
- Admin commands are not modelled: `/adduser`, `/removeuser` and `/users`.
  The store operations they call are modelled.
- `src/ai.py` is not modelled; it is a network client. The AI tip and chat
  answers are parameters (`None` when the call fails). The prompt and the
  history passed to the AI are not modelled.
- Date parsing and formatting (`date.fromisoformat`, `isoformat`) are not
  modelled. Dates are day ordinals, and each argument arrives as an `Arg`
  carrying what `int()` and `date.fromisoformat()` would make of it.
- Clocks are parameters: `date.today()` is `today`, and `time.monotonic()`
  is `now`. A monotonic clock never goes back, so `RateLimit.AiRateLimiter.Check`
  and the handlers that call it require `now` to be no earlier than the
  chat's previous request. Each call records its `now` as that chat's
  latest request, so any sequence of requests from a clock that does not go
  back can be served.
- SQLite mechanics are not modelled: connections, pragmas, WAL and the
  second-resolution `created_at`. Rows of one chat are ordered by insertion,
  so ties in `created_at` are not modelled.
- The foreign keys (`foreign_keys=ON`) become `requires chatId in users` on
  the inserting methods. An insert for an unknown chat, which SQLite
  rejects, is not modelled.
- `get_user_logs_for_date` has no `ORDER BY`, so SQLite promises no row
  order. `Store.LogsDated` returns the rows in stored order, a choice of the
  model.
- Opening an existing database file is not modelled. `_init_db` creates
  the tables only if they do not exist, so an existing file keeps its rows.
  `Store.Database.constructor` models a fresh file.
- The order of the rows returned by `get_all_active_users` and
  `get_all_whitelisted_users` is not modelled. Only which ids are returned
  is modelled, each once.
- Cycle.CycleDay: requires `cycleLength > 0`. For a date on or after the
  start, a zero length raises `ZeroDivisionError` in the source. A negative
  length gives a day in L+1..1 through Python's floor `%`, and the model
  does not cover that case.
- Cycle.CurrentCycleStart: requires `cycleLength > 0`. A zero length raises
  `ZeroDivisionError` once today is on or after the start. A negative length
  gives a date through Python's floor `//`, and the model does not cover
  that case.
- Cycle.PredictDates: requires `cycleLength > 0`. With a zero or negative
  length the source's `while` loop never ends once the first predicted
  period is on or before today.
- Handlers.LogCommand and Scheduler.SendDailyReminder: require positive
  stored lengths so that `CycleDay` is defined. Stored lengths are positive
  in practice. `/setup` and `/settings` store only 20..45, and learning
  keeps any length of 18 or more at 18 or more (`LearningStaysPlausible`
  covers 18..45).
- Handlers.BlendedLength: the source computes `gap * 0.7 + L * 0.3` in
  IEEE doubles, and the model rounds the exact value (7*gap + 3*L)/10.
  The two differ only at exact ties that the float sum misses. For gaps
  and lengths in 18..45, the pairs (gap, L) = (23, 18), (34, 19), (29, 24)
  and (24, 29) evaluate just below the half. There Python's `round` goes
  down to an odd number, while the model rounds to the even neighbour.
- The source's scheduler calls `get_phase` and `get_phase_info` with a
  third argument (`period_duration`), but `src/cycle.py` defines them with
  two parameters. These calls are not modelled. The reminder rule uses the
  two-argument classifier, and `Scheduler.PeriodDuration` and
  `Scheduler.Age` stand alone. The store has no `period_duration` or
  `year_of_birth` columns.
- The bodies of the `PHASE_DETAILS` texts are not modelled. Only each
  heading's emoji, title and printed day range are modelled.
- The reminder's day number and the AI tip are not rendered into message
  text. A reminder is the `Reminder` value the message is built from, and
  send failures, which the source only logs, are not modelled.
- The APScheduler cron job, `src/bot.py` and `config/settings.py` are not
  modelled. The constants the core uses are written out: the 3 recent
  logs, the 500- and 2000-character caps, and 5 calls per 60 seconds.
