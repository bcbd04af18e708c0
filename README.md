# Episode-alert bookkeeping of an AniList Discord bot

A Dafny model of the part of the bot (`main.py`) that decides what gets posted.
The bot fetches up to ten upcoming episodes from the AniList airing schedule.
From them it plans reminder jobs, builds a weekly digest and answers the
`upcoming` command. Everything goes to the channels guilds register with
`setchannel`.

- `wrappers.dfy`, module `Wrappers`: `Option`. A fetch result is `None` on
  failure or `Some(entries)`. An optional title is `None` when AniList returns `null`.
- `text.dfy`, module `Text`: `Mentions`, which says one text occurs inside another.
  It also holds `str(int)` as Python renders an episode number (`IntText`) and
  its inverse (`ParseInt`).
- `episodes.dfy`, module `Episodes`: the airing entry and the `romaji or english`
  title rule, with Python truthiness (`None` and `""` are falsy). It also holds the
  local time of day (`ClockOf`) and the inclusive seven-day window of the digest
  (`ThisWeek`).
- `messages.dfy`, module `Messages`: the reminder text, the listing lines, the
  weekly digest and the `upcoming` reply. Each is a specification function.
  The `+=` loops are methods proved equal to those functions.
- `bot.dfy`, module `Bot`: class `AlertBot` holds the process state. This is
  `announcement_channels` (a map plus its keys in insertion order, the order Python
  iterates them in), the scheduler's job list and every message posted. Its methods
  are `setchannel`, `send_alert`, `schedule_alerts` and `send_weekly_report`.
  `SetChannel` states the new registry directly. The other three are proved
  against specification functions (`Route`, `PlanAlerts`, `WeeklyPosts`), and
  lemmas state what those functions guarantee. Every method keeps the
  registry invariant `Valid`.

Times are epoch seconds. The local clock is the epoch time plus a fixed offset
`utcOffset`. `strftime('%d/%m/%Y at %H:%M')` is the parameter `stamp`. The
`HH:MM` passed to `schedule ... .at(...)` is computed (`ClockOf`), because it
decides when a reminder fires. `bot.get_channel` is modelled by the parameter
`resolvable`: the set of channel ids the client can resolve at that moment.
`channel.send` appends a `Post` to `outbox`. The parameter `raising` is the set
of channels whose `channel.send` raises at that moment (for example a channel
the bot may not write to). Such a send posts nothing, and the exception leaves
`send_alert`. In `send_weekly_report` it also ends the loop over the guilds, so
the guilds after it get no digest. A raising reminder job ends only that job.

The model follows the code wherever the code differs from the bot's intended design:
- `schedule_alerts` registers a job that recurs every day at the alert's `HH:MM`
  (`schedule.every().day.at`). It is not a one-shot trigger at `airingAt - 24h`.
  Because a day is exactly 24 hours under a fixed offset, that `HH:MM` is the
  airing's own time of day. The job then fires on every day, including after the
  episode has aired (`ReminderRecursDaily`).
- The digest window includes both ends: `now <= airingAt <= now + 7 days`. It is not half-open.
- Entries are listed in the order the fetch returned them. The digest does not re-sort them by air time.
- The guild list is read when planning runs. A guild registered later gets no
  reminder jobs (`LateGuildGetsNoReminder`). Its channel, though, is looked up
  only when a job runs (`RunJob`).

## Model

| member | source | states |
|---|---|---|
| `Text.IntText` | main.py:89 | the `{anime['episode']}` rendering is non-empty and starts with `-` exactly for negative numbers |
| `Text.IntTextRoundTrip` | main.py:89 | the rendered episode number parses back to the number |
| `Text.IntTextInjective` | main.py:89 | distinct episode numbers render to distinct texts |
| `Episodes.DisplayTitle` | main.py:86 | `romaji or english`: romaji when it is truthy, otherwise english as it is (so `None` for an empty romaji and a missing english); the result is truthy iff one of the two is |
| `Episodes.TitleText` | main.py:89 | the f-string rendering of a title: the string itself, or the text `None` for a missing title; it is empty only for an empty title |
| `Episodes.AlertTime` | main.py:88 | the alert instant lies exactly 24 hours before the airing |
| `Episodes.ClockOf` | main.py:92 | `strftime("%H:%M")` of a local instant: hour below 24, minute below 60, naming the minute of the day that contains the instant |
| `Episodes.ClockIgnoresWholeDays` | main.py:87-92 | shifting an instant by whole days keeps its `HH:MM` |
| `Episodes.InWeek` | main.py:107 | the digest's window test `now <= airingAt <= now + 7 days`, both ends included |
| `Episodes.ThisWeek` | main.py:105-107 | the weekly filter keeps only entries inside the window and never grows the list |
| `Episodes.ThisWeekMembership` | main.py:107 | an entry is kept iff it was fetched and `now <= airingAt <= now + 7 days` |
| `Episodes.ThisWeekConcat` | main.py:107 | filtering commutes with concatenation, so kept entries keep their input order |
| `Episodes.ThisWeekMultiplicity` | main.py:107 | each kept entry occurs exactly as often as in the input, other entries not at all |
| `Episodes.WeekBoundaries` | main.py:105-107 | entries airing exactly at `now` and at `now + 7 days` are kept; one second outside either end is dropped |
| `Messages.ReminderMessage` | main.py:89 | the reminder text `Reminder: **title** (Episode n) will air at <stamp>!` (what it contains is stated by `ReminderNamesEpisode`) |
| `Messages.ListingLine` | main.py:116 | one bullet `- **title** (Episode n) airing at <stamp>` and a newline, shared with main.py:192 (stated by `ListingLineNamesEpisode`) |
| `Messages.Listing` | main.py:112-116 | the text a `+=` loop accumulates, one line per entry in input order, as in main.py:188-192 (stated by `ListingConcat` and `ListingAt`) |
| `Messages.WeeklyReport` | main.py:109-116 | the digest is the sentinel iff nothing airs this week; otherwise the header then one line per kept entry |
| `Messages.UpcomingReply` | main.py:179-192 | the `upcoming` reply is the failure text iff the fetch failed, the "No upcoming animes." text iff it returned nothing, else the header and one line per entry |
| `Messages.ListingConcat` | main.py:113-116 | the listing of two runs of entries is the first listing followed by the second |
| `Messages.ListingAt` | main.py:113-116 | each entry's line sits between the lines of the entries before it and those after it |
| `Messages.ListingShowsEntry` | main.py:188-192 | a header plus a listing contains the line of each listed entry |
| `Messages.WeeklyReportListsWeek` | main.py:105-116 | every fetched entry airing within the week has its line in the digest |
| `Messages.UpcomingListsAll` | main.py:188-192 | every fetched entry has its line in the `upcoming` reply |
| `Messages.ReminderNamesEpisode` | main.py:86-89 | a reminder contains the bold display title and `(Episode <n>)` |
| `Messages.ListingLineNamesEpisode` | main.py:114-116 | a listing line contains the bold display title and `(Episode <n>)` |
| `Messages.ShownTitle` | main.py:190 | the bold title shows romaji when non-empty, else english, and the text `None` when english is missing too |
| `Messages.EpisodeTagsDiffer` | main.py:116 | different episode numbers give different `(Episode <n>)` tags |
| `Messages.AppendLines` | main.py:112-116 | the `+=` loop yields the header followed by the listing of all entries |
| `Messages.BuildWeeklyReport` | main.py:105-116 | the report `send_weekly_report` builds is the weekly digest |
| `Messages.Upcoming` | main.py:177-194 | the `upcoming` command replies with `UpcomingReply` for the fetch result |
| `Bot.Route` | main.py:65-75 | no send when the guild has no channel or a falsy one, nor when the channel cannot be resolved; otherwise a send to the registered channel, which either succeeds or raises |
| `Bot.PostsFor` | main.py:65-75 | one `send_alert` posts at most once, exactly when its send succeeds, and then the text to the guild's channel |
| `Bot.Broadcast` | main.py:118-119 | `send_alert` for each guild in order, stopping at the first send that raises (stated by the `Broadcast...` lemmas) |
| `Bot.ReminderClock` | main.py:88-92 | the reminder job's `HH:MM`, 24 hours before the airing, is the airing's own time of day |
| `Bot.JobsFor` | main.py:91-93 | the inner loop registers one job per guild, in registry order, each with the entry's time and message |
| `Bot.Plan` | main.py:85-94 | the nested loops' jobs, entry by entry and guild by guild (stated by `PlanSize`, `PlanJob` and `PlanJobOrigin`) |
| `Bot.PlanAlerts` | main.py:79-94 | a failed fetch plans no job; otherwise the plan for the fetched entries and the current guilds |
| `Bot.WeeklyPosts` | main.py:99-119 | a failed fetch posts nothing; otherwise the digest goes through `send_alert` to the registered guilds in order, up to the first send that raises |
| `Bot.PlanSize` | main.py:85-94 | the plan has exactly as many jobs as the number of entries times the number of guilds |
| `Bot.PlanJob` | main.py:85-94 | with `G` guilds, the job at position `i * G + j` is for guild `j`, at entry `i`'s alert `HH:MM`, with entry `i`'s reminder, which all of entry `i`'s jobs share |
| `Bot.PlanJobOrigin` | main.py:85-94 | every planned job belongs to some (fetched entry, guild) pair |
| `Bot.LateGuildGetsNoReminder` | main.py:91-93 | a guild not registered at planning time has no job |
| `Bot.ReminderRecursDaily` | main.py:87-92 | the job's `HH:MM` equals the airing's time of day on every day, so the daily job matches at the alert time and on every later day too |
| `Bot.BroadcastConcat` | main.py:118-119 | sending to two runs of guilds posts for the first run, then for the second unless a send in the first run raised |
| `Bot.BroadcastPosts` | main.py:118-119 | at most one post per guild; each post carries the report to the channel of a registered guild whose send succeeded |
| `Bot.BroadcastReaches` | main.py:118-119 | a guild with a set, resolvable channel whose send succeeds receives the report, provided no earlier guild's send raised |
| `Bot.BroadcastStep` | main.py:118-119 | after a guild whose send does not raise, the posts are those of the earlier guilds followed by that guild's |
| `Bot.BroadcastStopsAtRaise` | main.py:118-119 | once a guild's send raises, no later guild receives anything |
| `Bot.AlertBot.constructor` | main.py:25 | the registry, the job list and the outbox start empty |
| `Bot.AlertBot.SetChannel` | main.py:141-143 | the invoking guild now maps to the channel, overwriting any earlier value; other guilds are unchanged; a new guild goes last in iteration order |
| `Bot.AlertBot.SendAlert` | main.py:65-75 | posts the message to the guild's channel exactly when `Route` says the send succeeds; otherwise the outbox is unchanged |
| `Bot.AlertBot.RunJob` | main.py:92-93 | a planned job, when run, is `send_alert` for its guild, with the channel looked up at that time |
| `Bot.AlertBot.ScheduleAlerts` | main.py:79-95 | appends exactly `PlanAlerts` to the scheduler's jobs (nothing after a failed fetch) |
| `Bot.AlertBot.SendWeeklyReport` | main.py:99-119 | appends exactly `WeeklyPosts` to the outbox (nothing after a failed fetch) and reports whether a send raised and ended the loop |

## Left out

- `fetch_upcoming_anime` (main.py:29-61): the HTTP POST, the GraphQL query and the JSON decoding are network I/O. Its result is an input, `Option<seq<Entry>>`. Malformed responses that raise instead of returning are not modelled.
- Discord SDK calls: `bot.get_channel` is the `resolvable` parameter. `channel.send` and `ctx.send` are a `Post` or a returned reply. The `setchannel` confirmation reply with `channel.mention`, the permission check, `on_command_error`, `bot.run` and `hello` are left out. Their behaviour lies in the SDK.
- The `schedule` library's `run_pending` and the thread `run_schedule` (main.py:160-167) are not modelled. Jobs are an appended list, and their firing times are not simulated. `RunJob` gives the effect of one firing.
- `weekly_summary` with its `weekday() == 6` gate and the Sunday 10:00 job registered in `on_ready` (main.py:122-136) are left out. They are clock-driven timers.
- Concurrency: `send_weekly_report` awaits inside its loop over the registry's keys. A `setchannel` that ran during one of those awaits would change the dict during iteration. The model runs that loop without interleaving.
- Local time: the date part of `strftime` is the opaque parameter `stamp`. Daylight-saving changes are not modelled, since the offset is fixed.
- `Episodes.InWeek`: `datetime.now()` has sub-second precision, while the model's `now` is whole epoch seconds. With a fractional `now`, main.py:107 drops an entry airing at the whole second `floor(now)`, which the model keeps. `WeekBoundaries` keeps an entry at exactly `now`; this matches the source only when `now` is a whole second.
- Integer widths do not matter here: Python integers are unbounded, as are Dafny's.
