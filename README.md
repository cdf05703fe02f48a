# A Dafny model of the Mattermost assistant bot's core

The bot is a Mattermost user backed by a language model. This project models, in Dafny, the parts of it that decide and compute rather than talk to other services:

- **The tokeniser** `split(text, delim, length)` (`src/utils/string.ts`, duplicated in `src/botservice.ts`). It cuts a message at its first `length` delimiters and keeps the rest as one last field. Every command parser depends on it.
- **The reminder calendar** (`src/utils/time.ts`). `calculateNextRunDate` picks the next firing day and time for a reminder. It has a Friday-to-Monday rollover rule and a forward scan over the weekdays.
- **The message dispatcher** (`src/botservice.ts`). For every incoming post it decides what the bot does:
  - a post in a channel with a content guard is checked with the guard's prompt;
  - otherwise a recognised command is run and its reply posted;
  - otherwise the ignore filter decides;
  - an answered post is sent to the model, either with a saved or built-in prompt or with the default persona.
- **The chat commands** (`src/commands.ts`): `!help`, `!content_guard`, `!prompt`, `!schedule_prompt`, `!reminder` and `!faq`. They validate their input and then create, list or delete records in the bot's collections (channel guards, prompts, scheduled prompts, reminders, FAQs).
- **The two scheduled sweeps** (`src/crons.ts`):
  - the end-of-day sweep applies every prompt scheduled for today to its thread, and marks the entry finished once its answer has been posted;
  - the five-minute sweep posts every reminder due at the current Moscow "HH:mm", and deactivates one-shot reminders once posted.
- **The conversation builder** `getChatMessagesByPosts` (`src/utils/posts.ts`). It turns a thread into the messages sent to the model: the instructions, then one message per post, carrying attachments, reactions, author and date.
- **The absence calendar filter** `simplifyCalendarData` (`src/requests/my_team.ts`). It keeps only the absences dated today, and only the users who have one.

## How it is modelled

- **Time.** An instant is a Dafny `int` of epoch milliseconds, passed in wherever the code reads the clock. Europe/Moscow is the fixed offset UTC+3, since Russia has not used daylight saving time since 2014. From that offset the model derives the Moscow day start, weekday (Sunday is 0), minute of day and "HH:mm" clock (`Schedule.MskDayStart`, `Schedule.MskWeekday`, `Schedule.MskMinuteOfDay`, `Schedule.MskClock`). `calculateNextRunDate` returns a `NextRun(dayOffset, hour, minute)`; `Schedule.RunInstant` turns that back into epoch milliseconds.
- **Strings.** Strings are `seq<char>`. The JavaScript built-ins the code uses are written out in module `JsString`: `split` and `join` on one character, `indexOf`, `includes`, `replace` with a string pattern, `trim`, `toLowerCase` on ASCII letters, and string `<=`.
- **The collections.** They are the fields of the class `Commands.Stores`:
  - channel guards, prompts and FAQs are maps, because the code keeps at most one record per channel name or prompt name (`!content_guard set` replaces, `!prompt save` and `!faq add` refuse a taken name);
  - scheduled prompts and reminders are sequences in storage order, because several records may share a key;
  - the FAQ search index is a map from FAQ name to the indexed text.
- **The handlers.** Each handler is a method on `Stores`. Its `ensures` states the new value of every collection and the reply. A reply is a `Commands.Reply` value naming the message sent and the data it shows. Handlers that are pure decisions on the collections (`!content_guard`, `!prompt`, `!schedule_prompt`, `!faq`) are also specified by a step function on a `StoreState` snapshot. Lemmas about the step functions prove the invariant kept (`Commands.ValidState`), the round trips, and the ownership rules.
- **The sweeps.** Each sweep loop is a method proved against a left fold, `Crons.RunSweep`, of a one-record step function (`Crons.DailyStep`, `Crons.ReminderStep`). Each entry's calls to the outside world — building the conversation and asking the model, posting, updating the record — succeed or throw. The parameter `attempt: nat -> Attempt` says which, per storage position.
- **The conversation builder.** `Posts.GetChatMessagesByPosts` is the builder's loop. It is proved to return `Posts.ChatMessages`: the instructions, then one rendered message per post of the window. User-name lookup (a map from id to name) and date formatting (a function) are parameters.

## Behaviour that differs from what one might expect

Some of the code's behaviour differs from what the command names, the help text or the stored fields suggest. The model follows the code in each case. Three corrections are the exception: the reminder list shows the corrected next day, and the five-minute sweep selects reminders on their days and looks their prompt up as their creator. Each is the corrected half of a finding below, whose as-written half is modelled beside it.

- **The content guard comes first.** One might expect the guard to apply only when no command matched, and also to thread replies that mention the bot. In the code the guard is checked first and only for top-level posts (`src/botservice.ts:375`). A top-level post in a guarded channel is checked with the guard's prompt even when it is a command (`Dispatch.GuardFirst`). A thread reply is never guarded, mentioned or not, and a command in an unguarded post runs (`Dispatch.UnguardedCommandRuns`).
- **A command in the wrong kind of channel is not refused.** It falls through to the ignore filter and, if answered, to the model as an ordinary message (`src/botservice.ts:378`; `Dispatch.WrongChannelNotRun`).
- **Completion failures are not isolated.** In the end-of-day sweep, building the conversation and asking the model happen outside the per-entry `try` (`src/crons.ts:64-66`). A failure there ends the whole sweep. Only post and update failures are caught (`Crons.DailyStep`, `abort`).
- **The dispatcher has its own command table.** The dispatcher uses the four-command `COMMANDS` table of `src/botservice.ts` (channel type a single string). It does not use the table of `src/commands.ts`:
  - its `!content_guard` and `!prompt` handlers are the same text as those of `src/commands.ts`, and run the same methods;
  - its `!schedule_prompt` reads the prompt name as the third word of the raw message (`Dispatch.ScheduleNameFromPost`);
  - `!reminder` and `!faq` are therefore not reachable from chat messages, and `Dispatch.OnClientMessage` does not run them.
- **History for reminders is never fetched.** The `!reminder` help text says `withHistory` takes the current day's messages and processes them (`src/commands.ts:307`). The code stores the flag and always builds the reminder's conversation from no posts (`src/crons.ts:121`; `Posts.EmptyThreadIsInstructionsOnly`).
- **Reminder days are not checked when firing.** The `!reminder` help text (`src/commands.ts:307`) and `calculateNextRunDate` (`src/utils/time.ts`) give a repeating reminder weekdays, so it is expected to fire on them. The code selects on time and `active` alone (`src/crons.ts:99`). This is the first finding below; the model's sweep uses the reminder's days.

## Model

| member | source | states |
|---|---|---|
| JsString.SplitAll | src/utils/string.ts:2 | `split` on a one-character separator: at least one field, and no field contains the separator |
| JsString.JoinSplitAll | src/utils/string.ts:2-6 | joining the fields of `split` with the separator gives back the text |
| JsString.SplitAllJoin | src/utils/string.ts:2-6 | splitting the join of separator-free fields gives back the fields |
| JsString.SplitAllNoSeparator | src/utils/string.ts:2 | a text without the separator splits into itself alone |
| JsString.Join | src/utils/string.ts:6 | `join` on one character: the fields with the separator between them, the empty array giving "" |
| JsString.SplitAllPrefix | src/utils/string.ts:2 | splitting `p` + separator + `t` for separator-free `p` is `p` followed by the fields of `t` |
| JsString.JoinAppend | src/utils/string.ts:6 | rejoining the tail fields and appending them is joining all fields |
| JsString.SplitLimit | src/botservice.ts:249 | `message.split(' ', 3)`: at most `limit` fields, a prefix of the unlimited split |
| JsString.Field | src/commands.ts:66 | array destructuring: a field is defined exactly when its index is below the length |
| JsString.IndexOf | src/botservice.ts:365 | `indexOf`: the first position where the pattern occurs, -1 exactly when it occurs nowhere |
| JsString.IndexFrom | src/botservice.ts:365 | the first occurrence at or after a position, -1 exactly when there is none |
| JsString.Contains | src/botservice.ts:484-488 | `includes`: the pattern occurs somewhere in the text |
| JsString.ReplaceFirst | src/botservice.ts:365 | `replace` with a string pattern: unchanged without an occurrence, else the first occurrence replaced |
| JsString.TrimStartDropsSpace | src/commands.ts:353 | trimming the front removes exactly the leading white space |
| JsString.TrimEndDropsSpace | src/commands.ts:353 | trimming the back removes exactly the trailing white space |
| JsString.Trim | src/utils/posts.ts:25-32 | `trim`: the leading, then the trailing white space removed |
| JsString.TrimIsSlice | src/utils/posts.ts:25-32 | `trim` returns a slice with only white space outside it, not starting or ending with white space |
| JsString.LowerChar | src/commands.ts:145 | `toLowerCase` of one character: upper-case ASCII letters shifted down, others unchanged |
| JsString.ToLower | src/commands.ts:145 | lower-casing keeps the length |
| JsString.ToLowerChars | src/commands.ts:353 | lower-casing maps every character on its own |
| JsString.ToLowerIdempotent | src/commands.ts:145 | lower-casing twice is lower-casing once |
| JsString.StrLe | src/commands.ts:364 | string `<=`: lexicographic by character, a proper prefix first |
| JsString.SeqIndexOf | src/commands.ts:368 | `indexOf` on an array: a result between -1 and the last index |
| JsString.SeqIndexOfFinds | src/commands.ts:368 | `indexOf` on an array returns the first index holding the value, -1 exactly when none does |
| JsString.SeqIndexOfAt | src/commands.ts:454 | an index holding the value with no earlier one is what `indexOf` returns |
| Tokenizer.Split | src/utils/string.ts:1-11 | `split(text, delim, length)`: between 1 and `length + 1` fields, joining them gives the text back, no field but the last contains the delimiter |
| Tokenizer.SplitShort | src/utils/string.ts:2-3 | with at most `length` pieces, the result is exactly the pieces |
| Tokenizer.SplitLong | src/utils/string.ts:3-8 | with more pieces, `length + 1` fields: the first `length` pieces unchanged, then the rest rejoined |
| Tokenizer.SplitUnique | src/utils/string.ts:1-11 | any field list with the round-trip, separator and length properties is the result |
| Tokenizer.TokenizeWords | src/botservice.ts:335-345 | on a text made of separator-free words, `split` returns the first `length` words and the rest rejoined |
| Schedule.DayIndex | src/utils/time.ts:5 | a day name's position in `ALL_DAYS` (Sunday 0) names that day |
| Schedule.DayIndexIsIndexOf | src/utils/time.ts:5 | `ALL_DAYS.indexOf(day)` is that position |
| Schedule.DayIndexOfName | src/utils/time.ts:5 | naming a weekday and taking its index give the weekday back |
| Schedule.DigitValue | src/utils/time.ts:8 | `Number` of a digit is below ten |
| Schedule.DigitChar | src/utils/time.ts:8 | the digit for a number below ten has that value |
| Schedule.IsHHMM | src/commands.ts:333 | the shape `^\d{2}:\d{2}$`: two digits, a colon, two digits |
| Schedule.Hour | src/utils/time.ts:14 | `Number` of the two digits before the colon |
| Schedule.Minute | src/commands.ts:340 | `Number` of the two digits after the colon |
| Schedule.TimeToMinutes | src/utils/time.ts:7-10 | `timeToMinutes`: hour * 60 + minute |
| Schedule.FormatHHMM | src/utils/time.ts:16 | `toFormat('HH:mm')` yields an "HH:mm" string whose hour and minute fields are the inputs |
| Schedule.ClockRoundTrip | src/utils/time.ts:7-10 | formatting the parsed hour and minute gives the string back, and `timeToMinutes` of a formatted time is hour * 60 + minute |
| Schedule.ClockStrLe | src/commands.ts:364 | string `<=` on "HH:mm" strings orders by hour field, then minute field |
| Schedule.StrLeFive | src/commands.ts:364 | string `<=` on five-character strings with the same middle character compares the digit pairs |
| Schedule.DigitsOrder | src/commands.ts:364 | lexicographic order on four digits is the order of the numbers they spell |
| Schedule.HourMinuteOrder | src/utils/time.ts:7-10 | with minutes below 60, hour-then-minute order is the order of minutes since midnight |
| Schedule.MskDayStart | src/commands.ts:265-268 | `startOf('day')` in Moscow: the latest Moscow midnight at or before the instant |
| Schedule.MskWeekday | src/utils/time.ts:15 | luxon's `weekday % 7` in Moscow is below 7 |
| Schedule.MskMinuteOfDay | src/utils/time.ts:16-17 | the minutes since Moscow midnight are below 1440 |
| Schedule.MskClock | src/utils/time.ts:16 | `toFormat('HH:mm')` in Moscow is a valid clock whose `timeToMinutes` is the minute of day |
| Schedule.ClockComparisonAgrees | src/commands.ts:364 | for a target minute field below 60, comparing "HH:mm" strings is comparing minutes since midnight |
| Schedule.ClockComparisonDiverges | src/commands.ts:333-346 | "09:75" passes the add checks; at 10:00 the string comparison says passed while `timeToMinutes` says not yet |
| Schedule.ValidDayReached | src/utils/time.ts:45-47 | with one valid day name among the active days, some offset 1..7 reaches it |
| Schedule.ScanOffset | src/utils/time.ts:41-47 | the smallest offset at or after `k` whose day is active, at most 7 |
| Schedule.FridayRollover | src/utils/time.ts:23-28 | the Friday rule applies: Friday, the minute of day past the target, and no day outside the working week |
| Schedule.RunsToday | src/utils/time.ts:31-39 | today is an active day and the target minute has not passed |
| Schedule.RunInstant | src/utils/time.ts:20-50 | the epoch instant of a run: Moscow midnight plus the day offset, hour and minute, keeping the seconds and milliseconds of now |
| Schedule.NextRunSpec | src/utils/time.ts:12-51 | the reference next run: the hour and minute are the reminder's |
| Schedule.CalculateNextRunDate | src/utils/time.ts:12-51 | `calculateNextRunDate` computes exactly the reference next run |
| Schedule.ScanForward | src/utils/time.ts:41-47 | the scan loop stops at the least offset from 1 whose day is active, within a week |
| Schedule.FridayRolloverRule | src/utils/time.ts:23-28 | Friday after the target time, days empty or all working days: exactly three days ahead |
| Schedule.EmptyDaysAreWeekDays | src/utils/time.ts:31 | an empty day list gives the same run as Monday to Friday, never "no day" |
| Schedule.NextRunCases | src/utils/time.ts:23-50 | the offset is 3 under the Friday rule; otherwise 0 exactly when today is active and not passed (inclusive); otherwise the least active offset from 1 |
| Schedule.RunInstantNotPast | src/utils/time.ts:36-50 | the returned instant is never before now, and strictly after now unless the run is today |
| Schedule.SaturdayToMonday | src/utils/__tests__/time.test.ts:14-19 | Saturday noon, days mon and wed: Monday at 12:00 Moscow, 1744016400000 |
| Schedule.FridayAfternoonToSaturday | src/utils/__tests__/time.test.ts:21-26 | Friday afternoon, days fri and sat: Saturday at 12:00 Moscow, 1743843600000 |
| Schedule.FridayMorningToday | src/utils/__tests__/time.test.ts:28-33 | Friday morning, days fri and sat: today at 12:00 Moscow, 1743757200000 |
| Schedule.FridayRolloverToMonday | src/utils/__tests__/time.test.ts:35-40 | Friday afternoon, no days: Monday at 12:00 Moscow, 1744016400000 |
| Schedule.FridayOnlyRollsToMonday | src/utils/time.ts:23-28 | with only Friday requested, the rule still moves the run to Monday, a day not requested |
| Schedule.MondayTenOClock | src/commands.ts:364 | at 10:00 on a Moscow Monday, a 09:00 slot has passed |
| Records.HandlePrompt | src/commands.ts:39-43 | `HANDLE_PROMPTS[name]` when truthy: an own entry's text, or else an inherited `Object.prototype` member (`constructor`, `toString`, `valueOf`, ...) as text; never empty |
| Records.IsBuiltIn | src/commands.ts:153 | `HANDLE_PROMPTS[name]` is truthy, for the own entries and the inherited members alike |
| Records.VisibleTo | src/commands.ts:250-256 | a stored prompt the user may use: public, or private and created by the user |
| Records.ResolveScoped | src/commands.ts:250-256 | the built-in text first (an own entry of `HANDLE_PROMPTS`, or a member every object inherits from `Object.prototype`); else a stored prompt that is public or the user's own; else none |
| Records.ResolveForDispatch | src/botservice.ts:413-428 | the dispatcher's order: the user's own prompt or a public one, then a built-in (inherited `Object.prototype` members included) |
| Records.ResolutionOrdersAgree | src/botservice.ts:413-428 | since a stored prompt never takes a built-in name, the dispatcher's order and the commands' order resolve alike |
| Commands.Help | src/commands.ts:46-60 | `!help` lists every command in table order, marked as available in direct messages exactly when its types include 'D' |
| Commands.SplitFields | src/commands.ts:66 | splitting the join of fields whose leading ones have no space gives back the fields |
| Commands.ParseGuardRequest | src/commands.ts:66-115 | `set` needs a channel and a prompt, `delete` a channel, `list` nothing; anything else is a bad request |
| Commands.ParseGuardSet | src/commands.ts:66-70 | `!content_guard set` keeps the whole rest of the message, spaces included, as the guard prompt |
| Commands.ParsePromptRequest | src/commands.ts:140-144 | a save request has a non-empty type, name and text |
| Commands.ParsePromptSave | src/commands.ts:140-150 | `!prompt save` keeps the whole rest of the message as the prompt text |
| Commands.ParseVisibility | src/commands.ts:145-147 | the type is public or private exactly when its lower-cased form is `public` or `private` |
| Commands.VisibilityIgnoresCase | src/commands.ts:145 | the type word is read case-insensitively |
| Commands.VisibilityExamples | src/commands.ts:145-148 | "PRIVATE" is accepted, "internal" refused |
| Commands.StripMention | src/commands.ts:232 | the first `@botName` removed, then the text trimmed |
| Commands.ScheduleNameFromCommand | src/commands.ts:232 | everything after the first space of the stripped message, none without a space |
| Commands.ScheduleNameKeepsRest | src/commands.ts:232 | `!schedule_prompt` takes the whole rest of the message as the prompt name |
| Commands.ParseReminderRequest | src/commands.ts:318-356 | an add with an explicit prompt name also carries its day list and history flag |
| Commands.SecondField | src/commands.ts:540-542 | the action field of `!faq <question>` is the question's first word |
| Commands.ParseFaqRequest | src/commands.ts:540-612 | `add` with a name and text, `delete` with a name, `list`; another of these three actions without its fields is a bad action; any other first word makes the rest of the message a query |
| Commands.ParseFaqQuery | src/commands.ts:540-614 | a question whose first word is not an action is searched whole |
| Commands.NormalizeDays | src/commands.ts:353 | each day is trimmed and lower-cased, same count |
| Commands.ExplicitDays | src/commands.ts:352-356 | `all` anywhere gives Monday to Friday; otherwise the normalised days |
| Commands.NextWorkingDay | src/commands.ts:368-369 | `WEEK_DAYS[(WEEK_DAYS.indexOf(today) + 1) % 5]`, a weekend day counting as just before Monday |
| Commands.NextWorkingDayIsMonday | src/commands.ts:368-369 | after Friday, Saturday or Sunday the next working day is Monday (the weekend's `indexOf` is -1) |
| Commands.NextWorkingDayIsTomorrow | src/commands.ts:368-369 | Monday to Thursday roll to the following day |
| Commands.DefaultDays | src/commands.ts:357-374 | one day: today if the Moscow "HH:mm" is at most the time, otherwise the next working day |
| Commands.DefaultDaysAfterTime | src/commands.ts:364-371 | once the time has passed, Friday and the weekend give Monday and other days give tomorrow |
| Commands.DefaultDaysAreKnown | src/commands.ts:377-382 | the default day always passes the day-name validation |
| Commands.DaysTerminate | src/commands.ts:377-382 | validated days guarantee the next-run scan stops |
| Commands.DefaultDaysRunToday | src/commands.ts:364-365 | a default day chosen before a valid time runs today |
| Commands.InMskDaySameDay | src/commands.ts:265-276 | an instant lies in the window `[mskMidnight, mskMidnight + 24h)` of now exactly when it has the same Moscow day |
| Commands.ActiveGuards | src/commands.ts:88-89 | `!content_guard list` shows exactly the guards with validation on |
| Commands.VisiblePrompts | src/commands.ts:168-170 | `!prompt list` shows exactly the public prompts and the sender's own |
| Commands.ShowPrompt | src/commands.ts:183-197 | a built-in, inherited `Object.prototype` names included, is shown with its text; a stored one only if public or the sender's; no access exactly for others' private prompts; not found exactly when the name is neither built in nor stored |
| Commands.ScheduledToday | src/commands.ts:270-276 | the first entry of the thread inside today's Moscow window, none exactly when there is no such entry |
| Commands.FindActive | src/commands.ts:401-408 | the first active reminder of that prompt in that channel, none exactly when there is none |
| Commands.DaysAhead | src/commands.ts:459 | `(dayIndex - today + 7) % 7` is below 7, and 0 exactly for today |
| Commands.ListOffsetAsWritten | src/commands.ts:454-476 | the offset the list shows as written: below 7 |
| Commands.ListOffsetAsWrittenIsLeast | src/commands.ts:457-476 | it is the least `DaysAhead` of the listed days, attained by one of them |
| Commands.DayOffset | src/commands.ts:459-472 | a listed day's offset, corrected: 0 only for today not passed, and lands on that weekday |
| Commands.ListOffset | src/commands.ts:454-476 | the corrected offset is at most 7 |
| Commands.ListOffsetIsLeast | src/commands.ts:457-476 | the corrected offset is the least `DayOffset`, attained by a listed day |
| Commands.ListOffsetCorrects | src/commands.ts:467-472 | corrected: never 0 once today's slot passed; otherwise equal to the as-written offset |
| Commands.ListOffsetPassedSlot | src/commands.ts:462-472 | Monday after 09:00, days mon and tue: as written shows today, corrected shows tomorrow |
| Commands.RepeatDisplay | src/commands.ts:452-476 | corrected: the day is the corrected list offset ahead of today; the reminder's hour and minute roll over into later hours and days as luxon's `set` does ("23:75" shows 00:15 the next day); a valid clock shows unchanged on that day |
| Commands.ListOffsetAttained | src/commands.ts:457-476 | some listed day attains the list offset |
| Commands.RepeatDisplayShowsListedDay | src/commands.ts:452-476 | for a clock below 24:00 the weekday shown is one of the reminder's days |
| Commands.ListLine | src/commands.ts:444-488 | corrected day: a repeating reminder shows its display; a one-off one its run date's weekday and clock while that is ahead, else expired |
| Commands.ActiveIn | src/commands.ts:435 | `getAll({ channel_id, active: true })`: exactly the channel's active reminders |
| Commands.ListLines | src/commands.ts:444-489 | one line per reminder, in order |
| Commands.ActiveInWellFormed | src/commands.ts:435 | the listed reminders all passed the add checks |
| Commands.ReminderListReply | src/commands.ts:434-496 | corrected day: "none" exactly when the channel has no active reminder; else the list lines of the channel's active reminders, in storage order |
| Commands.PlanReminder | src/commands.ts:328-408 | an add is accepted exactly when the time is "HH:mm" with minutes a multiple of five, the requested days are known, the named prompt resolves for the sender and no active reminder of it is in the channel; each rejection is the first check that fails, with its reply |
| Commands.RequestedDays | src/commands.ts:350-374 | the listed days when a prompt name follows them, else the default day for the time |
| Commands.RequestedName | src/commands.ts:350-374 | the prompt-name argument when present, else the days-or-prompt argument |
| Commands.AppendReminderKeepsWellFormed | src/commands.ts:401-425 | storing an accepted reminder keeps stored reminders valid and active names unique per channel |
| Commands.NewReminder | src/commands.ts:410-425 | the stored reminder carries the post, channel, prompt, time, days, creator and creation time of the request, is active with its repeat and history flags, and runs at the computed next run, never before now |
| Commands.PromptStep | src/commands.ts:144-215 | only prompts change; save succeeds exactly for a known type and a name neither stored nor built in, storing the parsed type, and a bad type is refused first; delete succeeds exactly for the creator of a stored prompt that is not built in |
| Commands.PromptStepKeepsValid | src/commands.ts:144-215 | every `!prompt` request keeps the store invariant |
| Commands.PromptSaveThenDelete | src/commands.ts:144-215 | save then get shows the prompt to its creator; save then delete restores the store |
| Commands.InheritedNameIsBuiltIn | src/commands.ts:153-205 | `toString` cannot be saved (it exists) or deleted (undeletable), and `!prompt get valueOf` shows its native-code text |
| Commands.FaqStep | src/commands.ts:540-610 | only FAQs and their index change; add succeeds exactly for a new name, delete exactly for a stored one, each updating both together; every other request changes nothing |
| Commands.FaqStepKeepsValid | src/commands.ts:540-610 | every `!faq` request keeps the FAQs and the search index in step |
| Commands.FaqAddThenDelete | src/commands.ts:544-587 | adding a new FAQ succeeds and stores it; deleting it then succeeds and restores the store |
| Commands.Stores.constructor | src/botservice.ts:348-352 | the collections start empty and valid |
| Commands.GuardStep | src/commands.ts:61-122 | only channels change; set always succeeds and installs an active guard by the sender; delete succeeds exactly for the creator of an existing guard; list answers no guards exactly when none is active |
| Commands.GuardStepKeepsValid | src/commands.ts:61-122 | every guard request keeps the store invariant |
| Commands.GuardSetThenDelete | src/commands.ts:61-122 | setting a guard on an unguarded channel and deleting it as its creator restores the store |
| Commands.Stores.ContentGuard | src/commands.ts:61-122 | set upserts a guard owned by the sender; list shows the active guards; delete only by the creator, else nothing changes; the new state and reply are `GuardStep`'s |
| Commands.Stores.PromptCommand | src/commands.ts:123-222 | the parsed request applied as `PromptStep` says |
| Commands.Stores.ApplyPrompt | src/commands.ts:144-215 | new state and reply are those of `PromptStep` |
| Commands.ScheduleStep | src/commands.ts:232-299 | only the scheduled list changes; scheduling succeeds exactly for a named prompt the sender may use in a thread not yet scheduled this Moscow day, appending one entry; an already-scheduled refusal has a same-day entry of that thread behind it |
| Commands.ScheduleStepKeepsValid | src/commands.ts:232-299 | every request keeps at most one entry per thread per Moscow day |
| Commands.ScheduleOncePerDay | src/commands.ts:264-299 | a second request in the same thread at the same instant is refused with the first prompt's name and changes nothing |
| Commands.Stores.SchedulePrompt | src/commands.ts:232-299 | refusals in order (no name, no thread, unknown prompt, already scheduled today) change nothing; otherwise one entry appended with run date and creation time now; the new state and reply are `ScheduleStep`'s |
| Commands.Stores.AddReminderCommand | src/commands.ts:328-430 | a rejected plan changes nothing; an accepted one appends exactly the new reminder |
| Commands.Stores.DeactivateReminder | src/commands.ts:499-517 | delete only clears `active` on the channel's active reminder of that name; the record stays |
| Commands.Stores.ReminderCommand | src/commands.ts:314-523 | refused inside a thread; add, list (with the corrected next day) and delete as above; anything else changes nothing |
| Commands.Stores.FaqCommand | src/commands.ts:536-620 | the parsed request applied as `FaqStep` says |
| Commands.Stores.ApplyFaq | src/commands.ts:542-620 | new state and reply are those of `FaqStep` |
| Dispatch.BotHelp | src/botservice.ts:63-76 | the dispatcher's `!help`: one entry per command, direct-message marking exactly for type 'D' |
| Dispatch.FindCommand | src/botservice.ts:366 | `COMMANDS[token]`: an entry with that name, none exactly when no entry has it |
| Dispatch.ScheduleNameFromPost | src/botservice.ts:249 | the third word of the raw message |
| Dispatch.ScheduleNameNeedsMention | src/botservice.ts:249 | with the mention first the third word is the name; without it the name is missing |
| Dispatch.IsMessageIgnored | src/botservice.ts:479-501 | ignored exactly for a broadcast, the bot's own post, or a post without a mention that is top-level or outside a direct channel |
| Dispatch.Broadcast | src/botservice.ts:484-488 | the message contains `@here`, `@channel` or `@everyone` |
| Dispatch.ConfigFrom | src/botservice.ts:322-325 | the name and instructions default exactly when the variable is unset or empty |
| Dispatch.DefaultInstructions | src/botservice.ts:369 | "Your name is " followed by the bot's name, ". " and the configured instructions |
| Dispatch.LookBack | src/botservice.ts:434-438 | seven days exactly in direct-message channels, undefined elsewhere |
| Dispatch.CommandToken | src/botservice.ts:365-366 | the first word of the message once the mention is removed and the text trimmed |
| Dispatch.Guarded | src/botservice.ts:375 | the channel has a guard with validation on, the post is top-level and not the bot's own |
| Dispatch.PromptRoute | src/botservice.ts:369-428 | a resolved prompt's text followed by exactly the rest of the message after the second word, no functions; else the default instructions with functions |
| Dispatch.RouteMessage | src/botservice.ts:355-440 | a command route names a table command; an ask carries the channel's look-back; the precedence is in `Dispatch.NotLiveIgnored`, `Dispatch.GuardFirst`, `Dispatch.UnguardedCommandRuns`, `Dispatch.WrongChannelNotRun` and `Dispatch.BroadcastIgnored` |
| Dispatch.GuardFirst | src/botservice.ts:375-377 | a guarded post goes to the guard's prompt, without functions, before any command |
| Dispatch.NotLiveIgnored | src/botservice.ts:355-358 | an event that is not a post, a missing bot id or a join notice is ignored |
| Dispatch.UnguardedCommandRuns | src/botservice.ts:375-378 | an unguarded post whose first word names a command of its channel type runs it, mentioned or not |
| Dispatch.WrongChannelNotRun | src/botservice.ts:378-430 | a command in the wrong channel type is not run; the post goes to the ignore filter and the prompt route |
| Dispatch.OwnPostsNotAsked | src/botservice.ts:492-494 | the bot's own posts are never sent to the model |
| Dispatch.BroadcastIgnored | src/botservice.ts:484-490 | an unguarded broadcast that is not a command is ignored, mentioned or not |
| Dispatch.PromptRouteResolves | src/botservice.ts:410-428 | the dispatcher substitutes the prompt the commands would resolve for the same sender |
| Dispatch.GuardSetTakesEffect | src/commands.ts:70-86 | after a guard is set, a top-level post there by anyone but the bot goes to the guard's prompt |
| Dispatch.GuardDeleteLiftsIt | src/commands.ts:102-115 | a delete by the guard's creator succeeds, and the channel's posts are then routed as if no channel had a guard |
| Dispatch.ReplyRoot | src/botservice.ts:392 | `root_id \|\| id`: the thread root, or the post itself when top-level |
| Dispatch.OnClientMessage | src/botservice.ts:347-469 | ignores and model requests change nothing; a command posts its reply or the apology and changes only its own collection; unless the handler throws, the stores become the command's step result (`GuardStep`, `PromptStep`, `ScheduleStep`) and a posted reply is that step's reply |
| Posts.ContextWindow | src/utils/posts.ts:7-18 | `slice(-count)`: the last `min(count, n)` posts for a positive count, all posts for 0, posts dropped from the front for a negative count |
| Posts.GroupIndex | src/utils/posts.ts:43 | the position of the emoji's group, the first one carrying it, or the end |
| Posts.Grouped | src/utils/posts.ts:38-45 | the groups after adding the reactions one at a time in order |
| Posts.UsersForAbsent | src/utils/posts.ts:40-45 | an emoji nobody used has no reactors |
| Posts.GroupedEmojis | src/utils/posts.ts:38-45 | the groups carry distinct emojis, exactly the emojis used |
| Posts.GroupedUsers | src/utils/posts.ts:38-45 | each group lists, in reaction order, every user of its emoji, and is never empty |
| Posts.GroupReactions | src/utils/posts.ts:38-45 | the grouping loop computes the grouping function |
| Posts.IsArrayIndex | src/utils/posts.ts:49 | a key `Object.entries` lists first: the canonical decimal form of an integer below 2^32 - 1 |
| Posts.SortByIndex | src/utils/posts.ts:49 | the array-index groups rearranged into ascending numeric order |
| Posts.Entries | src/utils/posts.ts:49 | `Object.entries(grouped)`: a rearrangement of the groups with the array-index emojis first in ascending numeric order, then the others in insertion order |
| Posts.EntriesInsertionOrder | src/utils/posts.ts:49 | without an array-index emoji the entries keep insertion order |
| Posts.EntriesPutsIndexFirst | src/utils/posts.ts:49 | groups added as `thumbsup` then `100` are listed `100` first |
| Posts.ReactionText | src/utils/posts.ts:47-52 | the reactions part: a header, then one line per group in `Object.entries` order |
| Posts.TrimmedPart | src/utils/posts.ts:25-32 | a part exactly when the trimmed text is non-empty, and then it is that text |
| Posts.AttachmentParts | src/utils/posts.ts:24-29 | at most two parts per attachment |
| Posts.AttachmentPartsNonEmpty | src/utils/posts.ts:25-28 | no attachment part is empty |
| Posts.PostParts | src/utils/posts.ts:21-53 | the parts of one post (their shape is `Posts.PostPartsShape`) |
| Posts.PostPartsShape | src/utils/posts.ts:23-53 | an attachment post's parts or the trimmed message, then one reactions part exactly when there are reactions |
| Posts.PartsOfAttachment | src/utils/posts.ts:25-28 | the loop body adds the title part, then the text part |
| Posts.CollectAttachmentParts | src/utils/posts.ts:24-29 | the attachment loop computes the attachment parts |
| Posts.CollectBodyParts | src/utils/posts.ts:23-33 | the attachment loop, or the trimmed message when there is one, computes the parts before the reactions |
| Posts.BuildParts | src/utils/posts.ts:21-53 | the loop body builds exactly the post's parts |
| Posts.MessageFor | src/utils/posts.ts:55-69 | the loop body pushes the rendered message for the post |
| Posts.MessageOf | src/utils/posts.ts:55-69 | one rendered message: assistant for the bot's posts, user with name and date otherwise (see `Posts.MessageRoles`) |
| Posts.ConversationSnoc | src/utils/posts.ts:18-69 | one more post appends its rendered message |
| Posts.GetChatMessagesByPosts | src/utils/posts.ts:9-73 | the builder returns the conversation for the post window |
| Posts.ChatMessages | src/utils/posts.ts:9-73 | the system message, then the rendered messages of the context window (see `Posts.ConversationFollows`) |
| Posts.ConversationFollows | src/utils/posts.ts:10-18 | the system message of the instructions comes first, then one message per post in order |
| Posts.EmptyThreadIsInstructionsOnly | src/crons.ts:121 | with no posts the conversation is the system message alone |
| Posts.ZeroCountKeepsWholeThread | src/utils/posts.ts:7-18 | a count of 0 keeps every post |
| Posts.MessageRoles | src/utils/posts.ts:55-69 | a message is assistant exactly for the bot's own posts and never system; a user message has a name exactly when its author's record has a username, and its text starts with the date and a space |
| Posts.PlainPostMessage | src/utils/posts.ts:21-69 | a post without attachments or reactions renders as its trimmed text, after the date for anyone but the bot |
| Calendar.Simplify | src/requests/my_team.ts:25-30 | date, `Number(count)`, type name and status name of the absence |
| Calendar.TodayAbsences | src/requests/my_team.ts:23-30 | kept absences are all dated today, never more than given, none exactly when none is dated today |
| Calendar.TodayAbsencesConcat | src/requests/my_team.ts:23-24 | filtering distributes over concatenation, keeping order |
| Calendar.TodayAbsencesSingle | src/requests/my_team.ts:24-30 | one absence is kept, simplified, exactly when dated today |
| Calendar.KeptAbsenceSource | src/requests/my_team.ts:23-30 | every kept absence is the simplified form of an absence dated today, in input order |
| Calendar.TodayAbsenceKept | src/requests/my_team.ts:23-30 | every absence dated today is kept |
| Calendar.SimplifyCalendarData | src/requests/my_team.ts:18-40 | never more users than given, each kept user has absences, all dated today |
| Calendar.SimplifyConcat | src/requests/my_team.ts:21-39 | users are processed independently and in order |
| Calendar.SimplifySingle | src/requests/my_team.ts:32-39 | a user is dropped exactly when no absence is dated today, else kept with today's absences |
| Crons.RunSweep | src/crons.ts:48-85 | one pass over the records: one result per record, at most one post per record |
| Crons.SweepPointwise | src/crons.ts:48-85 | each record ends untouched or as its own step left it |
| Crons.SweepCompletes | src/crons.ts:48-85 | without an uncaught failure the pass reaches the end, applying every step |
| Crons.SweepIdle | src/crons.ts:59-62 | when no record calls for anything nothing is posted or changed |
| Crons.SweepStaysAborted | src/crons.ts:64-66 | after an uncaught failure the later records are untouched and nothing more is posted |
| Crons.SweepExtend | src/crons.ts:48-85 | one more record runs that record's step |
| Crons.DailyStep | src/crons.ts:49-82 | skip when not due or unresolved; a completion failure aborts; a post only after completion; finished with `finished_at` only after post and update succeed |
| Crons.DueToday | src/crons.ts:36-45 | the entry's run date lies in today's Moscow window and it is not finished |
| Crons.DailySweep | src/crons.ts:48-85 | the end-of-day sweep is the left fold of the daily step over the entries |
| Crons.DailySweepOnlyFinishes | src/crons.ts:68-79 | the sweep changes an entry only by marking it finished, and only a selected one |
| Crons.DailySweepSucceeds | src/crons.ts:41-82 | when every call succeeds, every entry due today with a resolvable prompt ends finished |
| Crons.DailySweepIdle | src/crons.ts:41-62 | with nothing due and resolvable nothing is posted or changed |
| Crons.DailySweepKeepsValid | src/crons.ts:76-79 | the store invariant survives the sweep |
| Crons.ProcessEntry | src/crons.ts:49-82 | the loop body computes the daily step |
| Crons.SweepScheduled | src/crons.ts:48-85 | the loop computes the daily sweep |
| Crons.RunDailySweep | src/crons.ts:25-88 | on the stores only the scheduled entries change, to the sweep's result |
| Crons.ResolveReminderAsWritten | src/crons.ts:104-112 | as written: a built-in, or a public stored prompt; a private prompt never resolves |
| Crons.ResolveReminder | src/crons.ts:104-112 | corrected: the creator's lookup agrees with the as-written one wherever that one finds a prompt |
| Crons.ReminderDueAsWritten | src/crons.ts:97-99 | as written: active, with time equal to the current Moscow "HH:mm" |
| Crons.ReminderDue | src/crons.ts:97-99 | corrected: as written, and today is one of the reminder's days |
| Crons.ReminderSweep | src/crons.ts:103-143 | the five-minute sweep is the left fold of the reminder step over the reminders |
| Crons.ReminderStep | src/crons.ts:97-140 | skip when not due or unresolved; a completion failure aborts; the post goes to the channel; a one-shot reminder is deactivated with `finished_at` only after post and update succeed |
| Crons.ReminderSweepOnlyDeactivates | src/crons.ts:132-137 | the sweep changes a reminder only by deactivating it, and only a one-shot one |
| Crons.ReminderSweepSucceeds | src/crons.ts:99-140 | when every call succeeds, every due one-shot reminder with a resolvable prompt ends inactive |
| Crons.ReminderSweepKeepsValid | src/crons.ts:132-137 | the store invariant survives the sweep |
| Crons.DaysIgnoredAsWritten | src/crons.ts:97-99 | as written, an active reminder for one weekday is selected on every other weekday at its time |
| Crons.PrivatePromptSkippedAsWritten | src/crons.ts:104-112 | as written, a reminder on its creator's private prompt never resolves; the creator's lookup finds it |
| Crons.ProcessReminder | src/crons.ts:104-140 | the loop body computes the reminder step |
| Crons.SweepReminders | src/crons.ts:103-143 | the loop computes the reminder sweep |
| Crons.RunReminderSweep | src/crons.ts:91-146 | on the stores only the reminders change, to the sweep's result |

## Left out

- The Mattermost client, the websocket, the typing indicator and its interval, the model call (`continueThread`), the plugins and logging. The dispatcher's result says what would be posted or asked. A command's reply and the apology are outcomes, not posts.
- The Russian wording and layout of every reply. A reply is a `Commands.Reply` value carrying the data it shows.
- The FAQ search (`queryData`, `addTextById`, `deleteById`). The index is a map from FAQ name to text, updated with the FAQs; a question's answer is not modelled.
- The storage adapters. A query is modelled by its meaning on in-memory values. Lists of map-backed collections are sets, because storage order is not modelled there.
- Posts.NameOf: the model's name lookup never fails. In the code `userIdToName` (`src/mm-client.ts:108-133`) awaits `getUser`, which rejects for an unknown user or an unreachable server. Nothing in `getChatMessagesByPosts` catches that (`src/utils/posts.ts:42`, `src/utils/posts.ts:66`), so the whole builder rejects and no conversation is built; in the sweeps this is an `Attempt` whose `completionOk` is false. An id missing from `names` stands only for a user record without a username: the code then gets `undefined`, which gives a user message without a name, and which `?? r.user_id` replaces by the id for a reactor (`Posts.ReactorName`).
- Posts.GroupReactions: `Promise.all` in reaction grouping runs the name lookups concurrently, and each reaction is added when its lookup completes. The model groups in reaction order, as if each lookup finished before the next began.
- Posts.Grouped: an emoji named after an `Object.prototype` member (`constructor`, `toString`, `__proto__`, ...) makes `grouped[emoji]` an inherited value without `push`, and the code throws. The model groups such an emoji like any other.
- Crons.DailyStep and Crons.ReminderStep: for a prompt name that is an inherited `Object.prototype` member, the code passes the member itself (a function, or the prototype object) as the instructions. The model passes its text, as the dispatcher's concatenation and `!prompt get` produce it.
- Commands.DefaultDays: `toFormat('ccc')` gives the English short day name only when the process's default locale is English (`src/commands.ts:360`). The model assumes it is; under another locale the default day fails the day-name check.
- Posts.ContextWindow: `Number(process.env.BOT_CONTEXT_MSG ?? 2500)` is taken to be an integer (`src/utils/posts.ts:7`). A value that is not a number gives NaN, and `slice(-NaN)` keeps every post, like 0. A fractional value is truncated toward zero by `slice`. Neither case is modelled.
- Commands.RepeatDisplay: shows the corrected day of the third finding. A slot already passed today is listed a week ahead; the code lists it as today (`Commands.ListOffsetAsWritten` is the code's offset).
- Commands.ListLine: lists the corrected day, through `Commands.RepeatDisplay`.
- Commands.ReminderListReply: lists the corrected day, through `Commands.ListLine`.
- Commands.Stores.ReminderCommand: `!reminder list` replies with the corrected day, through `Commands.ReminderListReply`.
- Crons.ReminderSweep: uses the corrected selection (`Crons.ReminderDue`) and prompt lookup (`Crons.ResolveReminder`) of the first two findings. The code selects on time alone (`Crons.ReminderDueAsWritten`) and looks private prompts up by a missing field (`Crons.ResolveReminderAsWritten`).
- The texts of the built-in prompts (`src/summary.ts` is not part of this model). Non-empty stand-ins take their place.
- Each handler reads the clock once (`now`). The code reads it separately for the Moscow window and the stored time, which can differ by milliseconds.
- Luxon's time zones: Moscow is fixed at UTC+3. The conversation date format is a parameter, and so is the display-name lookup (see the Posts.NameOf line).
- `Number(abs.count)` in `src/requests/my_team.ts` is a parameter whose result type stands for JavaScript numbers, NaN included.
- The login, cookie and cache code of `src/requests/my_team.ts`.
- The `withHistory` flag is stored but never used by the code.
- The context of the end-of-day `continueThread` call reads the entry list's `channel_id` instead of the entry's (`src/crons.ts:66`). It only reaches the model call, which is outside the model.
- The thread history `getOlderThreadPosts` fetches for the end-of-day sweep. A `Crons.SweepPost` records the channel, thread and instructions of a post, not the model's answer.
- Crons.RunDailySweep: the loop updates each finished entry in the store as it goes. The model computes the new collection first and writes it once. The final state is the same; only a concurrent writer could see the difference, and none is modelled.
- Crons.RunReminderSweep: writes the reminders once at the end, as for the daily sweep.
- Dispatch.OnClientMessage: `handlerThrows` stands for a command handler failing before it changes anything. A failure part-way through a handler is not modelled.
- JsString.ToLower: lower-cases ASCII letters only. This is exact for every comparison the code makes: the day names (`src/commands.ts:353`) and the visibility word (`src/commands.ts:145`, `src/botservice.ts:162`). The only non-ASCII character that lower-cases to a single ASCII letter is the Kelvin sign, which becomes `k`, and no compared word contains `k`. Dotted capital I lower-cases to two characters and matches no compared word either way. The bad-days reply does not echo the input.
- Dispatch.RouteMessage: the `channel_display_name` lookup returns at most one guard per name, as the guard map does.
- Commands.Stores.ReminderCommand and Commands.Stores.FaqCommand are not run from chat messages, because the dispatcher's table has neither (see above); they are modelled as the handlers of `src/commands.ts`.

## Findings

| source | as written | input that shows it | evidently intended | confidence | as-written member | corrected member |
|---|---|---|---|---|---|---|
| src/crons.ts:97-99 | the five-minute sweep selects every active reminder whose `time` is the current Moscow "HH:mm", whatever its days | an active reminder with days `["mon"]` at "09:00", on a Tuesday at 09:00 Moscow time: it is posted | post only on the reminder's days | high, not executed | Crons.DaysIgnoredAsWritten | Crons.ReminderStep |
| src/crons.ts:104-112 | the prompt lookup filters private prompts by `entry.sender_name`, a field reminders do not have (they store `created_by`) | a reminder on its creator's private prompt, which `!reminder add` accepted: the lookup finds nothing and the reminder is silently skipped | look up with the reminder's creator, as `!reminder add` validated it | medium, not executed; assumes the MongoDB driver's default, which sends an `undefined` filter value as null, so only records without a creator match | Crons.PrivatePromptSkippedAsWritten | Crons.ResolveReminder |
| src/commands.ts:462-472 | `!reminder list` gives today's slot offset 0 whether or not its time has passed: both branches return the same date | Monday 10:00 Moscow time, a repeating reminder on mon and tue at 09:00: the list shows Monday, already passed, instead of Tuesday | a slot already passed today moves a week ahead, so a later day is shown | high, not executed | Commands.ListOffsetPassedSlot | Commands.ListOffsetCorrects |
