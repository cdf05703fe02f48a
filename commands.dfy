/**
 * The chat commands of `src/commands.ts`: the command table and `!help`, and
 * the handlers of `!content_guard`, `!prompt`, `!schedule_prompt`,
 * `!reminder` and `!faq`, run against the bot's collections.
 *
 * `Stores` holds the collections the handlers read and write. Collections
 * that keep one record per key (channel guards by channel display name,
 * prompts and FAQs by name) are maps; scheduled prompts and reminders, where
 * several records may share a key, are sequences in storage order. The FAQ
 * search index is a map from FAQ name to the indexed text.
 *
 * A handler's reply is the `Reply` value naming which message it sends and
 * the data it shows; the Russian wording of the messages is not modelled.
 */
module Commands {
  import opened JsString
  import opened Tokenizer
  import opened Schedule
  import opened Records

  // ---------------------------------------------------------------------------
  // The command table and `!help`

  datatype CommandSpec = CommandSpec(name: string, channelTypes: seq<string>)

  /** `COMMANDS` with each entry's `channel_type` list ('D' direct message,
      'O' public channel, 'P' private channel). */
  const COMMANDS: seq<CommandSpec> := [
    CommandSpec("!help", ["D"]),
    CommandSpec("!content_guard", ["D"]),
    CommandSpec("!prompt", ["D"]),
    CommandSpec("!schedule_prompt", ["O", "P"]),
    CommandSpec("!reminder", ["O", "P"]),
    CommandSpec("!faq", ["O", "P", "D"])
  ]

  /** One paragraph of the help text: the command and where it is available. */
  datatype HelpEntry = HelpEntry(command: string, inDirectMessages: bool)

  /** `!help`: one entry per command, in table order, marked as available in
      direct messages exactly when its channel types include 'D'. */
  function Help(table: seq<CommandSpec>): (r: seq<HelpEntry>)
    ensures |r| == |table|
    ensures forall i :: 0 <= i < |r| ==>
      r[i].command == table[i].name && (r[i].inDirectMessages <==> "D" in table[i].channelTypes)
  {
    if |table| == 0 then []
    else [HelpEntry(table[0].name, "D" in table[0].channelTypes)] + Help(table[1..])
  }

  // ---------------------------------------------------------------------------
  // Replies

  /** What `!reminder list` shows as a reminder's next run. */
  datatype NextDisplay = NextAt(weekday: nat, hour: int, minute: int) | Expired

  datatype ReminderLine = ReminderLine(
    promptName: string, time: string, repeat: bool, days: seq<string>, next: NextDisplay)

  datatype Reply =
    | HelpText(entries: seq<HelpEntry>)
    | BadFormat
    // !content_guard
    | GuardSet(channel: string, prompt: string, addedBy: string)
    | NoGuards
    | GuardList(guards: set<ChannelGuard>)
    | GuardNotFound(channel: string)
    | GuardNotOwner
    | GuardDeleted(channel: string)
    // !prompt
    | PromptBadType
    | PromptExists(name: string)
    | PromptSaved(name: string, kind: Visibility, author: string)
    | NoPrompts
    | PromptList(prompts: set<Prompt>)
    | BuiltInShown(name: string, text: string)
    | PromptShown(shown: Prompt)
    | PromptNotFound(name: string)
    | PromptNoAccess
    | PromptUndeletable
    | PromptNotOwner
    | PromptDeleted(name: string)
    // !schedule_prompt
    | ScheduleNeedsName
    | ScheduleNeedsThread
    | UnknownPrompt(requested: Option<string>)
    | AlreadyScheduled(promptName: string)
    | Scheduled(promptName: string)
    // !reminder
    | ReminderNotInChannelRoot
    | BadTime
    | TimeNotMultipleOfFive
    | BadDays
    | ReminderExists(name: string)
    | ReminderSet(name: string, time: string, repeat: bool)
    | NoReminders
    | ReminderList(lines: seq<ReminderLine>)
    | ReminderNotFound(name: string)
    | ReminderDeleted(name: string)
    // !faq
    | FaqExists(name: string)
    | FaqAdded(name: string)
    | FaqNotFound(name: string)
    | FaqDeleted(name: string)
    | FaqEmpty
    | FaqList(names: set<string>)
    | FaqAnswer(request: Option<string>)

  // ---------------------------------------------------------------------------
  // Argument parsing

  /** Splitting the join of `length + 1` fields whose leading fields hold no
      space gives the fields back: the shape every handler's parse relies on. */
  lemma SplitFields(fields: seq<string>, length: nat)
    requires |fields| == length + 1
    requires forall i :: 0 <= i < length ==> ' ' !in fields[i]
    ensures Split(Join(fields, ' '), ' ', length) == fields
  {
    SplitUnique(Join(fields, ' '), ' ', length, fields);
  }

  datatype GuardRequest = SetGuard(channel: string, prompt: string) | ListGuards | DeleteGuard(channel: string) | BadGuardRequest

  /** `const [, action, channel_name, prompt] = split(message, ' ', 3)` and
      the three guarded branches. */
  function ParseGuardRequest(message: string): GuardRequest
  {
    var p := Split(message, ' ', 3);
    var action, channel, prompt := Field(p, 1), Field(p, 2), Field(p, 3);
    if action == Some("set") && Truthy(channel) && Truthy(prompt) then SetGuard(channel.value, prompt.value)
    else if action == Some("list") then ListGuards
    else if action == Some("delete") && Truthy(channel) then DeleteGuard(channel.value)
    else BadGuardRequest
  }

  /** The guard prompt is everything after the channel name, spaces included. */
  lemma ParseGuardSet(command: string, channel: string, prompt: string)
    requires ' ' !in command && ' ' !in channel && channel != "" && prompt != ""
    ensures ParseGuardRequest(Join([command, "set", channel, prompt], ' ')) == SetGuard(channel, prompt)
  {
    SplitFields([command, "set", channel, prompt], 3);
  }

  datatype PromptRequest =
    | SavePrompt(typeText: string, name: string, text: string)
    | ListPrompts
    | GetPrompt(name: string)
    | DeletePrompt(name: string)
    | BadPromptRequest

  /** `const [, action, typeOrName, nameOrText, promptText] = split(message, ' ', 4)`. */
  function ParsePromptRequest(message: string): (r: PromptRequest)
    ensures r.SavePrompt? ==> r.typeText != "" && r.name != "" && r.text != ""
  {
    var p := Split(message, ' ', 4);
    var action, typeOrName, nameOrText, text := Field(p, 1), Field(p, 2), Field(p, 3), Field(p, 4);
    if action == Some("save") && Truthy(typeOrName) && Truthy(nameOrText) && Truthy(text) then
      SavePrompt(typeOrName.value, nameOrText.value, text.value)
    else if action == Some("list") then ListPrompts
    else if action == Some("get") && Truthy(typeOrName) then GetPrompt(typeOrName.value)
    else if action == Some("delete") && Truthy(typeOrName) then DeletePrompt(typeOrName.value)
    else BadPromptRequest
  }

  /** A saved prompt's text is everything after its name, spaces included. */
  lemma ParsePromptSave(command: string, kind: string, name: string, text: string)
    requires ' ' !in command && ' ' !in kind && ' ' !in name
    requires kind != "" && name != "" && text != ""
    ensures ParsePromptRequest(Join([command, "save", kind, name, text], ' ')) == SavePrompt(kind, name, text)
  {
    SplitFields([command, "save", kind, name, text], 4);
  }

  /** The lower-cased `type` must be `public` or `private`. */
  function ParseVisibility(typeText: string): (r: Option<Visibility>)
    ensures r == Some(Public) <==> ToLower(typeText) == "public"
    ensures r == Some(Private) <==> ToLower(typeText) == "private"
  {
    var t := ToLower(typeText);
    if t == "public" then Some(Public) else if t == "private" then Some(Private) else None
  }

  /** The type word is read case-insensitively: lower-casing it first
      changes nothing. */
  lemma VisibilityIgnoresCase(typeText: string)
    ensures ParseVisibility(ToLower(typeText)) == ParseVisibility(typeText)
  {
    ToLowerIdempotent(typeText);
  }

  /** Mixed-case type words are accepted, others refused. */
  lemma VisibilityExamples()
    ensures ParseVisibility("PRIVATE") == Some(Private)
    ensures ParseVisibility("internal") == None
  {
    assert ToLower("PRIVATE") == "private";
  }

  /** The text `!schedule_prompt`, `!reminder` and the dispatcher parse: the
      message with the first `@botName` removed, then trimmed. */
  function StripMention(message: string, botName: string): string
  {
    Trim(ReplaceFirst(message, "@" + botName, ""))
  }

  /** `const [, promptName] = split(stripped, ' ', 1)`: everything after the
      first space of the stripped message. */
  function ScheduleNameFromCommand(message: string, botName: string): (r: Option<string>)
  {
    Field(Split(StripMention(message, botName), ' ', 1), 1)
  }

  /** `!schedule_prompt` names the prompt by the whole rest of the message, so
      a trailing word becomes part of the name. */
  lemma ScheduleNameKeepsRest(command: string, rest: string)
    requires ' ' !in command
    ensures Field(Split(Join([command, rest], ' '), ' ', 1), 1) == Some(rest)
  {
    SplitFields([command, rest], 1);
  }

  datatype ReminderRequest =
    | AddReminder(time: string, repeatWord: string, daysOrPrompt: Option<string>,
                  withHistory: Option<string>, promptName: Option<string>)
    | ListReminders
    | DeleteReminder(name: string)
    | BadReminderRequest

  /** `const [, action, timeOrName, repeatOrPrompt, daysOrPrompt, withHistory,
      promptName] = split(stripped, ' ', 6)`. */
  function ParseReminderRequest(stripped: string): (r: ReminderRequest)
    ensures r.AddReminder? && r.promptName.Some? ==> r.daysOrPrompt.Some? && r.withHistory.Some?
  {
    var p := Split(stripped, ' ', 6);
    var action, timeOrName, repeatOrPrompt := Field(p, 1), Field(p, 2), Field(p, 3);
    if action == Some("add") && Truthy(timeOrName) && Truthy(repeatOrPrompt) then
      AddReminder(timeOrName.value, repeatOrPrompt.value, Field(p, 4), Field(p, 5), Field(p, 6))
    else if action == Some("list") then ListReminders
    else if action == Some("delete") && Truthy(timeOrName) then DeleteReminder(timeOrName.value)
    else BadReminderRequest
  }

  datatype FaqRequest = FaqAdd(name: string, text: string) | FaqDelete(name: string) | FaqListAll | FaqBadAction | FaqQuery(request: Option<string>)

  /** `const [, action, name, text] = split(message, ' ', 3)`; an action other
      than add/delete/list makes the whole rest of the message a search query. */
  function ParseFaqRequest(message: string): FaqRequest
  {
    var p := Split(message, ' ', 3);
    var action, name, text := Field(p, 1), Field(p, 2), Field(p, 3);
    if action == Some("add") || action == Some("delete") || action == Some("list") then
      if action == Some("add") && Truthy(name) && Truthy(text) then FaqAdd(name.value, text.value)
      else if action == Some("delete") && Truthy(name) then FaqDelete(name.value)
      else if action == Some("list") then FaqListAll
      else FaqBadAction
    else FaqQuery(Field(Split(message, ' ', 1), 1))
  }

  /** The action field of `command question` is the question's first word. */
  lemma SecondField(command: string, question: string)
    requires ' ' !in command
    ensures Field(Split(Join([command, question], ' '), ' ', 3), 1) == Some(SplitAll(question, ' ')[0])
  {
    var m := Join([command, question], ' ');
    assert [command, question][1..] == [question];
    assert Join([question], ' ') == question;
    assert m == command + [' '] + question;
    assert m == command + ([' '] + question);
    SplitAllPrefix(command, question, ' ');
    var pieces := SplitAll(m, ' ');
    if |pieces| > 3 { SplitLong(m, ' ', 3); } else { SplitShort(m, ' ', 3); }
  }

  /** A question is passed to the search whole, spaces included, unless its
      first word is one of the actions. */
  lemma ParseFaqQuery(command: string, question: string)
    requires ' ' !in command
    requires SplitAll(question, ' ')[0] !in ["add", "delete", "list"]
    ensures ParseFaqRequest(Join([command, question], ' ')) == FaqQuery(Some(question))
  {
    SplitFields([command, question], 1);
    SecondField(command, question);
  }

  // ---------------------------------------------------------------------------
  // Reminder days

  /** `daysOrPrompt.split(',').map(d => d.trim().toLowerCase())`. */
  function NormalizeDays(parts: seq<string>): (r: seq<string>)
    ensures |r| == |parts|
    ensures forall i :: 0 <= i < |r| ==> r[i] == ToLower(Trim(parts[i]))
  {
    if |parts| == 0 then [] else [ToLower(Trim(parts[0]))] + NormalizeDays(parts[1..])
  }

  /** The explicit day list: `all` anywhere in it means the working week. */
  function ExplicitDays(daysText: string): (r: seq<string>)
    ensures |r| >= 1
    ensures "all" in NormalizeDays(SplitAll(daysText, ',')) ==> r == WEEK_DAYS
    ensures "all" !in NormalizeDays(SplitAll(daysText, ',')) ==> r == NormalizeDays(SplitAll(daysText, ','))
  {
    var d := NormalizeDays(SplitAll(daysText, ','));
    if "all" in d then WEEK_DAYS else d
  }

  /** `WEEK_DAYS[(WEEK_DAYS.indexOf(today) + 1) % WEEK_DAYS.length]`: the
      working day after `today`, where a weekend day (index -1) counts as just
      before Monday. */
  function NextWorkingDay(today: string): string
  {
    WEEK_DAYS[(SeqIndexOf(WEEK_DAYS, today) + 1) % |WEEK_DAYS|]
  }

  /** Friday and the weekend roll to Monday. */
  lemma NextWorkingDayIsMonday(weekday: nat)
    requires weekday == 0 || weekday == 5 || weekday == 6
    ensures NextWorkingDay(ALL_DAYS[weekday]) == "mon"
  {
    if weekday == 0 {
      assert NextWorkingDay(ALL_DAYS[0]) == "mon";
    } else if weekday == 5 {
      assert NextWorkingDay(ALL_DAYS[5]) == "mon";
    } else {
      assert NextWorkingDay(ALL_DAYS[6]) == "mon";
    }
  }

  /** Monday to Thursday roll to the next day. */
  lemma NextWorkingDayIsTomorrow(weekday: nat)
    requires 1 <= weekday <= 4
    ensures NextWorkingDay(ALL_DAYS[weekday]) == ALL_DAYS[weekday + 1]
  {
    if weekday == 1 {
      assert NextWorkingDay(ALL_DAYS[1]) == ALL_DAYS[2];
    } else if weekday == 2 {
      assert NextWorkingDay(ALL_DAYS[2]) == ALL_DAYS[3];
    } else if weekday == 3 {
      assert NextWorkingDay(ALL_DAYS[3]) == ALL_DAYS[4];
    } else {
      assert NextWorkingDay(ALL_DAYS[4]) == ALL_DAYS[5];
    }
  }

  /** Without a day list: today if the Moscow clock `clock` has not passed
      the reminder time (string comparison), else the next working day.
      `weekday` is today's position in `ALL_DAYS`. */
  function DefaultDays(weekday: nat, clock: string, time: string): (r: seq<string>)
    requires weekday < 7
    ensures |r| == 1
    ensures StrLe(clock, time) ==> r == [ALL_DAYS[weekday]]
    ensures !StrLe(clock, time) ==> r == [NextWorkingDay(ALL_DAYS[weekday])]
  {
    var today := ALL_DAYS[weekday];
    if StrLe(clock, time) then [today]
    else [NextWorkingDay(today)]
  }

  /** Once the time has passed, Friday and the weekend roll to Monday, and
      Monday to Thursday roll to the next day. */
  lemma DefaultDaysAfterTime(weekday: nat, clock: string, time: string)
    requires weekday < 7 && !StrLe(clock, time)
    ensures DefaultDays(weekday, clock, time)
      == (if weekday == 0 || weekday == 5 || weekday == 6 then ["mon"] else [ALL_DAYS[weekday + 1]])
  {
    if weekday == 0 || weekday == 5 || weekday == 6 {
      NextWorkingDayIsMonday(weekday);
    } else {
      NextWorkingDayIsTomorrow(weekday);
    }
  }

  /** The default day list always passes the day-name validation. */
  lemma DefaultDaysAreKnown(weekday: nat, clock: string, time: string)
    requires weekday < 7
    ensures AllKnownDays(DefaultDays(weekday, clock, time))
  {
    if !StrLe(clock, time) {
      if weekday == 0 || weekday == 5 || weekday == 6 {
        NextWorkingDayIsMonday(weekday);
        assert ALL_DAYS[1] == "mon";
      } else {
        NextWorkingDayIsTomorrow(weekday);
      }
    }
  }

  /** A non-empty day list of real weekday names lets the next-run scan stop. */
  lemma DaysTerminate(time: string, days: seq<string>, now: int)
    requires IsHHMM(time)
    requires |days| >= 1 && forall i :: 0 <= i < |days| ==> days[i] in ALL_DAYS
    ensures ScanTerminates(time, days, now)
  {
    var i := DayIndex(days[0]);
    assert ALL_DAYS[i] in ActiveDays(days);
  }

  /** A default day list created before the reminder's time (a well-formed
      minute) makes the reminder run today. */
  lemma DefaultDaysRunToday(now: int, time: string)
    requires IsHHMM(time) && Minute(time) < 60
    requires StrLe(MskClock(now), time)
    ensures ScanTerminates(time, DefaultDays(MskWeekday(now), MskClock(now), time), now)
    ensures NextRunSpec(time, DefaultDays(MskWeekday(now), MskClock(now), time), now).dayOffset == 0
  {
    var days := DefaultDays(MskWeekday(now), MskClock(now), time);
    ClockComparisonAgrees(now, time);
    assert RunsToday(time, days, now);
    NextRunCases(time, days, now);
  }

  predicate AllKnownDays(days: seq<string>)
  {
    forall i :: 0 <= i < |days| ==> days[i] in ALL_DAYS
  }

  // ---------------------------------------------------------------------------
  // Store contents and their invariant

  datatype StoreState = StoreState(
    channels: map<string, ChannelGuard>,
    prompts: map<string, Prompt>,
    scheduled: seq<ScheduledEntry>,
    reminders: seq<Reminder>,
    faqs: map<string, Faq>,
    faqIndex: map<string, string>)

  /** `run_date` falls in the Moscow day containing `now`: the window
      `[mskMidnight, mskMidnight + 24h)`. */
  predicate InMskDay(runDate: int, now: int)
  {
    MskDayStart(now) <= runDate < MskDayStart(now) + DAY_MS
  }

  lemma FloorUnique(x: int, q: int)
    requires DAY_MS * q <= x < DAY_MS * q + DAY_MS
    ensures x / DAY_MS == q
  {
    var d := x / DAY_MS;
    assert x == DAY_MS * d + x % DAY_MS;
  }

  /** Falling in the window of `now` is the same as sharing its Moscow day. */
  lemma InMskDaySameDay(runDate: int, now: int)
    ensures InMskDay(runDate, now) <==> MskDayStart(runDate) == MskDayStart(now)
  {
    var a, t := LocalMs(runDate), LocalMs(now);
    assert MskDayStart(runDate) + MSK_OFFSET_MS == DAY_MS * (a / DAY_MS);
    assert MskDayStart(now) + MSK_OFFSET_MS == DAY_MS * (t / DAY_MS);
    if InMskDay(runDate, now) {
      FloorUnique(a, t / DAY_MS);
    }
  }

  /** At most one scheduled prompt per thread per Moscow day. */
  predicate OnePerThreadPerDay(s: seq<ScheduledEntry>)
  {
    forall i, j :: 0 <= i < j < |s| && s[i].threadId == s[j].threadId
      ==> MskDayStart(s[i].runDate) != MskDayStart(s[j].runDate)
  }

  /** Every stored reminder passed `!reminder add`'s checks, and no two active
      reminders share a prompt name in one channel. */
  predicate RemindersWellFormed(rs: seq<Reminder>)
  {
    (forall i :: 0 <= i < |rs| ==>
      IsHHMM(rs[i].time) && Minute(rs[i].time) % 5 == 0
      && |rs[i].days| >= 1 && AllKnownDays(rs[i].days))
    && (forall i, j :: 0 <= i < j < |rs| && rs[i].active && rs[j].active && rs[i].channelId == rs[j].channelId
          ==> rs[i].promptName != rs[j].promptName)
  }

  predicate ValidState(st: StoreState)
  {
    (forall k :: k in st.channels ==>
      st.channels[k].channelDisplayName == k && st.channels[k].shouldValidateContent)
    && PromptsWellFormed(st.prompts)
    && (forall k :: k in st.prompts ==> st.prompts[k].text != "")
    && OnePerThreadPerDay(st.scheduled)
    && RemindersWellFormed(st.reminders)
    && (forall k :: k in st.faqs ==> st.faqs[k].name == k)
    && st.faqIndex.Keys == st.faqs.Keys
    && (forall k :: k in st.faqs ==> st.faqIndex[k] == st.faqs[k].text)
  }

  // ---------------------------------------------------------------------------
  // Queries the handlers answer from the store

  /** The guards `getAll({ shouldValidateContent: true })` returns. */
  function ActiveGuards(channels: map<string, ChannelGuard>): (r: set<ChannelGuard>)
    ensures forall g :: g in r <==> exists k :: k in channels && channels[k] == g && g.shouldValidateContent
  {
    set k | k in channels && channels[k].shouldValidateContent :: channels[k]
  }

  /** The prompts `!prompt list` shows: public ones and the sender's own. */
  function VisiblePrompts(prompts: map<string, Prompt>, user: string): (r: set<Prompt>)
    ensures forall p :: p in r <==> exists k :: k in prompts && prompts[k] == p && (p.kind == Public || p.createdBy == user)
  {
    set k | k in prompts && (prompts[k].kind == Public || prompts[k].createdBy == user) :: prompts[k]
  }

  /** `!prompt get`: a built-in is shown as a public system prompt; a private
      prompt is shown to its creator only. */
  function ShowPrompt(prompts: map<string, Prompt>, name: string, user: string): (r: Reply)
    ensures r.PromptShown? <==> !IsBuiltIn(name) && name in prompts && VisibleTo(prompts[name], user)
    ensures r.PromptShown? ==> r.shown == prompts[name]
    ensures r.BuiltInShown? <==> IsBuiltIn(name)
    ensures r.BuiltInShown? ==> r.name == name && Some(r.text) == HandlePrompt(name)
    ensures r == PromptNotFound(name) <==> !IsBuiltIn(name) && name !in prompts
    ensures r == PromptNoAccess <==> !IsBuiltIn(name) && name in prompts && !VisibleTo(prompts[name], user)
  {
    if IsBuiltIn(name) then BuiltInShown(name, HandlePrompt(name).value)
    else if name !in prompts then PromptNotFound(name)
    else if prompts[name].kind == Private && prompts[name].createdBy != user then PromptNoAccess
    else PromptShown(prompts[name])
  }

  /** The first scheduled entry of `thread` whose run date falls in the Moscow
      day of `now`. */
  function ScheduledToday(s: seq<ScheduledEntry>, thread: string, now: int): (r: Option<nat>)
    ensures r.Some? ==> r.value < |s| && s[r.value].threadId == thread && InMskDay(s[r.value].runDate, now)
    ensures r.Some? ==> forall j :: 0 <= j < r.value ==> !(s[j].threadId == thread && InMskDay(s[j].runDate, now))
    ensures r.None? <==> forall j :: 0 <= j < |s| ==> !(s[j].threadId == thread && InMskDay(s[j].runDate, now))
  {
    if |s| == 0 then None
    else if s[0].threadId == thread && InMskDay(s[0].runDate, now) then Some(0)
    else
      var k := ScheduledToday(s[1..], thread, now);
      if k.None? then None else Some(k.value + 1)
  }

  /** The first active reminder for `name` in `channel`. */
  function FindActive(rs: seq<Reminder>, name: string, channel: string): (r: Option<nat>)
    ensures r.Some? ==>
      r.value < |rs| && rs[r.value].active && rs[r.value].promptName == name && rs[r.value].channelId == channel
    ensures r.None? <==> forall j :: 0 <= j < |rs| ==>
      !(rs[j].active && rs[j].promptName == name && rs[j].channelId == channel)
  {
    if |rs| == 0 then None
    else if rs[0].active && rs[0].promptName == name && rs[0].channelId == channel then Some(0)
    else
      var k := FindActive(rs[1..], name, channel);
      if k.None? then None else Some(k.value + 1)
  }

  // ---------------------------------------------------------------------------
  // `!reminder list`

  /** `(dayIndex - currentDayIndex + 7) % 7`: how many days ahead `day`
      comes, today counting as zero. */
  function DaysAhead(day: string, today: nat): (r: nat)
    requires day in ALL_DAYS && today < 7
    ensures r < 7
    ensures r == 0 <==> DayIndex(day) == today
  {
    (DayIndex(day) - today + 7) % 7
  }

  /** The smallest `DaysAhead` over the days, as written: both branches of the
      "today and not yet passed" test return the same date, so today's slot
      counts even when its time has passed. */
  function ListOffsetAsWritten(days: seq<string>, today: nat): (r: nat)
    requires |days| >= 1 && AllKnownDays(days) && today < 7
    ensures r < 7
  {
    var d := DaysAhead(days[0], today);
    if |days| == 1 then d
    else
      var rest := ListOffsetAsWritten(days[1..], today);
      if d <= rest then d else rest
  }

  /** `ListOffsetAsWritten` is the least `DaysAhead` of the listed days. */
  lemma {:induction false} ListOffsetAsWrittenIsLeast(days: seq<string>, today: nat)
    requires |days| >= 1 && AllKnownDays(days) && today < 7
    ensures exists i :: 0 <= i < |days| && ListOffsetAsWritten(days, today) == DaysAhead(days[i], today)
    ensures forall i :: 0 <= i < |days| ==> ListOffsetAsWritten(days, today) <= DaysAhead(days[i], today)
  {
    if |days| == 1 {
      assert ListOffsetAsWritten(days, today) == DaysAhead(days[0], today);
    } else {
      ListOffsetAsWrittenIsLeast(days[1..], today);
      var rest := ListOffsetAsWritten(days[1..], today);
      var k :| 0 <= k < |days| - 1 && rest == DaysAhead(days[1..][k], today);
      if DaysAhead(days[0], today) > rest {
        assert days[1..][k] == days[k + 1];
      }
      forall i | 1 <= i < |days|
        ensures ListOffsetAsWritten(days, today) <= DaysAhead(days[i], today)
      {
        assert days[i] == days[1..][i - 1];
      }
    }
  }

  /** The offset of one listed day: today's slot moves a week ahead once its
      time has passed. */
  function DayOffset(day: string, today: nat, passed: bool): (r: nat)
    requires day in ALL_DAYS && today < 7
    ensures 0 <= r <= 7
    ensures r == 0 <==> DayIndex(day) == today && !passed
    ensures (today + r) % 7 == DayIndex(day)
  {
    var d := DaysAhead(day, today);
    if d == 0 && passed then 7 else d
  }


  /** The next listed offset, corrected: the smallest `DayOffset`. */
  function ListOffset(days: seq<string>, today: nat, passed: bool): (r: nat)
    requires |days| >= 1 && AllKnownDays(days) && today < 7
    ensures r <= 7
  {
    var d := DayOffset(days[0], today, passed);
    if |days| == 1 then d
    else
      var rest := ListOffset(days[1..], today, passed);
      if d <= rest then d else rest
  }

  /** `ListOffset` is the least `DayOffset` of the listed days. */
  lemma {:induction false} ListOffsetIsLeast(days: seq<string>, today: nat, passed: bool)
    requires |days| >= 1 && AllKnownDays(days) && today < 7
    ensures exists i :: 0 <= i < |days| && ListOffset(days, today, passed) == DayOffset(days[i], today, passed)
    ensures forall i :: 0 <= i < |days| ==> ListOffset(days, today, passed) <= DayOffset(days[i], today, passed)
  {
    if |days| == 1 {
      assert ListOffset(days, today, passed) == DayOffset(days[0], today, passed);
    } else {
      ListOffsetIsLeast(days[1..], today, passed);
      var rest := ListOffset(days[1..], today, passed);
      var k :| 0 <= k < |days| - 1 && rest == DayOffset(days[1..][k], today, passed);
      if DayOffset(days[0], today, passed) > rest {
        assert days[1..][k] == days[k + 1];
      }
      forall i | 1 <= i < |days|
        ensures ListOffset(days, today, passed) <= DayOffset(days[i], today, passed)
      {
        assert days[i] == days[1..][i - 1];
      }
    }
  }

  /** The corrected list offset never points at a slot already passed today,
      and otherwise agrees with the code as written. */
  lemma ListOffsetCorrects(days: seq<string>, today: nat, passed: bool)
    requires |days| >= 1 && AllKnownDays(days) && today < 7
    ensures passed ==> ListOffset(days, today, passed) > 0
    ensures !passed ==> ListOffset(days, today, passed) == ListOffsetAsWritten(days, today)
  {
    ListOffsetIsLeast(days, today, passed);
    ListOffsetAsWrittenIsLeast(days, today);
    var r := ListOffset(days, today, passed);
    var w := ListOffsetAsWritten(days, today);
    var i :| 0 <= i < |days| && r == DayOffset(days[i], today, passed);
    var j :| 0 <= j < |days| && w == DaysAhead(days[j], today);
    if !passed {
      assert r <= DayOffset(days[j], today, passed);
      assert w <= DaysAhead(days[i], today);
    }
  }

  /** On Monday after 09:00, for a reminder on Monday and Tuesday at 09:00,
      the code as written lists Monday, whose slot has passed; corrected,
      Tuesday. */
  lemma ListOffsetPassedSlot()
    ensures ListOffsetAsWritten(["mon", "tue"], 1) == 0
    ensures ListOffset(["mon", "tue"], 1, true) == 1
  {
    assert ["mon", "tue"][1..] == ["tue"];
  }

  /** Minutes after midnight split into a time of day and whole days. */
  lemma ClockParts(h: nat, m: nat)
    ensures var c := h * 60 + m;
      && c % 1440 / 60 < 24 && c % 60 < 60
      && (c % 1440 / 60 * 60 + c % 60) == c % 1440
      && (h < 24 && m < 60 ==> c / 1440 == 0 && c % 1440 / 60 == h && c % 60 == m)
  {
    var c := h * 60 + m;
    var d, t := c / 1440, c % 1440;
    assert c == 1440 * d + t;
    var u, v := t / 60, t % 60;
    assert t == 60 * u + v;
    assert c == 60 * (24 * d + u) + v;
    assert c % 60 == v by {
      assert 0 <= v < 60;
    }
    if h < 24 && m < 60 {
      assert 0 <= c < 1440;
      assert c == 60 * h + m;
    }
  }

  /** What a repeating reminder's line shows: the instant `Hour(time)` hours
      and `Minute(time)` minutes after the midnight `ListOffset` days ahead of
      `today`. Setting an hour past 23 or a minute past 59 rolls over into the
      following hours and days, so "23:75" shows as 00:15 the next day. */
  function RepeatDisplay(days: seq<string>, time: string, today: nat, passed: bool): (r: NextDisplay)
    requires IsHHMM(time) && |days| >= 1 && AllKnownDays(days) && today < 7
    ensures r.NextAt? && r.weekday < 7 && r.hour < 24 && r.minute < 60
    ensures r.hour * 60 + r.minute == (Hour(time) * 60 + Minute(time)) % 1440
    ensures r.weekday == (today + ListOffset(days, today, passed) + (Hour(time) * 60 + Minute(time)) / 1440) % 7
    ensures Hour(time) < 24 && Minute(time) < 60 ==>
      r.hour == Hour(time) && r.minute == Minute(time) && r.weekday == (today + ListOffset(days, today, passed)) % 7
  {
    var clock := Hour(time) * 60 + Minute(time);
    ClockParts(Hour(time), Minute(time));
    NextAt((today + ListOffset(days, today, passed) + clock / 1440) % 7, clock % 1440 / 60, clock % 60)
  }

  /** The position of a day whose `DayOffset` is the `ListOffset`. */
  lemma {:induction false} ListOffsetAttained(days: seq<string>, today: nat, passed: bool) returns (i: nat)
    requires |days| >= 1 && AllKnownDays(days) && today < 7
    ensures i < |days| && ListOffset(days, today, passed) == DayOffset(days[i], today, passed)
  {
    if |days| == 1 {
      i := 0;
    } else {
      var k := ListOffsetAttained(days[1..], today, passed);
      if DayOffset(days[0], today, passed) <= ListOffset(days[1..], today, passed) {
        i := 0;
      } else {
        i := k + 1;
        assert days[1..][k] == days[i];
      }
    }
  }

  /** The weekday a repeating reminder's line shows is one of its days. */
  lemma RepeatDisplayShowsListedDay(days: seq<string>, time: string, today: nat, passed: bool)
    requires IsHHMM(time) && Hour(time) < 24 && Minute(time) < 60 && |days| >= 1 && AllKnownDays(days) && today < 7
    ensures exists i :: 0 <= i < |days| && RepeatDisplay(days, time, today, passed).weekday == DayIndex(days[i])
  {
    var i := ListOffsetAttained(days, today, passed);
    assert RepeatDisplay(days, time, today, passed).weekday == DayIndex(days[i]);
  }

  /** One line of `!reminder list`. A repeating reminder shows the weekday of
      its next listed day; a one-off one its stored run date while that is
      still ahead, else "expired". */
  function ListLine(r: Reminder, now: int): ReminderLine
    requires IsHHMM(r.time) && |r.days| >= 1 && AllKnownDays(r.days)
  {
    var next :=
      if r.repeat then RepeatDisplay(r.days, r.time, MskWeekday(now), !StrLe(MskClock(now), r.time))
      else if r.runDate > now then
        NextAt(MskWeekday(r.runDate), MskMinuteOfDay(r.runDate) / 60, MskMinuteOfDay(r.runDate) % 60)
      else Expired;
    ReminderLine(r.promptName, r.time, r.repeat, r.days, next)
  }

  /** `getAll({ channel_id, active: true })`: the channel's active
      reminders, in storage order. */
  function ActiveIn(rs: seq<Reminder>, channel: string): (r: seq<Reminder>)
    ensures forall x :: x in r <==> x in rs && x.active && x.channelId == channel
  {
    if |rs| == 0 then []
    else if rs[0].active && rs[0].channelId == channel then [rs[0]] + ActiveIn(rs[1..], channel)
    else ActiveIn(rs[1..], channel)
  }

  /** The lines of `!reminder list`, one per reminder, in order. */
  function ListLines(rs: seq<Reminder>, now: int): (r: seq<ReminderLine>)
    requires forall i :: 0 <= i < |rs| ==> IsHHMM(rs[i].time) && |rs[i].days| >= 1 && AllKnownDays(rs[i].days)
    ensures |r| == |rs|
    ensures forall i :: 0 <= i < |rs| ==> r[i] == ListLine(rs[i], now)
  {
    if |rs| == 0 then [] else [ListLine(rs[0], now)] + ListLines(rs[1..], now)
  }

  lemma ActiveInWellFormed(rs: seq<Reminder>, channel: string)
    requires RemindersWellFormed(rs)
    ensures var a := ActiveIn(rs, channel);
      forall i :: 0 <= i < |a| ==> IsHHMM(a[i].time) && |a[i].days| >= 1 && AllKnownDays(a[i].days)
  {
    var a := ActiveIn(rs, channel);
    forall i | 0 <= i < |a| ensures IsHHMM(a[i].time) && |a[i].days| >= 1 && AllKnownDays(a[i].days) {
      assert a[i] in rs;
    }
  }

  /** `!reminder list`: "none" when the channel has no active reminder, else
      one line per active reminder, in storage order. */
  function ReminderListReply(rs: seq<Reminder>, channel: string, now: int): (r: Reply)
    requires RemindersWellFormed(rs)
    ensures r == NoReminders <==> forall i :: 0 <= i < |rs| ==> !(rs[i].active && rs[i].channelId == channel)
    ensures r.ReminderList? ==>
      |r.lines| == |ActiveIn(rs, channel)|
      && forall j :: 0 <= j < |r.lines| ==> r.lines[j].promptName == ActiveIn(rs, channel)[j].promptName
    ensures r.ReminderList? ==> (ActiveInWellFormed(rs, channel); r.lines == ListLines(ActiveIn(rs, channel), now))
  {
    var active := ActiveIn(rs, channel);
    ActiveInWellFormed(rs, channel);
    var lines := ListLines(active, now);
    if |lines| == 0 then NoReminders
    else ReminderList(lines)
  }

  // ---------------------------------------------------------------------------
  // `!reminder add`

  datatype AddPlan = Reject(reply: Reply) | Insert(days: seq<string>, name: string)

  /** The days `!reminder add` asks for: the listed ones when a prompt name
      follows them, else the default for the given time. */
  function RequestedDays(time: string, daysOrPrompt: Option<string>, promptName: Option<string>, now: int): seq<string>
    requires promptName.Some? ==> daysOrPrompt.Some?
  {
    if Truthy(promptName) then ExplicitDays(daysOrPrompt.value) else DefaultDays(MskWeekday(now), MskClock(now), time)
  }

  /** The prompt `!reminder add` names: the last argument present. */
  function RequestedName(daysOrPrompt: Option<string>, promptName: Option<string>): Option<string>
  {
    if Truthy(promptName) then promptName else daysOrPrompt
  }

  /** The checks of `!reminder add`, in the code's order: time shape, minutes a
      multiple of five, day names, prompt resolution, no active duplicate in
      the channel. */
  function PlanReminder(time: string, daysOrPrompt: Option<string>, promptName: Option<string>,
                        now: int, prompts: map<string, Prompt>, reminders: seq<Reminder>,
                        channel: string, sender: string): (r: AddPlan)
    requires promptName.Some? ==> daysOrPrompt.Some?
    ensures r.Insert? ==> IsHHMM(time) && Minute(time) % 5 == 0
    ensures r.Insert? ==> |r.days| >= 1 && AllKnownDays(r.days)
    ensures r.Insert? ==> ResolveScoped(prompts, r.name, sender).Some?
    ensures r.Insert? ==> FindActive(reminders, r.name, channel).None?
    ensures r.Insert? && Truthy(promptName) ==> r.name == promptName.value && r.days == ExplicitDays(daysOrPrompt.value)
    ensures r.Insert? && !Truthy(promptName) ==> Some(r.name) == daysOrPrompt && r.days == DefaultDays(MskWeekday(now), MskClock(now), time)
    ensures !IsHHMM(time) ==> r == Reject(BadTime)
    ensures IsHHMM(time) && Minute(time) % 5 != 0 ==> r == Reject(TimeNotMultipleOfFive)
    ensures r.Insert? <==>
      IsHHMM(time) && Minute(time) % 5 == 0
      && AllKnownDays(RequestedDays(time, daysOrPrompt, promptName, now))
      && RequestedName(daysOrPrompt, promptName).Some?
      && ResolveScoped(prompts, RequestedName(daysOrPrompt, promptName).value, sender).Some?
      && FindActive(reminders, RequestedName(daysOrPrompt, promptName).value, channel).None?
    ensures (IsHHMM(time) && Minute(time) % 5 == 0
             && !AllKnownDays(RequestedDays(time, daysOrPrompt, promptName, now)))
      ==> r == Reject(BadDays)
    ensures (IsHHMM(time) && Minute(time) % 5 == 0
             && AllKnownDays(RequestedDays(time, daysOrPrompt, promptName, now))
             && (RequestedName(daysOrPrompt, promptName).None?
                 || ResolveScoped(prompts, RequestedName(daysOrPrompt, promptName).value, sender).None?))
      ==> r == Reject(UnknownPrompt(RequestedName(daysOrPrompt, promptName)))
    ensures r.Reject? && r.reply.ReminderExists? ==>
      r.reply.name == RequestedName(daysOrPrompt, promptName).value
      && FindActive(reminders, r.reply.name, channel).Some?
  {
    if !IsHHMM(time) then Reject(BadTime)
    else if Minute(time) % 5 != 0 then Reject(TimeNotMultipleOfFive)
    else
      var days := RequestedDays(time, daysOrPrompt, promptName, now);
      var name := RequestedName(daysOrPrompt, promptName);
      if !AllKnownDays(days) then Reject(BadDays)
      else if name.None? || ResolveScoped(prompts, name.value, sender).None? then Reject(UnknownPrompt(name))
      else if FindActive(reminders, name.value, channel).Some? then Reject(ReminderExists(name.value))
      else Insert(days, name.value)
  }

  /** Appending a reminder that passed the checks of `!reminder add` keeps the
      reminders well formed. */
  lemma AppendReminderKeepsWellFormed(rs: seq<Reminder>, r: Reminder)
    requires RemindersWellFormed(rs)
    requires IsHHMM(r.time) && Minute(r.time) % 5 == 0 && |r.days| >= 1 && AllKnownDays(r.days)
    requires FindActive(rs, r.promptName, r.channelId).None?
    ensures RemindersWellFormed(rs + [r])
  {
    var rs' := rs + [r];
    forall i, j | 0 <= i < j < |rs'| && rs'[i].active && rs'[j].active && rs'[i].channelId == rs'[j].channelId
      ensures rs'[i].promptName != rs'[j].promptName
    {
      if j == |rs| {
        assert rs'[i] == rs[i];
      }
    }
  }

  /** The reminder `!reminder add` stores for an accepted plan. */
  function NewReminder(postId: string, channel: string, name: string, now: int, time: string,
                       repeatWord: string, days: seq<string>, sender: string,
                       withHistory: Option<string>): (r: Reminder)
    requires IsHHMM(time) && |days| >= 1 && AllKnownDays(days)
    ensures r.active && r.repeat == (repeatWord == "repeat") && r.withHistory == (withHistory == Some("true"))
    ensures r.messageId == postId && r.channelId == channel && r.promptName == name && r.time == time
      && r.days == days && r.createdBy == sender && r.createdAt == now && r.finishedAt.None?
    ensures r.runDate == RunInstant(now, NextRunSpec(time, days, now)) && r.runDate >= now
  {
    DaysTerminate(time, days, now);
    RunInstantNotPast(time, days, now);
    Reminder(postId, channel, name, now, RunInstant(now, NextRunSpec(time, days, now)), time,
      repeatWord == "repeat", days, sender, true, withHistory == Some("true"), None)
  }

  // ---------------------------------------------------------------------------
  // `!prompt` and `!faq` as steps on the store

  /** One `!prompt` request: the new store and the reply. A name already
      stored or built in cannot be saved again; built-ins cannot be deleted;
      only a prompt's creator may delete it. */
  function PromptStep(st: StoreState, req: PromptRequest, sender: string): (r: (StoreState, Reply))
    ensures r.0 == st.(prompts := r.0.prompts)
    ensures r.0.prompts != st.prompts ==> r.1.PromptSaved? || r.1.PromptDeleted?
    ensures r.1.PromptSaved? ==>
      (req.SavePrompt? && r.1.name !in st.prompts && !IsBuiltIn(r.1.name)
       && r.0.prompts == st.prompts[r.1.name := Prompt(r.1.name, req.text, r.1.kind, sender)])
    ensures r.1.PromptDeleted? ==>
      (r.1.name in st.prompts && st.prompts[r.1.name].createdBy == sender
       && r.0.prompts == st.prompts - {r.1.name})
    ensures req.SavePrompt? ==>
      (r.1.PromptSaved? <==> ParseVisibility(req.typeText).Some? && req.name !in st.prompts && !IsBuiltIn(req.name))
    ensures req.SavePrompt? && ParseVisibility(req.typeText).None? ==> r.1 == PromptBadType
    ensures r.1.PromptSaved? ==> r.1.name == req.name && r.1.kind == ParseVisibility(req.typeText).value
    ensures req.DeletePrompt? ==>
      (r.1.PromptDeleted? <==>
         !IsBuiltIn(req.name) && req.name in st.prompts && st.prompts[req.name].createdBy == sender)
    ensures r.1.PromptDeleted? ==> req.DeletePrompt? && r.1.name == req.name
  {
    match req
    case SavePrompt(t, name, text) =>
      if ParseVisibility(t).None? then (st, PromptBadType)
      else if name in st.prompts || IsBuiltIn(name) then (st, PromptExists(name))
      else
        var kind := ParseVisibility(t).value;
        (st.(prompts := st.prompts[name := Prompt(name, text, kind, sender)]), PromptSaved(name, kind, sender))
    case ListPrompts =>
      var visible := VisiblePrompts(st.prompts, sender);
      (st, if visible == {} then NoPrompts else PromptList(visible))
    case GetPrompt(name) => (st, ShowPrompt(st.prompts, name, sender))
    case DeletePrompt(name) =>
      if IsBuiltIn(name) then (st, PromptUndeletable)
      else if name !in st.prompts then (st, PromptNotFound(name))
      else if st.prompts[name].createdBy != sender then (st, PromptNotOwner)
      else (st.(prompts := st.prompts - {name}), PromptDeleted(name))
    case BadPromptRequest => (st, BadFormat)
  }

  /** Every `!prompt` request keeps the store invariant. */
  lemma PromptStepKeepsValid(st: StoreState, req: PromptRequest, sender: string)
    requires ValidState(st)
    requires req.SavePrompt? ==> req.text != ""
    ensures ValidState(PromptStep(st, req, sender).0)
  {
  }

  /** Saving a prompt and then deleting it as its creator restores the store;
      in between, `!prompt get` shows it to its creator. */
  lemma PromptSaveThenDelete(st: StoreState, t: string, name: string, text: string, sender: string)
    requires ParseVisibility(t).Some? && name !in st.prompts && !IsBuiltIn(name)
    ensures var saved := PromptStep(st, SavePrompt(t, name, text), sender).0;
      && PromptStep(saved, GetPrompt(name), sender).1 == PromptShown(Prompt(name, text, ParseVisibility(t).value, sender))
      && PromptStep(saved, DeletePrompt(name), sender).0 == st
  {
    var saved := PromptStep(st, SavePrompt(t, name, text), sender).0;
    assert saved.prompts - {name} == st.prompts;
  }

  /** A name every object inherits, such as `toString`, counts as built in:
      it cannot be saved or deleted, and `!prompt get` shows its text. */
  lemma InheritedNameIsBuiltIn(st: StoreState, text: string, sender: string)
    ensures PromptStep(st, SavePrompt("public", "toString", text), sender) == (st, PromptExists("toString"))
    ensures PromptStep(st, DeletePrompt("toString"), sender) == (st, PromptUndeletable)
    ensures PromptStep(st, GetPrompt("valueOf"), sender).1
      == BuiltInShown("valueOf", "function valueOf() { [native code] }")
  {
    InheritedExamples();
    InheritedSaveRefused(st, text, sender);
    InheritedDeleteRefused(st, sender);
    InheritedGetShown(st, sender);
  }

  /** Deleting an inherited name is refused as built in. */
  lemma InheritedDeleteRefused(st: StoreState, sender: string)
    requires IsBuiltIn("toString")
    ensures PromptStep(st, DeletePrompt("toString"), sender) == (st, PromptUndeletable)
  {
  }

  /** Saving under an inherited name is refused as existing. */
  lemma InheritedSaveRefused(st: StoreState, text: string, sender: string)
    requires IsBuiltIn("toString")
    ensures PromptStep(st, SavePrompt("public", "toString", text), sender) == (st, PromptExists("toString"))
  {
    assert ParseVisibility("public") == Some(Public) by {
      assert ToLower("public") == "public";
    }
  }

  /** `!prompt get` of an inherited name shows its text. */
  lemma InheritedGetShown(st: StoreState, sender: string)
    requires HandlePrompt("valueOf") == Some("function valueOf() { [native code] }")
    ensures PromptStep(st, GetPrompt("valueOf"), sender).1
      == BuiltInShown("valueOf", "function valueOf() { [native code] }")
  {
    assert ShowPrompt(st.prompts, "valueOf", sender) == BuiltInShown("valueOf", "function valueOf() { [native code] }");
  }

  /** One `!faq` request: the new store and the reply. Adding refuses a name
      already present; adding and deleting update the FAQ collection and its
      search index together. */
  function FaqStep(st: StoreState, req: FaqRequest, sender: string, now: int): (r: (StoreState, Reply))
    ensures r.0 == st.(faqs := r.0.faqs, faqIndex := r.0.faqIndex)
    ensures r.1.FaqAdded? ==>
      (req.FaqAdd? && r.1.name !in st.faqs
       && r.0.faqs == st.faqs[r.1.name := Faq(r.1.name, req.text, sender, now)]
       && r.0.faqIndex == st.faqIndex[r.1.name := req.text])
    ensures r.1.FaqDeleted? ==>
      (r.1.name in st.faqs && r.0.faqs == st.faqs - {r.1.name} && r.0.faqIndex == st.faqIndex - {r.1.name})
    ensures !r.1.FaqAdded? && !r.1.FaqDeleted? ==> r.0 == st
    ensures req.FaqAdd? ==> (r.1.FaqAdded? <==> req.name !in st.faqs) && (r.1.FaqAdded? ==> r.1.name == req.name)
    ensures req.FaqDelete? ==> (r.1.FaqDeleted? <==> req.name in st.faqs) && (r.1.FaqDeleted? ==> r.1.name == req.name)
  {
    match req
    case FaqAdd(name, text) =>
      if name in st.faqs then (st, FaqExists(name))
      else (st.(faqs := st.faqs[name := Faq(name, text, sender, now)], faqIndex := st.faqIndex[name := text]),
            FaqAdded(name))
    case FaqDelete(name) =>
      if name !in st.faqs then (st, FaqNotFound(name))
      else (st.(faqs := st.faqs - {name}, faqIndex := st.faqIndex - {name}), FaqDeleted(name))
    case FaqListAll => (st, if |st.faqs| == 0 then FaqEmpty else FaqList(st.faqs.Keys))
    case FaqBadAction => (st, BadFormat)
    case FaqQuery(request) => (st, FaqAnswer(request))
  }

  /** Every `!faq` request keeps the store invariant, in particular the search
      index in step with the FAQ collection. */
  lemma FaqStepKeepsValid(st: StoreState, req: FaqRequest, sender: string, now: int)
    requires ValidState(st)
    ensures ValidState(FaqStep(st, req, sender, now).0)
  {
  }

  /** Adding a new FAQ succeeds, and deleting it afterwards succeeds and
      restores the store. */
  lemma FaqAddThenDelete(st: StoreState, name: string, text: string, sender: string, now: int)
    requires name !in st.faqs && name !in st.faqIndex
    ensures var (added, reply) := FaqStep(st, FaqAdd(name, text), sender, now);
      && reply == FaqAdded(name) && name in added.faqs
      && FaqStep(added, FaqDelete(name), sender, now) == (st, FaqDeleted(name))
  {
    var added := FaqStep(st, FaqAdd(name, text), sender, now).0;
    assert added.faqs - {name} == st.faqs;
    assert added.faqIndex - {name} == st.faqIndex;
  }

  /** `!content_guard` on the stores: setting installs an active guard by the
      sender, replacing any earlier one; only a guard's creator may delete it. */
  function GuardStep(st: StoreState, req: GuardRequest, sender: string): (r: (StoreState, Reply))
    ensures r.0 == st.(channels := r.0.channels)
    ensures r.1.GuardSet? <==> req.SetGuard?
    ensures req.SetGuard? ==>
      r.1 == GuardSet(req.channel, req.prompt, sender)
      && r.0.channels == st.channels[req.channel := ChannelGuard(true, req.channel, req.prompt, sender)]
    ensures req.DeleteGuard? ==>
      (r.1.GuardDeleted? <==> req.channel in st.channels && st.channels[req.channel].createdBy == sender)
    ensures r.1.GuardDeleted? ==>
      (req.DeleteGuard? && r.1.channel == req.channel && r.0.channels == st.channels - {req.channel})
    ensures !r.1.GuardSet? && !r.1.GuardDeleted? ==> r.0 == st
    ensures req.ListGuards? ==> (r.1 == NoGuards <==> ActiveGuards(st.channels) == {})
  {
    match req
    case SetGuard(ch, p) =>
      (st.(channels := st.channels[ch := ChannelGuard(true, ch, p, sender)]), GuardSet(ch, p, sender))
    case ListGuards =>
      var guards := ActiveGuards(st.channels);
      (st, if guards == {} then NoGuards else GuardList(guards))
    case DeleteGuard(ch) =>
      if ch !in st.channels then (st, GuardNotFound(ch))
      else if st.channels[ch].createdBy != sender then (st, GuardNotOwner)
      else (st.(channels := st.channels - {ch}), GuardDeleted(ch))
    case BadGuardRequest => (st, BadFormat)
  }

  /** Every `!content_guard` request keeps the store invariant. */
  lemma GuardStepKeepsValid(st: StoreState, req: GuardRequest, sender: string)
    requires ValidState(st)
    ensures ValidState(GuardStep(st, req, sender).0)
  {
  }

  /** Setting a guard on a channel without one and then deleting it as its
      creator restores the store. */
  lemma GuardSetThenDelete(st: StoreState, channel: string, prompt: string, sender: string)
    requires channel !in st.channels
    ensures var (set_, reply) := GuardStep(st, SetGuard(channel, prompt), sender);
      && reply == GuardSet(channel, prompt, sender)
      && GuardStep(set_, DeleteGuard(channel), sender) == (st, GuardDeleted(channel))
  {
    var set_ := GuardStep(st, SetGuard(channel, prompt), sender).0;
    assert set_.channels - {channel} == st.channels;
  }

  /** `!schedule_prompt` on the stores: a named prompt the sender may use,
      inside a thread not yet scheduled this Moscow day, is appended as a new
      entry; every other request leaves the stores as they were. */
  function ScheduleStep(st: StoreState, promptName: Option<string>, rootId: string, channelId: string,
                        postId: string, sender: string, now: int): (r: (StoreState, Reply))
    ensures r.0 == st.(scheduled := r.0.scheduled)
    ensures r.1.Scheduled? <==>
      Truthy(promptName) && rootId != "" && ResolveScoped(st.prompts, promptName.value, sender).Some?
      && ScheduledToday(st.scheduled, rootId, now).None?
    ensures r.1.Scheduled? ==>
      (r.1.promptName == promptName.value
       && r.0.scheduled == st.scheduled + [ScheduledEntry(rootId, channelId, postId, sender, promptName.value, now, now, false, None)])
    ensures !r.1.Scheduled? ==> r.0 == st
    ensures r.1.AlreadyScheduled? ==>
      (exists i :: 0 <= i < |st.scheduled| && st.scheduled[i].threadId == rootId && InMskDay(st.scheduled[i].runDate, now))
  {
    if !Truthy(promptName) then (st, ScheduleNeedsName)
    else if rootId == "" then (st, ScheduleNeedsThread)
    else if ResolveScoped(st.prompts, promptName.value, sender).None? then (st, UnknownPrompt(promptName))
    else match ScheduledToday(st.scheduled, rootId, now)
      case Some(i) => (st, AlreadyScheduled(st.scheduled[i].promptName))
      case None =>
        (st.(scheduled := st.scheduled + [ScheduledEntry(rootId, channelId, postId, sender, promptName.value, now, now, false, None)]),
         Scheduled(promptName.value))
  }

  /** Every `!schedule_prompt` request keeps the store invariant, in
      particular at most one entry per thread per Moscow day. */
  lemma ScheduleStepKeepsValid(st: StoreState, promptName: Option<string>, rootId: string, channelId: string,
                               postId: string, sender: string, now: int)
    requires ValidState(st)
    ensures ValidState(ScheduleStep(st, promptName, rootId, channelId, postId, sender, now).0)
  {
    var r := ScheduleStep(st, promptName, rootId, channelId, postId, sender, now);
    if r.1.Scheduled? {
      forall i | 0 <= i < |st.scheduled| && st.scheduled[i].threadId == rootId
        ensures MskDayStart(st.scheduled[i].runDate) != MskDayStart(now)
      {
        InMskDaySameDay(st.scheduled[i].runDate, now);
      }
    }
  }

  /** Scheduling twice in one thread at the same instant: the second request
      is refused with the first one's prompt and changes nothing. */
  lemma ScheduleOncePerDay(st: StoreState, name: string, rootId: string, channelId: string,
                           postId: string, sender: string, now: int, other: string, postId2: string)
    requires name != "" && other != "" && rootId != ""
    requires ResolveScoped(st.prompts, name, sender).Some? && ResolveScoped(st.prompts, other, sender).Some?
    requires ScheduledToday(st.scheduled, rootId, now).None?
    ensures var (first, reply) := ScheduleStep(st, Some(name), rootId, channelId, postId, sender, now);
      && reply == Scheduled(name)
      && ScheduleStep(first, Some(other), rootId, channelId, postId2, sender, now) == (first, AlreadyScheduled(name))
  {
    var first := ScheduleStep(st, Some(name), rootId, channelId, postId, sender, now).0;
    assert first.prompts == st.prompts;
    var k := |st.scheduled|;
    assert first.scheduled[k].threadId == rootId;
    assert InMskDay(first.scheduled[k].runDate, now);
    var found := ScheduledToday(first.scheduled, rootId, now);
    assert found.Some?;
    assert found.value == k;
  }

  // ---------------------------------------------------------------------------
  // The collections

  class Stores {
    var channels: map<string, ChannelGuard>
    var prompts: map<string, Prompt>
    var scheduled: seq<ScheduledEntry>
    var reminders: seq<Reminder>
    var faqs: map<string, Faq>
    var faqIndex: map<string, string>

    function State(): StoreState
      reads this
    {
      StoreState(channels, prompts, scheduled, reminders, faqs, faqIndex)
    }

    predicate Valid()
      reads this
    {
      ValidState(State())
    }

    constructor ()
      ensures Valid()
      ensures State() == StoreState(map[], map[], [], [], map[], map[])
    {
      channels, prompts, scheduled, reminders, faqs, faqIndex := map[], map[], [], [], map[], map[];
    }

    /** `!content_guard set|list|delete`. Setting replaces any guard of the
        channel; only the guard's creator may delete it. */
    method ContentGuard(message: string, sender: string) returns (reply: Reply)
      requires Valid()
      modifies this
      ensures Valid()
      ensures match ParseGuardRequest(message)
        case SetGuard(ch, p) =>
          State() == old(State()).(channels := old(channels)[ch := ChannelGuard(true, ch, p, sender)])
          && reply == GuardSet(ch, p, sender)
        case ListGuards =>
          State() == old(State())
          && reply == (if ActiveGuards(old(channels)) == {} then NoGuards else GuardList(ActiveGuards(old(channels))))
        case DeleteGuard(ch) =>
          if ch !in old(channels) then State() == old(State()) && reply == GuardNotFound(ch)
          else if old(channels)[ch].createdBy != sender then State() == old(State()) && reply == GuardNotOwner
          else State() == old(State()).(channels := old(channels) - {ch}) && reply == GuardDeleted(ch)
        case BadGuardRequest => State() == old(State()) && reply == BadFormat
      ensures (State(), reply) == GuardStep(old(State()), ParseGuardRequest(message), sender)
    {
      match ParseGuardRequest(message)
      case SetGuard(ch, p) =>
        channels := channels[ch := ChannelGuard(true, ch, p, sender)];
        reply := GuardSet(ch, p, sender);
      case ListGuards =>
        var guards := ActiveGuards(channels);
        reply := if guards == {} then NoGuards else GuardList(guards);
      case DeleteGuard(ch) =>
        if ch !in channels {
          reply := GuardNotFound(ch);
        } else if channels[ch].createdBy != sender {
          reply := GuardNotOwner;
        } else {
          channels := channels - {ch};
          reply := GuardDeleted(ch);
        }
      case BadGuardRequest =>
        reply := BadFormat;
    }

    /** `!prompt save|list|get|delete`: the request applied as `PromptStep`
        says. */
    method PromptCommand(message: string, sender: string) returns (reply: Reply)
      requires Valid()
      modifies this
      ensures Valid()
      ensures (State(), reply) == PromptStep(old(State()), ParsePromptRequest(message), sender)
    {
      reply := ApplyPrompt(ParsePromptRequest(message), sender);
    }

    method ApplyPrompt(req: PromptRequest, sender: string) returns (reply: Reply)
      requires Valid()
      requires req.SavePrompt? ==> req.text != ""
      modifies this
      ensures Valid()
      ensures (State(), reply) == PromptStep(old(State()), req, sender)
    {
      PromptStepKeepsValid(State(), req, sender);
      match req
      case SavePrompt(t, name, text) =>
        var kind := ParseVisibility(t);
        if kind.None? {
          reply := PromptBadType;
        } else if name in prompts || IsBuiltIn(name) {
          reply := PromptExists(name);
        } else {
          prompts := prompts[name := Prompt(name, text, kind.value, sender)];
          reply := PromptSaved(name, kind.value, sender);
        }
      case ListPrompts =>
        var visible := VisiblePrompts(prompts, sender);
        reply := if visible == {} then NoPrompts else PromptList(visible);
      case GetPrompt(name) =>
        reply := ShowPrompt(prompts, name, sender);
      case DeletePrompt(name) =>
        if IsBuiltIn(name) {
          reply := PromptUndeletable;
        } else if name !in prompts {
          reply := PromptNotFound(name);
        } else if prompts[name].createdBy != sender {
          reply := PromptNotOwner;
        } else {
          prompts := prompts - {name};
          reply := PromptDeleted(name);
        }
      case BadPromptRequest =>
        reply := BadFormat;
    }

    /** `!schedule_prompt <name>`: only inside a thread, only for a prompt the
        sender may use, and at most once per thread per Moscow day. */
    method SchedulePrompt(promptName: Option<string>, rootId: string, channelId: string,
                          postId: string, sender: string, now: int) returns (reply: Reply)
      requires Valid()
      modifies this
      ensures Valid()
      ensures !Truthy(promptName) ==> State() == old(State()) && reply == ScheduleNeedsName
      ensures Truthy(promptName) && rootId == "" ==> State() == old(State()) && reply == ScheduleNeedsThread
      ensures Truthy(promptName) && rootId != "" && ResolveScoped(old(prompts), promptName.value, sender).None?
        ==> State() == old(State()) && reply == UnknownPrompt(promptName)
      ensures Truthy(promptName) && rootId != "" && ResolveScoped(old(prompts), promptName.value, sender).Some?
        ==> match ScheduledToday(old(scheduled), rootId, now)
          case Some(i) => State() == old(State()) && reply == AlreadyScheduled(old(scheduled)[i].promptName)
          case None =>
            State() == old(State()).(scheduled := old(scheduled)
              + [ScheduledEntry(rootId, channelId, postId, sender, promptName.value, now, now, false, None)])
            && reply == Scheduled(promptName.value)
      ensures (State(), reply) == ScheduleStep(old(State()), promptName, rootId, channelId, postId, sender, now)
    {
      if !Truthy(promptName) {
        return ScheduleNeedsName;
      }
      if rootId == "" {
        return ScheduleNeedsThread;
      }
      var name := promptName.value;
      if ResolveScoped(prompts, name, sender).None? {
        return UnknownPrompt(promptName);
      }
      var existing := ScheduledToday(scheduled, rootId, now);
      if existing.Some? {
        return AlreadyScheduled(scheduled[existing.value].promptName);
      }
      var entry := ScheduledEntry(rootId, channelId, postId, sender, name, now, now, false, None);
      forall i | 0 <= i < |scheduled| && scheduled[i].threadId == rootId
        ensures MskDayStart(scheduled[i].runDate) != MskDayStart(now)
      {
        InMskDaySameDay(scheduled[i].runDate, now);
      }
      scheduled := scheduled + [entry];
      reply := Scheduled(name);
    }

    /** `!reminder add` once parsed: validate, compute the first run date,
        store an active reminder. */
    method AddReminderCommand(time: string, repeatWord: string, daysOrPrompt: Option<string>,
                              withHistory: Option<string>, promptName: Option<string>,
                              channelId: string, postId: string, sender: string, now: int)
      returns (reply: Reply)
      requires Valid()
      requires promptName.Some? ==> daysOrPrompt.Some?
      modifies this
      ensures Valid()
      ensures match PlanReminder(time, daysOrPrompt, promptName, now, old(prompts), old(reminders), channelId, sender)
        case Reject(rep) => State() == old(State()) && reply == rep
        case Insert(days, name) =>
          State() == old(State()).(reminders := old(reminders)
            + [NewReminder(postId, channelId, name, now, time, repeatWord, days, sender, withHistory)])
          && reply == ReminderSet(name, time, repeatWord == "repeat")
    {
      var plan := PlanReminder(time, daysOrPrompt, promptName, now, prompts, reminders, channelId, sender);
      if plan.Reject? {
        return plan.reply;
      }
      var days, name := plan.days, plan.name;
      DaysTerminate(time, days, now);
      var next := CalculateNextRunDate(time, days, now);
      var r := NewReminder(postId, channelId, name, now, time, repeatWord, days, sender, withHistory);
      assert r.runDate == RunInstant(now, next);
      AppendReminderKeepsWellFormed(reminders, r);
      reminders := reminders + [r];
      reply := ReminderSet(name, time, repeatWord == "repeat");
    }

    /** `!reminder delete <name>`: the channel's active reminder of that prompt
        is deactivated, not removed. */
    method DeactivateReminder(name: string, channelId: string) returns (reply: Reply)
      requires Valid()
      modifies this
      ensures Valid()
      ensures match FindActive(old(reminders), name, channelId)
        case None => State() == old(State()) && reply == ReminderNotFound(name)
        case Some(i) =>
          State() == old(State()).(reminders := old(reminders)[i := old(reminders)[i].(active := false)])
          && reply == ReminderDeleted(name)
    {
      var i := FindActive(reminders, name, channelId);
      if i.None? {
        reply := ReminderNotFound(name);
      } else {
        reminders := reminders[i.value := reminders[i.value].(active := false)];
        reply := ReminderDeleted(name);
      }
    }

    /** `!reminder add|list|delete`, refused inside a thread. Deleting
        deactivates the channel's active reminder of that prompt. */
    method ReminderCommand(message: string, rootId: string, channelId: string, postId: string,
                           sender: string, botName: string, now: int) returns (reply: Reply)
      requires Valid()
      modifies this
      ensures Valid()
      ensures rootId != "" ==> State() == old(State()) && reply == ReminderNotInChannelRoot
      ensures rootId == "" ==> match ParseReminderRequest(StripMention(message, botName))
        case AddReminder(time, repeatWord, daysOrPrompt, withHistory, promptName) =>
          (match PlanReminder(time, daysOrPrompt, promptName, now, old(prompts), old(reminders), channelId, sender)
           case Reject(rep) => State() == old(State()) && reply == rep
           case Insert(days, name) =>
             State() == old(State()).(reminders := old(reminders)
               + [NewReminder(postId, channelId, name, now, time, repeatWord, days, sender, withHistory)])
             && reply == ReminderSet(name, time, repeatWord == "repeat"))
        case ListReminders =>
          State() == old(State()) && reply == ReminderListReply(old(reminders), channelId, now)
        case DeleteReminder(name) =>
          (match FindActive(old(reminders), name, channelId)
           case None => State() == old(State()) && reply == ReminderNotFound(name)
           case Some(i) =>
             State() == old(State()).(reminders := old(reminders)[i := old(reminders)[i].(active := false)])
             && reply == ReminderDeleted(name))
        case BadReminderRequest => State() == old(State()) && reply == BadFormat
    {
      if rootId != "" {
        return ReminderNotInChannelRoot;
      }
      match ParseReminderRequest(StripMention(message, botName))
      case AddReminder(time, repeatWord, daysOrPrompt, withHistory, promptName) =>
        reply := AddReminderCommand(time, repeatWord, daysOrPrompt, withHistory, promptName, channelId, postId, sender, now);
      case ListReminders =>
        reply := ReminderListReply(reminders, channelId, now);
      case DeleteReminder(name) =>
        reply := DeactivateReminder(name, channelId);
      case BadReminderRequest =>
        reply := BadFormat;
    }

    /** `!faq add|delete|list|<question>`: the request applied as `FaqStep`
        says. */
    method FaqCommand(message: string, sender: string, now: int) returns (reply: Reply)
      requires Valid()
      modifies this
      ensures Valid()
      ensures (State(), reply) == FaqStep(old(State()), ParseFaqRequest(message), sender, now)
    {
      reply := ApplyFaq(ParseFaqRequest(message), sender, now);
    }

    method ApplyFaq(req: FaqRequest, sender: string, now: int) returns (reply: Reply)
      requires Valid()
      modifies this
      ensures Valid()
      ensures (State(), reply) == FaqStep(old(State()), req, sender, now)
    {
      FaqStepKeepsValid(State(), req, sender, now);
      match req
      case FaqAdd(name, text) =>
        if name in faqs {
          reply := FaqExists(name);
        } else {
          faqs := faqs[name := Faq(name, text, sender, now)];
          faqIndex := faqIndex[name := text];
          reply := FaqAdded(name);
        }
      case FaqDelete(name) =>
        if name !in faqs {
          reply := FaqNotFound(name);
        } else {
          faqs := faqs - {name};
          faqIndex := faqIndex - {name};
          reply := FaqDeleted(name);
        }
      case FaqListAll =>
        reply := if |faqs| == 0 then FaqEmpty else FaqList(faqs.Keys);
      case FaqBadAction =>
        reply := BadFormat;
      case FaqQuery(request) =>
        reply := FaqAnswer(request);
    }
  }
}
