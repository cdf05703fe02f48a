/**
 * The two scheduled sweeps of `src/crons.ts`: at 22:00 Moscow time every
 * scheduled prompt due today is applied to its thread, and every five
 * minutes every reminder due at the current "HH:mm" is posted to its channel.
 *
 * The clock is a parameter (`now`, and `at` for the `Date.now()` written
 * into `finished_at`). Each entry's calls to the outside world — building
 * the conversation and asking the model (`continueThread`), creating the
 * post, updating the record — either succeed or throw; `attempt(i)` says
 * which, for the entry at storage position `i`. A failure to build the
 * conversation is not caught and ends the sweep; a failed post or update is
 * caught and the sweep goes on with the next entry.
 *
 * Both sweeps are one left-to-right pass over the stored records: the
 * records the query selects are processed in storage order, and the update
 * of an entry (by its `_id`) touches that record alone, so selecting inside
 * the pass is the same as querying first.
 */
module Crons {
  import opened JsString
  import opened Schedule
  import opened Records
  import opened Commands

  /** How the outside calls made for one entry turn out. */
  datatype Attempt = Attempt(completionOk: bool, postOk: bool, updateOk: bool)

  /** A post the sweep creates: its channel, the thread it answers (`""` for
      a top-level post) and the prompt text the conversation was built on. */
  datatype SweepPost = SweepPost(channelId: string, rootId: string, instructions: string)

  /** What the sweep does with one record: the record afterwards, the post
      created for it, and whether the sweep stops there. */
  datatype Step<T> = Step(item: T, post: Option<SweepPost>, abort: bool)

  /** The records after a sweep, the posts created in order, and whether the
      sweep was cut short. */
  datatype Sweep<T> = Sweep(items: seq<T>, posts: seq<SweepPost>, aborted: bool)

  function PostList(p: Option<SweepPost>): (r: seq<SweepPost>)
    ensures |r| <= 1
  {
    if p.Some? then [p.value] else []
  }

  // ---------------------------------------------------------------------------
  // One pass over the stored records

  /** The records `es` processed in order by `step` (which also receives the
      record's position), until a step aborts; the records after that are
      left as they are. */
  function RunSweep<T>(es: seq<T>, step: (T, nat) -> Step<T>): (r: Sweep<T>)
    ensures |r.items| == |es|
    ensures |r.posts| <= |es|
    decreases |es|
  {
    if |es| == 0 then Sweep([], [], false)
    else
      var n := |es| - 1;
      var prev := RunSweep(es[..n], step);
      if prev.aborted then Sweep(prev.items + [es[n]], prev.posts, true)
      else
        var s := step(es[n], n);
        Sweep(prev.items + [s.item], prev.posts + PostList(s.post), s.abort)
  }

  /** Every record ends either untouched or as its own step left it. */
  lemma {:induction false} SweepPointwise<T>(es: seq<T>, step: (T, nat) -> Step<T>)
    ensures forall i :: 0 <= i < |es| ==>
      RunSweep(es, step).items[i] == es[i] || RunSweep(es, step).items[i] == step(es[i], i).item
  {
    if |es| > 0 {
      var n := |es| - 1;
      SweepPointwise(es[..n], step);
      var prev := RunSweep(es[..n], step);
      var r := RunSweep(es, step);
      forall i | 0 <= i < |es|
        ensures r.items[i] == es[i] || r.items[i] == step(es[i], i).item
      {
        if i < n {
          assert r.items[i] == prev.items[i];
          assert es[..n][i] == es[i];
        }
      }
    }
  }

  /** When no step aborts, the sweep runs to the end and every record is
      what its own step made of it. */
  lemma {:induction false} SweepCompletes<T>(es: seq<T>, step: (T, nat) -> Step<T>)
    requires forall i :: 0 <= i < |es| ==> !step(es[i], i).abort
    ensures !RunSweep(es, step).aborted
    ensures forall i :: 0 <= i < |es| ==> RunSweep(es, step).items[i] == step(es[i], i).item
  {
    if |es| > 0 {
      var n := |es| - 1;
      assert forall i :: 0 <= i < n ==> es[..n][i] == es[i];
      SweepCompletes(es[..n], step);
      var prev := RunSweep(es[..n], step);
      var r := RunSweep(es, step);
      forall i | 0 <= i < |es|
        ensures r.items[i] == step(es[i], i).item
      {
        if i < n {
          assert r.items[i] == prev.items[i];
        }
      }
    }
  }

  /** A sweep in which no record calls for anything changes nothing and
      posts nothing. */
  lemma {:induction false} SweepIdle<T>(es: seq<T>, step: (T, nat) -> Step<T>)
    requires forall i :: 0 <= i < |es| ==> step(es[i], i) == Step(es[i], None, false)
    ensures RunSweep(es, step) == Sweep(es, [], false)
  {
    if |es| > 0 {
      var n := |es| - 1;
      assert forall i :: 0 <= i < n ==> es[..n][i] == es[i];
      SweepIdle(es[..n], step);
      assert es[..n] + [es[n]] == es;
    }
  }

  /** Once the sweep has stopped at a prefix, the records after it are left
      untouched and no more posts are made. */
  lemma {:induction false} SweepStaysAborted<T>(es: seq<T>, step: (T, nat) -> Step<T>, k: nat)
    requires k <= |es| && RunSweep(es[..k], step).aborted
    ensures RunSweep(es, step)
      == Sweep(RunSweep(es[..k], step).items + es[k..], RunSweep(es[..k], step).posts, true)
    decreases |es| - k
  {
    if k == |es| {
      assert es[..k] == es;
      assert es[k..] == [];
    } else {
      var n := |es| - 1;
      assert es[..n][..k] == es[..k];
      SweepStaysAborted(es[..n], step, k);
      assert es[..n][k..] + [es[n]] == es[k..];
    }
  }

  /** Extending the processed prefix by one record runs that record's step. */
  lemma SweepExtend<T>(es: seq<T>, step: (T, nat) -> Step<T>, i: nat, done: Sweep<T>, s: Step<T>)
    requires i < |es| && done == RunSweep(es[..i], step) && !done.aborted
    requires s == step(es[i], i)
    ensures RunSweep(es[..i + 1], step) == Sweep(done.items + [s.item], done.posts + PostList(s.post), s.abort)
  {
    assert es[..i + 1][..i] == es[..i];
  }

  // ---------------------------------------------------------------------------
  // The end-of-day sweep of scheduled prompts (crons.ts 25-88)

  /** The query `{ run_date: today's Moscow window, finished: { $ne: true } }`. */
  predicate DueToday(e: ScheduledEntry, now: int)
  {
    InMskDay(e.runDate, now) && !e.finished
  }

  /** The entry is due and its prompt resolves for the user who scheduled it. */
  predicate Eligible(prompts: map<string, Prompt>, e: ScheduledEntry, now: int)
  {
    DueToday(e, now) && ResolveScoped(prompts, e.promptName, e.senderName).Some?
  }

  /** The sweep's loop body for one entry: skip it when not due or when its
      prompt does not resolve; otherwise build the conversation (a failure
      ends the sweep), post the answer in the entry's thread and, once the
      post exists, mark the entry finished. */
  function DailyStep(prompts: map<string, Prompt>, e: ScheduledEntry, now: int, at: int, a: Attempt)
    : (r: Step<ScheduledEntry>)
    ensures !Eligible(prompts, e, now) ==> r == Step(e, None, false)
    ensures r.abort <==> Eligible(prompts, e, now) && !a.completionOk
    ensures r.post.Some? <==> Eligible(prompts, e, now) && a.completionOk && a.postOk
    ensures r.post.Some? ==>
      r.post.value == SweepPost(e.channelId, e.threadId, ResolveScoped(prompts, e.promptName, e.senderName).value)
    ensures r.item == e || (r.post.Some? && a.updateOk && r.item == e.(finished := true, finishedAt := Some(at)))
  {
    if !DueToday(e, now) then Step(e, None, false)
    else match ResolveScoped(prompts, e.promptName, e.senderName)
      case None => Step(e, None, false)
      case Some(text) =>
        if !a.completionOk then Step(e, None, true)
        else if !a.postOk then Step(e, None, false)
        else
          var e' := if a.updateOk then e.(finished := true, finishedAt := Some(at)) else e;
          Step(e', Some(SweepPost(e.channelId, e.threadId, text)), false)
  }

  function DailyStepper(prompts: map<string, Prompt>, now: int, at: int, attempt: nat -> Attempt)
    : (ScheduledEntry, nat) -> Step<ScheduledEntry>
  {
    (e: ScheduledEntry, i: nat) => DailyStep(prompts, e, now, at, attempt(i))
  }

  /** The end-of-day sweep on store contents. */
  function DailySweep(prompts: map<string, Prompt>, es: seq<ScheduledEntry>, now: int, at: int,
                      attempt: nat -> Attempt): Sweep<ScheduledEntry>
  {
    RunSweep(es, DailyStepper(prompts, now, at, attempt))
  }

  /** The sweep changes an entry only by marking it finished, and only an
      entry that was due today and whose prompt resolved. */
  lemma DailySweepOnlyFinishes(prompts: map<string, Prompt>, es: seq<ScheduledEntry>, now: int, at: int,
                               attempt: nat -> Attempt)
    ensures var r := DailySweep(prompts, es, now, at, attempt);
      forall i :: 0 <= i < |es| ==>
        r.items[i] == es[i]
        || (Eligible(prompts, es[i], now) && r.items[i] == es[i].(finished := true, finishedAt := Some(at)))
  {
    var step := DailyStepper(prompts, now, at, attempt);
    SweepPointwise(es, step);
    forall i | 0 <= i < |es|
      ensures step(es[i], i).item == es[i]
        || (Eligible(prompts, es[i], now) && step(es[i], i).item == es[i].(finished := true, finishedAt := Some(at)))
    {
      var s := DailyStep(prompts, es[i], now, at, attempt(i));
      assert s == step(es[i], i);
    }
  }

  /** When every call succeeds, no entry due today whose prompt resolves is
      left unfinished. */
  lemma DailySweepSucceeds(prompts: map<string, Prompt>, es: seq<ScheduledEntry>, now: int, at: int,
                           attempt: nat -> Attempt)
    requires forall i :: 0 <= i < |es| ==> attempt(i) == Attempt(true, true, true)
    ensures var r := DailySweep(prompts, es, now, at, attempt);
      !r.aborted && forall i :: 0 <= i < |es| && Eligible(prompts, es[i], now) ==> r.items[i].finished
  {
    var step := DailyStepper(prompts, now, at, attempt);
    forall i | 0 <= i < |es|
      ensures !step(es[i], i).abort
      ensures Eligible(prompts, es[i], now) ==> step(es[i], i).item.finished
    {
      var s := DailyStep(prompts, es[i], now, at, attempt(i));
      assert s == step(es[i], i);
    }
    SweepCompletes(es, step);
  }

  /** With nothing eligible the sweep neither posts nor changes anything: a
      second sweep on the same day after a successful one is silent, so each
      scheduled prompt is answered once. */
  lemma DailySweepIdle(prompts: map<string, Prompt>, es: seq<ScheduledEntry>, now: int, at: int,
                       attempt: nat -> Attempt)
    requires forall i :: 0 <= i < |es| ==> !Eligible(prompts, es[i], now)
    ensures DailySweep(prompts, es, now, at, attempt) == Sweep(es, [], false)
  {
    var step := DailyStepper(prompts, now, at, attempt);
    forall i | 0 <= i < |es|
      ensures step(es[i], i) == Step(es[i], None, false)
    {
      var s := DailyStep(prompts, es[i], now, at, attempt(i));
      assert s == step(es[i], i);
    }
    SweepIdle(es, step);
  }

  /** The store invariant survives the sweep: it only marks entries
      finished, which leaves each entry's thread and run date alone. */
  lemma DailySweepKeepsValid(st: StoreState, now: int, at: int, attempt: nat -> Attempt)
    requires ValidState(st)
    ensures ValidState(st.(scheduled := DailySweep(st.prompts, st.scheduled, now, at, attempt).items))
  {
    var es := st.scheduled;
    var items := DailySweep(st.prompts, es, now, at, attempt).items;
    DailySweepOnlyFinishes(st.prompts, es, now, at, attempt);
    assert forall i :: 0 <= i < |es| ==> items[i].threadId == es[i].threadId && items[i].runDate == es[i].runDate;
  }

  // ---------------------------------------------------------------------------
  // The five-minute sweep of reminders (crons.ts 91-146)

  /** The query `{ time: now, active: true }` as written: any active
      reminder whose time is the current Moscow "HH:mm", whatever its days. */
  predicate ReminderDueAsWritten(r: Reminder, clock: string)
  {
    r.time == clock && r.active
  }

  /** The reminder names the weekday `w` among its days (an empty list
      meaning the working week, as `calculateNextRunDate` reads it). */
  predicate RunsOn(days: seq<string>, w: nat)
    requires w < 7
  {
    ALL_DAYS[w] in ActiveDays(days)
  }

  /** The selection the reminder's days call for: active, at the current
      "HH:mm", and on one of its days. */
  predicate ReminderDue(r: Reminder, now: int)
  {
    ReminderDueAsWritten(r, MskClock(now)) && RunsOn(r.days, MskWeekday(now))
  }

  /** The prompt lookup as written: the filter asks for a private prompt
      created by `entry.sender_name`, which reminders do not have (the field
      is `created_by`), so only built-in and public prompts are found. */
  function ResolveReminderAsWritten(prompts: map<string, Prompt>, name: string): (r: Option<string>)
    ensures IsBuiltIn(name) ==> r == HandlePrompt(name)
    ensures !IsBuiltIn(name) ==> (r.Some? <==> name in prompts && prompts[name].kind == Public)
  {
    if IsBuiltIn(name) then HandlePrompt(name)
    else if name in prompts && prompts[name].kind == Public then Some(prompts[name].text)
    else None
  }

  /** The lookup `!reminder add` validated the prompt with: visible to the
      reminder's creator. */
  function ResolveReminder(prompts: map<string, Prompt>, r: Reminder): (t: Option<string>)
    ensures ResolveReminderAsWritten(prompts, r.promptName).Some? ==> t == ResolveReminderAsWritten(prompts, r.promptName)
  {
    ResolveScoped(prompts, r.promptName, r.createdBy)
  }

  /** The reminder is due now and its prompt resolves. */
  predicate ReminderEligible(prompts: map<string, Prompt>, r: Reminder, now: int)
  {
    ReminderDue(r, now) && ResolveReminder(prompts, r).Some?
  }

  /** The sweep's loop body for one reminder: skip it when not due or when
      its prompt does not resolve; otherwise ask the model with the prompt
      alone (a failure ends the sweep), post the answer at the top of the
      channel and, for a one-shot reminder whose post exists, deactivate it. */
  function ReminderStep(prompts: map<string, Prompt>, r: Reminder, now: int, at: int, a: Attempt)
    : (s: Step<Reminder>)
    ensures !ReminderEligible(prompts, r, now) ==> s == Step(r, None, false)
    ensures s.abort <==> ReminderEligible(prompts, r, now) && !a.completionOk
    ensures s.post.Some? <==> ReminderEligible(prompts, r, now) && a.completionOk && a.postOk
    ensures s.post.Some? ==> s.post.value == SweepPost(r.channelId, "", ResolveReminder(prompts, r).value)
    ensures s.item == r
      || (s.post.Some? && a.updateOk && !r.repeat && s.item == r.(active := false, finishedAt := Some(at)))
  {
    if !ReminderDue(r, now) then Step(r, None, false)
    else match ResolveReminder(prompts, r)
      case None => Step(r, None, false)
      case Some(text) =>
        if !a.completionOk then Step(r, None, true)
        else if !a.postOk then Step(r, None, false)
        else
          var r' := if !r.repeat && a.updateOk then r.(active := false, finishedAt := Some(at)) else r;
          Step(r', Some(SweepPost(r.channelId, "", text)), false)
  }

  function ReminderStepper(prompts: map<string, Prompt>, now: int, at: int, attempt: nat -> Attempt)
    : (Reminder, nat) -> Step<Reminder>
  {
    (r: Reminder, i: nat) => ReminderStep(prompts, r, now, at, attempt(i))
  }

  /** The five-minute sweep on store contents. */
  function ReminderSweep(prompts: map<string, Prompt>, rs: seq<Reminder>, now: int, at: int,
                         attempt: nat -> Attempt): Sweep<Reminder>
  {
    RunSweep(rs, ReminderStepper(prompts, now, at, attempt))
  }

  /** The sweep changes a reminder only by deactivating it, and only a
      one-shot reminder that was due and whose prompt resolved; a repeating
      reminder is never changed. */
  lemma ReminderSweepOnlyDeactivates(prompts: map<string, Prompt>, rs: seq<Reminder>, now: int, at: int,
                                     attempt: nat -> Attempt)
    ensures var r := ReminderSweep(prompts, rs, now, at, attempt);
      forall i :: 0 <= i < |rs| ==>
        r.items[i] == rs[i]
        || (ReminderEligible(prompts, rs[i], now) && !rs[i].repeat
            && r.items[i] == rs[i].(active := false, finishedAt := Some(at)))
  {
    var step := ReminderStepper(prompts, now, at, attempt);
    SweepPointwise(rs, step);
    forall i | 0 <= i < |rs|
      ensures step(rs[i], i).item == rs[i]
        || (ReminderEligible(prompts, rs[i], now) && !rs[i].repeat
            && step(rs[i], i).item == rs[i].(active := false, finishedAt := Some(at)))
    {
      var s := ReminderStep(prompts, rs[i], now, at, attempt(i));
      assert s == step(rs[i], i);
    }
  }

  /** When every call succeeds, every one-shot reminder that was due and
      whose prompt resolved is inactive afterwards. */
  lemma ReminderSweepSucceeds(prompts: map<string, Prompt>, rs: seq<Reminder>, now: int, at: int,
                              attempt: nat -> Attempt)
    requires forall i :: 0 <= i < |rs| ==> attempt(i) == Attempt(true, true, true)
    ensures var r := ReminderSweep(prompts, rs, now, at, attempt);
      !r.aborted
      && forall i :: 0 <= i < |rs| && ReminderEligible(prompts, rs[i], now) && !rs[i].repeat ==> !r.items[i].active
  {
    var step := ReminderStepper(prompts, now, at, attempt);
    forall i | 0 <= i < |rs|
      ensures !step(rs[i], i).abort
      ensures ReminderEligible(prompts, rs[i], now) && !rs[i].repeat ==> !step(rs[i], i).item.active
    {
      var s := ReminderStep(prompts, rs[i], now, at, attempt(i));
      assert s == step(rs[i], i);
    }
    SweepCompletes(rs, step);
  }

  /** The store invariant survives the sweep: times and days are untouched
      and reminders are only ever deactivated. */
  lemma ReminderSweepKeepsValid(st: StoreState, now: int, at: int, attempt: nat -> Attempt)
    requires ValidState(st)
    ensures ValidState(st.(reminders := ReminderSweep(st.prompts, st.reminders, now, at, attempt).items))
  {
    var rs := st.reminders;
    var items := ReminderSweep(st.prompts, rs, now, at, attempt).items;
    ReminderSweepOnlyDeactivates(st.prompts, rs, now, at, attempt);
    assert forall i :: 0 <= i < |rs| ==>
      items[i].time == rs[i].time && items[i].days == rs[i].days && items[i].channelId == rs[i].channelId
      && items[i].promptName == rs[i].promptName && (items[i].active ==> rs[i].active);
  }

  // ---------------------------------------------------------------------------
  // What the sweep as written gets wrong

  /** A reminder for one weekday is posted on every other weekday too: at any
      instant, an active reminder set for the current time but for a
      different day is selected by the query as written and not by its days. */
  lemma DaysIgnoredAsWritten(r: Reminder, now: int, day: string)
    requires day in ALL_DAYS && DayIndex(day) != MskWeekday(now)
    requires r.active && r.time == MskClock(now) && r.days == [day]
    ensures ReminderDueAsWritten(r, MskClock(now))
    ensures !ReminderDue(r, now)
  {
    var w := MskWeekday(now);
    DayIndexOfName(w);
    assert ALL_DAYS[w] != day;
    assert ActiveDays(r.days) == [day];
  }

  /** A reminder on its creator's private prompt — which `!reminder add`
      accepts — is never posted as written: the lookup finds nothing. */
  lemma PrivatePromptSkippedAsWritten(prompts: map<string, Prompt>, r: Reminder)
    requires PromptsWellFormed(prompts)
    requires r.promptName in prompts && prompts[r.promptName].kind == Private
    requires prompts[r.promptName].createdBy == r.createdBy
    ensures ResolveReminderAsWritten(prompts, r.promptName).None?
    ensures ResolveScoped(prompts, r.promptName, r.createdBy) == Some(prompts[r.promptName].text)
    ensures ResolveReminder(prompts, r) == Some(prompts[r.promptName].text)
  {
  }

  // ---------------------------------------------------------------------------
  // The sweeps on the stores

  /** The end-of-day loop body for one entry (crons.ts 49-82): the entry
      afterwards, the post created, and whether the sweep stops. */
  method ProcessEntry(prompts: map<string, Prompt>, e: ScheduledEntry, now: int, at: int, a: Attempt)
    returns (item: ScheduledEntry, post: Option<SweepPost>, stop: bool)
    ensures Step(item, post, stop) == DailyStep(prompts, e, now, at, a)
  {
    item, post, stop := e, None, false;
    if !DueToday(e, now) {
      return;
    }
    var prompt := ResolveScoped(prompts, e.promptName, e.senderName);
    if prompt.None? {
      return;
    }
    if !a.completionOk {
      stop := true;
      return;
    }
    if a.postOk {
      post := Some(SweepPost(e.channelId, e.threadId, prompt.value));
      if a.updateOk {
        item := e.(finished := true, finishedAt := Some(at));
      }
    }
  }

  /** The five-minute loop body for one reminder (crons.ts 104-140), with
      the corrected selection and lookup. */
  method ProcessReminder(prompts: map<string, Prompt>, r: Reminder, now: int, at: int, a: Attempt)
    returns (item: Reminder, post: Option<SweepPost>, stop: bool)
    ensures Step(item, post, stop) == ReminderStep(prompts, r, now, at, a)
  {
    item, post, stop := r, None, false;
    if !ReminderDue(r, now) {
      return;
    }
    var prompt := ResolveReminder(prompts, r);
    if prompt.None? {
      return;
    }
    if !a.completionOk {
      stop := true;
      return;
    }
    if a.postOk {
      post := Some(SweepPost(r.channelId, "", prompt.value));
      if !r.repeat && a.updateOk {
        item := r.(active := false, finishedAt := Some(at));
      }
    }
  }

  /** The records are the processed prefix followed by the rest. */
  lemma SplitAfterPrefix<T>(done: seq<T>, rest: seq<T>, x: T)
    requires |rest| > 0
    ensures (done + rest)[|done| := x] == done + [x] + rest[1..]
    ensures done + rest == done + [rest[0]] + rest[1..]
  {
  }

  /** The end-of-day loop (crons.ts 48-85) over the stored entries: what it
      computes is `DailySweep`. */
  method SweepScheduled(prompts: map<string, Prompt>, es: seq<ScheduledEntry>, now: int, at: int, attempt: nat -> Attempt)
    returns (items: seq<ScheduledEntry>, posts: seq<SweepPost>, aborted: bool)
    ensures Sweep(items, posts, aborted) == DailySweep(prompts, es, now, at, attempt)
  {
    ghost var step := DailyStepper(prompts, now, at, attempt);
    items, posts, aborted := es, [], false;
    ghost var done: Sweep<ScheduledEntry> := Sweep([], [], false);
    var i := 0;
    while i < |es| && !aborted
      invariant 0 <= i <= |es|
      invariant done == RunSweep(es[..i], step)
      invariant items == done.items + es[i..]
      invariant posts == done.posts
      invariant aborted == done.aborted
    {
      SplitAfterPrefix(done.items, es[i..], es[i]);
      var e := es[i];
      var item, post, stop := ProcessEntry(prompts, e, now, at, attempt(i));
      assert step(e, i) == Step(item, post, stop);
      SweepExtend(es, step, i, done, Step(item, post, stop));
      SplitAfterPrefix(done.items, es[i..], item);
      if post.Some? {
        posts := posts + [post.value];
      }
      if item != e {
        items := items[i := item];
      }
      aborted := stop;
      done := Sweep(done.items + [item], done.posts + PostList(post), stop);
      i := i + 1;
    }
    if aborted {
      SweepStaysAborted(es, step, i);
    } else {
      assert es[..i] == es;
    }
  }

  /** The end-of-day sweep (crons.ts 25-88) run against the stores: the
      scheduled prompts become what `DailySweep` makes of them and nothing
      else changes. */
  method RunDailySweep(stores: Stores, now: int, at: int, attempt: nat -> Attempt)
    returns (posts: seq<SweepPost>, aborted: bool)
    modifies stores
    ensures var r := DailySweep(old(stores.prompts), old(stores.scheduled), now, at, attempt);
      stores.State() == old(stores.State()).(scheduled := r.items) && posts == r.posts && aborted == r.aborted
  {
    var items;
    items, posts, aborted := SweepScheduled(stores.prompts, stores.scheduled, now, at, attempt);
    stores.scheduled := items;
  }

  /** The five-minute loop (crons.ts 103-143) over the stored reminders, with
      the corrected selection and lookup: what it computes is `ReminderSweep`. */
  method SweepReminders(prompts: map<string, Prompt>, rs: seq<Reminder>, now: int, at: int, attempt: nat -> Attempt)
    returns (items: seq<Reminder>, posts: seq<SweepPost>, aborted: bool)
    ensures Sweep(items, posts, aborted) == ReminderSweep(prompts, rs, now, at, attempt)
  {
    ghost var step := ReminderStepper(prompts, now, at, attempt);
    items, posts, aborted := rs, [], false;
    ghost var done: Sweep<Reminder> := Sweep([], [], false);
    var i := 0;
    while i < |rs| && !aborted
      invariant 0 <= i <= |rs|
      invariant done == RunSweep(rs[..i], step)
      invariant items == done.items + rs[i..]
      invariant posts == done.posts
      invariant aborted == done.aborted
    {
      SplitAfterPrefix(done.items, rs[i..], rs[i]);
      var r := rs[i];
      var item, post, stop := ProcessReminder(prompts, r, now, at, attempt(i));
      assert step(r, i) == Step(item, post, stop);
      SweepExtend(rs, step, i, done, Step(item, post, stop));
      SplitAfterPrefix(done.items, rs[i..], item);
      if post.Some? {
        posts := posts + [post.value];
      }
      if item != r {
        items := items[i := item];
      }
      aborted := stop;
      done := Sweep(done.items + [item], done.posts + PostList(post), stop);
      i := i + 1;
    }
    if aborted {
      SweepStaysAborted(rs, step, i);
    } else {
      assert rs[..i] == rs;
    }
  }

  /** The five-minute sweep (crons.ts 91-146) run against the stores: the
      reminders become what `ReminderSweep` makes of them and nothing else
      changes. */
  method RunReminderSweep(stores: Stores, now: int, at: int, attempt: nat -> Attempt)
    returns (posts: seq<SweepPost>, aborted: bool)
    modifies stores
    ensures var r := ReminderSweep(old(stores.prompts), old(stores.reminders), now, at, attempt);
      stores.State() == old(stores.State()).(reminders := r.items) && posts == r.posts && aborted == r.aborted
  {
    var items;
    items, posts, aborted := SweepReminders(stores.prompts, stores.reminders, now, at, attempt);
    stores.reminders := items;
  }
}
