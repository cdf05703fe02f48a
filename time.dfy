/**
 * The reminder scheduling calculus of `src/utils/time.ts`.
 *
 * "Now" is an epoch instant in milliseconds. The operational time zone,
 * Europe/Moscow, is a fixed UTC+3 offset (it has kept no daylight saving time
 * since 2014), so the Moscow weekday, minute of day and midnight of an instant
 * are plain arithmetic on it. `calculateNextRunDate` yields the chosen day as
 * an offset from today together with the target hour and minute; `RunInstant`
 * turns that back into epoch milliseconds the way luxon's
 * `now.plus({ days }).set({ hour, minute }).toMillis()` does.
 */
module Schedule {
  import opened JsString

  const WEEK_DAYS: seq<string> := ["mon", "tue", "wed", "thu", "fri"]
  /** Indexed by `weekday % 7`, so Sunday comes first. */
  const ALL_DAYS: seq<string> := ["sun", "mon", "tue", "wed", "thu", "fri", "sat"]

  /** The position of a day name in `ALL_DAYS` (Sunday is 0). */
  function DayIndex(day: string): (r: nat)
    requires day in ALL_DAYS
    ensures r < 7 && ALL_DAYS[r] == day
  {
    // The day names differ in their first two letters.
    if day[0] == 's' then (if day[1] == 'u' then 0 else 6)
    else if day[0] == 'm' then 1
    else if day[0] == 't' then (if day[1] == 'u' then 2 else 4)
    else if day[0] == 'w' then 3
    else 5
  }

  /** `ALL_DAYS.indexOf(day)` is `DayIndex(day)`: the day names are distinct. */
  lemma DayIndexIsIndexOf(day: string)
    requires day in ALL_DAYS
    ensures SeqIndexOf(ALL_DAYS, day) == DayIndex(day)
  {
    SeqIndexOfAt(ALL_DAYS, day, DayIndex(day));
  }

  /** Naming a weekday and taking its index give the weekday back, so two
      different weekdays have different names. */
  lemma DayIndexOfName(w: nat)
    requires w < 7
    ensures DayIndex(ALL_DAYS[w]) == w
  {
    if w == 0 { assert ALL_DAYS[0] == "sun"; }
    else if w == 1 { assert ALL_DAYS[1] == "mon"; }
    else if w == 2 { assert ALL_DAYS[2] == "tue"; }
    else if w == 3 { assert ALL_DAYS[3] == "wed"; }
    else if w == 4 { assert ALL_DAYS[4] == "thu"; }
    else if w == 5 { assert ALL_DAYS[5] == "fri"; }
    else { assert ALL_DAYS[6] == "sat"; }
  }

  const MINUTE_MS: int := 60000
  const HOUR_MS: int := 3600000
  const DAY_MS: int := 86400000
  /** Europe/Moscow is UTC+3. */
  const MSK_OFFSET_MS: int := 10800000

  // ---------------------------------------------------------------------------
  // "HH:mm" strings

  predicate IsDigit(c: char) { '0' <= c <= '9' }

  function DigitValue(c: char): (v: nat)
    requires IsDigit(c)
    ensures v < 10
  {
    c as int - '0' as int
  }

  function DigitChar(n: nat): (c: char)
    requires n < 10
    ensures IsDigit(c) && DigitValue(c) == n
  {
    ('0' as int + n) as char
  }

  /** The shape `^\d{2}:\d{2}$` the `!reminder add` command checks. */
  predicate IsHHMM(s: string)
  {
    |s| == 5 && IsDigit(s[0]) && IsDigit(s[1]) && s[2] == ':' && IsDigit(s[3]) && IsDigit(s[4])
  }

  /** `Number` of the part before the colon. */
  function Hour(s: string): nat
    requires IsHHMM(s)
  {
    DigitValue(s[0]) * 10 + DigitValue(s[1])
  }

  /** `Number` of the part after the colon. */
  function Minute(s: string): nat
    requires IsHHMM(s)
  {
    DigitValue(s[3]) * 10 + DigitValue(s[4])
  }

  /** luxon's `toFormat('HH:mm')` of an hour and a minute below 100. */
  function FormatHHMM(h: nat, m: nat): (s: string)
    requires h < 100 && m < 100
    ensures IsHHMM(s) && Hour(s) == h && Minute(s) == m
  {
    [DigitChar(h / 10), DigitChar(h % 10), ':', DigitChar(m / 10), DigitChar(m % 10)]
  }

  /** `timeToMinutes(time)`: the minutes since midnight the string denotes. */
  function TimeToMinutes(time: string): nat
    requires IsHHMM(time)
  {
    Hour(time) * 60 + Minute(time)
  }

  /** Formatting and parsing are inverse: every "HH:mm" string is the format
      of its own hour and minute, and a formatted time reads back as
      `hour * 60 + minute`. */
  lemma ClockRoundTrip(s: string, h: nat, m: nat)
    requires IsHHMM(s)
    requires h < 100 && m < 100
    ensures FormatHHMM(Hour(s), Minute(s)) == s
    ensures TimeToMinutes(FormatHHMM(h, m)) == h * 60 + m
  {
    var f := FormatHHMM(Hour(s), Minute(s));
    assert f[0] == s[0] && f[1] == s[1] && f[3] == s[3] && f[4] == s[4];
  }

  /** String `<=` on two five-character strings sharing their middle
      character compares the other four characters lexicographically. */
  lemma StrLeFive(a: string, b: string)
    requires |a| == 5 && |b| == 5 && a[2] == b[2]
    ensures StrLe(a, b) <==>
      if a[0] != b[0] then a[0] < b[0]
      else if a[1] != b[1] then a[1] < b[1]
      else if a[3] != b[3] then a[3] < b[3]
      else a[4] <= b[4]
  {
    var a1, b1 := a[1..], b[1..];
    var a2, b2 := a1[1..], b1[1..];
    var a3, b3 := a2[1..], b2[1..];
    var a4, b4 := a3[1..], b3[1..];
    assert StrLe(a4, b4) <==> a[4] <= b[4] by {
      assert a4[1..] == [] && a4[0] == a[4] && b4[0] == b[4];
    }
    assert StrLe(a3, b3) <==> (if a[3] != b[3] then a[3] < b[3] else a[4] <= b[4]);
    assert StrLe(a2, b2) <==> StrLe(a3, b3);
    assert StrLe(a1, b1) <==> (if a[1] != b[1] then a[1] < b[1] else StrLe(a2, b2));
  }

  /** Four decimal digits compare lexicographically as their number does. */
  lemma DigitsOrder(x0: nat, x1: nat, x3: nat, x4: nat, y0: nat, y1: nat, y3: nat, y4: nat)
    requires x0 < 10 && x1 < 10 && x3 < 10 && x4 < 10
    requires y0 < 10 && y1 < 10 && y3 < 10 && y4 < 10
    ensures (if x0 != y0 then x0 < y0 else if x1 != y1 then x1 < y1
             else if x3 != y3 then x3 < y3 else x4 <= y4)
      <==> x0 * 1000 + x1 * 100 + x3 * 10 + x4 <= y0 * 1000 + y1 * 100 + y3 * 10 + y4
  {
  }

  /** String `<=` on two "HH:mm" strings orders them by hour, then minute. */
  lemma ClockStrLe(a: string, b: string)
    requires IsHHMM(a) && IsHHMM(b)
    ensures StrLe(a, b) <==> Hour(a) * 100 + Minute(a) <= Hour(b) * 100 + Minute(b)
  {
    StrLeFive(a, b);
    DigitsOrder(DigitValue(a[0]), DigitValue(a[1]), DigitValue(a[3]), DigitValue(a[4]),
                DigitValue(b[0]), DigitValue(b[1]), DigitValue(b[3]), DigitValue(b[4]));
  }

  /** Below 60 minutes, hour-then-minute order is the order of minutes since
      midnight. */
  lemma HourMinuteOrder(h1: nat, m1: nat, h2: nat, m2: nat)
    requires m1 < 60 && m2 < 60
    ensures h1 * 100 + m1 <= h2 * 100 + m2 <==> h1 * 60 + m1 <= h2 * 60 + m2
  {
    if h1 < h2 {
      assert h1 * 100 + m1 < (h1 + 1) * 100 <= h2 * 100;
      assert h1 * 60 + m1 < (h1 + 1) * 60 <= h2 * 60;
    } else if h1 > h2 {
      assert h2 * 100 + m2 < (h2 + 1) * 100 <= h1 * 100;
      assert h2 * 60 + m2 < (h2 + 1) * 60 <= h1 * 60;
    }
  }

  // ---------------------------------------------------------------------------
  // Instants seen from Moscow

  function LocalMs(t: int): int { t + MSK_OFFSET_MS }

  /** `now.setZone('Europe/Moscow').startOf('day').toMillis()`. */
  function MskDayStart(t: int): (r: int)
    ensures r <= t < r + DAY_MS
    ensures (r + MSK_OFFSET_MS) % DAY_MS == 0
  {
    t - LocalMs(t) % DAY_MS
  }

  /** luxon's `weekday % 7` in Moscow: Sunday is 0, Friday is 5. */
  function MskWeekday(t: int): (r: nat)
    ensures r < 7
  {
    (LocalMs(t) / DAY_MS + 4) % 7   // 1 January 1970 was a Thursday
  }

  /** Minutes since Moscow midnight. */
  function MskMinuteOfDay(t: int): (r: nat)
    ensures r < 1440
  {
    (LocalMs(t) % DAY_MS) / MINUTE_MS
  }

  /** `now.setZone('Europe/Moscow').toFormat('HH:mm')`. */
  function MskClock(t: int): (s: string)
    ensures IsHHMM(s) && Hour(s) < 24 && Minute(s) < 60
    ensures TimeToMinutes(s) == MskMinuteOfDay(t)
  {
    var m := MskMinuteOfDay(t);
    FormatHHMM(m / 60, m % 60)
  }

  /** For a target whose minute field is below 60, the string comparison
      `currentTime <= time` used by `!reminder add` agrees with the minute
      comparison used by `calculateNextRunDate`. */
  lemma ClockComparisonAgrees(now: int, time: string)
    requires IsHHMM(time) && Minute(time) < 60
    ensures StrLe(MskClock(now), time) <==> MskMinuteOfDay(now) <= TimeToMinutes(time)
  {
    var c := MskClock(now);
    ClockStrLe(c, time);
    HourMinuteOrder(Hour(c), Minute(c), Hour(time), Minute(time));
  }

  /** With a minute field of 60 or more the two comparisons disagree: at
      10:00 the target "09:75" has passed as a string but not in minutes. */
  lemma ClockComparisonDiverges()
    ensures IsHHMM("09:75") && MskClock(25200000) == "10:00"
    ensures !StrLe(MskClock(25200000), "09:75")
    ensures MskMinuteOfDay(25200000) <= TimeToMinutes("09:75")
  {
    ClockStrLe("10:00", "09:75");
  }

  // ---------------------------------------------------------------------------
  // calculateNextRunDate

  datatype NextRun = NextRun(dayOffset: nat, hour: nat, minute: nat)

  /** An empty day list means the working week. */
  function ActiveDays(days: seq<string>): seq<string>
  {
    if |days| == 0 then WEEK_DAYS else days
  }

  predicate AllWeekDays(days: seq<string>)
  {
    forall i :: 0 <= i < |days| ==> days[i] in WEEK_DAYS
  }

  /** The Friday rule: Friday, target already passed, and no day outside the
      working week requested. */
  predicate FridayRollover(time: string, days: seq<string>, now: int)
    requires IsHHMM(time)
  {
    MskWeekday(now) == 5 && MskMinuteOfDay(now) > TimeToMinutes(time)
    && (|days| == 0 || AllWeekDays(days))
  }

  /** Today is an active day and the target minute has not passed (equal
      counts as not passed). */
  predicate RunsToday(time: string, days: seq<string>, now: int)
    requires IsHHMM(time)
  {
    ALL_DAYS[MskWeekday(now)] in ActiveDays(days) && MskMinuteOfDay(now) <= TimeToMinutes(time)
  }

  /** The day `k` days after weekday `today` is active. */
  predicate ActiveAfter(active: seq<string>, today: nat, k: nat)
    requires today < 7
  {
    ALL_DAYS[(today + k) % 7] in active
  }

  predicate HasValidDay(active: seq<string>)
  {
    exists i :: 0 <= i < 7 && ALL_DAYS[i] in active
  }

  /** When `calculateNextRunDate` returns at all: its forward scan stops only
      if the active days name a real weekday. */
  predicate ScanTerminates(time: string, days: seq<string>, now: int)
    requires IsHHMM(time)
  {
    FridayRollover(time, days, now) || RunsToday(time, days, now) || HasValidDay(ActiveDays(days))
  }

  /** Every weekday is reached by some offset 1..7. */
  lemma ValidDayReached(active: seq<string>, today: nat)
    requires today < 7 && HasValidDay(active)
    ensures exists j :: 1 <= j <= 7 && ActiveAfter(active, today, j)
  {
    var i :| 0 <= i < 7 && ALL_DAYS[i] in active;
    var j := if i > today then i - today else i - today + 7;
    assert (today + j) % 7 == i;
    assert ActiveAfter(active, today, j);
  }

  /** The first offset at or after `k` whose day is active. */
  function ScanOffset(active: seq<string>, today: nat, k: nat): (r: nat)
    requires today < 7 && 1 <= k <= 7
    requires exists j :: k <= j <= 7 && ActiveAfter(active, today, j)
    ensures k <= r <= 7 && ActiveAfter(active, today, r)
    ensures forall j :: k <= j < r ==> !ActiveAfter(active, today, j)
    decreases 7 - k
  {
    if ActiveAfter(active, today, k) then k
    else
      assert k < 7;
      ScanOffset(active, today, k + 1)
  }

  /** The reference definition of `calculateNextRunDate`. */
  function NextRunSpec(time: string, days: seq<string>, now: int): (r: NextRun)
    requires IsHHMM(time) && ScanTerminates(time, days, now)
    ensures r.hour == Hour(time) && r.minute == Minute(time)
  {
    var today := MskWeekday(now);
    if FridayRollover(time, days, now) then NextRun(3, Hour(time), Minute(time))
    else if RunsToday(time, days, now) then NextRun(0, Hour(time), Minute(time))
    else
      ValidDayReached(ActiveDays(days), today);
      NextRun(ScanOffset(ActiveDays(days), today, 1), Hour(time), Minute(time))
  }

  /** `calculateNextRunDate(time, days)` at instant `now`. */
  method CalculateNextRunDate(time: string, days: seq<string>, now: int) returns (r: NextRun)
    requires IsHHMM(time)
    requires ScanTerminates(time, days, now)
    ensures r == NextRunSpec(time, days, now)
  {
    var hour, minute := Hour(time), Minute(time);
    var currentDayIndex := MskWeekday(now);
    var currentMinutes := TimeToMinutes(MskClock(now));
    var reminderMinutes := TimeToMinutes(time);

    if currentDayIndex == 5 && currentMinutes > reminderMinutes {
      if |days| == 0 || forall i :: 0 <= i < |days| ==> days[i] in WEEK_DAYS {
        return NextRun(3, hour, minute);
      }
    }

    var activeDays := if |days| > 0 then days else WEEK_DAYS;
    var currentDayName := ALL_DAYS[currentDayIndex];
    var checker := currentDayName !in activeDays || currentMinutes > reminderMinutes;
    if !checker {
      return NextRun(0, hour, minute);
    }

    var nextDayOffset := ScanForward(activeDays, currentDayIndex);
    r := NextRun(nextDayOffset, hour, minute);
  }

  /** The forward day scan: `nextDayOffset` counts up from 1 until the day it
      lands on is active. */
  method ScanForward(activeDays: seq<string>, currentDayIndex: nat) returns (nextDayOffset: nat)
    requires currentDayIndex < 7 && HasValidDay(activeDays)
    ensures 1 <= nextDayOffset <= 7 && ActiveAfter(activeDays, currentDayIndex, nextDayOffset)
    ensures forall j :: 1 <= j < nextDayOffset ==> !ActiveAfter(activeDays, currentDayIndex, j)
  {
    ValidDayReached(activeDays, currentDayIndex);
    ghost var target := ScanOffset(activeDays, currentDayIndex, 1);
    nextDayOffset := 1;
    while !ActiveAfter(activeDays, currentDayIndex, nextDayOffset)
      invariant 1 <= nextDayOffset <= target
      decreases target - nextDayOffset
    {
      assert nextDayOffset != target;
      nextDayOffset := nextDayOffset + 1;
    }
  }

  // ---------------------------------------------------------------------------
  // What the calculus promises

  /** On a Friday after the target time, with no day outside the working week
      requested (or none at all), the run is exactly three days ahead, whatever
      the requested days are. */
  lemma FridayRolloverRule(time: string, days: seq<string>, now: int)
    requires IsHHMM(time)
    requires MskWeekday(now) == 5 && MskMinuteOfDay(now) > TimeToMinutes(time)
    requires |days| == 0 || forall i :: 0 <= i < |days| ==> days[i] in WEEK_DAYS
    ensures ScanTerminates(time, days, now)
    ensures NextRunSpec(time, days, now).dayOffset == 3
  {
  }

  /** An empty day list is the working week, never "no day". */
  lemma EmptyDaysAreWeekDays(time: string, now: int)
    requires IsHHMM(time)
    ensures ScanTerminates(time, [], now) && ScanTerminates(time, WEEK_DAYS, now)
    ensures NextRunSpec(time, [], now) == NextRunSpec(time, WEEK_DAYS, now)
  {
    assert ALL_DAYS[1] in WEEK_DAYS;
    assert AllWeekDays(WEEK_DAYS);
  }

  /** The run is today exactly when today is active and the target minute has
      not passed; otherwise it is the first active day after today, one to
      seven days ahead, or the Friday rule applies. */
  lemma {:induction false} NextRunCases(time: string, days: seq<string>, now: int)
    requires IsHHMM(time) && ScanTerminates(time, days, now)
    ensures var r := NextRunSpec(time, days, now);
      var today := MskWeekday(now);
      && (r.dayOffset == 0 <==> RunsToday(time, days, now))
      && (!RunsToday(time, days, now) && !FridayRollover(time, days, now) ==>
            1 <= r.dayOffset <= 7
            && ActiveAfter(ActiveDays(days), today, r.dayOffset)
            && forall j :: 1 <= j < r.dayOffset ==> !ActiveAfter(ActiveDays(days), today, j))
  {
    var today := MskWeekday(now);
    if !FridayRollover(time, days, now) && !RunsToday(time, days, now) {
      ValidDayReached(ActiveDays(days), today);
      var k := ScanOffset(ActiveDays(days), today, 1);
      assert NextRunSpec(time, days, now).dayOffset == k;
    }
  }

  /** The epoch instant the source returns for a computed run: Moscow midnight
      of today, plus the day offset, at the target hour and minute, keeping
      the seconds and milliseconds of `now` as luxon's `set` does. */
  function RunInstant(now: int, r: NextRun): int
  {
    MskDayStart(now) + r.dayOffset * DAY_MS + r.hour * HOUR_MS + r.minute * MINUTE_MS
    + (now - MskDayStart(now)) % MINUTE_MS
  }

  /** The computed instant is never in the past, and it is strictly in the
      future unless the run is today. */
  lemma {:induction false} RunInstantNotPast(time: string, days: seq<string>, now: int)
    requires IsHHMM(time) && ScanTerminates(time, days, now)
    ensures RunInstant(now, NextRunSpec(time, days, now)) >= now
    ensures !RunsToday(time, days, now) ==> RunInstant(now, NextRunSpec(time, days, now)) > now
  {
    var r := NextRunSpec(time, days, now);
    NextRunCases(time, days, now);
    var start := MskDayStart(now);
    var x := now - start;
    assert x == LocalMs(now) % DAY_MS;
    assert x == (x / MINUTE_MS) * MINUTE_MS + x % MINUTE_MS;
    assert x / MINUTE_MS == MskMinuteOfDay(now);
    if r.dayOffset == 0 {
      assert MskMinuteOfDay(now) <= r.hour * 60 + r.minute;
      assert MskMinuteOfDay(now) * MINUTE_MS <= r.hour * HOUR_MS + r.minute * MINUTE_MS;
    }
  }

  // ---------------------------------------------------------------------------
  // The four scenarios of src/utils/__tests__/time.test.ts, with the test
  // clock read as UTC wall time.

  /** Saturday 2025-04-05 12:00 UTC, days mon and wed: Monday 2025-04-07 09:00 UTC. */
  lemma SaturdayToMonday()
    ensures ScanTerminates("12:00", ["mon", "wed"], 1743854400000)
    ensures NextRunSpec("12:00", ["mon", "wed"], 1743854400000) == NextRun(2, 12, 0)
    ensures RunInstant(1743854400000, NextRun(2, 12, 0)) == 1744016400000
  {
    var now := 1743854400000;
    assert MskWeekday(now) == 6;
    assert ALL_DAYS[1] in ["mon", "wed"];
    assert !ActiveAfter(["mon", "wed"], 6, 1);
    assert ActiveAfter(["mon", "wed"], 6, 2);
  }

  /** Friday 2025-04-04 12:00 UTC, days fri and sat: Saturday 2025-04-05 09:00 UTC
      ("sat" is not a working day, so the Friday rule does not apply). */
  lemma FridayAfternoonToSaturday()
    ensures ScanTerminates("12:00", ["fri", "sat"], 1743768000000)
    ensures NextRunSpec("12:00", ["fri", "sat"], 1743768000000) == NextRun(1, 12, 0)
    ensures RunInstant(1743768000000, NextRun(1, 12, 0)) == 1743843600000
  {
    var now := 1743768000000;
    assert MskWeekday(now) == 5 && MskMinuteOfDay(now) == 900;
    assert ["fri", "sat"][1] == "sat" && "sat" !in WEEK_DAYS;
    assert !AllWeekDays(["fri", "sat"]);
    assert ActiveAfter(["fri", "sat"], 5, 1);
  }

  /** Friday 2025-04-04 05:00 UTC, days fri and sat: today, 09:00 UTC. */
  lemma FridayMorningToday()
    ensures ScanTerminates("12:00", ["fri", "sat"], 1743742800000)
    ensures NextRunSpec("12:00", ["fri", "sat"], 1743742800000) == NextRun(0, 12, 0)
    ensures RunInstant(1743742800000, NextRun(0, 12, 0)) == 1743757200000
  {
    var now := 1743742800000;
    assert MskWeekday(now) == 5 && MskMinuteOfDay(now) == 480;
    assert ALL_DAYS[5] in ["fri", "sat"];
  }

  /** Friday 2025-04-04 13:00 UTC, no days: the Friday rule, Monday 09:00 UTC. */
  lemma FridayRolloverToMonday()
    ensures ScanTerminates("12:00", [], 1743771600000)
    ensures NextRunSpec("12:00", [], 1743771600000) == NextRun(3, 12, 0)
    ensures RunInstant(1743771600000, NextRun(3, 12, 0)) == 1744016400000
  {
    var now := 1743771600000;
    assert MskWeekday(now) == 5 && MskMinuteOfDay(now) == 960;
  }

  /** The Friday rule lands on Monday even when only Friday was requested. */
  lemma FridayOnlyRollsToMonday()
    ensures ScanTerminates("12:00", ["fri"], 1743771600000)
    ensures NextRunSpec("12:00", ["fri"], 1743771600000).dayOffset == 3
    ensures ALL_DAYS[(MskWeekday(1743771600000) + 3) % 7] !in ["fri"]
  {
    assert MskWeekday(1743771600000) == 5 && MskMinuteOfDay(1743771600000) == 960;
    assert ["fri"][0] == ALL_DAYS[5];
    assert AllWeekDays(["fri"]);
    assert ALL_DAYS[1] != "fri";
  }

  /** 1744009200000 is a Monday, 10:00 in Moscow: a 09:00 slot has passed. */
  lemma MondayTenOClock()
    ensures MskWeekday(1744009200000) == 1 && MskMinuteOfDay(1744009200000) == 600
    ensures !StrLe(MskClock(1744009200000), "09:00")
  {
    var now := 1744009200000;
    assert MskWeekday(now) == 1 && MskMinuteOfDay(now) == 600;
    ClockComparisonAgrees(now, "09:00");
  }
}
