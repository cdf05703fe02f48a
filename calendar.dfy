/**
 * `simplifyCalendarData` of `src/requests/my_team.ts`: the absence calendar
 * fetched from the team service is cut down to the absences dated today,
 * and users with none are dropped.
 *
 * Today's "dd.MM.yyyy" string is a parameter, and so is JavaScript's
 * `Number` conversion of an absence's `count` (its result type `N` stands
 * for JavaScript numbers, NaN included). Only the fields the function reads
 * are kept in the input records.
 */
module Calendar {
  datatype Absence = Absence(date: string, count: string, typeName: string, statusName: string)

  datatype CalendarItem = CalendarItem(user: string, absences: seq<Absence>)

  datatype SimplifiedAbsence<N> = SimplifiedAbsence(date: string, count: N, typeName: string, statusName: string)

  datatype SimplifiedItem<N> = SimplifiedItem(user: string, absences: seq<SimplifiedAbsence<N>>)

  /** `{ date, count: Number(count), typeName: type.name, statusName: status.name }`. */
  function Simplify<N>(a: Absence, number: string -> N): (s: SimplifiedAbsence<N>)
    ensures s.date == a.date && s.count == number(a.count)
    ensures s.typeName == a.typeName && s.statusName == a.statusName
  {
    SimplifiedAbsence(a.date, number(a.count), a.typeName, a.statusName)
  }

  /** `absences.filter(abs => abs.date === today).map(...)`. */
  function TodayAbsences<N>(abs: seq<Absence>, today: string, number: string -> N): (r: seq<SimplifiedAbsence<N>>)
    ensures |r| <= |abs|
    ensures forall k :: 0 <= k < |r| ==> r[k].date == today
    ensures |r| == 0 <==> forall j :: 0 <= j < |abs| ==> abs[j].date != today
  {
    if |abs| == 0 then []
    else
      var rest := TodayAbsences(abs[1..], today, number);
      assert forall j :: 1 <= j < |abs| ==> abs[j] == abs[1..][j - 1];
      if abs[0].date == today then [Simplify(abs[0], number)] + rest else rest
  }

  /** `simplifyCalendarData`: each user with today's absences, in order. */
  function SimplifyCalendarData<N>(items: seq<CalendarItem>, today: string, number: string -> N)
    : (r: seq<SimplifiedItem<N>>)
    ensures |r| <= |items|
    ensures forall k :: 0 <= k < |r| ==>
      |r[k].absences| > 0 && forall m :: 0 <= m < |r[k].absences| ==> r[k].absences[m].date == today
  {
    if |items| == 0 then []
    else
      var rest := SimplifyCalendarData(items[1..], today, number);
      var kept := TodayAbsences(items[0].absences, today, number);
      if |kept| == 0 then rest else [SimplifiedItem(items[0].user, kept)] + rest
  }

  /** Filtering is done piecewise: the absences of a concatenation are the
      absences of each part, in order. */
  lemma {:induction false} TodayAbsencesConcat<N>(a: seq<Absence>, b: seq<Absence>, today: string,
                                                   number: string -> N)
    ensures TodayAbsences(a + b, today, number) == TodayAbsences(a, today, number) + TodayAbsences(b, today, number)
  {
    if |a| > 0 {
      assert (a + b)[1..] == a[1..] + b;
      TodayAbsencesConcat(a[1..], b, today, number);
    } else {
      assert a + b == b;
    }
  }

  /** One absence is kept, simplified, exactly when it is dated today. */
  lemma TodayAbsencesSingle<N>(a: Absence, today: string, number: string -> N)
    ensures TodayAbsences([a], today, number) == if a.date == today then [Simplify(a, number)] else []
  {
    assert [a][1..] == [];
  }

  /** Every kept absence is the simplified form of an input absence dated
      today, and the kept ones appear in input order. */
  lemma {:induction false} KeptAbsenceSource<N>(abs: seq<Absence>, today: string, number: string -> N, k: nat)
    returns (j: nat)
    requires k < |TodayAbsences(abs, today, number)|
    ensures j < |abs| && abs[j].date == today
    ensures TodayAbsences(abs, today, number)[k] == Simplify(abs[j], number)
    ensures |TodayAbsences(abs[..j], today, number)| == k
  {
    var head := TodayAbsences([abs[0]], today, number);
    TodayAbsencesSingle(abs[0], today, number);
    if abs[0].date == today && k == 0 {
      j := 0;
      assert abs[..0] == [];
    } else {
      var rest := TodayAbsences(abs[1..], today, number);
      assert TodayAbsences(abs, today, number) == head + rest by {
        assert abs == [abs[0]] + abs[1..];
        TodayAbsencesConcat([abs[0]], abs[1..], today, number);
      }
      var j' := KeptAbsenceSource(abs[1..], today, number, k - |head|);
      j := j' + 1;
      assert abs[1..][j'] == abs[j];
      assert |TodayAbsences(abs[..j], today, number)| == k by {
        PrefixOfTail(abs, j');
        TodayAbsencesConcat([abs[0]], abs[1..][..j'], today, number);
      }
    }
  }

  lemma PrefixOfTail<T>(s: seq<T>, n: nat)
    requires n < |s|
    ensures s[..n + 1] == [s[0]] + s[1..][..n]
  {
  }

  /** Every absence dated today is kept. */
  lemma {:induction false} TodayAbsenceKept<N>(abs: seq<Absence>, today: string, number: string -> N, j: nat)
    requires j < |abs| && abs[j].date == today
    ensures Simplify(abs[j], number) in TodayAbsences(abs, today, number)
  {
    if j > 0 {
      assert abs[1..][j - 1] == abs[j];
      TodayAbsenceKept(abs[1..], today, number, j - 1);
    }
  }

  /** The users of a concatenation are the users of each part, in order. */
  lemma {:induction false} SimplifyConcat<N>(a: seq<CalendarItem>, b: seq<CalendarItem>, today: string,
                                             number: string -> N)
    ensures SimplifyCalendarData(a + b, today, number)
      == SimplifyCalendarData(a, today, number) + SimplifyCalendarData(b, today, number)
  {
    if |a| > 0 {
      assert (a + b)[1..] == a[1..] + b;
      assert (a + b)[0] == a[0];
      SimplifyConcat(a[1..], b, today, number);
    } else {
      assert a + b == b;
    }
  }

  /** One user is dropped exactly when none of their absences is dated
      today, and otherwise kept with today's absences. */
  lemma SimplifySingle<N>(item: CalendarItem, today: string, number: string -> N)
    ensures SimplifyCalendarData([item], today, number)
      == if forall j :: 0 <= j < |item.absences| ==> item.absences[j].date != today then []
         else [SimplifiedItem(item.user, TodayAbsences(item.absences, today, number))]
  {
    assert [item][1..] == [];
  }
}
