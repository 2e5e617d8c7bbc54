/**
 * The monthly birthday hook: from the member rows that have a birth date, keep
 * those born in the current month, add the age they turn this year and the day
 * of the month, and order them by that day.
 */
module MonthlyBirthdays {
  import opened Common

  /** A calendar date as integer components; `month` is 1-based. */
  datatype Date = Date(year: int, month: int, day: int)

  /** A row of the birthday query: a member with a birth date. */
  datatype BirthdayRow = BirthdayRow(id: string, name: string, birthDate: Date, whatsapp: Option<string>)

  /** A row of the result: the query row plus the derived `age` and `day`. */
  datatype MonthlyBirthday = MonthlyBirthday(
    id: string, name: string, birthDate: Date, whatsapp: Option<string>, age: int, day: int)
  {
    /** The query row this item was built from. */
    function Row(): BirthdayRow {
      BirthdayRow(id, name, birthDate, whatsapp)
    }
  }

  // ---------------------------------------------------------------------------
  // Filter
  // ---------------------------------------------------------------------------

  /** The rows whose birth month is `month`, in their original order (BornInMonthAppend). */
  function BornInMonth(rows: seq<BirthdayRow>, month: int): (r: seq<BirthdayRow>)
    ensures forall x :: multiset(r)[x] == if x.birthDate.month == month then multiset(rows)[x] else 0
  {
    if rows == [] then []
    else
      assert rows == [rows[0]] + rows[1..];
      (if rows[0].birthDate.month == month then [rows[0]] else []) + BornInMonth(rows[1..], month)
  }

  lemma ConcatAssoc<T>(x: seq<T>, y: seq<T>, z: seq<T>)
    ensures x + (y + z) == (x + y) + z
  {
  }

  /** The filter looks at the first row and then at the rest. */
  lemma BornInMonthCons(row: BirthdayRow, rest: seq<BirthdayRow>, month: int)
    ensures BornInMonth([row] + rest, month) == (if row.birthDate.month == month then [row] else []) + BornInMonth(rest, month)
  {
    assert ([row] + rest)[1..] == rest;
  }

  /** A single row is kept exactly when it was born in `month`. */
  lemma BornInMonthSingle(row: BirthdayRow, month: int)
    ensures BornInMonth([row], month) == if row.birthDate.month == month then [row] else []
  {
    assert [row][1..] == [];
  }

  /** The filter keeps the input order: filtering a concatenation concatenates the filtered parts. */
  lemma {:induction false} BornInMonthAppend(a: seq<BirthdayRow>, b: seq<BirthdayRow>, month: int)
    ensures BornInMonth(a + b, month) == BornInMonth(a, month) + BornInMonth(b, month)
  {
    if a == [] {
      assert a + b == b;
    } else {
      var x, tail := a[0], a[1..];
      assert a == [x] + tail;
      assert a + b == [x] + (tail + b);
      var head := if x.birthDate.month == month then [x] else [];
      var ft, fb := BornInMonth(tail, month), BornInMonth(b, month);
      BornInMonthAppend(tail, b, month);
      BornInMonthCons(x, tail + b, month);
      BornInMonthCons(x, tail, month);
      calc {
        BornInMonth(a + b, month);
        BornInMonth([x] + (tail + b), month);
        head + BornInMonth(tail + b, month);
        head + (ft + fb);
        { ConcatAssoc(head, ft, fb); }
        (head + ft) + fb;
        BornInMonth([x] + tail, month) + fb;
        BornInMonth(a, month) + fb;
      }
    }
  }

  // ---------------------------------------------------------------------------
  // Map
  // ---------------------------------------------------------------------------

  /** One result item: the row spread, plus the age turned in `today`'s year and the day of the month. */
  function WithAgeAndDay(row: BirthdayRow, today: Date): (b: MonthlyBirthday)
    ensures b.Row() == row
    ensures b.age == today.year - row.birthDate.year
    ensures b.day == row.birthDate.day
  {
    MonthlyBirthday(row.id, row.name, row.birthDate, row.whatsapp,
                    today.year - row.birthDate.year, row.birthDate.day)
  }

  /** `rows.map(...)` with WithAgeAndDay. */
  function Annotate(rows: seq<BirthdayRow>, today: Date): (r: seq<MonthlyBirthday>)
    ensures |r| == |rows|
    ensures forall i :: 0 <= i < |rows| ==> r[i] == WithAgeAndDay(rows[i], today)
  {
    if rows == [] then [] else [WithAgeAndDay(rows[0], today)] + Annotate(rows[1..], today)
  }

  // ---------------------------------------------------------------------------
  // Sort (a stable sort by day, as `Array.prototype.sort` is)
  // ---------------------------------------------------------------------------

  ghost predicate SortedByDay(s: seq<MonthlyBirthday>) {
    forall i, j :: 0 <= i < j < |s| ==> s[i].day <= s[j].day
  }

  /** The items of `s` whose day is `d`, in their order in `s`. */
  function OnDay(s: seq<MonthlyBirthday>, d: int): seq<MonthlyBirthday> {
    if s == [] then []
    else (if s[0].day == d then [s[0]] else []) + OnDay(s[1..], d)
  }

  /** An item no later than the head of a sorted sequence can go in front of it. */
  lemma ConsSorted(x: MonthlyBirthday, s: seq<MonthlyBirthday>)
    requires SortedByDay(s)
    requires s == [] || x.day <= s[0].day
    ensures SortedByDay([x] + s)
  {
  }

  /** Inserts `b` into a sorted sequence before the first item with a day not smaller than its own. */
  function InsertByDay(b: MonthlyBirthday, s: seq<MonthlyBirthday>): (r: seq<MonthlyBirthday>)
    requires SortedByDay(s)
    ensures SortedByDay(r)
    ensures multiset(r) == multiset(s) + multiset{b}
    ensures |r| == |s| + 1 && (r[0] == b || (s != [] && r[0] == s[0]))
  {
    if s == [] || b.day <= s[0].day then
      ConsSorted(b, s);
      [b] + s
    else
      var rest := InsertByDay(b, s[1..]);
      assert s == [s[0]] + s[1..];
      ConsSorted(s[0], rest);
      [s[0]] + rest
  }

  /** Insertion sort by day. */
  function SortByDay(s: seq<MonthlyBirthday>): (r: seq<MonthlyBirthday>)
    ensures SortedByDay(r)
    ensures multiset(r) == multiset(s)
  {
    if s == [] then []
    else
      assert s == [s[0]] + s[1..];
      InsertByDay(s[0], SortByDay(s[1..]))
  }

  lemma {:induction false} OnDayAppend(a: seq<MonthlyBirthday>, b: seq<MonthlyBirthday>, d: int)
    ensures OnDay(a + b, d) == OnDay(a, d) + OnDay(b, d)
  {
    if a != [] {
      assert (a + b)[0] == a[0] && (a + b)[1..] == a[1..] + b;
      OnDayAppend(a[1..], b, d);
      var head := if a[0].day == d then [a[0]] else [];
      calc {
        OnDay(a + b, d);
        head + OnDay(a[1..] + b, d);
        head + (OnDay(a[1..], d) + OnDay(b, d));
        (head + OnDay(a[1..], d)) + OnDay(b, d);
        OnDay(a, d) + OnDay(b, d);
      }
    } else {
      assert a + b == b;
    }
  }

  lemma OnDaySingle(x: MonthlyBirthday, d: int)
    ensures OnDay([x], d) == if x.day == d then [x] else []
  {
    assert [x][1..] == [];
  }

  /** Two items with different days can trade places without changing any day's items. */
  lemma {:induction false} SwapDistinctDays(x: MonthlyBirthday, b: MonthlyBirthday,
                                            rest: seq<MonthlyBirthday>, tail: seq<MonthlyBirthday>, d: int)
    requires x.day != b.day
    requires OnDay(rest, d) == OnDay([b] + tail, d)
    ensures OnDay([x] + rest, d) == OnDay([b] + ([x] + tail), d)
  {
    var t := OnDay(tail, d);
    OnDaySingle(x, d);
    OnDaySingle(b, d);
    OnDayAppend([x], rest, d);
    OnDayAppend([b], tail, d);
    OnDayAppend([x], tail, d);
    OnDayAppend([b], [x] + tail, d);
    if x.day == d {
      // b is not on day d
      assert OnDay(rest, d) == t;
      assert OnDay([b] + ([x] + tail), d) == OnDay([x] + tail, d);
    } else {
      assert OnDay([x] + rest, d) == OnDay(rest, d);
      assert OnDay([x] + tail, d) == t;
    }
  }

  /** Inserting into a sorted sequence puts the new item ahead of the items that share its day. */
  lemma {:induction false} InsertKeepsDayOrder(b: MonthlyBirthday, s: seq<MonthlyBirthday>, d: int)
    requires SortedByDay(s)
    ensures OnDay(InsertByDay(b, s), d) == OnDay([b] + s, d)
  {
    if s != [] && b.day > s[0].day {
      InsertKeepsDayOrder(b, s[1..], d);
      SwapDistinctDays(s[0], b, InsertByDay(b, s[1..]), s[1..], d);
      assert [s[0]] + s[1..] == s;
    }
  }

  /** Putting the same item in front of two sequences with the same items per day keeps them so. */
  lemma SameHeadSameDays(x: MonthlyBirthday, a: seq<MonthlyBirthday>, b: seq<MonthlyBirthday>, d: int)
    requires OnDay(a, d) == OnDay(b, d)
    ensures OnDay([x] + a, d) == OnDay([x] + b, d)
  {
    OnDayAppend([x], a, d);
    OnDayAppend([x], b, d);
  }

  /** The sort is stable: the items of each day keep their order. */
  lemma {:induction false} SortIsStable(s: seq<MonthlyBirthday>, d: int)
    ensures OnDay(SortByDay(s), d) == OnDay(s, d)
  {
    if s != [] {
      var sortedTail := SortByDay(s[1..]);
      SortIsStable(s[1..], d);
      InsertKeepsDayOrder(s[0], sortedTail, d);
      SameHeadSameDays(s[0], sortedTail, s[1..], d);
      assert s == [s[0]] + s[1..];
    }
  }

  // ---------------------------------------------------------------------------
  // The pipeline
  // ---------------------------------------------------------------------------

  /** `data?.filter(...).map(...).sort(...) || []` for the rows of the query and today's date. */
  function MonthlyBirthdaysOf(data: Option<seq<BirthdayRow>>, today: Date): (r: seq<MonthlyBirthday>)
    ensures data.None? ==> r == []
    ensures data.Some? ==> multiset(r) == multiset(Annotate(BornInMonth(data.value, today.month), today))
    ensures SortedByDay(r)
    ensures data.Some? ==> forall d :: OnDay(r, d) == OnDay(Annotate(BornInMonth(data.value, today.month), today), d)
  {
    match data
    case None => []
    case Some(rows) =>
      var annotated := Annotate(BornInMonth(rows, today.month), today);
      var r := SortByDay(annotated);
      assert forall d :: OnDay(r, d) == OnDay(annotated, d) by {
        forall d ensures OnDay(r, d) == OnDay(annotated, d) {
          SortIsStable(annotated, d);
        }
      }
      r
  }

  /**
   * An item is in the result exactly when it is built from a fetched row born in
   * the current month; its age is the difference of the years and its day the
   * day of the birth date.
   */
  lemma MonthlyBirthdaysMembers(rows: seq<BirthdayRow>, today: Date, b: MonthlyBirthday)
    ensures b in MonthlyBirthdaysOf(Some(rows), today) <==>
      b.Row() in rows && b.birthDate.month == today.month && b == WithAgeAndDay(b.Row(), today)
  {
    var filtered := BornInMonth(rows, today.month);
    var annotated := Annotate(filtered, today);
    var r := MonthlyBirthdaysOf(Some(rows), today);
    assert b in r <==> b in multiset(r);
    assert b in r <==> b in annotated by {
      assert b in multiset(r) <==> b in multiset(annotated);
    }
    if b in annotated {
      var i :| 0 <= i < |annotated| && annotated[i] == b;
      assert b == WithAgeAndDay(filtered[i], today);
      assert filtered[i] in multiset(filtered);
      assert b.Row() in multiset(rows);
    }
    if b.Row() in rows && b.birthDate.month == today.month && b == WithAgeAndDay(b.Row(), today) {
      assert b.Row() in multiset(filtered);
      var i :| 0 <= i < |filtered| && filtered[i] == b.Row();
      assert annotated[i] == b;
    }
  }

  /** Result items all have the current birth month. */
  lemma MonthlyBirthdaysInMonth(data: Option<seq<BirthdayRow>>, today: Date)
    ensures forall b :: b in MonthlyBirthdaysOf(data, today) ==>
      b.birthDate.month == today.month && b.age == today.year - b.birthDate.year && b.day == b.birthDate.day
  {
    if data.Some? {
      forall b | b in MonthlyBirthdaysOf(data, today)
        ensures b.birthDate.month == today.month && b.age == today.year - b.birthDate.year && b.day == b.birthDate.day
      {
        MonthlyBirthdaysMembers(data.value, today, b);
      }
    }
  }

  // ---------------------------------------------------------------------------
  // The hook's state
  // ---------------------------------------------------------------------------

  /** The answer of the birthday query: the rows (possibly `null`), or an error. */
  datatype BirthdayQuery = Rows(data: Option<seq<BirthdayRow>>) | QueryFailed

  /** The state of the hook: `monthlyBirthdays` and `loading`. */
  class BirthdayHook {
    var monthlyBirthdays: seq<MonthlyBirthday>
    var loading: bool

    /** The initial state: no birthdays, loading. */
    constructor ()
      ensures monthlyBirthdays == [] && loading
    {
      monthlyBirthdays := [];
      loading := true;
    }

    /**
     * One run of the fetch with today's date and the query's answer: the list is
     * replaced on success and kept on failure; `loading` ends false either way.
     */
    method FetchMonthlyBirthdays(today: Date, answer: BirthdayQuery)
      modifies this
      ensures !loading
      ensures answer.QueryFailed? ==> monthlyBirthdays == old(monthlyBirthdays)
      ensures answer.Rows? ==> monthlyBirthdays == MonthlyBirthdaysOf(answer.data, today)
    {
      if answer.Rows? {
        monthlyBirthdays := MonthlyBirthdaysOf(answer.data, today);
      }
      loading := false;
    }
  }
}
