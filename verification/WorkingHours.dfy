/**
 * Weekly working hours: validation of a submitted row list, and the per-date rules built from stored rows and
 * schedule exceptions. Times of day are minutes, dates are day numbers counted from 1 January 1970 (a Thursday).
 */
module WorkingHours {
  import opened Common

  const MINUTES_PER_DAY := 1440

  datatype Row = Row(dayOfWeek: int, startTime: int, endTime: int, isActive: bool)

  datatype Range = Range(start: int, end: int)

  datatype Exception = Exception(isClosed: bool, overrideStart: Option<int>, overrideEnd: Option<int>)

  datatype DayRule = DayRule(date: int, isClosed: bool, ranges: seq<Range>)

  datatype Error = StartNotBeforeEnd(day: int) | OverlappingHours(day: int)

  // ---------- What validation promises ----------

  predicate Separate(a: Range, b: Range) {
    a.end <= b.start || b.end <= a.start
  }

  function RangeOf(row: Row): Range {
    Range(row.startTime, row.endTime)
  }

  /** Every row runs forward, and any two rows of one day are disjoint. */
  predicate Accepted(rows: seq<Row>) {
    && (forall i :: 0 <= i < |rows| ==> rows[i].startTime < rows[i].endTime)
    && (forall i, j :: 0 <= i < j < |rows| && rows[i].dayOfWeek == rows[j].dayOfWeek ==>
          Separate(RangeOf(rows[i]), RangeOf(rows[j])))
  }

  // ---------- Sorting, and why an adjacent check suffices ----------

  function Insert(x: Range, s: seq<Range>): seq<Range> {
    if s == [] || x.start < s[0].start then [x] + s else [s[0]] + Insert(x, s[1..])
  }

  function SortByStart(s: seq<Range>): seq<Range> {
    if s == [] then [] else Insert(s[0], SortByStart(s[1..]))
  }

  predicate StartsAscend(s: seq<Range>) {
    forall i, j :: 0 <= i && j == i + 1 < |s| ==> s[i].start <= s[j].start
  }

  predicate NoneTouch(s: seq<Range>) {
    forall i, j :: 0 <= i && j == i + 1 < |s| ==> s[i].end <= s[j].start
  }

  predicate Forward(s: seq<Range>) {
    forall x :: x in s ==> x.start < x.end
  }

  predicate ApartFrom(x: Range, s: seq<Range>) {
    forall y :: y in s ==> Separate(x, y)
  }

  predicate Apart(s: seq<Range>) {
    s != [] ==> ApartFrom(s[0], s[1..]) && Apart(s[1..])
  }

  lemma {:induction false} InsertMembers(x: Range, s: seq<Range>, y: Range)
    ensures y in Insert(x, s) <==> y == x || y in s
  {
    if s == [] || x.start < s[0].start {
    } else {
      InsertMembers(x, s[1..], y);
    }
  }

  lemma {:induction false} InsertAscends(x: Range, s: seq<Range>)
    requires StartsAscend(s)
    ensures StartsAscend(Insert(x, s))
    ensures Insert(x, s)[0].start == if s == [] || x.start < s[0].start then x.start else s[0].start
  {
    if s == [] || x.start < s[0].start {
    } else {
      InsertAscends(x, s[1..]);
    }
  }

  lemma {:induction false} InsertApart(x: Range, s: seq<Range>)
    ensures Apart(Insert(x, s)) <==> ApartFrom(x, s) && Apart(s)
  {
    if s == [] || x.start < s[0].start {
      assert ([x] + s)[1..] == s;
    } else {
      var rest := Insert(x, s[1..]);
      InsertApart(x, s[1..]);
      forall y ensures y in rest <==> y == x || y in s[1..] { InsertMembers(x, s[1..], y); }
      assert ([s[0]] + rest)[1..] == rest;
      assert ApartFrom(s[0], rest) <==> Separate(s[0], x) && ApartFrom(s[0], s[1..]);
      assert ApartFrom(x, s) <==> Separate(x, s[0]) && ApartFrom(x, s[1..]);
    }
  }

  lemma {:induction false} SortMembers(s: seq<Range>, y: Range)
    ensures y in SortByStart(s) <==> y in s
  {
    if s == [] {
    } else {
      SortMembers(s[1..], y);
      InsertMembers(s[0], SortByStart(s[1..]), y);
    }
  }

  lemma {:induction false} SortKeeps(s: seq<Range>)
    ensures StartsAscend(SortByStart(s))
    ensures Apart(SortByStart(s)) <==> Apart(s)
  {
    if s == [] {
    } else {
      var rest := SortByStart(s[1..]);
      SortKeeps(s[1..]);
      InsertAscends(s[0], rest);
      InsertApart(s[0], rest);
      forall y ensures y in rest <==> y in s[1..] { SortMembers(s[1..], y); }
    }
  }

  lemma {:induction false} NoneTouchReachesFar(s: seq<Range>, j: nat)
    requires Forward(s) && NoneTouch(s) && 0 < j < |s|
    ensures s[0].end <= s[j].start
  {
    if j == 1 {
    } else {
      NoneTouchReachesFar(s, j - 1);
      assert s[j - 1] in s && s[j - 1].end <= s[j].start;
    }
  }

  /** On ranges sorted by start, the check between neighbours decides disjointness of all pairs. */
  lemma {:induction false} AdjacentDecidesAllPairs(s: seq<Range>)
    requires Forward(s) && StartsAscend(s)
    ensures NoneTouch(s) <==> Apart(s)
  {
    if |s| <= 1 {
    } else {
      var rest := s[1..];
      assert Forward(rest) && StartsAscend(rest);
      AdjacentDecidesAllPairs(rest);
      if NoneTouch(s) {
        forall y | y in rest ensures Separate(s[0], y) {
          var j :| 0 <= j < |rest| && rest[j] == y;
          NoneTouchReachesFar(s, j + 1);
        }
      }
      if Apart(s) {
        assert s[0] in s && s[1] in s && s[1] in rest && Separate(s[0], s[1]);
        forall i, j | 0 <= i && j == i + 1 < |s| ensures s[i].end <= s[j].start {
          if i > 0 { assert rest[i - 1].end <= rest[j - 1].start; }
        }
      }
    }
  }

  // ---------- Rows grouped by day ----------

  function RangesOf(rows: seq<Row>, day: int): seq<Range> {
    if rows == [] then []
    else (if rows[0].dayOfWeek == day then [RangeOf(rows[0])] else []) + RangesOf(rows[1..], day)
  }

  lemma {:induction false} RangesOfSnoc(rows: seq<Row>, row: Row, day: int)
    ensures RangesOf(rows + [row], day) == RangesOf(rows, day) + if row.dayOfWeek == day then [RangeOf(row)] else []
  {
    if rows == [] {
      assert [row][1..] == [];
    } else {
      RangesOfSnoc(rows[1..], row, day);
      assert (rows + [row])[1..] == rows[1..] + [row];
    }
  }

  lemma {:induction false} RangesOfMembers(rows: seq<Row>, day: int, x: Range)
    ensures x in RangesOf(rows, day) <==> exists i :: 0 <= i < |rows| && rows[i].dayOfWeek == day && RangeOf(rows[i]) == x
  {
    if rows == [] {
    } else {
      RangesOfMembers(rows[1..], day, x);
      if i :| 0 <= i < |rows| && rows[i].dayOfWeek == day && RangeOf(rows[i]) == x {
        if i > 0 { assert rows[1..][i - 1] == rows[i]; }
      }
      if i :| 0 <= i < |rows[1..]| && rows[1..][i].dayOfWeek == day && RangeOf(rows[1..][i]) == x {
        assert rows[i + 1] == rows[1..][i];
      }
    }
  }

  lemma ApartOfCons(rows: seq<Row>, day: int)
    requires rows != []
    ensures Apart(RangesOf(rows, day)) <==>
              && Apart(RangesOf(rows[1..], day))
              && (day == rows[0].dayOfWeek ==> ApartFrom(RangeOf(rows[0]), RangesOf(rows[1..], day)))
  {
    if day == rows[0].dayOfWeek {
      assert RangesOf(rows, day)[1..] == RangesOf(rows[1..], day);
    } else {
      assert RangesOf(rows, day) == RangesOf(rows[1..], day);
    }
  }

  lemma AcceptedOfCons(rows: seq<Row>)
    requires rows != [] && rows[0].startTime < rows[0].endTime
    ensures Accepted(rows) <==>
              && Accepted(rows[1..])
              && ApartFrom(RangeOf(rows[0]), RangesOf(rows[1..], rows[0].dayOfWeek))
  {
    HeadApart(rows);
    var rest := rows[1..];
    assert forall i :: 0 <= i < |rest| ==> rest[i] == rows[i + 1];
    if Accepted(rest) && ApartFrom(RangeOf(rows[0]), RangesOf(rest, rows[0].dayOfWeek)) {
      forall i, j | 0 <= i < j < |rows| && rows[i].dayOfWeek == rows[j].dayOfWeek
        ensures Separate(RangeOf(rows[i]), RangeOf(rows[j]))
      {
        if i > 0 { assert rest[i - 1] == rows[i] && rest[j - 1] == rows[j]; }
      }
      forall i | 0 <= i < |rows| ensures rows[i].startTime < rows[i].endTime {
        if i > 0 { assert rest[i - 1] == rows[i]; }
      }
    }
  }

  ghost predicate ApartEveryDay(rows: seq<Row>) {
    forall day :: Apart(RangesOf(rows, day))
  }

  lemma ApartEveryDayOfCons(rows: seq<Row>)
    requires rows != []
    ensures ApartEveryDay(rows) <==>
              && ApartEveryDay(rows[1..])
              && ApartFrom(RangeOf(rows[0]), RangesOf(rows[1..], rows[0].dayOfWeek))
  {
    ApartOfCons(rows, rows[0].dayOfWeek);
    if ApartEveryDay(rows) {
      forall day ensures Apart(RangesOf(rows[1..], day)) { ApartOfCons(rows, day); }
    } else {
      var day :| !Apart(RangesOf(rows, day));
      ApartOfCons(rows, day);
    }
  }

  lemma {:induction false} AcceptedIsApartOnEveryDay(rows: seq<Row>)
    requires forall i :: 0 <= i < |rows| ==> rows[i].startTime < rows[i].endTime
    ensures Accepted(rows) <==> ApartEveryDay(rows)
  {
    if rows == [] {
    } else {
      assert forall i :: 0 <= i < |rows[1..]| ==> rows[1..][i] == rows[i + 1];
      AcceptedIsApartOnEveryDay(rows[1..]);
      AcceptedOfCons(rows);
      ApartEveryDayOfCons(rows);
    }
  }

  lemma HeadApart(rows: seq<Row>)
    requires rows != []
    ensures ApartFrom(RangeOf(rows[0]), RangesOf(rows[1..], rows[0].dayOfWeek)) <==>
              forall j :: 0 < j < |rows| && rows[j].dayOfWeek == rows[0].dayOfWeek ==> Separate(RangeOf(rows[0]), RangeOf(rows[j]))
  {
    var rest, d := rows[1..], rows[0].dayOfWeek;
    forall y ensures y in RangesOf(rest, d) <==> exists j :: 0 < j < |rows| && rows[j].dayOfWeek == d && RangeOf(rows[j]) == y {
      RangesOfMembers(rest, d, y);
      if j :| 0 < j < |rows| && rows[j].dayOfWeek == d && RangeOf(rows[j]) == y { assert rest[j - 1] == rows[j]; }
      if i :| 0 <= i < |rest| && rest[i].dayOfWeek == d && RangeOf(rest[i]) == y { assert rows[i + 1] == rest[i]; }
    }
  }

  // ---------- The operations ----------

  lemma SortedCheckDecides(ranges: seq<Range>)
    requires Forward(ranges)
    ensures NoneTouch(SortByStart(ranges)) <==> Apart(ranges)
  {
    SortKeeps(ranges);
    forall y | y in SortByStart(ranges) ensures y.start < y.end { SortMembers(ranges, y); }
    AdjacentDecidesAllPairs(SortByStart(ranges));
  }

  method DayOverlaps(ranges: seq<Range>) returns (overlaps: bool)
    requires Forward(ranges)
    ensures overlaps <==> !Apart(ranges)
  {
    SortedCheckDecides(ranges);
    var sorted := SortByStart(ranges);
    var i := 1;
    while i < |sorted|
      invariant 1 <= i
      invariant forall k, j :: 0 <= k && j == k + 1 && j < i && j < |sorted| ==> sorted[k].end <= sorted[j].start
    {
      if sorted[i - 1].end > sorted[i].start {
        assert !NoneTouch(sorted);
        return true;
      }
      i := i + 1;
    }
    assert NoneTouch(sorted);
    return false;
  }

  function Lookup(byDay: map<int, seq<Range>>, day: int): seq<Range> {
    if day in byDay then byDay[day] else []
  }

  /** The map built from a list of rows holds each day's ranges, in row order. */
  ghost predicate Grouped(rows: seq<Row>, byDay: map<int, seq<Range>>) {
    forall day :: Lookup(byDay, day) == RangesOf(rows, day)
  }

  function Push(byDay: map<int, seq<Range>>, row: Row): map<int, seq<Range>> {
    byDay[row.dayOfWeek := Lookup(byDay, row.dayOfWeek) + [RangeOf(row)]]
  }

  lemma PushLookup(byDay: map<int, seq<Range>>, row: Row, day: int)
    ensures Lookup(Push(byDay, row), day) == Lookup(byDay, day) + if row.dayOfWeek == day then [RangeOf(row)] else []
  {
  }

  lemma PushGroups(rows: seq<Row>, n: nat, byDay: map<int, seq<Range>>)
    requires n < |rows| && Grouped(rows[..n], byDay)
    ensures Grouped(rows[..n + 1], Push(byDay, rows[n]))
  {
    var row, before := rows[n], rows[..n];
    assert rows[..n + 1] == before + [row];
    forall day ensures Lookup(Push(byDay, row), day) == RangesOf(before + [row], day) {
      assert Lookup(byDay, day) == RangesOf(before, day);
      RangesOfSnoc(before, row, day);
      PushLookup(byDay, row, day);
    }
  }

  /** Checks the days in the order in which they first appeared. */
  method FindOverlappingDay(byDay: map<int, seq<Range>>, keys: seq<int>) returns (r: Option<int>)
    requires forall day :: day in keys <==> day in byDay
    requires forall day :: day in byDay ==> Forward(byDay[day])
    ensures r.Some? ==> r.value in byDay && !Apart(byDay[r.value])
    ensures r.None? ==> forall day :: day in byDay ==> Apart(byDay[day])
  {
    for k := 0 to |keys|
      invariant forall i :: 0 <= i < k ==> keys[i] in byDay && Apart(byDay[keys[i]])
    {
      var day := keys[k];
      assert day in keys;
      var overlaps := DayOverlaps(byDay[day]);
      if overlaps {
        return Some(day);
      }
    }
    return None;
  }

  /** The second loop: the days of rows that all run forward. */
  method ValidateDays(ghost rows: seq<Row>, byDay: map<int, seq<Range>>, keys: seq<int>) returns (r: Result<(), Error>)
    requires Grouped(rows, byDay) && (forall day :: day in keys <==> day in byDay)
    requires forall i :: 0 <= i < |rows| ==> rows[i].startTime < rows[i].endTime
    ensures r.Ok? <==> Accepted(rows)
    ensures r.Err? ==> r.error.OverlappingHours? && !Apart(RangesOf(rows, r.error.day))
  {
    forall day | day in byDay ensures Forward(byDay[day]) { GroupedRunsForward(rows, byDay, day); }
    var overlapping := FindOverlappingDay(byDay, keys);
    if overlapping.Some? {
      OverlapRefutes(rows, byDay, overlapping.value);
      return Err(OverlappingHours(overlapping.value));
    }
    NoOverlapAccepts(rows, byDay);
    return Ok(());
  }

  /** Accepts exactly the lists whose rows run forward and are disjoint day by day, and names an offending day otherwise. */
  method ValidateWorkingHourRows(rows: seq<Row>) returns (r: Result<(), Error>)
    ensures r.Ok? <==> Accepted(rows)
    ensures r.Err? && r.error.StartNotBeforeEnd? ==>
              exists i :: 0 <= i < |rows| && rows[i].dayOfWeek == r.error.day && rows[i].startTime >= rows[i].endTime
    ensures r.Err? && r.error.OverlappingHours? ==> !Apart(RangesOf(rows, r.error.day))
  {
    var byDay: map<int, seq<Range>> := map[];
    var keys: seq<int> := [];
    for n := 0 to |rows|
      invariant forall i :: 0 <= i < n ==> rows[i].startTime < rows[i].endTime
      invariant Grouped(rows[..n], byDay)
      invariant forall day :: day in keys <==> day in byDay
    {
      var row := rows[n];
      if row.startTime >= row.endTime {
        return Err(StartNotBeforeEnd(row.dayOfWeek));
      }
      PushGroups(rows, n, byDay);
      if row.dayOfWeek !in byDay { keys := keys + [row.dayOfWeek]; }
      byDay := Push(byDay, row);
    }
    assert rows[..|rows|] == rows;
    r := ValidateDays(rows, byDay, keys);
  }

  lemma GroupedRunsForward(rows: seq<Row>, byDay: map<int, seq<Range>>, day: int)
    requires Grouped(rows, byDay) && day in byDay
    requires forall i :: 0 <= i < |rows| ==> rows[i].startTime < rows[i].endTime
    ensures Forward(byDay[day])
  {
    assert Lookup(byDay, day) == RangesOf(rows, day);
    DayRunsForward(rows, day);
  }

  lemma OverlapRefutes(rows: seq<Row>, byDay: map<int, seq<Range>>, day: int)
    requires Grouped(rows, byDay) && day in byDay && !Apart(byDay[day])
    requires forall i :: 0 <= i < |rows| ==> rows[i].startTime < rows[i].endTime
    ensures !Accepted(rows) && !Apart(RangesOf(rows, day))
  {
    assert Lookup(byDay, day) == RangesOf(rows, day);
    AcceptedIsApartOnEveryDay(rows);
  }

  lemma NoOverlapAccepts(rows: seq<Row>, byDay: map<int, seq<Range>>)
    requires Grouped(rows, byDay) && forall day :: day in byDay ==> Apart(byDay[day])
    requires forall i :: 0 <= i < |rows| ==> rows[i].startTime < rows[i].endTime
    ensures Accepted(rows)
  {
    forall day ensures Apart(RangesOf(rows, day)) {
      assert Lookup(byDay, day) == RangesOf(rows, day);
    }
    AcceptedIsApartOnEveryDay(rows);
  }

  lemma DayRunsForward(rows: seq<Row>, day: int)
    requires forall i :: 0 <= i < |rows| ==> rows[i].startTime < rows[i].endTime
    ensures Forward(RangesOf(rows, day))
  {
    forall x | x in RangesOf(rows, day) ensures x.start < x.end {
      RangesOfMembers(rows, day, x);
    }
  }

  // ---------- Rules per date ----------

  function WeekdayOf(date: int): int {
    (date + 4) % 7
  }

  /** A closed exception wins, then a complete override, then the weekly rows of that weekday. */
  function RuleFor(workingHours: seq<Row>, exceptions: map<int, Exception>, date: int): DayRule {
    if date in exceptions && exceptions[date].isClosed then DayRule(date, true, [])
    else if date in exceptions && exceptions[date].overrideStart.Some? && exceptions[date].overrideEnd.Some? then
      DayRule(date, false, [Range(exceptions[date].overrideStart.value, exceptions[date].overrideEnd.value)])
    else
      var ranges := RangesOf(workingHours, WeekdayOf(date));
      DayRule(date, ranges == [], ranges)
  }

  method GetBaseAvailabilityRules(workingHours: seq<Row>, exceptions: map<int, Exception>, from: int, to: int)
    returns (days: seq<DayRule>)
    ensures |days| == if from <= to then to - from + 1 else 0
    ensures forall i :: 0 <= i < |days| ==> days[i] == RuleFor(workingHours, exceptions, from + i)
  {
    var hoursByDay: map<int, seq<Range>> := map[];
    for n := 0 to |workingHours|
      invariant Grouped(workingHours[..n], hoursByDay)
    {
      PushGroups(workingHours, n, hoursByDay);
      hoursByDay := Push(hoursByDay, workingHours[n]);
    }
    assert workingHours[..|workingHours|] == workingHours;
    days := [];
    var cursor := from;
    while cursor <= to
      invariant |days| == cursor - from && (from <= to ==> cursor <= to + 1) && (from > to ==> cursor == from)
      invariant forall i :: 0 <= i < |days| ==> days[i] == RuleFor(workingHours, exceptions, from + i)
    {
      var rule: DayRule;
      if cursor in exceptions && exceptions[cursor].isClosed {
        rule := DayRule(cursor, true, []);
      } else if cursor in exceptions && exceptions[cursor].overrideStart.Some? && exceptions[cursor].overrideEnd.Some? {
        rule := DayRule(cursor, false, [Range(exceptions[cursor].overrideStart.value, exceptions[cursor].overrideEnd.value)]);
      } else {
        var ranges := Lookup(hoursByDay, WeekdayOf(cursor));
        rule := DayRule(cursor, ranges == [], ranges);
      }
      days := days + [rule];
      cursor := cursor + 1;
    }
  }

  function ActiveOnly(rows: seq<Row>): seq<Row> {
    if rows == [] then [] else (if rows[0].isActive then [rows[0]] else []) + ActiveOnly(rows[1..])
  }

  /** What the rules read: the active rows, each weekday in order of start time. */
  ghost predicate QueriedFrom(workingHours: seq<Row>, stored: seq<Row>) {
    forall day :: RangesOf(workingHours, day) == SortByStart(RangesOf(ActiveOnly(stored), day))
  }

  lemma {:induction false} ActiveOnlySelects(rows: seq<Row>, row: Row)
    ensures row in ActiveOnly(rows) ==> row in rows
  {
    if rows == [] {
    } else {
      ActiveOnlySelects(rows[1..], row);
    }
  }

  /** A row apart from the others of its day is apart from the active ones. */
  lemma ApartFromActive(first: Row, rest: seq<Row>)
    requires ApartFrom(RangeOf(first), RangesOf(rest, first.dayOfWeek))
    ensures ApartFrom(RangeOf(first), RangesOf(ActiveOnly(rest), first.dayOfWeek))
  {
    var active, day := ActiveOnly(rest), first.dayOfWeek;
    forall y | y in RangesOf(active, day) ensures Separate(RangeOf(first), y) {
      RangesOfMembers(active, day, y);
      var i :| 0 <= i < |active| && active[i].dayOfWeek == day && RangeOf(active[i]) == y;
      ActiveOnlySelects(rest, active[i]);
      var j :| 0 <= j < |rest| && rest[j] == active[i];
      RangesOfMembers(rest, day, y);
    }
  }

  lemma {:induction false} ActiveRowsStayAccepted(rows: seq<Row>)
    requires Accepted(rows)
    ensures Accepted(ActiveOnly(rows))
  {
    if rows == [] {
    } else {
      var first, rest, active := rows[0], rows[1..], ActiveOnly(rows[1..]);
      AcceptedOfCons(rows);
      ActiveRowsStayAccepted(rest);
      if first.isActive {
        assert ActiveOnly(rows)[0] == first && ActiveOnly(rows)[1..] == active;
        ApartFromActive(first, rest);
        AcceptedOfCons(ActiveOnly(rows));
      } else {
        assert ActiveOnly(rows) == active;
      }
    }
  }

  predicate WithinDay(x: Range) {
    0 <= x.start <= MINUTES_PER_DAY && 0 <= x.end <= MINUTES_PER_DAY
  }

  /** Ranges in the order of the day, none starting before an earlier one has ended. */
  predicate OrderedRule(rule: DayRule) {
    && (forall x :: x in rule.ranges ==> WithinDay(x))
    && (forall i, j :: 0 <= i < j < |rule.ranges| ==> rule.ranges[i].end <= rule.ranges[j].start)
  }

  lemma NoneTouchIsOrdered(s: seq<Range>, i: nat, j: nat)
    requires Forward(s) && NoneTouch(s) && i < j < |s|
    ensures s[i].end <= s[j].start
  {
    var rest := s[i..];
    assert forall k :: 0 <= k < |rest| ==> rest[k] == s[i + k];
    assert Forward(rest) by { forall x | x in rest ensures x.start < x.end { assert x in s; } }
    NoneTouchReachesFar(rest, j - i);
  }

  /** Rows that validation accepted give ordered rules on every date, whatever the exceptions say. */
  lemma AcceptedRowsGiveOrderedRules(stored: seq<Row>, workingHours: seq<Row>, exceptions: map<int, Exception>, date: int)
    requires Accepted(stored) && QueriedFrom(workingHours, stored)
    requires forall i :: 0 <= i < |stored| ==> WithinDay(RangeOf(stored[i]))
    requires date in exceptions && exceptions[date].overrideStart.Some? && exceptions[date].overrideEnd.Some? ==>
               WithinDay(Range(exceptions[date].overrideStart.value, exceptions[date].overrideEnd.value))
    ensures OrderedRule(RuleFor(workingHours, exceptions, date))
  {
    var day := WeekdayOf(date);
    var active := ActiveOnly(stored);
    ActiveRowsStayAccepted(stored);
    AcceptedIsApartOnEveryDay(active);
    DayRunsForward(active, day);
    SortedCheckDecides(RangesOf(active, day));
    var s := RangesOf(workingHours, day);
    assert s == SortByStart(RangesOf(active, day));
    forall x | x in s ensures WithinDay(x) && x.start < x.end {
      SortMembers(RangesOf(active, day), x);
      RangesOfMembers(active, day, x);
      var i :| 0 <= i < |active| && active[i].dayOfWeek == day && RangeOf(active[i]) == x;
      ActiveOnlySelects(stored, active[i]);
    }
    forall i, j | 0 <= i < j < |s| ensures s[i].end <= s[j].start {
      NoneTouchIsOrdered(s, i, j);
    }
  }
}
