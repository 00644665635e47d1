/** The Celery tasks of tasks.py.

    The e-mail tasks guarded by a cache marker (welcome, appointment,
    contact, cancellation) return "skipped" while their marker is live, and
    set the marker (24 hours) only after the send returns. The password-reset
    tasks have no marker. The calendar task runs an ordered chain of guards
    before it inserts an event.

    A call to `self.retry` is an outcome: `Retry` while fewer than
    `max_retries` (3) retries have run, and `GaveUp` (the exception
    propagates) after that. Each task run is one step on the cache entries
    and on the log of messages sent (`outbox`). */
module Tasks {
  import opened Records
  import opened Text
  import opened KeyValue

  const MarkerTtl: nat := 86400   // 60 * 60 * 24
  const MaxRetries: nat := 3

  datatype Outcome = Sent | Skipped | NotFound | Retry | GaveUp

  /** `raise self.retry(...)` on the run that has already been retried
      `retries` times. */
  function RetryOutcome(retries: nat): Outcome
  {
    if retries < MaxRetries then Retry else GaveUp
  }

  // ---------------------------------------------------------------------------
  // Marker-guarded e-mail tasks
  // ---------------------------------------------------------------------------

  datatype MarkedTask = WelcomeEmail | AppointmentEmail | ContactEmail | CancelEmail

  function MarkerPrefix(t: MarkedTask): string
  {
    match t
    case WelcomeEmail => "welcome_email_sent:"
    case AppointmentEmail => "appointment_email_sent:"
    case ContactEmail => "contact_email_sent:"
    case CancelEmail => "appointment_cancel_email_sent:"
  }

  /** The cache key of a task's marker for one user, appointment or contact. */
  function MarkerKey(t: MarkedTask, id: string): string
  {
    MarkerPrefix(t) + id
  }

  /** Markers of different tasks, or of different ids, never share a key. */
  lemma MarkerKeysDistinct(t1: MarkedTask, id1: string, t2: MarkedTask, id2: string)
    requires t1 != t2 || id1 != id2
    ensures MarkerKey(t1, id1) != MarkerKey(t2, id2)
  {
    var k1, k2 := MarkerKey(t1, id1), MarkerKey(t2, id2);
    if t1 == t2 {
      var n := |MarkerPrefix(t1)|;
      assert k1[n..] == id1 && k2[n..] == id2;
    } else {
      var i := if {t1, t2} == {AppointmentEmail, CancelEmail} then 12 else 0;
      assert k1[i] == MarkerPrefix(t1)[i] && k2[i] == MarkerPrefix(t2)[i];
      assert k1[i] != k2[i];
    }
  }

  /** One message handed to the mail helpers: a marked task's e-mail(s), or a
      password-reset e-mail. */
  datatype Message =
    | MarkedMail(task: MarkedTask, id: string)
    | ResetMail(email: string)
    | ResetSuccessMail(email: string)

  datatype TaskState = TaskState(cache: map<string, Entry>, outbox: seq<Message>)

  /** What one delivery of a task sees: whether its row exists, whether the
      send returns, how often it was retried already, and the clock. */
  datatype Run = Run(found: bool, send: bool, retries: nat, now: int)

  /** Whether the task loads a row before sending (the welcome task does not). */
  predicate LoadsRow(t: MarkedTask)
  {
    t != WelcomeEmail
  }

  /** One delivery of a marked task. A missing row is "not_found" for the
      appointment and contact tasks; the cancellation task does not catch the
      lookup's exception, so there it goes to the automatic retry. */
  function MarkedStep(t: MarkedTask, id: string, s: TaskState, r: Run): (TaskState, Outcome)
  {
    var key := MarkerKey(t, id);
    if Truthy(Read(s.cache, key, r.now)) then (s, Skipped)
    else if LoadsRow(t) && !r.found then (s, if t == CancelEmail then RetryOutcome(r.retries) else NotFound)
    else if !r.send then (s, RetryOutcome(r.retries))
    else (TaskState(Written(s.cache, key, Flag(true), MarkerTtl, r.now), s.outbox + [MarkedMail(t, id)]), Sent)
  }

  /** A live marker means "skipped": nothing is sent and nothing changes. */
  lemma SkippedWhileMarked(t: MarkedTask, id: string, s: TaskState, r: Run)
    requires Truthy(Read(s.cache, MarkerKey(t, id), r.now))
    ensures MarkedStep(t, id, s, r) == (s, Skipped)
  {
  }

  /** The marker is written only together with a send: every outcome but
      "sent" leaves the cache and the outbox as they were, and "sent" adds
      exactly one message and a marker that lives for 24 hours. */
  lemma MarkerOnlyAfterSend(t: MarkedTask, id: string, s: TaskState, r: Run)
    ensures var (s', o) := MarkedStep(t, id, s, r);
      (o != Sent ==> s' == s)
      && (o == Sent <==> s'.outbox == s.outbox + [MarkedMail(t, id)])
      && (o == Sent ==> forall u :: r.now <= u < r.now + MarkerTtl ==> Read(s'.cache, MarkerKey(t, id), u) == Flag(true))
      && (forall k, u :: k != MarkerKey(t, id) ==> Read(s'.cache, k, u) == Read(s.cache, k, u))
  {
  }

  /** A missing appointment or contact is reported as "not_found" and leaves the
      marker unset; a failed send goes to retry, at most three times. */
  lemma FailuresLeaveMarkerUnset(t: MarkedTask, id: string, s: TaskState, r: Run)
    requires !Truthy(Read(s.cache, MarkerKey(t, id), r.now))
    ensures var (s', o) := MarkedStep(t, id, s, r);
      (LoadsRow(t) && !r.found && t != CancelEmail ==> o == NotFound)
      && ((!LoadsRow(t) || r.found) && !r.send ==> o == RetryOutcome(r.retries))
      && (o != Sent ==> !Truthy(Read(s'.cache, MarkerKey(t, id), r.now)))
      && (o == Retry ==> r.retries < MaxRetries)
      && (o == GaveUp ==> r.retries >= MaxRetries)
  {
  }

  /** A second run within 24 hours of a successful one sends nothing. */
  lemma SecondRunSkipped(t: MarkedTask, id: string, s: TaskState, r1: Run, r2: Run)
    requires MarkedStep(t, id, s, r1).1 == Sent
    requires r1.now <= r2.now < r1.now + MarkerTtl
    ensures MarkedStep(t, id, MarkedStep(t, id, s, r1).0, r2) == (MarkedStep(t, id, s, r1).0, Skipped)
  {
  }

  /** A series of deliveries of one task for one id. */
  function RunAll(t: MarkedTask, id: string, s: TaskState, runs: seq<Run>): TaskState
    decreases |runs|
  {
    if runs == [] then s else RunAll(t, id, MarkedStep(t, id, s, runs[0]).0, runs[1..])
  }

  predicate MarkedUntil(cache: map<string, Entry>, key: string, until: int)
  {
    key in cache && Truthy(cache[key].value) && cache[key].expiresAt >= until
  }

  lemma {:induction false} MarkedRunsChangeNothing(t: MarkedTask, id: string, s: TaskState, runs: seq<Run>, until: int)
    requires MarkedUntil(s.cache, MarkerKey(t, id), until)
    requires forall i :: 0 <= i < |runs| ==> runs[i].now < until
    ensures RunAll(t, id, s, runs) == s
    decreases |runs|
  {
    if runs != [] {
      assert MarkedStep(t, id, s, runs[0]).0 == s;
      MarkedRunsChangeNothing(t, id, s, runs[1..], until);
    }
  }

  /** Redelivering a task any number of times within one 24-hour span sends
      its e-mail at most once. */
  lemma {:induction false} AtMostOnceWithinTtl(t: MarkedTask, id: string, s: TaskState, runs: seq<Run>, start: int)
    requires forall i :: 0 <= i < |runs| ==> start <= runs[i].now < start + MarkerTtl
    ensures |s.outbox| <= |RunAll(t, id, s, runs).outbox| <= |s.outbox| + 1
    ensures RunAll(t, id, s, runs).outbox[..|s.outbox|] == s.outbox
    decreases |runs|
  {
    if runs != [] {
      var (s1, o) := MarkedStep(t, id, s, runs[0]);
      if o == Sent {
        assert MarkedUntil(s1.cache, MarkerKey(t, id), start + MarkerTtl);
        MarkedRunsChangeNothing(t, id, s1, runs[1..], start + MarkerTtl);
        assert s1.outbox[..|s.outbox|] == s.outbox;
      } else {
        AtMostOnceWithinTtl(t, id, s1, runs[1..], start);
      }
    }
  }

  /** The password-reset tasks: no marker, so every delivery whose send
      returns sends again. */
  function ResetStep(outbox: seq<Message>, m: Message, send: bool, retries: nat): (seq<Message>, Outcome)
  {
    if send then (outbox + [m], Sent) else (outbox, RetryOutcome(retries))
  }

  function ResetAll(outbox: seq<Message>, m: Message, sends: seq<bool>): seq<Message>
    decreases |sends|
  {
    if sends == [] then outbox else ResetAll(ResetStep(outbox, m, sends[0], 0).0, m, sends[1..])
  }

  function CountTrue(bs: seq<bool>): nat
  {
    if bs == [] then 0 else (if bs[0] then 1 else 0) + CountTrue(bs[1..])
  }

  /** Each delivery of a reset e-mail whose send returns adds one more copy. */
  lemma {:induction false} ResetSendsEveryTime(outbox: seq<Message>, m: Message, sends: seq<bool>)
    ensures |ResetAll(outbox, m, sends)| == |outbox| + CountTrue(sends)
    ensures forall i :: |outbox| <= i < |ResetAll(outbox, m, sends)| ==> ResetAll(outbox, m, sends)[i] == m
    ensures ResetAll(outbox, m, sends)[..|outbox|] == outbox
    decreases |sends|
  {
    if sends != [] {
      var next := ResetStep(outbox, m, sends[0], 0).0;
      ResetSendsEveryTime(next, m, sends[1..]);
      assert next[..|outbox|] == outbox;
      assert ResetAll(outbox, m, sends)[..|outbox|] == ResetAll(next, m, sends[1..])[..|next|][..|outbox|];
    }
  }

  // ---------------------------------------------------------------------------
  // create_calendar_event_task
  // ---------------------------------------------------------------------------

  /** The `time` attribute as loaded: a time of day, or a string. */
  datatype TimeField = TimeOfDay(seconds: DaySecond) | TimeText(text: string)

  /** The columns the calendar task loads (`.only(...)`). */
  datatype CalendarRow = CalendarRow(
    ulid: string,
    email: string,
    date: DateField,
    time: TimeField,
    status: Status,
    calendarEventId: string,
    doctor: Option<Doctor>)

  /** An event body: instants in seconds from the start of day 0. */
  datatype Event = Event(start: int, end: int, attendees: seq<string>)

  datatype CalendarOutcome =
    | CalendarNotFound            // {"status": "not_found"}
    | CalendarSkipped(reason: Status)  // {"status": "skipped", "reason": status}
    | InvalidDoctor               // {"status": "invalid_doctor"}
    | CalendarRetry               // self.retry(...)
    | CalendarGaveUp              // retries exhausted

  const EventMinutes: nat := 30

  function CalendarRetryOutcome(retries: nat): CalendarOutcome
  {
    if retries < MaxRetries then CalendarRetry else CalendarGaveUp
  }

  /** tasks.py's padding: a time string with two colon-separated parts gets
      ":00" appended. */
  function NormaliseTime(s: string): string
  {
    if |Split(s, ':')| == 2 then s + ":00" else s
  }

  /** One field of `%H`, `%M` or `%S`: one or two digits, below `bound`. */
  predicate ClockField(f: string, bound: nat)
  {
    1 <= |f| <= 2 && AllDigits(f) && DigitsValue(f) < bound
  }

  /** `datetime.strptime(s, "%H:%M:%S").time()`, as seconds since midnight;
      None where strptime raises ValueError. */
  function ParseClock(s: string): (r: Option<DaySecond>)
    ensures r.Some? ==> |Split(s, ':')| == 3
  {
    var p := Split(s, ':');
    if |p| == 3 && ClockField(p[0], 24) && ClockField(p[1], 60) && ClockField(p[2], 60)
    then Some(DigitsValue(p[0]) * 3600 + DigitsValue(p[1]) * 60 + DigitsValue(p[2]))
    else None
  }

  lemma SplitTwo(a: string, b: string)
    requires ':' !in a && ':' !in b
    ensures Split(a + ":" + b, ':') == [a, b]
  {
    assert a + ":" + b == a + [':'] + b;
    SplitConcat(a, ':', b);
    SplitNoSeparator(b, ':');
  }

  lemma SplitThree(a: string, b: string, c: string)
    requires ':' !in a && ':' !in b && ':' !in c
    ensures Split(a + ":" + b + ":" + c, ':') == [a, b, c]
  {
    assert a + ":" + b + ":" + c == a + [':'] + (b + ":" + c);
    SplitConcat(a, ':', b + ":" + c);
    SplitTwo(b, c);
  }

  lemma DoubleZero()
    ensures ClockField("00", 60) && DigitsValue("00") == 0
  {
    assert "00"[..1] == "0";
    assert "0"[..0] == "";
  }

  /** strptime reads "H:M:S" with fields in range as H * 3600 + M * 60 + S. */
  lemma ParseClockFields(h: string, m: string, sec: string)
    requires ClockField(h, 24) && ClockField(m, 60) && ClockField(sec, 60)
    ensures var r := ParseClock(h + ":" + m + ":" + sec);
      r.Some? && r.value == DigitsValue(h) * 3600 + DigitsValue(m) * 60 + DigitsValue(sec)
  {
    DigitsLack(h, ':');
    DigitsLack(m, ':');
    DigitsLack(sec, ':');
    SplitThree(h, m, sec);
    var p := Split(h + ":" + m + ":" + sec, ':');
    assert p[0] == h && p[1] == m && p[2] == sec;
    assert ClockField(p[0], 24) && ClockField(p[1], 60) && ClockField(p[2], 60);
  }

  /** A two-part time string gets a zero seconds field. */
  lemma TwoPartTimePadded(a: string, b: string)
    requires ':' !in a && ':' !in b
    ensures NormaliseTime(a + ":" + b) == a + ":" + b + ":" + "00"
  {
    SplitTwo(a, b);
    assert a + ":" + b + ":00" == a + ":" + b + ":" + "00";
  }

  /** "HH:MM" is read as HH:MM:00. */
  lemma TwoPartTimeGetsZeroSeconds(h: string, m: string)
    requires ClockField(h, 24) && ClockField(m, 60)
    ensures NormaliseTime(h + ":" + m) == h + ":" + m + ":00"
    ensures var r := ParseClock(NormaliseTime(h + ":" + m));
      r.Some? && r.value == DigitsValue(h) * 3600 + DigitsValue(m) * 60
  {
    assert NormaliseTime(h + ":" + m) == h + ":" + m + ":" + "00" by {
      DigitsLack(h, ':');
      DigitsLack(m, ':');
      TwoPartTimePadded(h, m);
    }
    assert h + ":" + m + ":00" == h + ":" + m + ":" + "00";
    assert ClockField("00", 60) && DigitsValue("00") == 0 by {
      DoubleZero();
    }
    ParseClockFields(h, m, "00");
  }

  /** A three-part time string is left as it is. */
  lemma ThreePartTimeUnchanged(s: string)
    requires |Split(s, ':')| == 3
    ensures NormaliseTime(s) == s
  {
  }

  /** The `date` attribute as loaded: a day, or a string. Days are counted
      from 0001-01-01, as `date.toordinal() - 1` counts them. */
  datatype DateField = CalendarDay(day: nat) | DateText(text: string)

  predicate IsLeap(y: int)
  {
    y % 4 == 0 && (y % 100 != 0 || y % 400 == 0)
  }

  function DaysInMonth(y: int, m: int): nat
    requires 1 <= m <= 12
  {
    if m == 2 then (if IsLeap(y) then 29 else 28)
    else if m == 4 || m == 6 || m == 9 || m == 11 then 30
    else 31
  }

  /** What `datetime(y, m, d)` accepts. */
  predicate ValidDate(y: int, m: int, d: int)
  {
    1 <= y <= 9999 && 1 <= m <= 12 && 1 <= d <= DaysInMonth(y, m)
  }

  /** The days in the years before year `y` (Python's `_days_before_year`). */
  function DaysBeforeYear(y: nat): nat
    requires y >= 1
  {
    var p := y - 1;
    assert p / 100 <= p / 4;
    p * 365 + p / 4 - p / 100 + p / 400
  }

  /** The days in the months of year `y` before month `m` (Python's
      `_days_before_month`). */
  function DaysBeforeMonth(y: int, m: int): nat
    requires 1 <= m <= 12
  {
    [0, 31, 59, 90, 120, 151, 181, 212, 243, 273, 304, 334][m - 1] + (if m > 2 && IsLeap(y) then 1 else 0)
  }

  /** The day number of a valid date: `date(y, m, d).toordinal() - 1`. */
  function DayOrdinal(y: int, m: int, d: int): nat
    requires ValidDate(y, m, d)
  {
    DaysBeforeYear(y) + DaysBeforeMonth(y, m) + d - 1
  }

  /** `%Y`: exactly four digits. */
  predicate YearField(f: string)
  {
    |f| == 4 && AllDigits(f)
  }

  /** `%m`: one or two digits (the range is checked by `ValidDate`). */
  predicate MonthField(f: string)
  {
    1 <= |f| <= 2 && AllDigits(f)
  }

  /** `%d`: one or two digits, or a space and one digit. */
  predicate DayField(f: string)
  {
    (1 <= |f| <= 2 && AllDigits(f)) || (|f| == 2 && f[0] == ' ' && IsDigit(f[1]))
  }

  function DayFieldValue(f: string): nat
    requires DayField(f)
  {
    if f[0] == ' ' then DigitValue(f[1]) else DigitsValue(f)
  }

  /** `datetime.strptime(s, "%Y-%m-%d").date()` as a day number; None
      where strptime raises ValueError (a malformed string or a date that
      does not exist). */
  function ParseDate(s: string): (r: Option<nat>)
    ensures r.Some? ==> |Split(s, '-')| == 3
  {
    var p := Split(s, '-');
    if |p| == 3 && YearField(p[0]) && MonthField(p[1]) && DayField(p[2])
       && ValidDate(DigitsValue(p[0]), DigitsValue(p[1]), DayFieldValue(p[2]))
    then Some(DayOrdinal(DigitsValue(p[0]), DigitsValue(p[1]), DayFieldValue(p[2])))
    else None
  }

  lemma DayFieldLacks(f: string, c: char)
    requires DayField(f) && !IsDigit(c) && c != ' '
    ensures c !in f
  {
  }

  /** "Y-M-D" with well-formed fields parses exactly when the date exists,
      and then as its day number. */
  lemma ParseDateFields(y: string, m: string, d: string)
    requires YearField(y) && MonthField(m) && DayField(d)
    ensures var (vy, vm, vd) := (DigitsValue(y), DigitsValue(m), DayFieldValue(d));
      ParseDate(y + "-" + m + "-" + d) == if ValidDate(vy, vm, vd) then Some(DayOrdinal(vy, vm, vd)) else None
  {
    DigitsLack(y, '-');
    DigitsLack(m, '-');
    DayFieldLacks(d, '-');
    assert y + "-" + m + "-" + d == y + ['-'] + (m + ['-'] + d);
    SplitConcat(y, '-', m + ['-'] + d);
    SplitConcat(m, '-', d);
    SplitNoSeparator(d, '-');
    var p := Split(y + "-" + m + "-" + d, '-');
    assert p == [y, m, d];
  }

  /** Going from y - 1 to y adds one to the quotient by k exactly when k
      divides y. */
  lemma QuotientStep(y: nat, k: nat)
    requires y >= 1 && (k == 4 || k == 100 || k == 400)
    ensures y / k == (y - 1) / k + (if y % k == 0 then 1 else 0)
  {
    if k == 4 {
    } else if k == 100 {
    } else {
    }
  }

  /** 400 | y implies 100 | y, which implies 4 | y. */
  lemma DivisorChain(y: nat)
    ensures y % 400 == 0 ==> y % 100 == 0
    ensures y % 100 == 0 ==> y % 4 == 0
  {
    if y % 400 == 0 {
      assert y == 100 * (4 * (y / 400));
    }
    if y % 100 == 0 {
      assert y == 4 * (25 * (y / 100));
    }
  }

  /** A year contributes 366 days when it is a leap year and 365 otherwise. */
  lemma DaysBeforeNextYear(y: nat)
    requires y >= 1
    ensures DaysBeforeYear(y + 1) == DaysBeforeYear(y) + (if IsLeap(y) then 366 else 365)
  {
    var q4, q100, q400 := y % 4 == 0, y % 100 == 0, y % 400 == 0;
    assert IsLeap(y) == (q4 && (!q100 || q400));
    assert (q400 ==> q100) && (q100 ==> q4) by {
      DivisorChain(y);
    }
    assert y / 4 == (y - 1) / 4 + (if q4 then 1 else 0) by {
      QuotientStep(y, 4);
    }
    assert y / 100 == (y - 1) / 100 + (if q100 then 1 else 0) by {
      QuotientStep(y, 100);
    }
    assert y / 400 == (y - 1) / 400 + (if q400 then 1 else 0) by {
      QuotientStep(y, 400);
    }
  }

  /** The day numbers have no gaps: the day after a valid date (the next
      day of the month, the first of the next month, or New Year's Day) has
      the next number. */
  lemma NextDayOrdinal(y: int, m: int, d: int)
    requires ValidDate(y, m, d)
    ensures d < DaysInMonth(y, m) ==> DayOrdinal(y, m, d + 1) == DayOrdinal(y, m, d) + 1
    ensures d == DaysInMonth(y, m) && m < 12 ==> DayOrdinal(y, m + 1, 1) == DayOrdinal(y, m, d) + 1
    ensures d == DaysInMonth(y, m) && m == 12 && y < 9999 ==> DayOrdinal(y + 1, 1, 1) == DayOrdinal(y, m, d) + 1
  {
    if d == DaysInMonth(y, m) && m == 12 {
      DaysBeforeNextYear(y);
    }
  }

  /** 0001-01-01 is day 0. */
  lemma FirstDayIsZero()
    ensures ValidDate(1, 1, 1) && DayOrdinal(1, 1, 1) == 0
  {
  }

  /** The appointment's day, or None where strptime raises. */
  function StartDay(f: DateField): Option<nat>
  {
    match f
    case CalendarDay(day) => Some(day)
    case DateText(text) => ParseDate(text)
  }

  /** The start of the appointment in seconds of the day, or None where
      strptime raises. */
  function StartSeconds(t: TimeField): Option<DaySecond>
  {
    match t
    case TimeOfDay(sec) => Some(sec)
    case TimeText(text) => ParseClock(NormaliseTime(text))
  }

  /** One delivery of `create_calendar_event_task`.

      Returns the event created in the calendar, if any, and the outcome. As
      written, line 221 names an undefined `appointment_id`, so a row that
      already has an event id raises there and retries; and after a
      successful insert line 287 raises the same way, so the event id is never
      stored and the task always ends in retry once it reaches the insert. */
  function CalendarStep(row: Option<CalendarRow>, insertReturns: bool, retries: nat): (Option<Event>, CalendarOutcome)
  {
    if row.None? then (None, CalendarNotFound)
    else
      var a := row.value;
      if a.calendarEventId != [] then (None, CalendarRetryOutcome(retries))
      else if a.status != Confirmed && a.status != Pending then (None, CalendarSkipped(a.status))
      else if a.doctor.None? || a.doctor.value.email == [] then (None, InvalidDoctor)
      else match StartDay(a.date)
        case None => (None, CalendarRetryOutcome(retries))
        case Some(day) =>
          match StartSeconds(a.time)
          case None => (None, CalendarRetryOutcome(retries))
          case Some(sec) =>
            var start := day * 86400 + sec;
            var ev := Event(start, start + EventMinutes * 60, [a.email, a.doctor.value.email]);
            (if insertReturns then Some(ev) else None, CalendarRetryOutcome(retries))
  }

  /** The guards, in order: a recorded event id, then a status outside
      {confirmed, pending}, then a missing doctor or doctor e-mail, then a
      date or time string strptime refuses (which retries); none of them
      reaches the insert. */
  lemma CalendarGuardOrder(a: CalendarRow, insertReturns: bool, retries: nat)
    ensures a.calendarEventId != [] ==> CalendarStep(Some(a), insertReturns, retries) == (None, CalendarRetryOutcome(retries))
    ensures a.calendarEventId == [] && a.status !in {Confirmed, Pending} ==>
      CalendarStep(Some(a), insertReturns, retries) == (None, CalendarSkipped(a.status))
    ensures a.calendarEventId == [] && a.status in {Confirmed, Pending} && (a.doctor.None? || a.doctor.value.email == []) ==>
      CalendarStep(Some(a), insertReturns, retries) == (None, InvalidDoctor)
    ensures (a.calendarEventId == [] && a.status in {Confirmed, Pending} && a.doctor.Some? && a.doctor.value.email != []
             && (StartDay(a.date).None? || StartSeconds(a.time).None?)) ==>
      CalendarStep(Some(a), insertReturns, retries) == (None, CalendarRetryOutcome(retries))
  {
  }

  /** A created event lasts 30 minutes from the appointment's start and
      invites the patient and the doctor. */
  lemma CalendarEventLength(a: CalendarRow, retries: nat)
    requires CalendarStep(Some(a), true, retries).0.Some?
    ensures var ev := CalendarStep(Some(a), true, retries).0.value;
      ev.end == ev.start + 1800
      && StartDay(a.date).Some? && StartSeconds(a.time).Some?
      && ev.start == StartDay(a.date).value * 86400 + StartSeconds(a.time).value
      && a.doctor.Some? && ev.attendees == [a.email, a.doctor.value.email]
  {
  }

  /** Because the event id is never stored, every delivery of a row that
      passes the guards inserts another event: up to four events for one
      appointment (the first run and three retries). */
  lemma InsertRepeatsOnEveryRetry(a: CalendarRow, retries: nat)
    requires a.calendarEventId == [] && a.status in {Confirmed, Pending}
    requires a.doctor.Some? && a.doctor.value.email != [] && StartDay(a.date).Some? && StartSeconds(a.time).Some?
    ensures CalendarStep(Some(a), true, retries).0.Some?
    ensures CalendarStep(Some(a), true, retries).1 == (if retries < MaxRetries then CalendarRetry else CalendarGaveUp)
  {
  }

  // ---------------------------------------------------------------------------
  // The worker
  // ---------------------------------------------------------------------------

  /** A worker process: the messages it has handed to the mail helpers and
      the calendar events it has created. The marker cache is shared. */
  class Worker {
    var outbox: seq<Message>
    var events: seq<Event>

    constructor ()
      ensures outbox == [] && events == []
    {
      outbox := [];
      events := [];
    }

    /** The common body of the four marked tasks. */
    method RunMarked(t: MarkedTask, id: string, cache: Cache, r: Run) returns (o: Outcome)
      modifies this, cache
      ensures (TaskState(cache.entries, outbox), o) == MarkedStep(t, id, TaskState(old(cache.entries), old(outbox)), r)
      ensures events == old(events)
    {
      var key := MarkerKey(t, id);
      if Truthy(cache.Get(key, r.now)) {
        return Skipped;
      }
      if LoadsRow(t) && !r.found {
        if t == CancelEmail {
          return RetryOutcome(r.retries);
        }
        return NotFound;
      }
      if !r.send {
        return RetryOutcome(r.retries);
      }
      outbox := outbox + [MarkedMail(t, id)];
      cache.Set(key, Flag(true), MarkerTtl, r.now);
      return Sent;
    }

    method SendWelcomeEmailTask(cache: Cache, userId: nat, send: Py<()>, retries: nat, now: int) returns (o: Outcome)
      modifies this, cache
      ensures (TaskState(cache.entries, outbox), o)
        == MarkedStep(WelcomeEmail, NatToString(userId), TaskState(old(cache.entries), old(outbox)), Run(true, send.Returned?, retries, now))
      ensures events == old(events)
    {
      o := RunMarked(WelcomeEmail, NatToString(userId), cache, Run(true, send.Returned?, retries, now));
    }

    /** The row is looked up by ULID. */
    method SendAppointmentEmailTask(cache: Cache, appointments: map<string, Appointment>, ulid: string,
                                    send: Py<()>, retries: nat, now: int) returns (o: Outcome)
      modifies this, cache
      ensures (TaskState(cache.entries, outbox), o)
        == MarkedStep(AppointmentEmail, ulid, TaskState(old(cache.entries), old(outbox)), Run(ulid in appointments, send.Returned?, retries, now))
      ensures events == old(events)
    {
      o := RunMarked(AppointmentEmail, ulid, cache, Run(ulid in appointments, send.Returned?, retries, now));
    }

    method SendContactEmailTask(cache: Cache, contacts: map<nat, Contact>, contactId: nat,
                                send: Py<()>, retries: nat, now: int) returns (o: Outcome)
      modifies this, cache
      ensures (TaskState(cache.entries, outbox), o)
        == MarkedStep(ContactEmail, NatToString(contactId), TaskState(old(cache.entries), old(outbox)), Run(contactId in contacts, send.Returned?, retries, now))
      ensures events == old(events)
    {
      o := RunMarked(ContactEmail, NatToString(contactId), cache, Run(contactId in contacts, send.Returned?, retries, now));
    }

    /** The row is looked up with `id=` given the ULID: it is found only when
        the ULID is a string of digits naming an existing numeric id. */
    method SendAppointmentCancelEmailTask(cache: Cache, byId: map<nat, Appointment>, ulid: string,
                                          send: Py<()>, retries: nat, now: int) returns (o: Outcome)
      modifies this, cache
      ensures var found := ulid != [] && AllDigits(ulid) && DigitsValue(ulid) in byId;
        (TaskState(cache.entries, outbox), o)
          == MarkedStep(CancelEmail, ulid, TaskState(old(cache.entries), old(outbox)), Run(found, send.Returned?, retries, now))
      ensures events == old(events)
    {
      var found := ulid != [] && AllDigits(ulid) && DigitsValue(ulid) in byId;
      o := RunMarked(CancelEmail, ulid, cache, Run(found, send.Returned?, retries, now));
    }

    method SendPasswordResetEmailTask(email: string, send: Py<()>, retries: nat) returns (o: Outcome)
      modifies this
      ensures (outbox, o) == ResetStep(old(outbox), ResetMail(email), send.Returned?, retries)
      ensures events == old(events)
    {
      if send.Raised? {
        return RetryOutcome(retries);
      }
      outbox := outbox + [ResetMail(email)];
      return Sent;
    }

    method SendPasswordResetSuccessEmailTask(email: string, send: Py<()>, retries: nat) returns (o: Outcome)
      modifies this
      ensures (outbox, o) == ResetStep(old(outbox), ResetSuccessMail(email), send.Returned?, retries)
      ensures events == old(events)
    {
      if send.Raised? {
        return RetryOutcome(retries);
      }
      outbox := outbox + [ResetSuccessMail(email)];
      return Sent;
    }

    /** `insert` says whether `events().insert(...).execute()` returns. */
    method CreateCalendarEventTask(rows: map<string, CalendarRow>, ulid: string, insert: Py<()>, retries: nat)
      returns (o: CalendarOutcome)
      modifies this
      ensures var (created, outcome) := CalendarStep(if ulid in rows then Some(rows[ulid]) else None, insert.Returned?, retries);
        o == outcome && events == old(events) + (if created.Some? then [created.value] else [])
      ensures outbox == old(outbox)
    {
      if ulid !in rows {
        return CalendarNotFound;
      }
      var a := rows[ulid];
      if a.calendarEventId != [] {
        return CalendarRetryOutcome(retries);
      }
      if a.status != Confirmed && a.status != Pending {
        return CalendarSkipped(a.status);
      }
      if a.doctor.None? || a.doctor.value.email == [] {
        return InvalidDoctor;
      }
      var day := StartDay(a.date);
      if day.None? {
        return CalendarRetryOutcome(retries);
      }
      var start := StartSeconds(a.time);
      if start.None? {
        return CalendarRetryOutcome(retries);
      }
      var begin := day.value * 86400 + start.value;
      var ev := Event(begin, begin + EventMinutes * 60, [a.email, a.doctor.value.email]);
      if insert.Returned? {
        events := events + [ev];
      }
      return CalendarRetryOutcome(retries);
    }
  }
}
