/** utils/cache_helpers.py: cache-aside reads of doctors, booked slots and
    per-user statistics over the shared cache, exact-key invalidation, and
    warming the slot entries of a range of days.

    The appointment and doctor tables are parameters: `rows` (the appointment
    table) and `doctors` (the active/inactive doctor rows by e-mail). A date
    is a day number, formatted into keys by `DateText`. */
module CacheHelpers {
  import opened Records
  import opened Text
  import opened KeyValue

  // ---------------------------------------------------------------------------
  // CACHE_KEYS and CACHE_TIMEOUTS
  // ---------------------------------------------------------------------------

  const DoctorsActiveKey: string := "active_doctors_list"
  const DoctorChoicesKey: string := "doctor_form_choices"

  const DoctorTtl: nat := 1800
  const DoctorsListTtl: nat := 3600
  const SlotsTtl: nat := 180
  const AppointmentsTtl: nat := 300
  const StatsTtl: nat := 600
  const StaticDataTtl: nat := 86400
  /** The lifetime of the negative ("no such doctor") entry. */
  const MissingDoctorTtl: nat := 300

  /** The text of a date inside a key. */
  function DateText(date: nat): string
  {
    NatToString(date)
  }

  function DoctorKey(email: string): string
  {
    "doctor:" + email
  }

  function SlotsKey(doctorEmail: string, date: nat): string
  {
    "slots:" + doctorEmail + ":" + DateText(date)
  }

  function UserAppointmentsKey(userId: nat): string
  {
    "user_appointments:" + NatToString(userId)
  }

  function UserStatsKey(userId: nat): string
  {
    "user_appointment_stats:" + NatToString(userId)
  }

  /** The part of `s` after its last `sep` (all of `s` when there is none). */
  function AfterLast(s: string, sep: char): string
  {
    if s == [] || s[|s| - 1] == sep then [] else AfterLast(s[..|s| - 1], sep) + [s[|s| - 1]]
  }

  lemma {:induction false} AfterLastOf(a: string, sep: char, x: string)
    requires sep !in x
    ensures AfterLast(a + [sep] + x, sep) == x
  {
    var s := a + [sep] + x;
    if x != [] {
      assert s[..|s| - 1] == a + [sep] + x[..|x| - 1];
      AfterLastOf(a, sep, x[..|x| - 1]);
    } else {
      assert s[|s| - 1] == sep;
    }
  }

  /** Two strings that end in `sep` followed by a separator-free tail are equal
      only if the heads and the tails are. */
  lemma LastSeparatorSplits(a: string, x: string, b: string, y: string, sep: char)
    requires sep !in x && sep !in y
    requires a + [sep] + x == b + [sep] + y
    ensures a == b && x == y
  {
    var s := a + [sep] + x;
    AfterLastOf(a, sep, x);
    AfterLastOf(b, sep, y);
    assert a == s[..|a|] && b == s[..|s| - |y| - 1];
  }

  /** A slot key names one doctor and one date: it can be decoded by the last
      ':' even when the e-mail contains one. */
  lemma SlotsKeyInjective(e1: string, d1: nat, e2: string, d2: nat)
    requires SlotsKey(e1, d1) == SlotsKey(e2, d2)
    ensures e1 == e2 && d1 == d2
  {
    var x, y := DateText(d1), DateText(d2);
    assert ':' !in x && ':' !in y by {
      assert forall i :: 0 <= i < |x| ==> IsDigit(x[i]);
      assert forall i :: 0 <= i < |y| ==> IsDigit(y[i]);
    }
    assert SlotsKey(e1, d1) == ("slots:" + e1) + [':'] + x;
    assert SlotsKey(e2, d2) == ("slots:" + e2) + [':'] + y;
    LastSeparatorSplits("slots:" + e1, x, "slots:" + e2, y, ':');
    assert e1 == ("slots:" + e1)[6..] && e2 == ("slots:" + e2)[6..];
    NatToStringInjective(d1, d2);
  }

  /** The per-user keys name one user each and never coincide with each other,
      with a slot key or with a doctor key. */
  lemma UserKeysDistinct(u: nat, v: nat, email: string, date: nat)
    ensures UserAppointmentsKey(u) == UserAppointmentsKey(v) ==> u == v
    ensures UserStatsKey(u) == UserStatsKey(v) ==> u == v
    ensures UserAppointmentsKey(u) != UserStatsKey(v)
    ensures UserAppointmentsKey(u) != SlotsKey(email, date) && UserStatsKey(u) != SlotsKey(email, date)
    ensures UserAppointmentsKey(u) != DoctorKey(email) && UserStatsKey(u) != DoctorKey(email)
  {
    if UserAppointmentsKey(u) == UserAppointmentsKey(v) {
      assert UserAppointmentsKey(u)[18..] == NatToString(u) && UserAppointmentsKey(v)[18..] == NatToString(v);
      NatToStringInjective(u, v);
    }
    if UserStatsKey(u) == UserStatsKey(v) {
      assert UserStatsKey(u)[23..] == NatToString(u) && UserStatsKey(v)[23..] == NatToString(v);
      NatToStringInjective(u, v);
    }
    assert UserAppointmentsKey(u)[16] != UserStatsKey(v)[16];
    assert UserAppointmentsKey(u)[0] != SlotsKey(email, date)[0] && UserStatsKey(u)[0] != SlotsKey(email, date)[0];
    assert UserAppointmentsKey(u)[0] != DoctorKey(email)[0] && UserStatsKey(u)[0] != DoctorKey(email)[0];
  }

  lemma DoctorKeyDistinct(email: string)
    ensures DoctorKey(email) != DoctorsActiveKey && DoctorKey(email) != DoctorChoicesKey
  {
    assert DoctorKey(email)[0] != DoctorsActiveKey[0];
    if |DoctorKey(email)| == |DoctorChoicesKey| {
      assert DoctorKey(email)[6] != DoctorChoicesKey[6];
    }
  }

  // ---------------------------------------------------------------------------
  // cached_query
  // ---------------------------------------------------------------------------

  /** The key of `cached_query`: prefix, function name and the `str` of
      every positional argument, joined by ':'. */
  function QueryKey(keyPrefix: string, funcName: string, args: seq<string>): string
  {
    keyPrefix + ":" + funcName + ":" + Join(args, ":")
  }

  /** Arguments are joined without escaping, so different argument lists can
      share one cache entry. */
  lemma QueryKeysCanCollide()
    ensures QueryKey("query", "f", ["a:b"]) == QueryKey("query", "f", ["a", "b"])
  {
    assert Join(["a", "b"], ":") == "a" + ":" + Join(["b"], ":");
  }

  /** Appointments that hold a slot: pending or confirmed, for that doctor and date. */
  predicate HoldsSlot(a: Appointment, doctorEmail: string, date: nat)
  {
    a.doctorEmail == doctorEmail && a.date == date && (a.status == Pending || a.status == Confirmed)
  }

  /** The set of times the slot query returns. */
  function BookedSlots(rows: seq<Appointment>, doctorEmail: string, date: nat): (s: set<Minute>)
    ensures forall i :: 0 <= i < |rows| && HoldsSlot(rows[i], doctorEmail, date) ==> rows[i].time in s
    ensures forall t :: t in s ==> exists i :: 0 <= i < |rows| && HoldsSlot(rows[i], doctorEmail, date) && rows[i].time == t
  {
    if rows == [] then {}
    else
      var rest := BookedSlots(rows[1..], doctorEmail, date);
      assert forall i :: 1 <= i < |rows| ==> rows[i] == rows[1..][i - 1];
      if HoldsSlot(rows[0], doctorEmail, date) then rest + {rows[0].time} else rest
  }

  // ---------------------------------------------------------------------------
  // Appointment statistics
  // ---------------------------------------------------------------------------

  function CountStatus(rows: seq<Appointment>, userId: nat, s: Status): nat
  {
    if rows == [] then 0
    else (if rows[0].userId == userId && rows[0].status == s then 1 else 0) + CountStatus(rows[1..], userId, s)
  }

  function CountUser(rows: seq<Appointment>, userId: nat): nat
  {
    if rows == [] then 0 else (if rows[0].userId == userId then 1 else 0) + CountUser(rows[1..], userId)
  }

  /** The aggregate `get_user_appointment_stats_cached` computes. */
  function StatsOf(rows: seq<Appointment>, userId: nat): Stats
  {
    Stats(CountUser(rows, userId), CountStatus(rows, userId, Pending), CountStatus(rows, userId, Confirmed),
          CountStatus(rows, userId, Completed), CountStatus(rows, userId, Cancelled))
  }

  /** Every appointment has exactly one of the four statuses, so the total is
      the sum of the per-status counts. */
  lemma {:induction false} StatsAddUp(rows: seq<Appointment>, userId: nat)
    ensures var s := StatsOf(rows, userId);
      s.total == s.pending + s.confirmed + s.completed + s.cancelled
  {
    if rows != [] {
      StatsAddUp(rows[1..], userId);
    }
  }

  // ---------------------------------------------------------------------------
  // Doctor lookup with negative caching
  // ---------------------------------------------------------------------------

  /** `get_doctor_cached(email)`: the cache afterwards, the value returned
      (`Null` for None) and whether the table was queried. A cached doctor
      is returned as it is; the cached `False` is returned as None. */
  function DoctorLookup(entries: map<string, Entry>, doctors: map<string, Doctor>, email: string, now: int): Fetched
  {
    var key := DoctorKey(email);
    var v := Read(entries, key, now);
    if v == Null then
      if email in doctors && doctors[email].isActive then
        Fetched(Written(entries, key, DoctorRow(doctors[email]), DoctorTtl, now), DoctorRow(doctors[email]), true)
      else
        Fetched(Written(entries, key, Flag(false), MissingDoctorTtl, now), Null, true)
    else
      Fetched(entries, if Truthy(v) then v else Null, false)
  }

  /** An active doctor found on a miss is returned and cached for 30 minutes. */
  lemma FoundDoctorIsCached(entries: map<string, Entry>, doctors: map<string, Doctor>, email: string, now: int)
    requires Read(entries, DoctorKey(email), now) == Null
    requires email in doctors && doctors[email].isActive
    ensures var f := DoctorLookup(entries, doctors, email, now);
      f.value == DoctorRow(doctors[email]) && f.queried
      && forall t :: now <= t < now + DoctorTtl ==> Read(f.entries, DoctorKey(email), t) == DoctorRow(doctors[email])
  {
  }

  /** An unknown or inactive doctor is returned as None and remembered as
      `False` for 300 seconds: a second lookup in that time returns None
      without querying, whatever the table then holds. */
  lemma MissingDoctorIsNegativelyCached(entries: map<string, Entry>, doctors: map<string, Doctor>,
                                        doctors2: map<string, Doctor>, email: string, now: int, later: int)
    requires Read(entries, DoctorKey(email), now) == Null
    requires !(email in doctors && doctors[email].isActive)
    requires now <= later < now + MissingDoctorTtl
    ensures var f := DoctorLookup(entries, doctors, email, now);
      f.value == Null && f.queried
      && Read(f.entries, DoctorKey(email), later) == Flag(false)
      && DoctorLookup(f.entries, doctors2, email, later) == Fetched(f.entries, Null, false)
  {
  }

  /** Whatever happens, only the doctor's own key can change. */
  lemma DoctorLookupTouchesOneKey(entries: map<string, Entry>, doctors: map<string, Doctor>, email: string, now: int)
    ensures var f := DoctorLookup(entries, doctors, email, now);
      forall k, t :: k != DoctorKey(email) ==> Read(f.entries, k, t) == Read(entries, k, t)
  {
  }

  // ---------------------------------------------------------------------------
  // Invalidation keys
  // ---------------------------------------------------------------------------

  /** Python truthiness of the optional `email` argument. */
  predicate Given(email: Option<string>)
  {
    email.Some? && email.value != []
  }

  /** The keys `invalidate_doctor_cache(email)` deletes: the two list keys,
      plus the doctor's key when an e-mail is given. */
  function DoctorInvalidationKeys(email: Option<string>): (ks: set<string>)
    ensures DoctorsActiveKey in ks && DoctorChoicesKey in ks
    ensures forall k :: k in ks ==> k == DoctorsActiveKey || k == DoctorChoicesKey || (Given(email) && k == DoctorKey(email.value))
    ensures Given(email) ==> DoctorKey(email.value) in ks && |ks| == 3
    ensures !Given(email) ==> |ks| == 2
  {
    if Given(email) then
      DoctorKeyDistinct(email.value);
      {DoctorsActiveKey, DoctorChoicesKey, DoctorKey(email.value)}
    else {DoctorsActiveKey, DoctorChoicesKey}
  }

  /** The keys `invalidate_user_cache(user_id)` deletes. */
  function UserInvalidationKeys(userId: nat): (ks: set<string>)
    ensures forall k :: k in ks <==> k == UserAppointmentsKey(userId) || k == UserStatsKey(userId)
    ensures |ks| == 2
  {
    UserKeysDistinct(userId, userId, "", 0);
    {UserAppointmentsKey(userId), UserStatsKey(userId)}
  }

  /** The keys `invalidate_appointment_related_cache(a)` deletes: exactly
      three, the slot key of its doctor and date and the two keys of its user. */
  function AppointmentInvalidationKeys(a: Appointment): (ks: set<string>)
    ensures forall k :: k in ks <==> k == SlotsKey(a.doctorEmail, a.date) || k == UserAppointmentsKey(a.userId) || k == UserStatsKey(a.userId)
    ensures |ks| == 3
  {
    UserKeysDistinct(a.userId, a.userId, a.doctorEmail, a.date);
    {SlotsKey(a.doctorEmail, a.date), UserAppointmentsKey(a.userId), UserStatsKey(a.userId)}
  }

  /** Deleting a set of keys: those read as None, every other key is unchanged. */
  lemma DeletingKeys(entries: map<string, Entry>, ks: set<string>)
    ensures forall k, t :: k in ks ==> Read(entries - ks, k, t) == Null
    ensures forall k, t :: k !in ks ==> Read(entries - ks, k, t) == Read(entries, k, t)
  {
  }

  // ---------------------------------------------------------------------------
  // warm_cache_for_date_range
  // ---------------------------------------------------------------------------

  /** The cache after writing the slot entries of days `day` through `last`,
      in that order. */
  function Warmed(entries: map<string, Entry>, rows: seq<Appointment>, doctorEmail: string, day: nat, last: nat, now: int): map<string, Entry>
    decreases if day <= last then last - day + 1 else 0
  {
    if day > last then entries
    else Warmed(Written(entries, SlotsKey(doctorEmail, day), SlotSet(BookedSlots(rows, doctorEmail, day)), SlotsTtl, now),
                rows, doctorEmail, day + 1, last, now)
  }

  /** Warming leaves every key that is not a slot key of the range as it was. */
  lemma {:induction false} WarmedLeavesOtherKeys(entries: map<string, Entry>, rows: seq<Appointment>, doctorEmail: string,
                                                 day: nat, last: nat, now: int, k: string, t: int)
    requires forall d: nat :: day <= d <= last ==> k != SlotsKey(doctorEmail, d)
    ensures Read(Warmed(entries, rows, doctorEmail, day, last, now), k, t) == Read(entries, k, t)
    decreases if day <= last then last - day + 1 else 0
  {
    if day <= last {
      var e := Written(entries, SlotsKey(doctorEmail, day), SlotSet(BookedSlots(rows, doctorEmail, day)), SlotsTtl, now);
      WarmedLeavesOtherKeys(e, rows, doctorEmail, day + 1, last, now, k, t);
    }
  }

  /** Every day of the range gets its booked slots, live for 180 seconds. */
  lemma {:induction false} WarmedCoversRange(entries: map<string, Entry>, rows: seq<Appointment>, doctorEmail: string,
                                             day: nat, last: nat, now: int, d: nat, t: int)
    requires day <= d <= last && now <= t < now + SlotsTtl
    ensures Read(Warmed(entries, rows, doctorEmail, day, last, now), SlotsKey(doctorEmail, d), t)
      == SlotSet(BookedSlots(rows, doctorEmail, d))
    decreases last - day
  {
    var e := Written(entries, SlotsKey(doctorEmail, day), SlotSet(BookedSlots(rows, doctorEmail, day)), SlotsTtl, now);
    if d == day {
      forall d': nat | day + 1 <= d' <= last
        ensures SlotsKey(doctorEmail, d) != SlotsKey(doctorEmail, d')
      {
        if SlotsKey(doctorEmail, d) == SlotsKey(doctorEmail, d') {
          SlotsKeyInjective(doctorEmail, d, doctorEmail, d');
        }
      }
      WarmedLeavesOtherKeys(e, rows, doctorEmail, day + 1, last, now, SlotsKey(doctorEmail, d), t);
    } else {
      WarmedCoversRange(e, rows, doctorEmail, day + 1, last, now, d, t);
    }
  }

  // ---------------------------------------------------------------------------
  // The helpers, on the shared cache
  // ---------------------------------------------------------------------------

  /** A function wrapped by `cached_query`, called with `args`; `result` is
      what the wrapped function returns when it runs. */
  method CachedQuery(cache: Cache, timeout: nat, keyPrefix: string, funcName: string, args: seq<string>,
                     result: Value, now: int) returns (r: Value, ran: bool)
    modifies cache
    ensures Fetched(cache.entries, r, ran) == CacheAside(old(cache.entries), QueryKey(keyPrefix, funcName, args), now, result, timeout)
  {
    var key := QueryKey(keyPrefix, funcName, args);
    r := cache.Get(key, now);
    ran := r == Null;
    if ran {
      r := result;
      cache.Set(key, r, timeout, now);
    }
  }

  method GetDoctorCached(cache: Cache, doctors: map<string, Doctor>, email: string, now: int) returns (r: Value, queried: bool)
    modifies cache
    ensures Fetched(cache.entries, r, queried) == DoctorLookup(old(cache.entries), doctors, email, now)
  {
    var key := DoctorKey(email);
    var doctor := cache.Get(key, now);
    queried := doctor == Null;
    if queried {
      if email in doctors && doctors[email].isActive {
        doctor := DoctorRow(doctors[email]);
        cache.Set(key, doctor, DoctorTtl, now);
      } else {
        cache.Set(key, Flag(false), MissingDoctorTtl, now);
        return Null, queried;
      }
    }
    r := if Truthy(doctor) then doctor else Null;
  }

  method InvalidateDoctorCache(cache: Cache, email: Option<string>)
    modifies cache
    ensures cache.entries == old(cache.entries) - DoctorInvalidationKeys(email)
  {
    var keys := {DoctorsActiveKey, DoctorChoicesKey};
    if Given(email) {
      keys := keys + {DoctorKey(email.value)};
    }
    cache.DeleteMany(keys);
  }

  method GetBookedSlotsCached(cache: Cache, rows: seq<Appointment>, doctorEmail: string, date: nat, now: int)
    returns (r: Value, queried: bool)
    modifies cache
    ensures Fetched(cache.entries, r, queried)
      == CacheAside(old(cache.entries), SlotsKey(doctorEmail, date), now, SlotSet(BookedSlots(rows, doctorEmail, date)), SlotsTtl)
  {
    var key := SlotsKey(doctorEmail, date);
    r := cache.Get(key, now);
    queried := r == Null;
    if queried {
      r := SlotSet(BookedSlots(rows, doctorEmail, date));
      cache.Set(key, r, SlotsTtl, now);
    }
  }

  /** Deletes exactly the one slot key. */
  method InvalidateSlotsCache(cache: Cache, doctorEmail: string, date: nat)
    modifies cache
    ensures cache.entries == old(cache.entries) - {SlotsKey(doctorEmail, date)}
  {
    cache.Delete(SlotsKey(doctorEmail, date));
  }

  method GetUserAppointmentStatsCached(cache: Cache, rows: seq<Appointment>, userId: nat, now: int)
    returns (r: Value, queried: bool)
    modifies cache
    ensures Fetched(cache.entries, r, queried)
      == CacheAside(old(cache.entries), UserStatsKey(userId), now, StatsDict(StatsOf(rows, userId)), StatsTtl)
  {
    var key := UserStatsKey(userId);
    r := cache.Get(key, now);
    queried := r == Null;
    if queried {
      r := StatsDict(StatsOf(rows, userId));
      cache.Set(key, r, StatsTtl, now);
    }
  }

  method InvalidateUserCache(cache: Cache, userId: nat)
    modifies cache
    ensures cache.entries == old(cache.entries) - UserInvalidationKeys(userId)
  {
    cache.DeleteMany({UserAppointmentsKey(userId), UserStatsKey(userId)});
  }

  method InvalidateAppointmentRelatedCache(cache: Cache, a: Appointment)
    modifies cache
    ensures cache.entries == old(cache.entries) - AppointmentInvalidationKeys(a)
  {
    cache.DeleteMany({SlotsKey(a.doctorEmail, a.date), UserAppointmentsKey(a.userId), UserStatsKey(a.userId)});
  }

  /** Writes the slot entry of each day from `startDate` to `endDate`
      inclusive, one day per iteration; nothing when `startDate > endDate`. */
  method WarmCacheForDateRange(cache: Cache, rows: seq<Appointment>, doctorEmail: string, startDate: nat, endDate: nat, now: int)
    modifies cache
    ensures cache.entries == Warmed(old(cache.entries), rows, doctorEmail, startDate, endDate, now)
    ensures startDate > endDate ==> cache.entries == old(cache.entries)
  {
    var current := startDate;
    while current <= endDate
      invariant startDate <= current <= endDate + 1 || (current == startDate && startDate > endDate)
      invariant Warmed(cache.entries, rows, doctorEmail, current, endDate, now) == Warmed(old(cache.entries), rows, doctorEmail, startDate, endDate, now)
      decreases endDate + 1 - current
    {
      var key := SlotsKey(doctorEmail, current);
      var booked := BookedSlots(rows, doctorEmail, current);
      cache.Set(key, SlotSet(booked), SlotsTtl, now);
      current := current + 1;
    }
  }
}
