/** admin.py: the display helpers of the service, appointment and contact
    admin pages, and their bulk actions, which update every selected row in
    one query whatever its current state. */
module Admin {
  import opened Records
  import opened Text

  // ---------------------------------------------------------------------------
  // ServiceAdmin.duration_display
  // ---------------------------------------------------------------------------

  /** "1h 30m", "2h" or "45m". Python's `//` and `%` by 60 round down and
      leave a remainder in 0..59, which for a positive divisor is what
      Dafny's `/` and `%` do. */
  function DurationDisplay(m: int): string
  {
    var hours := m / 60;
    var minutes := m % 60;
    if hours > 0 then
      if minutes > 0 then NatToString(hours) + "h " + NatToString(minutes) + "m" else NatToString(hours) + "h"
    else NatToString(minutes) + "m"
  }

  /** Reads a displayed duration back: "<h>h <m>m", "<h>h" or "<m>m". */
  function ParseDuration(s: string): Option<int>
  {
    var hs := BeforeFirst(s, 'h');
    if |hs| < |s| then
      var rest := s[|hs| + 1..];
      if hs == [] || !AllDigits(hs) then None
      else if rest == [] then Some(DigitsValue(hs) * 60)
      else if |rest| >= 3 && rest[0] == ' ' && rest[|rest| - 1] == 'm' && AllDigits(rest[1..|rest| - 1])
      then Some(DigitsValue(hs) * 60 + DigitsValue(rest[1..|rest| - 1]))
      else None
    else if |s| >= 2 && s[|s| - 1] == 'm' && AllDigits(s[..|s| - 1]) then Some(DigitsValue(s[..|s| - 1]))
    else None
  }

  lemma MinutesOnlyRoundTrip(r: nat)
    ensures ParseDuration(NatToString(r) + "m") == Some(r)
  {
    var d := NatToString(r);
    var s := d + "m";
    DigitsLack(d, 'h');
    assert 'h' !in s;
    assert s[..|s| - 1] == d;
    NatToStringRoundTrip(r);
  }

  lemma HoursOnlyRoundTrip(h: nat)
    ensures ParseDuration(NatToString(h) + "h") == Some(h * 60)
  {
    var d := NatToString(h);
    DigitsLack(d, 'h');
    BeforeFirstConcat(d, 'h', []);
    assert d + "h" == d + ['h'] + [];
    NatToStringRoundTrip(h);
  }

  /** "<hs>h <ms>m" for digit strings is read as hs hours and ms minutes. */
  lemma ParseHoursMinutes(hs: string, ms: string)
    requires hs != [] && AllDigits(hs) && ms != [] && AllDigits(ms)
    ensures ParseDuration(hs + "h " + ms + "m") == Some(DigitsValue(hs) * 60 + DigitsValue(ms))
  {
    var tail := " " + ms + "m";
    var s := hs + "h " + ms + "m";
    assert s == hs + ['h'] + tail;
    assert BeforeFirst(s, 'h') == hs by {
      DigitsLack(hs, 'h');
      BeforeFirstConcat(hs, 'h', tail);
    }
    assert s[|hs| + 1..] == tail;
    assert tail[1..|tail| - 1] == ms;
  }

  lemma HoursMinutesRoundTrip(h: nat, r: nat)
    ensures ParseDuration(NatToString(h) + "h " + NatToString(r) + "m") == Some(h * 60 + r)
  {
    var d, e := NatToString(h), NatToString(r);
    assert ParseDuration(d + "h " + e + "m") == Some(DigitsValue(d) * 60 + DigitsValue(e)) by {
      ParseHoursMinutes(d, e);
    }
    assert DigitsValue(d) == h && DigitsValue(e) == r by {
      NatToStringRoundTrip(h);
      NatToStringRoundTrip(r);
    }
  }

  /** The display loses nothing: for a non-negative duration the hours and
      minutes shown add back up to it. */
  lemma DurationDisplayRoundTrip(m: nat)
    ensures ParseDuration(DurationDisplay(m)) == Some(m)
  {
    var hours, minutes := m / 60, m % 60;
    assert hours * 60 + minutes == m;
    if hours > 0 {
      if minutes > 0 {
        HoursMinutesRoundTrip(hours, minutes);
      } else {
        HoursOnlyRoundTrip(hours);
      }
    } else {
      MinutesOnlyRoundTrip(minutes);
    }
  }

  /** A negative value is shown as its remainder: -30 minutes reads "30m". */
  lemma NegativeDurationShowsRemainder()
    ensures DurationDisplay(-30) == "30m"
  {
    assert -30 / 60 == -1 && -30 % 60 == 30;
    assert NatToString(30) == NatToString(3) + [DigitChar(0)];
  }

  // ---------------------------------------------------------------------------
  // ulid_short and appointment_count
  // ---------------------------------------------------------------------------

  /** `f"{obj.ulid[:8]}..."`: at most the first 8 characters, then "...". */
  function UlidShort(ulid: string): (r: string)
    ensures |r| == (if |ulid| < 8 then |ulid| else 8) + 3
    ensures r[..|r| - 3] == ulid[..|r| - 3] && r[|r| - 3..] == "..."
  {
    (if |ulid| < 8 then ulid else ulid[..8]) + "..."
  }

  /** The column shows '0' for a service without appointments, and otherwise
      a link that filters the appointments by the service's ULID (the
      arguments' HTML escaping is not modelled; a ULID needs none). */
  function AppointmentCount(ulid: string, count: nat): (r: string)
    ensures r == "0" <==> count == 0
  {
    if count > 0 then
      var r := "<a href=\"/admin/appointments/appointment/?service__ulid=" + ulid + "\">" + NatToString(count) + " appointments</a>";
      assert |r| > 1;
      r
    else "0"
  }

  // ---------------------------------------------------------------------------
  // Bulk actions
  // ---------------------------------------------------------------------------

  /** `queryset.update(status=s)` over the appointments whose id is selected. */
  function MarkStatus(rows: seq<Appointment>, selected: set<nat>, s: Status): (r: seq<Appointment>)
    ensures |r| == |rows|
  {
    if rows == [] then []
    else [if rows[0].id in selected then rows[0].(status := s) else rows[0]] + MarkStatus(rows[1..], selected, s)
  }

  /** How many rows the update matched. */
  function CountSelected(rows: seq<Appointment>, selected: set<nat>): nat
  {
    if rows == [] then 0 else (if rows[0].id in selected then 1 else 0) + CountSelected(rows[1..], selected)
  }

  /** Every selected row gets the new status, whatever it had (a cancelled or
      completed appointment included), and every other field and row stays. */
  lemma {:induction false} MarkStatusSpec(rows: seq<Appointment>, selected: set<nat>, s: Status)
    ensures var r := MarkStatus(rows, selected, s);
      forall i :: 0 <= i < |rows| ==>
        (rows[i].id in selected ==> r[i] == rows[i].(status := s))
        && (rows[i].id !in selected ==> r[i] == rows[i])
  {
    if rows != [] {
      MarkStatusSpec(rows[1..], selected, s);
      var r := MarkStatus(rows, selected, s);
      assert forall i :: 1 <= i < |rows| ==> r[i] == MarkStatus(rows[1..], selected, s)[i - 1] && rows[i] == rows[1..][i - 1];
    }
  }

  /** Marking twice with the same status is marking once. */
  lemma {:induction false} MarkStatusIdempotent(rows: seq<Appointment>, selected: set<nat>, s: Status)
    ensures MarkStatus(MarkStatus(rows, selected, s), selected, s) == MarkStatus(rows, selected, s)
  {
    if rows != [] {
      MarkStatusIdempotent(rows[1..], selected, s);
      assert MarkStatus(rows, selected, s)[1..] == MarkStatus(rows[1..], selected, s);
    }
  }

  /** A cancelled appointment can be marked confirmed again. */
  lemma TerminalRowsAreUpdated(a: Appointment)
    requires a.status == Cancelled
    ensures MarkStatus([a], {a.id}, Confirmed) == [a.(status := Confirmed)]
  {
  }

  /** `queryset.update(is_active=flag)` over the services whose ULID is selected. */
  function SetActive(services: seq<Service>, selected: set<string>, flag: bool): (r: seq<Service>)
    ensures |r| == |services|
  {
    if services == [] then []
    else [if services[0].ulid in selected then services[0].(isActive := flag) else services[0]] + SetActive(services[1..], selected, flag)
  }

  function CountSelectedServices(services: seq<Service>, selected: set<string>): nat
  {
    if services == [] then 0 else (if services[0].ulid in selected then 1 else 0) + CountSelectedServices(services[1..], selected)
  }

  /** Exactly the selected services get the flag; nothing else changes. */
  lemma {:induction false} SetActiveSpec(services: seq<Service>, selected: set<string>, flag: bool)
    ensures var r := SetActive(services, selected, flag);
      forall i :: 0 <= i < |services| ==>
        (services[i].ulid in selected ==> r[i] == services[i].(isActive := flag))
        && (services[i].ulid !in selected ==> r[i] == services[i])
  {
    if services != [] {
      SetActiveSpec(services[1..], selected, flag);
      var r := SetActive(services, selected, flag);
      assert forall i :: 1 <= i < |services| ==> r[i] == SetActive(services[1..], selected, flag)[i - 1] && services[i] == services[1..][i - 1];
    }
  }

  /** The appointment table as the admin actions see it, and the messages
      shown to the admin user. */
  class AppointmentTable {
    var rows: seq<Appointment>
    var messages: seq<string>

    constructor (rows: seq<Appointment>)
      ensures this.rows == rows && messages == []
    {
      this.rows := rows;
      messages := [];
    }

    /** The common body of the `mark_as_*` actions: the update, and the
        message `f'{updated} appointment(s) ...'` with the action's `tail`. */
    method MarkAs(selected: set<nat>, s: Status, tail: string) returns (updated: nat)
      modifies this
      ensures rows == MarkStatus(old(rows), selected, s)
      ensures updated == CountSelected(old(rows), selected)
      ensures messages == old(messages) + [NatToString(updated) + tail]
    {
      updated := CountSelected(rows, selected);
      rows := MarkStatus(rows, selected, s);
      messages := messages + [NatToString(updated) + tail];
    }

    method MarkAsConfirmed(selected: set<nat>) returns (updated: nat)
      modifies this
      ensures rows == MarkStatus(old(rows), selected, Confirmed) && updated == CountSelected(old(rows), selected)
      ensures messages == old(messages) + [NatToString(updated) + " appointment(s) confirmed."]
    {
      updated := MarkAs(selected, Confirmed, " appointment(s) confirmed.");
    }

    method MarkAsCompleted(selected: set<nat>) returns (updated: nat)
      modifies this
      ensures rows == MarkStatus(old(rows), selected, Completed) && updated == CountSelected(old(rows), selected)
      ensures messages == old(messages) + [NatToString(updated) + " appointment(s) completed."]
    {
      updated := MarkAs(selected, Completed, " appointment(s) completed.");
    }

    method MarkAsCancelled(selected: set<nat>) returns (updated: nat)
      modifies this
      ensures rows == MarkStatus(old(rows), selected, Cancelled) && updated == CountSelected(old(rows), selected)
      ensures messages == old(messages) + [NatToString(updated) + " appointment(s) cancelled."]
    {
      updated := MarkAs(selected, Cancelled, " appointment(s) cancelled.");
    }
  }

  /** The service table as the admin actions see it. */
  class ServiceTable {
    var services: seq<Service>
    var messages: seq<string>

    constructor (services: seq<Service>)
      ensures this.services == services && messages == []
    {
      this.services := services;
      messages := [];
    }

    method ActivateServices(selected: set<string>) returns (updated: nat)
      modifies this
      ensures services == SetActive(old(services), selected, true)
      ensures updated == CountSelectedServices(old(services), selected)
      ensures messages == old(messages) + [NatToString(updated) + " service(s) activated."]
    {
      updated := CountSelectedServices(services, selected);
      services := SetActive(services, selected, true);
      messages := messages + [NatToString(updated) + " service(s) activated."];
    }

    method DeactivateServices(selected: set<string>) returns (updated: nat)
      modifies this
      ensures services == SetActive(old(services), selected, false)
      ensures updated == CountSelectedServices(old(services), selected)
      ensures messages == old(messages) + [NatToString(updated) + " service(s) deactivated."]
    {
      updated := CountSelectedServices(services, selected);
      services := SetActive(services, selected, false);
      messages := messages + [NatToString(updated) + " service(s) deactivated."];
    }
  }
}
