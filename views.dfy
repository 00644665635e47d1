/** The booking view `appointment()` and the contact view `contact()` of
    views.py.

    A booking request for time t is refused when some stored appointment for
    the same doctor e-mail and date has a time in
    `[(t - 30 min).time(), (t + 30 min).time()]` (a SQL BETWEEN, so an empty
    range when the first end is later than the second). Otherwise the row is
    saved first, and only then are the confirmation e-mail and the calendar
    event requested. Requests are handled one after another: the view takes
    no lock and opens no transaction. */
module Views {
  import opened Records
  import opened Text

  const BufferMinutes: nat := 30
  const MinutesPerDay: nat := 1440

  /** The window around t does not cross midnight. */
  predicate NoWrap(t: Minute)
  {
    BufferMinutes <= t && t + BufferMinutes < MinutesPerDay
  }

  /** `(start_time, end_time)`: t shifted by the buffer both ways, each taken
      back to a time of day (`.time()` drops the date, so it wraps). */
  function Window(t: Minute): (w: (Minute, Minute))
    ensures NoWrap(t) ==> w.0 == t - BufferMinutes && w.1 == t + BufferMinutes
    ensures !NoWrap(t) ==> w.0 > w.1
  {
    ((t - BufferMinutes) % MinutesPerDay, (t + BufferMinutes) % MinutesPerDay)
  }

  /** Row `e` matches the view's filter for candidate `a`: same date, same
      doctor e-mail, time inside `time__range`. The status is not consulted. */
  predicate Blocks(e: Appointment, a: Appointment)
  {
    e.date == a.date && e.doctorEmail == a.doctorEmail
    && Window(a.time).0 <= e.time <= Window(a.time).1
  }

  /** `Appointment.objects.filter(...).exists()`. */
  function IsBooked(rows: seq<Appointment>, a: Appointment): (b: bool)
    ensures b <==> exists i :: 0 <= i < |rows| && Blocks(rows[i], a)
  {
    if rows == [] then false
    else if Blocks(rows[0], a) then true
    else
      var rest := IsBooked(rows[1..], a);
      assert forall i :: 1 <= i < |rows| ==> rows[i] == rows[1..][i - 1];
      rest
  }

  /** The rows after one booking request for `a` with a valid form. */
  function Admit(rows: seq<Appointment>, a: Appointment): seq<Appointment>
  {
    if IsBooked(rows, a) then rows else rows + [a]
  }

  /** The rows after a series of booking requests handled in order. */
  function BookAll(rows: seq<Appointment>, requests: seq<Appointment>): seq<Appointment>
    decreases |requests|
  {
    if requests == [] then rows else BookAll(Admit(rows, requests[0]), requests[1..])
  }

  predicate SameSlotDay(x: Appointment, y: Appointment)
  {
    x.date == y.date && x.doctorEmail == y.doctorEmail
  }

  predicate Apart(x: Minute, y: Minute)
  {
    x - y > BufferMinutes || y - x > BufferMinutes
  }

  /** Any two rows for the same doctor and date are more than 30 minutes apart. */
  ghost predicate Separated(rows: seq<Appointment>)
  {
    forall i, j :: 0 <= i < j < |rows| && SameSlotDay(rows[i], rows[j]) ==> Apart(rows[i].time, rows[j].time)
  }

  /** Without a midnight wrap, the view refuses exactly the requests that are
      within 30 minutes of a row for the same doctor and date. */
  lemma ConflictIsWithinBuffer(rows: seq<Appointment>, a: Appointment)
    requires NoWrap(a.time)
    ensures IsBooked(rows, a) <==>
      exists i :: 0 <= i < |rows| && SameSlotDay(rows[i], a) && !Apart(rows[i].time, a.time)
  {
    if IsBooked(rows, a) {
      var i :| 0 <= i < |rows| && Blocks(rows[i], a);
      assert SameSlotDay(rows[i], a) && !Apart(rows[i].time, a.time);
    }
    if exists i :: 0 <= i < |rows| && SameSlotDay(rows[i], a) && !Apart(rows[i].time, a.time) {
      var i :| 0 <= i < |rows| && SameSlotDay(rows[i], a) && !Apart(rows[i].time, a.time);
      assert Blocks(rows[i], a);
    }
  }

  /** The status of a stored row plays no part: a cancelled or completed
      appointment blocks exactly as a pending one does. */
  lemma StatusIsIgnored(rows: seq<Appointment>, a: Appointment, k: nat, s: Status)
    requires k < |rows|
    ensures IsBooked(rows[k := rows[k].(status := s)], a) == IsBooked(rows, a)
  {
    var rows' := rows[k := rows[k].(status := s)];
    assert forall i :: 0 <= i < |rows| ==> (Blocks(rows'[i], a) <==> Blocks(rows[i], a));
  }

  /** A cancelled row in the window blocks the request. */
  lemma CancelledRowBlocks(rows: seq<Appointment>, a: Appointment, k: nat)
    requires k < |rows| && rows[k].status == Cancelled && Blocks(rows[k], a)
    ensures Admit(rows, a) == rows
  {
  }

  /** When t - 30 or t + 30 crosses midnight the range is empty and the view
      finds no conflict at all, whatever is stored. */
  lemma WrappedWindowFindsNothing(rows: seq<Appointment>, a: Appointment)
    requires !NoWrap(a.time)
    ensures !IsBooked(rows, a)
    ensures Admit(rows, a) == rows + [a]
  {
  }

  /** One request keeps the rows separated when its window does not wrap. */
  lemma AdmitKeepsSeparated(rows: seq<Appointment>, a: Appointment)
    requires Separated(rows) && NoWrap(a.time)
    ensures Separated(Admit(rows, a))
  {
    if !IsBooked(rows, a) {
      var r := rows + [a];
      forall i, j | 0 <= i < j < |r| && SameSlotDay(r[i], r[j])
        ensures Apart(r[i].time, r[j].time)
      {
        if j == |rows| {
          assert r[i] == rows[i] && r[j] == a;
          assert !Blocks(rows[i], a);
        } else {
          assert r[i] == rows[i] && r[j] == rows[j];
        }
      }
    }
  }

  /** Sequential invariant: if every booking goes through the view, one after
      another, and no request's window crosses midnight, then any two
      appointments for the same doctor and date are more than 30 minutes
      apart. */
  lemma {:induction false} BookAllSeparated(rows: seq<Appointment>, requests: seq<Appointment>)
    requires Separated(rows)
    requires forall k :: 0 <= k < |requests| ==> NoWrap(requests[k].time)
    ensures Separated(BookAll(rows, requests))
    decreases |requests|
  {
    if requests != [] {
      AdmitKeepsSeparated(rows, requests[0]);
      assert forall k :: 0 <= k < |requests[1..]| ==> requests[1..][k] == requests[k + 1];
      BookAllSeparated(Admit(rows, requests[0]), requests[1..]);
    }
  }

  /** Each valid request adds at most one row and never removes one. */
  lemma {:induction false} BookAllOnlyAppends(rows: seq<Appointment>, requests: seq<Appointment>)
    ensures |rows| <= |BookAll(rows, requests)| <= |rows| + |requests|
    ensures BookAll(rows, requests)[..|rows|] == rows
    decreases |requests|
  {
    if requests != [] {
      var next := Admit(rows, requests[0]);
      BookAllOnlyAppends(next, requests[1..]);
      assert next[..|rows|] == rows;
      assert BookAll(rows, requests)[..|rows|] == BookAll(next, requests[1..])[..|next|][..|rows|];
    }
  }

  /** The wrap lets two bookings five minutes apart through: 23:50 is stored,
      23:45 is requested, its range is 23:15..00:15, which matches nothing. */
  lemma MidnightNeighboursBothAdmitted(e: Appointment, a: Appointment)
    requires e.time == 1430 && a.time == 1425 && SameSlotDay(e, a)
    ensures Admit([e], a) == [e, a]
    ensures !Separated(Admit([e], a))
  {
    assert !NoWrap(a.time);
    var r := [e, a];
    assert SameSlotDay(r[0], r[1]) && !Apart(r[0].time, r[1].time);
  }

  // ---------------------------------------------------------------------------
  // The view itself
  // ---------------------------------------------------------------------------

  /** The calls the view makes, in order. */
  datatype Effect = Saved(a: Appointment) | EmailCall(a: Appointment) | CalendarCall(a: Appointment)

  datatype BookingOutcome =
    | InvalidForm               // "Please fix the highlighted errors ..."
    | Conflict                  // "This time slot or a nearby slot is already booked ..."
    | Booked                    // "Appointment booked successfully! ..."
    | BookingError(reason: string)  // "There was an issue booking your appointment: ..."

  /** The calls after a successful save: the e-mail, then, if it returned,
      the calendar event. */
  function AfterSave(a: Appointment, email: Py<()>): seq<Effect>
  {
    [Saved(a), EmailCall(a)] + (if email.Returned? then [CalendarCall(a)] else [])
  }

  class AppointmentView {
    var rows: seq<Appointment>
    var effects: seq<Effect>

    constructor (rows: seq<Appointment>)
      ensures this.rows == rows && effects == []
    {
      this.rows := rows;
      effects := [];
    }

    /** A POST to the booking page. `form` is the unsaved appointment of a
        valid form (None when the form is invalid); `save`, `email` and
        `calendar` say how `save()`, `send_appointment_email` and
        `create_nocodeapi_event` end. */
    method Post(form: Option<Appointment>, save: Py<()>, email: Py<()>, calendar: Py<()>)
      returns (outcome: BookingOutcome)
      modifies this
      ensures form.None? ==> outcome == InvalidForm && rows == old(rows) && effects == old(effects)
      ensures form.Some? && IsBooked(old(rows), form.value) ==>
        outcome == Conflict && rows == old(rows) && effects == old(effects)
      ensures form.Some? && !IsBooked(old(rows), form.value) && save.Raised? ==>
        outcome == BookingError(save.error) && rows == old(rows) && effects == old(effects)
      ensures form.Some? && !IsBooked(old(rows), form.value) && save.Returned? ==>
        rows == Admit(old(rows), form.value) && rows == old(rows) + [form.value]
        && effects == old(effects) + AfterSave(form.value, email)
        && outcome == (if email.Raised? then BookingError(email.error)
                       else if calendar.Raised? then BookingError(calendar.error)
                       else Booked)
    {
      if form.None? {
        return InvalidForm;
      }
      var a := form.value;
      var isBooked := IsBooked(rows, a);
      if isBooked {
        return Conflict;
      }
      if save.Raised? {
        return BookingError(save.error);
      }
      rows := rows + [a];
      effects := effects + [Saved(a)];
      effects := effects + [EmailCall(a)];
      if email.Raised? {
        return BookingError(email.error);
      }
      effects := effects + [CalendarCall(a)];
      if calendar.Raised? {
        return BookingError(calendar.error);
      }
      return Booked;
    }
  }

  // ---------------------------------------------------------------------------
  // contact()
  // ---------------------------------------------------------------------------

  datatype ContactError = NameRequired | EmailRequired | InvalidEmail | SubjectRequired | MessageRequired

  /** The position of each message in the view's checks. */
  function Rank(e: ContactError): nat
  {
    match e
    case NameRequired => 0
    case EmailRequired => 1
    case InvalidEmail => 2
    case SubjectRequired => 3
    case MessageRequired => 4
  }

  function ErrorText(e: ContactError): string
  {
    match e
    case NameRequired => "Name is required"
    case EmailRequired => "Email is required"
    case InvalidEmail => "Invalid email address"
    case SubjectRequired => "Subject is required"
    case MessageRequired => "Message is required"
  }

  /** The POSTed fields, "" for a missing one (`request.POST.get(k, '')`). */
  datatype ContactForm = ContactForm(name: string, email: string, subject: string, message: string)

  /** The fields as the view uses them: stripped, the e-mail also lowercased. */
  function Cleaned(f: ContactForm): Contact
  {
    Contact(Strip(f.name), Lower(Strip(f.email)), Strip(f.subject), Strip(f.message))
  }

  /** Messages strictly in the order the view checks them. */
  predicate InOrder(errors: seq<ContactError>)
  {
    forall i, j :: 0 <= i < j < |errors| ==> Rank(errors[i]) < Rank(errors[j])
  }

  function NameErrors(c: Contact): seq<ContactError>
  {
    if c.name == [] then [NameRequired] else []
  }

  function EmailErrors(c: Contact, validEmail: string -> bool): seq<ContactError>
  {
    if c.email == [] then [EmailRequired] else if !validEmail(c.email) then [InvalidEmail] else []
  }

  function SubjectErrors(c: Contact): seq<ContactError>
  {
    if c.subject == [] then [SubjectRequired] else []
  }

  function MessageErrors(c: Contact): seq<ContactError>
  {
    if c.message == [] then [MessageRequired] else []
  }

  /** The error list of the cleaned fields `c`: the checks of each field in
      turn. `validEmail` stands for Django's `validate_email`. */
  function ContactErrors(c: Contact, validEmail: string -> bool): seq<ContactError>
  {
    NameErrors(c) + EmailErrors(c, validEmail) + SubjectErrors(c) + MessageErrors(c)
  }

  /** Joining two ordered lists, the first all before the second, keeps the order. */
  lemma ConcatInOrder(a: seq<ContactError>, b: seq<ContactError>)
    requires InOrder(a) && InOrder(b)
    requires forall x, y :: x in a && y in b ==> Rank(x) < Rank(y)
    ensures InOrder(a + b)
  {
    forall i, j | 0 <= i < j < |a + b|
      ensures Rank((a + b)[i]) < Rank((a + b)[j])
    {
      if j < |a| {
        assert (a + b)[i] == a[i] && (a + b)[j] == a[j];
      } else if i < |a| {
        assert (a + b)[i] in a && (a + b)[j] in b;
      } else {
        assert (a + b)[i] == b[i - |a|] && (a + b)[j] == b[j - |a|];
      }
    }
  }

  lemma ContactErrorsMembership(c: Contact, validEmail: string -> bool)
    ensures var errors := ContactErrors(c, validEmail);
      (NameRequired in errors <==> c.name == [])
      && (EmailRequired in errors <==> c.email == [])
      && (InvalidEmail in errors <==> c.email != [] && !validEmail(c.email))
      && (SubjectRequired in errors <==> c.subject == [])
      && (MessageRequired in errors <==> c.message == [])
  {
    var n, e, sj, m := NameErrors(c), EmailErrors(c, validEmail), SubjectErrors(c), MessageErrors(c);
    assert ContactErrors(c, validEmail) == n + e + sj + m;
    assert forall x :: x in n + e + sj + m <==> x in n || x in e || x in sj || x in m;
  }

  lemma ContactErrorsInOrder(c: Contact, validEmail: string -> bool)
    ensures InOrder(ContactErrors(c, validEmail))
  {
    var n, e, sj, m := NameErrors(c), EmailErrors(c, validEmail), SubjectErrors(c), MessageErrors(c);
    assert forall x :: x in n ==> Rank(x) == 0;
    assert forall x :: x in e ==> 1 <= Rank(x) <= 2;
    assert forall x :: x in sj ==> Rank(x) == 3;
    assert forall x :: x in m ==> Rank(x) == 4;
    ConcatInOrder(n, e);
    ConcatInOrder(n + e, sj);
    ConcatInOrder(n + e + sj, m);
  }

  /** Each message is reported exactly when its condition holds, and the
      messages come in the order name, e-mail (required, then format),
      subject, message. */
  lemma ContactErrorsSpec(c: Contact, validEmail: string -> bool)
    ensures var errors := ContactErrors(c, validEmail);
      (NameRequired in errors <==> c.name == [])
      && (EmailRequired in errors <==> c.email == [])
      && (InvalidEmail in errors <==> c.email != [] && !validEmail(c.email))
      && (SubjectRequired in errors <==> c.subject == [])
      && (MessageRequired in errors <==> c.message == [])
      && InOrder(errors)
      && (errors == [] <==> c.name != [] && c.email != [] && validEmail(c.email) && c.subject != [] && c.message != [])
  {
    ContactErrorsMembership(c, validEmail);
    ContactErrorsInOrder(c, validEmail);
    var errors := ContactErrors(c, validEmail);
    if errors != [] {
      assert errors[0] in errors;
    }
  }

  /** The view's checks: each failing one appends its message. */
  method ValidateContact(c: Contact, validEmail: string -> bool) returns (errors: seq<ContactError>)
    ensures errors == ContactErrors(c, validEmail)
  {
    errors := [];
    if c.name == [] {
      errors := errors + [NameRequired];
    }
    assert errors == NameErrors(c);
    if c.email == [] {
      errors := errors + [EmailRequired];
    } else if !validEmail(c.email) {
      errors := errors + [InvalidEmail];
    }
    assert errors == NameErrors(c) + EmailErrors(c, validEmail);
    if c.subject == [] {
      errors := errors + [SubjectRequired];
    }
    if c.message == [] {
      errors := errors + [MessageRequired];
    }
  }

  datatype ContactOutcome =
    | Rejected(errors: seq<ContactError>)  // the form is shown again with the messages
    | Received                             // "Thank you! We've received your message ..."
    | ContactFailed                        // "Something went wrong. Please try again."

  class ContactView {
    var contacts: seq<Contact>
    var notified: seq<Contact>

    constructor ()
      ensures contacts == [] && notified == []
    {
      contacts := [];
      notified := [];
    }

    /** A POST to the contact page; `create` says how
        `Contact.objects.create` ends and `send` how
        `send_contact_form_emails` ends. Either raising is caught by the
        view's `except Exception`, which shows "Something went wrong". */
    method Post(f: ContactForm, validEmail: string -> bool, create: Py<()>, send: Py<()>) returns (outcome: ContactOutcome)
      modifies this
      ensures var c := Cleaned(f);
        outcome.Rejected? <==>
          (c.name == [] || c.email == [] || !validEmail(c.email) || c.subject == [] || c.message == [])
      ensures outcome.Rejected? ==>
        outcome.errors == ContactErrors(Cleaned(f), validEmail) && contacts == old(contacts) && notified == old(notified)
      ensures !outcome.Rejected? && create.Raised? ==>
        outcome == ContactFailed && contacts == old(contacts) && notified == old(notified)
      ensures !outcome.Rejected? && create.Returned? ==>
        contacts == old(contacts) + [Cleaned(f)] && notified == old(notified) + [Cleaned(f)]
        && (outcome == Received <==> send.Returned?)
    {
      var c := Cleaned(f);
      var errors := ValidateContact(c, validEmail);
      ContactErrorsSpec(c, validEmail);
      if errors != [] {
        return Rejected(errors);
      }
      if create.Raised? {
        return ContactFailed;
      }
      contacts := contacts + [c];
      notified := notified + [c];
      if send.Raised? {
        return ContactFailed;
      }
      return Received;
    }
  }
}
