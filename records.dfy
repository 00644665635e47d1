/** The entities the core reads and writes. The Django models for these
    (Appointment, Doctor, Service, the auth User) are defined outside the
    files modelled here, so the records below carry exactly the fields the
    core uses. */
module Records {

  /** Minutes since midnight: the value of a `datetime.time` at minute
      resolution. */
  type Minute = m: nat | m < 1440

  /** Seconds since midnight. */
  type DaySecond = s: nat | s < 86400

  datatype Status = Pending | Confirmed | Cancelled | Completed

  /** The status as stored in the database column. */
  function StatusName(s: Status): string
  {
    match s
    case Pending => "pending"
    case Confirmed => "confirmed"
    case Cancelled => "cancelled"
    case Completed => "completed"
  }

  /** An appointment row. `date` is a day number; `calendarEventId` is ""
      when no calendar event is recorded. */
  datatype Appointment = Appointment(
    id: nat,
    ulid: string,
    userId: nat,
    doctorEmail: string,
    serviceCode: string,
    date: nat,
    time: Minute,
    status: Status,
    calendarEventId: string)

  datatype Doctor = Doctor(email: string, fullName: string, isActive: bool)

  datatype Service = Service(ulid: string, code: string, name: string, durationMinutes: int, isActive: bool)

  /** A contact-form inquiry (`Contact` in models.py). */
  datatype Contact = Contact(name: string, email: string, subject: string, message: string)

  datatype User = User(id: nat, username: string, email: string, isActive: bool)

  datatype Option<T> = None | Some(value: T)

  /** A value, or the message of the ValidationError raised instead. */
  datatype Result<T> = Ok(value: T) | Err(message: string)

  /** What a call into code outside the model does: return a value or raise
      an exception derived from `Exception` (the kind the code's handlers
      catch). */
  datatype Py<T> = Returned(value: T) | Raised(error: string)

  /** A framework user object whose fields the adapters and forms assign in
      place; `saves` counts the calls to `user.save()`. */
  class UserObject {
    var username: string
    var email: string
    var firstName: string
    var lastName: string
    var saves: nat

    constructor (username: string, email: string, firstName: string, lastName: string)
      ensures this.username == username && this.email == email
      ensures this.firstName == firstName && this.lastName == lastName
      ensures saves == 0
    {
      this.username := username;
      this.email := email;
      this.firstName := firstName;
      this.lastName := lastName;
      saves := 0;
    }
  }
}
