/** forms.py: the appointment form's date check and the sign-up form's save. */
module Forms {
  import opened Records

  const PastDateMessage: string := "Appointment date cannot be in the past."

  /** `AppointmentForm.clean_date`, dates as day numbers; `today` is
      `date.today()`. A missing date passes through unchanged. */
  function CleanDate(d: Option<nat>, today: nat): (r: Result<Option<nat>>)
    ensures r.Err? <==> d.Some? && d.value < today
    ensures r.Err? ==> r.message == PastDateMessage
    ensures r.Ok? ==> r.value == d
  {
    if d.Some? && d.value < today then Err(PastDateMessage) else Ok(d)
  }

  /** `NewUserForm.save(commit)`: the form's user with the cleaned e-mail,
      saved only when `commit` is true. */
  method NewUserFormSave(user: UserObject, cleanedEmail: string, commit: bool) returns (r: UserObject)
    modifies user
    ensures r == user && user.email == cleanedEmail
    ensures user.saves == old(user.saves) + (if commit then 1 else 0)
    ensures user.username == old(user.username) && user.firstName == old(user.firstName) && user.lastName == old(user.lastName)
  {
    user.email := cleanedEmail;
    if commit {
      user.saves := user.saves + 1;
    }
    return user;
  }
}
