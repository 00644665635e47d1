/** backends.py: `EmailUsernameBackend`, which logs a user in by e-mail
    address or username. The user table is a sequence in primary-key order,
    the order `.first()` uses on an unordered query. */
module Backends {
  import opened Records
  import opened Text

  /** `Q(email__iexact=k) | Q(username__iexact=k)`. */
  predicate Matches(u: User, k: string)
  {
    Lower(u.email) == Lower(k) || Lower(u.username) == Lower(k)
  }

  /** The index of the first user matching `k`, if any. */
  function FirstMatch(users: seq<User>, k: string): (r: Option<nat>)
    ensures r.Some? ==> (r.value < |users| && Matches(users[r.value], k)
      && forall j :: 0 <= j < r.value ==> !Matches(users[j], k))
    ensures r.None? ==> forall j :: 0 <= j < |users| ==> !Matches(users[j], k)
  {
    if users == [] then None
    else if Matches(users[0], k) then Some(0)
    else
      var rest := FirstMatch(users[1..], k);
      assert forall j :: 1 <= j < |users| ==> users[j] == users[1..][j - 1];
      if rest.Some? then Some(rest.value + 1) else None
  }

  /** The login key: `username.lower().strip()`. */
  function LoginKey(username: string): string
  {
    Strip(Lower(username))
  }

  /** `authenticate(request, username, password)`. `checkPassword` stands for
      `user.check_password`, and `lookupFails` for an exception raised by the
      query, which is logged and answered with None. */
  function Authenticate(users: seq<User>, username: Option<string>, password: Option<string>,
                        checkPassword: (User, string) -> bool, lookupFails: bool): (r: Option<User>)
    ensures r.Some? ==> (username.Some? && password.Some? && !lookupFails
      && r.value.isActive && checkPassword(r.value, password.value)
      && r.value in users && Matches(r.value, LoginKey(username.value)))
  {
    if username.None? || password.None? then None
    else if lookupFails then None
    else
      var i := FirstMatch(users, LoginKey(username.value));
      if i.Some? && checkPassword(users[i.value], password.value) && users[i.value].isActive then Some(users[i.value])
      else None
  }

  /** Only the first match is considered: when it is inactive or its password
      does not check, a later user that would pass is not tried. */
  lemma OnlyFirstMatchIsTried(users: seq<User>, username: string, password: string,
                              checkPassword: (User, string) -> bool)
    ensures var i := FirstMatch(users, LoginKey(username));
      var r := Authenticate(users, Some(username), Some(password), checkPassword, false);
      (i.None? ==> r.None?)
      && (i.Some? ==> (r == Some(users[i.value]) <==> users[i.value].isActive && checkPassword(users[i.value], password)))
      && (i.Some? ==> r.None? || r == Some(users[i.value]))
  {
  }

  /** The input's ASCII case does not matter. */
  lemma InputCaseIgnored(users: seq<User>, username: string, password: Option<string>,
                         checkPassword: (User, string) -> bool, lookupFails: bool)
    ensures Authenticate(users, Some(Lower(username)), password, checkPassword, lookupFails)
      == Authenticate(users, Some(username), password, checkPassword, lookupFails)
  {
    LowerIdempotent(username);
  }

  /** `get_user(user_id)`: the user with that primary key, or None. */
  function GetUser(users: seq<User>, userId: nat): (r: Option<User>)
    ensures r.Some? ==> r.value in users && r.value.id == userId
    ensures r.None? <==> forall j :: 0 <= j < |users| ==> users[j].id != userId
  {
    if users == [] then None
    else if users[0].id == userId then Some(users[0])
    else
      assert forall j :: 1 <= j < |users| ==> users[j] == users[1..][j - 1];
      GetUser(users[1..], userId)
  }

  /** `user_can_authenticate(user)`: `is_active` read with `getattr(..., None)`;
      only an explicit False refuses. */
  function UserCanAuthenticate(isActive: Option<bool>): (r: bool)
    ensures !r <==> isActive == Some(false)
  {
    if isActive.Some? then isActive.value else true
  }
}
