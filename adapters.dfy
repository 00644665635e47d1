/** adapters.py: the sign-up adapter's username generation and the e-mail
    lowercasing of the sign-up and social-login adapters. Django's `slugify`
    is a parameter; `random.randint(1, 9999)` on the n-th attempt is
    `1 + draw(n) % 9999`, and `int(time.time())` is `clock`. */
module Adapters {
  import opened Records
  import opened Text

  const MaxBaseLength := 20
  const DefaultMaxAttempts := 100
  const ShortUsernameMessage: string := "Username must be at least 3 characters long."

  /** `[t for t in txts if t]`. */
  function NonEmpty(txts: seq<string>): (r: seq<string>)
    ensures forall i :: 0 <= i < |r| ==> r[i] != []
  {
    if txts == [] then [] else (if txts[0] != [] then [txts[0]] else []) + NonEmpty(txts[1..])
  }

  /** The base name: the slug of the non-empty parts joined by spaces, or
      "user" when the slug is empty, cut to 20 characters. */
  function UsernameBase(txts: seq<string>, slugify: string -> string): (base: string)
    ensures 1 <= |base| <= MaxBaseLength
    ensures var slug := slugify(Join(NonEmpty(txts), " "));
      var named := if slug == [] then "user" else slug;
      |base| <= |named| && base == named[..|base|]
  {
    var slug := slugify(Join(NonEmpty(txts), " "));
    var b := if slug == [] then "user" else slug;
    if |b| > MaxBaseLength then b[..MaxBaseLength] else b
  }

  /** `User.objects.filter(username__iexact=name).exists()`. */
  predicate Taken(existing: seq<string>, name: string)
  {
    exists u :: u in existing && Lower(u) == Lower(name)
  }

  /** The random suffix drawn after the n-th failed check. */
  function Draw(draw: nat -> nat, n: nat): (k: nat)
    ensures 1 <= k <= 9999
  {
    1 + draw(n) % 9999
  }

  /** The name checked on attempt `attempt`: the base first, then the base
      with a random suffix. */
  function Candidate(base: string, draw: nat -> nat, attempt: nat): string
  {
    if attempt == 0 then base else base + NatToString(Draw(draw, attempt - 1))
  }

  /** The name returned once the attempts are spent; it is not checked. */
  function Fallback(base: string, clock: nat): string
  {
    base + NatToString(clock % 10000)
  }

  /** The loop from attempt `attempt` on: the first free candidate, or the
      fallback. */
  function PickFrom(base: string, existing: seq<string>, draw: nat -> nat, clock: nat,
                    attempt: nat, maxAttempts: nat): string
    decreases maxAttempts - attempt
  {
    if attempt < maxAttempts then
      if !Taken(existing, Candidate(base, draw, attempt)) then Candidate(base, draw, attempt)
      else PickFrom(base, existing, draw, clock, attempt + 1, maxAttempts)
    else Fallback(base, clock)
  }

  /** What `generate_unique_username(txts, max_attempts)` returns. */
  function UniqueUsername(txts: seq<string>, slugify: string -> string, existing: seq<string>,
                          draw: nat -> nat, clock: nat, maxAttempts: nat): string
  {
    PickFrom(UsernameBase(txts, slugify), existing, draw, clock, 0, maxAttempts)
  }

  /** The base followed by nothing but decimal digits. */
  predicate BaseThenDigits(name: string, base: string)
  {
    |base| <= |name| && name[..|base|] == base && AllDigits(name[|base|..])
  }

  lemma SuffixedShape(base: string, n: nat)
    ensures BaseThenDigits(base + NatToString(n), base)
  {
    assert (base + NatToString(n))[|base|..] == NatToString(n);
  }

  /** From any attempt on, the name is the base plus digits, and it is free
      unless it is the unchecked fallback. */
  lemma {:induction false} PickFromSpec(base: string, existing: seq<string>, draw: nat -> nat, clock: nat,
                                        attempt: nat, maxAttempts: nat)
    ensures var r := PickFrom(base, existing, draw, clock, attempt, maxAttempts);
      BaseThenDigits(r, base) && (!Taken(existing, r) || r == Fallback(base, clock))
    decreases maxAttempts - attempt
  {
    SuffixedShape(base, clock % 10000);
    if attempt < maxAttempts {
      if attempt > 0 {
        SuffixedShape(base, Draw(draw, attempt - 1));
      } else {
        assert base[|base|..] == [];
      }
      if Taken(existing, Candidate(base, draw, attempt)) {
        PickFromSpec(base, existing, draw, clock, attempt + 1, maxAttempts);
      }
    }
  }

  /** Every generated name is the base followed only by digits (the random
      suffix or the clock's last four digits), and it is free unless all
      attempts were spent. */
  lemma UniqueUsernameSpec(txts: seq<string>, slugify: string -> string, existing: seq<string>,
                           draw: nat -> nat, clock: nat, maxAttempts: nat)
    ensures var base := UsernameBase(txts, slugify);
      var r := UniqueUsername(txts, slugify, existing, draw, clock, maxAttempts);
      BaseThenDigits(r, base) && (!Taken(existing, r) || r == Fallback(base, clock))
  {
    PickFromSpec(UsernameBase(txts, slugify), existing, draw, clock, 0, maxAttempts);
  }

  /** A free base is kept as it is. */
  lemma FreeBaseKept(txts: seq<string>, slugify: string -> string, existing: seq<string>,
                     draw: nat -> nat, clock: nat, maxAttempts: nat)
    requires maxAttempts > 0 && !Taken(existing, UsernameBase(txts, slugify))
    ensures UniqueUsername(txts, slugify, existing, draw, clock, maxAttempts) == UsernameBase(txts, slugify)
  {
  }

  /** The fallback is returned without a check, so it may already be taken:
      with no attempts allowed, an existing "user7" comes back at clock 7. */
  lemma FallbackIsUnchecked()
    ensures var r := UniqueUsername([], s => [], ["user7"], n => 0, 7, 0);
      r == "user7" && Taken(["user7"], r)
  {
    assert "user7" in ["user7"];
  }

  /** `generate_unique_username`: one existence check per loop turn, at most
      `maxAttempts` of them. */
  method GenerateUniqueUsername(txts: seq<string>, slugify: string -> string, existing: seq<string>,
                                draw: nat -> nat, clock: nat, maxAttempts: nat)
    returns (username: string, checks: nat)
    ensures username == UniqueUsername(txts, slugify, existing, draw, clock, maxAttempts)
    ensures checks <= maxAttempts
    ensures Taken(existing, username) ==> checks == maxAttempts
  {
    var base := UsernameBase(txts, slugify);
    username := base;
    var attempt: nat := 0;
    checks := 0;
    while attempt < maxAttempts
      invariant attempt <= maxAttempts && checks == attempt
      invariant username == Candidate(base, draw, attempt)
      invariant PickFrom(base, existing, draw, clock, attempt, maxAttempts) == UniqueUsername(txts, slugify, existing, draw, clock, maxAttempts)
      decreases maxAttempts - attempt
    {
      checks := checks + 1;
      if !Taken(existing, username) {
        assert PickFrom(base, existing, draw, clock, attempt, maxAttempts) == username;
        return;
      }
      username := base + NatToString(Draw(draw, attempt));
      attempt := attempt + 1;
    }
    username := Fallback(base, clock);
  }

  /** The parts `populate_username` generates from: the e-mail's local part,
      else the first and last names, else "user". */
  function PopulateTexts(email: string, firstName: string, lastName: string): (txts: seq<string>)
    ensures email != [] ==> txts == [BeforeFirst(email, '@')]
  {
    if email != [] then [BeforeFirst(email, '@')]
    else if firstName != [] || lastName != [] then [firstName, lastName]
    else ["user"]
  }

  /** `populate_username`: only an empty username is filled in. */
  method PopulateUsername(user: UserObject, slugify: string -> string, existing: seq<string>,
                          draw: nat -> nat, clock: nat)
    modifies user
    ensures old(user.username) != [] ==> user.username == old(user.username)
    ensures old(user.username) == [] ==> user.username == UniqueUsername(
      PopulateTexts(user.email, user.firstName, user.lastName), slugify, existing, draw, clock, DefaultMaxAttempts)
    ensures user.email == old(user.email) && user.firstName == old(user.firstName)
      && user.lastName == old(user.lastName) && user.saves == old(user.saves)
  {
    if user.username == [] {
      var txts := PopulateTexts(user.email, user.firstName, user.lastName);
      var name, _ := GenerateUniqueUsername(txts, slugify, existing, draw, clock, DefaultMaxAttempts);
      user.username := name;
    }
  }

  /** A filled-in username is never empty. */
  lemma PopulatedUsernameNonEmpty(email: string, firstName: string, lastName: string, slugify: string -> string,
                                  existing: seq<string>, draw: nat -> nat, clock: nat)
    ensures |UniqueUsername(PopulateTexts(email, firstName, lastName), slugify, existing, draw, clock, DefaultMaxAttempts)| >= 1
  {
    UniqueUsernameSpec(PopulateTexts(email, firstName, lastName), slugify, existing, draw, clock, DefaultMaxAttempts);
  }

  /** `CustomAccountAdapter.save_user`: `user` is the object allauth's own
      `save_user(request, user, form, commit=False)` hands back, which has
      already copied the form's fields and filled in the username; that
      step is not part of this model. The e-mail is then lowercased when
      present, and the user saved only when `commit` is true. */
  method SaveUser(user: UserObject, commit: bool) returns (r: UserObject)
    modifies user
    ensures r == user && user.email == Lower(old(user.email))
    ensures user.saves == old(user.saves) + (if commit then 1 else 0)
    ensures user.username == old(user.username) && user.firstName == old(user.firstName) && user.lastName == old(user.lastName)
  {
    if user.email != [] {
      user.email := Lower(user.email);
    }
    if commit {
      user.saves := user.saves + 1;
    }
    return user;
  }

  /** `CustomSocialAccountAdapter.populate_user`: `user` is the object
      allauth's own `populate_user(request, sociallogin, data)` hands back,
      filled from the provider's data by code that is not part of this
      model. The e-mail is then lowercased when present, and nothing is
      saved. */
  method PopulateUser(user: UserObject) returns (r: UserObject)
    modifies user
    ensures r == user && user.email == Lower(old(user.email))
    ensures user.saves == old(user.saves) && user.username == old(user.username)
      && user.firstName == old(user.firstName) && user.lastName == old(user.lastName)
  {
    if user.email != [] {
      user.email := Lower(user.email);
    }
    return user;
  }

  /** `clean_username`: `parent` is what allauth's own check gives; a name
      shorter than 3 characters is then refused. */
  function CleanUsername(parent: Result<string>): (r: Result<string>)
    ensures r.Ok? <==> parent.Ok? && |parent.value| >= 3
    ensures r.Ok? ==> r == parent
    ensures parent.Ok? && r.Err? ==> r.message == ShortUsernameMessage
  {
    if parent.Err? then parent
    else if |parent.value| < 3 then Err(ShortUsernameMessage)
    else parent
  }

  /** A generated name may be too short for `clean_username`: a two-letter
      slug is free and is kept as it is. */
  lemma GeneratedNameCanBeTooShort()
    ensures var r := UniqueUsername(["ab"], s => s, [], n => 0, 0, DefaultMaxAttempts);
      r == "ab" && CleanUsername(Ok(r)).Err?
  {
    assert NonEmpty(["ab"]) == ["ab"];
  }
}
