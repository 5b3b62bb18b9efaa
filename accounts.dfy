/**
 * The account controller (controllers/user.js): the registration checks, login, the profile
 * without its password, elevation to admin and the password change. The `users` collection is
 * a sequence searched from the front, as `findOne` and `findById` search it. The password
 * library's `hash` and `compare` are parameters of the members that use them.
 */
module Accounts {
  import opened Records
  import Auth

  /** A registration body; `None` stands for a field that is null or undefined (a missing body has none). */
  datatype Registration = Registration(
    firstName: Option<string>,
    lastName: Option<string>,
    email: Option<string>,
    password: Option<string>,
    mobileNo: Option<string>)

  /** A login body. */
  datatype Credentials = Credentials(email: Option<string>, password: Option<string>)

  /** A user as the handlers send it back: every field but the password. */
  datatype Profile = Profile(id: UserId, firstName: string, lastName: string, email: string, mobileNo: string, isAdmin: bool)

  /** How a handler looks a user up: `findOne({ email })` or `findById(id)`. */
  datatype Query = ByEmail(email: string) | ById(id: UserId)

  const INVALID_EMAIL := Failure(400, "Invalid email")
  const INVALID_MOBILE := Failure(400, "Invalid mobile number")
  const SHORT_PASSWORD := Failure(400, "Password must be at least 8 characters")
  const EMAIL_IN_USE := Failure(409, "Email already in use")
  const REGISTER_FAILED := Failure(500, "Error registering user")
  const INVALID_EMAIL_ENTERED := Failure(400, "Invalid email entered")
  const USER_DOES_NOT_EXIST := Failure(403, "User does not exist")
  const PASSWORD_MISMATCH := Failure(401, "Email and password do not match.")
  const NO_USER_FOUND := Failure(404, "No user found.")
  const FIND_USER_FAILED := Failure(500, "Error finding user")
  const ALREADY_ADMIN := Failure(409, "User is already an admin")
  const USER_NOT_FOUND := Failure(404, "User not found")
  const REGISTERED := "User registered successfully!"
  const PASSWORD_RESET := "Password reset successfully"

  /** The mobile number length registration insists on. */
  const MOBILE_LENGTH := 11
  /** The shortest password registration accepts. */
  const MIN_PASSWORD_LENGTH := 8

  predicate Matches(u: User, q: Query)
  {
    match q
    case ByEmail(email) => u.email == email
    case ById(id) => u.id == id
  }

  /** Some stored user answers the query. */
  predicate Registered(users: seq<User>, q: Query)
  {
    exists k :: 0 <= k < |users| && Matches(users[k], q)
  }

  /** The position of the first user that answers the query, or -1 when none does. */
  function FindOne(users: seq<User>, q: Query): (i: int)
    ensures -1 <= i < |users|
    ensures i == -1 <==> !Registered(users, q)
    ensures i >= 0 ==> Matches(users[i], q) && forall k :: 0 <= k < i ==> !Matches(users[k], q)
    decreases |users|
  {
    if users == [] then -1
    else if Matches(users[0], q) then 0
    else
      var j := FindOne(users[1..], q);
      assert forall k :: 1 <= k < |users| ==> users[k] == users[1..][k - 1];
      if j == -1 then -1 else j + 1
  }

  /** A lookup is unaffected by a new user at the end, unless nobody earlier answers it. */
  lemma {:induction false} FindOneAppend(users: seq<User>, u: User, q: Query)
    ensures FindOne(users + [u], q) ==
      if Registered(users, q) then FindOne(users, q)
      else if Matches(u, q) then |users| else -1
    decreases |users|
  {
    if users != [] {
      assert (users + [u])[1..] == users[1..] + [u];
      FindOneAppend(users[1..], u, q);
      assert forall k :: 1 <= k < |users| ==> users[k] == users[1..][k - 1];
    } else {
      assert [] + [u] == [u];
      assert [u][1..] == [];
    }
  }

  /** Users that keep their ids and emails position by position answer every lookup alike. */
  lemma {:induction false} FindOneSameKeys(s: seq<User>, t: seq<User>, q: Query)
    requires |s| == |t|
    requires forall k :: 0 <= k < |s| ==> s[k].id == t[k].id && s[k].email == t[k].email
    ensures FindOne(s, q) == FindOne(t, q)
    decreases |s|
  {
    if s != [] {
      FindOneSameKeys(s[1..], t[1..], q);
    }
  }

  /**
   * The registration checks in their order: every field present and non-empty (400), an `@` in
   * the email (400), a mobile number of exactly 11 characters (400), a password of at least 8
   * (400). `None` means the request passes them all.
   */
  function RegistrationError(req: Registration): (r: Option<Failure>)
    ensures r.None? <==>
      Present(req.firstName) && Present(req.lastName) && Present(req.email) &&
      Present(req.password) && Present(req.mobileNo) &&
      '@' in req.email.value && |req.mobileNo.value| == MOBILE_LENGTH &&
      |req.password.value| >= MIN_PASSWORD_LENGTH
    ensures r.Some? ==> r.value.status == 400
  {
    if !(Present(req.firstName) && Present(req.lastName) && Present(req.email) &&
         Present(req.password) && Present(req.mobileNo)) then Some(INVALID_INPUT)
    else if '@' !in req.email.value then Some(INVALID_EMAIL)
    else if |req.mobileNo.value| != MOBILE_LENGTH then Some(INVALID_MOBILE)
    else if |req.password.value| < MIN_PASSWORD_LENGTH then Some(SHORT_PASSWORD)
    else None
  }

  /** A missing field is reported before a malformed one, whatever the malformed one is. */
  lemma MissingFieldFirst(req: Registration)
    requires !Present(req.firstName) || !Present(req.lastName) || !Present(req.email) ||
             !Present(req.password) || !Present(req.mobileNo)
    ensures RegistrationError(req) == Some(INVALID_INPUT)
  {
  }

  /** The first failing check decides: a bad email hides a bad mobile number and a short password. */
  lemma EmailCheckedFirst(req: Registration)
    requires Present(req.firstName) && Present(req.lastName) && Present(req.email) &&
             Present(req.password) && Present(req.mobileNo)
    requires '@' !in req.email.value
    ensures RegistrationError(req) == Some(INVALID_EMAIL)
  {
  }

  /** A mobile number of the wrong length is reported before a short password. */
  lemma MobileCheckedBeforePassword(req: Registration)
    requires Present(req.firstName) && Present(req.lastName) && Present(req.email) &&
             Present(req.password) && Present(req.mobileNo)
    requires '@' in req.email.value && |req.mobileNo.value| != MOBILE_LENGTH
    ensures RegistrationError(req) == Some(INVALID_MOBILE)
  {
  }

  /** The profile the handlers send: the password field is dropped. */
  function WithoutPassword(u: User): (p: Profile)
    ensures p.id == u.id && p.email == u.email && p.isAdmin == u.isAdmin
  {
    Profile(u.id, u.firstName, u.lastName, u.email, u.mobileNo, u.isAdmin)
  }

  /** Nothing of the password reaches the profile: users differing only in it look the same. */
  lemma ProfileHidesPassword(u: User, password: string)
    ensures WithoutPassword(u.(password := password)) == WithoutPassword(u)
  {
  }

  /**
   * `userAuthentication`: email and password present (400), an `@` in the email (400), a user with
   * that email (403), the password matching the stored hash (401); then the answer is an access
   * token for the first user with that email.
   */
  function UserAuthentication(users: seq<User>, req: Credentials, compare: (string, string) -> bool,
                              sign: Claims -> string): (r: Result<string>)
    ensures !Present(req.email) || !Present(req.password) ==> r == Err(INVALID_INPUT)
    ensures Present(req.email) && Present(req.password) && '@' !in req.email.value ==>
      r == Err(INVALID_EMAIL_ENTERED)
    ensures Present(req.email) && Present(req.password) && '@' in req.email.value ==>
      if !Registered(users, ByEmail(req.email.value)) then r == Err(USER_DOES_NOT_EXIST)
      else
        var u := users[FindOne(users, ByEmail(req.email.value))];
        u.email == req.email.value &&
        (r.Ok? <==> compare(req.password.value, u.password)) &&
        (r.Ok? ==> r.value == Auth.CreateAccessToken(u, sign)) &&
        (r.Err? ==> r == Err(PASSWORD_MISMATCH))
  {
    if !(Present(req.email) && Present(req.password)) then Err(INVALID_INPUT)
    else if '@' !in req.email.value then Err(INVALID_EMAIL_ENTERED)
    else
      var i := FindOne(users, ByEmail(req.email.value));
      if i == -1 then Err(USER_DOES_NOT_EXIST)
      else if compare(req.password.value, users[i].password) then Ok(Auth.CreateAccessToken(users[i], sign))
      else Err(PASSWORD_MISMATCH)
  }

  /**
   * A user stored with the hash of a password, under an email nobody else has, logs in with that
   * password and receives a token for their own claims, provided `compare` accepts a password
   * against its own hash.
   */
  lemma RegisteredUserCanLogIn(users: seq<User>, u: User, password: string, hash: string -> string,
                               compare: (string, string) -> bool, sign: Claims -> string)
    requires forall p :: compare(p, hash(p))
    requires !Registered(users, ByEmail(u.email))
    requires '@' in u.email && password != "" && u.password == hash(password)
    ensures UserAuthentication(users + [u], Credentials(Some(u.email), Some(password)), compare, sign) ==
      Ok(Auth.CreateAccessToken(u, sign))
  {
    FindOneAppend(users, u, ByEmail(u.email));
    assert u.email != "";
  }

  /** `retrieveUserDetails`: the caller's stored user without the password, or 404. */
  function RetrieveUserDetails(users: seq<User>, caller: Claims): (r: Result<Profile>)
    ensures r.Err? <==> !Registered(users, ById(caller.id))
    ensures r.Err? ==> r.failure == NO_USER_FOUND
    ensures r.Ok? ==>
      r.value.id == caller.id && exists k :: 0 <= k < |users| && r.value == WithoutPassword(users[k])
  {
    var i := FindOne(users, ById(caller.id));
    if i == -1 then Err(NO_USER_FOUND) else Ok(WithoutPassword(users[i]))
  }

  /** No two stored users share an id or an email. */
  predicate UniqueKeys(users: seq<User>)
  {
    forall i, j :: 0 <= i < j < |users| ==> users[i].id != users[j].id && users[i].email != users[j].email
  }

  /** The `users` collection. */
  class UserCollection {
    var users: seq<User>

    constructor ()
      ensures users == []
    {
      users := [];
    }

    predicate Valid()
      reads this
    {
      UniqueKeys(users)
    }

    /**
     * `userRegistration`: the checks of `RegistrationError`, then an email already in use (409);
     * the new user is stored with the hash of the password and without admin rights. `newId` is
     * the id the document receives; saving under a taken id fails (500).
     */
    method UserRegistration(req: Registration, newId: UserId, hash: string -> string) returns (r: Result<string>)
      modifies this
      ensures RegistrationError(req).Some? ==> r == Err(RegistrationError(req).value)
      ensures RegistrationError(req).None? && Registered(old(users), ByEmail(req.email.value)) ==>
        r == Err(EMAIL_IN_USE)
      ensures RegistrationError(req).None? && !Registered(old(users), ByEmail(req.email.value)) ==>
        if Registered(old(users), ById(newId)) then r == Err(REGISTER_FAILED)
        else
          r == Ok(REGISTERED) &&
          users == old(users) + [User(newId, req.firstName.value, req.lastName.value, req.email.value,
                                      req.mobileNo.value, hash(req.password.value), false)]
      ensures r.Err? ==> users == old(users)
      ensures old(Valid()) ==> Valid()
    {
      var error := RegistrationError(req);
      if error.Some? {
        return Err(error.value);
      }
      if FindOne(users, ByEmail(req.email.value)) != -1 {
        return Err(EMAIL_IN_USE);
      }
      if FindOne(users, ById(newId)) != -1 {
        return Err(REGISTER_FAILED);
      }
      var created := User(newId, req.firstName.value, req.lastName.value, req.email.value,
                          req.mobileNo.value, hash(req.password.value), false);
      users := users + [created];
      r := Ok(REGISTERED);
    }

    /**
     * `updateUserAsAdmin`: a missing user makes reading its flag throw (500); an admin is 409;
     * otherwise only the flag rises and the answer is the profile without the password.
     */
    method UpdateUserAsAdmin(userId: UserId) returns (r: Result<Profile>)
      modifies this
      ensures !Registered(old(users), ById(userId)) ==> r == Err(FIND_USER_FAILED)
      ensures Registered(old(users), ById(userId)) ==>
        var i := FindOne(old(users), ById(userId));
        if old(users)[i].isAdmin then r == Err(ALREADY_ADMIN)
        else users == old(users)[i := old(users)[i].(isAdmin := true)] && r == Ok(WithoutPassword(users[i]))
      ensures r.Err? ==> users == old(users)
      ensures r.Ok? ==> r.value.isAdmin && r.value.id == userId
      ensures old(Valid()) ==> Valid()
    {
      var i := FindOne(users, ById(userId));
      if i == -1 {
        return Err(FIND_USER_FAILED);
      }
      if users[i].isAdmin {
        return Err(ALREADY_ADMIN);
      }
      users := users[i := users[i].(isAdmin := true)];
      r := Ok(WithoutPassword(users[i]));
    }

    /**
     * `updatePassword`: an empty password is 400; a caller no longer stored is 404; otherwise the
     * caller's stored password becomes the hash of the new one and nothing else changes.
     */
    method UpdatePassword(caller: Claims, password: Option<string>, hash: string -> string) returns (r: Result<string>)
      modifies this
      ensures !Present(password) ==> r == Err(INVALID_INPUT)
      ensures Present(password) && !Registered(old(users), ById(caller.id)) ==> r == Err(USER_NOT_FOUND)
      ensures Present(password) && Registered(old(users), ById(caller.id)) ==>
        var i := FindOne(old(users), ById(caller.id));
        r == Ok(PASSWORD_RESET) && users == old(users)[i := old(users)[i].(password := hash(password.value))]
      ensures r.Err? ==> users == old(users)
      ensures old(Valid()) ==> Valid()
    {
      if !Present(password) {
        return Err(INVALID_INPUT);
      }
      var hashedPassword := hash(password.value);
      var i := FindOne(users, ById(caller.id));
      if i == -1 {
        return Err(USER_NOT_FOUND);
      }
      users := users[i := users[i].(password := hashedPassword)];
      r := Ok(PASSWORD_RESET);
    }
  }

  /** Elevation is one way: right after it succeeds, elevating the same user again is refused with 409. */
  method ElevateTwice(store: UserCollection, userId: UserId) returns (first: Result<Profile>, second: Result<Profile>)
    modifies store
    ensures first.Ok? ==> second == Err(ALREADY_ADMIN)
  {
    first := store.UpdateUserAsAdmin(userId);
    ghost var between := store.users;
    second := store.UpdateUserAsAdmin(userId);
    if first.Ok? {
      FindOneSameKeys(old(store.users), between, ById(userId));
    }
  }
}
