/**
 * The server side of authentication: the user lookups of `auth_data.py`, the
 * guard chain that turns a bearer token into the current user (`auth.py`),
 * and the `/auth` endpoints: register (with the ten default categories),
 * login, refresh and profile update. Password hashing and checking, and JWT
 * signing and verification, are parameters.
 */
module AuthBackend {
  import opened Wrappers
  import opened Schemas
  import opened Tables
  import opened CategoriesApi

  /** A row of the `users` table; `is_active` is a nullable string, "active" by default. */
  datatype User = User(
    id: nat, email: string, username: string, hashedPassword: string, fullName: Option<string>,
    isActive: Option<string>)

  const ActiveStatus := "active"

  predicate IsActive(u: User) {
    u.isActive == Some(ActiveStatus)
  }

  /**
   * What `verify_token` makes of a token: it raises `error`, or it returns
   * a payload whose `sub` claim may be missing.
   */
  datatype TokenCheck = Rejected(error: HttpError) | Payload(sub: Option<string>)

  const CouldNotValidate := HttpError(401, "Could not validate credentials")
  const UserNotFound := HttpError(401, "User not found")
  const AccountNotActive := HttpError(401, "User account is not active")
  const InactiveUser := HttpError(400, "Inactive user")
  const IncorrectCredentials := HttpError(401, "Incorrect username or password")
  const InvalidRefreshToken := HttpError(401, "Invalid refresh token")
  const UsernameRegistered := HttpError(400, "Username already registered")
  const EmailRegistered := HttpError(400, "Email already registered")
  const UsernameTaken := HttpError(400, "Username already taken")
  const EmailTaken := HttpError(400, "Email already taken")

  /** The lifetime in seconds the token response announces. */
  const ExpiresIn := 1800

  function WithUsername(name: string): User -> bool {
    (u: User) => u.username == name
  }

  function WithEmail(email: string): User -> bool {
    (u: User) => u.email == email
  }

  /** `get_user_by_username`: the first user with that username, or None when there is none. */
  function GetUserByUsername(users: seq<User>, username: string): (r: Option<User>)
    ensures r.Some? ==> r.value in users && r.value.username == username
    ensures r.None? <==> forall u :: u in users ==> u.username != username
  {
    var i := FindFirst(users, WithUsername(username));
    if i.None? then None else Some(users[i.value])
  }

  /**
   * `authenticate_user`: the user with that username when the password
   * matches its hash and the account is active; None otherwise.
   */
  function AuthenticateUser(users: seq<User>, username: string, password: string,
                            verifyPassword: (string, string) -> bool): (r: Option<User>)
    ensures GetUserByUsername(users, username).None? ==> r.None?
    ensures var u := GetUserByUsername(users, username);
      u.Some? && !verifyPassword(password, u.value.hashedPassword) ==> r.None?
    ensures var u := GetUserByUsername(users, username);
      u.Some? && !IsActive(u.value) ==> r.None?
    ensures r.Some? ==>
      (r == GetUserByUsername(users, username) && IsActive(r.value) && verifyPassword(password, r.value.hashedPassword))
    ensures var u := GetUserByUsername(users, username);
      u.Some? && verifyPassword(password, u.value.hashedPassword) && IsActive(u.value) ==> r == u
  {
    var u := GetUserByUsername(users, username);
    if u.None? then None
    else if !verifyPassword(password, u.value.hashedPassword) then None
    else if u.value.isActive != Some(ActiveStatus) then None
    else u
  }

  /**
   * `get_current_user`: a rejected token keeps its error; then 401 for a
   * payload without `sub`, for an unknown username and for an account that
   * is not active.
   */
  function GetCurrentUser(users: seq<User>, check: TokenCheck): (r: Result<User, HttpError>)
    ensures check.Rejected? ==> r == Failure(check.error)
    ensures check.Payload? && check.sub.None? ==> r == Failure(CouldNotValidate)
    ensures check.Payload? && check.sub.Some? ==>
      && (GetUserByUsername(users, check.sub.value).None? <==> r == Failure(UserNotFound))
      && (r.Success? <==> GetUserByUsername(users, check.sub.value).Some? && IsActive(GetUserByUsername(users, check.sub.value).value))
      && (GetUserByUsername(users, check.sub.value).Some? && !IsActive(GetUserByUsername(users, check.sub.value).value) <==>
            r == Failure(AccountNotActive))
      && (r.Success? ==> Some(r.value) == GetUserByUsername(users, check.sub.value))
    ensures r.Success? ==> r.value in users && check.Payload? && check.sub == Some(r.value.username) && IsActive(r.value)
  {
    if check.Rejected? then Failure(check.error)
    else if check.sub.None? then Failure(CouldNotValidate)
    else
      var u := GetUserByUsername(users, check.sub.value);
      if u.None? then Failure(UserNotFound)
      else if u.value.isActive != Some(ActiveStatus) then Failure(AccountNotActive)
      else Success(u.value)
  }

  /** `get_current_active_user`: the dependency of every protected endpoint. */
  function GetCurrentActiveUser(users: seq<User>, check: TokenCheck): Result<User, HttpError> {
    var u := GetCurrentUser(users, check);
    if u.Failure? then u
    else if u.value.isActive != Some(ActiveStatus) then Failure(InactiveUser)
    else u
  }

  /** The 400 "Inactive user" branch can never be taken: `get_current_user` already refused. */
  lemma InactiveUserBranchUnreachable(users: seq<User>, check: TokenCheck)
    ensures GetCurrentActiveUser(users, check) == GetCurrentUser(users, check)
  {
  }

  /** The token pair issued for `sub`: signing is a parameter, the rest is fixed. */
  function TokensFor(sub: string, access: string -> string, refresh: string -> string): Token {
    Token(access(sub), "bearer", ExpiresIn, refresh(sub))
  }

  /** The ten categories every new user starts with. */
  const DefaultCategories: seq<CategoryIn> := [
    CategoryIn("Food", Given(Some("Food and dining expenses")), Given(Some("#FF6B6B"))),
    CategoryIn("Transportation", Given(Some("Transport and travel expenses")), Given(Some("#4ECDC4"))),
    CategoryIn("Housing", Given(Some("Rent, mortgage, and housing expenses")), Given(Some("#45B7D1"))),
    CategoryIn("Utilities", Given(Some("Electricity, water, internet, etc.")), Given(Some("#96CEB4"))),
    CategoryIn("Entertainment", Given(Some("Movies, games, and leisure activities")), Given(Some("#FFEAA7"))),
    CategoryIn("Shopping", Given(Some("Clothing, electronics, and other purchases")), Given(Some("#DDA0DD"))),
    CategoryIn("Health", Given(Some("Medical expenses and healthcare")), Given(Some("#98D8C8"))),
    CategoryIn("Education", Given(Some("Books, courses, and learning materials")), Given(Some("#F7DC6F"))),
    CategoryIn("Salary", Given(Some("Income and salary")), Given(Some("#82E0AA"))),
    CategoryIn("Other", Given(Some("Miscellaneous expenses")), Given(Some("#BB8FCE")))
  ]

  /** The category rows `register` adds for `owner`, numbered from `first`. */
  function DefaultRows(owner: nat, first: nat): (r: seq<Category>)
    ensures |r| == |DefaultCategories|
  {
    seq(|DefaultCategories|, k requires 0 <= k < |DefaultCategories| =>
      var d := DefaultCategories[k];
      Category(first + k, d.name, Apply(d.description, None), Apply(d.color, None), owner))
  }

  /** A new user gets ten categories, all theirs, with ten different names and fresh ids. */
  lemma DefaultRowsAreTenOwnedCategories(owner: nat, first: nat)
    ensures var r := DefaultRows(owner, first);
      && |r| == 10
      && (forall c :: c in r ==> c.userId == owner && first <= c.id < first + 10)
      && (forall a, b :: 0 <= a < b < |r| ==> r[a].name != r[b].name && r[a].id != r[b].id)
  {
    var r := DefaultRows(owner, first);
    forall c | c in r
      ensures c.userId == owner && first <= c.id < first + 10
    {
      var k :| 0 <= k < |r| && r[k] == c;
    }
  }

  /** The profile change `update_profile` writes: None when a NOT NULL column would become null. */
  function UpdatedUser(cur: User, u: UserUpdate): (r: Option<User>)
    ensures r.None? <==> u.email == Given(None) || u.username == Given(None)
    ensures r.Some? ==>
      && r.value.id == cur.id && r.value.hashedPassword == cur.hashedPassword
      && (u.email.Unset? ==> r.value.email == cur.email)
      && (u.email.Given? ==> Some(r.value.email) == u.email.value)
      && (u.username.Unset? ==> r.value.username == cur.username)
      && (u.username.Given? ==> Some(r.value.username) == u.username.value)
      && r.value.fullName == Apply(u.fullName, cur.fullName)
      && r.value.isActive == Apply(u.isActive, cur.isActive)
  {
    var email := Apply(u.email, Some(cur.email));
    var username := Apply(u.username, Some(cur.username));
    if email.None? || username.None? then None
    else Some(cur.(email := email.value, username := username.value, fullName := Apply(u.fullName, cur.fullName),
                   isActive := Apply(u.isActive, cur.isActive)))
  }

  /**
   * The two checks of `update_profile`: a truthy username (then email) that
   * differs from the current one and belongs to some user gives 400.
   */
  function ProfileConflict(users: seq<User>, cur: User, u: UserUpdate): (r: Option<HttpError>)
    ensures r == Some(UsernameTaken) <==>
      u.username.Given? && TruthyText(u.username.value) && u.username.value.value != cur.username &&
      exists x :: x in users && x.username == u.username.value.value
    ensures r == Some(EmailTaken) <==>
      r != Some(UsernameTaken) &&
      u.email.Given? && TruthyText(u.email.value) && u.email.value.value != cur.email &&
      exists x :: x in users && x.email == u.email.value.value
    ensures r.Some? ==> r == Some(UsernameTaken) || r == Some(EmailTaken)
  {
    var name := if u.username.Given? then u.username.value else None;
    var email := if u.email.Given? then u.email.value else None;
    if TruthyText(name) && name.value != cur.username && FindFirst(users, WithUsername(name.value)).Some? then
      Some(UsernameTaken)
    else if TruthyText(email) && email.value != cur.email && FindFirst(users, WithEmail(email.value)).Some? then
      Some(EmailTaken)
    else None
  }

  /** Sending one's own username and email again is never a conflict. */
  lemma OwnValuesNeverConflict(users: seq<User>, cur: User, fullName: Patch<Option<string>>)
    ensures ProfileConflict(users, cur, UserUpdate(Given(Some(cur.email)), Given(Some(cur.username)), fullName, Unset)).None?
  {
  }

  /** Some row other than row `i` already holds this username or email: the UNIQUE constraints fail the commit. */
  predicate Clashes(users: seq<User>, i: nat, x: User) {
    exists j :: 0 <= j < |users| && j != i && (users[j].username == x.username || users[j].email == x.email)
  }

  /** The response model `User` requires an `is_active` string. */
  function UserResponse(u: User): (r: Result<User, HttpError>)
    ensures r.Success? <==> u.isActive.Some?
    ensures r.Success? ==> r.value == u
    ensures r.Failure? ==> r.error == InternalError
  {
    if u.isActive.Some? then Success(u) else Failure(InternalError)
  }

  class UserTable {
    var users: seq<User>
    var nextId: nat

    /** Ids, usernames and emails are unique (the UNIQUE constraints); ids stay below `nextId`. */
    ghost predicate Valid()
      reads this
    {
      && (forall i :: 0 <= i < |users| ==> users[i].id < nextId)
      && (forall i, j :: 0 <= i < j < |users| ==>
            users[i].id != users[j].id && users[i].username != users[j].username && users[i].email != users[j].email)
    }

    constructor()
      ensures users == [] && Valid()
    {
      users := [];
      nextId := 1;
    }

    /**
     * `register`: 400 for a taken username, then for a taken email; else the
     * new active user, followed by the ten default categories in order.
     */
    method Register(input: UserCreate, hash: string -> string, categories: CategoryTable) returns (r: Result<User, HttpError>)
      requires Valid() && categories.Valid()
      modifies this, categories
      ensures Valid() && categories.Valid()
      ensures (exists u :: u in old(users) && u.username == input.username) ==>
        r == Failure(UsernameRegistered) && users == old(users) && categories.rows == old(categories.rows)
      ensures (forall u :: u in old(users) ==> u.username != input.username) &&
              (exists u :: u in old(users) && u.email == input.email) ==>
        r == Failure(EmailRegistered) && users == old(users) && categories.rows == old(categories.rows)
      ensures (forall u :: u in old(users) ==> u.username != input.username && u.email != input.email) ==> r.Success?
      ensures r.Success? ==>
        && r.value == User(old(nextId), input.email, input.username, hash(input.password), input.fullName, Some(ActiveStatus))
        && users == old(users) + [r.value]
        && categories.rows == old(categories.rows) + DefaultRows(r.value.id, old(categories.nextId))
    {
      if FindFirst(users, WithUsername(input.username)).Some? {
        return Failure(UsernameRegistered);
      }
      if FindFirst(users, WithEmail(input.email)).Some? {
        return Failure(EmailRegistered);
      }
      var user := User(nextId, input.email, input.username, hash(input.password), input.fullName, Some(ActiveStatus));
      users := users + [user];
      nextId := nextId + 1;
      AddDefaultCategories(user.id, categories);
      r := Success(user);
    }

    /** Login: 401 unless `authenticate_user` accepts; then a token pair for the username. */
    function Login(username: string, password: string, verifyPassword: (string, string) -> bool,
                   access: string -> string, refresh: string -> string): (r: Result<Token, HttpError>)
      reads this
      ensures AuthenticateUser(users, username, password, verifyPassword).None? <==> r == Failure(IncorrectCredentials)
      ensures r.Success? ==>
        (r.value.tokenType == "bearer" && r.value.expiresIn == 1800 && r.value == TokensFor(username, access, refresh))
      ensures AuthenticateUser(users, username, password, verifyPassword).Some? ==>
        r == Success(TokensFor(username, access, refresh))
    {
      var u := AuthenticateUser(users, username, password, verifyPassword);
      if u.None? then Failure(IncorrectCredentials) else Success(TokensFor(u.value.username, access, refresh))
    }

    /**
     * `refresh_token`: a new pair for an existing active user named by the
     * token's `sub`. Every failure, including the inner HTTP errors, is
     * caught and becomes 401 "Invalid refresh token".
     */
    function Refresh(check: TokenCheck, access: string -> string, refresh: string -> string): (r: Result<Token, HttpError>)
      reads this
      ensures r.Failure? ==> r.error == InvalidRefreshToken
      ensures r.Success? <==>
        check.Payload? && check.sub.Some? && GetUserByUsername(users, check.sub.value).Some? &&
        IsActive(GetUserByUsername(users, check.sub.value).value)
      ensures r.Success? ==> r.value == TokensFor(check.sub.value, access, refresh)
    {
      if check.Rejected? || check.sub.None? then Failure(InvalidRefreshToken)
      else
        var u := GetUserByUsername(users, check.sub.value);
        if u.None? || u.value.isActive != Some(ActiveStatus) then Failure(InvalidRefreshToken)
        else Success(TokensFor(u.value.username, access, refresh))
    }

    /** `/auth/me`: exactly the outcome of the guard chain, so the response model never fails. */
    function Me(check: TokenCheck): (r: Result<User, HttpError>)
      reads this
      ensures r == GetCurrentUser(users, check)
      ensures r.Success? ==> r.value in users && IsActive(r.value) && check.Payload? && check.sub == Some(r.value.username)
    {
      InactiveUserBranchUnreachable(users, check);
      var u := GetCurrentActiveUser(users, check);
      if u.Failure? then u else UserResponse(u.value)
    }

    /**
     * `update_profile`: the current user first; then the username and email
     * checks; a commit that nulls a NOT NULL column or repeats another
     * user's username or email fails and changes nothing; otherwise only the
     * fields sent change, and a null `is_active` fails the response.
     */
    method UpdateProfile(check: TokenCheck, u: UserUpdate) returns (r: Result<User, HttpError>)
      requires Valid()
      modifies this
      ensures Valid() && nextId == old(nextId)
      ensures r.Failure? && r.error != InternalError ==> users == old(users)
      ensures GetCurrentActiveUser(old(users), check).Failure? ==>
        r == Failure(GetCurrentActiveUser(old(users), check).error)
      ensures GetCurrentActiveUser(old(users), check).Success? ==>
        var cur := GetCurrentActiveUser(old(users), check).value;
        && (ProfileConflict(old(users), cur, u).Some? ==> r == Failure(ProfileConflict(old(users), cur, u).value))
        && (ProfileConflict(old(users), cur, u).None? && UpdatedUser(cur, u).None? ==>
              r == Failure(InternalError) && users == old(users))
        && (users != old(users) ==>
              ProfileConflict(old(users), cur, u).None? && UpdatedUser(cur, u).Some? &&
              exists i :: 0 <= i < |old(users)| && old(users)[i] == cur &&
                users == old(users)[i := UpdatedUser(cur, u).value] && r == UserResponse(UpdatedUser(cur, u).value))
        && (ProfileConflict(old(users), cur, u).None? && UpdatedUser(cur, u).Some? ==>
              forall i :: 0 <= i < |old(users)| && old(users)[i] == cur ==>
                && (Clashes(old(users), i, UpdatedUser(cur, u).value) ==> r == Failure(InternalError) && users == old(users))
                && (!Clashes(old(users), i, UpdatedUser(cur, u).value) ==>
                      users == old(users)[i := UpdatedUser(cur, u).value] && r == UserResponse(UpdatedUser(cur, u).value)))
    {
      var current := GetCurrentActiveUser(users, check);
      if current.Failure? {
        return Failure(current.error);
      }
      var cur := current.value;
      var conflict := ProfileConflict(users, cur, u);
      if conflict.Some? {
        return Failure(conflict.value);
      }
      var updated := UpdatedUser(cur, u);
      if updated.None? {
        return Failure(InternalError);
      }
      var i := FindFirst(users, WithUsername(cur.username));
      assert forall j :: 0 <= j < |users| && users[j] == cur ==> j == i.value;
      if Clashes(users, i.value, updated.value) {
        return Failure(InternalError);
      }
      users := users[i.value := updated.value];
      r := UserResponse(updated.value);
    }
  }

  /** The loop of `register` that adds the default categories one by one. */
  method AddDefaultCategories(owner: nat, categories: CategoryTable)
    requires categories.Valid()
    modifies categories
    ensures categories.Valid()
    ensures categories.rows == old(categories.rows) + DefaultRows(owner, old(categories.nextId))
  {
    ghost var first := categories.nextId;
    ghost var before := categories.rows;
    for k := 0 to |DefaultCategories|
      invariant categories.Valid()
      invariant categories.nextId == first + k
      invariant categories.rows == before + DefaultRows(owner, first)[..k]
    {
      var c := categories.Create(DefaultCategories[k], owner);
      assert DefaultRows(owner, first)[..k + 1] == DefaultRows(owner, first)[..k] + [c];
    }
    assert DefaultRows(owner, first)[..|DefaultCategories|] == DefaultRows(owner, first);
  }
}
