/** The user request handlers: registration, login, logout, token refresh,
    password change, account details and the buyer/seller toggle.
    `current` stands for `req.user._id`, the account the session middleware
    resolved; an id that names no stored user is possible and handled. */
module UserController {
  import opened Wrappers
  import Text
  import opened UserModel
  import opened Store

  /** The body of a successful login. */
  datatype LoginData = LoginData(user: PublicUser, accessToken: Token, refreshToken: Token)

  /** The body of a successful refresh: the new access token and, if the
      handler hands it out, the new refresh token. */
  datatype RefreshData = RefreshData(accessToken: Token, refreshToken: Option<Token>)

  /** The body of update-details: `.select("-password")` keeps the refresh token. */
  datatype DetailsView = DetailsView(user: PublicUser, refreshToken: Option<Token>)

  /** `field?.trim() === ""`: present and blank. An absent field is not blank. */
  predicate Blank(f: Option<string>) {
    f.Some? && Text.Trim(f.value) == ""
  }

  /** A present field is blank exactly when it is white space only. */
  lemma BlankIffWhiteSpace(f: Option<string>)
    ensures Blank(f) <==> f.Some? && Text.AllSpace(f.value)
  {
    if f.Some? {
      Text.TrimEmptyIffAllSpace(f.value);
    }
  }

  /** Some field of the registration form is present and blank. */
  predicate AnyBlank(fullname: Option<string>, email: Option<string>, username: Option<string>, password: Option<string>) {
    Blank(fullname) || Blank(email) || Blank(username) || Blank(password)
  }

  /** Issues an access and a refresh token for the user at `id` and stores the
      refresh token on it (a save with the password untouched). */
  method GenerateAccessAndRefreshToken(db: Database, id: nat) returns (access: Token, refresh: Token)
    requires db.Valid() && id < |db.users|
    modifies db
    ensures db.Valid()
    ensures access == GenerateAccessToken(old(db.users)[id], old(db.serial))
    ensures refresh == GenerateRefreshToken(old(db.users)[id], old(db.serial) + 1)
    ensures db.users == old(db.users)[id := old(db.users)[id].(refreshToken := Some(refresh))]
    ensures db.serial == old(db.serial) + 2
    ensures db.products == old(db.products) && db.categories == old(db.categories) && db.carts == old(db.carts)
  {
    var user := db.users[id];
    var s := db.IssueSerial();
    access := GenerateAccessToken(user, s);
    s := db.IssueSerial();
    refresh := GenerateRefreshToken(user, s);
    db.Save(Document(user.(refreshToken := Some(refresh)), None));
  }

  /** What a registration stores for accepted input. */
  function Registered(users: seq<User>, fullname: string, email: string, username: string, password: string,
                      role: Option<seq<string>>): User
    requires role.Some? ==> ParseRoles(role.value).Some?
  {
    NewUser(|users|, fullname, email, username, password, if role.Some? then ParseRoles(role.value) else None)
  }

  /** Lower-casing the user name first stores the same user, and one that no
      stored user's filter clause matched takes no stored name or e-mail. */
  lemma RegistrationFits(users: seq<User>, fullname: string, email: string, username: string, password: string,
                         role: Option<seq<string>>)
    requires role.Some? ==> ParseRoles(role.value).Some?
    requires FindUser(users, UserQuery(Some(username), Some(email))).None?
    ensures var u := Registered(users, fullname, email, username, password, role);
            && u == NewUser(|users|, fullname, email, Text.ToLower(username), password,
                            if role.Some? then ParseRoles(role.value) else None)
            && u.id == |users| && u.refreshToken.None? && Unclaimed(users, u.username, u.email)
  {
    Text.CanonicalOfLower(username);
    var u := Registered(users, fullname, email, username, password, role);
    forall k | 0 <= k < |users|
      ensures users[k].username != u.username && users[k].email != u.email
    {
      assert !MatchesQuery(users[k], UserQuery(Some(username), Some(email)));
    }
  }

  /** POST /users/register. */
  method RegisterUser(db: Database, fullname: Option<string>, email: Option<string>, username: Option<string>,
                      password: Option<string>, role: Option<seq<string>>) returns (r: Result<PublicUser>)
    requires db.Valid()
    modifies db`users
    ensures db.Valid()
    ensures AnyBlank(fullname, email, username, password) ==> r == Err(ApiError(400, "All Fields are required"))
    ensures !AnyBlank(fullname, email, username, password) && FindUser(old(db.users), UserQuery(username, email)).Some?
            ==> r == Err(ApiError(409, "User With email or usename exists"))
    ensures r.Ok? <==>
            && !AnyBlank(fullname, email, username, password)
            && FindUser(old(db.users), UserQuery(username, email)).None?
            && fullname.Some? && email.Some? && username.Some? && password.Some?
            && (role.Some? ==> ParseRoles(role.value).Some?)
    ensures r.Err? ==> db.users == old(db.users)
    ensures r.Ok? ==>
            && db.users == old(db.users) + [Registered(old(db.users), fullname.value, email.value, username.value, password.value, role)]
            && r.value == Sanitize(db.users[|old(db.users)|])
  {
    if AnyBlank(fullname, email, username, password) {
      return Err(ApiError(400, "All Fields are required"));
    }
    if FindUser(db.users, UserQuery(username, email)).Some? {
      return Err(ApiError(409, "User With email or usename exists"));
    }
    UnblankPassesRequired(fullname, email, username, password, role);
    r := CreateUser(db, fullname, email, username, password, role);
  }

  /** The validation `User.create` runs on the new document: every path the
      schema marks `required` is present and non-empty after its setter (trim
      for the full name, trim and lower-case for e-mail and user name; the
      password is checked before the hook hashes it), and every role is in
      the enum. */
  predicate PassesValidation(fullname: Option<string>, email: Option<string>, username: Option<string>,
                             password: Option<string>, role: Option<seq<string>>)
  {
    && fullname.Some? && email.Some? && username.Some? && password.Some?
    && (role.Some? ==> ParseRoles(role.value).Some?)
    && Text.Trim(fullname.value) != "" && Text.Canonical(email.value) != ""
    && Text.Canonical(username.value) != "" && password.value != ""
  }

  /** Fields that passed the blank check are not emptied by the setters, so
      validation then only asks that they are present and the roles valid. */
  lemma UnblankPassesRequired(fullname: Option<string>, email: Option<string>, username: Option<string>,
                              password: Option<string>, role: Option<seq<string>>)
    requires !AnyBlank(fullname, email, username, password)
    ensures PassesValidation(fullname, email, username, password, role) <==>
            && fullname.Some? && email.Some? && username.Some? && password.Some?
            && (role.Some? ==> ParseRoles(role.value).Some?)
  {
    if email.Some? { Text.CanonicalEmptyIffTrimEmpty(email.value); }
    if username.Some? { Text.CanonicalEmptyIffTrimEmpty(username.value); }
  }

  /** The creation step of registration, `User.create` with the user name
      lower-cased first, once the lookup by user name or e-mail found nothing.
      A missing user name fails on `toLowerCase`; validation refuses a missing
      field, a field the setters leave empty, an empty password and a role
      outside the enum; all with 500. */
  method CreateUser(db: Database, fullname: Option<string>, email: Option<string>, username: Option<string>,
                    password: Option<string>, role: Option<seq<string>>) returns (r: Result<PublicUser>)
    requires db.Valid()
    requires FindUser(db.users, UserQuery(username, email)).None?
    modifies db`users
    ensures db.Valid()
    ensures r.Ok? <==> && fullname.Some? && email.Some? && username.Some? && password.Some?
                       && (role.Some? ==> ParseRoles(role.value).Some?)
                       && Text.Trim(fullname.value) != "" && Text.Canonical(email.value) != ""
                       && Text.Canonical(username.value) != "" && password.value != ""
    ensures r.Err? ==> r.error.status == 500 && db.users == old(db.users)
    ensures r.Ok? ==>
            && db.users == old(db.users) + [Registered(old(db.users), fullname.value, email.value, username.value, password.value, role)]
            && r.value == Sanitize(db.users[|old(db.users)|])
  {
    if username.None? {
      return Err(ApiError(500, "Cannot read properties of undefined (reading 'toLowerCase')"));
    }
    if !PassesValidation(fullname, email, username, password, role) {
      return Err(ApiError(500, "User validation failed"));
    }
    var created := InsertRegistered(db, fullname.value, email.value, username.value, password.value, role);
    r := Ok(created);
  }

  /** Saving a validated registration: the new document is appended and its
      public view is returned. */
  method InsertRegistered(db: Database, fullname: string, email: string, username: string, password: string,
                          role: Option<seq<string>>) returns (created: PublicUser)
    requires db.Valid()
    requires FindUser(db.users, UserQuery(Some(username), Some(email))).None?
    requires role.Some? ==> ParseRoles(role.value).Some?
    modifies db`users
    ensures db.Valid()
    ensures db.users == old(db.users) + [Registered(old(db.users), fullname, email, username, password, role)]
    ensures created == Sanitize(db.users[|old(db.users)|])
  {
    RegistrationFits(db.users, fullname, email, username, password, role);
    var u := Registered(db.users, fullname, email, username, password, role);
    db.InsertUser(u);
    created := Sanitize(u);
  }

  /** The user a login request names: the first match of its filter. */
  function LoginTarget(users: seq<User>, email: Option<string>, username: Option<string>): Option<nat> {
    FindUser(users, UserQuery(username, email))
  }

  /** POST /users/login. */
  method LoginUser(db: Database, email: Option<string>, username: Option<string>, password: Option<string>)
    returns (r: Result<LoginData>)
    requires db.Valid()
    modifies db
    ensures db.Valid()
    ensures Falsy(username) && Falsy(email) ==> r == Err(ApiError(400, "Username or Email not Entered"))
    ensures !(Falsy(username) && Falsy(email)) && Falsy(password) ==> r == Err(ApiError(400, "Password required"))
    ensures !(Falsy(username) && Falsy(email)) && !Falsy(password) && LoginTarget(old(db.users), email, username).None?
            ==> r == Err(ApiError(404, "User does not exists"))
    ensures !(Falsy(username) && Falsy(email)) && !Falsy(password) && LoginTarget(old(db.users), email, username).Some?
            && !IsPasswordCorrect(old(db.users)[LoginTarget(old(db.users), email, username).value], password.value)
            ==> r == Err(ApiError(404, "Invalid user credentials"))
    ensures r.Ok? <==>
            && !(Falsy(username) && Falsy(email)) && !Falsy(password)
            && LoginTarget(old(db.users), email, username).Some?
            && IsPasswordCorrect(old(db.users)[LoginTarget(old(db.users), email, username).value], password.value)
    ensures r.Err? ==> unchanged(db)
    ensures r.Ok? ==> db.serial == old(db.serial) + 2
    ensures r.Ok? ==>
            var i := LoginTarget(old(db.users), email, username).value;
            && !Falsy(password)
            && IsPasswordCorrect(old(db.users)[i], password.value)
            && db.users == old(db.users)[i := old(db.users)[i].(refreshToken := Some(r.value.refreshToken))]
            && r.value.refreshToken == GenerateRefreshToken(old(db.users)[i], old(db.serial) + 1)
            && r.value.accessToken == GenerateAccessToken(old(db.users)[i], old(db.serial))
            && r.value.user == Sanitize(old(db.users)[i])
    ensures r.Ok? ==> db.products == old(db.products) && db.categories == old(db.categories) && db.carts == old(db.carts)
  {
    if Falsy(username) && Falsy(email) {
      return Err(ApiError(400, "Username or Email not Entered"));
    }
    if Falsy(password) {
      return Err(ApiError(400, "Password required"));
    }
    var found := LoginTarget(db.users, email, username);
    if found.None? {
      return Err(ApiError(404, "User does not exists"));
    }
    var i := found.value;
    if !IsPasswordCorrect(db.users[i], password.value) {
      return Err(ApiError(404, "Invalid user credentials"));
    }
    var access, refresh := GenerateAccessAndRefreshToken(db, i);
    r := Ok(LoginData(Sanitize(db.users[i]), access, refresh));
  }

  /** POST /users/logout as written: `findByIdAndUpdate` with
      `$set: { refreshToken: undefined }`. The update drops keys whose value
      is undefined, so the write carries no field and the stored refresh
      token survives the logout. */
  method LogoutUser(db: Database, current: nat) returns (r: Result<()>)
    requires db.Valid()
    modifies db
    ensures db.Valid()
    ensures r == Ok(())
    ensures db.users == old(db.users)
    ensures db.products == old(db.products) && db.categories == old(db.categories)
    ensures db.carts == old(db.carts) && db.serial == old(db.serial)
  {
    if current < |db.users| {
      // The `$set` is empty once the undefined value is dropped.
      db.WriteUser(db.users[current]);
    }
    r := Ok(());
  }

  /** Logout as evidently intended (`$unset: { refreshToken: 1 }`): the
      current user's stored refresh token is removed. */
  method LogoutUserIntended(db: Database, current: nat) returns (r: Result<()>)
    requires db.Valid()
    modifies db
    ensures db.Valid()
    ensures r == Ok(())
    ensures current < |old(db.users)| ==>
            db.users == old(db.users)[current := old(db.users)[current].(refreshToken := None)]
    ensures current >= |old(db.users)| ==> db.users == old(db.users)
    ensures current < |db.users| ==> db.users[current].refreshToken.None?
    ensures db.products == old(db.products) && db.categories == old(db.categories)
    ensures db.carts == old(db.carts) && db.serial == old(db.serial)
  {
    if current < |db.users| {
      db.WriteUser(db.users[current].(refreshToken := None));
    }
    r := Ok(());
  }

  /** `req.cookies.refreshToken || req.body.refreshToken`: the cookie wins
      when it is present, the body is read only without one. */
  function Incoming(cookieToken: Option<Token>, bodyToken: Option<Token>): (r: Option<Token>)
    ensures r.None? <==> cookieToken.None? && bodyToken.None?
    ensures cookieToken.Some? ==> r == cookieToken
    ensures cookieToken.None? ==> r == bodyToken
  {
    if cookieToken.Some? then cookieToken else bodyToken
  }

  /** A presented refresh token is honoured: it verifies with the refresh
      secret, names a stored user, and is that user's stored token. */
  predicate RefreshAccepted(users: seq<User>, t: Token, expired: bool) {
    && Verify(t, RefreshTokenSecret, expired).Verified?
    && t.claims.id < |users|
    && users[t.claims.id].refreshToken == Some(t)
  }

  /** The refresh flow as evidently intended: on success it answers with the
      new access token and the new refresh token, which is the one now stored. */
  method RefreshAccessTokenIntended(db: Database, cookieToken: Option<Token>, bodyToken: Option<Token>,
                                    expired: bool) returns (r: Result<RefreshData>)
    requires db.Valid()
    modifies db
    ensures db.Valid()
    ensures Incoming(cookieToken, bodyToken).None? ==> r == Err(ApiError(401, "Unauthorized Request"))
    ensures Incoming(cookieToken, bodyToken).Some? && r.Err? ==> r.error.status == 404
    ensures r.Err? ==> unchanged(db)
    ensures r.Ok? <==> Incoming(cookieToken, bodyToken).Some?
                       && RefreshAccepted(old(db.users), Incoming(cookieToken, bodyToken).value, expired)
    ensures r.Ok? ==>
            var t := Incoming(cookieToken, bodyToken).value;
            var id := t.claims.id;
            var issued := GenerateRefreshToken(old(db.users)[id], old(db.serial) + 1);
            && db.users == old(db.users)[id := old(db.users)[id].(refreshToken := Some(issued))]
            && r.value == RefreshData(GenerateAccessToken(old(db.users)[id], old(db.serial)), Some(issued))
            && issued != t
    ensures r.Ok? ==> db.products == old(db.products) && db.categories == old(db.categories) && db.carts == old(db.carts)
    ensures r.Ok? ==> db.serial == old(db.serial) + 2
  {
    var incoming := Incoming(cookieToken, bodyToken);
    if incoming.None? {
      return Err(ApiError(401, "Unauthorized Request"));
    }
    var t := incoming.value;
    var decoded := Verify(t, RefreshTokenSecret, expired);
    if decoded.Rejected? {
      return Err(ApiError(404, decoded.reason));
    }
    var id := decoded.claims.id;
    if id >= |db.users| {
      return Err(ApiError(404, "Invalid Refresh Token"));
    }
    if db.users[id].refreshToken != Some(t) {
      return Err(ApiError(404, "Refresh Token is Expired"));
    }
    var access, refresh := GenerateAccessAndRefreshToken(db, id);
    r := Ok(RefreshData(access, Some(refresh)));
  }

  /** POST /users/refresh-access-token as written. `expired` is the clock's
      verdict on the presented token. Every failure after the presence check
      is re-thrown with status 404. The store rotates to a new refresh token,
      but the answer reads the helper's result under the name
      `newrefreshToken`, which it does not have, so no refresh token is sent. */
  method RefreshAccessToken(db: Database, cookieToken: Option<Token>, bodyToken: Option<Token>, expired: bool)
    returns (r: Result<RefreshData>)
    requires db.Valid()
    modifies db
    ensures db.Valid()
    ensures Incoming(cookieToken, bodyToken).None? ==> r == Err(ApiError(401, "Unauthorized Request"))
    ensures Incoming(cookieToken, bodyToken).Some? && r.Err? ==> r.error.status == 404
    ensures r.Err? ==> unchanged(db)
    ensures r.Ok? <==> Incoming(cookieToken, bodyToken).Some?
                       && RefreshAccepted(old(db.users), Incoming(cookieToken, bodyToken).value, expired)
    ensures r.Ok? ==>
            var t := Incoming(cookieToken, bodyToken).value;
            var id := t.claims.id;
            && db.users == old(db.users)[id := old(db.users)[id].(refreshToken :=
                 Some(GenerateRefreshToken(old(db.users)[id], old(db.serial) + 1)))]
            && r.value == RefreshData(GenerateAccessToken(old(db.users)[id], old(db.serial)), None)
            && db.users[id].refreshToken != Some(t)
    ensures r.Ok? ==> db.products == old(db.products) && db.categories == old(db.categories) && db.carts == old(db.carts)
    ensures r.Ok? ==> db.serial == old(db.serial) + 2
  {
    r := RefreshAccessTokenIntended(db, cookieToken, bodyToken, expired);
    if r.Ok? {
      r := Ok(RefreshData(r.value.accessToken, None));
    }
  }

  /** PATCH /users/change-password. */
  method ChangeCurrentPassword(db: Database, current: nat, oldPassword: Option<string>,
                               newPassword: Option<string>, confirmPassword: Option<string>)
    returns (r: Result<()>)
    requires db.Valid()
    modifies db
    ensures db.Valid()
    ensures newPassword != confirmPassword ==> r == Err(ApiError(401, "Password Discriminate"))
    ensures newPassword == confirmPassword && current < |old(db.users)| && oldPassword.Some?
            && !IsPasswordCorrect(old(db.users)[current], oldPassword.value)
            ==> r == Err(ApiError(400, "Invalid Password"))
    ensures r.Err? ==> unchanged(db)
    ensures r.Ok? <==> && newPassword == confirmPassword && newPassword.Some?
                       && current < |old(db.users)| && oldPassword.Some?
                       && IsPasswordCorrect(old(db.users)[current], oldPassword.value)
    ensures r.Ok? ==>
            && db.users == old(db.users)[current := old(db.users)[current].(password := Hash(newPassword.value))]
            && IsPasswordCorrect(db.users[current], newPassword.value)
            && db.products == old(db.products) && db.categories == old(db.categories)
            && db.carts == old(db.carts) && db.serial == old(db.serial)
  {
    if newPassword != confirmPassword {
      return Err(ApiError(401, "Password Discriminate"));
    }
    if current >= |db.users| {
      return Err(ApiError(500, "Cannot read properties of null (reading 'isPasswordCorrect')"));
    }
    var user := db.users[current];
    if oldPassword.None? {
      return Err(ApiError(500, "data and hash arguments required"));
    }
    if !IsPasswordCorrect(user, oldPassword.value) {
      return Err(ApiError(400, "Invalid Password"));
    }
    if newPassword.None? {
      return Err(ApiError(500, "data and salt arguments required"));
    }
    db.Save(Document(user, newPassword));
    r := Ok(());
  }

  /** The document update-details writes: a present field replaces the stored
      one through the schema's setters, an absent one leaves it as it is. */
  function WithDetails(u: User, fullname: Option<string>, email: Option<string>): (v: User)
    ensures v == u.(fullname := v.fullname, email := v.email)
    ensures fullname.Some? ==> v.fullname == Text.Trim(fullname.value)
    ensures fullname.None? ==> v.fullname == u.fullname
    ensures email.Some? ==> v.email == Text.Canonical(email.value)
    ensures email.None? ==> v.email == u.email
  {
    u.(fullname := if fullname.Some? then Text.Trim(fullname.value) else u.fullname,
       email := if email.Some? then Text.Canonical(email.value) else u.email)
  }

  /** Another user than `id` already has this (stored form of the) e-mail address. */
  predicate EmailTaken(users: seq<User>, id: nat, email: string) {
    exists k :: 0 <= k < |users| && k != id && users[k].email == email
  }

  /** PATCH /users/update-details. A taken e-mail address is refused by the
      unique index on `email`. */
  method UpdateAccountDetails(db: Database, current: nat, fullname: Option<string>, email: Option<string>)
    returns (r: Result<Option<DetailsView>>)
    requires db.Valid()
    modifies db
    ensures db.Valid()
    ensures Falsy(fullname) && Falsy(email) ==> r == Err(ApiError(400, "Fields required"))
    ensures !(Falsy(fullname) && Falsy(email)) && current >= |old(db.users)| ==> r == Ok(None)
    ensures !(Falsy(fullname) && Falsy(email)) && current < |old(db.users)| && email.Some?
            && EmailTaken(old(db.users), current, Text.Canonical(email.value))
            ==> r.Err? && r.error.status == 500
    ensures (r.Ok? && r.value.Some?) <==>
            && !(Falsy(fullname) && Falsy(email)) && current < |old(db.users)|
            && !(email.Some? && EmailTaken(old(db.users), current, Text.Canonical(email.value)))
    ensures r.Err? || r == Ok(None) ==> unchanged(db)
    ensures r.Ok? && r.value.Some? ==>
            var v := WithDetails(old(db.users)[current], fullname, email);
            && current < |old(db.users)|
            && db.users == old(db.users)[current := v]
            && r.value.value == DetailsView(Sanitize(v), v.refreshToken)
            && db.products == old(db.products) && db.categories == old(db.categories)
            && db.carts == old(db.carts) && db.serial == old(db.serial)
  {
    if Falsy(fullname) && Falsy(email) {
      return Err(ApiError(400, "Fields required"));
    }
    if current >= |db.users| {
      return Ok(None);
    }
    var v := WithDetails(db.users[current], fullname, email);
    if email.Some? && EmailTaken(db.users, current, v.email) {
      return Err(ApiError(500, "E11000 duplicate key error"));
    }
    db.WriteUser(v);
    r := Ok(Some(DetailsView(Sanitize(v), v.refreshToken)));
  }

  /** The role the toggle of update-role moves to: from "seller" to "buyer",
      from anything else to "seller", provided the target role is granted. */
  function ToggledRole(active: Role, granted: seq<Role>): (r: Result<Role>)
    ensures r.Ok? ==> r.value in granted && r.value != active
    ensures active == Seller ==> (r.Ok? <==> Buyer in granted)
    ensures active == Buyer ==> (r.Ok? <==> Seller in granted)
    ensures r.Err? ==> r.error.status == 400
  {
    if active == Seller then
      if Buyer !in granted then Err(ApiError(400, "This is a seller account! Invalid Request")) else Ok(Buyer)
    else
      if Seller !in granted then Err(ApiError(400, "This is a buyer account! Invalid Request")) else Ok(Seller)
  }

  /** For an account granted both roles, toggling twice restores the active role. */
  lemma ToggleTwiceRestores(active: Role, granted: seq<Role>)
    requires Buyer in granted && Seller in granted
    ensures ToggledRole(active, granted).Ok?
    ensures ToggledRole(ToggledRole(active, granted).value, granted) == Ok(active)
  {
  }

  /** PATCH /users/update-role. */
  method UpdateRole(db: Database, current: nat) returns (r: Result<()>)
    requires db.Valid()
    modifies db
    ensures db.Valid()
    ensures current >= |old(db.users)| ==> r == Err(ApiError(400, "User doesn't exists"))
    ensures current < |old(db.users)| ==>
            var t := ToggledRole(old(db.users)[current].activeRole, old(db.users)[current].role);
            && (r.Ok? <==> t.Ok?)
            && (r.Err? ==> r.error == t.error)
            && (r.Ok? ==> db.users == old(db.users)[current := old(db.users)[current].(activeRole := t.value)])
    ensures r.Ok? ==> current < |db.users| && db.users[current].activeRole in db.users[current].role
    ensures r.Err? ==> unchanged(db)
    ensures db.products == old(db.products) && db.categories == old(db.categories)
    ensures db.carts == old(db.carts) && db.serial == old(db.serial)
  {
    if current >= |db.users| {
      return Err(ApiError(400, "User doesn't exists"));
    }
    var user := db.users[current];
    var t := ToggledRole(user.activeRole, user.role);
    if t.Err? {
      return Err(t.error);
    }
    db.Save(Document(user.(activeRole := t.value), None));
    r := Ok(());
  }

  /** Rotation: a refresh token is honoured once. Presenting it again after a
      successful refresh fails with 404, whatever the clock says. */
  method ReplayedRefreshFails(db: Database, t: Token, expired: bool) returns (first: Result<RefreshData>, second: Result<RefreshData>)
    requires db.Valid() && RefreshAccepted(db.users, t, false)
    modifies db
    ensures db.Valid()
    ensures first.Ok? && first.value.refreshToken.None?
    ensures second.Err? && second.error.status == 404
  {
    first := RefreshAccessToken(db, Some(t), None, false);
    second := RefreshAccessToken(db, Some(t), None, expired);
  }

  /** As written, logging out does not end the session: a refresh token that
      was honoured before the logout is honoured after it. */
  method RefreshSurvivesLogout(db: Database, t: Token) returns (r: Result<RefreshData>)
    requires db.Valid() && RefreshAccepted(db.users, t, false)
    modifies db
    ensures db.Valid()
    ensures r.Ok?
  {
    var _ := LogoutUser(db, t.claims.id);
    r := RefreshAccessToken(db, None, Some(t), false);
  }

  /** With the intended logout, no refresh token of that user is honoured
      afterwards. */
  method RefreshAfterLogoutFails(db: Database, current: nat, t: Token, expired: bool) returns (r: Result<RefreshData>)
    requires db.Valid()
    requires t.claims.id == current
    modifies db
    ensures db.Valid()
    ensures r.Err?
  {
    var _ := LogoutUserIntended(db, current);
    r := RefreshAccessToken(db, None, Some(t), expired);
  }

  /** As written, a session can be refreshed only once: the first refresh
      rotates the stored token without handing the new one out, so the client
      has no refresh token left to present. */
  method RefreshedSessionCannotRefreshAgain(db: Database, t: Token) returns (first: Result<RefreshData>, second: Result<RefreshData>)
    requires db.Valid() && RefreshAccepted(db.users, t, false)
    modifies db
    ensures db.Valid()
    ensures first.Ok? && first.value.refreshToken.None?
    ensures second == Err(ApiError(401, "Unauthorized Request"))
  {
    first := RefreshAccessToken(db, Some(t), None, false);
    second := RefreshAccessToken(db, first.value.refreshToken, None, false);
  }

  /** As intended, the refresh token a refresh hands out is honoured by the
      next refresh, and the one it replaced is not. */
  method IntendedRefreshChains(db: Database, t: Token)
    returns (first: Result<RefreshData>, second: Result<RefreshData>, replay: Result<RefreshData>)
    requires db.Valid() && RefreshAccepted(db.users, t, false)
    modifies db
    ensures db.Valid()
    ensures first.Ok? && first.value.refreshToken.Some? && first.value.refreshToken.value != t
    ensures second.Ok?
    ensures replay.Err? && replay.error.status == 404
  {
    first := RefreshAccessTokenIntended(db, Some(t), None, false);
    second := RefreshAccessTokenIntended(db, first.value.refreshToken, None, false);
    replay := RefreshAccessTokenIntended(db, Some(t), None, false);
  }
}
