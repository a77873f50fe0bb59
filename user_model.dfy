/** The User schema and its document methods: field defaults and setters,
    the password hook, password comparison and the two token claim sets. */
module UserModel {
  import opened Wrappers
  import Text

  /** The values the schema's `enum: ['buyer', 'seller']` admits. */
  datatype Role = Buyer | Seller

  function RoleName(r: Role): string {
    match r
    case Buyer => "buyer"
    case Seller => "seller"
  }

  /** Casting one string to a Role: only the two enum values pass validation. */
  function ParseRole(s: string): (r: Option<Role>)
    ensures r.Some? <==> s == "buyer" || s == "seller"
    ensures r.Some? ==> RoleName(r.value) == s
  {
    if s == "buyer" then Some(Buyer) else if s == "seller" then Some(Seller) else None
  }

  /** Validating a `role` array: it passes iff every element is an enum value,
      and then keeps the elements in order. */
  function ParseRoles(xs: seq<string>): (r: Option<seq<Role>>)
    ensures r.Some? <==> forall k :: 0 <= k < |xs| ==> ParseRole(xs[k]).Some?
    ensures r.Some? ==> |r.value| == |xs| && forall k :: 0 <= k < |xs| ==> RoleName(r.value[k]) == xs[k]
  {
    if xs == [] then Some([])
    else match (ParseRole(xs[0]), ParseRoles(xs[1..]))
      case (Some(x), Some(rest)) => Some([x] + rest)
      case _ => None
  }

  /** A password digest; a digest is never a plain string. */
  datatype Digest = Bcrypt(salted: string)

  /** bcrypt reads at most the first 72 bytes of a password. */
  const PasswordLimit := 72

  /** The part of `p` that bcrypt reads. */
  function Significant(p: string): (r: string)
    ensures |p| <= PasswordLimit ==> r == p
    ensures |p| > PasswordLimit ==> r == p[..PasswordLimit]
  {
    if |p| <= PasswordLimit then p else p[..PasswordLimit]
  }

  /** `bcrypt.hash(p, 10)` without salt or cost: it depends on the part of
      `p` that bcrypt reads, and on nothing else. */
  function Hash(p: string): Digest {
    Bcrypt(Significant(p))
  }

  /** `bcrypt.compare(p, h)`. */
  predicate Compare(p: string, h: Digest) {
    h == Hash(p)
  }

  /** The two secrets tokens are signed with. */
  datatype SigningKey = AccessTokenSecret | RefreshTokenSecret

  /** The payload a token carries. */
  datatype Claims =
    | AccessClaims(id: nat, email: string, username: string, fullname: string, role: seq<Role>)
    | RefreshClaims(id: nat)

  /** A signed token; `serial` makes every token the generator issues distinct
      (signing time and expiry are not modelled). */
  datatype Token = Jwt(claims: Claims, key: SigningKey, serial: nat)

  /** What `jwt.verify` gives back. */
  datatype Decoded = Verified(claims: Claims) | Rejected(reason: string)

  /** `jwt.verify(tok, key)`: a token signed with another secret fails, an
      expired one fails (`expired` is the clock's verdict, an input here),
      otherwise its claims are returned. */
  function Verify(tok: Token, key: SigningKey, expired: bool): (d: Decoded)
    ensures d.Verified? <==> tok.key == key && !expired
    ensures d.Verified? ==> d.claims == tok.claims
  {
    if tok.key != key then Rejected("invalid signature")
    else if expired then Rejected("jwt expired")
    else Verified(tok.claims)
  }

  /** A stored user document. */
  datatype User = User(
    id: nat,
    username: string,
    email: string,
    fullname: string,
    password: Digest,
    refreshToken: Option<Token>,
    role: seq<Role>,
    activeRole: Role)

  /** The document `User.create` stores: user name and e-mail lower-cased and
      trimmed, full name trimmed, password hashed by the save hook, `role`
      defaulting to ["buyer"] and `activeRole` to "buyer" whatever `role` is. */
  function NewUser(id: nat, fullname: string, email: string, username: string, password: string,
                   role: Option<seq<Role>>): (u: User)
    ensures u.id == id && u.refreshToken.None?
    ensures u.username == Text.Canonical(username) && u.email == Text.Canonical(email)
    ensures u.fullname == Text.Trim(fullname)
    ensures IsPasswordCorrect(u, password)
    ensures u.role == (if role.Some? then role.value else [Buyer])
    ensures u.activeRole == Buyer
  {
    User(id, Text.Canonical(username), Text.Canonical(email), Text.Trim(fullname), Hash(password),
         None, if role.Some? then role.value else [Buyer], Buyer)
  }

  /** A seller-only account is created with "buyer" active: `activeRole` is in
      `role` is not an invariant of new accounts. */
  lemma SellerOnlyAccountStartsAsBuyer(id: nat, fullname: string, email: string, username: string, password: string)
    ensures NewUser(id, fullname, email, username, password, Some([Seller])).activeRole
            !in NewUser(id, fullname, email, username, password, Some([Seller])).role
  {
  }

  /** `user.isPasswordCorrect(p)`: compares against the stored digest only;
      no other field of the document takes part. */
  predicate IsPasswordCorrect(u: User, p: string)
    ensures IsPasswordCorrect(u, p) <==> u.password == Hash(p)
  {
    Compare(p, u.password)
  }

  /** The schema's `required: true` on the stored string paths: a full save
      validates the document and refuses one where any of them is empty. (The
      password is a digest once stored, and the roles are in the enum by type.) */
  predicate HasRequiredFields(u: User) {
    u.username != "" && u.email != "" && u.fullname != ""
  }

  /** A document loaded into memory, with the plain password a handler assigned
      to it since (`user.password = ...`), if any: that is what marks the
      `password` path as modified. */
  datatype Document = Document(record: User, assignedPassword: Option<string>)

  /** The pre-save hook followed by the write: the password is hashed only when
      it was assigned; every other field is stored as it is. */
  function PreSave(d: Document): (u: User)
    ensures u == d.record.(password := u.password)
    ensures d.assignedPassword.None? ==> u.password == d.record.password
    ensures d.assignedPassword.Some? ==> IsPasswordCorrect(u, d.assignedPassword.value)
  {
    match d.assignedPassword
    case None => d.record
    case Some(p) => d.record.(password := Hash(p))
  }

  /** After a save that assigned the password `p`, the stored digest accepts
      exactly the passwords that agree with `p` on the first 72 characters:
      `p` itself, and, when `p` is longer, every extension of its first 72. */
  lemma OnlyAssignedPasswordMatches(d: Document, q: string)
    requires d.assignedPassword.Some?
    ensures IsPasswordCorrect(PreSave(d), q) <==> Significant(q) == Significant(d.assignedPassword.value)
    ensures |q| <= PasswordLimit && |d.assignedPassword.value| <= PasswordLimit
            ==> (IsPasswordCorrect(PreSave(d), q) <==> q == d.assignedPassword.value)
  {
    if IsPasswordCorrect(PreSave(d), q) {
      assert Hash(q).salted == Significant(q);
    }
  }

  /** Characters past the 72nd are ignored: a password of 73 `a`s is accepted
      for a stored 72 `a`s followed by `b`. */
  lemma LongPasswordsCollide()
    ensures var stored := seq(72, _ => 'a') + ['b'];
            var typed := seq(73, _ => 'a');
            typed != stored && Compare(typed, Hash(stored))
  {
    var stored := seq(72, _ => 'a') + ['b'];
    var typed := seq(73, _ => 'a');
    assert typed[72] != stored[72];
    assert typed[..72] == stored[..72];
  }

  /** `user.generateAccessToken()`: signed with the access secret; its claims
      are exactly _id, email, username, fullname and role. */
  function GenerateAccessToken(u: User, serial: nat): (t: Token)
    ensures Verify(t, AccessTokenSecret, false) == Verified(AccessClaims(u.id, u.email, u.username, u.fullname, u.role))
    ensures Verify(t, RefreshTokenSecret, false).Rejected?
    ensures t.serial == serial
  {
    Jwt(AccessClaims(u.id, u.email, u.username, u.fullname, u.role), AccessTokenSecret, serial)
  }

  /** `user.generateRefreshToken()`: signed with the refresh secret; its only
      claim is _id. */
  function GenerateRefreshToken(u: User, serial: nat): (t: Token)
    ensures Verify(t, RefreshTokenSecret, false) == Verified(RefreshClaims(u.id))
    ensures Verify(t, AccessTokenSecret, false).Rejected?
    ensures t.serial == serial
  {
    Jwt(RefreshClaims(u.id), RefreshTokenSecret, serial)
  }

  /** A user as the handlers return it with `.select("-password -refreshToken")`. */
  datatype PublicUser = PublicUser(id: nat, username: string, email: string, fullname: string,
                                   role: seq<Role>, activeRole: Role)

  function Sanitize(u: User): (p: PublicUser)
    ensures p.id == u.id && p.username == u.username && p.email == u.email
    ensures p.fullname == u.fullname && p.role == u.role && p.activeRole == u.activeRole
  {
    PublicUser(u.id, u.username, u.email, u.fullname, u.role, u.activeRole)
  }

  /** The answer reveals nothing of the password or the stored refresh token:
      two documents that differ only there answer alike. */
  lemma SanitizeHidesSecrets(u: User, password: Digest, refreshToken: Option<Token>)
    ensures Sanitize(u.(password := password, refreshToken := refreshToken)) == Sanitize(u)
  {
  }
}
