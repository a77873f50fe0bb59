/** The non-UI logic of the client's login/registration page: form
    validation, the request bodies, the role list, the error message shown,
    and where a successful login leads. */
module LoginForm {
  import opened Wrappers

  /** The body key the login identifier is sent under. */
  datatype IdentifierKey = EmailKey | UsernameKey

  /** The JSON body of the login request. */
  datatype LoginPayload = LoginPayload(key: IdentifierKey, identifier: string, password: string)

  /** The JSON body of the registration request. */
  datatype RegisterPayload = RegisterPayload(fullname: string, email: string, username: string,
                                             password: string, role: seq<string>)

  /** The error body the server sends, as far as the page reads it. */
  datatype BackendError = BackendError(errors: Option<seq<string>>, message: Option<string>)

  /** The user part of a login answer, as far as the page reads it. */
  datatype ReplyUser = ReplyUser(fullname: string, email: string, activeRole: string)

  /** What the login request came back with: an answer with its `success`
      flag, or a rejection with the server's error body, if any. */
  datatype LoginReply = LoginAnswered(success: bool, user: ReplyUser) | LoginRejected(backend: Option<BackendError>)

  /** What the registration request came back with. */
  datatype RegisterReply = RegisterAnswered(success: bool) | RegisterRejected(backend: Option<BackendError>)

  /** The values put into the shared user context after a login. */
  datatype Session = Session(fullName: string, activeRole: string, email: string)

  /** An identifier containing "@" is an e-mail address. */
  function IdentifierKeyFor(usernameEmail: string): (k: IdentifierKey)
    ensures k == EmailKey <==> exists i :: 0 <= i < |usernameEmail| && usernameEmail[i] == '@'
  {
    if '@' in usernameEmail then EmailKey else UsernameKey
  }

  /** The login body, or none when a field is empty (no request is sent). */
  function LoginRequest(usernameEmail: string, password: string): (r: Option<LoginPayload>)
    ensures r.None? <==> usernameEmail == "" || password == ""
    ensures r.Some? ==> r.value.identifier == usernameEmail && r.value.password == password
    ensures r.Some? ==> r.value.key == IdentifierKeyFor(usernameEmail)
  {
    if usernameEmail == "" || password == "" then None
    else Some(LoginPayload(IdentifierKeyFor(usernameEmail), usernameEmail, password))
  }

  /** The (email, username, password) fields the server reads from a login body. */
  function LoginFields(p: LoginPayload): (Option<string>, Option<string>, Option<string>) {
    match p.key
    case EmailKey => (Some(p.identifier), None, Some(p.password))
    case UsernameKey => (None, Some(p.identifier), Some(p.password))
  }

  /** A body the page sends always gets past the server's two presence checks:
      it names exactly one of email and username, non-empty, and a password. */
  lemma SentLoginPassesPresenceChecks(usernameEmail: string, password: string)
    requires LoginRequest(usernameEmail, password).Some?
    ensures var (email, username, pwd) := LoginFields(LoginRequest(usernameEmail, password).value);
            && !(Falsy(username) && Falsy(email)) && !Falsy(pwd)
            && (email.Some? <==> username.None?)
  {
  }

  /** A role list as the registration form builds it from the two check boxes:
      "buyer" iff buyer is selected, "seller" iff seller is selected, buyer
      first, no repetition. */
  predicate IsRoleList(role: seq<string>, buyerSelected: bool, sellerSelected: bool) {
    && ("buyer" in role <==> buyerSelected)
    && ("seller" in role <==> sellerSelected)
    && (forall i :: 0 <= i < |role| ==> role[i] == "buyer" || role[i] == "seller")
    && (forall i, j :: 0 <= i < j < |role| ==> role[i] != role[j])
    && (|role| == 2 ==> role[0] == "buyer")
  }

  /** Collects the selected roles by pushing onto an empty array. */
  method CollectRoles(buyerSelected: bool, sellerSelected: bool) returns (role: seq<string>)
    ensures IsRoleList(role, buyerSelected, sellerSelected)
    ensures role == [] <==> !buyerSelected && !sellerSelected
    ensures |role| <= 2
  {
    role := [];
    if buyerSelected {
      role := role + ["buyer"];
    }
    if sellerSelected {
      role := role + ["seller"];
    }
  }

  /** Where the `k`-th element starts in `xs.join(sep)`: after the `k`
      elements before it, each followed by one separator, so the separator
      before element `k` ends where that element starts. */
  function Offset(xs: seq<string>, sep: string, k: nat): nat
    requires k <= |xs|
  {
    if k == 0 then 0 else |xs[0]| + |sep| + Offset(xs[1..], sep, k - 1)
  }

  /** In `r`, every element of `xs` sits at its offset. */
  predicate ElementsPlaced(xs: seq<string>, sep: string, r: string) {
    forall k :: 0 <= k < |xs| ==>
      Offset(xs, sep, k) + |xs[k]| <= |r| && r[Offset(xs, sep, k)..Offset(xs, sep, k) + |xs[k]|] == xs[k]
  }

  /** In `r`, one separator ends where each element but the first starts. */
  predicate SeparatorsPlaced(xs: seq<string>, sep: string, r: string) {
    forall k :: 1 <= k < |xs| ==>
      |sep| <= Offset(xs, sep, k) <= |r| && r[Offset(xs, sep, k) - |sep|..Offset(xs, sep, k)] == sep
  }

  /** `xs.join(sep)`: each element at its offset, one separator between each
      element and the next, and nothing after the last element. */
  function Join(xs: seq<string>, sep: string): (r: string)
    ensures xs == [] ==> r == ""
    ensures xs != [] ==> |r| == Offset(xs, sep, |xs| - 1) + |xs[|xs| - 1]|
    ensures ElementsPlaced(xs, sep, r)
    ensures SeparatorsPlaced(xs, sep, r)
  {
    if xs == [] then ""
    else if |xs| == 1 then xs[0]
    else
      var rest := Join(xs[1..], sep);
      var r := xs[0] + sep + rest;
      assert xs[1..][|xs| - 2] == xs[|xs| - 1];
      assert Offset(xs, sep, |xs| - 1) == |xs[0]| + |sep| + Offset(xs[1..], sep, |xs| - 2);
      ConsElements(xs, sep, rest);
      ConsSeparators(xs, sep, rest);
      r
  }

  /** The elements of `xs.join(sep)` sit where those of the join of
      `xs[1..]` sit, shifted by the first element and one separator. */
  lemma {:induction false} ConsElements(xs: seq<string>, sep: string, rest: string)
    requires |xs| >= 2
    requires ElementsPlaced(xs[1..], sep, rest)
    ensures ElementsPlaced(xs, sep, xs[0] + sep + rest)
  {
    forall k | 0 <= k < |xs|
      ensures var r := xs[0] + sep + rest;
              Offset(xs, sep, k) + |xs[k]| <= |r| && r[Offset(xs, sep, k)..Offset(xs, sep, k) + |xs[k]|] == xs[k]
    {
      if k == 0 {
        assert (xs[0] + sep + rest)[0..|xs[0]|] == xs[0];
      } else {
        assert xs[1..][k - 1] == xs[k];
        ElementAt(xs, sep, rest, k);
      }
    }
  }

  /** Likewise for the separators: the first follows the first element, the
      others are those of the join of `xs[1..]`, shifted. */
  lemma {:induction false} ConsSeparators(xs: seq<string>, sep: string, rest: string)
    requires |xs| >= 2
    requires SeparatorsPlaced(xs[1..], sep, rest)
    ensures SeparatorsPlaced(xs, sep, xs[0] + sep + rest)
  {
    forall k | 1 <= k < |xs|
      ensures var r := xs[0] + sep + rest;
              |sep| <= Offset(xs, sep, k) <= |r| && r[Offset(xs, sep, k) - |sep|..Offset(xs, sep, k)] == sep
    {
      if k == 1 {
        assert (xs[0] + sep + rest)[|xs[0]|..|xs[0]| + |sep|] == sep;
      } else {
        SeparatorAt(xs, sep, rest, k);
      }
    }
  }

  /** Element `k > 0` of `xs` sits where element `k - 1` of `xs[1..]` sits in
      the tail, shifted by the first element and one separator. */
  lemma ElementAt(xs: seq<string>, sep: string, rest: string, k: nat)
    requires 1 <= k < |xs|
    requires Offset(xs[1..], sep, k - 1) + |xs[k]| <= |rest|
    requires rest[Offset(xs[1..], sep, k - 1)..Offset(xs[1..], sep, k - 1) + |xs[k]|] == xs[k]
    ensures Offset(xs, sep, k) + |xs[k]| <= |xs[0] + sep + rest|
    ensures (xs[0] + sep + rest)[Offset(xs, sep, k)..Offset(xs, sep, k) + |xs[k]|] == xs[k]
  {
    var o := Offset(xs[1..], sep, k - 1);
    SliceOfTail(xs[0] + sep, rest, o, o + |xs[k]|);
  }

  /** Likewise for the separator before element `k > 1`. */
  lemma SeparatorAt(xs: seq<string>, sep: string, rest: string, k: nat)
    requires 2 <= k < |xs|
    requires |sep| <= Offset(xs[1..], sep, k - 1) <= |rest|
    requires rest[Offset(xs[1..], sep, k - 1) - |sep|..Offset(xs[1..], sep, k - 1)] == sep
    ensures |sep| <= Offset(xs, sep, k) <= |xs[0] + sep + rest|
    ensures (xs[0] + sep + rest)[Offset(xs, sep, k) - |sep|..Offset(xs, sep, k)] == sep
  {
    var o := Offset(xs[1..], sep, k - 1);
    SliceOfTail(xs[0] + sep, rest, o - |sep|, o);
  }

  /** A slice of the tail of `h + t`, shifted by the length of `h`. */
  lemma SliceOfTail(h: string, t: string, a: nat, b: nat)
    requires a <= b <= |t|
    ensures (h + t)[|h| + a..|h| + b] == t[a..b]
  {
  }

  /** The server reported a non-empty `errors` list. */
  predicate HasErrorList(backend: Option<BackendError>) {
    backend.Some? && backend.value.errors.Some? && backend.value.errors.value != []
  }

  /** The message shown for a rejected request: the joined `errors`, else a
      truthy `message`, else the page's default. */
  function ErrorMessage(backend: Option<BackendError>, fallback: string): (m: string)
    ensures HasErrorList(backend) ==> m == Join(backend.value.errors.value, ", ")
    ensures !HasErrorList(backend) && backend.Some? && !Falsy(backend.value.message)
            ==> m == backend.value.message.value
    ensures !HasErrorList(backend) && (backend.None? || Falsy(backend.value.message)) ==> m == fallback
  {
    if HasErrorList(backend) then Join(backend.value.errors.value, ", ")
    else if backend.Some? && !Falsy(backend.value.message) then backend.value.message.value
    else fallback
  }

  /** Where a successful login leads. */
  function RouteAfterLogin(activeRole: string): (route: string)
    ensures route == "/products" <==> activeRole == "buyer"
    ensures route == "/Dashboard" <==> activeRole != "buyer"
  {
    if activeRole == "buyer" then "/products" else "/Dashboard"
  }

  /** The page's state that the two submit handlers write. */
  class LoginComponent {
    var isLogin: bool
    var message: string
    /** The page `navigate` last moved to, if any. */
    var route: Option<string>
    /** What the handlers put in the shared user context, if anything. */
    var session: Option<Session>

    constructor ()
      ensures isLogin && message == "" && route.None? && session.None?
    {
      isLogin, message, route, session := true, "", None, None;
    }

    /** `loginFormSubmit`, with `reply` standing for the server's answer to
        the body sent (ignored when nothing is sent). */
    method LoginFormSubmit(usernameEmail: string, password: string, reply: LoginReply)
      returns (sent: Option<LoginPayload>)
      modifies this
      ensures sent == LoginRequest(usernameEmail, password)
      ensures sent.None? ==> message == "Please fill in all fields."
                             && isLogin == old(isLogin) && route == old(route) && session == old(session)
      ensures sent.Some? && reply.LoginAnswered? && reply.success ==>
                && message == "Welcome " + reply.user.fullname
                && session == Some(Session(reply.user.fullname, reply.user.activeRole, reply.user.email))
                && route == Some(RouteAfterLogin(reply.user.activeRole))
                && isLogin == old(isLogin)
      ensures sent.Some? && reply.LoginAnswered? && !reply.success ==>
                && message == "Login failed. Please check your credentials. "
                && isLogin == old(isLogin) && route == old(route) && session == old(session)
      ensures sent.Some? && reply.LoginRejected? ==>
                && message == ErrorMessage(reply.backend, "Login failed! Please check your credentials or Register Again")
                && !isLogin && route == old(route) && session == old(session)
    {
      sent := LoginRequest(usernameEmail, password);
      if sent.None? {
        message := "Please fill in all fields.";
        return;
      }
      match reply
      case LoginAnswered(success, user) =>
        if success {
          session := Some(Session(user.fullname, user.activeRole, user.email));
          message := "Welcome " + user.fullname;
          route := Some(RouteAfterLogin(user.activeRole));
        } else {
          message := "Login failed. Please check your credentials. ";
        }
      case LoginRejected(backend) =>
        message := ErrorMessage(backend, "Login failed! Please check your credentials or Register Again");
        isLogin := false;
    }

    /** `registerFormSubmit`, with `reply` standing for the server's answer to
        the body sent (ignored when nothing is sent). */
    method RegisterFormSubmit(fullname: string, email: string, username: string, password: string,
                              buyerSelected: bool, sellerSelected: bool, reply: RegisterReply)
      returns (sent: Option<RegisterPayload>)
      modifies this
      ensures route == old(route) && session == old(session)
      ensures fullname == "" || email == "" || username == "" || password == "" ==>
                sent.None? && message == "All fields are required for registration." && isLogin == old(isLogin)
      ensures fullname != "" && email != "" && username != "" && password != "" && !buyerSelected && !sellerSelected ==>
                sent.None? && message == "Please select at least one role (Buyer or Seller)." && isLogin == old(isLogin)
      ensures sent.Some? ==>
                && fullname != "" && email != "" && username != "" && password != ""
                && sent.value.fullname == fullname && sent.value.email == email
                && sent.value.username == username && sent.value.password == password
                && sent.value.role != [] && IsRoleList(sent.value.role, buyerSelected, sellerSelected)
      ensures sent.Some? && reply.RegisterAnswered? && reply.success ==>
                message == "Registration successful! Please log in." && isLogin
      ensures sent.Some? && reply.RegisterAnswered? && !reply.success ==>
                message == "Registration failed. Please try again." && isLogin == old(isLogin)
      ensures sent.Some? && reply.RegisterRejected? ==>
                message == ErrorMessage(reply.backend, "Registration failed! Please try again.") && isLogin == old(isLogin)
      ensures sent.Some? <==> fullname != "" && email != "" && username != "" && password != ""
                              && (buyerSelected || sellerSelected)
    {
      if fullname == "" || email == "" || username == "" || password == "" {
        message := "All fields are required for registration.";
        return None;
      }
      var role := CollectRoles(buyerSelected, sellerSelected);
      if |role| == 0 {
        message := "Please select at least one role (Buyer or Seller).";
        return None;
      }
      sent := Some(RegisterPayload(fullname, email, username, password, role));
      match reply
      case RegisterAnswered(success) =>
        if success {
          message := "Registration successful! Please log in.";
          isLogin := true;
        } else {
          message := "Registration failed. Please try again.";
        }
      case RegisterRejected(backend) =>
        message := ErrorMessage(backend, "Registration failed! Please try again.");
    }
  }
}
