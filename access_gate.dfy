/** The two access-gate middlewares. Each one reads the `Authorization`
    header, takes a bearer token out of it, has the token verified, re-reads
    the account the token names, and either attaches an identity to the
    request and calls `next()`, or calls `next(error)` with the first check
    that failed.

    The decision itself is a pure early-exit chain (`AuthorizeUserChain`,
    `RequireAuthChain`); the middlewares are methods of `Request`, which
    assign `user` and record the call to `next`. The chains are proved equal
    to a stage-by-stage reading (`RunStages`) in which the first failing
    stage decides the error. */
module AccessGate {
  import opened Outcomes
  import opened UserModel
  import opened Tokens

  const BearerPrefix: string := "Bearer "

  const AccessTokenRequired: string := "Access token required"
  const InvalidTokenStructure: string := "Invalid token structure"
  const UserNoLongerExists: string := "User no longer exists"
  const AccountDeactivated: string := "User account is deactivated"
  const PasswordChangedRecently: string := "User recently changed password! Please log in again"
  const PermissionDenied: string := "You don't have permission to perform this action"

  /** What a gate passes to `next(error)`: an AuthenticationError, an
      AuthorizationError, or the error `jwt.verify` threw. */
  datatype GateError =
    | Authentication(message: string)
    | Authorization(message: string)
    | TokenRejected(name: string, message: string)

  /** The account members the gates read that the user schema does not
      declare: the liveness flag, the password-freshness method and the
      e-mail address. They stay uninterpreted. */
  datatype Hooks = Hooks(
    isActive: UserRecord -> bool,
    changedPasswordAfter: (UserRecord, Option<int>) -> bool,
    email: UserRecord -> Option<string>)

  /** The identity a gate attaches as `req.user`. */
  datatype ReqUser = ReqUser(userId: Id, role: Option<string>, username: Option<string>, email: Option<string>)

  /** Everything a gate decision depends on: the header, the token
      verifier, the stored accounts and the undeclared account members. */
  datatype GateInput = GateInput(
    header: Option<string>,
    verify: string -> VerifyOutcome,
    users: map<Id, UserRecord>,
    hooks: Hooks)

  // ---------------------------------------------------------------------
  // The header: a case-sensitive prefix test and `split(" ")[1]`

  predicate StartsWithBearer(h: string) {
    |BearerPrefix| <= |h| && h[..|BearerPrefix|] == BearerPrefix
  }

  /** A header is accepted when present (non-empty) and starting with the prefix. */
  predicate HeaderAccepted(header: Option<string>) {
    header.Some? && StartsWithBearer(header.value)
  }

  /** `s.split(" ")`: the pieces between single spaces, empty pieces kept. */
  function Split(s: string): (parts: seq<string>)
    ensures |parts| >= 1
    ensures forall k :: 0 <= k < |parts| ==> ' ' !in parts[k]
  {
    if s == [] then [""]
    else
      var rest := Split(s[1..]);
      if s[0] == ' ' then [""] + rest
      else [[s[0]] + rest[0]] + rest[1..]
  }

  /** `parts.join(" ")`, the inverse of `Split`. */
  function Join(parts: seq<string>): string
    requires |parts| >= 1
  {
    if |parts| == 1 then parts[0] else parts[0] + " " + Join(parts[1..])
  }

  /** Splitting loses nothing: joining the pieces gives the string back. */
  lemma {:induction false} JoinSplit(s: string)
    ensures Join(Split(s)) == s
  {
    if s != [] {
      JoinSplit(s[1..]);
      var rest := Split(s[1..]);
      var parts := Split(s);
      if s[0] == ' ' {
        assert parts[1..] == rest;
      } else if |rest| > 1 {
        assert parts[1..] == rest[1..];
      }
      assert s == [s[0]] + s[1..];
    }
  }

  /** A string with no space is one piece. */
  lemma {:induction false} SplitWord(w: string)
    requires ' ' !in w
    ensures Split(w) == [w]
  {
    if w != [] {
      SplitWord(w[1..]);
      assert w == [w[0]] + w[1..];
    }
  }

  /** A space-free word followed by a space is the first piece. */
  lemma {:induction false} SplitAfterWord(w: string, t: string)
    requires ' ' !in w
    ensures Split(w + " " + t) == [w] + Split(t)
  {
    var s := w + " " + t;
    if w == [] {
      assert s[1..] == t;
    } else {
      SplitAfterWord(w[1..], t);
      assert s[1..] == w[1..] + " " + t;
      assert w == [w[0]] + w[1..];
    }
  }

  /** Splitting undoes joining space-free pieces. */
  lemma {:induction false} SplitJoin(parts: seq<string>)
    requires |parts| >= 1
    requires forall k :: 0 <= k < |parts| ==> ' ' !in parts[k]
    ensures Split(Join(parts)) == parts
  {
    if |parts| == 1 {
      SplitWord(parts[0]);
    } else {
      SplitJoin(parts[1..]);
      SplitAfterWord(parts[0], Join(parts[1..]));
      assert parts == [parts[0]] + parts[1..];
    }
  }

  /** After the prefix check, the header splits into "Bearer" and the pieces of the rest. */
  lemma SplitBearer(h: string)
    requires StartsWithBearer(h)
    ensures Split(h) == ["Bearer"] + Split(h[|BearerPrefix|..])
  {
    assert h == "Bearer" + " " + h[|BearerPrefix|..];
    SplitAfterWord("Bearer", h[|BearerPrefix|..]);
  }

  /** `authHeader.split(" ")[1]`, which exists once the prefix check passed. */
  function BearerToken(h: string): string
    requires StartsWithBearer(h)
  {
    SplitBearer(h);
    Split(h)[1]
  }

  /** `w` is what `t` holds up to its first space or its end. */
  ghost predicate IsFirstWord(w: string, t: string) {
    && |w| <= |t|
    && w == t[..|w|]
    && ' ' !in w
    && (|w| == |t| || t[|w|] == ' ')
  }

  /** The first piece of a split is the first word. */
  lemma {:induction false} SplitHeadIsFirstWord(t: string)
    ensures IsFirstWord(Split(t)[0], t)
  {
    if t != [] && t[0] != ' ' {
      SplitHeadIsFirstWord(t[1..]);
      var w := Split(t[1..])[0];
      assert Split(t)[0] == [t[0]] + w;
      assert t == [t[0]] + t[1..];
    }
  }

  /** A string has only one first word. */
  lemma FirstWordUnique(w1: string, w2: string, t: string)
    requires IsFirstWord(w1, t) && IsFirstWord(w2, t)
    ensures w1 == w2
  {
  }

  /** The token is exactly the text after "Bearer " up to the next space or
      the end of the header, and nothing else is. */
  lemma BearerTokenIsFirstWord(h: string)
    requires StartsWithBearer(h)
    ensures IsFirstWord(BearerToken(h), h[|BearerPrefix|..])
    ensures forall w :: IsFirstWord(w, h[|BearerPrefix|..]) ==> w == BearerToken(h)
  {
    SplitBearer(h);
    SplitHeadIsFirstWord(h[|BearerPrefix|..]);
    forall w | IsFirstWord(w, h[|BearerPrefix|..])
      ensures w == BearerToken(h)
    {
      FirstWordUnique(w, BearerToken(h), h[|BearerPrefix|..]);
    }
  }

  /** A header carrying a space-free token gives that token back. */
  lemma BearerTokenOfIssued(t: string)
    requires ' ' !in t
    ensures StartsWithBearer(BearerPrefix + t)
    ensures BearerToken(BearerPrefix + t) == t
  {
    var h := BearerPrefix + t;
    assert h[..|BearerPrefix|] == BearerPrefix;
    assert h[|BearerPrefix|..] == t;
    SplitBearer(h);
    SplitWord(t);
  }

  /** "Bearer " and "Bearer  x" yield an empty token; a second space ends the token. */
  lemma BearerTokenExamples()
    ensures StartsWithBearer("Bearer ") && BearerToken("Bearer ") == ""
    ensures StartsWithBearer("Bearer  x") && BearerToken("Bearer  x") == ""
    ensures StartsWithBearer("Bearer ab c") && BearerToken("Bearer ab c") == "ab"
    ensures !StartsWithBearer("bearer ab") && !StartsWithBearer("Bearer")
  {
    BearerTokenIsFirstWord("Bearer ");
    assert IsFirstWord("", "Bearer "[|BearerPrefix|..]);
    BearerTokenIsFirstWord("Bearer  x");
    assert "Bearer  x"[|BearerPrefix|..] == " x";
    assert IsFirstWord("", " x");
    BearerTokenIsFirstWord("Bearer ab c");
    assert "Bearer ab c"[|BearerPrefix|..] == "ab c";
    assert IsFirstWord("ab", "ab c");
    assert "bearer ab"[0] != BearerPrefix[0];
  }

  // ---------------------------------------------------------------------
  // The two decision chains, as the middlewares run them

  /** `allowedRoles.includes(role)`: an absent role is never included. */
  predicate RoleAllowed(allowedRoles: seq<string>, role: Option<string>) {
    role.Some? && role.value in allowedRoles
  }

  /** The checks of `authorizeUser(allowedRoles)`, in source order. */
  function AuthorizeUserChain(allowedRoles: seq<string>, g: GateInput): Result<ReqUser, GateError> {
    if !HeaderAccepted(g.header) then Err(Authentication(AccessTokenRequired))
    else
      var token := BearerToken(g.header.value);
      if token == "" then Err(Authentication(AccessTokenRequired))
      else match g.verify(token)
        case VerifyFailed(name, message) => Err(TokenRejected(name, message))
        case Verified(claims) =>
          if claims.data.None? then Err(Authentication(InvalidTokenStructure))
          else
            var d := claims.data.value;
            if d.id.None? || d.id.value !in g.users then Err(Authentication(UserNoLongerExists))
            else
              var current := g.users[d.id.value];
              if !g.hooks.isActive(current) then Err(Authentication(AccountDeactivated))
              else if g.hooks.changedPasswordAfter(current, claims.iat) then Err(Authentication(PasswordChangedRecently))
              else if !RoleAllowed(allowedRoles, d.role) then Err(Authorization(PermissionDenied))
              else Ok(ReqUser(d.id.value, d.role, d.username, g.hooks.email(current)))
  }

  /** The checks of `requireAuth`, in source order: no empty-token, password
      or role check, and the identity comes from the stored account. */
  function RequireAuthChain(g: GateInput): Result<ReqUser, GateError> {
    if !HeaderAccepted(g.header) then Err(Authentication(AccessTokenRequired))
    else
      var token := BearerToken(g.header.value);
      match g.verify(token)
      case VerifyFailed(name, message) => Err(TokenRejected(name, message))
      case Verified(claims) =>
        if claims.data.None? then Err(Authentication(InvalidTokenStructure))
        else
          var d := claims.data.value;
          if d.id.None? || d.id.value !in g.users then Err(Authentication(UserNoLongerExists))
          else
            var current := g.users[d.id.value];
            if !g.hooks.isActive(current) then Err(Authentication(AccountDeactivated))
            else Ok(ReqUser(d.id.value, Some(RoleName(current.role)), Some(current.username), g.hooks.email(current)))
  }

  // ---------------------------------------------------------------------
  // The stage-by-stage reading

  /** The states a protected request passes through, each guarded by one check. */
  datatype Stage =
    | BearerHeader | NonEmptyToken | TokenVerified | TokenStructure
    | AccountResolved | AccountLive | PasswordFresh | RoleGranted

  const AuthorizeUserStages: seq<Stage> :=
    [BearerHeader, NonEmptyToken, TokenVerified, TokenStructure, AccountResolved, AccountLive, PasswordFresh, RoleGranted]

  const RequireAuthStages: seq<Stage> :=
    [BearerHeader, TokenVerified, TokenStructure, AccountResolved, AccountLive]

  /** What each stage has produced, when it got that far. */
  function TokenOf(g: GateInput): Option<string> {
    if HeaderAccepted(g.header) then Some(BearerToken(g.header.value)) else None
  }

  function ClaimsOf(g: GateInput): Option<Claims> {
    match TokenOf(g)
    case None => None
    case Some(t) =>
      match g.verify(t)
      case Verified(c) => Some(c)
      case VerifyFailed(_, _) => None
  }

  function DataOf(g: GateInput): Option<ClaimData> {
    match ClaimsOf(g)
    case None => None
    case Some(c) => c.data
  }

  function AccountOf(g: GateInput): Option<UserRecord> {
    match DataOf(g)
    case None => None
    case Some(d) => if d.id.Some? && d.id.value in g.users then Some(g.users[d.id.value]) else None
  }

  /** The error a stage raises, given what the stages before it produced. */
  function Check(s: Stage, allowedRoles: seq<string>, g: GateInput): Option<GateError> {
    match s
    case BearerHeader =>
      if TokenOf(g).None? then Some(Authentication(AccessTokenRequired)) else None
    case NonEmptyToken =>
      if TokenOf(g) == Some("") then Some(Authentication(AccessTokenRequired)) else None
    case TokenVerified =>
      if TokenOf(g).Some? && g.verify(TokenOf(g).value).VerifyFailed? then
        var v := g.verify(TokenOf(g).value);
        Some(TokenRejected(v.name, v.message))
      else None
    case TokenStructure =>
      if ClaimsOf(g).Some? && ClaimsOf(g).value.data.None? then Some(Authentication(InvalidTokenStructure)) else None
    case AccountResolved =>
      if DataOf(g).Some? && AccountOf(g).None? then Some(Authentication(UserNoLongerExists)) else None
    case AccountLive =>
      if AccountOf(g).Some? && !g.hooks.isActive(AccountOf(g).value) then Some(Authentication(AccountDeactivated)) else None
    case PasswordFresh =>
      if AccountOf(g).Some? && ClaimsOf(g).Some? && g.hooks.changedPasswordAfter(AccountOf(g).value, ClaimsOf(g).value.iat)
      then Some(Authentication(PasswordChangedRecently)) else None
    case RoleGranted =>
      if DataOf(g).Some? && !RoleAllowed(allowedRoles, DataOf(g).value.role) then Some(Authorization(PermissionDenied)) else None
  }

  /** The first of two verdicts that reports an error. */
  function FirstOf(a: Option<GateError>, b: Option<GateError>): Option<GateError> {
    if a.Some? then a else b
  }

  /** Runs the stages in order and stops at the first one that fails. */
  function RunStages(stages: seq<Stage>, allowedRoles: seq<string>, g: GateInput): Option<GateError> {
    if stages == [] then None
    else FirstOf(Check(stages[0], allowedRoles, g), RunStages(stages[1..], allowedRoles, g))
  }

  /** The error of a run is the error of its first failing stage, and a
      run passes exactly when every stage does. */
  lemma {:induction false} FirstFailureWins(stages: seq<Stage>, allowedRoles: seq<string>, g: GateInput)
    ensures RunStages(stages, allowedRoles, g).None? <==>
      forall k :: 0 <= k < |stages| ==> Check(stages[k], allowedRoles, g).None?
    ensures RunStages(stages, allowedRoles, g).Some? ==>
      exists k :: && 0 <= k < |stages|
                  && Check(stages[k], allowedRoles, g) == RunStages(stages, allowedRoles, g)
                  && forall j :: 0 <= j < k ==> Check(stages[j], allowedRoles, g).None?
  {
    if stages != [] {
      FirstFailureWins(stages[1..], allowedRoles, g);
      if Check(stages[0], allowedRoles, g).None? {
        if RunStages(stages, allowedRoles, g).Some? {
          var k :| && 0 <= k < |stages[1..]|
                   && Check(stages[1..][k], allowedRoles, g) == RunStages(stages[1..], allowedRoles, g)
                   && forall j :: 0 <= j < k ==> Check(stages[1..][j], allowedRoles, g).None?;
          assert forall j :: 0 <= j < k + 1 ==> Check(stages[j], allowedRoles, g).None? by {
            forall j | 0 <= j < k + 1 ensures Check(stages[j], allowedRoles, g).None? {
              if j > 0 { assert stages[j] == stages[1..][j - 1]; }
            }
          }
        } else {
          forall k | 0 <= k < |stages| ensures Check(stages[k], allowedRoles, g).None? {
            if k > 0 { assert stages[k] == stages[1..][k - 1]; }
          }
        }
      }
    }
  }

  /** `authorizeUser` fails exactly when one of its eight stages fails, with
      the error of the first one. */
  lemma AuthorizeUserIsStaged(allowedRoles: seq<string>, g: GateInput)
    ensures AuthorizeUserChain(allowedRoles, g).Err? <==> RunStages(AuthorizeUserStages, allowedRoles, g).Some?
    ensures AuthorizeUserChain(allowedRoles, g).Err? ==>
      AuthorizeUserChain(allowedRoles, g).error == RunStages(AuthorizeUserStages, allowedRoles, g).value
  {
    var s := AuthorizeUserStages;
    assert s[1..] == [NonEmptyToken, TokenVerified, TokenStructure, AccountResolved, AccountLive, PasswordFresh, RoleGranted];
    assert s[2..] == [TokenVerified, TokenStructure, AccountResolved, AccountLive, PasswordFresh, RoleGranted];
    assert s[3..] == [TokenStructure, AccountResolved, AccountLive, PasswordFresh, RoleGranted];
    assert s[4..] == [AccountResolved, AccountLive, PasswordFresh, RoleGranted];
    assert s[5..] == [AccountLive, PasswordFresh, RoleGranted];
    assert s[6..] == [PasswordFresh, RoleGranted];
    assert s[7..] == [RoleGranted];
    assert s[8..] == [];
    assert RunStages(s[7..], allowedRoles, g) == Check(RoleGranted, allowedRoles, g);
    assert RunStages(s[6..], allowedRoles, g) == FirstOf(Check(PasswordFresh, allowedRoles, g), RunStages(s[7..], allowedRoles, g));
    assert RunStages(s[5..], allowedRoles, g) == FirstOf(Check(AccountLive, allowedRoles, g), RunStages(s[6..], allowedRoles, g));
    assert RunStages(s[4..], allowedRoles, g) == FirstOf(Check(AccountResolved, allowedRoles, g), RunStages(s[5..], allowedRoles, g));
    assert RunStages(s[3..], allowedRoles, g) == FirstOf(Check(TokenStructure, allowedRoles, g), RunStages(s[4..], allowedRoles, g));
    assert RunStages(s[2..], allowedRoles, g) == FirstOf(Check(TokenVerified, allowedRoles, g), RunStages(s[3..], allowedRoles, g));
    assert RunStages(s[1..], allowedRoles, g) == FirstOf(Check(NonEmptyToken, allowedRoles, g), RunStages(s[2..], allowedRoles, g));
    assert RunStages(s, allowedRoles, g) == FirstOf(Check(BearerHeader, allowedRoles, g), RunStages(s[1..], allowedRoles, g));
  }

  /** `requireAuth` fails exactly when one of its five stages fails, with
      the error of the first one. */
  lemma RequireAuthIsStaged(g: GateInput)
    ensures RequireAuthChain(g).Err? <==> RunStages(RequireAuthStages, [], g).Some?
    ensures RequireAuthChain(g).Err? ==> RequireAuthChain(g).error == RunStages(RequireAuthStages, [], g).value
  {
    var s := RequireAuthStages;
    assert s[1..] == [TokenVerified, TokenStructure, AccountResolved, AccountLive];
    assert s[2..] == [TokenStructure, AccountResolved, AccountLive];
    assert s[3..] == [AccountResolved, AccountLive];
    assert s[4..] == [AccountLive];
    assert s[5..] == [];
    assert RunStages(s[4..], [], g) == Check(AccountLive, [], g);
    assert RunStages(s[3..], [], g) == FirstOf(Check(AccountResolved, [], g), RunStages(s[4..], [], g));
    assert RunStages(s[2..], [], g) == FirstOf(Check(TokenStructure, [], g), RunStages(s[3..], [], g));
    assert RunStages(s[1..], [], g) == FirstOf(Check(TokenVerified, [], g), RunStages(s[2..], [], g));
    assert RunStages(s, [], g) == FirstOf(Check(BearerHeader, [], g), RunStages(s[1..], [], g));
  }

  // ---------------------------------------------------------------------
  // Properties of the gates

  /** A missing header, or one without the exact prefix, is refused by both
      gates before anything else is looked at. */
  lemma MissingBearerRejected(allowedRoles: seq<string>, g: GateInput)
    requires !HeaderAccepted(g.header)
    ensures AuthorizeUserChain(allowedRoles, g) == Err(Authentication(AccessTokenRequired))
    ensures RequireAuthChain(g) == Err(Authentication(AccessTokenRequired))
  {
  }

  /** `authorizeUser` refuses an empty token with the same message. */
  lemma EmptyTokenRejected(allowedRoles: seq<string>, g: GateInput)
    requires HeaderAccepted(g.header) && BearerToken(g.header.value) == ""
    ensures AuthorizeUserChain(allowedRoles, g) == Err(Authentication(AccessTokenRequired))
  {
  }

  /** Claims without `data` are refused whatever the store holds: the
      account lookup is never reached. */
  lemma MissingDataRejectedBeforeLookup(allowedRoles: seq<string>, g: GateInput, users: map<Id, UserRecord>, hooks: Hooks)
    requires ClaimsOf(g).Some? && ClaimsOf(g).value.data.None?
    ensures AuthorizeUserChain(allowedRoles, g) == AuthorizeUserChain(allowedRoles, g.(users := users, hooks := hooks))
    ensures RequireAuthChain(g) == RequireAuthChain(g.(users := users, hooks := hooks))
    ensures TokenOf(g).value != "" ==> AuthorizeUserChain(allowedRoles, g) == Err(Authentication(InvalidTokenStructure))
    ensures RequireAuthChain(g) == Err(Authentication(InvalidTokenStructure))
  {
  }

  /** Every check of `authorizeUser` but the role check passes. */
  ghost predicate Authenticated(g: GateInput) {
    && TokenOf(g).Some? && TokenOf(g).value != ""
    && AccountOf(g).Some?
    && g.hooks.isActive(AccountOf(g).value)
    && !g.hooks.changedPasswordAfter(AccountOf(g).value, ClaimsOf(g).value.iat)
  }

  /** A refused role is an AuthorizationError, and it happens exactly when
      every authentication check has passed; authentication failures are
      never reported as AuthorizationError. */
  lemma AuthorizationOnlyAfterAuthentication(allowedRoles: seq<string>, g: GateInput)
    ensures AuthorizeUserChain(allowedRoles, g) == Err(Authorization(PermissionDenied)) <==>
      Authenticated(g) && !RoleAllowed(allowedRoles, DataOf(g).value.role)
    ensures AuthorizeUserChain(allowedRoles, g).Err? && AuthorizeUserChain(allowedRoles, g).error.Authorization? ==>
      Authenticated(g)
    ensures !Authenticated(g) ==> AuthorizeUserChain(allowedRoles, g).Err?
  {
  }

  /** `authorizeUser` admits a request exactly when it authenticates and the
      role claim is allowed, and then attaches the claim's id, role and
      username with the stored e-mail. */
  lemma AuthorizeUserGrants(allowedRoles: seq<string>, g: GateInput)
    ensures AuthorizeUserChain(allowedRoles, g).Ok? <==> Authenticated(g) && RoleAllowed(allowedRoles, DataOf(g).value.role)
    ensures AuthorizeUserChain(allowedRoles, g).Ok? ==>
      var d := DataOf(g).value;
      AuthorizeUserChain(allowedRoles, g).value == ReqUser(d.id.value, d.role, d.username, g.hooks.email(AccountOf(g).value))
  {
  }

  /** The delete route's gate `["Admin"]` admits only Admin claims, and
      refuses an authenticated User claim with an AuthorizationError. */
  lemma AdminOnlyGate(g: GateInput)
    ensures AuthorizeUserChain(["Admin"], g).Ok? ==> DataOf(g).value.role == Some("Admin")
    ensures Authenticated(g) && DataOf(g).value.role == Some("User") ==>
      AuthorizeUserChain(["Admin"], g) == Err(Authorization(PermissionDenied))
  {
  }

  /** `requireAuth` never looks at a role or at password freshness: its
      verdict is the same whatever the allowed roles and the freshness
      predicate, and its identity takes role and username from the store. */
  lemma RequireAuthIgnoresRoleAndFreshness(g: GateInput, changed: (UserRecord, Option<int>) -> bool)
    ensures RequireAuthChain(g) == RequireAuthChain(g.(hooks := g.hooks.(changedPasswordAfter := changed)))
    ensures RequireAuthChain(g).Ok? ==>
      && AccountOf(g).Some?
      && RequireAuthChain(g).value.role == Some(RoleName(AccountOf(g).value.role))
      && RequireAuthChain(g).value.username == Some(AccountOf(g).value.username)
  {
  }

  /** A request `authorizeUser` admits is admitted by `requireAuth` too, for
      the same account id and e-mail. */
  lemma AuthorizeUserImpliesRequireAuth(allowedRoles: seq<string>, g: GateInput)
    requires AuthorizeUserChain(allowedRoles, g).Ok?
    ensures RequireAuthChain(g).Ok?
    ensures RequireAuthChain(g).value.userId == AuthorizeUserChain(allowedRoles, g).value.userId
    ensures RequireAuthChain(g).value.email == AuthorizeUserChain(allowedRoles, g).value.email
  {
  }

  // ---------------------------------------------------------------------
  // The middlewares

  /** A call of the `next` callback: `next()` or `next(error)`. */
  datatype NextCall = Next | NextWithError(error: GateError)

  /** A refused role, as written to the audit log. */
  datatype Denial = Denial(username: Option<string>, role: Option<string>)

  function NextFor(r: Result<ReqUser, GateError>): NextCall {
    match r
    case Ok(_) => Next
    case Err(e) => NextWithError(e)
  }

  /** The request object shared along the middleware chain. */
  class Request {
    const authorization: Option<string>
    var user: Option<ReqUser>
    var nextCalls: seq<NextCall>
    ghost var denials: seq<Denial>

    constructor (authorization: Option<string>)
      ensures this.authorization == authorization
      ensures user == None && nextCalls == [] && denials == []
    {
      this.authorization := authorization;
      user := None;
      nextCalls := [];
      denials := [];
    }

    /** The handler returned by `authorizeUser(allowedRoles)`: exactly one
        call of `next`, and `user` assigned only when access is granted. */
    method AuthorizeUser(allowedRoles: seq<string>, verify: string -> VerifyOutcome,
                         users: map<Id, UserRecord>, hooks: Hooks)
      modifies this
      ensures var r := AuthorizeUserChain(allowedRoles, GateInput(authorization, verify, users, hooks));
        && nextCalls == old(nextCalls) + [NextFor(r)]
        && user == (if r.Ok? then Some(r.value) else old(user))
      ensures var g := GateInput(authorization, verify, users, hooks);
        denials == old(denials) +
          (if AuthorizeUserChain(allowedRoles, g) == Err(Authorization(PermissionDenied))
           then [Denial(DataOf(g).value.username, DataOf(g).value.role)] else [])
    {
      var g := GateInput(authorization, verify, users, hooks);
      var r := AuthorizeUserChain(allowedRoles, g);
      match r {
        case Ok(identity) =>
          user := Some(identity);
          nextCalls := nextCalls + [Next];
        case Err(e) =>
          if e == Authorization(PermissionDenied) {
            AuthorizationOnlyAfterAuthentication(allowedRoles, g);
            denials := denials + [Denial(DataOf(g).value.username, DataOf(g).value.role)];
          }
          nextCalls := nextCalls + [NextWithError(e)];
      }
    }

    /** The `requireAuth` handler: exactly one call of `next`, and `user`
        assigned only when the request authenticates. */
    method RequireAuth(verify: string -> VerifyOutcome, users: map<Id, UserRecord>, hooks: Hooks)
      modifies this
      ensures var r := RequireAuthChain(GateInput(authorization, verify, users, hooks));
        && nextCalls == old(nextCalls) + [NextFor(r)]
        && user == (if r.Ok? then Some(r.value) else old(user))
      ensures denials == old(denials)
    {
      var r := RequireAuthChain(GateInput(authorization, verify, users, hooks));
      match r {
        case Ok(identity) =>
          user := Some(identity);
          nextCalls := nextCalls + [Next];
        case Err(e) =>
          nextCalls := nextCalls + [NextWithError(e)];
      }
    }
  }
}
