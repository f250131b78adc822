/** The signup and login handlers over a user collection. `Controller`
    holds the collection and the two library functions it calls with
    no way to look inside them: password hashing and token signing. Each
    handler writes exactly one response, returned here as a `Response`.
    `SignupOutcome` and `LoginOutcome` state what the handlers do. The
    lemmas below them state what the handlers promise: the collection
    invariant is kept, signup inserts at most one record, and login never
    checks the password. */
module UserController {
  import opened Outcomes
  import opened UserModel
  import opened Tokens
  import AccessGate

  /** The cost factor passed to the password hash. */
  const SaltRounds: nat := 10

  const UsernameExists: string := "Username already exist"
  const UserCreated: string := "User Created Successfully!"
  const UserNotFound: string := "User not found"
  const PasswordIncorrect: string := "Password is incorrect!"
  const LoggedIn: string := "User logged in successfully"
  /** What the hashing library throws when the password is missing. */
  const HashArgumentsRequired: string := "data and salt arguments required"

  /** The request body members signup reads; a missing member is `None`. */
  datatype SignupBody = SignupBody(
    username: string,
    firstName: Option<string>,
    lastName: Option<string>,
    password: Option<string>,
    age: Option<int>)

  /** The request body members login reads. */
  datatype LoginBody = LoginBody(username: string, password: string)

  /** An exception caught by a handler's `catch`. */
  datatype Thrown =
    | HashFailed(message: string)
    | StoreFailed(error: CreateError)

  /** The JSON body of a response. `ThrownMessage(t)` is `{message: t.message}`. */
  datatype Body =
    | Message(message: string)
    | ThrownMessage(thrown: Thrown)
    | Created(message: string, id: Id, data: UserRecord)
    | TokenIssued(message: string, token: string)

  datatype Response = Response(status: int, body: Body)

  /** The value of `bcrypt.compare(...)` when it is not awaited: a pending Promise. */
  datatype Comparison = PendingPromise(password: string, hashed: string)

  /** JavaScript truthiness of that value: a Promise is an object, and every object is truthy. */
  predicate Truthy(c: Comparison) {
    c.PendingPromise?
  }

  /** What `bcrypt.hash` promises of its result: a non-empty hash string. */
  ghost predicate NonEmptyHashes(hash: (string, nat) -> string) {
    forall p, n :: hash(p, n) != ""
  }

  /** `bcrypt.hash(password, 10)`: throws when the password is missing. */
  function HashPassword(hash: (string, nat) -> string, password: Option<string>): Result<string, Thrown> {
    match password
    case None => Err(HashFailed(HashArgumentsRequired))
    case Some(p) => Ok(hash(p, SaltRounds))
  }

  /** The fields signup hands to the store: no role, the hashed password. */
  function SignupFields(body: SignupBody, hashed: string): UserFields {
    UserFields(body.username, body.firstName, body.lastName, body.age, None, hashed)
  }

  /** What signup answers and what the collection becomes. */
  function SignupOutcome(users: map<Id, UserRecord>, hash: (string, nat) -> string, body: SignupBody, newId: Id)
    : (Response, map<Id, UserRecord>)
  {
    if UsernameTaken(users, body.username) then (Response(400, Message(UsernameExists)), users)
    else match HashPassword(hash, body.password)
      case Err(thrown) => (Response(400, ThrownMessage(thrown)), users)
      case Ok(hashed) =>
        match Create(users, SignupFields(body, hashed))
        case Err(e) => (Response(400, ThrownMessage(StoreFailed(e))), users)
        case Ok(record) => (Response(200, Created(UserCreated, newId, record)), users[newId := record])
  }

  /** What login answers. The password plays no part: its check cannot fail. */
  function LoginOutcome(users: map<Id, UserRecord>, sign: (Payload, string, int) -> string, body: LoginBody, now: int)
    : Response
  {
    if !UsernameTaken(users, body.username) then Response(404, Message(UserNotFound))
    else Response(200, TokenIssued(LoggedIn, sign(LoginPayload(body.username), OneDay, now)))
  }

  /** The payload login signs: `{username}` and nothing else. */
  function LoginPayload(username: string): (p: Payload)
    ensures p.data.None?
    ensures p.username == Some(username)
  {
    Payload(None, Some(username))
  }

  // ---------------------------------------------------------------------
  // Signup

  /** A username that is already stored is refused with 400 before any
      hashing, and the collection is left as it was. */
  lemma SignupDuplicateRejected(users: map<Id, UserRecord>, hash: (string, nat) -> string, body: SignupBody, newId: Id)
    requires UsernameTaken(users, body.username)
    ensures SignupOutcome(users, hash, body, newId) == (Response(400, Message(UsernameExists)), users)
  {
  }

  /** Signup succeeds exactly when the username is free, a password is
      given and the fields pass the schema; it then answers 200 with the
      created record, which holds the hashed password and the role User. */
  lemma SignupSuccess(users: map<Id, UserRecord>, hash: (string, nat) -> string, body: SignupBody, newId: Id)
    ensures SignupOutcome(users, hash, body, newId).0.status == 200 <==>
      && !UsernameTaken(users, body.username)
      && body.password.Some?
      && FieldsConform(SignupFields(body, hash(body.password.value, SaltRounds)))
    ensures SignupOutcome(users, hash, body, newId).0.status == 200 ==>
      var record := UserRecord(body.username, body.firstName, body.lastName, body.age, User,
                               hash(body.password.value, SaltRounds));
      && SignupOutcome(users, hash, body, newId) == (Response(200, Created(UserCreated, newId, record)), users[newId := record])
  {
  }

  /** A failed signup answers 400 and leaves the collection unchanged. */
  lemma SignupFailureLeavesStore(users: map<Id, UserRecord>, hash: (string, nat) -> string, body: SignupBody, newId: Id)
    ensures SignupOutcome(users, hash, body, newId).0.status in {200, 400}
    ensures SignupOutcome(users, hash, body, newId).0.status != 200 ==>
      SignupOutcome(users, hash, body, newId).1 == users
  {
  }

  /** A signup that throws answers 400 with the thrown error as its message:
      the hashing error when no password is given, the store's validation
      error when the fields fail the schema. */
  lemma SignupThrownFailure(users: map<Id, UserRecord>, hash: (string, nat) -> string, body: SignupBody, newId: Id)
    requires !UsernameTaken(users, body.username)
    ensures body.password.None? ==>
      SignupOutcome(users, hash, body, newId) == (Response(400, ThrownMessage(HashFailed(HashArgumentsRequired))), users)
    ensures body.password.Some? && Validate(SignupFields(body, hash(body.password.value, SaltRounds))).Err? ==>
      SignupOutcome(users, hash, body, newId) ==
        (Response(400, ThrownMessage(StoreFailed(ValidationFailed(
           Validate(SignupFields(body, hash(body.password.value, SaltRounds))).error)))), users)
  {
  }

  /** No password rule applies: with a real hash, a free non-empty username,
      any given password (the empty one included) and absent or well-formed
      names, signup answers 200. */
  lemma SignupAcceptsAnyPassword(users: map<Id, UserRecord>, hash: (string, nat) -> string, body: SignupBody, newId: Id)
    requires NonEmptyHashes(hash)
    requires !UsernameTaken(users, body.username) && body.username != ""
    requires body.password.Some?
    requires body.firstName.Some? ==> WellFormedName(body.firstName.value)
    requires body.lastName.Some? ==> WellFormedName(body.lastName.value)
    ensures SignupOutcome(users, hash, body, newId).0.status == 200
    ensures SignupOutcome(users, hash, body, newId).1.Keys == users.Keys + {newId}
  {
    assert hash(body.password.value, SaltRounds) != "";
  }

  /** Signup adds at most one record, under the new id, and changes no other. */
  lemma SignupAddsAtMostOne(users: map<Id, UserRecord>, hash: (string, nat) -> string, body: SignupBody, newId: Id)
    requires newId !in users
    ensures var users' := SignupOutcome(users, hash, body, newId).1;
      && users'.Keys - {newId} == users.Keys
      && (forall id :: id in users ==> users'[id] == users[id])
      && |users'| <= |users| + 1
  {
    var users' := SignupOutcome(users, hash, body, newId).1;
    if users' != users {
      assert users'.Keys == users.Keys + {newId};
    }
  }

  /** Signup keeps the collection's invariant: every record passes the
      schema and no two records share a username. */
  lemma SignupPreservesInvariant(users: map<Id, UserRecord>, hash: (string, nat) -> string, body: SignupBody, newId: Id)
    requires StoreInvariant(users)
    requires newId !in users
    ensures StoreInvariant(SignupOutcome(users, hash, body, newId).1)
  {
    if !UsernameTaken(users, body.username) && body.password.Some? {
      var fields := SignupFields(body, hash(body.password.value, SaltRounds));
      if Create(users, fields).Ok? {
        CreatePreservesInvariant(users, fields, newId);
      }
    }
  }

  /** The store's duplicate-key refusal is unreachable from signup: the
      pre-check has already refused every username the index would. */
  lemma SignupNeverHitsDuplicateKey(users: map<Id, UserRecord>, hash: (string, nat) -> string, body: SignupBody, newId: Id)
    ensures var body' := SignupOutcome(users, hash, body, newId).0.body;
      !(body'.ThrownMessage? && body'.thrown.StoreFailed? && body'.thrown.error.DuplicateKey?)
  {
  }

  // ---------------------------------------------------------------------
  // Login

  /** An unknown username is answered 404 with no token. */
  lemma LoginUnknownUser(users: map<Id, UserRecord>, sign: (Payload, string, int) -> string, body: LoginBody, now: int)
    requires !UsernameTaken(users, body.username)
    ensures LoginOutcome(users, sign, body, now) == Response(404, Message(UserNotFound))
  {
  }

  /** A known username is answered 200 "User logged in successfully" with
      a token signed from `{username}` for one day, and no user record. */
  lemma LoginSuccess(users: map<Id, UserRecord>, sign: (Payload, string, int) -> string, body: LoginBody, now: int)
    requires UsernameTaken(users, body.username)
    ensures LoginOutcome(users, sign, body, now) ==
      Response(200, TokenIssued(LoggedIn, sign(LoginPayload(body.username), OneDay, now)))
  {
  }

  /** Any password logs a known username in: the answer never depends on
      the password, and "Password is incorrect!" is never sent. */
  lemma LoginIgnoresPassword(users: map<Id, UserRecord>, sign: (Payload, string, int) -> string,
                             username: string, p1: string, p2: string, now: int)
    ensures LoginOutcome(users, sign, LoginBody(username, p1), now) == LoginOutcome(users, sign, LoginBody(username, p2), now)
    ensures LoginOutcome(users, sign, LoginBody(username, p1), now) != Response(400, Message(PasswordIncorrect))
    ensures UsernameTaken(users, username) ==> LoginOutcome(users, sign, LoginBody(username, p1), now).status == 200
  {
  }

  /** A login token carries no `data`, so either gate refuses it with
      "Invalid token structure" once it is verified, whatever the allowed
      roles, the stored accounts and the account members. */
  lemma LoginTokenRejectedByGates(users: map<Id, UserRecord>, sign: (Payload, string, int) -> string, body: LoginBody,
                                  now: int, verify: string -> VerifyOutcome, allowedRoles: seq<string>,
                                  gateUsers: map<Id, UserRecord>, hooks: AccessGate.Hooks)
    requires LoginOutcome(users, sign, body, now).body.TokenIssued?
    requires ' ' !in LoginOutcome(users, sign, body, now).body.token
    requires LoginOutcome(users, sign, body, now).body.token != ""
    requires verify(LoginOutcome(users, sign, body, now).body.token) == Verified(SignedClaims(LoginPayload(body.username), now))
    ensures var g := AccessGate.GateInput(Some(AccessGate.BearerPrefix + LoginOutcome(users, sign, body, now).body.token),
                                          verify, gateUsers, hooks);
      && AccessGate.AuthorizeUserChain(allowedRoles, g) == Err(AccessGate.Authentication(AccessGate.InvalidTokenStructure))
      && AccessGate.RequireAuthChain(g) == Err(AccessGate.Authentication(AccessGate.InvalidTokenStructure))
  {
    AccessGate.BearerTokenOfIssued(LoginOutcome(users, sign, body, now).body.token);
  }

  // ---------------------------------------------------------------------
  // The handlers

  class Controller {
    const hash: (string, nat) -> string
    const sign: (Payload, string, int) -> string
    var users: map<Id, UserRecord>

    ghost predicate Valid()
      reads this
    {
      StoreInvariant(users) && NonEmptyHashes(hash)
    }

    constructor (hash: (string, nat) -> string, sign: (Payload, string, int) -> string, users: map<Id, UserRecord>)
      requires StoreInvariant(users)
      requires NonEmptyHashes(hash)
      ensures Valid()
      ensures this.hash == hash && this.sign == sign && this.users == users
    {
      this.hash := hash;
      this.sign := sign;
      this.users := users;
    }

    /** `UserModel.findOne({username})`: the record with that username, if any. */
    method FindOne(username: string) returns (found: Option<UserRecord>)
      ensures found.Some? <==> UsernameTaken(users, username)
      ensures found.Some? ==> found.value.username == username && found.value in users.Values
    {
      if UsernameTaken(users, username) {
        var id :| id in users && users[id].username == username;
        found := Some(users[id]);
      } else {
        found := None;
      }
    }

    /** The signup handler. `newId` is the id the store gives a new document. */
    method Signup(body: SignupBody, newId: Id) returns (res: Response)
      requires Valid()
      requires newId !in users
      modifies this
      ensures Valid()
      ensures (res, users) == SignupOutcome(old(users), hash, body, newId)
    {
      var user := FindOne(body.username);
      if user.Some? {
        return Response(400, Message(UsernameExists));
      }
      var hashed := HashPassword(hash, body.password);
      if hashed.Err? {
        return Response(400, ThrownMessage(hashed.error));
      }
      var created := Create(users, SignupFields(body, hashed.value));
      if created.Err? {
        return Response(400, ThrownMessage(StoreFailed(created.error)));
      }
      CreatePreservesInvariant(users, SignupFields(body, hashed.value), newId);
      users := users[newId := created.value];
      res := Response(200, Created(UserCreated, newId, created.value));
    }

    /** The login handler; `now` is the clock reading that becomes the token's `iat`. */
    method Login(body: LoginBody, now: int) returns (res: Response)
      ensures res == LoginOutcome(users, sign, body, now)
    {
      var user := FindOne(body.username);
      if user.None? {
        return Response(404, Message(UserNotFound));
      }
      var passwordComparingResult := PendingPromise(body.password, user.value.password);
      if !Truthy(passwordComparingResult) {
        return Response(400, Message(PasswordIncorrect));
      }
      var token := sign(LoginPayload(body.username), OneDay, now);
      res := Response(200, TokenIssued(LoggedIn, token));
    }
  }
}
