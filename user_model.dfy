/** The user schema: the two name validators, the role enumeration with its
    default, the required fields, and the unique index on `username`. A
    document store is a map from document id to record; `Create` is what the
    store does with a new document (validate it, then insert it unless the
    unique index refuses it). */
module UserModel {
  import opened Outcomes

  /** A document id (an ObjectId in the store). */
  type Id = string

  /** The closed enumeration of the `role` path. */
  datatype Role = User | Admin

  const DefaultRole: Role := User

  const FirstNameMessage: string := "First Name should only contain alphabetic characters and spaces"
  const LastNameMessage: string := "Last Name should only contain alphabetic characters and spaces"
  const UsernameRequiredMessage: string := "UserName is a required field"
  /** The store's default message for a `required: true` path without its own message. */
  const PasswordRequiredMessage: string := "Path `password` is required."

  function RoleName(r: Role): string {
    match r
    case User => "User"
    case Admin => "Admin"
  }

  /** The enum check of the `role` path: only the two names are accepted. */
  function ParseRole(s: string): (r: Option<Role>)
    ensures r.Some? <==> s == "User" || s == "Admin"
    ensures r.Some? ==> RoleName(r.value) == s
  {
    if s == "User" then Some(User)
    else if s == "Admin" then Some(Admin)
    else None
  }

  /** The store's default message for a value outside an enumeration. */
  function EnumMessage(value: string, path: string): string {
    "`" + value + "` is not a valid enum value for path `" + path + "`."
  }

  // ---------------------------------------------------------------------
  // The name validators

  /** Membership in the character class `[a-zA-Z ]`. */
  predicate IsNameChar(c: char) {
    ('a' <= c <= 'z') || ('A' <= c <= 'Z') || c == ' '
  }

  /** The declarative reading of the validator: every character is a letter
      of the basic Latin alphabet or a space. */
  ghost predicate WellFormedName(s: string) {
    forall i :: 0 <= i < |s| ==> IsNameChar(s[i])
  }

  /** `/[^a-zA-Z ]/.test(s)`: the regular expression searches `s` for one
      character outside the class. */
  function ContainsForbidden(s: string): bool {
    if s == [] then false
    else !IsNameChar(s[0]) || ContainsForbidden(s[1..])
  }

  /** The validator shared by `firstName` and `lastName`. */
  predicate NameValidator(value: string) {
    !ContainsForbidden(value)
  }

  /** The validator accepts a name exactly when every character is in the class. */
  lemma {:induction false} NameValidatorIff(value: string)
    ensures NameValidator(value) <==> WellFormedName(value)
  {
    if value != [] {
      NameValidatorIff(value[1..]);
      if WellFormedName(value) {
        assert forall i :: 0 <= i < |value[1..]| ==> value[1..][i] == value[i + 1];
      }
      if NameValidator(value) {
        forall i | 0 <= i < |value|
          ensures IsNameChar(value[i])
        {
          if i > 0 {
            assert value[i] == value[1..][i - 1];
          }
        }
      }
    }
  }

  /** The empty name and a two-word name pass; a digit, a hyphen, an
      apostrophe and an accented letter are each refused. */
  lemma NameValidatorExamples()
    ensures NameValidator("")
    ensures NameValidator("Mary Ann")
    ensures !NameValidator("R2")
    ensures !NameValidator("Anne-Marie")
    ensures !NameValidator("O'Brien")
    ensures !NameValidator("José")
  {
    NameValidatorIff("Mary Ann");
    NameValidatorIff("R2");
    assert !IsNameChar("R2"[1]);
    NameValidatorIff("Anne-Marie");
    assert !IsNameChar("Anne-Marie"[4]);
    NameValidatorIff("O'Brien");
    assert !IsNameChar("O'Brien"[1]);
    NameValidatorIff("José");
    assert !IsNameChar("José"[3]);
  }

  // ---------------------------------------------------------------------
  // Documents and validation

  /** The fields handed to the store when a document is created. A path
      that is absent (`undefined`) is `None`. */
  datatype UserFields = UserFields(
    username: string,
    firstName: Option<string>,
    lastName: Option<string>,
    age: Option<int>,
    role: Option<string>,
    password: string)

  /** A stored user document. */
  datatype UserRecord = UserRecord(
    username: string,
    firstName: Option<string>,
    lastName: Option<string>,
    age: Option<int>,
    role: Role,
    password: string)

  /** One refused path, with the message the schema attaches to it. */
  datatype FieldFailure = FieldFailure(path: string, message: string)

  /** Why the store refused to create a document. */
  datatype CreateError =
    | ValidationFailed(failures: seq<FieldFailure>)
    | DuplicateKey(username: string)

  /** The schema's constraints on a set of fields, stated declaratively:
      validators run only on present names, the role is in the enumeration,
      and the required strings are non-empty. */
  ghost predicate FieldsConform(f: UserFields) {
    && (f.firstName.Some? ==> WellFormedName(f.firstName.value))
    && (f.lastName.Some? ==> WellFormedName(f.lastName.value))
    && (f.role.Some? ==> f.role.value == "User" || f.role.value == "Admin")
    && f.username != ""
    && f.password != ""
  }

  /** The same constraints on a stored document. */
  ghost predicate Conforms(r: UserRecord) {
    && (r.firstName.Some? ==> WellFormedName(r.firstName.value))
    && (r.lastName.Some? ==> WellFormedName(r.lastName.value))
    && r.username != ""
    && r.password != ""
  }

  function NameFailures(value: Option<string>, path: string, message: string): seq<FieldFailure> {
    if value.Some? && !NameValidator(value.value) then [FieldFailure(path, message)] else []
  }

  /** The name validator's verdict on an optional name, in the declarative reading. */
  lemma NameFailuresSpec(value: Option<string>, path: string, message: string)
    ensures NameFailures(value, path, message) == [] <==> (value.Some? ==> WellFormedName(value.value))
  {
    if value.Some? { NameValidatorIff(value.value); }
  }

  function RoleFailures(role: Option<string>): seq<FieldFailure> {
    if role.Some? && ParseRole(role.value).None? then [FieldFailure("role", EnumMessage(role.value, "role"))] else []
  }

  /** A required string path is refused when missing or empty. */
  function RequiredFailures(value: string, path: string, message: string): seq<FieldFailure> {
    if value == "" then [FieldFailure(path, message)] else []
  }

  /** Validation of a new document: every validator runs and every failure
      is collected (the order of the list is not significant). On success
      the document is built, with the default role when none was given. */
  function Validate(f: UserFields): (r: Result<UserRecord, seq<FieldFailure>>)
    ensures r.Ok? <==> FieldsConform(f)
    ensures r.Ok? ==> Conforms(r.value)
    ensures r.Ok? ==> && r.value.username == f.username && r.value.firstName == f.firstName
                      && r.value.lastName == f.lastName && r.value.age == f.age
                      && r.value.password == f.password
                      && RoleName(r.value.role) == (if f.role.Some? then f.role.value else "User")
    ensures r.Err? ==> r.error != []
    ensures r.Err? ==> forall k :: 0 <= k < |r.error| ==>
      r.error[k].path in {"firstName", "lastName", "role", "username", "password"}
  {
    NameFailuresSpec(f.firstName, "firstName", FirstNameMessage);
    NameFailuresSpec(f.lastName, "lastName", LastNameMessage);
    var failures :=
      NameFailures(f.firstName, "firstName", FirstNameMessage)
      + NameFailures(f.lastName, "lastName", LastNameMessage)
      + RoleFailures(f.role)
      + RequiredFailures(f.username, "username", UsernameRequiredMessage)
      + RequiredFailures(f.password, "password", PasswordRequiredMessage);
    if failures != [] then Err(failures)
    else
      var role := if f.role.Some? then ParseRole(f.role.value).value else DefaultRole;
      Ok(UserRecord(f.username, f.firstName, f.lastName, f.age, role, f.password))
  }

  /** A refused first name is reported under its own path and message. */
  lemma FirstNameFailureMessage(f: UserFields)
    requires f.firstName.Some? && !WellFormedName(f.firstName.value)
    ensures Validate(f).Err?
    ensures FieldFailure("firstName", FirstNameMessage) in Validate(f).error
  {
    NameValidatorIff(f.firstName.value);
  }

  /** A refused last name is reported under its own path and message. */
  lemma LastNameFailureMessage(f: UserFields)
    requires f.lastName.Some? && !WellFormedName(f.lastName.value)
    ensures Validate(f).Err?
    ensures FieldFailure("lastName", LastNameMessage) in Validate(f).error
  {
    NameValidatorIff(f.lastName.value);
    if f.firstName.Some? { NameValidatorIff(f.firstName.value); }
    var nf := NameFailures(f.firstName, "firstName", FirstNameMessage);
    assert Validate(f).error[|nf|] == FieldFailure("lastName", LastNameMessage);
  }

  // ---------------------------------------------------------------------
  // The store

  /** `findOne({username})` finds a document. */
  predicate UsernameTaken(users: map<Id, UserRecord>, name: string) {
    exists id | id in users :: users[id].username == name
  }

  /** The unique index: no two documents share a username. */
  ghost predicate UniqueUsernames(users: map<Id, UserRecord>) {
    forall a, b :: a in users && b in users && users[a].username == users[b].username ==> a == b
  }

  /** What every stored collection satisfies. */
  ghost predicate StoreInvariant(users: map<Id, UserRecord>) {
    && (forall id :: id in users ==> Conforms(users[id]))
    && UniqueUsernames(users)
  }

  /** `UserModel.create(fields)`: validate, then let the unique index refuse
      a username that is already stored. The caller inserts the record. */
  function Create(users: map<Id, UserRecord>, f: UserFields): (r: Result<UserRecord, CreateError>)
    ensures r.Ok? <==> FieldsConform(f) && !UsernameTaken(users, f.username)
    ensures r.Err? && r.error.DuplicateKey? ==> FieldsConform(f) && UsernameTaken(users, f.username)
    ensures r.Ok? ==> Conforms(r.value) && r.value.username == f.username
  {
    match Validate(f)
    case Err(failures) => Err(ValidationFailed(failures))
    case Ok(record) =>
      if UsernameTaken(users, record.username) then Err(DuplicateKey(record.username))
      else Ok(record)
  }

  /** A document created without a role gets the default role. */
  lemma CreateDefaultsRole(users: map<Id, UserRecord>, f: UserFields)
    requires f.role.None?
    requires Create(users, f).Ok?
    ensures Create(users, f).value.role == User
  {
  }

  /** Inserting a created record under a fresh id keeps the store's invariant. */
  lemma CreatePreservesInvariant(users: map<Id, UserRecord>, f: UserFields, id: Id)
    requires StoreInvariant(users)
    requires id !in users
    requires Create(users, f).Ok?
    ensures StoreInvariant(users[id := Create(users, f).value])
  {
    var r := Create(users, f).value;
    assert forall b :: b in users ==> users[b].username != r.username;
  }
}
