// The backend's account routes: registering, logging in, updating the
// profile and changing the password, each as the order of checks it makes
// and the reply it sends.  The database lookups, the hash comparison, the
// save and the signed token are parameters.  Body fields arrive as strings,
// an absent one as "".

module Auth {
  import opened Wrappers
  import opened Strings
  import opened Js
  import opened Express
  import opened UserModel

  const AllRequired := "All fields are required: " + "firstName, lastName, email, " + "phoneNumber, and password"
  const ShortPassword := "Password must be at least 6 characters"
  const UserExists := "User already exists" + " with this email"
  const EmailExists := "Email already exists"
  const CredentialsRequired := "Email and password are required"
  const InvalidCredentials := "Invalid credentials"
  const Deactivated := "Account is deactivated"
  const PasswordsRequired := "Current password and new" + " password are required"
  const ShortNewPassword := "New password must be at least" + " 6 characters"
  const WrongPassword := "Current password is incorrect"
  const PasswordUpdated := "Password updated successfully"

  /** `Validation failed: <messages joined by ", ">` */
  function ValidationFailed(errors: seq<string>): string
  {
    "Validation failed: " + Join(errors, ", ")
  }

  /** How saving a new user ended. */
  datatype SaveOutcome =
    | Saved(id: string)
    | DuplicateKey
    | SaveInvalid(errors: seq<string>)
    | SaveError(message: string)

  function PreferencesJson(p: Preferences): JsValue
  {
    Obj(map[
      "theme" := Str(p.theme),
      "language" := Str(p.language),
      "notifications" := Obj(map["email" := Bool(p.emailNotifications), "push" := Bool(p.pushNotifications)])])
  }

  function SubscriptionJson(u: User): JsValue
  {
    Obj(map["plan" := Str(u.plan), "isActive" := Bool(u.subscriptionActive)])
  }

  function UsageJson(n: Usage): JsValue
  {
    Obj(map[
      "documentsProcessed" := Num(n.documentsProcessed),
      "summariesGenerated" := Num(n.summariesGenerated),
      "quizzesGenerated" := Num(n.quizzesGenerated),
      "flashcardsGenerated" := Num(n.flashcardsGenerated)])
  }

  /** The members every reply's user has. */
  function ProfileJson(id: string, u: User): (r: map<string, JsValue>)
    ensures "id" in r && r["id"] == Str(id) && "email" in r && r["email"] == Str(u.email)
    ensures "fullName" in r && r["fullName"] == Str(FullName(u))
    ensures "preferences" in r && r["preferences"] == PreferencesJson(u.preferences)
    ensures "subscription" in r && r["subscription"] == SubscriptionJson(u)
    ensures "usage" !in r && "password" !in r
  {
    map[
      "id" := Str(id),
      "firstName" := Str(u.firstName),
      "lastName" := Str(u.lastName),
      "fullName" := Str(FullName(u)),
      "email" := Str(u.email),
      "phoneNumber" := Str(u.phoneNumber),
      "preferences" := PreferencesJson(u.preferences),
      "subscription" := SubscriptionJson(u)]
  }

  /**
   * The user as replies show it: registration lists the profile with its
   * preferences and subscription, a login adds the usage counters.
   */
  function UserJson(id: string, u: User, withUsage: bool): (r: JsValue)
    ensures Prop(r, "id") == Str(id) && Prop(r, "email") == Str(u.email) && Prop(r, "fullName") == Str(FullName(u))
    ensures Prop(r, "preferences") == PreferencesJson(u.preferences) && Prop(r, "subscription") == SubscriptionJson(u)
    ensures r.Obj? && ("usage" in r.fields <==> withUsage)
    ensures withUsage ==> Prop(r, "usage") == UsageJson(u.usage)
    ensures !("password" in r.fields)
  {
    var profile := ProfileJson(id, u);
    Obj(if withUsage then profile["usage" := UsageJson(u.usage)] else profile)
  }

  function Authenticated(status: nat, token: string, id: string, u: User, withUsage: bool): Response
  {
    Response(status, Obj(map["success" := Bool(true), "token" := Str(token), "user" := UserJson(id, u, withUsage)]))
  }

  // ---------------------------------------------------------------------------
  // Register
  // ---------------------------------------------------------------------------

  /**
   * The reply to a registration, and the user stored by it.  The checks come
   * in order: every field present, a password of six or more characters, an
   * email no user has, the schema's validation, then the save.
   */
  function Register(firstName: string, lastName: string, email: string, phoneNumber: string, password: string,
    emailTaken: bool, save: SaveOutcome, hash: string -> string, token: string): (r: (Response, Option<User>))
    ensures r.1.Some? <==> r.0.status == 201
    ensures r.0.status == 201 ==> r.1.value.password == hash(password)
  {
    var u := NewUser(firstName, lastName, email, phoneNumber, password);
    var refused := RegisterChecks(firstName, lastName, email, phoneNumber, password, emailTaken);
    if refused.Some? then (Fail(400, refused.value), None)
    else if Validate(u) != [] then (Fail(400, ValidationFailed(Validate(u))), None)
    else SaveReply(u, save, hash, token)
  }

  /** The route's own checks before the schema's, in order; the message of the first that fails. */
  function RegisterChecks(firstName: string, lastName: string, email: string, phoneNumber: string, password: string,
    emailTaken: bool): (r: Option<string>)
    ensures r.None? <==> (firstName != "" && lastName != "" && email != "" && phoneNumber != "" &&
      Utf16Length(password) >= 6 && !emailTaken)
  {
    if firstName == "" || lastName == "" || email == "" || phoneNumber == "" || password == "" then Some(AllRequired)
    else if Utf16Length(password) < 6 then Some(ShortPassword)
    else if emailTaken then Some(UserExists)
    else None
  }

  /** Three characters beyond U+FFFF are six UTF-16 code units: long enough. */
  lemma AstralPasswordLongEnough(firstName: string, lastName: string, email: string, phoneNumber: string)
    requires firstName != "" && lastName != "" && email != "" && phoneNumber != ""
    ensures RegisterChecks(firstName, lastName, email, phoneNumber, "\U{1F600}\U{1F600}\U{1F600}", false).None?
  {
    Utf16AstralCounts();
  }

  /** The reply once a valid user is saved, or how the save failed. */
  function SaveReply(u: User, save: SaveOutcome, hash: string -> string, token: string): (r: (Response, Option<User>))
    ensures r.1.Some? <==> r.0.status == 201
    ensures r.1.Some? ==> r.1.value == u.(password := hash(u.password))
    ensures save.DuplicateKey? ==> r == (Fail(400, EmailExists), None)
    ensures save.SaveInvalid? ==> r == (Fail(400, ValidationFailed(save.errors)), None)
  {
    match save
    case DuplicateKey => (Fail(400, EmailExists), None)
    case SaveInvalid(errors) => (Fail(400, ValidationFailed(errors)), None)
    case SaveError(message) => (FailWith(500, "Failed to register user", "message", Str(message)), None)
    case Saved(id) => (Authenticated(201, token, id, u, false), Some(u.(password := SavedPassword(u.password, true, hash))))
  }

  /** The first failing check decides the reply: a missing field before a short password before a taken email. */
  lemma RegisterOrder(firstName: string, lastName: string, email: string, phoneNumber: string, password: string,
    emailTaken: bool, save: SaveOutcome, hash: string -> string, token: string)
    ensures var r := Register(firstName, lastName, email, phoneNumber, password, emailTaken, save, hash, token).0;
      (firstName == "" || password == "" ==> r == Fail(400, AllRequired)) &&
      (firstName != "" && lastName != "" && email != "" && phoneNumber != "" && 0 < Utf16Length(password) < 6 ==>
        r == Fail(400, ShortPassword)) &&
      (firstName != "" && lastName != "" && email != "" && phoneNumber != "" && Utf16Length(password) >= 6 && emailTaken ==>
        r == Fail(400, UserExists))
  {
  }

  /** A user is stored only when every field is valid, and with the password's hash. */
  lemma RegisteredValid(firstName: string, lastName: string, email: string, phoneNumber: string, password: string,
    emailTaken: bool, save: SaveOutcome, hash: string -> string, token: string)
    requires Register(firstName, lastName, email, phoneNumber, password, emailTaken, save, hash, token).1.Some?
    ensures var u := Register(firstName, lastName, email, phoneNumber, password, emailTaken, save, hash, token).1.value;
      !emailTaken && save.Saved? && Utf16Length(password) >= PasswordMinLength &&
      MatchesEmail(u.email) && PhoneValid(u.phoneNumber) && |u.firstName| > 0 && |u.lastName| > 0 &&
      u == NewUser(firstName, lastName, email, phoneNumber, password).(password := hash(password))
  {
    var u := NewUser(firstName, lastName, email, phoneNumber, password);
    assert Validate(u) == [];
  }

  /** Past the checks and the schema's validation, the reply is the save's. */
  lemma RegisterSaves(firstName: string, lastName: string, email: string, phoneNumber: string, password: string,
    save: SaveOutcome, hash: string -> string, token: string)
    requires RegisterChecks(firstName, lastName, email, phoneNumber, password, false).None?
    requires Validate(NewUser(firstName, lastName, email, phoneNumber, password)) == []
    ensures Register(firstName, lastName, email, phoneNumber, password, false, save, hash, token) ==
      SaveReply(NewUser(firstName, lastName, email, phoneNumber, password), save, hash, token)
  {
  }

  // ---------------------------------------------------------------------------
  // Login
  // ---------------------------------------------------------------------------

  /**
   * The reply to a login for the user the email finds (if any); `compare` is
   * how comparing the candidate with the stored hash ended.
   */
  function Login(email: string, password: string, found: Option<(string, User)>, compare: Result<bool, string>,
    token: string): (r: Response)
    ensures r.status == 200 ==> found.Some? && ComparePassword(found.value.1.password, compare) == Ok(true)
    ensures r.status == 200 ==> found.value.1.isActive
  {
    if email == "" || password == "" then Fail(400, CredentialsRequired)
    else if found.None? then Fail(400, InvalidCredentials)
    else
      var (id, user) := found.value;
      match ComparePassword(user.password, compare)
      case Err(message) => FailWith(500, "Failed to login", "message", Str(message))
      case Ok(false) => Fail(400, InvalidCredentials)
      case Ok(true) =>
        if !user.isActive then Fail(400, Deactivated)
        else Authenticated(200, token, id, user, true)
  }

  /** An unknown email and a wrong password get the same reply, whether or not the account is active. */
  lemma LoginIndistinguishable(email: string, password: string, id: string, user: User, compare: Result<bool, string>,
    token: string)
    requires email != "" && password != ""
    requires ComparePassword(user.password, compare) == Ok(false)
    ensures Login(email, password, None, compare, token) == Login(email, password, Some((id, user)), compare, token)
    ensures Login(email, password, Some((id, user)), compare, token) ==
      Login(email, password, Some((id, user.(isActive := !user.isActive))), compare, token)
  {
  }

  /** Only a verified password learns that the account is deactivated. */
  lemma DeactivatedAfterPassword(email: string, password: string, found: Option<(string, User)>,
    compare: Result<bool, string>, token: string)
    ensures Login(email, password, found, compare, token) == Fail(400, Deactivated) <==>
      email != "" && password != "" && found.Some? && !found.value.1.isActive &&
      ComparePassword(found.value.1.password, compare) == Ok(true)
  {
  }

  // ---------------------------------------------------------------------------
  // Profile
  // ---------------------------------------------------------------------------

  const ProfileFields: set<string> := {"firstName", "lastName", "phoneNumber"}

  /**
   * The update a profile request makes: each truthy name or phone number
   * given, and truthy preferences merged over the current ones.
   */
  method ProfileUpdates(body: JsValue, current: map<string, JsValue>) returns (updates: map<string, JsValue>)
    ensures forall k :: k in updates <==> (k in ProfileFields || k == "preferences") && Truthy(Prop(body, k))
    ensures forall k :: k in ProfileFields && k in updates ==> updates[k] == Prop(body, k)
    ensures "preferences" in updates ==> updates["preferences"] == Obj(current + Spread(Prop(body, "preferences")))
  {
    updates := map[];
    if Truthy(Prop(body, "firstName")) {
      updates := updates["firstName" := Prop(body, "firstName")];
    }
    if Truthy(Prop(body, "lastName")) {
      updates := updates["lastName" := Prop(body, "lastName")];
    }
    if Truthy(Prop(body, "phoneNumber")) {
      updates := updates["phoneNumber" := Prop(body, "phoneNumber")];
    }
    var preferences := Prop(body, "preferences");
    if Truthy(preferences) {
      updates := updates["preferences" := Obj(current + Spread(preferences))];
    }
  }

  /** Merged preferences take each given key's new value and keep every other current key. */
  lemma PreferencesMerge(current: map<string, JsValue>, given: map<string, JsValue>, k: string)
    ensures k in given ==> (current + given)[k] == given[k]
    ensures k !in given && k in current ==> (current + given)[k] == current[k]
    ensures (current + given).Keys == current.Keys + given.Keys
  {
  }

  // ---------------------------------------------------------------------------
  // Change password
  // ---------------------------------------------------------------------------

  /** The reply to a password change, for the stored hash and how comparing and saving end. */
  function ChangePasswordReply(stored: string, currentPassword: string, newPassword: string,
    compare: Result<bool, string>, save: Result<(), string>): (r: Response)
    ensures r.status == 200 ==> ComparePassword(stored, compare) == Ok(true) && Utf16Length(newPassword) >= 6 && currentPassword != ""
    ensures r.status == 200 <==> (currentPassword != "" && Utf16Length(newPassword) >= 6 &&
      ComparePassword(stored, compare) == Ok(true) && save.Ok?)
  {
    if currentPassword == "" || newPassword == "" then Fail(400, PasswordsRequired)
    else if Utf16Length(newPassword) < 6 then Fail(400, ShortNewPassword)
    else match ComparePassword(stored, compare)
      case Err(message) => FailWith(500, "Failed to change password", "message", Str(message))
      case Ok(false) => Fail(400, WrongPassword)
      case Ok(true) =>
        if save.Err? then FailWith(500, "Failed to change password", "message", Str(save.error))
        else Json(Obj(map["success" := Bool(true), "message" := Str(PasswordUpdated)]))
  }

  /** The signed-in user's stored password. */
  class Account {
    var password: string

    constructor(password: string)
      ensures this.password == password
    {
      this.password := password;
    }

    /** A successful change stores the new password's hash; every other reply leaves the stored hash alone. */
    method ChangePassword(currentPassword: string, newPassword: string, compare: Result<bool, string>,
      save: Result<(), string>, hash: string -> string) returns (r: Response)
      modifies this
      ensures r == ChangePasswordReply(old(password), currentPassword, newPassword, compare, save)
      ensures password == if r.status == 200 then hash(newPassword) else old(password)
    {
      r := ChangePasswordReply(password, currentPassword, newPassword, compare, save);
      if r.status == 200 {
        password := SavedPassword(newPassword, true, hash);
      }
    }
  }

  /** A wrong current password, or a new one under six characters, is refused before anything is saved. */
  lemma ChangeRefused(stored: string, currentPassword: string, newPassword: string, compare: Result<bool, string>,
    save: Result<(), string>)
    requires currentPassword != "" && newPassword != ""
    ensures Utf16Length(newPassword) < 6 ==>
      (ChangePasswordReply(stored, currentPassword, newPassword, compare, save) == Fail(400, ShortNewPassword))
    ensures Utf16Length(newPassword) >= 6 && ComparePassword(stored, compare) == Ok(false) ==>
      (ChangePasswordReply(stored, currentPassword, newPassword, compare, save) == Fail(400, WrongPassword))
  {
  }
}
