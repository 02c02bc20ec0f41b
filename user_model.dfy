// The stored user: how the schema cleans and checks its fields, its
// defaults, the full name, the password comparison and the hashing before a
// save.  Hashing and comparing hashes belong to a library and are
// parameters: `hash` computes a stored hash, `compare` is the outcome of
// comparing a candidate with one.

module UserModel {
  import opened Wrappers
  import opened Strings

  // ---------------------------------------------------------------------------
  // Email
  // ---------------------------------------------------------------------------

  predicate NoBlank(s: string)
  {
    forall k :: 0 <= k < |s| ==> !IsJsWhitespace(s[k])
  }

  /**
   * `/^\S+@\S+\.\S+$/`: no blank anywhere, and an "@" that is not first,
   * followed at least one character later by a "." that is not last.
   */
  predicate MatchesEmail(s: string)
  {
    NoBlank(s) && exists i, j :: 0 < i && i + 1 < j && j + 1 < |s| && s[i] == '@' && s[j] == '.'
  }

  /** The first index at or after `from` holding `c`. */
  function IndexFrom(s: string, c: char, from: nat): (r: Option<nat>)
    ensures r.Some? ==> from <= r.value < |s| && s[r.value] == c
    ensures r.Some? ==> forall k :: from <= k < r.value ==> s[k] != c
    ensures r.None? ==> forall k :: from <= k < |s| ==> s[k] != c
    decreases |s| - from
  {
    if from >= |s| then None
    else if s[from] == c then Some(from)
    else IndexFrom(s, c, from + 1)
  }

  /** The check as one pass can make it: the first "@" after the start, and the last "." before the end. */
  predicate EmailValid(s: string)
  {
    NoBlank(s) && |s| > 0 &&
    var at := IndexFrom(s, '@', 1);
    var dot := LastIndexOf(s[..|s| - 1], '.');
    at.Some? && dot.Some? && at.value + 1 < dot.value
  }

  /** The one-pass check accepts exactly the addresses the pattern matches. */
  lemma EmailValidMatches(s: string)
    ensures EmailValid(s) <==> MatchesEmail(s)
  {
    if EmailValid(s) {
      var i := IndexFrom(s, '@', 1).value;
      var j := LastIndexOf(s[..|s| - 1], '.').value;
      assert s[j] == s[..|s| - 1][j];
    }
    if MatchesEmail(s) {
      var i, j :| 0 < i && i + 1 < j && j + 1 < |s| && s[i] == '@' && s[j] == '.';
      var t := s[..|s| - 1];
      assert t[j] == '.';
      var at := IndexFrom(s, '@', 1);
      var dot := LastIndexOf(t, '.');
      assert at.Some? && at.value <= i;
      assert dot.Some? && dot.value >= j;
    }
  }

  // ---------------------------------------------------------------------------
  // Phone number
  // ---------------------------------------------------------------------------

  /** `/^\+?[1-9]\d{1,14}$/`: an optional "+", then 2 to 15 digits, the first not 0. */
  predicate PhoneValid(s: string)
  {
    PhoneDigits(if |s| > 0 && s[0] == '+' then s[1..] else s)
  }

  /** `[1-9]\d{1,14}` */
  predicate PhoneDigits(d: string)
  {
    2 <= |d| <= 15 && '1' <= d[0] <= '9' && forall k :: 0 <= k < |d| ==> IsDigit(d[k])
  }

  /**
   * A number is valid with or without its "+", and it then has at most the
   * fifteen digits of an international number in ITU-T Recommendation
   * E.164, clause 6.
   */
  lemma PhoneForms(d: string)
    requires |d| == 0 || d[0] != '+'
    ensures PhoneValid("+" + d) <==> PhoneValid(d)
    ensures PhoneValid(d) ==> 2 <= |d| <= 15 && d[0] != '0'
    ensures PhoneValid("+" + d) ==> |"+" + d| <= 16
  {
    var s := "+" + d;
    assert s[0] == '+' && s[1..] == d;
    assert |d| > 0 ==> d[0] != '+';
  }

  // ---------------------------------------------------------------------------
  // The record
  // ---------------------------------------------------------------------------

  datatype Preferences = Preferences(theme: string, language: string, emailNotifications: bool, pushNotifications: bool)

  datatype User = User(
    firstName: string,
    lastName: string,
    email: string,
    phoneNumber: string,
    password: string,
    avatar: string,
    preferences: Preferences,
    plan: string,
    subscriptionActive: bool,
    usage: Usage,
    isActive: bool)

  /** The usage counters; `lastActive` is a clock value and is not part of this model. */
  datatype Usage = Usage(documentsProcessed: nat, summariesGenerated: nat, quizzesGenerated: nat, flashcardsGenerated: nat)

  const DefaultPreferences := Preferences("dark", "en", true, true)
  const NoUsage := Usage(0, 0, 0, 0)

  /**
   * A new user as the schema builds it from the given fields: names and
   * phone number trimmed, the email trimmed and lower-cased, everything else
   * at its default.
   */
  function NewUser(firstName: string, lastName: string, email: string, phoneNumber: string, password: string): (u: User)
    ensures u.password == password && u.email == Lower(JsTrim(email))
    ensures u.preferences == DefaultPreferences && u.plan == "free" && u.subscriptionActive && u.isActive && u.avatar == ""
    ensures u.usage == NoUsage
  {
    User(JsTrim(firstName), JsTrim(lastName), Lower(JsTrim(email)), JsTrim(phoneNumber), password,
      "", DefaultPreferences, "free", true, NoUsage, true)
  }

  /** The virtual `fullName`. */
  function FullName(u: User): (r: string)
    ensures |r| == |u.firstName| + 1 + |u.lastName|
    ensures r[..|u.firstName|] == u.firstName && r[|u.firstName|] == ' ' && r[|u.firstName| + 1..] == u.lastName
  {
    u.firstName + " " + u.lastName
  }

  const PasswordMinLength: nat := 6
  const InvalidEmail := "Please provide a valid email"
  const InvalidPhone := "Please provide a valid phone number" + " (E.164 format recommended: +919876543210)"

  function Required(path: string): string
  {
    "Path `" + path + "` is required."
  }

  function TooShort(value: string): string
  {
    "Path `password` (`" + value + "`) is shorter than the minimum allowed length (6)."
  }

  /** Each path's failure, if any: a required field that is empty, then its pattern or length. */
  function PathError(value: string, path: string, check: Option<(bool, string)>): seq<string>
  {
    if |value| == 0 then [Required(path)]
    else if check.Some? && !check.value.0 then [check.value.1]
    else []
  }

  /** The messages validation fails with, in the schema's order of fields; empty when the user is valid. */
  function Validate(u: User): (errors: seq<string>)
    ensures errors == [] <==>
      |u.firstName| > 0 && |u.lastName| > 0 && MatchesEmail(u.email) && PhoneValid(u.phoneNumber) &&
      Utf16Length(u.password) >= PasswordMinLength
  {
    EmailValidMatches(u.email);
    PathError(u.firstName, "firstName", None) +
    PathError(u.lastName, "lastName", None) +
    PathError(u.email, "email", Some((EmailValid(u.email), InvalidEmail))) +
    PathError(u.phoneNumber, "phoneNumber", Some((PhoneValid(u.phoneNumber), InvalidPhone))) +
    PathError(u.password, "password", Some((Utf16Length(u.password) >= PasswordMinLength, TooShort(u.password))))
  }

  /** A name of blanks passes a truthiness test but is empty once trimmed, so it fails as missing. */
  lemma BlankNameRequired(firstName: string, lastName: string, email: string, phoneNumber: string, password: string)
    requires All(firstName, IsJsWhitespace)
    ensures Validate(NewUser(firstName, lastName, email, phoneNumber, password))[0] == Required("firstName")
  {
    StripEmptyIffBlank(firstName, IsJsWhitespace);
  }

  // ---------------------------------------------------------------------------
  // Passwords
  // ---------------------------------------------------------------------------

  /** `comparePassword`: false without a stored password, otherwise the library's comparison. */
  function ComparePassword(stored: string, compare: Result<bool, string>): (r: Result<bool, string>)
    ensures stored == "" ==> r == Ok(false)
    ensures stored != "" ==> r == compare
  {
    if stored == "" then Ok(false) else compare
  }

  /** The password stored by a save: hashed when it was changed, kept as it is otherwise. */
  function SavedPassword(password: string, modified: bool, hash: string -> string): (r: string)
    ensures !modified ==> r == password
    ensures modified ==> r == hash(password)
  {
    if modified then hash(password) else password
  }

  /** Saving twice without a change in between hashes only once. */
  lemma HashOnce(password: string, hash: string -> string)
    ensures SavedPassword(SavedPassword(password, true, hash), false, hash) == hash(password)
  {
  }
}
