// The profile icon's avatar: the initials it shows and the background
// colour it picks for the signed-in user.

module ProfileIcon {
  import opened Wrappers
  import opened Strings
  import opened Js

  const Colors: seq<string> := [
    "bg-gradient-to-br from-purple-500" + " to-purple-700",
    "bg-gradient-to-br from-blue-500" + " to-blue-700",
    "bg-gradient-to-br from-green-500" + " to-green-700",
    "bg-gradient-to-br from-red-500" + " to-red-700",
    "bg-gradient-to-br from-yellow-500" + " to-yellow-700",
    "bg-gradient-to-br from-pink-500" + " to-pink-700",
    "bg-gradient-to-br from-indigo-500" + " to-indigo-700",
    "bg-gradient-to-br from-teal-500" + " to-teal-700"]

  /** `s.charAt(0).toUpperCase()`: the first character, upper-cased, or "" for an empty string. */
  function FirstUpper(s: string): (r: string)
    ensures |r| == if |s| == 0 then 0 else 1
    ensures |s| > 0 ==> r[0] == UpperChar(s[0])
  {
    Upper(Prefix(s, 1))
  }

  /**
   * The initials: "U" without a user; otherwise the first name's initial (or
   * "U" when it has none) followed by the last name's, if any.  `None` is a
   * TypeError: a truthy name that is not a string.
   */
  function Initials(user: JsValue): (r: Option<string>)
    ensures !Truthy(user) ==> r == Some("U")
    ensures r.Some? ==> 1 <= |r.value| <= 2
  {
    if !Truthy(user) then Some("U")
    else
      var first := Or(Prop(user, "firstName"), Str(""));
      var last := Or(Prop(user, "lastName"), Str(""));
      if !first.Str? || !last.Str? then None
      else
        var firstInitial := if |FirstUpper(first.s)| > 0 then FirstUpper(first.s) else "U";
        Some(firstInitial + FirstUpper(last.s))
  }

  /** The initials start from the first name's first letter, or "U", and end with the last name's first letter. */
  lemma InitialsShape(user: JsValue, first: string, last: string)
    requires Truthy(user)
    requires Prop(user, "firstName") == Str(first) && Prop(user, "lastName") == Str(last)
    ensures Initials(user).Some?
    ensures Initials(user).value[0] == if |first| > 0 then UpperChar(first[0]) else 'U'
    ensures |Initials(user).value| == 2 <==> |last| > 0
    ensures |last| > 0 ==> Initials(user).value[1] == UpperChar(last[0])
  {
  }

  /** `s.charCodeAt(0)` for a character: its code, or the high surrogate of its UTF-16 pair. */
  function CharCode(c: char): (n: nat)
    ensures n < 0x10000
  {
    if c as int < 0x10000 then c as int else 0xD800 + (c as int - 0x10000) / 0x400
  }

  /** The string a user's colour is derived from: `user.email || user._id || user.id || ''`. */
  function UserString(user: JsValue): JsValue
  {
    Or(Or(Or(Prop(user, "email"), Prop(user, "_id")), Prop(user, "id")), Str(""))
  }

  /**
   * The index of the colour: the first character's code modulo 8 for a
   * non-empty string, 0 when the value has no length (a number or an
   * object).  `None` is a TypeError: a non-empty array has a length but no
   * `charCodeAt`.
   */
  function ColorIndex(key: JsValue): (r: Option<nat>)
    ensures r.Some? ==> r.value < |Colors|
    ensures key.Str? && |key.s| > 0 ==> r == Some(CharCode(key.s[0]) % 8)
    ensures r.None? <==> key.Arr? && |key.items| > 0
  {
    if key.Str? && |key.s| > 0 then Some(CharCode(key.s[0]) % 8)
    else if key.Arr? && |key.items| > 0 then None
    else Some(0)
  }

  /** The avatar's background: purple without a user. */
  function BgColor(user: JsValue): (r: Option<string>)
    ensures !Truthy(user) ==> r == Some(Colors[0])
    ensures Truthy(user) ==> r.None? == ColorIndex(UserString(user)).None?
    ensures Truthy(user) && r.Some? ==> r.value == Colors[ColorIndex(UserString(user)).value]
  {
    if !Truthy(user) then Some(Colors[0])
    else
      match ColorIndex(UserString(user))
      case None => None
      case Some(i) => Some(Colors[i])
  }

  /** Users with the same email get the same colour, whatever their ids. */
  lemma SameEmailSameColor(u: JsValue, v: JsValue)
    requires Truthy(u) && Truthy(v)
    requires Truthy(Prop(u, "email")) && Prop(u, "email") == Prop(v, "email")
    ensures BgColor(u) == BgColor(v)
  {
  }

  /** A user with no truthy email or id is shown in purple, like no user at all. */
  lemma FallbackPurple(user: JsValue)
    requires Truthy(user) && !Truthy(Prop(user, "email")) && !Truthy(Prop(user, "_id")) && !Truthy(Prop(user, "id"))
    ensures BgColor(user) == Some(Colors[0])
  {
  }
}
