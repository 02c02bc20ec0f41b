/**
 * JavaScript values as the backend and the web app see them after
 * `JSON.parse`, with the language's truthiness, `||`, property access and
 * `String(v)` conversion. Numbers are integers here.
 */
module Js {
  import opened Strings

  datatype JsValue =
    | Undefined
    | Null
    | Bool(b: bool)
    | Num(n: int)
    | Str(s: string)
    | Arr(items: seq<JsValue>)
    | Obj(fields: map<string, JsValue>)

  /** `!!v` */
  predicate Truthy(v: JsValue)
  {
    match v
    case Undefined => false
    case Null => false
    case Bool(b) => b
    case Num(n) => n != 0
    case Str(s) => |s| > 0
    case Arr(_) => true
    case Obj(_) => true
  }

  /** `a || b` */
  function Or(a: JsValue, b: JsValue): (r: JsValue)
    ensures Truthy(a) ==> r == a
    ensures !Truthy(a) ==> r == b
    ensures Truthy(r) <==> Truthy(a) || Truthy(b)
  {
    if Truthy(a) then a else b
  }

  /**
   * `v.key` (and `v?.key`). Reading a property of null or undefined throws in
   * JavaScript; where that matters the callers test for it first.
   */
  function Prop(v: JsValue, key: string): (r: JsValue)
    ensures v.Obj? && key in v.fields ==> r == v.fields[key]
    ensures !v.Obj? ==> r == Undefined
  {
    if v.Obj? && key in v.fields then v.fields[key] else Undefined
  }

  /** Reading a property of this value throws a TypeError. */
  predicate Nullish(v: JsValue)
  {
    v.Undefined? || v.Null?
  }

  /** `typeof v === 'string'` */
  predicate IsString(v: JsValue)
  {
    v.Str?
  }

  /** `String(v)` (arrays join their elements with commas). */
  function ToStr(v: JsValue): string
    decreases v
  {
    match v
    case Undefined => "undefined"
    case Null => "null"
    case Bool(b) => if b then "true" else "false"
    case Num(n) => IntToString(n)
    case Str(s) => s
    case Arr(items) => JoinElements(items, v)
    case Obj(_) => "[object Object]"
  }

  /** `Array.prototype.join(',')`: null and undefined elements become empty. */
  function JoinElements(items: seq<JsValue>, whole: JsValue): string
    requires forall i :: 0 <= i < |items| ==> items[i] < whole
    decreases whole, |items|
  {
    if |items| == 0 then ""
    else
      var first := if Nullish(items[0]) then "" else ToStr(items[0]);
      if |items| == 1 then first else first + "," + JoinElements(items[1..], whole)
  }

  /**
   * `a === b`. Objects and arrays compare by identity; values built apart
   * from one another are never identical, so they never compare equal.
   */
  predicate StrictEquals(a: JsValue, b: JsValue)
  {
    !a.Obj? && !a.Arr? && a == b
  }

  /** Each value under its index as a key: `"0"`, `"1"`, and so on. */
  function IndexFields(vals: seq<JsValue>): map<string, JsValue>
    decreases |vals|
  {
    if |vals| == 0 then map[]
    else IndexFields(vals[..|vals| - 1])[NatToString(|vals| - 1) := vals[|vals| - 1]]
  }

  /** Distinct indices are distinct keys. */
  lemma IndexKeyFresh(n: nat)
    ensures forall i :: 0 <= i < n ==> NatToString(i) != NatToString(n)
  {
    forall i | 0 <= i < n
      ensures NatToString(i) != NatToString(n)
    {
      if NatToString(i) == NatToString(n) {
        NatToStringInjective(i, n);
      }
    }
  }

  lemma {:induction false} IndexFieldsHas(vals: seq<JsValue>)
    ensures forall i :: 0 <= i < |vals| ==> NatToString(i) in IndexFields(vals) && IndexFields(vals)[NatToString(i)] == vals[i]
    decreases |vals|
  {
    if |vals| > 0 {
      var n := |vals| - 1;
      var init := vals[..n];
      IndexFieldsHas(init);
      IndexKeyFresh(n);
      forall i | 0 <= i < |vals|
        ensures NatToString(i) in IndexFields(vals) && IndexFields(vals)[NatToString(i)] == vals[i]
      {
        if i < n {
          assert init[i] == vals[i];
        }
      }
    }
  }

  lemma {:induction false} IndexFieldsOnly(vals: seq<JsValue>)
    ensures forall k :: k in IndexFields(vals) ==> exists i :: 0 <= i < |vals| && k == NatToString(i)
    decreases |vals|
  {
    if |vals| > 0 {
      var n := |vals| - 1;
      var init := vals[..n];
      IndexFieldsOnly(init);
      assert IndexFields(vals) == IndexFields(init)[NatToString(n) := vals[n]];
      forall key | key in IndexFields(vals)
        ensures exists i :: 0 <= i < |vals| && key == NatToString(i)
      {
        if key in IndexFields(init) {
          var i :| 0 <= i < n && key == NatToString(i);
          assert 0 <= i < |vals| && key == NatToString(i);
        } else {
          assert key == NatToString(n);
          assert 0 <= n < |vals| && key == NatToString(n);
        }
      }
      assert forall k :: k in IndexFields(vals) ==> exists i :: 0 <= i < |vals| && k == NatToString(i);
    } else {
      assert IndexFields(vals) == map[];
    }
  }

  lemma {:induction false} IndexFieldsSize(vals: seq<JsValue>)
    ensures |IndexFields(vals)| == |vals|
    decreases |vals|
  {
    if |vals| > 0 {
      var n := |vals| - 1;
      var init := vals[..n];
      IndexFieldsSize(init);
      IndexFieldsOnly(init);
      IndexKeyFresh(n);
      var k := NatToString(n);
      assert k !in IndexFields(init);
      assert IndexFields(vals).Keys == IndexFields(init).Keys + {k};
    }
  }

  /** Every index is a key holding its value, and there is no other key. */
  lemma IndexFieldsAt(vals: seq<JsValue>)
    ensures forall i :: 0 <= i < |vals| ==> NatToString(i) in IndexFields(vals) && IndexFields(vals)[NatToString(i)] == vals[i]
    ensures forall k :: k in IndexFields(vals) ==> exists i :: 0 <= i < |vals| && k == NatToString(i)
    ensures |IndexFields(vals)| == |vals|
  {
    IndexFieldsHas(vals);
    IndexFieldsOnly(vals);
    IndexFieldsSize(vals);
  }

  /** The characters of a string, one string each. */
  function Chars(s: string): (r: seq<JsValue>)
    ensures |r| == |s| && forall i :: 0 <= i < |s| ==> r[i] == Str([s[i]])
  {
    seq(|s|, i requires 0 <= i < |s| => Str([s[i]]))
  }

  /**
   * The own enumerable fields `{...v}` copies: an object's fields, a
   * string's characters and an array's elements under their indices, and
   * nothing from null, undefined, booleans or numbers.
   */
  function Spread(v: JsValue): (r: map<string, JsValue>)
    ensures v.Obj? ==> r == v.fields
    ensures v.Arr? ==> r == IndexFields(v.items)
    ensures v.Str? ==> r == IndexFields(Chars(v.s))
    ensures !v.Obj? && !v.Arr? && !v.Str? ==> r == map[]
  {
    match v
    case Obj(fields) => fields
    case Arr(items) => IndexFields(items)
    case Str(s) => IndexFields(Chars(s))
    case _ => map[]
  }

  /** `{..."ab"}` is `{0: "a", 1: "b"}`, and `{...[x]}` is `{0: x}`. */
  lemma SpreadIndices(x: JsValue)
    ensures Spread(Str("ab")) == map["0" := Str("a"), "1" := Str("b")]
    ensures Spread(Arr([x])) == map["0" := x]
  {
    assert NatToString(0) == "0" && NatToString(1) == "1";
    assert Chars("ab") == [Str("a"), Str("b")];
    assert [Str("a"), Str("b")][..1] == [Str("a")];
    assert [Str("a")][..0] == [];
    assert [x][..0] == [];
  }

  /** The string value of a field, or "" when the field is absent or not a string. */
  function StrProp(v: JsValue, key: string): string
  {
    var p := Prop(v, key);
    if p.Str? then p.s else ""
  }
}
