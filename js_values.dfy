/** Plain JavaScript values and object records as the admin portal handles them.

    Every entity of the portal (gateway, webhook, transaction, payout, user,
    referral) is an untyped JavaScript object.  Such an object is modelled as a
    `Record`, a finite map from field names to `Value`s.  Object spread
    `{ ...a, ...b }` is map union `a + b` (the right operand wins), a property
    read `a.f` is `Get(a, "f")`, which yields `Undefined` for a missing field. */
module JsValues {

  datatype Option<+T> = None | Some(value: T)

  /** The JavaScript values the portal stores.  Numbers are integers here: the
      model never does arithmetic on stored amounts. */
  datatype Value =
    | Undefined
    | Null
    | Bool(b: bool)
    | Num(n: int)
    | Str(s: string)
    | List(items: seq<Value>)
    | Obj(fields: map<string, Value>)

  type Record = map<string, Value>

  /** The property read `r.k`. */
  function Get(r: Record, k: string): Value
  {
    if k in r then r[k] else Undefined
  }

  /** JavaScript truthiness: `undefined`, `null`, `false`, `0` and `''` are
      falsy; every other value, arrays and objects included, is truthy. */
  predicate Truthy(v: Value)
  {
    match v
    case Undefined => false
    case Null => false
    case Bool(b) => b
    case Num(n) => n != 0
    case Str(s) => s != ""
    case List(_) => true
    case Obj(_) => true
  }

  /** Object spread `{ ...a, ...b }`: every field of `b` wins, every other
      field of `a` survives. */
  function Spread(a: Record, b: Record): (r: Record)
    ensures r.Keys == a.Keys + b.Keys
    ensures forall k :: k in b ==> Get(r, k) == b[k]
    ensures forall k :: k !in b ==> Get(r, k) == Get(a, k)
  {
    a + b
  }

  /** The computed-key update `{ ...prev, [name]: value }` used by every form
      change handler of the portal. */
  function SetField(prev: Record, name: string, value: Value): (r: Record)
    ensures r == prev[name := value]
    ensures Get(r, name) == value
    ensures forall k :: k != name ==> Get(r, k) == Get(prev, k)
  {
    Spread(prev, map[name := value])
  }

  // ---------------------------------------------------------------------
  // Strings: case mapping (ASCII letters only) and substring search

  function LowerChar(c: char): char
  {
    if 'A' <= c <= 'Z' then (c as int + 32) as char else c
  }

  function UpperChar(c: char): char
  {
    if 'a' <= c <= 'z' then (c as int - 32) as char else c
  }

  /** `s.toLowerCase()` restricted to ASCII letters. */
  function ToLower(s: string): (r: string)
    ensures |r| == |s|
    ensures forall i :: 0 <= i < |s| ==> r[i] == LowerChar(s[i])
    ensures forall i :: 0 <= i < |r| ==> !('A' <= r[i] <= 'Z')
  {
    seq(|s|, i requires 0 <= i < |s| => LowerChar(s[i]))
  }

  /** `s.toUpperCase()` restricted to ASCII letters. */
  function ToUpper(s: string): (r: string)
    ensures |r| == |s|
    ensures forall i :: 0 <= i < |s| ==> r[i] == UpperChar(s[i])
    ensures forall i :: 0 <= i < |r| ==> !('a' <= r[i] <= 'z')
  {
    seq(|s|, i requires 0 <= i < |s| => UpperChar(s[i]))
  }

  predicate StartsWith(s: string, prefix: string)
  {
    |prefix| <= |s| && s[..|prefix|] == prefix
  }

  /** `hay.includes(needle)` on strings, by scanning the start positions. */
  predicate Contains(hay: string, needle: string)
    decreases |hay|
  {
    StartsWith(hay, needle) || (|hay| > 0 && Contains(hay[1..], needle))
  }

  /** `needle` occurs in `hay` starting at position `i`. */
  predicate OccursAt(hay: string, needle: string, i: int)
  {
    0 <= i && i + |needle| <= |hay| && hay[i..i + |needle|] == needle
  }

  /** The scan finds the needle exactly when it occurs at some position. */
  lemma {:induction false} ContainsIffOccurs(hay: string, needle: string)
    ensures Contains(hay, needle) <==> exists i :: OccursAt(hay, needle, i)
    decreases |hay|
  {
    if StartsWith(hay, needle) {
      assert hay[0..|needle|] == needle;
      assert OccursAt(hay, needle, 0);
    }
    if |hay| > 0 {
      ContainsIffOccurs(hay[1..], needle);
      if Contains(hay[1..], needle) {
        var i :| OccursAt(hay[1..], needle, i);
        assert hay[i + 1..i + 1 + |needle|] == hay[1..][i..i + |needle|];
        assert OccursAt(hay, needle, i + 1);
      }
      if exists i :: OccursAt(hay, needle, i) {
        var i :| OccursAt(hay, needle, i);
        if i > 0 {
          assert hay[1..][i - 1..i - 1 + |needle|] == hay[i..i + |needle|];
          assert OccursAt(hay[1..], needle, i - 1);
        } else {
          assert StartsWith(hay, needle);
        }
      }
    } else {
      if exists i :: OccursAt(hay, needle, i) {
        var i :| OccursAt(hay, needle, i);
        assert |needle| == 0;
        assert StartsWith(hay, needle);
      }
    }
  }

  /** A string contains only needles no longer than itself. */
  lemma {:induction false} ContainsNoLonger(hay: string, needle: string)
    requires Contains(hay, needle)
    ensures |needle| <= |hay|
    decreases |hay|
  {
    if !StartsWith(hay, needle) {
      ContainsNoLonger(hay[1..], needle);
    }
  }

  /** Every string contains the empty string: an empty search term matches. */
  lemma ContainsEmpty(hay: string)
    ensures Contains(hay, "")
  {
    assert StartsWith(hay, "");
  }

  /** `v.includes(x)` for a field that should hold an array or a string:
      `Some(b)` is the answer, `None` stands for the `TypeError` thrown when
      `v` has no `includes` method (undefined, null, a number, a boolean, a
      plain object).  Arrays compare elements with `===`; strings search for
      a substring. */
  function Includes(v: Value, x: string): (r: Option<bool>)
    ensures r.None? <==> !(v.List? || v.Str?)
    ensures v.List? ==> r == Some(Str(x) in v.items)
    ensures v.Str? ==> r == Some(Contains(v.s, x))
  {
    match v
    case List(items) => Some(Str(x) in items)
    case Str(s) => Some(Contains(s, x))
    case _ => None
  }
}
