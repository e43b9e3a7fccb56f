/** Python values as they arrive from the JSON wire format, and the few Python
    operations on them that the client relies on: truthiness, `dict.get`,
    item assignment, `str()`, the `in` operator, `int()`, `==` on numbers and
    subtraction. */
module PyJson {

  datatype Option<+T> = None | Some(value: T)

  /** A Python call that returns a value or lets an exception out, named by
      its class; `detail` is the value the exception's message is formatted
      from, `Null` where the message carries none. */
  datatype Result<+T> = Ok(value: T) | Raise(exception: string, detail: Json := Null)

  /** Stands for whatever exception the socket's `send` lets out; the
      transport that raises it is not part of this model. */
  const SEND_FAILED := "TransportError"

  /** A decoded JSON value. Objects keep their keys in insertion order, as
      Python dicts do; a Python dict never holds a key twice, so lookups read
      the first binding. */
  datatype Json =
    | Null
    | Bool(b: bool)
    | Int(i: int)
    | Float(f: real)
    | Str(s: string)
    | Arr(items: seq<Json>)
    | Obj(fields: seq<Field>)

  datatype Field = Field(key: string, val: Json)

  /** Python's truth value of a JSON value. */
  predicate Truthy(j: Json) {
    match j
    case Null => false
    case Bool(b) => b
    case Int(i) => i != 0
    case Float(f) => f != 0.0
    case Str(s) => s != ""
    case Arr(items) => items != []
    case Obj(fields) => fields != []
  }

  /** Lists and dicts cannot be dictionary keys (`TypeError: unhashable type`). */
  predicate Hashable(j: Json) {
    !j.Arr? && !j.Obj?
  }

  const EMPTY_OBJ: Json := Obj([])

  /** Position of the first binding of `k`. */
  function Find(fields: seq<Field>, k: string): (r: Option<nat>)
    ensures r.Some? ==> r.value < |fields| && fields[r.value].key == k
    ensures r.Some? ==> forall j :: 0 <= j < r.value ==> fields[j].key != k
    ensures r.None? <==> forall j :: 0 <= j < |fields| ==> fields[j].key != k
  {
    if fields == [] then None
    else if fields[0].key == k then Some(0)
    else match Find(fields[1..], k)
      case None => None
      case Some(i) => Some(i + 1)
  }

  predicate HasKey(fields: seq<Field>, k: string) {
    Find(fields, k).Some?
  }

  /** `d.get(k)` as an Option. */
  function Lookup(fields: seq<Field>, k: string): (r: Option<Json>)
    ensures r.Some? <==> HasKey(fields, k)
    ensures r.Some? ==> exists j :: 0 <= j < |fields| && fields[j] == Field(k, r.value)
  {
    match Find(fields, k)
    case None => None
    case Some(i) => Some(fields[i].val)
  }

  /** `d.get(k, default)`. */
  function GetOr(fields: seq<Field>, k: string, default: Json): Json {
    match Lookup(fields, k)
    case None => default
    case Some(v) => v
  }

  /** `d[k] = v`: an existing key keeps its position and takes the new value,
      a new key goes last. */
  function Put(fields: seq<Field>, k: string, v: Json): (r: seq<Field>)
    ensures !HasKey(fields, k) ==> r == fields + [Field(k, v)]
    ensures HasKey(fields, k) ==> |r| == |fields|
    ensures HasKey(fields, k) ==>
              forall j :: 0 <= j < |r| ==> r[j] == if j == Find(fields, k).value then Field(k, v) else fields[j]
  {
    if fields == [] then [Field(k, v)]
    else if fields[0].key == k then [Field(k, v)] + fields[1..]
    else [fields[0]] + Put(fields[1..], k, v)
  }

  /** After `d[k] = v`, `d.get(k)` is `v` and every other key reads as before. */
  lemma PutLookup(fields: seq<Field>, k: string, v: Json, k': string)
    ensures Lookup(Put(fields, k, v), k') == if k' == k then Some(v) else Lookup(fields, k')
  {
    var r := Put(fields, k, v);
    if HasKey(fields, k) {
      var p := Find(fields, k).value;
      var fr, ff := Find(r, k'), Find(fields, k');
      if k' == k {
        assert r[p] == Field(k, v);
        assert fr == Some(p);
      } else {
        assert forall j :: 0 <= j < |r| ==> (r[j].key == k' <==> fields[j].key == k');
        assert fr == ff;
      }
    } else {
      var fr, ff := Find(r, k'), Find(fields, k');
      if k' == k {
        assert r[|fields|] == Field(k, v);
        assert fr == Some(|fields|);
      } else {
        assert forall j :: 0 <= j < |fields| ==> r[j] == fields[j];
        assert fr == ff;
      }
    }
  }

  /** The binding read at a known position: the first one with that key. */
  lemma LookupAt(fields: seq<Field>, i: nat, k: string)
    requires i < |fields| && fields[i].key == k
    requires forall j :: 0 <= j < i ==> fields[j].key != k
    ensures Find(fields, k) == Some(i) && Lookup(fields, k) == Some(fields[i].val)
    ensures GetOr(fields, k, Null) == fields[i].val
  {
    var r := Find(fields, k);
    assert r.Some?;
    assert r.value <= i;
  }

  /** The items a `for` loop over `d.get(k, [])` hands to a body that
      starts with `item.get(...)`: a list's elements. A non-empty dict or
      string yields strings, whose `.get` raises at once, and any other
      value is not iterable, so for those the body never completes. */
  function ListItems(fields: seq<Field>, k: string): seq<Json> {
    match Lookup(fields, k)
    case Some(Arr(items)) => items
    case _ => []
  }

  /** Keys pairwise distinct: the shape of every real Python dict. */
  ghost predicate DistinctKeys(fields: seq<Field>) {
    forall i, j :: 0 <= i < j < |fields| ==> fields[i].key != fields[j].key
  }

  // ---------------------------------------------------------------- str()

  function DigitChar(d: nat): (c: char)
    requires d < 10
    ensures '0' <= c <= '9'
  {
    (48 + d) as char
  }

  /** Decimal digits of a natural number, most significant first, no leading zeros. */
  function NatToString(n: nat): (s: string)
    ensures |s| >= 1
    ensures n < 10 <==> |s| == 1
    decreases n
  {
    if n < 10 then [DigitChar(n)] else NatToString(n / 10) + [DigitChar(n % 10)]
  }

  lemma {:induction false} NatToStringDigits(n: nat)
    ensures AllDigits(NatToString(n))
    decreases n
  {
    if n >= 10 {
      NatToStringDigits(n / 10);
      var p, s := NatToString(n / 10), NatToString(n);
      assert s == p + [DigitChar(n % 10)];
      assert forall i :: 0 <= i < |p| ==> s[i] == p[i];
    }
  }

  /** `str(i)` for a Python int. */
  function IntToString(i: int): string {
    if i < 0 then "-" + NatToString(-i) else NatToString(i)
  }

  /** A negative number starts with a minus sign, any other with a digit. */
  lemma IntToStringFirstChar(i: int)
    ensures |IntToString(i)| >= 1
    ensures i < 0 ==> IntToString(i)[0] == '-'
    ensures i >= 0 ==> '0' <= IntToString(i)[0] <= '9'
  {
    if i >= 0 {
      NatToStringDigits(i);
    }
  }

  /** Distinct integers print differently, so `str(id)` is a sound cache key. */
  lemma IntToStringInjective(a: int, b: int)
    requires IntToString(a) == IntToString(b)
    ensures a == b
  {
    ParseIntOfIntToString(a);
    ParseIntOfIntToString(b);
  }

  /** No integer prints as `None`, so the key that `str(None)` produces never
      shadows a numeric asset id. */
  lemma IntToStringIsNotNone(i: int)
    ensures IntToString(i) != "None"
  {
    IntToStringFirstChar(i);
  }

  /** The text `str(x)` produces. For None, booleans, ints and strings it is
      spelled out; for floats, lists and dicts the text is represented by the
      value itself (`ReprOf`), two of which are equal exactly when the values
      are. */
  datatype StrForm = Chars(s: string) | ReprOf(v: Json)

  function PyStr(j: Json): (r: StrForm)
    ensures j.Str? ==> r == Chars(j.s)
    ensures j.Int? ==> r == Chars(IntToString(j.i))
    ensures j == Null ==> r == Chars("None")
  {
    match j
    case Null => Chars("None")
    case Bool(b) => if b then Chars("True") else Chars("False")
    case Int(i) => Chars(IntToString(i))
    case Str(s) => Chars(s)
    case _ => ReprOf(j)
  }

  /** Truth value of the string `str(x)`: only the empty string is falsy. */
  predicate NonEmpty(t: StrForm) {
    t.ReprOf? || t.s != ""
  }

  lemma PyStrEmptyOnlyForEmptyString(j: Json)
    ensures !NonEmpty(PyStr(j)) <==> j == Str("")
  {
    if j.Int? {
      assert |NatToString(if j.i < 0 then -j.i else j.i)| >= 1;
    }
  }

  // ------------------------------------------------------------ operator in

  /** `t` occurs in `s` starting at position `i`. */
  ghost predicate OccursAt(s: string, t: string, i: int) {
    0 <= i && i + |t| <= |s| && s[i..i + |t|] == t
  }

  /** Substring test, `t in s` for two Python strings. */
  predicate Contains(s: string, t: string)
    decreases |s|
  {
    t <= s || (s != [] && Contains(s[1..], t))
  }

  lemma {:induction false} ContainsMeansOccurs(s: string, t: string)
    ensures Contains(s, t) <==> exists i :: OccursAt(s, t, i)
    decreases |s|
  {
    if t <= s {
      assert OccursAt(s, t, 0);
    } else if s != [] {
      ContainsMeansOccurs(s[1..], t);
      if exists i :: OccursAt(s[1..], t, i) {
        var i :| OccursAt(s[1..], t, i);
        assert s[i + 1..i + 1 + |t|] == s[1..][i..i + |t|];
        assert OccursAt(s, t, i + 1);
      }
      if exists i :: OccursAt(s, t, i) {
        var i :| OccursAt(s, t, i);
        if i > 0 {
          assert s[1..][i - 1..i - 1 + |t|] == s[i..i + |t|];
          assert OccursAt(s[1..], t, i - 1);
        }
      }
    }
  }

  /** `needle in hay` for a string needle: a substring test on strings,
      element equality on lists, key membership on dicts; `None` where
      Python raises `TypeError` (numbers, booleans, None). */
  function PyIn(needle: string, hay: Json): (r: Option<bool>)
    ensures r.None? <==> !(hay.Str? || hay.Arr? || hay.Obj?)
    ensures hay.Obj? ==> r == Some(HasKey(hay.fields, needle))
  {
    match hay
    case Str(s) => Some(Contains(s, needle))
    case Arr(items) => Some(Str(needle) in items)
    case Obj(fields) => Some(HasKey(fields, needle))
    case _ => None
  }

  // ---------------------------------------------------------------- numbers

  /** The numeric value of an int, float or bool (Python's `bool` is an `int`). */
  function AsNumber(j: Json): (r: Option<real>)
    ensures r.Some? <==> j.Int? || j.Float? || j.Bool?
  {
    match j
    case Int(i) => Some(i as real)
    case Float(f) => Some(f)
    case Bool(b) => Some(if b then 1.0 else 0.0)
    case _ => None
  }

  /** `x == n` for a Python value and an int literal: `0 == 0.0 == False`,
      and no string, list, dict or None equals a number. */
  predicate NumEq(x: Json, n: int) {
    AsNumber(x) == Some(n as real)
  }

  /** `a - b`; `None` where Python raises `TypeError`. int and bool operands
      give an int, anything with a float gives a float. Floats are exact
      reals here. */
  function PySub(a: Json, b: Json): (r: Option<Json>)
    ensures r.Some? <==> AsNumber(a).Some? && AsNumber(b).Some?
    ensures r.Some? ==> AsNumber(r.value) == Some(AsNumber(a).value - AsNumber(b).value)
  {
    if (a.Int? || a.Bool?) && (b.Int? || b.Bool?) then Some(Int(IntValue(a) - IntValue(b)))
    else if AsNumber(a).Some? && AsNumber(b).Some? then Some(Float(AsNumber(a).value - AsNumber(b).value))
    else None
  }

  function IntValue(j: Json): (n: int)
    requires j.Int? || j.Bool?
    ensures AsNumber(j) == Some(n as real)
  {
    if j.Int? then j.i else if j.b then 1 else 0
  }

  /** Truncation toward zero, as Python's `int()` applies to a float. */
  function Trunc(x: real): (r: int)
    ensures 0.0 <= x ==> r as real <= x < r as real + 1.0
    ensures x < 0.0 ==> r as real - 1.0 < x <= r as real
  {
    if x >= 0.0 then x.Floor else -((-x).Floor)
  }

  function DigitValue(c: char): (d: nat)
    requires '0' <= c <= '9'
    ensures d < 10
  {
    (c as int) - ('0' as int)
  }

  predicate AllDigits(s: string) {
    forall i :: 0 <= i < |s| ==> '0' <= s[i] <= '9'
  }

  /** The number a string of decimal digits spells. */
  function DigitsValue(s: string): nat
    requires AllDigits(s)
  {
    if s == [] then 0 else 10 * DigitsValue(s[..|s| - 1]) + DigitValue(s[|s| - 1])
  }

  /** `int(s)` for a string: an optional sign followed by decimal digits;
      `None` where Python raises `ValueError`. */
  function ParseInt(s: string): Option<int> {
    if s != [] && (s[0] == '-' || s[0] == '+') then
      var rest := s[1..];
      if rest != [] && AllDigits(rest) then
        var v: int := DigitsValue(rest);
        Some(if s[0] == '-' then -v else v)
      else None
    else if s != [] && AllDigits(s) then Some(DigitsValue(s))
    else None
  }

  lemma {:induction false} DigitsValueOfNatToString(n: nat)
    ensures AllDigits(NatToString(n)) && DigitsValue(NatToString(n)) == n
    decreases n
  {
    NatToStringDigits(n);
    var s := NatToString(n);
    if n < 10 {
      assert s[..0] == [];
      assert "0123456789"[n] as int - '0' as int == n;
    } else {
      var p := NatToString(n / 10);
      assert s == p + [DigitChar(n % 10)];
      assert s[..|s| - 1] == p;
      DigitsValueOfNatToString(n / 10);
      assert "0123456789"[n % 10] as int - '0' as int == n % 10;
    }
  }

  /** `int(str(i)) == i`. */
  lemma ParseIntOfIntToString(i: int)
    ensures ParseInt(IntToString(i)) == Some(i)
  {
    var d := NatToString(if i < 0 then -i else i);
    NatDigits(if i < 0 then -i else i);
    if i < 0 {
      assert IntToString(i) == "-" + d;
      ParseMinus(d);
    } else {
      assert IntToString(i) == d;
      ParsePlain(d);
    }
  }

  /** The decimal form of `n` is a non-empty string of digits that spells `n`. */
  lemma NatDigits(n: nat)
    ensures NatToString(n) != [] && AllDigits(NatToString(n))
    ensures DigitsValue(NatToString(n)) == n
  {
    DigitsValueOfNatToString(n);
  }

  lemma ParseMinus(d: string)
    requires d != [] && AllDigits(d)
    ensures ParseInt("-" + d) == Some(-(DigitsValue(d) as int))
  {
    var s := "-" + d;
    assert s[0] == '-' && s[1..] == d;
  }

  lemma ParsePlain(d: string)
    requires d != [] && AllDigits(d)
    ensures ParseInt(d) == Some(DigitsValue(d) as int)
  {
    assert '0' <= d[0] <= '9';
  }

  /** Python's `int(x)`; `None` where it raises. */
  function PyInt(j: Json): (r: Option<int>)
    ensures j.Int? ==> r == Some(j.i)
    ensures j.Null? || j.Arr? || j.Obj? ==> r.None?
  {
    match j
    case Int(i) => Some(i)
    case Bool(b) => Some(if b then 1 else 0)
    case Float(f) => Some(Trunc(f))
    case Str(s) => ParseInt(s)
    case _ => None
  }

  /** `s.lower()` restricted to ASCII letters. */
  function Lower(s: string): (r: string)
    ensures |r| == |s|
    ensures forall i :: 0 <= i < |s| ==> (r[i] != s[i] <==> 'A' <= s[i] <= 'Z')
    ensures forall i :: 0 <= i < |s| && 'A' <= s[i] <= 'Z' ==> r[i] == (s[i] as int + 32) as char
  {
    if s == [] then []
    else [if 'A' <= s[0] <= 'Z' then (s[0] as int + 32) as char else s[0]] + Lower(s[1..])
  }

  lemma {:induction false} LowerIdempotent(s: string)
    ensures Lower(Lower(s)) == Lower(s)
  {
    if s != [] {
      LowerIdempotent(s[1..]);
    }
  }
}
