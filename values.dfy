/** JavaScript values as they reach the adapter (from the parsed query string
    or from the configured defaults) and the handful of JavaScript conversions
    the adapter relies on: truthiness, String() and Number(). */
module Values {

  datatype Option<T> = None | Some(value: T)

  datatype Result<T, E> = Ok(value: T) | Err(error: E)

  /** A JavaScript value. Numbers are integers only (see README, "Left out"). */
  datatype Value =
    | Undefined
    | Null
    | Bool(b: bool)
    | Num(n: int)
    | Str(s: string)
    | Arr(elems: seq<Value>)
    | Obj(fields: seq<Field>)

  /** One own enumerable property of a plain object; an object lists its
      properties in the order Object.keys reports them. */
  datatype Field = Field(key: string, val: Value)

  /** The keys of an object. */
  function Keys(fs: seq<Field>): set<string>
  {
    if fs == [] then {} else {fs[0].key} + Keys(fs[1..])
  }

  /** No key occurs twice: every JavaScript object has this shape. */
  predicate DistinctKeys(fs: seq<Field>)
  {
    forall i, j :: 0 <= i < j < |fs| ==> fs[i].key != fs[j].key
  }

  /** Keys, deeply: every object nested anywhere in `v` has distinct keys. */
  ghost predicate WellFormed(v: Value)
    decreases v
  {
    match v
    case Obj(fs) => DistinctKeys(fs) && forall i :: 0 <= i < |fs| ==> WellFormed(fs[i].val)
    case Arr(es) => forall i :: 0 <= i < |es| ==> WellFormed(es[i])
    case _ => true
  }

  lemma KeyAt(fs: seq<Field>, i: nat)
    requires i < |fs|
    ensures fs[i].key in Keys(fs)
  {
    if i > 0 {
      KeyAt(fs[1..], i - 1);
    }
  }

  lemma KeysHaveIndex(fs: seq<Field>, k: string)
    requires k in Keys(fs)
    ensures exists i :: 0 <= i < |fs| && fs[i].key == k
  {
    if fs[0].key != k {
      KeysHaveIndex(fs[1..], k);
      var i :| 0 <= i < |fs[1..]| && fs[1..][i].key == k;
      assert fs[i + 1].key == k;
    }
  }

  lemma NotInKeys(fs: seq<Field>, k: string)
    requires forall i :: 0 <= i < |fs| ==> fs[i].key != k
    ensures k !in Keys(fs)
  {
    if fs != [] {
      assert forall i :: 0 <= i < |fs[1..]| ==> fs[1..][i] == fs[i + 1];
      NotInKeys(fs[1..], k);
    }
  }

  /** Property read `obj[k]`: the value of the first field named `k`, or
      undefined when the object has none. */
  function Lookup(fs: seq<Field>, k: string): (v: Value)
    ensures k !in Keys(fs) ==> v == Undefined
    ensures forall i :: 0 <= i < |fs| && fs[i].key == k && (forall j :: 0 <= j < i ==> fs[j].key != k) ==> v == fs[i].val
  {
    if fs == [] then Undefined
    else if fs[0].key == k then fs[0].val
    else
      var v := Lookup(fs[1..], k);
      assert forall i :: 1 <= i < |fs| && fs[i].key == k && (forall j :: 0 <= j < i ==> fs[j].key != k) ==>
        fs[1..][i - 1] == fs[i] && forall j :: 0 <= j < i - 1 ==> fs[1..][j].key != k;
      v
  }

  /** Property write `obj[k] = v`: an existing key keeps its position and
      takes the new value, a new key is appended. */
  function Put(fs: seq<Field>, k: string, v: Value): (r: seq<Field>)
    ensures Lookup(r, k) == v
    ensures forall k' :: k' != k ==> Lookup(r, k') == Lookup(fs, k')
    ensures Keys(r) == Keys(fs) + {k}
    ensures |fs| <= |r| <= |fs| + 1
    ensures forall i :: 0 <= i < |fs| ==> r[i].key == fs[i].key
    ensures k in Keys(fs) ==> |r| == |fs|
  {
    if fs == [] then [Field(k, v)]
    else if fs[0].key == k then [Field(k, v)] + fs[1..]
    else [fs[0]] + Put(fs[1..], k, v)
  }

  /** JavaScript truthiness (NaN is not modelled, so a number is falsy only when it is 0). */
  predicate Truthy(v: Value)
  {
    match v
    case Undefined => false
    case Null => false
    case Bool(b) => b
    case Num(n) => n != 0
    case Str(s) => s != ""
    case Arr(_) => true
    case Obj(_) => true
  }

  predicate IsDigit(c: char)
  {
    '0' <= c <= '9'
  }

  predicate AllDigits(s: string)
  {
    forall i :: 0 <= i < |s| ==> IsDigit(s[i])
  }

  function DigitChar(d: nat): (c: char)
    requires d < 10
    ensures IsDigit(c) && c as int - '0' as int == d
  {
    ('0' as int + d) as char
  }

  /** The value of a string of decimal digits, read left to right. */
  function DigitsValue(s: string): nat
    requires AllDigits(s)
  {
    if s == [] then 0
    else DigitsValue(s[..|s| - 1]) * 10 + (s[|s| - 1] as int - '0' as int)
  }

  /** The decimal numeral of a natural number, without leading zeros. */
  function NatToString(n: nat): (s: string)
    ensures |s| > 0 && AllDigits(s)
    decreases n
  {
    if n < 10 then [DigitChar(n)]
    else NatToString(n / 10) + [DigitChar(n % 10)]
  }

  /** String(n) for an integer. */
  function IntToString(n: int): string
  {
    if n < 0 then "-" + NatToString(-n) else NatToString(n)
  }

  /** Number(s) restricted to decimal integers: the empty string is 0, an
      optional sign and at least one decimal digit is that integer, anything
      else is NaN (None). */
  function StringToNumber(s: string): Option<int>
  {
    if s == "" then Some(0)
    else if |s| > 1 && s[0] == '-' && AllDigits(s[1..]) then Some(0 - DigitsValue(s[1..]) as int)
    else if |s| > 1 && s[0] == '+' && AllDigits(s[1..]) then Some(DigitsValue(s[1..]))
    else if AllDigits(s) then Some(DigitsValue(s))
    else None
  }

  /** String(v), as a template literal `${v}` produces it. An array is joined
      with commas, undefined and null elements becoming empty. */
  function Display(v: Value): string
    decreases v, 0
  {
    match v
    case Undefined => "undefined"
    case Null => "null"
    case Bool(b) => if b then "true" else "false"
    case Num(n) => IntToString(n)
    case Str(s) => s
    case Arr(es) => Join(es)
    case Obj(_) => "[object Object]"
  }

  function Join(es: seq<Value>): string
    decreases es, 1
  {
    if es == [] then ""
    else if |es| == 1 then JoinElement(es[0])
    else JoinElement(es[0]) + "," + Join(es[1..])
  }

  function JoinElement(e: Value): string
    decreases e, 2
  {
    if e.Undefined? || e.Null? then "" else Display(e)
  }

  /** Number(v): None stands for NaN. Arrays and plain objects convert
      through their string form, as ToPrimitive does for them. */
  function ToNumber(v: Value): Option<int>
  {
    match v
    case Undefined => None
    case Null => Some(0)
    case Bool(b) => Some(if b then 1 else 0)
    case Num(n) => Some(n)
    case Str(s) => StringToNumber(s)
    case Arr(_) => StringToNumber(Display(v))
    case Obj(_) => StringToNumber(Display(v))
  }

  lemma {:induction false} NatToStringValue(n: nat)
    ensures DigitsValue(NatToString(n)) == n
    decreases n
  {
    if n >= 10 {
      var s := NatToString(n);
      assert s[..|s| - 1] == NatToString(n / 10);
      NatToStringValue(n / 10);
    }
  }

  /** Reading back the numeral String(n) gives n again. */
  lemma IntRoundTrip(n: int)
    ensures StringToNumber(IntToString(n)) == Some(n)
  {
    if n < 0 {
      var s := IntToString(n);
      assert s[1..] == NatToString(-n);
      NatToStringValue(-n);
    } else {
      NatToStringValue(n);
    }
  }

  /** A comma can never be part of a numeral. */
  lemma CommaIsNaN(s: string, i: nat)
    requires i < |s| && s[i] == ','
    ensures StringToNumber(s) == None
  {
    assert !IsDigit(s[i]);
    if i > 0 {
      assert s[1..][i - 1] == s[i];
    }
  }

  lemma {:induction false} JoinHasComma(es: seq<Value>)
    requires |es| >= 2
    ensures exists i :: 0 <= i < |Join(es)| && Join(es)[i] == ','
  {
    var j := Join(es);
    var h := JoinElement(es[0]);
    assert j == h + "," + Join(es[1..]);
    assert j[|h|] == ',';
  }

  /** An array of two or more elements is never a number: its string form holds a comma. */
  lemma ArrayOfSeveralIsNaN(es: seq<Value>)
    requires |es| >= 2
    ensures ToNumber(Arr(es)) == None
  {
    JoinHasComma(es);
    var i :| 0 <= i < |Join(es)| && Join(es)[i] == ',';
    CommaIsNaN(Display(Arr(es)), i);
  }

  /** A one-element array holding a number converts to that number. */
  lemma SingletonNumberArray(n: int)
    ensures ToNumber(Arr([Num(n)])) == Some(n)
  {
    assert Join([Num(n)]) == JoinElement(Num(n)) == Display(Num(n));
    IntRoundTrip(n);
  }
}
