/** JSON-like values as the document store keeps them, the failure wrappers
    the write path uses, and the few JavaScript coercions (String(v), `+`)
    whose results end up in stored data or in property keys. */
module Json {

  datatype Option<+T> = None | Some(value: T)

  /** Every throw of the write path. A throw makes the host discard the whole
      state of the interaction, so a failure never carries a partial state. */
  datatype Error =
    | WrongQuery  // err() with its default message "The wrong query"
    | NotOwner    // err("caller is not contract owner")

  datatype Result<+T> = Ok(value: T) | Err(error: Error)

  /** A JSON value. Numbers are integers: floating point is not modelled. */
  datatype Value =
    | Null
    | Bool(b: bool)
    | Num(n: int)
    | Str(s: string)
    | Arr(items: seq<Value>)
    | Obj(fields: map<string, Value>)

  /** The field map of a document (`__data` when it is not null). */
  type Fields = map<string, Value>

  /** Lookup that reads an absent key as `None` (JavaScript's undefined). */
  function Get(m: Fields, k: string): Option<Value>
  {
    if k in m then Some(m[k]) else None
  }

  /** Two field maps that agree on every lookup are equal. */
  lemma SameGets(a: Fields, b: Fields)
    requires forall k :: Get(a, k) == Get(b, k)
    ensures a == b
  {
    assert a.Keys == b.Keys by {
      forall k ensures k in a <==> k in b {
        assert Get(a, k) == Get(b, k);
      }
    }
    forall k | k in a ensures a[k] == b[k] {
      assert Get(a, k) == Get(b, k);
    }
  }

  /** The decimal digit character of `d`. */
  function DigitChar(d: nat): (c: char)
    requires d < 10
    ensures '0' <= c <= '9'
    ensures c as int - '0' as int == d
  {
    ('0' as int + d) as char
  }

  /** Decimal digits of a natural number, most significant first. */
  function NatDecimal(n: nat): (s: string)
    ensures |s| > 0
    ensures forall i | 0 <= i < |s| :: '0' <= s[i] <= '9'
    decreases n
  {
    if n < 10 then [DigitChar(n)] else NatDecimal(n / 10) + [DigitChar(n % 10)]
  }

  /** Distinct numbers have distinct decimal forms, so the indices of an
      array name distinct properties. */
  lemma {:induction false} NatDecimalInjective(a: nat, b: nat)
    requires NatDecimal(a) == NatDecimal(b)
    ensures a == b
    decreases a
  {
    var s := NatDecimal(a);
    if a >= 10 && b >= 10 {
      assert s[..|s| - 1] == NatDecimal(a / 10) && s[..|s| - 1] == NatDecimal(b / 10);
      NatDecimalInjective(a / 10, b / 10);
      assert s[|s| - 1] == DigitChar(a % 10) && s[|s| - 1] == DigitChar(b % 10);
    }
  }

  /** Number.prototype.toString() on an integer. */
  function Decimal(n: int): (s: string)
    ensures |s| > 0
    ensures (s[0] == '-') <==> n < 0
  {
    if n < 0 then "-" + NatDecimal(-n) else NatDecimal(n)
  }

  /** String(v): how JavaScript turns a value into a string, both for `+` on a
      string operand and for a value used as a property key. */
  function AsString(v: Value): string
    decreases v, 1
  {
    match v
    case Null => "null"
    case Bool(b) => if b then "true" else "false"
    case Num(n) => Decimal(n)
    case Str(s) => s
    case Arr(items) => JoinItems(v, items)
    case Obj(_) => "[object Object]"
  }

  /** Array.prototype.join(","), which writes null elements as empty strings. */
  function JoinItems(ghost whole: Value, items: seq<Value>): string
    requires forall i | 0 <= i < |items| :: items[i] < whole
    decreases whole, 0, |items|
  {
    if |items| == 0 then ""
    else
      var head := if items[0] == Null then "" else AsString(items[0]);
      if |items| == 1 then head else head + "," + JoinItems(whole, items[1..])
  }

  /** Number(v) for the values `+` adds numerically. */
  function NumberOf(v: Value): int
  {
    match v
    case Num(n) => n
    case Bool(b) => if b then 1 else 0
    case _ => 0
  }

  /** JavaScript's `v + n` for a number n: string concatenation when v is a
      string, an array or an object, numeric addition otherwise. */
  function PlusNumber(v: Value, n: int): (r: Value)
    ensures v.Num? ==> r == Num(v.n + n)
    ensures v.Null? ==> r == Num(n)
    ensures v.Bool? ==> r == Num((if v.b then 1 else 0) + n)
    ensures v.Str? ==> r == Str(v.s + Decimal(n))
    ensures (v.Arr? || v.Obj?) ==> r == Str(AsString(v) + Decimal(n))
    ensures r.Str? <==> (v.Str? || v.Arr? || v.Obj?)
  {
    if v.Str? || v.Arr? || v.Obj? then Str(AsString(v) + Decimal(n))
    else Num(NumberOf(v) + n)
  }
}
