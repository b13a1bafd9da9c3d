/** Document ids for `add`: the conversion of a hash into a big integer and
    the 20-character id drawn from it. The hash itself (of a seed made of
    block height, timestamp, transaction id, caller and position) is host
    cryptography; the model takes the digest of position `i` as the value of
    a parameter `digest`. */
module Ids {
  import opened Json

  type byte = b: int | 0 <= b < 256

  /** The lower-case hex digit `toString(16)` writes for `d`. */
  function HexDigit(d: nat): (c: char)
    requires d < 16
    ensures DigitValue(c) == d
  {
    if d < 10 then ('0' as int + d) as char else ('a' as int + d - 10) as char
  }

  /** The value of a hex digit. */
  function DigitValue(c: char): nat
  {
    if '0' <= c <= '9' then (c as int - '0' as int) as nat
    else if 'a' <= c <= 'f' then (c as int - 'a' as int) as nat + 10
    else 0
  }

  predicate IsHex(s: string)
  {
    forall i | 0 <= i < |s| :: '0' <= s[i] <= '9' || 'a' <= s[i] <= 'f'
  }

  /** The number a string of hex digits denotes, most significant first. */
  function HexValue(s: string): nat
  {
    if |s| == 0 then 0 else HexValue(s[..|s| - 1]) * 16 + DigitValue(s[|s| - 1])
  }

  /** The number a byte string denotes, most significant byte first. */
  function BigEndian(bytes: seq<byte>): nat
  {
    if |bytes| == 0 then 0 else BigEndian(bytes[..|bytes| - 1]) * 256 + bytes[|bytes| - 1]
  }

  /** `byte.toString(16).padStart(2, "0")`. */
  function HexByte(b: byte): (s: string)
    ensures |s| == 2 && IsHex(s)
    ensures HexValue(s) == b
  {
    var digits := if b < 16 then [HexDigit(b)] else [HexDigit(b / 16), HexDigit(b % 16)];
    var s := if |digits| < 2 then "0" + digits else digits;
    HexValueTwo(s);
    s
  }

  lemma HexValueTwo(t: string)
    requires |t| == 2
    ensures HexValue(t) == DigitValue(t[0]) * 16 + DigitValue(t[1])
  {
    var t1 := t[..1];
    assert t[..|t| - 1] == t1 && t1[..0] == [] && t1[0] == t[0];
    assert HexValue(t1) == DigitValue(t[0]);
  }

  /** Appending two digits multiplies what is already there by 256. */
  lemma {:induction false} HexAppend(s: string, t: string)
    requires |t| == 2
    ensures HexValue(s + t) == HexValue(s) * 256 + HexValue(t)
  {
    var st := s + t;
    var s1 := s + t[..1];
    assert st[..|st| - 1] == s1 && st[|st| - 1] == t[1];
    assert s1[..|s1| - 1] == s && s1[|s1| - 1] == t[0];
    assert HexValue(st) == HexValue(s1) * 16 + DigitValue(t[1]);
    assert HexValue(s1) == HexValue(s) * 16 + DigitValue(t[0]);
    HexValueTwo(t);
  }

  /** `bigIntFromBytes`: the hex digits of the bytes are accumulated in a
      loop and read back by `BigInt("0x" + ...)`, which rejects the bare
      "0x" an empty input would leave. */
  method BigIntFromBytes(bytes: seq<byte>) returns (r: Option<nat>)
    ensures r == if |bytes| == 0 then None else Some(BigEndian(bytes))
  {
    var hex := "";
    var i := 0;
    while i < |bytes|
      invariant 0 <= i <= |bytes|
      invariant |hex| == 2 * i
      invariant HexValue(hex) == BigEndian(bytes[..i])
    {
      HexAppend(hex, HexByte(bytes[i]));
      assert bytes[..i + 1][..i] == bytes[..i];
      hex := hex + HexByte(bytes[i]);
      i := i + 1;
    }
    assert bytes[..i] == bytes;
    if |hex| == 0 {
      return None;
    }
    return Some(HexValue(hex));
  }

  const Upper: string := "ABCDEFGHIJKLMNOPQRSTUVWXYZ"
  const Lower: string := "abcdefghijklmnopqrstuvwxyz"
  const Digits: string := "0123456789"

  /** The alphabet of ids: upper-case letters, lower-case letters, digits. */
  const Chars: string := Upper + Lower + Digits

  /** `getRandomIntNumber(62, action, i)`: the digest read as a big-endian
      integer, reduced modulo the alphabet size. */
  function RandomInt(digest: nat -> seq<byte>, i: nat): (r: Option<nat>)
    ensures r.Some? ==> r.value < |Chars|
  {
    if |digest(i)| == 0 then None else Some(BigEndian(digest(i)) % |Chars|)
  }

  /** `Chars.charAt(r - 1)`: the empty string when the index is out of range. */
  function IdChar(r: int): (s: string)
    ensures |s| <= 1
    ensures |s| == 0 <==> r < 1 || r > |Chars|
    ensures |s| == 1 ==> s[0] in Chars
  {
    if 0 <= r - 1 < |Chars| then [Chars[r - 1]] else ""
  }

  /** The id drawn from random values, one `IdChar` each. */
  function IdFrom(rands: seq<nat>): string
  {
    if |rands| == 0 then "" else IdFrom(rands[..|rands| - 1]) + IdChar(rands[|rands| - 1])
  }

  /** The random values of positions 0 .. n-1, when every digest is usable. */
  function Rands(digest: nat -> seq<byte>, n: nat): Option<seq<nat>>
  {
    if n == 0 then Some([])
    else match (Rands(digest, n - 1), RandomInt(digest, n - 1))
      case (Some(rs), Some(r)) => Some(rs + [r])
      case _ => None
  }

  /** `genId`: twenty draws, each appending one character or none. */
  method GenId(digest: nat -> seq<byte>) returns (r: Option<string>)
    ensures r.Some? <==> Rands(digest, 20).Some?
    ensures r.Some? ==> r.value == IdFrom(Rands(digest, 20).value)
  {
    var autoId := "";
    var i := 0;
    ghost var rands: seq<nat> := [];
    while i < 20
      invariant 0 <= i <= 20
      invariant Rands(digest, i) == Some(rands)
      invariant autoId == IdFrom(rands)
    {
      var v := BigIntFromBytes(digest(i));
      if v.None? {
        NoRandsAfter(digest, i + 1, 20);
        return None;
      }
      var n := v.value % |Chars|;
      assert rands + [n] == (rands + [n])[..|rands|] + [n];
      rands := rands + [n];
      autoId := autoId + IdChar(n);
      i := i + 1;
    }
    return Some(autoId);
  }

  /** Once a digest is unusable, no longer run of draws succeeds. */
  lemma {:induction false} NoRandsAfter(digest: nat -> seq<byte>, i: nat, n: nat)
    requires 1 <= i <= n && Rands(digest, i).None?
    ensures Rands(digest, n).None?
    decreases n - i
  {
    if i < n {
      NoRandsAfter(digest, i + 1, n);
    }
  }

  /** How many of the values are 0, the value that adds no character. */
  function Zeros(rands: seq<nat>): nat
  {
    if |rands| == 0 then 0
    else Zeros(rands[..|rands| - 1]) + (if rands[|rands| - 1] == 0 then 1 else 0)
  }

  /** An id is one character per draw, except that a draw of 0 adds none,
      so ids can be shorter than the number of draws. */
  lemma {:induction false} IdLength(rands: seq<nat>)
    requires forall i | 0 <= i < |rands| :: rands[i] < |Chars|
    ensures |IdFrom(rands)| == |rands| - Zeros(rands)
  {
    if |rands| > 0 {
      IdLength(rands[..|rands| - 1]);
    }
  }

  /** Every character of an id comes from the alphabet without its last
      letter '9', which `charAt(r - 1)` with r < 62 can never reach. */
  lemma {:induction false} IdAlphabet(rands: seq<nat>)
    requires forall i | 0 <= i < |rands| :: rands[i] < |Chars|
    ensures forall i | 0 <= i < |IdFrom(rands)| :: IdFrom(rands)[i] in Chars[..|Chars| - 1]
    ensures '9' !in IdFrom(rands)
  {
    if |rands| > 0 {
      IdAlphabet(rands[..|rands| - 1]);
      var r := rands[|rands| - 1];
      if 0 <= r - 1 < |Chars| {
        assert Chars[r - 1] in Chars[..|Chars| - 1];
      }
    }
    NineIsLast();
  }

  /** '9', the last letter of the alphabet, occurs nowhere before it. */
  lemma NineIsLast()
    ensures '9' !in Chars[..|Chars| - 1]
  {
    assert Chars[..|Chars| - 1] == Upper + Lower + Digits[..9];
    assert Digits[..9] == "012345678";
    assert '9' !in Upper;
    assert '9' !in Lower;
    assert '9' !in "012345678";
  }

  /** The values `GenId` draws are all below the alphabet size. */
  lemma {:induction false} RandsBelow(digest: nat -> seq<byte>, n: nat)
    requires Rands(digest, n).Some?
    ensures |Rands(digest, n).value| == n
    ensures forall i | 0 <= i < n :: Rands(digest, n).value[i] < |Chars|
  {
    if n > 0 {
      RandsBelow(digest, n - 1);
    }
  }

  /** The id `genId` returns has 20 characters less one per draw of 0, and
      never contains '9'. */
  lemma IdShape(digest: nat -> seq<byte>)
    requires Rands(digest, 20).Some?
    ensures |IdFrom(Rands(digest, 20).value)| == 20 - Zeros(Rands(digest, 20).value)
    ensures '9' !in IdFrom(Rands(digest, 20).value)
  {
    RandsBelow(digest, 20);
    IdLength(Rands(digest, 20).value);
    IdAlphabet(Rands(digest, 20).value);
  }
}
