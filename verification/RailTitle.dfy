/** Window titles: UTF-16LE order bytes to a NUL-terminated UTF-8 C string. */
module RailTitle {
  import opened Prelude

  /** The 16-bit units of a little-endian byte string; an odd last byte is ignored. */
  function Units(bytes: seq<Byte>): (u: seq<U16>)
    ensures |u| == |bytes| / 2
    ensures forall i :: 0 <= i < |u| ==> u[i] == bytes[2 * i] as int + 0x100 * (bytes[2 * i + 1] as int)
  {
    seq(|bytes| / 2, i requires 0 <= i < |bytes| / 2 => bytes[2 * i] as int + 0x100 * (bytes[2 * i + 1] as int))
  }

  /** The units before the first NUL. */
  function BeforeNul(units: seq<U16>): seq<U16> {
    if |units| == 0 || units[0] == 0 then [] else [units[0]] + BeforeNul(units[1..])
  }

  /** The bytes written for one unit. The low six bits go last, so each bitwise or
      joins disjoint bits and is a sum. */
  function EncodeUnit(c: U16): seq<Byte> {
    if c < 0x80 then [c]
    else if c < 0x800 then [0xC0 + c / 64, 0x80 + c % 64]
    else [0xE0 + c / 4096, 0x80 + c / 64 % 64, 0x80 + c % 64]
  }

  function Encode(units: seq<U16>): seq<Byte> {
    if |units| == 0 then [] else EncodeUnit(units[0]) + Encode(units[1..])
  }

  /** The title delivered for the order's string. */
  function Utf8(bytes: seq<Byte>): seq<Byte> {
    Encode(BeforeNul(Units(bytes)))
  }

  lemma {:induction false} EncodeAppend(a: seq<U16>, c: U16)
    ensures Encode(a + [c]) == Encode(a) + EncodeUnit(c)
  {
    if |a| == 0 {
      assert a + [c] == [c] && Encode([c]) == EncodeUnit(c) + Encode([]);
    } else {
      assert (a + [c])[1..] == a[1..] + [c];
      EncodeAppend(a[1..], c);
    }
  }

  ghost predicate NoNul(units: seq<U16>, i: nat)
    requires i <= |units|
  {
    forall k :: 0 <= k < i ==> units[k] != 0
  }

  lemma NextUnit(units: seq<U16>, i: nat)
    requires i < |units| && units[i] != 0 && NoNul(units, i)
    ensures NoNul(units, i + 1) && Encode(units[..i + 1]) == Encode(units[..i]) + EncodeUnit(units[i])
  {
    EncodeAppend(units[..i], units[i]);
    assert units[..i + 1] == units[..i] + [units[i]];
  }

  lemma {:induction false} BeforeNulIs(units: seq<U16>, i: nat)
    requires i <= |units| && (i < |units| ==> units[i] == 0)
    requires NoNul(units, i)
    ensures BeforeNul(units) == units[..i]
  {
    if i > 0 {
      assert NoNul(units[1..], i - 1);
      BeforeNulIs(units[1..], i - 1);
      assert units[..i] == [units[0]] + units[1..][..i - 1];
    }
  }

  method PutUnit(out: array<Byte>, o: nat, c: U16) returns (o': nat)
    requires o + 3 < out.Length
    modifies out
    ensures o <= o' <= o + 3
    ensures out[..o'] == old(out[..o]) + EncodeUnit(c)
  {
    if c < 0x80 {
      out[o] := c;
      o' := o + 1;
    } else if c < 0x800 {
      out[o] := 0xC0 + c / 64;
      out[o + 1] := 0x80 + c % 64;
      o' := o + 2;
    } else {
      out[o] := 0xE0 + c / 4096;
      out[o + 1] := 0x80 + c / 64 % 64;
      out[o + 2] := 0x80 + c % 64;
      o' := o + 3;
    }
  }

  /** The converter's buffer of three bytes per unit plus the terminator is never
      overrun, and holds exactly the title followed by NUL. */
  method TitleUtf8(bytes: seq<Byte>) returns (out: array<Byte>, len: nat)
    ensures fresh(out)
    ensures out.Length == 3 * (|bytes| / 2) + 1
    ensures len < out.Length
    ensures out[..len] == Utf8(bytes) && out[len] == 0
  {
    var n := |bytes| / 2;
    ghost var units := Units(bytes);
    out := new Byte[3 * n + 1];
    var o, i := 0, 0;
    while i < n
      invariant 0 <= i <= n && 0 <= o <= 3 * i
      invariant NoNul(units, i)
      invariant out[..o] == Encode(units[..i])
    {
      var c: U16 := bytes[i * 2] as int + 0x100 * (bytes[i * 2 + 1] as int);
      assert c == units[i];
      if c == 0 {
        break;
      }
      o := PutUnit(out, o, c);
      NextUnit(units, i);
      i := i + 1;
    }
    BeforeNulIs(units, i);
    out[o] := 0;
    len := o;
  }

  /** The C string reader stops at the terminator and nowhere before it. */
  lemma {:induction false} NoEarlyNul(units: seq<U16>)
    ensures forall k :: 0 <= k < |Encode(BeforeNul(units))| ==> Encode(BeforeNul(units))[k] != 0
  {
    if |units| > 0 && units[0] != 0 {
      NoEarlyNul(units[1..]);
      var rest := BeforeNul(units[1..]);
      assert BeforeNul(units)[1..] == rest;
      assert Encode(BeforeNul(units)) == EncodeUnit(units[0]) + Encode(rest);
    }
  }

  // ---- sections 3 and 4 of RFC 3629 --------------------------------------

  function Low(b: int, n: int): int
    requires n > 0
  {
    b % n
  }

  predicate Tail(b: Byte) { 0x80 <= b <= 0xBF }

  /** The scalar value and length of the first character of a UTF-8 octet string, by the
      UTF8-char grammar; None when no character starts here. */
  function FirstChar(b: seq<Byte>): Option<(int, nat)> {
    if |b| >= 1 && b[0] <= 0x7F then Some((b[0], 1))
    else if |b| >= 2 && 0xC2 <= b[0] <= 0xDF && Tail(b[1]) then
      Some((Low(b[0], 0x20) * 0x40 + Low(b[1], 0x40), 2))
    else if |b| >= 3 && ThreeByteLead(b[0], b[1]) && Tail(b[2]) then
      Some((Low(b[0], 0x10) * 0x1000 + Low(b[1], 0x40) * 0x40 + Low(b[2], 0x40), 3))
    else if |b| >= 4 && FourByteLead(b[0], b[1]) && Tail(b[2]) && Tail(b[3]) then
      Some((Low(b[0], 0x08) * 0x4_0000 + Low(b[1], 0x40) * 0x1000 + Low(b[2], 0x40) * 0x40 + Low(b[3], 0x40), 4))
    else None
  }

  predicate ThreeByteLead(a: Byte, b: Byte) {
    || (a == 0xE0 && 0xA0 <= b <= 0xBF)
    || (0xE1 <= a <= 0xEC && Tail(b))
    || (a == 0xED && 0x80 <= b <= 0x9F)
    || (0xEE <= a <= 0xEF && Tail(b))
  }

  predicate FourByteLead(a: Byte, b: Byte) {
    || (a == 0xF0 && 0x90 <= b <= 0xBF)
    || (0xF1 <= a <= 0xF3 && Tail(b))
    || (a == 0xF4 && 0x80 <= b <= 0x8F)
  }

  /** The characters of a well-formed octet string; None when it is not well formed. */
  function Decode(b: seq<Byte>): Option<seq<int>>
    decreases |b|
  {
    if |b| == 0 then Some([])
    else match FirstChar(b)
      case None => None
      case Some((c, n)) =>
        match Decode(b[n..])
        case None => None
        case Some(rest) => Some([c] + rest)
  }

  predicate Surrogate(c: U16) { 0xD800 <= c <= 0xDFFF }

  lemma Digits(c: U16) returns (hi: int, mid: int, lo: int)
    ensures c == 4096 * hi + 64 * mid + lo
    ensures 0 <= hi < 16 && 0 <= mid < 64 && 0 <= lo < 64
    ensures hi == c / 4096 && mid == c / 64 % 64 && lo == c % 64
    ensures c < 0x800 ==> c / 64 == 64 * hi + mid
  {
    hi, mid, lo := c / 4096, c / 64 % 64, c % 64;
  }

  lemma FirstCharOfUnit(c: U16, rest: seq<Byte>)
    ensures !Surrogate(c) ==> FirstChar(EncodeUnit(c) + rest) == Some((c as int, |EncodeUnit(c)|))
    ensures Surrogate(c) ==> FirstChar(EncodeUnit(c) + rest) == None
  {
    var b := EncodeUnit(c) + rest;
    var hi, mid, lo := Digits(c);
    if c < 0x80 {
      assert b[0] == c;
    } else if c < 0x800 {
      assert hi == 0 && b[0] == 0xC0 + mid && b[1] == 0x80 + lo;
      Low5Bits(mid);
      Low6Bits(lo);
    } else {
      assert b[0] == 0xE0 + hi && b[1] == 0x80 + mid && b[2] == 0x80 + lo;
      Low4Bits(hi);
      Low6Bits(mid);
      Low6Bits(lo);
      assert Surrogate(c) <==> hi == 13 && mid >= 32;
      assert ThreeByteLead(b[0], b[1]) <==> !Surrogate(c);
    }
  }

  lemma Low4Bits(x: int)
    requires 0 <= x < 0x10
    ensures Low(0xE0 + x, 0x10) == x
  {
  }

  lemma Low5Bits(x: int)
    requires 0 <= x < 0x20
    ensures Low(0xC0 + x, 0x20) == x
  {
  }

  lemma Low6Bits(x: int)
    requires 0 <= x < 0x40
    ensures Low(0x80 + x, 0x40) == x
  {
  }

  /** The title bytes are well-formed UTF-8 exactly when no surrogate unit comes before
      the first NUL, and then they decode to the units themselves. */
  lemma {:induction false} EncodeDecodes(units: seq<U16>)
    ensures (forall i :: 0 <= i < |units| ==> !Surrogate(units[i])) ==> Decode(Encode(units)) == Some(units)
    ensures (exists i :: 0 <= i < |units| && Surrogate(units[i])) ==> Decode(Encode(units)) == None
  {
    if |units| > 0 {
      EncodeDecodes(units[1..]);
      FirstCharOfUnit(units[0], Encode(units[1..]));
      assert Encode(units)[|EncodeUnit(units[0])|..] == Encode(units[1..]);
      assert units == [units[0]] + units[1..];
      if exists i :: 0 <= i < |units| && Surrogate(units[i]) {
        var i :| 0 <= i < |units| && Surrogate(units[i]);
        assert i == 0 || Surrogate(units[1..][i - 1]);
      }
    }
  }

  lemma TitleRoundTrip(bytes: seq<Byte>)
    ensures Decode(Utf8(bytes)) ==
            if exists c :: c in BeforeNul(Units(bytes)) && Surrogate(c) then None
            else Some(BeforeNul(Units(bytes)))
  {
    var units := BeforeNul(Units(bytes));
    EncodeDecodes(units);
    if c :| c in units && Surrogate(c) {
      var i :| 0 <= i < |units| && units[i] == c;
    }
  }

  /** Character `k` of the order's bytes, low byte first. */
  function CharAt(bytes: seq<Byte>, k: nat): (c: U16)
    requires 2 * k + 1 < |bytes|
  {
    bytes[2 * k] as int + 0x100 * (bytes[2 * k + 1] as int)
  }

  /** The order's bytes hold `n` characters before the end or the first NUL. */
  predicate Holds(bytes: seq<Byte>, n: nat) {
    && 2 * n <= |bytes|
    && (forall k :: 0 <= k < n ==> CharAt(bytes, k) != 0)
    && (2 * n + 1 < |bytes| ==> CharAt(bytes, n) == 0)
  }

  function Chars(bytes: seq<Byte>, n: nat): (s: seq<int>)
    requires 2 * n <= |bytes|
  {
    seq(n, k requires 0 <= k < n => CharAt(bytes, k))
  }

  lemma CharsAreUnits(bytes: seq<Byte>, n: nat)
    requires Holds(bytes, n)
    ensures BeforeNul(Units(bytes)) == Chars(bytes, n)
  {
    var units := Units(bytes);
    forall k | 0 <= k < n ensures units[k] == CharAt(bytes, k) {}
    BeforeNulIs(units, n);
    assert units[..n] == Chars(bytes, n);
  }

  /** Without surrogates the title delivered decodes to exactly these characters; with one it
      is not well formed. */
  lemma TitleOfBytes(bytes: seq<Byte>, n: nat)
    requires Holds(bytes, n)
    ensures Decode(Utf8(bytes)) ==
            if exists c :: c in Chars(bytes, n) && 0xD800 <= c <= 0xDFFF then None else Some(Chars(bytes, n))
  {
    CharsAreUnits(bytes, n);
    TitleRoundTrip(bytes);
  }
}
