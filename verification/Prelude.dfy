/** Machine integers and small sequence notions shared by every module. */
module Prelude {

  datatype Option<+T> = None | Some(value: T)

  type Byte = x: int | 0 <= x < 0x100
  type U16 = x: int | 0 <= x < 0x1_0000
  type U32 = x: int | 0 <= x < 0x1_0000_0000
  type U64 = x: int | 0 <= x < 0x1_0000_0000_0000_0000
  type I32 = x: int | -0x8000_0000 <= x < 0x8000_0000

  /** A conversion to `uint32_t`: the low 32 bits. */
  function WrapU32(x: int): U32 { x % 0x1_0000_0000 }

  /** Two's-complement wrap-around of 32-bit signed arithmetic. */
  function WrapI32(x: int): I32 { (x + 0x8000_0000) % 0x1_0000_0000 - 0x8000_0000 }

  lemma WrapI32Id(x: int)
    requires -0x8000_0000 <= x < 0x8000_0000
    ensures WrapI32(x) == x
  {
  }

  lemma WrapI32Add(x: int, y: int)
    ensures WrapI32(WrapI32(x) + y) == WrapI32(x + y)
  {
  }

  /** A flag word has a one-bit flag. */
  predicate HasBit(flags: U32, bit: U32)
    requires bit > 0
  {
    (flags / bit) % 2 == 1
  }

  /** The space docked bars reserve at each screen edge. */
  datatype Insets = Insets(top: int, right: int, bottom: int, left: int)

  /** Division that truncates toward zero, as in Rust and C. */
  function TruncDiv(a: int, b: int): int
    requires b > 0
  {
    if a >= 0 then a / b else -((-a) / b)
  }

  function Max(a: int, b: int): int { if a < b then b else a }

  predicate Distinct<T(==)>(s: seq<T>) {
    forall i, j :: 0 <= i < j < |s| ==> s[i] != s[j]
  }

  function ToSet<T>(s: seq<T>): set<T> { set x | x in s }

  /** `Vec::retain(|&y| y != x)`. */
  function Without<T(==,!new)>(s: seq<T>, x: T): (r: seq<T>)
    ensures forall y :: y in r <==> y in s && y != x
  {
    if |s| == 0 then [] else (if s[0] == x then [] else [s[0]]) + Without(s[1..], x)
  }

  lemma {:induction false} WithoutDistinct<T(!new)>(s: seq<T>, x: T)
    requires Distinct(s)
    ensures Distinct(Without(s, x))
  {
    if |s| > 0 {
      WithoutDistinct(s[1..], x);
      assert s[0] !in s[1..];
    }
  }

  lemma ConcatAssoc<T>(a: seq<T>, b: seq<T>, c: seq<T>)
    ensures a + b + c == a + (b + c)
  {
  }

  lemma TakeTake<T>(s: seq<T>, n: nat, m: nat)
    requires m <= n <= |s|
    ensures s[..n][..m] == s[..m]
  {
  }

  /** The largest value over a set of keys, 0 when there are none. */
  lemma {:induction false} MaxExists<T(!new)>(keys: set<T>, value: map<T, int>) returns (z: int)
    requires forall k :: k in keys ==> k in value && value[k] > 0
    ensures z >= 0 && (forall k :: k in keys ==> value[k] <= z)
    ensures z > 0 ==> exists k :: k in keys && value[k] == z
  {
    z := 0;
    if keys != {} {
      var k :| k in keys;
      var rest := MaxExists(keys - {k}, value);
      z := Max(value[k], rest);
      assert forall x :: x in keys ==> x == k || x in keys - {k};
    }
  }
}
