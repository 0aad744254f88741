/** Length-prefixed frames on a byte stream: a little-endian `u32` length, then that many
    bytes of serialized message. */
module Framing {
  import opened Prelude

  /** A message serializer, assumed only to be undone by its deserializer. */
  datatype Codec<!T> = Codec(serialize: T -> seq<Byte>, deserialize: seq<Byte> -> Option<T>)

  ghost predicate Lawful<T(!new)>(c: Codec<T>) {
    forall m :: c.deserialize(c.serialize(m)) == Some(m)
  }

  function LeBytes(n: U32): (b: seq<Byte>)
    ensures |b| == 4
  {
    [n % 0x100, n / 0x100 % 0x100, n / 0x1_0000 % 0x100, n / 0x100_0000]
  }

  function FromLe(b: seq<Byte>): U32
    requires |b| == 4
  {
    b[0] as int + 0x100 * (b[1] as int) + 0x1_0000 * (b[2] as int) + 0x100_0000 * (b[3] as int)
  }

  lemma LeRoundTrip(n: U32)
    ensures FromLe(LeBytes(n)) == n
  {
    var q1 := n / 0x100;
    var q2 := q1 / 0x100;
    assert n / 0x1_0000 == q2 && n / 0x100_0000 == q2 / 0x100;
  }

  predicate Fits<T>(c: Codec<T>, m: T) {
    |c.serialize(m)| < 0x1_0000_0000
  }

  /** The complete frame of a message; None when it is too long for its length field. */
  function EncodeFrame<T>(c: Codec<T>, m: T): Option<seq<Byte>> {
    var bytes := c.serialize(m);
    if |bytes| < 0x1_0000_0000 then Some(LeBytes(|bytes|) + bytes) else None
  }

  /** On the wire a message is its length, low byte first, and then its bytes. */
  lemma FrameBytes<T>(c: Codec<T>, m: T)
    ensures var payload, frame := c.serialize(m), EncodeFrame(c, m);
            if |payload| >= 0x1_0000_0000 then frame == None
            else
              && frame.Some? && |frame.value| == 4 + |payload| && frame.value[4..] == payload
              && frame.value[0] as int + 0x100 * (frame.value[1] as int) + 0x1_0000 * (frame.value[2] as int)
                 + 0x100_0000 * (frame.value[3] as int) == |payload|
  {
    if |c.serialize(m)| < 0x1_0000_0000 {
      LeRoundTrip(|c.serialize(m)|);
      assert EncodeFrame(c, m).value[..4] == LeBytes(|c.serialize(m)|);
    }
  }

  datatype Outcome<+T> = Got(msg: T) | Eof | Err

  /** One read from the remaining input: the outcome and the input left. A stream that ends
      inside a header reads as a clean end, one that ends inside a payload as an error. */
  function ReadFrame<T>(c: Codec<T>, input: seq<Byte>): (r: (Outcome<T>, seq<Byte>))
    ensures r.0.Got? ==> |r.1| < |input|
  {
    if |input| < 4 then (Eof, [])
    else
      var len := FromLe(input[..4]);
      if |input| < 4 + len then (Err, [])
      else match c.deserialize(input[4..4 + len])
        case Some(m) => (Got(m), input[4 + len..])
        case None => (Err, input[4 + len..])
  }

  /** Reading until something other than a message turns up. */
  function ReadAll<T>(c: Codec<T>, input: seq<Byte>): (seq<T>, Outcome<T>)
    decreases |input|
  {
    match ReadFrame(c, input)
    case (Got(m), rest) =>
      var (more, end) := ReadAll(c, rest);
      ([m] + more, end)
    case (end, _) => ([], end)
  }

  class Reader {
    var input: seq<Byte>

    constructor (input: seq<Byte>)
      ensures this.input == input
    {
      this.input := input;
    }

    /** `read_exact`: `n` bytes, or nothing and the stream used up. */
    method ReadExact(n: nat) returns (buf: Option<seq<Byte>>)
      modifies this
      ensures if n <= |old(input)| then buf == Some(old(input)[..n]) && input == old(input)[n..]
              else buf == None && input == []
    {
      if n <= |input| {
        buf := Some(input[..n]);
        input := input[n..];
      } else {
        buf := None;
        input := [];
      }
    }

    method Read<T>(c: Codec<T>) returns (r: Outcome<T>)
      modifies this
      ensures (r, input) == ReadFrame(c, old(input))
    {
      var header := ReadExact(4);
      if header.None? {
        return Eof;
      }
      var len := FromLe(header.value);
      var payload := ReadExact(len);
      if payload.None? {
        return Err;
      }
      assert payload.value == old(input)[4..4 + len];
      var m := c.deserialize(payload.value);
      if m.None? {
        return Err;
      }
      return Got(m.value);
    }
  }

  // ---- writing and reading back ------------------------------------------

  predicate AllFit<T>(c: Codec<T>, msgs: seq<T>) {
    forall i :: 0 <= i < |msgs| ==> Fits(c, msgs[i])
  }

  /** The frames of the messages, back to back. */
  function Stream<T>(c: Codec<T>, msgs: seq<T>): seq<Byte>
    requires AllFit(c, msgs)
  {
    if |msgs| == 0 then [] else EncodeFrame(c, msgs[0]).value + Stream(c, msgs[1..])
  }

  /** How many of the messages are complete in the first `n` bytes of their stream, and how
      many bytes of the next frame follow them. */
  function Complete<T>(c: Codec<T>, msgs: seq<T>, n: nat): (nat, nat)
    requires AllFit(c, msgs)
  {
    if |msgs| == 0 then (0, n)
    else
      var size := |EncodeFrame(c, msgs[0]).value|;
      if n < size then (0, n)
      else var (k, extra) := Complete(c, msgs[1..], n - size); (k + 1, extra)
  }

  lemma ReadOne<T(!new)>(c: Codec<T>, m: T, rest: seq<Byte>)
    requires Lawful(c) && Fits(c, m)
    ensures ReadFrame(c, EncodeFrame(c, m).value + rest) == (Got(m), rest)
  {
    var bytes := c.serialize(m);
    var input := EncodeFrame(c, m).value + rest;
    LeRoundTrip(|bytes|);
    assert input[..4] == LeBytes(|bytes|);
    assert input[4..4 + |bytes|] == bytes;
    assert input[4 + |bytes|..] == rest;
  }

  lemma ReadCut<T(!new)>(c: Codec<T>, m: T, n: nat)
    requires Fits(c, m) && n < |EncodeFrame(c, m).value|
    ensures ReadFrame(c, EncodeFrame(c, m).value[..n]).0 == if n < 4 then Eof else Err
  {
    var bytes := c.serialize(m);
    var input := EncodeFrame(c, m).value[..n];
    if n >= 4 {
      LeRoundTrip(|bytes|);
      assert input[..4] == LeBytes(|bytes|);
    }
  }

  /** Reading any prefix of a stream of frames yields exactly the complete messages, then a
      clean end if the cut falls on a boundary or inside a header, and an error if it falls
      inside a payload. */
  lemma {:induction false} PrefixReads<T(!new)>(c: Codec<T>, msgs: seq<T>, n: nat)
    requires Lawful(c) && AllFit(c, msgs) && n <= |Stream(c, msgs)|
    ensures var (k, extra) := Complete(c, msgs, n);
            k <= |msgs| && ReadAll(c, Stream(c, msgs)[..n]) == (msgs[..k], if extra < 4 then Eof else Err)
  {
    if |msgs| > 0 {
      var frame, rest := EncodeFrame(c, msgs[0]).value, Stream(c, msgs[1..]);
      var input := Stream(c, msgs)[..n];
      if n < |frame| {
        assert input == frame[..n];
        ReadCut(c, msgs[0], n);
      } else {
        PrefixReads(c, msgs[1..], n - |frame|);
        assert input == frame + rest[..n - |frame|];
        ReadFirst(c, msgs[0], rest[..n - |frame|]);
        OneMoreRead(msgs, Complete(c, msgs[1..], n - |frame|).0);
      }
    }
  }

  lemma OneMoreRead<T>(msgs: seq<T>, k: nat)
    requires k < |msgs|
    ensures msgs[..k + 1] == [msgs[0]] + msgs[1..][..k]
  {
  }

  /** A whole frame in front is read, and then the rest. */
  lemma ReadFirst<T(!new)>(c: Codec<T>, m: T, rest: seq<Byte>)
    requires Lawful(c) && Fits(c, m)
    ensures var (msgs, end) := ReadAll(c, rest); ReadAll(c, EncodeFrame(c, m).value + rest) == ([m] + msgs, end)
  {
    ReadOne(c, m, rest);
  }

  lemma {:induction false} AllComplete<T(!new)>(c: Codec<T>, msgs: seq<T>)
    requires AllFit(c, msgs)
    ensures Complete(c, msgs, |Stream(c, msgs)|) == (|msgs|, 0)
  {
    if |msgs| > 0 {
      AllComplete(c, msgs[1..]);
    }
  }

  /** Reading a whole stream yields exactly the messages written, then a clean end. */
  lemma StreamReads<T(!new)>(c: Codec<T>, msgs: seq<T>)
    requires Lawful(c) && AllFit(c, msgs)
    ensures ReadAll(c, Stream(c, msgs)) == (msgs, Eof)
  {
    AllComplete(c, msgs);
    PrefixReads(c, msgs, |Stream(c, msgs)|);
    assert Stream(c, msgs)[..|Stream(c, msgs)|] == Stream(c, msgs);
    assert msgs[..|msgs|] == msgs;
  }
}
