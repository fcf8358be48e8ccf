/**
 Length-prefixed frames over a byte stream (crates/core/src/ipc.rs). A frame is a 4-byte
 big-endian length and a body; the body's JSON is not part of this model.
 */
module Framing {
  import opened Types

  const MAX_FRAME: nat := 16 * 1024 * 1024
  const TWO_32: nat := 0x1_0000_0000

  datatype ReadResult = Frame(body: Bytes) | FrameTooLarge(length: nat) | Closed | IoError

  /** `u32::to_be_bytes`. */
  function ToBytes(n: nat): (b: Bytes)
    requires n < TWO_32
    ensures |b| == 4
  {
    [(n / 0x100_0000) as byte, (n / 0x1_0000 % 0x100) as byte, (n / 0x100 % 0x100) as byte, (n % 0x100) as byte]
  }

  /** `u32::from_be_bytes`. */
  function FromBytes(b: Bytes): (n: nat)
    requires |b| == 4
    ensures n < TWO_32
  {
    b[0] as nat * 0x100_0000 + b[1] as nat * 0x1_0000 + b[2] as nat * 0x100 + b[3] as nat
  }

  lemma LengthRoundTrip(n: nat)
    requires n < TWO_32
    ensures FromBytes(ToBytes(n)) == n
  {
    assert n == n / 0x100 * 0x100 + n % 0x100;
    assert n / 0x100 == n / 0x1_0000 * 0x100 + n / 0x100 % 0x100;
    assert n / 0x1_0000 == n / 0x100_0000 * 0x100 + n / 0x1_0000 % 0x100;
  }

  /** `body.len() as u32`: a longer body's length is cut to 32 bits. */
  function Encode(body: Bytes): Bytes {
    ToBytes(|body| % TWO_32) + body
  }

  function EncodeAll(bodies: seq<Bytes>): Bytes {
    if bodies == [] then [] else Encode(bodies[0]) + EncodeAll(bodies[1..])
  }

  /** What the next read gives, and the bytes it leaves unread. */
  function ReadOne(stream: Bytes): (ReadResult, Bytes) {
    if |stream| < 4 then (Closed, [])
    else
      var length := FromBytes(stream[..4]);
      if length > MAX_FRAME then (FrameTooLarge(length), stream[4..])
      else if |stream| < 4 + length then (IoError, [])
      else (Frame(stream[4..4 + length]), stream[4 + length..])
  }

  /** All frames up to the first read that fails, and how that one fails. */
  function DecodeAll(stream: Bytes): (seq<Bytes>, ReadResult)
    decreases |stream|
  {
    var (r, rest) := ReadOne(stream);
    if r.Frame? then
      var (bodies, end) := DecodeAll(rest);
      ([r.body] + bodies, end)
    else ([], r)
  }

  class Writer {
    var out: Bytes

    constructor ()
      ensures out == []
    {
      out := [];
    }

    method WriteFrame(body: Bytes)
      modifies this
      ensures out == old(out) + Encode(body)
    {
      out := out + ToBytes(|body| % TWO_32);
      out := out + body;
      assert out == old(out) + Encode(body);
    }
  }

  class Reader {
    const data: Bytes
    var pos: nat

    ghost predicate Valid()
      reads this
    {
      pos <= |data|
    }

    function Unread(): Bytes
      requires Valid()
      reads this
    {
      data[pos..]
    }

    constructor (data: Bytes)
      ensures Valid() && Unread() == data
    {
      this.data := data;
      pos := 0;
    }

    /** `read_exact`: None is the unexpected end of the stream. */
    method ReadExact(n: nat) returns (bytes: Option<Bytes>)
      requires Valid()
      modifies this
      ensures Valid()
      ensures bytes.Some? <==> n <= |old(Unread())|
      ensures bytes.Some? ==> bytes.value == old(Unread())[..n] && Unread() == old(Unread())[n..]
      ensures bytes.None? ==> Unread() == []
    {
      if |data| - pos < n {
        pos := |data|;
        return None;
      }
      bytes := Some(data[pos..pos + n]);
      pos := pos + n;
    }

    method ReadFrame() returns (r: ReadResult)
      requires Valid()
      modifies this
      ensures Valid()
      ensures (r, Unread()) == ReadOne(old(Unread()))
    {
      var header := ReadExact(4);
      if header.None? {
        return Closed;
      }
      var length := FromBytes(header.value);
      if length > MAX_FRAME {
        return FrameTooLarge(length);
      }
      var body := ReadExact(length);
      if body.None? {
        return IoError;
      }
      ghost var s := old(Unread());
      assert s[4..][..length] == s[4..4 + length] && s[4..][length..] == s[4 + length..];
      r := Frame(body.value);
    }
  }

  /** A frame is read back, and the stream left right after it, exactly if its body fits. */
  lemma ReadWrittenIff(body: Bytes, rest: Bytes)
    ensures ReadOne(Encode(body) + rest) == (Frame(body), rest) <==> |body| <= MAX_FRAME
  {
    var stream, n := Encode(body) + rest, |body| % TWO_32;
    LengthRoundTrip(n);
    assert stream[..4] == ToBytes(n);
    if |body| <= MAX_FRAME {
      assert stream[4..4 + |body|] == body;
      assert stream[4 + |body|..] == rest;
    } else if n <= MAX_FRAME {
      assert |body| > n;
    }
  }

  /** A header holds its length, most significant byte first. */
  lemma HeaderIsBigEndian(n: nat)
    requires n < TWO_32
    ensures var h := ToBytes(n);
            |h| == 4 && h[0] as nat * 0x100_0000 + h[1] as nat * 0x1_0000 + h[2] as nat * 0x100 + h[3] as nat == n
  {
    LengthRoundTrip(n);
  }

  /** A frame whose body is beyond the limit is refused by its length, and the stream left right after
      the header. */
  lemma OversizeIsRefused(body: Bytes, rest: Bytes)
    requires MAX_FRAME < |body| < TWO_32
    ensures ReadOne(Encode(body) + rest) == (FrameTooLarge(|body|), body + rest)
  {
    LengthRoundTrip(|body|);
    assert Encode(body) + rest == ToBytes(|body|) + (body + rest);
    ReadsHeader(ToBytes(|body|), body + rest);
  }

  lemma ReadsHeader(header: Bytes, rest: Bytes)
    requires |header| == 4 && FromBytes(header) > MAX_FRAME
    ensures ReadOne(header + rest) == (FrameTooLarge(FromBytes(header)), rest)
  {
    assert (header + rest)[..4] == header && (header + rest)[4..] == rest;
  }

  predicate AllFit(bodies: seq<Bytes>) {
    forall i :: 0 <= i < |bodies| ==> |bodies[i]| <= MAX_FRAME
  }

  /** A stream of frames decodes to exactly the bodies written, then Closed, if and only if every
      body fits. */
  lemma {:induction false} DecodeEncodedIff(bodies: seq<Bytes>)
    ensures DecodeAll(EncodeAll(bodies)) == (bodies, Closed) <==> AllFit(bodies)
    decreases |bodies|
  {
    if bodies == [] {
    } else {
      var first, rest := bodies[0], bodies[1..];
      ReadWrittenIff(first, EncodeAll(rest));
      DecodeEncodedIff(rest);
      assert bodies == [first] + rest;
      if |first| <= MAX_FRAME {
        assert AllFit(bodies) <==> AllFit(rest);
        var (got, end) := DecodeAll(EncodeAll(rest));
        assert ([first] + got)[1..] == got;
      } else {
        FirstDiffers(first, rest);
      }
    }
  }

  lemma FirstDiffers(first: Bytes, rest: seq<Bytes>)
    requires |first| > MAX_FRAME
    ensures DecodeAll(Encode(first) + EncodeAll(rest)).0 != [first] + rest
  {
    var stream := Encode(first) + EncodeAll(rest);
    var r := ReadOne(stream).0;
    if r.Frame? {
      assert |r.body| <= MAX_FRAME;
      assert DecodeAll(stream).0[0] == r.body;
    } else {
      assert DecodeAll(stream).0 == [];
    }
  }

  /** How a stream cut after `n` bytes ends: between frames or inside a length header it reads as
      Closed, inside a body as an I/O error. */
  predicate CutAfter(bodies: seq<Bytes>, m: nat, n: nat, end: ReadResult) {
    && m < |bodies|
    && var start := |EncodeAll(bodies[..m])|;
       && start <= n < start + 4 + |bodies[m]|
       && end == if n < start + 4 then Closed else IoError
  }

  /** Any strict prefix of a stream of frames decodes to the frames wholly in it, and then ends as
      `CutAfter` says: it never decodes to a different body. */
  lemma {:induction false} DecodePrefix(bodies: seq<Bytes>, n: nat) returns (m: nat)
    requires AllFit(bodies) && n < |EncodeAll(bodies)|
    ensures m < |bodies| && DecodeAll(EncodeAll(bodies)[..n]).0 == bodies[..m]
    ensures CutAfter(bodies, m, n, DecodeAll(EncodeAll(bodies)[..n]).1)
    decreases |bodies|
  {
    var first, rest, stream := bodies[0], bodies[1..], EncodeAll(bodies);
    var frame := Encode(first);
    if n < |frame| {
      m := 0;
      CutFirstFrame(first, EncodeAll(rest), n);
      assert bodies[..0] == [];
    } else {
      var k := DecodePrefix(rest, n - |frame|);
      m := k + 1;
      assert stream[..n] == frame + EncodeAll(rest)[..n - |frame|];
      ReadWrittenIff(first, EncodeAll(rest)[..n - |frame|]);
      assert bodies[..m] == [first] + rest[..k];
      assert bodies[..m][1..] == rest[..k];
    }
  }

  lemma CutFrame(header: Bytes, body: Bytes, rest: Bytes, n: nat)
    requires |header| == 4 && FromBytes(header) == |body| <= MAX_FRAME && n < 4 + |body|
    ensures ReadOne((header + body + rest)[..n]).0 == if n < 4 then Closed else IoError
  {
    var cut := (header + body + rest)[..n];
    if n >= 4 {
      assert cut[..4] == header;
    }
  }

  lemma EncodedParts(body: Bytes) returns (header: Bytes)
    requires |body| < TWO_32
    ensures Encode(body) == header + body && |header| == 4 && FromBytes(header) == |body|
  {
    LengthRoundTrip(|body|);
    header := ToBytes(|body|);
  }

  lemma CutFirstFrame(first: Bytes, rest: Bytes, n: nat)
    requires |first| <= MAX_FRAME && n < |Encode(first)|
    ensures ReadOne((Encode(first) + rest)[..n]).0 == if n < 4 then Closed else IoError
  {
    var header := EncodedParts(first);
    CutFrame(header, first, rest, n);
  }
}
