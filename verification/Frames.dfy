/**
 The bounded frame codec of the machine wire: a four-byte little-endian length and
 a body of at most one mebibyte. The value encoding is a parameter of which only
 faithfulness is used: encodings are not empty and decode to the value they encode.
 */
module Frames {
  import opened Optional

  newtype Byte = b: int | 0 <= b < 256

  const MAX_FRAME_BYTES: nat := 1024 * 1024

  datatype Codec<!T> = Codec(encode: T -> seq<Byte>, decode: seq<Byte> -> Option<T>)

  ghost predicate Faithful<T(!new)>(c: Codec<T>) {
    forall v :: c.encode(v) != [] && c.decode(c.encode(v)) == Some(v)
  }

  /** The four little-endian bytes of a 32-bit length. */
  function Prefix(n: nat): (p: seq<Byte>)
    ensures |p| == 4
  {
    [(n % 256) as Byte, (n / 256 % 256) as Byte, (n / 65536 % 256) as Byte, (n / 16777216 % 256) as Byte]
  }

  function Length(p: seq<Byte>): nat
    requires |p| == 4
  {
    p[0] as nat + 256 * p[1] as nat + 65536 * p[2] as nat + 16777216 * p[3] as nat
  }

  lemma LengthOfPrefix(n: nat)
    requires n <= MAX_FRAME_BYTES
    ensures Length(Prefix(n)) == n
  {
    assert n == n % 256 + 256 * (n / 256);
    assert n / 256 == n / 256 % 256 + 256 * (n / 65536);
    assert n / 65536 % 256 == n / 65536 && n / 16777216 == 0;
  }

  function Frame(body: seq<Byte>): seq<Byte> { Prefix(|body|) + body }

  function Join(chunks: seq<seq<Byte>>): seq<Byte> {
    if chunks == [] then [] else Join(chunks[..|chunks| - 1]) + chunks[|chunks| - 1]
  }

  lemma {:induction false} JoinTake(chunks: seq<seq<Byte>>, i: nat)
    requires i < |chunks|
    ensures Join(chunks[..i + 1]) == Join(chunks[..i]) + chunks[i]
    ensures |Join(chunks[..i + 1])| <= |Join(chunks)|
    decreases |chunks| - i
  {
    assert chunks[..i + 1][..i] == chunks[..i];
    if i + 1 < |chunks| {
      JoinTake(chunks, i + 1);
    } else {
      assert chunks[..i + 1] == chunks;
    }
  }

  // ---- Writing and reading -------------------------------------------------------------------------

  class Stream {
    var data: seq<Byte>

    constructor (data: seq<Byte>)
      ensures this.data == data
    {
      this.data := data;
    }
  }

  /** Write one frame; the serializer hands over its output in arbitrary chunks. An oversize value
      emits no byte. */
  method WriteFrame(writer: Stream, chunks: seq<seq<Byte>>) returns (ok: bool)
    modifies writer
    ensures ok <==> |Join(chunks)| <= MAX_FRAME_BYTES
    ensures writer.data == if ok then old(writer.data) + Frame(Join(chunks)) else old(writer.data)
  {
    var encoded: seq<Byte> := [];
    for i := 0 to |chunks|
      invariant encoded == Join(chunks[..i]) && |encoded| <= MAX_FRAME_BYTES && writer.data == old(writer.data)
    {
      JoinTake(chunks, i);
      if |chunks[i]| > MAX_FRAME_BYTES - |encoded| { return false; }
      encoded := encoded + chunks[i];
    }
    assert chunks[..|chunks|] == chunks;
    writer.data := writer.data + Prefix(|encoded|);
    writer.data := writer.data + encoded;
    ok := true;
  }

  datatype Read<+T> = Value(value: T, rest: seq<Byte>) | Refused

  /** What a reader makes of the bytes before it. */
  function ReadOne<T>(c: Codec<T>, bytes: seq<Byte>): (r: Read<T>)
    ensures r.Value? ==> |r.rest| + 4 < |bytes|
  {
    if |bytes| < 4 then Refused
    else
      var n := Length(bytes[..4]);
      if n == 0 || n > MAX_FRAME_BYTES || |bytes| < 4 + n then Refused
      else
        var value := c.decode(bytes[4..4 + n]);
        if value.None? then Refused else Value(value.value, bytes[4 + n..])
  }

  /** Read one frame. The length is checked before any body byte is taken. */
  method ReadFrame<T>(reader: Stream, c: Codec<T>) returns (r: Option<T>)
    modifies reader
    ensures var spec := ReadOne(c, old(reader.data));
            if spec.Value? then r == Some(spec.value) && reader.data == spec.rest
            else r == None && exists k :: 0 <= k <= |old(reader.data)| && reader.data == old(reader.data)[k..]
    ensures |old(reader.data)| >= 4 && !(0 < Length(old(reader.data)[..4]) <= MAX_FRAME_BYTES) ==>
        reader.data == old(reader.data)[4..]
  {
    ghost var bytes := reader.data;
    if |reader.data| < 4 {
      reader.data := [];
      assert reader.data == bytes[|bytes|..];
      return None;
    }
    var n := Length(reader.data[..4]);
    reader.data := reader.data[4..];
    if n == 0 || n > MAX_FRAME_BYTES { return None; }
    if |reader.data| < n {
      reader.data := [];
      assert reader.data == bytes[|bytes|..];
      return None;
    }
    var body := reader.data[..n];
    reader.data := reader.data[n..];
    assert body == bytes[4..4 + n] && reader.data == bytes[4 + n..];
    r := c.decode(body);
  }

  // ---- Round trips ---------------------------------------------------------------------------------

  predicate Fits<T>(c: Codec<T>, v: T) { |c.encode(v)| <= MAX_FRAME_BYTES }

  /** A written frame reads back as its value and leaves exactly what followed it. */
  lemma FrameRoundTrip<T(!new)>(c: Codec<T>, v: T, rest: seq<Byte>)
    requires Faithful(c) && Fits(c, v)
    ensures ReadOne(c, Frame(c.encode(v)) + rest) == Value(v, rest)
  {
    var body := c.encode(v);
    var bytes := Frame(body) + rest;
    LengthOfPrefix(|body|);
    assert bytes[..4] == Prefix(|body|);
    assert bytes[4..4 + |body|] == body;
    assert bytes[4 + |body|..] == rest;
  }

  function Frames<T>(c: Codec<T>, values: seq<T>): seq<Byte> {
    if values == [] then [] else Frame(c.encode(values[0])) + Frames(c, values[1..])
  }

  /** All values up to the first refusal, and the bytes from there. */
  function ReadAll<T>(c: Codec<T>, bytes: seq<Byte>): (seq<T>, seq<Byte>)
    decreases |bytes|
  {
    var r := ReadOne(c, bytes);
    if r.Refused? then ([], bytes)
    else
      var tail := ReadAll(c, r.rest);
      ([r.value] + tail.0, tail.1)
  }

  /** Any sequence of written values reads back as the same sequence with nothing left over. */
  lemma {:induction false} StreamRoundTrip<T(!new)>(c: Codec<T>, values: seq<T>)
    requires Faithful(c) && forall v :: v in values ==> Fits(c, v)
    ensures ReadAll(c, Frames(c, values)) == (values, [])
    decreases values
  {
    if values != [] {
      FrameRoundTrip(c, values[0], Frames(c, values[1..]));
      StreamRoundTrip(c, values[1..]);
      assert [values[0]] + values[1..] == values;
    }
  }

  /** A frame cut short is refused. */
  lemma CutFrameIsRefused<T(!new)>(c: Codec<T>, v: T, k: nat)
    requires Fits(c, v) && k < |Frame(c.encode(v))|
    ensures ReadOne(c, Frame(c.encode(v))[..k]) == Refused
  {
    var body := c.encode(v);
    if k >= 4 {
      LengthOfPrefix(|body|);
      assert Frame(body)[..k][..4] == Prefix(|body|);
    }
  }

  /** Cutting a stream anywhere yields a prefix of the values written, and never another value. */
  lemma {:induction false} CutStreamReadsPrefix<T(!new)>(c: Codec<T>, values: seq<T>, k: nat)
    requires Faithful(c) && (forall v :: v in values ==> Fits(c, v)) && k <= |Frames(c, values)|
    ensures ReadAll(c, Frames(c, values)[..k]).0 <= values
    decreases values
  {
    if values != [] {
      var head, tail := Frame(c.encode(values[0])), Frames(c, values[1..]);
      if k < |head| {
        assert (head + tail)[..k] == head[..k];
        CutFrameIsRefused(c, values[0], k);
      } else {
        assert (head + tail)[..k] == head + tail[..k - |head|];
        FrameRoundTrip(c, values[0], tail[..k - |head|]);
        CutStreamReadsPrefix(c, values[1..], k - |head|);
      }
    }
  }
}
