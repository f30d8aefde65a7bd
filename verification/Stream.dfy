/** The encrypted byte stream between two nodes: plaintext cut into frames on
    one side, reassembled on the other, with length-prefixed messages on top.
    The cipher is given; a message number stands for its implicit nonce. */
module Stream {
  import opened Primitives
  import Difficulty

  /** One direction of an established session. */
  datatype Cipher = Cipher(encrypt: (nat, seq<Byte>) -> seq<Byte>, decrypt: (nat, seq<Byte>) -> Option<seq<Byte>>)

  const MAX_CIPHERTEXT: nat := 65535
  const TAG_LEN: nat := 16
  const MAX_PLAINTEXT: nat := MAX_CIPHERTEXT - TAG_LEN
  const MAX_MESSAGE: nat := 64 * 1024 * 1024

  /** What the cipher provides: a 16-byte tag, and decryption at the same message number. */
  ghost predicate Sound(c: Cipher) {
    forall n: nat, pt: seq<Byte> :: |pt| <= MAX_PLAINTEXT ==>
      |c.encrypt(n, pt)| == |pt| + TAG_LEN && c.decrypt(n, c.encrypt(n, pt)) == Some(pt)
  }

  datatype StreamError = UnexpectedEof | DecryptFailed | TooLarge(len: nat)

  // ----- frames -----

  /** The length is cut to 16 bits, as the cast in the code does. */
  function Frame(data: seq<Byte>): seq<Byte> {
    [|data| % 0x1_0000 / 0x100, |data| % 0x100] + data
  }

  function ParseFrame(input: seq<Byte>): (r: Option<(seq<Byte>, seq<Byte>)>)
    ensures r.Some? ==> |r.value.1| < |input|
  {
    if |input| < 2 then None
    else
      var len := (input[0] as int) * 0x100 + input[1];
      if |input| < 2 + len then None else Some((input[2..2 + len], input[2 + len..]))
  }

  lemma FrameRoundTrip(data: seq<Byte>, rest: seq<Byte>)
    requires |data| <= MAX_CIPHERTEXT
    ensures ParseFrame(Frame(data) + rest) == Some((data, rest))
  {
    var input := Frame(data) + rest;
    assert (input[0] as int) * 0x100 + input[1] == |data|;
    assert input[2..2 + |data|] == data && input[2 + |data|..] == rest;
  }

  /** The bytes of a frame: its length, high byte first, then the data. */
  lemma FrameBytes(data: seq<Byte>)
    ensures |Frame(data)| == 2 + |data| && Frame(data)[2..] == data
    ensures |data| <= 65535 ==> Frame(data)[0] == |data| / 256 && Frame(data)[1] == |data| % 256
  {
  }

  /** The length of the next frame is read high byte first. */
  lemma ParsedLength(high: Byte, low: Byte, data: seq<Byte>, rest: seq<Byte>)
    requires |data| == 256 * high + low
    ensures ParseFrame([high, low] + data + rest) == Some((data, rest))
  {
    var input := [high, low] + data + rest;
    assert input[2..2 + |data|] == data && input[2 + |data|..] == rest;
  }

  // ----- the plaintext a wire carries -----

  function FirstChunk(pt: seq<Byte>): (k: nat)
    ensures k <= |pt| && k <= MAX_PLAINTEXT && (pt != [] ==> k > 0)
  {
    Min(|pt|, MAX_PLAINTEXT)
  }

  function Encode(c: Cipher, n: nat, pt: seq<Byte>): seq<Byte>
    decreases |pt|
  {
    if pt == [] then []
    else
      var k := FirstChunk(pt);
      Frame(c.encrypt(n, pt[..k])) + Encode(c, n + 1, pt[k..])
  }

  function FrameCount(pt: seq<Byte>): nat {
    if pt == [] then 0 else 1 + FrameCount(pt[FirstChunk(pt)..])
  }

  /** Everything a receiver can decrypt from the wire before it ends or fails. */
  function Readable(c: Cipher, n: nat, wire: seq<Byte>): seq<Byte>
    decreases |wire|
  {
    match ParseFrame(wire)
    case None => []
    case Some((frame, rest)) =>
      match c.decrypt(n, frame)
      case None => []
      case Some(pt) => pt + Readable(c, n + 1, rest)
  }

  /** A write cuts its plaintext into pieces of 65519 bytes, each encrypted under
      the next message number in a frame of its own. */
  lemma {:induction false} PiecesOfWrite(c: Cipher, n: nat, pt: seq<Byte>)
    requires Sound(c)
    ensures |pt| > 65519 ==> Encode(c, n, pt) == Frame(c.encrypt(n, pt[..65519])) + Encode(c, n + 1, pt[65519..])
    ensures 0 < |pt| <= 65519 ==> Encode(c, n, pt) == Frame(c.encrypt(n, pt))
    ensures pt == [] ==> Encode(c, n, pt) == []
    ensures FrameCount(pt) == (|pt| + 65518) / 65519
    decreases |pt|
  {
    hide Frame, Sound;
    if 0 < |pt| <= 65519 {
      assert pt[..|pt|] == pt && pt[|pt|..] == [];
    } else if |pt| > 65519 {
      PiecesOfWrite(c, n + 1, pt[65519..]);
    }
  }

  lemma EncodeNothing(c: Cipher)
    ensures forall n: nat :: Encode(c, n, []) == []
    ensures FrameCount([]) == 0
  {
  }

  /** The lengths of the frames a write puts on the wire, before the cast to 16 bits. */
  function FrameLengths(c: Cipher, n: nat, pt: seq<Byte>): seq<nat>
    decreases |pt|
  {
    if pt == [] then []
    else [|c.encrypt(n, pt[..FirstChunk(pt)])|] + FrameLengths(c, n + 1, pt[FirstChunk(pt)..])
  }

  /** Every frame length fits 16 bits, so the cast cuts nothing. */
  lemma {:induction false} FramesFit(c: Cipher, n: nat, pt: seq<Byte>)
    requires Sound(c)
    ensures forall len :: len in FrameLengths(c, n, pt) ==> len <= MAX_CIPHERTEXT
    decreases |pt|
  {
    if pt != [] {
      FramesFit(c, n + 1, pt[FirstChunk(pt)..]);
      assert |c.encrypt(n, pt[..FirstChunk(pt)])| <= MAX_CIPHERTEXT;
    }
  }

  lemma EncodeStep(c: Cipher, n: nat, pt: seq<Byte>, i: nat, end: nat)
    requires i < |pt| && end == Min(i + MAX_PLAINTEXT, |pt|)
    ensures Encode(c, n, pt[i..]) == Frame(c.encrypt(n, pt[i..end])) + Encode(c, n + 1, pt[end..])
    ensures FrameCount(pt[i..]) == 1 + FrameCount(pt[end..])
  {
    assert pt[i..][..end - i] == pt[i..end] && pt[i..][end - i..] == pt[end..];
  }

  lemma OneFrame(c: Cipher, n: nat, chunk: seq<Byte>, rest: seq<Byte>)
    requires Sound(c) && |chunk| <= MAX_PLAINTEXT
    ensures Readable(c, n, Frame(c.encrypt(n, chunk)) + rest) == chunk + Readable(c, n + 1, rest)
  {
    hide ParseFrame, Frame;
    FrameRoundTrip(c.encrypt(n, chunk), rest);
  }

  /** Whatever was written is readable, wherever the chunks were cut. */
  lemma {:induction false} EncodedIsReadable(c: Cipher, n: nat, pt: seq<Byte>, rest: seq<Byte>)
    requires Sound(c)
    ensures Readable(c, n, Encode(c, n, pt) + rest) == pt + Readable(c, n + FrameCount(pt), rest)
    decreases |pt|
  {
    hide Sound, Readable, Frame, FirstChunk;
    if pt == [] {
      assert Encode(c, n, pt) + rest == rest;
    } else {
      var k := FirstChunk(pt);
      var tail := Encode(c, n + 1, pt[k..]) + rest;
      EncodedIsReadable(c, n + 1, pt[k..], rest);
      OneFrame(c, n, pt[..k], tail);
      assert Encode(c, n, pt) + rest == Frame(c.encrypt(n, pt[..k])) + tail;
      assert pt == pt[..k] + pt[k..];
    }
  }

  /** A sequence of writes on one connection. */
  function EncodeAll(c: Cipher, n: nat, writes: seq<seq<Byte>>): seq<Byte>
    decreases |writes|
  {
    if writes == [] then [] else Encode(c, n, writes[0]) + EncodeAll(c, n + FrameCount(writes[0]), writes[1..])
  }

  function Concat(parts: seq<seq<Byte>>): seq<Byte> {
    if parts == [] then [] else parts[0] + Concat(parts[1..])
  }

  lemma {:induction false} WritesAreReadable(c: Cipher, n: nat, writes: seq<seq<Byte>>)
    requires Sound(c)
    ensures Readable(c, n, EncodeAll(c, n, writes)) == Concat(writes)
    decreases |writes|
  {
    hide Sound, Encode, FrameCount;
    if writes != [] {
      WritesAreReadable(c, n + FrameCount(writes[0]), writes[1..]);
      EncodedIsReadable(c, n, writes[0], EncodeAll(c, n + FrameCount(writes[0]), writes[1..]));
    }
  }

  class EncryptedWriter {
    const cipher: Cipher
    var wire: seq<Byte>
    var sent: nat

    constructor (cipher: Cipher)
      ensures this.cipher == cipher && wire == [] && sent == 0
    {
      this.cipher := cipher;
      wire, sent := [], 0;
    }

    method WriteFrame(data: seq<Byte>)
      modifies this`wire
      ensures wire == old(wire) + Frame(data)
    {
      wire := wire + [|data| % 0x1_0000 / 0x100, |data| % 0x100];
      wire := wire + data;
    }

    /** Encrypts chunk after chunk, each in its own frame. */
    method WriteAll(plaintext: seq<Byte>)
      modifies this
      ensures wire == old(wire) + Encode(cipher, old(sent), plaintext)
      ensures sent == old(sent) + FrameCount(plaintext)
    {
      hide Frame, Encode, FrameCount;
      var i := 0;
      EncodeNothing(cipher);
      assert plaintext[i..] == plaintext;
      while i < |plaintext|
        invariant 0 <= i <= |plaintext|
        invariant wire + Encode(cipher, sent, plaintext[i..]) == old(wire) + Encode(cipher, old(sent), plaintext)
        invariant sent + FrameCount(plaintext[i..]) == old(sent) + FrameCount(plaintext)
      {
        var end := Min(i + MAX_PLAINTEXT, |plaintext|);
        var ciphertext := cipher.encrypt(sent, plaintext[i..end]);
        EncodeStep(cipher, sent, plaintext, i, end);
        WriteFrame(ciphertext);
        sent := sent + 1;
        i := end;
      }
      assert plaintext[i..] == [];
    }

    method WriteMessage(body: seq<Byte>)
      modifies this
      ensures wire == old(wire) + Encode(cipher, old(sent), Framed(body))
      ensures sent == old(sent) + FrameCount(Framed(body))
    {
      var framed := Difficulty.BeBytes(4, |body| % 0x1_0000_0000);
      framed := framed + body;
      WriteAll(framed);
    }
  }

  class EncryptedReader {
    const cipher: Cipher
    /** Bytes of the connection not yet consumed. */
    var input: seq<Byte>
    var received: nat
    /** Decrypted but not yet asked for. */
    var leftover: seq<Byte>

    constructor (cipher: Cipher, input: seq<Byte>)
      ensures this.cipher == cipher && Pending() == Readable(cipher, 0, input)
    {
      this.cipher := cipher;
      this.input, received, leftover := input, 0, [];
    }

    ghost function Pending(): seq<Byte>
      reads this
    {
      leftover + Readable(cipher, received, input)
    }

    method ReadFrame() returns (r: Result<seq<Byte>, StreamError>)
      modifies this`input
      ensures match ParseFrame(old(input))
        case None => r == Err(UnexpectedEof)
        case Some((frame, rest)) => r == Ok(frame) && input == rest
    {
      if |input| < 2 {
        return Err(UnexpectedEof);
      }
      var len := (input[0] as int) * 0x100 + input[1];
      if |input| < 2 + len {
        return Err(UnexpectedEof);
      }
      var frame := input[2..2 + len];
      input := input[2 + len..];
      return Ok(frame);
    }

    /** Succeeds exactly when n more bytes can be had, and hands out the next n
        bytes of the stream whatever the frame boundaries are. */
    method ReadExact(n: nat) returns (r: Result<seq<Byte>, StreamError>)
      modifies this
      ensures r.Ok? <==> n <= |old(Pending())|
      ensures r.Ok? ==> r.value == old(Pending())[..n] && Pending() == old(Pending())[n..]
      ensures r.Err? ==> !r.error.TooLarge? && leftover == old(Pending())
    {
      while |leftover| < n
        invariant Pending() == old(Pending())
        decreases |input|
      {
        var frame := ReadFrame();
        if frame.Err? {
          return Err(frame.error);
        }
        var pt := cipher.decrypt(received, frame.value);
        if pt.None? {
          return Err(DecryptFailed);
        }
        received := received + 1;
        leftover := leftover + pt.value;
      }
      r := Ok(leftover[..n]);
      leftover := leftover[n..];
    }

    /** Reads one length-prefixed message off the stream. */
    method ReadMessage() returns (r: Result<seq<Byte>, StreamError>)
      modifies this
      ensures match ReadBody(old(Pending()))
        case Ok((body, rest)) => r == Ok(body) && Pending() == rest
        case Err(TooLarge(len)) => r == Err(TooLarge(len))
        case Err(_) => r.Err? && !r.error.TooLarge?
    {
      ghost var stream := Pending();
      var prefix := ReadExact(4);
      if prefix.Err? {
        return prefix;
      }
      var len := Difficulty.BeValue(prefix.value);
      if len > MAX_MESSAGE {
        return Err(TooLarge(len));
      }
      if 4 + len <= |stream| {
        assert stream[4..][..len] == stream[4..4 + len] && stream[4..][len..] == stream[4 + len..];
      }
      r := ReadExact(len);
    }
  }

  // ----- messages -----

  /** A message as written: the length cut to 32 bits, then the body. */
  function Framed(body: seq<Byte>): seq<Byte> {
    Difficulty.BeBytes(4, |body| % 0x1_0000_0000) + body
  }

  /** The bytes of a message: its length in four bytes, high byte first, then the body. */
  lemma MessageBytes(body: seq<Byte>)
    ensures var m, len := Framed(body), |body|;
      && |m| == 4 + len && m[4..] == body
      && m[0] == len / 0x100_0000 % 256 && m[1] == len / 0x1_0000 % 256 && m[2] == len / 256 % 256 && m[3] == len % 256
  {
    var n := |body| % 0x1_0000_0000;
    FourBytes(n);
    HighByte(|body|);
    MiddleBytes(|body|);
    var prefix := Difficulty.BeBytes(4, n);
    assert Framed(body)[..4] == prefix;
    hide Framed;
    assert forall i :: 0 <= i < 4 ==> Framed(body)[i] == Framed(body)[..4][i];
  }

  lemma HighByte(len: nat)
    ensures len % 0x1_0000_0000 / 0x100_0000 == len / 0x100_0000 % 256
  {
  }

  lemma SecondByte(q: nat, n: nat)
    ensures (q * 0x1_0000_0000 + n) / 0x1_0000 % 256 == n / 0x1_0000 % 256
  {
    assert (q * 0x1_0000_0000 + n) / 0x1_0000 == 256 * (256 * q) + n / 0x1_0000;
    WholeBytes(256 * q, n / 0x1_0000);
  }

  lemma ThirdByte(q: nat, n: nat)
    ensures (q * 0x1_0000_0000 + n) / 256 % 256 == n / 256 % 256
  {
    assert (q * 0x1_0000_0000 + n) / 256 == 256 * (0x1_0000 * q) + n / 256;
    WholeBytes(0x1_0000 * q, n / 256);
  }

  lemma WholeBytes(q: nat, n: nat)
    ensures (256 * q + n) % 256 == n % 256
  {
  }

  lemma MiddleBytes(len: nat)
    ensures len % 0x1_0000_0000 / 0x1_0000 % 256 == len / 0x1_0000 % 256
    ensures len % 0x1_0000_0000 / 256 % 256 == len / 256 % 256
    ensures len % 0x1_0000_0000 % 256 == len % 256
  {
    var q, n := len / 0x1_0000_0000, len % 0x1_0000_0000;
    SecondByte(q, n);
    ThirdByte(q, n);
    WholeBytes(0x100_0000 * q, n);
  }

  lemma FourBytes(n: nat)
    requires n < 0x1_0000_0000
    ensures Difficulty.BeBytes(4, n) == [n / 0x100_0000, n / 0x1_0000 % 256, n / 256 % 256, n % 256]
  {
    assert Difficulty.BeBytes(0, n / 0x1_0000_0000) == [];
    assert Difficulty.BeBytes(1, n / 0x100_0000) == [n / 0x100_0000 % 256];
    assert Difficulty.BeBytes(2, n / 0x1_0000) == Difficulty.BeBytes(1, n / 0x1_0000 / 256) + [n / 0x1_0000 % 256];
    assert Difficulty.BeBytes(3, n / 256) == Difficulty.BeBytes(2, n / 256 / 256) + [n / 256 % 256];
  }

  function ReadBody(stream: seq<Byte>): Result<(seq<Byte>, seq<Byte>), StreamError> {
    if |stream| < 4 then Err(UnexpectedEof)
    else
      var len := Difficulty.BeValue(stream[..4]);
      if len > MAX_MESSAGE then Err(TooLarge(len))
      else if |stream| < 4 + len then Err(UnexpectedEof)
      else Ok((stream[4..4 + len], stream[4 + len..]))
  }

  /** A written message is read back intact exactly when it is within the size
      limit. The writer does not check it; beyond 4 GiB the prefix wraps. */
  lemma MessageRoundTripIff(body: seq<Byte>, rest: seq<Byte>)
    ensures ReadBody(Framed(body) + rest) == Ok((body, rest)) <==> |body| <= 67_108_864
  {
    var stream := Framed(body) + rest;
    var len := |body| % 0x1_0000_0000;
    assert stream[..4] == Difficulty.BeBytes(4, len);
    Difficulty.BeRoundTrip(4, len);
    if |body| <= MAX_MESSAGE {
      assert stream[4..4 + len] == body && stream[4 + len..] == rest;
    }
  }

  function FramedAll(bodies: seq<seq<Byte>>): seq<seq<Byte>> {
    if bodies == [] then [] else [Framed(bodies[0])] + FramedAll(bodies[1..])
  }

  /** Reads k messages one after the other. */
  function ReadBodies(stream: seq<Byte>, k: nat): Result<(seq<seq<Byte>>, seq<Byte>), StreamError> {
    if k == 0 then Ok(([], stream))
    else
      match ReadBody(stream)
      case Err(e) => Err(e)
      case Ok((body, rest)) =>
        match ReadBodies(rest, k - 1)
        case Err(e) => Err(e)
        case Ok((more, end)) => Ok(([body] + more, end))
  }

  lemma ConcatFramed(bodies: seq<seq<Byte>>)
    requires bodies != []
    ensures Concat(FramedAll(bodies)) == Framed(bodies[0]) + Concat(FramedAll(bodies[1..]))
  {
    hide Framed;
    assert FramedAll(bodies)[1..] == FramedAll(bodies[1..]);
  }

  lemma {:induction false} BodiesRoundTrip(bodies: seq<seq<Byte>>)
    requires forall b :: b in bodies ==> |b| <= MAX_MESSAGE
    ensures ReadBodies(Concat(FramedAll(bodies)), |bodies|) == Ok((bodies, []))
  {
    hide Framed, ReadBody;
    if bodies != [] {
      ConcatFramed(bodies);
      BodiesRoundTrip(bodies[1..]);
      MessageRoundTripIff(bodies[0], Concat(FramedAll(bodies[1..])));
      hide Concat, FramedAll;
      assert bodies == [bodies[0]] + bodies[1..];
    }
  }

  /** Any sequence of messages within the limit is readable from the wire. */
  lemma {:induction false} MessagesSurviveTheWire(c: Cipher, bodies: seq<seq<Byte>>)
    requires Sound(c)
    requires forall b :: b in bodies ==> |b| <= MAX_MESSAGE
    ensures ReadBodies(Readable(c, 0, EncodeAll(c, 0, FramedAll(bodies))), |bodies|) == Ok((bodies, []))
  {
    WritesAreReadable(c, 0, FramedAll(bodies));
    BodiesRoundTrip(bodies);
  }

  lemma EncodeAllSnoc(c: Cipher, n: nat, writes: seq<seq<Byte>>, last: seq<Byte>)
    ensures EncodeAll(c, n, writes + [last]) == EncodeAll(c, n, writes) + Encode(c, n + FrameCounts(writes), last)
    ensures FrameCounts(writes + [last]) == FrameCounts(writes) + FrameCount(last)
    decreases |writes|
  {
    hide Encode, FrameCount;
    var all := writes + [last];
    if writes == [] {
      assert all[0] == last && all[1..] == [];
    } else {
      EncodeAllSnoc(c, n + FrameCount(writes[0]), writes[1..], last);
      assert all[0] == writes[0] && all[1..] == writes[1..] + [last];
    }
  }

  function FrameCounts(writes: seq<seq<Byte>>): nat {
    if writes == [] then 0 else FrameCount(writes[0]) + FrameCounts(writes[1..])
  }

  lemma {:induction false} FramedAllSnoc(bodies: seq<seq<Byte>>, last: seq<Byte>)
    ensures FramedAll(bodies + [last]) == FramedAll(bodies) + [Framed(last)]
  {
    hide Framed;
    if bodies == [] {
      assert ([] + [last])[1..] == [];
    } else {
      assert (bodies + [last])[1..] == bodies[1..] + [last];
      FramedAllSnoc(bodies[1..], last);
    }
  }

  method SendAll(writer: EncryptedWriter, bodies: seq<seq<Byte>>)
    modifies writer
    ensures writer.wire == old(writer.wire) + EncodeAll(writer.cipher, old(writer.sent), FramedAll(bodies))
  {
    hide Encode, FrameCount, Framed;
    assert bodies[..0] == [];
    for i := 0 to |bodies|
      invariant writer.wire == old(writer.wire) + EncodeAll(writer.cipher, old(writer.sent), FramedAll(bodies[..i]))
      invariant writer.sent == old(writer.sent) + FrameCounts(FramedAll(bodies[..i]))
    {
      assert bodies[..i + 1] == bodies[..i] + [bodies[i]];
      FramedAllSnoc(bodies[..i], bodies[i]);
      EncodeAllSnoc(writer.cipher, old(writer.sent), FramedAll(bodies[..i]), Framed(bodies[i]));
      writer.WriteMessage(bodies[i]);
    }
    assert bodies[..|bodies|] == bodies;
  }

  type ReadResult = Result<(seq<seq<Byte>>, seq<Byte>), StreamError>

  function Prepend(got: seq<seq<Byte>>, r: ReadResult): ReadResult {
    match r
    case Err(e) => Err(e)
    case Ok((more, end)) => Ok((got + more, end))
  }

  lemma ReadOneMore(got: seq<seq<Byte>>, stream: seq<Byte>, k: nat)
    requires k > 0
    ensures match ReadBody(stream)
      case Err(e) => Prepend(got, ReadBodies(stream, k)) == Err(e)
      case Ok((body, rest)) =>
        Prepend(got, ReadBodies(stream, k)) == Prepend(got + [body], ReadBodies(rest, k - 1))
  {
    hide ReadBody;
    match ReadBody(stream) {
      case Err(_) =>
      case Ok((body, rest)) =>
        match ReadBodies(rest, k - 1) {
          case Err(_) =>
          case Ok((more, end)) => assert got + ([body] + more) == got + [body] + more;
        }
    }
  }

  lemma PrependNothing(got: seq<seq<Byte>>, stream: seq<Byte>)
    ensures Prepend(got, ReadBodies(stream, 0)) == Ok((got, stream))
    ensures forall r :: Prepend([], r) == r
  {
    assert got + [] == got;
    forall r ensures Prepend([], r) == r {
      assert r.Ok? ==> [] + r.value.0 == r.value.0;
    }
  }

  method ReceiveAll(reader: EncryptedReader, k: nat) returns (r: Result<seq<seq<Byte>>, StreamError>)
    modifies reader
    ensures match ReadBodies(old(reader.Pending()), k)
      case Ok((bodies, rest)) => r == Ok(bodies) && reader.Pending() == rest
      case Err(_) => r.Err?
  {
    hide Prepend, ReadBodies, ReadBody;
    var got := [];
    PrependNothing(got, reader.Pending());
    for i := 0 to k
      invariant ReadBodies(old(reader.Pending()), k) == Prepend(got, ReadBodies(reader.Pending(), k - i))
    {
      ReadOneMore(got, reader.Pending(), k - i);
      var body := reader.ReadMessage();
      if body.Err? {
        return Err(body.error);
      }
      got := got + [body.value];
    }
    PrependNothing(got, reader.Pending());
    return Ok(got);
  }

  /** Two ends of one connection: messages within the limit that one end writes
      are the messages the other end reads, one by one. */
  method Exchange(c: Cipher, bodies: seq<seq<Byte>>) returns (received: Result<seq<seq<Byte>>, StreamError>)
    requires Sound(c)
    requires forall b :: b in bodies ==> |b| <= MAX_MESSAGE
    ensures received == Ok(bodies)
  {
    hide *;
    var writer := new EncryptedWriter(c);
    SendAll(writer, bodies);
    assert writer.wire == EncodeAll(c, 0, FramedAll(bodies));
    MessagesSurviveTheWire(c, bodies);
    var reader := new EncryptedReader(c, writer.wire);
    received := ReceiveAll(reader, |bodies|);
  }
}
