/** The event socket: frames as the server writes them and as the phone reads them, and the masked pongs
    the phone sends back (sections 5.2 and 5.3 of RFC 6455). */
module WebSocketFrames {
  import opened Text

  type Byte = b: int | 0 <= b < 256

  // ---------------------------------------------------------------- the server's writer

  /** `n` shifted right by `k` bytes. */
  function Shr(n: nat, k: nat): nat {
    if k == 0 then n else Shr(n / 256, k - 1)
  }

  function ByteAt(n: nat, k: nat): Byte {
    Shr(n, k) % 256
  }

  /** Opcodes take four bits, so setting the final-frame bit adds 128. */
  type Opcode = c: int | 0 <= c < 16

  function Header(opcode: Opcode, n: nat): seq<Byte> {
    if n < 126 then [128 + opcode, n]
    else if n <= 0xFFFF then [128 + opcode, 126, ByteAt(n, 1), ByteAt(n, 0)]
    else [128 + opcode, 127, ByteAt(n, 7), ByteAt(n, 6), ByteAt(n, 5), ByteAt(n, 4),
          ByteAt(n, 3), ByteAt(n, 2), ByteAt(n, 1), ByteAt(n, 0)]
  }

  function Encode(opcode: Opcode, payload: seq<Byte>): seq<Byte> {
    Header(opcode, |payload|) + payload
  }

  /** A connection that keeps what is written to it. */
  class Output {
    var written: seq<Byte>

    constructor ()
      ensures written == []
    {
      written := [];
    }

    method Write(bytes: seq<Byte>)
      modifies this
      ensures written == old(written) + bytes
    {
      written := written + bytes;
    }
  }

  method WsWrite(out: Output, opcode: Opcode, payload: seq<Byte>)
    modifies out
    ensures out.written == old(out.written) + Encode(opcode, payload)
  {
    var header: seq<Byte> := [128 + opcode];
    var n := |payload|;
    if n < 126 {
      header := header + [n];
    } else if n <= 0xFFFF {
      header := header + [126, ByteAt(n, 1), ByteAt(n, 0)];
    } else {
      header := header + [127, ByteAt(n, 7), ByteAt(n, 6), ByteAt(n, 5), ByteAt(n, 4),
                          ByteAt(n, 3), ByteAt(n, 2), ByteAt(n, 1), ByteAt(n, 0)];
    }
    assert header == Header(opcode, n);
    ConcatAssoc(out.written, header, payload);
    out.Write(header);
    out.Write(payload);
  }

  // ---------------------------------------------------------------- the phone's reader, on a whole stream

  /** A 32-bit value read as a signed integer. */
  function Signed32(v: nat): int {
    if v < 0x8000_0000 then v else v - 0x1_0000_0000
  }

  function Word16(a: nat, b: nat): nat {
    a * 256 + b
  }

  function Word(a: nat, b: nat, c: nat, d: nat): nat {
    Word16(Word16(Word16(a, b), c), d)
  }

  datatype Head = Head(opcode: Opcode, length: int, size: nat)

  /** Opcode, length and number of header bytes; nothing if the stream ends inside the header. */
  function ReadHead(s: seq<Byte>): (h: Option<Head>)
    ensures h.Some? ==> 2 <= h.value.size <= |s|
  {
    if |s| < 2 then None
    else
      var opcode, len7 := s[0] % 16, s[1] % 128;
      if len7 < 126 then Some(Head(opcode, len7, 2))
      else if len7 == 126 then
        if |s| < 4 then None else Some(Head(opcode, Word16(s[2], s[3]), 4))
      else if |s| < 10 then None
      else Some(Head(opcode, Signed32(Word(s[6], s[7], s[8], s[9])), 10))
  }

  datatype Happening = Wakeup | Pong(payload: seq<Byte>)

  /** A close frame, a connection lost, or a ping whose length is negative. */
  datatype Ending = Closed | Lost | BadLength

  function Least0(n: int): nat {
    if n < 0 then 0 else n
  }

  /** What the client does with a stream of bytes. */
  function Serve(s: seq<Byte>): (seq<Happening>, Ending)
    decreases |s|
  {
    match ReadHead(s)
    case None => ([], Lost)
    case Some(h) =>
      var n, body := Least0(h.length), s[h.size..];
      if h.opcode == 8 then ([], Closed)
      else if h.opcode == 9 && h.length < 0 then ([], BadLength)
      else if n > |body| then ([], Lost)
      else
        var rest := Serve(body[n..]);
        if h.opcode == 1 then ([Wakeup] + rest.0, rest.1)
        else if h.opcode == 9 then ([Pong(body[..n])] + rest.0, rest.1)
        else rest
  }

  // ---------------------------------------------------------------- the phone's reader, as it reads

  /** A stream that hands out its bytes in pieces of any size. */
  class Input {
    var rest: seq<Byte>
    var calls: nat
    const piece: nat -> nat

    constructor (bytes: seq<Byte>, piece: nat -> nat)
      ensures rest == bytes
    {
      rest, calls := bytes, 0;
      this.piece := piece;
    }

    method ReadOne() returns (v: Option<Byte>)
      modifies this
      ensures v.Some? <==> old(rest) != []
      ensures v.Some? ==> v.value == old(rest)[0] && rest == old(rest)[1..]
      ensures v.None? ==> rest == old(rest)
    {
      if |rest| == 0 {
        return None;
      }
      v := Some(rest[0]);
      rest := rest[1..];
    }

    /** At least one byte and at most `max`, unless the stream is over. */
    method Read(max: nat) returns (got: seq<Byte>)
      requires max > 0
      modifies this
      ensures got + rest == old(rest) && |got| <= max && (got == [] <==> old(rest) == [])
    {
      var limit := if |rest| < max then |rest| else max;
      if limit == 0 {
        return [];
      }
      var n := 1 + piece(calls) % limit;
      got, rest, calls := rest[..n], rest[n..], calls + 1;
    }

    method ReadFrameHeader() returns (h: Option<Head>)
      modifies this
      ensures h == ReadHead(old(rest))
      ensures h.Some? ==> rest == old(rest)[h.value.size..]
    {
      var b1 := ReadOne();
      if b1.None? {
        return None;
      }
      var b2 := ReadOne();
      if b2.None? {
        return None;
      }
      var opcode, len7 := b1.value % 16, b2.value % 128;
      if len7 < 126 {
        return Some(Head(opcode, len7, 2));
      }
      var bytes: seq<Byte> := [];
      var count := if len7 == 126 then 2 else 8;
      while |bytes| < count
        invariant |bytes| <= count && |bytes| + 2 <= |old(rest)|
        invariant bytes == old(rest)[2..2 + |bytes|] && rest == old(rest)[2 + |bytes|..]
        decreases count - |bytes|
      {
        var b := ReadOne();
        if b.None? {
          return None;
        }
        bytes := bytes + [b.value];
      }
      if count == 2 {
        return Some(Head(opcode, Word16(bytes[0], bytes[1]), 4));
      }
      return Some(Head(opcode, Signed32(Word(bytes[4], bytes[5], bytes[6], bytes[7])), 10));
    }

    method Skip(length: int) returns (ok: bool)
      modifies this
      ensures ok <==> length <= |old(rest)|
      ensures ok ==> rest == old(rest)[Least0(length)..]
    {
      var remaining := length;
      while remaining > 0
        invariant remaining <= length && (length <= 0 ==> remaining == length)
        invariant length > 0 ==> 0 <= remaining && length - remaining <= |old(rest)|
        invariant rest == old(rest)[Least0(length) - Least0(remaining)..]
        decreases remaining
      {
        var got := Read(if 4096 < remaining then 4096 else remaining);
        if |got| == 0 {
          return false;
        }
        remaining := remaining - |got|;
      }
      return true;
    }

    method ReadBody(length: nat) returns (body: Option<seq<Byte>>)
      modifies this
      ensures body.Some? <==> length <= |old(rest)|
      ensures body.Some? ==> body.value == old(rest)[..length] && rest == old(rest)[length..]
    {
      var read: seq<Byte> := [];
      while |read| < length
        invariant |read| <= length && |read| <= |old(rest)|
        invariant read == old(rest)[..|read|] && rest == old(rest)[|read|..]
        decreases length - |read|
      {
        var got := Read(length - |read|);
        if |got| == 0 {
          return None;
        }
        read := read + got;
      }
      return Some(read);
    }

    /** The client's loop, for any way the stream is cut into pieces. */
    method Run() returns (seen: seq<Happening>, end: Ending)
      modifies this
      ensures (seen, end) == Serve(old(rest))
    {
      seen := [];
      assert [] + Serve(rest).0 == Serve(rest).0;
      while true
        invariant Serve(old(rest)) == (seen + Serve(rest).0, Serve(rest).1)
        decreases |rest|
      {
        ghost var before, start := seen, rest;
        assert before + [] == before;
        var h := ReadFrameHeader();
        if h.None? {
          return seen, Lost;
        }
        var Head(opcode, length, _) := h.value;
        if opcode == 8 {
          return seen, Closed;
        } else if opcode == 9 {
          if length < 0 {
            return seen, BadLength;
          }
          var body := ReadBody(length);
          if body.None? {
            return seen, Lost;
          }
          ConcatAssoc(before, [Pong(body.value)], Serve(rest).0);
          seen := seen + [Pong(body.value)];
        } else {
          var ok := Skip(length);
          if !ok {
            return seen, Lost;
          }
          if opcode == 1 {
            ConcatAssoc(before, [Wakeup], Serve(rest).0);
            seen := seen + [Wakeup];
          }
        }
      }
    }
  }

  // ---------------------------------------------------------------- round trip

  lemma ShrSteps(n: nat)
    ensures Shr(n, 0) == n && Shr(n, 1) == n / 256 && Shr(n, 2) == n / 256 / 256 && Shr(n, 3) == n / 256 / 256 / 256
  {
    assert Shr(n, 1) == Shr(n / 256, 0);
    assert Shr(n, 2) == Shr(n / 256, 1) == Shr(n / 256 / 256, 0);
    assert Shr(n, 3) == Shr(n / 256, 2) == Shr(n / 256 / 256, 1) == Shr(n / 256 / 256 / 256, 0);
  }

  /** The four low bytes spell the value modulo 2^32. */
  lemma LowWord(n: nat)
    ensures var v := Word(ByteAt(n, 3), ByteAt(n, 2), ByteAt(n, 1), ByteAt(n, 0));
            0 <= v < 0x1_0000_0000 && exists q: nat :: n == q * 0x1_0000_0000 + v
  {
    ShrSteps(n);
    var n1, n2, n3 := n / 256, n / 256 / 256, n / 256 / 256 / 256;
    var q := n3 / 256;
    assert n3 == 256 * q + n3 % 256;
    assert n2 == 256 * n3 + n2 % 256;
    assert n1 == 256 * n2 + n1 % 256;
    assert n == 256 * n1 + n % 256;
    var v := Word(n3 % 256, n2 % 256, n1 % 256, n % 256);
    assert n == q * 0x1_0000_0000 + v;
  }

  lemma LengthHalf(n: nat)
    requires n <= 0xFFFF
    ensures Word16(ByteAt(n, 1), ByteAt(n, 0)) == n
  {
    ShrSteps(n);
  }

  /** The client reads back opcode and length of a written header, whatever follows, exactly for payloads
      under 2^31 bytes. */
  lemma HeaderRead(opcode: Opcode, n: nat, tail: seq<Byte>)
    ensures ReadHead(Header(opcode, n) + tail).Some?
    ensures var h := ReadHead(Header(opcode, n) + tail).value;
            && h.opcode == opcode && h.size == |Header(opcode, n)|
            && (h.length == n <==> n < 0x8000_0000)
  {
    var header := Header(opcode, n);
    var s := header + tail;
    assert forall i :: 0 <= i < |header| ==> s[i] == header[i];
    if 126 <= n <= 0xFFFF {
      LengthHalf(n);
    } else if n > 0xFFFF {
      LowWord(n);
      var v := Word(ByteAt(n, 3), ByteAt(n, 2), ByteAt(n, 1), ByteAt(n, 0));
      var q: nat :| n == q * 0x1_0000_0000 + v;
      assert q == 0 <==> n < 0x1_0000_0000;
    }
  }

  datatype Frame = Frame(opcode: Opcode, payload: seq<Byte>)

  function EncodeAll(frames: seq<Frame>): seq<Byte> {
    if frames == [] then [] else Encode(frames[0].opcode, frames[0].payload) + EncodeAll(frames[1..])
  }

  /** What the phone should make of the frames it was sent. */
  function Meant(frames: seq<Frame>): seq<Happening> {
    if frames == [] then []
    else
      (match frames[0].opcode
       case 1 => [Wakeup]
       case 9 => [Pong(frames[0].payload)]
       case _ => []) + Meant(frames[1..])
  }

  lemma OneFrame(f: Frame, tail: seq<Byte>)
    requires f.opcode != 8 && |f.payload| < 0x8000_0000
    ensures Serve(Encode(f.opcode, f.payload) + tail) == (Meant([f]) + Serve(tail).0, Serve(tail).1)
  {
    var header := Header(f.opcode, |f.payload|);
    var s := Encode(f.opcode, f.payload) + tail;
    ConcatAssoc(header, f.payload, tail);
    HeaderRead(f.opcode, |f.payload|, f.payload + tail);
    var body := s[|header|..];
    assert body == f.payload + tail;
    assert body[|f.payload|..] == tail && body[..|f.payload|] == f.payload;
    assert [f][1..] == [];
    assert Meant([]) == [];
    assert forall one: seq<Happening> :: one + [] == one;
    assert [] + Serve(tail).0 == Serve(tail).0;
  }

  /** Any list of frames is consumed exactly, with the same opcodes and payload lengths, and a close frame
      then ends the loop. */
  lemma {:induction false} StreamRoundTrip(frames: seq<Frame>, tail: seq<Byte>)
    requires forall f :: f in frames ==> f.opcode != 8 && |f.payload| < 0x8000_0000
    ensures Serve(EncodeAll(frames) + tail) == (Meant(frames) + Serve(tail).0, Serve(tail).1)
    decreases |frames|
  {
    if frames == [] {
      assert [] + tail == tail;
      assert [] + Serve(tail).0 == Serve(tail).0;
    } else {
      var f, more := frames[0], frames[1..];
      assert f in frames && forall g :: g in more ==> g in frames;
      ConcatAssoc(Encode(f.opcode, f.payload), EncodeAll(more), tail);
      OneFrame(f, EncodeAll(more) + tail);
      StreamRoundTrip(more, tail);
      assert [f][1..] == [] && Meant([]) == [];
      ConcatAssoc(Meant([f]), Meant(more), Serve(tail).0);
      MeantCons(f, more);
      assert [f] + more == frames;
    }
  }

  lemma MeantCons(f: Frame, more: seq<Frame>)
    ensures Meant([f] + more) == Meant([f]) + Meant(more)
  {
    TailOfCons(f, more);
    assert [f][1..] == [] && Meant([]) == [];
    var first: seq<Happening> := match f.opcode case 1 => [Wakeup] case 9 => [Pong(f.payload)] case _ => [];
    assert Meant([f]) == first + [];
    assert first + [] == first;
  }

  // ---------------------------------------------------------------- masked pongs

  function XorBits(a: nat, b: nat, bits: nat): nat {
    if bits == 0 then 0 else 2 * XorBits(a / 2, b / 2, bits - 1) + if a % 2 == b % 2 then 0 else 1
  }

  function Pow2(k: nat): nat {
    if k == 0 then 1 else 2 * Pow2(k - 1)
  }

  lemma {:induction false} XorTwice(a: nat, b: nat, bits: nat)
    requires a < Pow2(bits)
    ensures XorBits(a, b, bits) < Pow2(bits)
    ensures XorBits(XorBits(a, b, bits), b, bits) == a
  {
    if bits > 0 {
      XorTwice(a / 2, b / 2, bits - 1);
      var x := XorBits(a, b, bits);
      assert x / 2 == XorBits(a / 2, b / 2, bits - 1);
    }
  }

  lemma ByteBits()
    ensures Pow2(8) == 256
  {
    assert Pow2(4) == 16;
  }

  function Xor(a: Byte, b: Byte): Byte {
    ByteBits();
    XorTwice(a, b, 8);
    XorBits(a, b, 8)
  }

  function Mask(payload: seq<Byte>, mask: seq<Byte>): (r: seq<Byte>)
    requires |mask| == 4
    ensures |r| == |payload|
  {
    seq(|payload|, i requires 0 <= i < |payload| => Xor(payload[i], mask[i % 4]))
  }

  lemma MaskTwice(payload: seq<Byte>, mask: seq<Byte>)
    requires |mask| == 4
    ensures Mask(Mask(payload, mask), mask) == payload
  {
    ByteBits();
    forall i | 0 <= i < |payload|
      ensures Mask(Mask(payload, mask), mask)[i] == payload[i]
    {
      XorTwice(payload[i], mask[i % 4], 8);
    }
  }

  /** The one length byte is `0x80 or size`, cut to eight bits. */
  function MaskedFrame(opcode: Opcode, payload: seq<Byte>, mask: seq<Byte>): seq<Byte>
    requires |mask| == 4
  {
    [128 + opcode, 128 + |payload| % 128] + mask + Mask(payload, mask)
  }

  method WriteMaskedFrame(out: Output, opcode: Opcode, payload: seq<Byte>, mask: seq<Byte>)
    requires |mask| == 4
    modifies out
    ensures out.written == old(out.written) + MaskedFrame(opcode, payload, mask)
  {
    ghost var start := out.written;
    out.Write([128 + opcode]);
    out.Write([128 + |payload| % 128]);
    out.Write(mask);
    ghost var head := [128 + opcode, 128 + |payload| % 128] + mask;
    assert out.written == start + head;
    for i := 0 to |payload|
      invariant out.written == start + head + Mask(payload, mask)[..i]
    {
      ConcatAssoc(start + head, Mask(payload, mask)[..i], [Xor(payload[i], mask[i % 4])]);
      assert Mask(payload, mask)[..i] + [Xor(payload[i], mask[i % 4])] == Mask(payload, mask)[..i + 1];
      out.Write([Xor(payload[i], mask[i % 4])]);
    }
    assert Mask(payload, mask)[..|payload|] == Mask(payload, mask);
    ConcatAssoc(start, head, Mask(payload, mask));
  }

  /** A masked frame as section 5.2 lays it out, and the bytes after it. */
  function ReadMasked(s: seq<Byte>): Option<(int, seq<Byte>, seq<Byte>)> {
    if |s| < 2 || s[1] < 128 then None
    else
      var len7 := s[1] - 128;
      var size := if len7 < 126 then 2 else if len7 == 126 then 4 else 10;
      var n := if len7 < 126 then len7
               else if |s| < size then 0
               else if len7 == 126 then Word16(s[2], s[3])
               else Word(s[2], s[3], s[4], s[5]) * 0x1_0000_0000 + Word(s[6], s[7], s[8], s[9]);
      if |s| < size + 4 + n then None
      else
        var mask, body := s[size..size + 4], s[size + 4..size + 4 + n];
        Some((s[0] % 16, Mask(body, mask), s[size + 4 + n..]))
  }

  /** A pong unmasks to the ping payload, and leaves what follows it, exactly for payloads up to the 125
      bytes a control frame may carry. */
  lemma PongUnmasks(payload: seq<Byte>, mask: seq<Byte>, tail: seq<Byte>)
    requires |mask| == 4
    ensures ReadMasked(MaskedFrame(10, payload, mask) + tail) == Some((10, payload, tail)) <==> |payload| <= 125
  {
    var masked := Mask(payload, mask);
    var s := MaskedFrame(10, payload, mask) + tail;
    assert s[1] == 128 + |payload| % 128;
    if |payload| <= 125 {
      assert s[2..6] == mask;
      assert s[6..6 + |payload|] == masked;
      assert s[6 + |payload|..] == tail;
      MaskTwice(payload, mask);
    } else {
      var r := ReadMasked(s);
      if r.Some? && |r.value.1| == |payload| {
        assert |r.value.2| < |tail|;
      }
    }
  }
}
