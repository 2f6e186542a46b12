/** The bounded captures of command output: the first bytes of a stream, or the last ones. */
module OutputCapture {
  import opened Text

  type Byte = b: int | 0 <= b < 256
  type Bytes = seq<Byte>

  function Bound(max: int): nat {
    if max < 0 then 0 else max
  }

  /** The first `max` bytes. */
  function First(s: Bytes, max: nat): Bytes {
    if |s| <= max then s else s[..max]
  }

  /** The last `max` bytes. */
  function Last(s: Bytes, max: nat): Bytes {
    if |s| <= max then s else s[|s| - max..]
  }

  // ---------------------------------------------------------------- command output as it arrives

  class StreamCapture {
    const max: int
    var buf: Bytes
    var stored: int
    var truncate: bool
    /** What the hash has been fed, and what the observer has been given. */
    var hashed: Bytes
    var observed: seq<Bytes>
    ghost var stream: Bytes

    /** The first `max` bytes of the stream, and whether there are more; the digest covers all of it. */
    ghost predicate Valid()
      reads this
    {
      && buf == First(stream, Bound(max)) && stored == |buf|
      && (truncate <==> |stream| > Bound(max))
      && hashed == stream
    }

    constructor (max: int)
      ensures Valid() && this.max == max && stream == [] && observed == []
    {
      this.max := max;
      buf, stored, truncate, hashed, observed, stream := [], 0, false, [], [], [];
    }

    method Write(p: Bytes) returns (n: nat)
      requires Valid()
      modifies this
      ensures Valid() && n == |p| && stream == old(stream) + p
      ensures observed == if p == [] then old(observed) else old(observed) + [p]
    {
      if |p| == 0 {
        return 0;
      }
      observed := observed + [p];
      hashed := hashed + p;
      stream := stream + p;
      if stored < max {
        var remain := max - stored;
        if |p| <= remain {
          buf := buf + p;
          stored := stored + |p|;
        } else {
          buf := buf + p[..remain];
          stored := stored + remain;
          truncate := true;
        }
      } else {
        truncate := true;
      }
      return |p|;
    }

    method Result() returns (text: Bytes, digested: Bytes, truncated: bool)
      requires Valid()
      ensures text == First(stream, Bound(max)) && digested == stream && (truncated <==> |stream| > Bound(max))
    {
      return buf, hashed, truncate;
    }
  }

  // ---------------------------------------------------------------- a file read to its end

  datatype ReadError = NoError | Eof | Failed(reason: string)

  /** One call of the reader: the bytes it delivered, possibly none, and its error. */
  datatype Read = Read(bytes: Bytes, error: ReadError)

  /** All bytes up to and including the first read with an error. */
  function Delivered(rs: seq<Read>): Bytes {
    if rs == [] then []
    else rs[0].bytes + if rs[0].error.NoError? then Delivered(rs[1..]) else []
  }

  function FirstError(rs: seq<Read>): ReadError {
    if rs == [] then NoError
    else if rs[0].error.NoError? then FirstError(rs[1..])
    else rs[0].error
  }

  datatype Captured = Captured(text: Bytes, digested: Bytes, truncated: bool)

  function Limit(maxBytes: int): nat {
    if maxBytes <= 0 then 1 else maxBytes
  }

  /** However the reads cut the file: its first bytes, a digest of all of it, and truncation exactly if it
      is longer. A read that fails discards everything. */
  method CaptureLimited(rs: seq<Read>, maxBytes: int) returns (r: Result<Captured, string>)
    requires FirstError(rs) != NoError
    ensures FirstError(rs).Eof? ==>
              r == Ok(Captured(First(Delivered(rs), Limit(maxBytes)), Delivered(rs), |Delivered(rs)| > Limit(maxBytes)))
    ensures FirstError(rs).Failed? ==> r == Err(FirstError(rs).reason)
  {
    var max := if maxBytes <= 0 then 1 else maxBytes;
    var buf: Bytes, digested: Bytes, truncated := [], [], false;
    var i := 0;
    assert [] + Delivered(rs) == Delivered(rs);
    while true
      invariant 0 <= i <= |rs| && FirstError(rs[i..]) == FirstError(rs) && Delivered(rs) == digested + Delivered(rs[i..])
      invariant buf == First(digested, max) && (truncated <==> |digested| > max)
      decreases |rs| - i
    {
      var read := rs[i];
      assert rs[i..][1..] == rs[i + 1..];
      ConcatAssoc(digested, read.bytes, Delivered(rs[i + 1..]));
      ghost var before := digested;
      if |read.bytes| > 0 {
        digested := digested + read.bytes;
        var remain := max - |buf|;
        if remain > 0 {
          if |read.bytes| <= remain {
            buf := buf + read.bytes;
          } else {
            buf := buf + read.bytes[..remain];
            truncated := true;
          }
        } else {
          truncated := true;
        }
      }
      assert digested == before + read.bytes;
      assert buf == First(digested, max);
      match read.error {
        case NoError => i := i + 1;
        case Eof =>
          assert Delivered(rs[i..]) == read.bytes + [] == read.bytes;
          assert digested == Delivered(rs);
          return Ok(Captured(buf, digested, truncated));
        case Failed(reason) => return Err(reason);
      }
    }
  }

  // ---------------------------------------------------------------- the live view

  const OutPrefix: Bytes := [79, 58, 32]
  const ErrPrefix: Bytes := [69, 58, 32]

  function Marked(stderr: bool, b: Bytes): Bytes {
    if b == [] then [] else (if stderr then ErrPrefix else OutPrefix) + b
  }

  class LiveOutput {
    const maxBytes: nat
    var combined: Bytes
    var truncated: bool
    ghost var stream: Bytes

    ghost predicate Valid()
      reads this
    {
      combined == Last(stream, maxBytes) && (truncated <==> |stream| > maxBytes)
    }

    constructor (maxBytes: nat)
      ensures Valid() && this.maxBytes == maxBytes && stream == []
    {
      this.maxBytes := maxBytes;
      combined, truncated, stream := [], false, [];
    }

    /** The view holds the last bytes of everything appended so far, each chunk with its mark. */
    method Append(stderr: bool, b: Bytes)
      requires Valid()
      modifies this
      ensures Valid() && stream == old(stream) + Marked(stderr, b)
    {
      if |b| == 0 {
        return;
      }
      var prefix := OutPrefix;
      if stderr {
        prefix := ErrPrefix;
      }
      var chunk := prefix + b;
      LastOfLast(stream, chunk, maxBytes);
      stream := stream + chunk;
      combined := combined + chunk;
      if |combined| > maxBytes {
        truncated := true;
        combined := combined[|combined| - maxBytes..];
      }
    }
  }

  /** Cutting early loses nothing that a later cut would keep. */
  lemma LastOfLast(s: Bytes, more: Bytes, max: nat)
    ensures Last(Last(s, max) + more, max) == Last(s + more, max)
    ensures |s| > max && more != [] ==> |Last(s, max) + more| > max
  {
    if |s| > max {
      assert s + more == s[..|s| - max] + (Last(s, max) + more);
    }
  }
}
