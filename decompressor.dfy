// Block framing of the compressed replay body (decompressor.py,
// decompressor.go). Inflation itself is foreign code; it enters the model
// as an `Inflater` value, so every statement here holds for any inflater.

module Decompressor {
  import opened Common
  import opened Models

  /** The two stream formats: raw deflate and zlib-wrapped deflate. */
  datatype Mode = RawDeflate | ZlibWrapped

  /** How the last `Read` of Go's zlib reader ended. */
  datatype Stop = Eof | UnexpectedEof | ReadError

  /**
   * What Go's zlib reader does on some bytes: whether `zlib.NewReader`
   * accepted the stream header, the bytes each `Read` returned, in order,
   * and how the last one ended.
   */
  datatype ZlibReads = ZlibReads(accepted: bool, chunks: seq<seq<u8>>, stop: Stop)

  /**
   * The foreign inflaters, as tables of their results on the buffers at
   * hand (a buffer missing from a table is one the library reports an error
   * on). Python's `decompressobj` plus `flush`, in raw deflate and in the
   * zlib format: it also returns the partial output of a stream that stops
   * early. Go's raw-deflate `io.ReadAll` over `flate.NewReader`, a table of
   * its own: it reports an unexpected end of stream as an error. And the
   * read-by-read behaviour of Go's zlib reader (a buffer missing from that
   * table is one whose stream header `zlib.NewReader` refuses).
   */
  datatype Inflater = Inflater(raw: map<seq<u8>, seq<u8>>, zlib: map<seq<u8>, seq<u8>>,
                               flate: map<seq<u8>, seq<u8>>, zlibReads: map<seq<u8>, ZlibReads>)

  /** Python's one-shot inflation of `data` in the given format. */
  function Inflate(inf: Inflater, mode: Mode, data: seq<u8>): (r: Option<seq<u8>>)
    ensures r.Some? <==> data in (if mode == RawDeflate then inf.raw else inf.zlib)
  {
    var table := if mode == RawDeflate then inf.raw else inf.zlib;
    if data in table then Some(table[data]) else None
  }

  /** Go's `decompressDeflate`: everything the raw-deflate reader yields, or an error. */
  function GoFlateOn(inf: Inflater, data: seq<u8>): (r: Option<seq<u8>>)
    ensures r.Some? <==> data in inf.flate
  {
    if data in inf.flate then Some(inf.flate[data]) else None
  }

  /** What Go's zlib reader does on `data`. */
  function ZlibReadsOf(inf: Inflater, data: seq<u8>): (z: ZlibReads)
    ensures z.accepted ==> data in inf.zlibReads
  {
    if data in inf.zlibReads then inf.zlibReads[data] else ZlibReads(false, [], Eof)
  }

  function Concat(chunks: seq<seq<u8>>): seq<u8>
  {
    if chunks == [] then [] else chunks[0] + Concat(chunks[1..])
  }

  lemma {:induction false} ConcatSnoc(chunks: seq<seq<u8>>, c: seq<u8>)
    ensures Concat(chunks + [c]) == Concat(chunks) + c
  {
    if chunks != [] {
      assert (chunks + [c])[1..] == chunks[1..] + [c];
      ConcatSnoc(chunks[1..], c);
    } else {
      assert Concat([c]) == c + Concat([]);
    }
  }

  // ---------------------------------------------------------------------
  // decompressZlib

  /**
   * `decompressZlib`: an error if the stream header is refused; otherwise
   * everything read, except that a read error before any output is an
   * error. An end of stream, expected or not, keeps what was read.
   */
  function GoZlib(zr: ZlibReads): Option<seq<u8>>
  {
    if !zr.accepted then None
    else if zr.stop == ReadError && Concat(zr.chunks) == [] then None
    else Some(Concat(zr.chunks))
  }

  /**
   * The tolerance the Go inflater relies on for replays without a proper
   * zlib trailer: whatever was read before the stream stopped is kept, and
   * the call fails only on a refused header or an error with no output.
   */
  lemma GoZlibKeepsPartialOutput(zr: ZlibReads)
    ensures zr.accepted && zr.stop != ReadError ==> GoZlib(zr) == Some(Concat(zr.chunks))
    ensures zr.accepted && Concat(zr.chunks) != [] ==> GoZlib(zr) == Some(Concat(zr.chunks))
    ensures GoZlib(zr).None? <==> !zr.accepted || (zr.stop == ReadError && Concat(zr.chunks) == [])
  {
  }

  /** The read loop of `decompressZlib`. */
  method DecompressZlib(zr: ZlibReads) returns (out: Option<seq<u8>>)
    ensures out == GoZlib(zr)
  {
    if !zr.accepted {
      return None;
    }
    var result: seq<u8> := [];
    var i := 0;
    while i < |zr.chunks|
      invariant i <= |zr.chunks| && result == Concat(zr.chunks[..i])
    {
      ConcatSnoc(zr.chunks[..i], zr.chunks[i]);
      assert zr.chunks[..i + 1] == zr.chunks[..i] + [zr.chunks[i]];
      result := result + zr.chunks[i];
      i := i + 1;
    }
    assert zr.chunks[..i] == zr.chunks;
    if zr.stop == ReadError && result == [] {
      return None;
    }
    out := Some(result);
  }

  // ---------------------------------------------------------------------
  // One block's payload

  /** Go's `decompressZlib` on a buffer. */
  function GoZlibOn(inf: Inflater, payload: seq<u8>): Option<seq<u8>>
  {
    GoZlib(ZlibReadsOf(inf, payload))
  }

  /** Raw-deflate inflation as each port calls it. */
  function RawOn(port: Port, inf: Inflater, payload: seq<u8>): Option<seq<u8>>
  {
    if port == Py then Inflate(inf, RawDeflate, payload) else GoFlateOn(inf, payload)
  }

  /** Zlib-wrapped inflation as each port calls it. */
  function ZlibOn(port: Port, inf: Inflater, payload: seq<u8>): Option<seq<u8>>
  {
    if port == Py then Inflate(inf, ZlibWrapped, payload) else GoZlibOn(inf, payload)
  }

  /**
   * Inflating one block's payload: reforged blocks are zlib-wrapped with no
   * fallback; classic blocks try raw deflate, then zlib-wrapped.
   */
  function InflateBlock(port: Port, inf: Inflater, reforged: bool, payload: seq<u8>): (r: Option<seq<u8>>)
    ensures reforged ==> r == ZlibOn(port, inf, payload)
    ensures !reforged && RawOn(port, inf, payload).Some? ==> r == RawOn(port, inf, payload)
  {
    if reforged then ZlibOn(port, inf, payload)
    else if RawOn(port, inf, payload).Some? then RawOn(port, inf, payload)
    else ZlibOn(port, inf, payload)
  }

  /** A classic block fails only when both formats fail; a reforged one when the zlib format does. */
  lemma InflateBlockFails(port: Port, inf: Inflater, reforged: bool, payload: seq<u8>)
    ensures InflateBlock(port, inf, reforged, payload).None?
       <==> ZlibOn(port, inf, payload).None? && (reforged || RawOn(port, inf, payload).None?)
    ensures !reforged && RawOn(port, inf, payload).None? ==> InflateBlock(port, inf, reforged, payload) == ZlibOn(port, inf, payload)
  {
  }

  /**
   * A raw stream Python's inflater accepts, such as one that stops early,
   * while Go's raw-deflate reader reports an error on it, reads in Python
   * and goes to Go's zlib fallback, which decides the block alone.
   */
  lemma TruncatedRawPorts(inf: Inflater, payload: seq<u8>)
    requires Inflate(inf, RawDeflate, payload).Some? && GoFlateOn(inf, payload).None?
    ensures InflateBlock(Py, inf, false, payload) == Inflate(inf, RawDeflate, payload)
    ensures InflateBlock(Go, inf, false, payload) == GoZlibOn(inf, payload)
    ensures GoZlibOn(inf, payload).None? ==> InflateBlock(Py, inf, false, payload) != InflateBlock(Go, inf, false, payload)
  {
  }

  method InflatePayload(port: Port, inf: Inflater, reforged: bool, payload: seq<u8>) returns (r: Option<seq<u8>>)
    ensures r == InflateBlock(port, inf, reforged, payload)
  {
    if !reforged {
      if port == Py {
        r := Inflate(inf, RawDeflate, payload);
      } else {
        r := GoFlateOn(inf, payload);
      }
      if r.Some? {
        return;
      }
    }
    if port == Py {
      r := Inflate(inf, ZlibWrapped, payload);
    } else {
      r := DecompressZlib(ZlibReadsOf(inf, payload));
    }
  }

  // ---------------------------------------------------------------------
  // decompress_blocks / decompressBlocks

  /** A block header is 12 bytes in reforged replays, 8 in classic ones; both start with the u16 payload size. */
  function BlockHeaderSize(reforged: bool): nat
  {
    if reforged then 12 else 8
  }

  /** One block read: its inflated payload and the position after it. */
  datatype BlockRead = BlockRead(out: seq<u8>, next: nat)

  /**
   * The block at `pos` of `stream`: its size word, the header bytes after
   * it, which are skipped, then the payload, which is inflated. `base` is
   * where the stream starts in the file and `produced` how many bytes the
   * blocks before it inflated to; `BlockAtFacts` states the error cases.
   */
  function BlockAt(port: Port, inf: Inflater, reforged: bool, stream: seq<u8>, pos: nat, produced: nat,
                   base: nat): (r: Result<BlockRead>)
  {
    var h := BlockHeaderSize(reforged);
    if |stream| < pos + h then Err(TruncatedData(if port == Py then base + |stream| else produced))
    else
      var size := LE16(stream, pos);
      if |stream| < pos + h + size then Err(TruncatedData(if port == Py then base + |stream| else produced))
      else
        match InflateBlock(port, inf, reforged, stream[pos + h..pos + h + size])
        case None => Err(DecompressionError(if port == Py then base + pos + h else produced))
        case Some(out) => Ok(BlockRead(out, pos + h + size))
  }

  /**
   * A block reads when its header and payload fit in the stream and the
   * payload inflates; reading stops right after the payload. A short header
   * or payload is `TruncatedData`: Python reports the end of the file, which
   * its short read reached, Go the bytes inflated so far. A payload that
   * inflates in neither format is `DecompressionError`: Python reports where
   * the payload starts in the file, Go the bytes inflated so far.
   */
  lemma BlockAtFacts(port: Port, inf: Inflater, reforged: bool, stream: seq<u8>, pos: nat, produced: nat, base: nat)
    ensures var r, h := BlockAt(port, inf, reforged, stream, pos, produced, base), BlockHeaderSize(reforged);
      && (r.Ok? <==> pos + h <= |stream| && pos + h + LE16(stream, pos) <= |stream|
                     && InflateBlock(port, inf, reforged, stream[pos + h..pos + h + LE16(stream, pos)]).Some?)
      && (r.Ok? ==> r.value.next == pos + h + LE16(stream, pos) <= |stream|
                    && Some(r.value.out) == InflateBlock(port, inf, reforged, stream[pos + h..r.value.next]))
      && (r.Err? ==> (r.error.TruncatedData? <==> |stream| < pos + h || |stream| < pos + h + LE16(stream, pos)))
      && (r.Err? ==> r.error.TruncatedData? || r.error.DecompressionError?)
      && (r.Err? && port == Go ==> r.error.offset == produced)
      && (r.Err? && port == Py && r.error.TruncatedData? ==> r.error.offset == base + |stream|)
      && (r.Err? && port == Py && r.error.DecompressionError? ==> r.error.offset == base + pos + h)
  {
  }

  /** Prefixing the output of the blocks already read; errors pass through. */
  function Prepend(out: seq<u8>, r: Result<seq<u8>>): Result<seq<u8>>
  {
    if r.Ok? then Ok(out + r.value) else r
  }

  /**
   * The outputs of the next `count` blocks from position `pos` of `stream`,
   * concatenated in order, or the error of the first block that cannot be
   * read. Bytes after the last block are not read.
   */
  function Blocks(port: Port, inf: Inflater, reforged: bool, count: nat, stream: seq<u8>, pos: nat,
                  produced: nat, base: nat): (r: Result<seq<u8>>)
    ensures count == 0 ==> r == Ok([])
    ensures r.Err? ==> r.error.TruncatedData? || r.error.DecompressionError?
    ensures r.Err? && port == Py && r.error.TruncatedData? ==> r.error.offset == base + |stream|
    ensures r.Err? && port == Py ==> base <= r.error.offset <= base + |stream|
    ensures r.Err? && port == Go ==> r.error.offset >= produced
    decreases count
  {
    if count == 0 then Ok([])
    else
      match BlockAt(port, inf, reforged, stream, pos, produced, base)
      case Err(e) => Err(e)
      case Ok(b) => Prepend(b.out, Blocks(port, inf, reforged, count - 1, stream, b.next, produced + |b.out|, base))
  }

  /** Reading `count` blocks is reading the first one and then the others. */
  lemma {:induction false} BlocksCons(port: Port, inf: Inflater, reforged: bool, count: nat, stream: seq<u8>, pos: nat,
                   produced: nat, base: nat, b: BlockRead)
    requires count > 0 && BlockAt(port, inf, reforged, stream, pos, produced, base) == Ok(b)
    ensures Blocks(port, inf, reforged, count, stream, pos, produced, base)
      == Prepend(b.out, Blocks(port, inf, reforged, count - 1, stream, b.next, produced + |b.out|, base))
  {
  }

  /** Reading `rest + 1` blocks succeeds when the first one and then the others do. */
  lemma {:induction false} BlocksConsOk(port: Port, inf: Inflater, reforged: bool, rest: nat, stream: seq<u8>, pos: nat,
                                        produced: nat, base: nat, out: seq<u8>, next: nat, tail: seq<u8>)
    requires BlockAt(port, inf, reforged, stream, pos, produced, base) == Ok(BlockRead(out, next))
    requires Blocks(port, inf, reforged, rest, stream, next, produced + |out|, base) == Ok(tail)
    ensures Blocks(port, inf, reforged, rest + 1, stream, pos, produced, base) == Ok(out + tail)
  {
    BlocksCons(port, inf, reforged, rest + 1, stream, pos, produced, base, BlockRead(out, next));
  }

  /** A block that cannot be read ends the walk with its error. */
  lemma {:induction false} BlocksStop(port: Port, inf: Inflater, reforged: bool, count: nat, stream: seq<u8>, pos: nat,
                   produced: nat, base: nat)
    requires count > 0 && BlockAt(port, inf, reforged, stream, pos, produced, base).Err?
    ensures Blocks(port, inf, reforged, count, stream, pos, produced, base)
      == Err(BlockAt(port, inf, reforged, stream, pos, produced, base).error)
  {
  }

  lemma PrependPrepend(a: seq<u8>, b: seq<u8>, r: Result<seq<u8>>)
    ensures Prepend(a, Prepend(b, r)) == Prepend(a + b, r)
  {
    if r.Ok? {
      assert a + (b + r.value) == (a + b) + r.value;
    }
  }

  /** Both ports succeed or both fail; on success with the same value, on failure with the same kind of error. */
  predicate Agree<T(==)>(py: Result<T>, go: Result<T>)
  {
    py.Ok? == go.Ok? && (py.Ok? ==> py.value == go.value)
    && (py.Err? ==> py.error.TruncatedData? == go.error.TruncatedData?)
  }

  /** The two ports read a block alike, when their raw and their zlib inflaters agree. */
  lemma BlockAtPorts(inf: Inflater, reforged: bool, stream: seq<u8>, pos: nat, produced: nat, base: nat)
    requires forall p :: GoFlateOn(inf, p) == Inflate(inf, RawDeflate, p)
    requires forall p :: GoZlibOn(inf, p) == Inflate(inf, ZlibWrapped, p)
    ensures Agree(BlockAt(Py, inf, reforged, stream, pos, produced, base),
                  BlockAt(Go, inf, reforged, stream, pos, produced, base))
  {
    var h := BlockHeaderSize(reforged);
    if pos + h <= |stream| && pos + h + LE16(stream, pos) <= |stream| {
      var payload := stream[pos + h..pos + h + LE16(stream, pos)];
      assert GoFlateOn(inf, payload) == Inflate(inf, RawDeflate, payload);
      assert GoZlibOn(inf, payload) == Inflate(inf, ZlibWrapped, payload);
    }
  }

  /**
   * One step of the walk: when the first blocks agree, and the rest of the
   * walks agree after a block that reads, the whole walks agree.
   */
  lemma {:induction false} BlocksAgreeStep(inf: Inflater, reforged: bool, count: nat, stream: seq<u8>, pos: nat, produced: nat, base: nat)
    requires count > 0
    requires Agree(BlockAt(Py, inf, reforged, stream, pos, produced, base),
                   BlockAt(Go, inf, reforged, stream, pos, produced, base))
    requires var b := BlockAt(Py, inf, reforged, stream, pos, produced, base);
      b.Ok? ==> Agree(Blocks(Py, inf, reforged, count - 1, stream, b.value.next, produced + |b.value.out|, base),
                      Blocks(Go, inf, reforged, count - 1, stream, b.value.next, produced + |b.value.out|, base))
    ensures Agree(Blocks(Py, inf, reforged, count, stream, pos, produced, base),
                  Blocks(Go, inf, reforged, count, stream, pos, produced, base))
  {
  }

  /**
   * The two ports succeed and fail on the same streams, agree on the output
   * and on the kind of error, when their raw and their zlib inflaters agree
   * (`TruncatedRawPorts` shows what a raw disagreement does).
   */
  lemma {:induction false} BlocksPorts(inf: Inflater, reforged: bool, count: nat, stream: seq<u8>, pos: nat,
                                       produced: nat, base: nat)
    requires forall p :: GoFlateOn(inf, p) == Inflate(inf, RawDeflate, p)
    requires forall p :: GoZlibOn(inf, p) == Inflate(inf, ZlibWrapped, p)
    ensures Agree(Blocks(Py, inf, reforged, count, stream, pos, produced, base),
                  Blocks(Go, inf, reforged, count, stream, pos, produced, base))
    decreases count
  {
    if count > 0 {
      BlockAtPorts(inf, reforged, stream, pos, produced, base);
      var b := BlockAt(Py, inf, reforged, stream, pos, produced, base);
      if b.Ok? {
        BlocksPorts(inf, reforged, count - 1, stream, b.value.next, produced + |b.value.out|, base);
      }
      BlocksAgreeStep(inf, reforged, count, stream, pos, produced, base);
    }
  }

  /** Reading the block at `pos` (the body of the block loop). */
  method ReadBlock(port: Port, inf: Inflater, reforged: bool, stream: seq<u8>, pos: nat, produced: nat, base: nat)
    returns (r: Result<BlockRead>)
    ensures r == BlockAt(port, inf, reforged, stream, pos, produced, base)
  {
    var h := BlockHeaderSize(reforged);
    if |stream| < pos + h {
      return Err(TruncatedData(if port == Py then base + |stream| else produced));
    }
    var size := LE16(stream, pos);
    if |stream| < pos + h + size {
      return Err(TruncatedData(if port == Py then base + |stream| else produced));
    }
    var out := InflatePayload(port, inf, reforged, stream[pos + h..pos + h + size]);
    if out.None? {
      return Err(DecompressionError(if port == Py then base + pos + h else produced));
    }
    r := Ok(BlockRead(out.value, pos + h + size));
  }

  /**
   * One turn of the block loop: the block at `pos` is read, and either the
   * walk ends with its error or its output joins what was read before.
   */
  method NextBlock(port: Port, inf: Inflater, reforged: bool, stream: seq<u8>, pos: nat, parts: seq<u8>,
                   left: nat, base: nat) returns (b: Result<BlockRead>)
    requires left > 0
    ensures b.Err? ==> Prepend(parts, Blocks(port, inf, reforged, left, stream, pos, |parts|, base)) == Err(b.error)
    ensures b.Ok? ==>
      Prepend(parts, Blocks(port, inf, reforged, left, stream, pos, |parts|, base))
        == Prepend(parts + b.value.out,
                   Blocks(port, inf, reforged, left - 1, stream, b.value.next, |parts + b.value.out|, base))
  {
    b := ReadBlock(port, inf, reforged, stream, pos, |parts|, base);
    if b.Ok? {
      BlocksCons(port, inf, reforged, left, stream, pos, |parts|, base, b.value);
      PrependPrepend(parts, b.value.out, Blocks(port, inf, reforged, left - 1, stream, b.value.next, |parts| + |b.value.out|, base));
    } else {
      BlocksStop(port, inf, reforged, left, stream, pos, |parts|, base);
    }
  }

  /** `decompress_blocks` / `decompressBlocks`: the header decides the block format and the count. */
  method DecompressBlocks(port: Port, inf: Inflater, header: ReplayHeader, base: nat, stream: seq<u8>)
    returns (r: Result<seq<u8>>)
    ensures r == Blocks(port, inf, IsReforged(header), header.numBlocks, stream, 0, 0, base)
  {
    var reforged := IsReforged(header);
    var parts: seq<u8> := [];
    var pos := 0;
    var left := header.numBlocks;
    ghost var whole := Blocks(port, inf, reforged, header.numBlocks, stream, 0, 0, base);
    assert whole.Ok? ==> [] + whole.value == whole.value;
    while left > 0
      invariant whole == Prepend(parts, Blocks(port, inf, reforged, left, stream, pos, |parts|, base))
    {
      var b := NextBlock(port, inf, reforged, stream, pos, parts, left, base);
      if b.Err? {
        return Err(b.error);
      }
      parts := parts + b.value.out;
      pos := b.value.next;
      left := left - 1;
    }
    assert parts + [] == parts;
    r := Ok(parts);
  }

  // ---------------------------------------------------------------------
  // Framing round trip

  /** A block as a writer lays it out: the bytes after the size word that the reader skips, and the payload. */
  datatype Block = Block(skipped: seq<u8>, payload: seq<u8>)

  predicate ValidBlock(reforged: bool, b: Block)
  {
    |b.skipped| == BlockHeaderSize(reforged) - 2 && |b.payload| < 0x1_0000
  }

  function EncodeBlock(reforged: bool, b: Block): (e: seq<u8>)
    requires ValidBlock(reforged, b)
    ensures |e| == BlockHeaderSize(reforged) + |b.payload|
  {
    Enc16(|b.payload|) + b.skipped + b.payload
  }

  function EncodeBlocks(reforged: bool, bs: seq<Block>): seq<u8>
    requires forall i :: 0 <= i < |bs| ==> ValidBlock(reforged, bs[i])
  {
    if bs == [] then [] else EncodeBlock(reforged, bs[0]) + EncodeBlocks(reforged, bs[1..])
  }

  /** `stream` holds the bytes `e` from position `pos` on. */
  predicate HoldsAt(stream: seq<u8>, pos: nat, e: seq<u8>)
  {
    pos + |e| <= |stream| && stream[pos..pos + |e|] == e
  }

  /** A stream holding `a + b` at `pos` holds `a` at `pos` and `b` right after it. */
  lemma HoldsAtSplit(stream: seq<u8>, pos: nat, a: seq<u8>, b: seq<u8>)
    requires HoldsAt(stream, pos, a + b)
    ensures HoldsAt(stream, pos, a) && HoldsAt(stream, pos + |a|, b)
  {
    SliceOfSlice(stream, pos, pos + |a + b|, 0, |a|);
    assert (a + b)[..|a|] == a;
    SliceOfSlice(stream, pos, pos + |a + b|, |a|, |a + b|);
    assert (a + b)[|a|..] == b;
  }

  /** A block laid out in a stream reads back as its inflated payload, and reading stops right after it. */
  lemma {:induction false} BlockAtLaidOut(port: Port, inf: Inflater, reforged: bool, stream: seq<u8>, pos: nat, b: Block,
                       out: seq<u8>, produced: nat, base: nat)
    requires ValidBlock(reforged, b) && InflateBlock(port, inf, reforged, b.payload) == Some(out)
    requires HoldsAt(stream, pos, EncodeBlock(reforged, b))
    ensures BlockAt(port, inf, reforged, stream, pos, produced, base)
      == Ok(BlockRead(out, pos + |EncodeBlock(reforged, b)|))
  {
    var n := |b.payload|;
    HoldsAtSplit(stream, pos, Enc16(n) + b.skipped, b.payload);
    HoldsAtSplit(stream, pos, Enc16(n), b.skipped);
    LE16At(stream, pos, n);
  }

  /** Reading `count` blocks where the first one is laid out in the stream. */
  lemma {:induction false} LaidOutCons(port: Port, inf: Inflater, reforged: bool, count: nat, stream: seq<u8>, pos: nat, b: Block,
                    out: seq<u8>, produced: nat, base: nat, tail: seq<u8>)
    requires ValidBlock(reforged, b) && InflateBlock(port, inf, reforged, b.payload) == Some(out)
    requires HoldsAt(stream, pos, EncodeBlock(reforged, b))
    requires Blocks(port, inf, reforged, count, stream, pos + |EncodeBlock(reforged, b)|, produced + |out|, base)
      == Ok(tail)
    ensures Blocks(port, inf, reforged, count + 1, stream, pos, produced, base) == Ok(out + tail)
  {
    BlockAtLaidOut(port, inf, reforged, stream, pos, b, out, produced, base);
    BlocksConsOk(port, inf, reforged, count, stream, pos, produced, base, out, pos + |EncodeBlock(reforged, b)|, tail);
  }

  /**
   * `stream` holds, from `pos` on, the well-formed blocks `bs` laid out one
   * after the other, and each payload inflates to the matching entry of `outs`.
   */
  predicate Framed(port: Port, inf: Inflater, reforged: bool, stream: seq<u8>, pos: nat, bs: seq<Block>,
                   outs: seq<seq<u8>>)
  {
    (forall i :: 0 <= i < |bs| ==> ValidBlock(reforged, bs[i]))
    && |outs| == |bs|
    && (forall i :: 0 <= i < |bs| ==> InflateBlock(port, inf, reforged, bs[i].payload) == Some(outs[i]))
    && HoldsAt(stream, pos, EncodeBlocks(reforged, bs))
  }

  /** A framed run of blocks is its first block followed by a framed run of the others. */
  lemma {:induction false} FramedTail(port: Port, inf: Inflater, reforged: bool, stream: seq<u8>, pos: nat, bs: seq<Block>,
                   outs: seq<seq<u8>>)
    requires Framed(port, inf, reforged, stream, pos, bs, outs) && bs != []
    ensures ValidBlock(reforged, bs[0]) && InflateBlock(port, inf, reforged, bs[0].payload) == Some(outs[0])
    ensures HoldsAt(stream, pos, EncodeBlock(reforged, bs[0]))
    ensures Framed(port, inf, reforged, stream, pos + |EncodeBlock(reforged, bs[0])|, bs[1..], outs[1..])
  {
    HoldsAtSplit(stream, pos, EncodeBlock(reforged, bs[0]), EncodeBlocks(reforged, bs[1..]));
  }

  /**
   * Round trip: reading from a stream that holds the blocks laid out by
   * `EncodeBlocks` consumes exactly those blocks and yields their inflated
   * payloads in order, whatever precedes or follows them.
   */
  lemma {:induction false} BlocksRoundTrip(port: Port, inf: Inflater, reforged: bool, stream: seq<u8>, pos: nat,
                                           bs: seq<Block>, outs: seq<seq<u8>>, produced: nat, base: nat)
    requires Framed(port, inf, reforged, stream, pos, bs, outs)
    ensures Blocks(port, inf, reforged, |bs|, stream, pos, produced, base) == Ok(Concat(outs))
    decreases |bs|
  {
    if bs != [] {
      FramedTail(port, inf, reforged, stream, pos, bs, outs);
      BlocksRoundTrip(port, inf, reforged, stream, pos + |EncodeBlock(reforged, bs[0])|, bs[1..], outs[1..],
                      produced + |outs[0]|, base);
      RoundTripStep(port, inf, reforged, stream, pos, bs, outs, produced, base);
    }
  }

  /** The first block of a framed run reads back, followed by the others. */
  lemma {:induction false} RoundTripStep(port: Port, inf: Inflater, reforged: bool, stream: seq<u8>, pos: nat,
                      bs: seq<Block>, outs: seq<seq<u8>>, produced: nat, base: nat)
    requires bs != [] && |outs| == |bs|
    requires ValidBlock(reforged, bs[0]) && InflateBlock(port, inf, reforged, bs[0].payload) == Some(outs[0])
    requires HoldsAt(stream, pos, EncodeBlock(reforged, bs[0]))
    requires Blocks(port, inf, reforged, |bs[1..]|, stream, pos + |EncodeBlock(reforged, bs[0])|,
                    produced + |outs[0]|, base) == Ok(Concat(outs[1..]))
    ensures Blocks(port, inf, reforged, |bs|, stream, pos, produced, base) == Ok(Concat(outs))
  {
    var count := |bs| - 1;
    assert |bs[1..]| == count && count + 1 == |bs|;
    LaidOutCons(port, inf, reforged, count, stream, pos, bs[0], outs[0], produced, base, Concat(outs[1..]));
    assert Concat(outs) == outs[0] + Concat(outs[1..]);
  }

  /** A stream that ends inside a block header is truncated, for either port. */
  lemma {:induction false} HeaderTruncated(port: Port, inf: Inflater, reforged: bool, count: nat, stream: seq<u8>, pos: nat,
                        produced: nat, base: nat)
    requires count > 0 && |stream| < pos + BlockHeaderSize(reforged)
    ensures Blocks(port, inf, reforged, count, stream, pos, produced, base)
      == Err(TruncatedData(if port == Py then base + |stream| else produced))
  {
  }

  // ---------------------------------------------------------------------
  // decompress_single_block / decompressSingleBlock

  /**
   * One buffer in the requested format. Python retries in the other format
   * when the first fails and lets a second failure through as the bare
   * inflater error; Go retries with zlib only after raw deflate fails, and
   * does not retry at all when zlib was requested.
   */
  function SingleBlock(port: Port, inf: Inflater, data: seq<u8>, useZlib: bool): (r: Result<seq<u8>>)
    ensures r.Err? ==> r.error == InflateFailure
  {
    if port == Py then
      var first := if useZlib then ZlibWrapped else RawDeflate;
      var second := if useZlib then RawDeflate else ZlibWrapped;
      match Inflate(inf, first, data)
      case Some(out) => Ok(out)
      case None =>
        (match Inflate(inf, second, data)
         case Some(out) => Ok(out)
         case None => Err(InflateFailure))
    else if useZlib then
      (match GoZlibOn(inf, data)
       case Some(out) => Ok(out)
       case None => Err(InflateFailure))
    else
      match GoFlateOn(inf, data)
      case Some(out) => Ok(out)
      case None =>
        (match GoZlibOn(inf, data)
         case Some(out) => Ok(out)
         case None => Err(InflateFailure))
  }

  /**
   * Python's single-block call succeeds whenever either format does, in
   * either order; Go's zlib request succeeds only through zlib. A raw
   * request inflates a buffer exactly as a classic block is inflated.
   */
  lemma SingleBlockFallback(port: Port, inf: Inflater, data: seq<u8>, useZlib: bool)
    ensures port == Py ==>
      (SingleBlock(Py, inf, data, useZlib).Ok?
       <==> Inflate(inf, RawDeflate, data).Some? || Inflate(inf, ZlibWrapped, data).Some?)
    ensures port == Go && useZlib ==> (SingleBlock(Go, inf, data, true).Ok? <==> GoZlibOn(inf, data).Some?)
    ensures var r := SingleBlock(port, inf, data, false);
      InflateBlock(port, inf, false, data) == (if r.Ok? then Some(r.value) else None)
  {
  }

  /** `decompress_single_block` / `decompressSingleBlock`. */
  method DecompressSingleBlock(port: Port, inf: Inflater, data: seq<u8>, useZlib: bool) returns (r: Result<seq<u8>>)
    ensures r == SingleBlock(port, inf, data, useZlib)
  {
    var out: Option<seq<u8>>;
    if port == Go && useZlib {
      out := DecompressZlib(ZlibReadsOf(inf, data));
    } else if port == Go {
      out := GoFlateOn(inf, data);
      if out.None? {
        out := DecompressZlib(ZlibReadsOf(inf, data));
      }
    } else {
      var first := if useZlib then ZlibWrapped else RawDeflate;
      out := Inflate(inf, first, data);
      if out.None? {
        out := Inflate(inf, if useZlib then RawDeflate else ZlibWrapped, data);
      }
    }
    r := if out.Some? then Ok(out.value) else Err(InflateFailure);
  }
}
