/** Binary chunk frames, and the loop that cuts a file into them. */
module Chunks {
  import opened Wrappers

  const MAX_CHUNK := 0x4_0000
  const MAX_BLOB_SIZE := 0x320_0000
  const MAX_HEADER := 0x1000

  newtype byte = x: int | 0 <= x < 256

  type Bytes = seq<byte>

  datatype Error =
    | NoBlobId | EmptyPayload | PayloadTooBig | HeaderTooBig
    | Truncated | EmptyHeader | TruncatedHeader | MalformedHeader

  datatype Result<T> = Ok(value: T) | Err(error: Error)

  datatype Header = Header(blobId: string, seqNo: nat)

  /** The header's text encoding: what is written, and what can be read back. */
  datatype Codec = Codec(write: Header -> Bytes, read: Bytes -> Option<Header>)

  ghost predicate RoundTrips(c: Codec) {
    forall h :: c.read(c.write(h)) == Some(h)
  }

  // ------------------------------------------------------------------
  // Big-endian lengths
  // ------------------------------------------------------------------

  function BigEndian(n: nat): (b: Bytes)
    requires n < 0x1_0000_0000
    ensures |b| == 4
  {
    [(n / 0x100_0000) as byte, (n / 0x1_0000 % 0x100) as byte, (n / 0x100 % 0x100) as byte, (n % 0x100) as byte]
  }

  function Number(b: Bytes): (n: nat)
    requires |b| == 4
    ensures n < 0x1_0000_0000
  {
    b[0] as int * 0x100_0000 + b[1] as int * 0x1_0000 + b[2] as int * 0x100 + b[3] as int
  }

  lemma NumberOfBigEndian(n: nat)
    requires n < 0x1_0000_0000
    ensures Number(BigEndian(n)) == n
  {
    var high, low := n / 0x1_0000, n % 0x1_0000;
    assert n / 0x100_0000 == high / 0x100 && n / 0x100 % 0x100 == low / 0x100 && n % 0x100 == low % 0x100;
    assert high % 0x100 == n / 0x1_0000 % 0x100;
  }

  lemma BigEndianOfNumber(b: Bytes)
    requires |b| == 4
    ensures BigEndian(Number(b)) == b
  {
    var n := Number(b);
    assert n / 0x100 == b[0] as int * 0x1_0000 + b[1] as int * 0x100 + b[2] as int;
    assert n / 0x1_0000 == b[0] as int * 0x100 + b[1] as int;
  }

  // ------------------------------------------------------------------
  // Frames
  // ------------------------------------------------------------------

  function Encode(c: Codec, h: Header, payload: Bytes): Result<Bytes> {
    if h.blobId == "" then Err(NoBlobId)
    else if payload == [] then Err(EmptyPayload)
    else if |payload| > MAX_CHUNK then Err(PayloadTooBig)
    else if |c.write(h)| > MAX_HEADER then Err(HeaderTooBig)
    else Ok(BigEndian(|c.write(h)|) + c.write(h) + payload)
  }

  function Decode(c: Codec, frame: Bytes): Result<(Header, Bytes)> {
    if |frame| < 4 then Err(Truncated) else
    var n := Number(frame[..4]);
    if n == 0 then Err(EmptyHeader)
    else if n > MAX_HEADER then Err(HeaderTooBig)
    else if |frame| < 4 + n then Err(TruncatedHeader)
    else match c.read(frame[4..4 + n])
      case None => Err(MalformedHeader)
      case Some(h) =>
        var payload := frame[4 + n..];
        if h.blobId == "" then Err(NoBlobId)
        else if payload == [] then Err(EmptyPayload)
        else if |payload| > MAX_CHUNK then Err(PayloadTooBig)
        else Ok((h, payload))
  }

  /** A frame that can be written is the length of its header, highest byte first, the header
      and the payload; and it can be written exactly within these limits. */
  lemma EncodesExactly(c: Codec, h: Header, payload: Bytes)
    ensures var r, n := Encode(c, h, payload), |c.write(h)|;
            && (r.Ok? <==> h.blobId != "" && 0 < |payload| <= 262144 && n <= 4096)
            && (r.Ok? ==>
                  && |r.value| == 4 + n + |payload| && r.value[4..4 + n] == c.write(h) && r.value[4 + n..] == payload
                  && ((r.value[0] as int * 256 + r.value[1] as int) * 256 + r.value[2] as int) * 256 + r.value[3] as int == n)
  {
    var r, n := Encode(c, h, payload), |c.write(h)|;
    if r.Ok? {
      NumberOfBigEndian(n);
      assert r.value[..4] == BigEndian(n);
    }
    hide BigEndian;
  }

  /** And a frame is accepted exactly within the same, if its header can be read. */
  lemma AcceptsExactly(c: Codec, frame: Bytes)
    ensures Decode(c, frame).Ok? <==>
              |frame| >= 4 &&
              var n := ((frame[0] as int * 256 + frame[1] as int) * 256 + frame[2] as int) * 256 + frame[3] as int;
              && 0 < n <= 4096 && 0 < |frame| - 4 - n <= 262144
              && c.read(frame[4..4 + n]).Some? && c.read(frame[4..4 + n]).value.blobId != ""
    ensures Decode(c, frame).Ok? ==>
              var n := Number(frame[..4]); Decode(c, frame) == Ok((c.read(frame[4..4 + n]).value, frame[4 + n..]))
  {
  }

  /** Every frame that is written is read back, provided headers are not empty. */
  lemma DecodeInvertsEncode(c: Codec, h: Header, payload: Bytes)
    requires RoundTrips(c) && Encode(c, h, payload).Ok?
    ensures Decode(c, Encode(c, h, payload).value) == if c.write(h) == [] then Err(EmptyHeader) else Ok((h, payload))
  {
    var text := c.write(h);
    var frame := Encode(c, h, payload).value;
    NumberOfBigEndian(|text|);
    assert frame[..4] == BigEndian(|text|);
    assert frame[4..4 + |text|] == text && frame[4 + |text|..] == payload;
    hide BigEndian, Number;
  }

  /** Whatever is accepted obeys every limit of the writer, and is the writer's own
      frame exactly if its header is spelled the writer's way. */
  lemma EncodeInvertsDecode(c: Codec, frame: Bytes)
    requires Decode(c, frame).Ok?
    ensures var (h, payload) := Decode(c, frame).value;
            && h.blobId != "" && 0 < |payload| <= MAX_CHUNK && |frame| >= 4
            && var n := Number(frame[..4]);
               && 0 < n <= MAX_HEADER && 4 + n <= |frame|
               && (Encode(c, h, payload) == Ok(frame) <==> c.write(h) == frame[4..4 + n])
  {
    var (h, payload) := Decode(c, frame).value;
    var n := Number(frame[..4]);
    BigEndianOfNumber(frame[..4]);
    assert frame == frame[..4] + frame[4..4 + n] + frame[4 + n..];
    if Encode(c, h, payload) == Ok(frame) {
      var text := c.write(h);
      assert frame[..4] == BigEndian(|text|);
      NumberOfBigEndian(|text|);
      assert frame[4..4 + |text|] == text;
    }
    hide BigEndian, Number;
  }

  /** The frame is built in one buffer: length, header, payload. */
  method EncodeChunk(c: Codec, h: Header, payload: Bytes) returns (r: Result<Bytes>)
    ensures r == Encode(c, h, payload)
  {
    if h.blobId == "" {
      return Err(NoBlobId);
    }
    if |payload| == 0 {
      return Err(EmptyPayload);
    }
    if |payload| > MAX_CHUNK {
      return Err(PayloadTooBig);
    }
    var text := c.write(h);
    if |text| > MAX_HEADER {
      return Err(HeaderTooBig);
    }
    hide BigEndian;
    var out := new byte[4 + |text| + |payload|];
    Copy(out, 0, BigEndian(|text|));
    assert out[..4] == out[0..4];
    Copy(out, 4, text);
    assert out[..4 + |text|] == out[..4] + out[4..4 + |text|];
    ghost var front := out[..4 + |text|];
    assert front == BigEndian(|text|) + text;
    Copy(out, 4 + |text|, payload);
    assert out[..] == front + payload;
    return Ok(out[..]);
  }

  method Copy(out: array<byte>, at: nat, bytes: Bytes)
    requires at + |bytes| <= out.Length
    modifies out
    ensures out[..at] == old(out[..at]) && out[at..at + |bytes|] == bytes && out[at + |bytes|..] == old(out[at + |bytes|..])
  {
    for i := 0 to |bytes|
      invariant forall k | 0 <= k < out.Length :: out[k] == if at <= k < at + i then bytes[k - at] else old(out[k])
    {
      out[at + i] := bytes[i];
    }
  }

  // ------------------------------------------------------------------
  // Cutting a file into chunks
  // ------------------------------------------------------------------

  datatype Frame =
    | Begin(id: string, path: string, size: nat)
    | Chunk(id: string, seqNo: nat, payload: Bytes)
    | End(id: string, ok: bool, sum: string)

  /** One read: what it put into the buffer, and whether it ended the file or failed. */
  datatype Read = Read(bytes: Bytes, end: bool, failed: bool)

  /** What the reads deliver up to the end of the file, or the first that fails. */
  function Delivered(parts: seq<Read>): Bytes {
    if parts == [] then []
    else parts[0].bytes + if parts[0].end || parts[0].failed then [] else Delivered(parts[1..])
  }

  predicate Complete(parts: seq<Read>) {
    parts != [] && !parts[0].failed && (parts[0].end || Complete(parts[1..]))
  }

  function Payloads(frames: seq<Frame>): Bytes {
    if frames == [] then []
    else Payloads(frames[..|frames| - 1])
         + if frames[|frames| - 1].Chunk? then frames[|frames| - 1].payload else []
  }

  /** Numbered from zero, each within the limits of the encoder. */
  predicate Numbered(frames: seq<Frame>, id: string) {
    forall k | 0 <= k < |frames| ::
      frames[k].Chunk? && frames[k].id == id && frames[k].seqNo == k && 0 < |frames[k].payload| <= MAX_CHUNK
  }

  /** How many chunks the reads make, up to the end, a failure, or the cap. */
  function Pieces(parts: seq<Read>, total: nat): nat {
    if parts == [] || (parts[0].bytes != [] && total + |parts[0].bytes| > MAX_BLOB_SIZE) then 0
    else (if parts[0].bytes != [] then 1 else 0)
         + if parts[0].end || parts[0].failed then 0 else Pieces(parts[1..], total + |parts[0].bytes|)
  }

  /** Relays one file. `hash` names a content, `accepts` says which sends the connection
      takes; the result is the chunks it took, and the closing frame unless it refused
      one. */
  method RelayChunks(id: string, parts: seq<Read>, hash: Bytes -> string, accepts: nat -> bool)
      returns (chunks: seq<Frame>, end: Option<Frame>)
    requires forall k | 0 <= k < |parts| :: |parts[k].bytes| <= MAX_CHUNK
    ensures Numbered(chunks, id) && (end.Some? ==> end.value.End? && end.value.id == id)
    ensures |chunks| <= |Payloads(chunks)| <= 52428800
    ensures Payloads(chunks) <= Delivered(parts)
    ensures end.None? <==> exists k :: 0 <= k < Pieces(parts, 0) && !accepts(k)
    ensures |chunks| <= Pieces(parts, 0) && forall k | 0 <= k < |chunks| :: accepts(k)
    ensures if end.Some? then |chunks| == Pieces(parts, 0) else !accepts(|chunks|)
    ensures end.Some? ==> (end.value.ok <==> Complete(parts) && |Delivered(parts)| <= 52428800)
    ensures end.Some? && end.value.ok ==> Payloads(chunks) == Delivered(parts) && end.value.sum == hash(Delivered(parts))
  {
    hide Payloads, Delivered, Complete, Numbered, Pieces, SoFar;
    chunks, end := [], Some(End(id, false, ""));
    var hashed: Bytes := [];
    NothingSoFar(id, parts, accepts);
    for i := 0 to |parts|
      invariant SoFar(id, parts, i, chunks, hashed, accepts) && end == Some(End(id, false, ""))
    {
      var bytes := parts[i].bytes;
      ReadMore(id, parts, i, chunks, hashed, accepts);
      if |bytes| > 0 {
        if |hashed| + |bytes| > MAX_BLOB_SIZE {
          return;
        }
        if !accepts(|chunks|) {
          end := None;
          return;
        }
        hashed := hashed + bytes;
        chunks := chunks + [Chunk(id, |chunks|, bytes)];
      }
      if parts[i].failed {
        return;
      }
      if parts[i].end {
        end := Some(End(id, true, hash(hashed)));
        return;
      }
    }
    AllRead(id, parts, chunks, hashed, accepts);
  }

  /** What was relayed of the first `i` reads, none of which ended the file or failed. */
  ghost predicate SoFar(id: string, parts: seq<Read>, i: nat, chunks: seq<Frame>, hashed: Bytes, accepts: nat -> bool) {
    && i <= |parts| && Numbered(chunks, id) && Payloads(chunks) == hashed && |chunks| <= |hashed| <= MAX_BLOB_SIZE
    && Delivered(parts) == hashed + Delivered(parts[i..])
    && Complete(parts) == Complete(parts[i..])
    && Pieces(parts, 0) == |chunks| + Pieces(parts[i..], |hashed|)
    && forall k | 0 <= k < |chunks| :: accepts(k)
  }

  lemma NothingSoFar(id: string, parts: seq<Read>, accepts: nat -> bool)
    ensures SoFar(id, parts, 0, [], [], accepts)
  {
    Nothing(id, parts);
    hide Delivered, Complete, Pieces;
  }

  lemma AllRead(id: string, parts: seq<Read>, chunks: seq<Frame>, hashed: Bytes, accepts: nat -> bool)
    requires SoFar(id, parts, |parts|, chunks, hashed, accepts)
    ensures Numbered(chunks, id) && |chunks| <= |Payloads(chunks)| <= MAX_BLOB_SIZE && Payloads(chunks) == Delivered(parts)
    ensures !Complete(parts) && |chunks| == Pieces(parts, 0) && forall k | 0 <= k < |chunks| :: accepts(k)
  {
    Nothing(id, parts);
    hide Delivered, Complete, Pieces, Numbered;
  }

  /** One more read: over the cap, refused, or relayed, and then the last or not. */
  lemma ReadMore(id: string, parts: seq<Read>, i: nat, chunks: seq<Frame>, hashed: Bytes, accepts: nat -> bool)
    requires i < |parts| && |parts[i].bytes| <= MAX_CHUNK && SoFar(id, parts, i, chunks, hashed, accepts)
    ensures Numbered(chunks, id) && Payloads(chunks) == hashed && |chunks| <= |hashed| <= MAX_BLOB_SIZE
    ensures hashed + parts[i].bytes <= Delivered(parts) && forall k | 0 <= k < |chunks| :: accepts(k)
    ensures var bytes := parts[i].bytes;
            if bytes != [] && |hashed| + |bytes| > MAX_BLOB_SIZE then |chunks| == Pieces(parts, 0)
            else
              var more := if bytes == [] then chunks else chunks + [Chunk(id, |chunks|, bytes)];
              && Numbered(more, id) && Payloads(more) == hashed + bytes && |more| <= |hashed + bytes|
              && (bytes != [] ==> |chunks| < Pieces(parts, 0))
              && (bytes == [] || accepts(|chunks|) ==> forall k | 0 <= k < |more| :: accepts(k))
              && (if parts[i].failed || parts[i].end
                  then |more| == Pieces(parts, 0) && Delivered(parts) == hashed + bytes && Complete(parts) == !parts[i].failed
                  else bytes == [] || accepts(|chunks|) ==> SoFar(id, parts, i + 1, more, hashed + bytes, accepts))
  {
    hide Payloads, Delivered, Complete, Numbered, Pieces;
    NextRead(parts, i, |hashed|);
    var bytes := parts[i].bytes;
    assert hashed + bytes + Delivered(parts[i + 1..]) == hashed + (bytes + Delivered(parts[i + 1..]));
    if bytes == [] {
      assert hashed + bytes == hashed;
    } else {
      AddChunk(chunks, id, bytes);
    }
  }

  lemma Nothing(id: string, parts: seq<Read>)
    ensures Numbered([], id) && Payloads([]) == [] && parts[0..] == parts && Delivered(parts) == [] + Delivered(parts)
    ensures Delivered(parts[|parts|..]) == [] && !Complete(parts[|parts|..]) && forall n :: Pieces(parts[|parts|..], n) == 0
  {
  }

  lemma NextRead(parts: seq<Read>, i: nat, total: nat)
    requires i < |parts|
    ensures Delivered(parts[i..]) == parts[i].bytes + if parts[i].end || parts[i].failed then [] else Delivered(parts[i + 1..])
    ensures Complete(parts[i..]) == (!parts[i].failed && (parts[i].end || Complete(parts[i + 1..])))
    ensures Pieces(parts[i..], total)
         == if parts[i].bytes != [] && total + |parts[i].bytes| > MAX_BLOB_SIZE then 0
            else (if parts[i].bytes != [] then 1 else 0)
                 + if parts[i].end || parts[i].failed then 0 else Pieces(parts[i + 1..], total + |parts[i].bytes|)
  {
    assert parts[i..][0] == parts[i] && parts[i..][1..] == parts[i + 1..];
  }

  lemma AddChunk(chunks: seq<Frame>, id: string, bytes: Bytes)
    requires Numbered(chunks, id) && 0 < |bytes| <= MAX_CHUNK
    ensures Numbered(chunks + [Chunk(id, |chunks|, bytes)], id)
    ensures Payloads(chunks + [Chunk(id, |chunks|, bytes)]) == Payloads(chunks) + bytes
  {
    hide Payloads;
    AddPayload(chunks, Chunk(id, |chunks|, bytes));
    var more := chunks + [Chunk(id, |chunks|, bytes)];
    forall k | 0 <= k < |more|
      ensures more[k].Chunk? && more[k].id == id && more[k].seqNo == k && 0 < |more[k].payload| <= MAX_CHUNK
    {
      assert more[k] == if k < |chunks| then chunks[k] else Chunk(id, |chunks|, bytes);
    }
  }

  lemma AddPayload(chunks: seq<Frame>, c: Frame)
    requires c.Chunk?
    ensures Payloads(chunks + [c]) == Payloads(chunks) + c.payload
  {
    assert (chunks + [c])[..|chunks|] == chunks;
  }
}
