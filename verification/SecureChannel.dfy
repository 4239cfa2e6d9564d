/** Chunked secure messages over a transport that delivers plaintexts faithfully or rejects a
    frame. Bytes are numbers; JSON decoding is applied by the caller to the delivered payload. */
module SecureChannel {
  import opened Common

  type Byte = b: nat | b < 256
  type Bytes = seq<Byte>

  const MAGIC: Bytes := [65, 77, 69, 50]  // "AME2"
  const HEADER: nat := 20
  const MAX_PLAINTEXT: nat := 48 * 1024
  const MAX_FRAME: nat := 48 * 1024 + 16
  const MAX_MESSAGE: nat := 1024 * 1024

  /** A frame on the wire: its length, and what the transport makes of it. */
  datatype Frame = Frame(length: nat, plain: Option<Bytes>)

  /** Sealing adds a 16-byte tag. */
  function Seal(plain: Bytes): Frame { Frame(|plain| + 16, Some(plain)) }

  datatype Error = MessageTooLarge | Transport | InvalidHeader | InvalidSequence | MissingStart

  datatype Incoming = Incoming(id: nat, total: nat, next: nat, payload: Bytes)

  type State = Option<Incoming>
  type Outcome = Result<Option<Bytes>, Error>

  // ---- big-endian numbers --------------------------------------------------

  function ToBytes(n: nat, width: nat): (b: Bytes)
    ensures |b| == width
  {
    if width == 0 then [] else ToBytes(n / 256, width - 1) + [n % 256]
  }

  function FromBytes(b: Bytes): nat {
    if b == [] then 0 else FromBytes(b[..|b| - 1]) * 256 + b[|b| - 1]
  }

  function Pow256(k: nat): nat { if k == 0 then 1 else 256 * Pow256(k - 1) }

  const U32: nat := 0x1_0000_0000
  const U64: nat := 0x1_0000_0000_0000_0000

  lemma Widths()
    ensures Pow256(4) == U32 && Pow256(8) == U64
  {
    assert Pow256(2) == 65536;
    assert Pow256(4) == 256 * 256 * Pow256(2);
    assert Pow256(6) == 256 * 256 * Pow256(4);
    assert Pow256(8) == 256 * 256 * Pow256(6);
  }

  lemma {:induction false} NumberRoundTrip(n: nat, width: nat)
    requires n < Pow256(width)
    ensures FromBytes(ToBytes(n, width)) == n
  {
    if width > 0 {
      NumberRoundTrip(n / 256, width - 1);
      var b := ToBytes(n, width);
      assert b[..|b| - 1] == ToBytes(n / 256, width - 1);
    }
  }

  lemma {:induction false} FromBytesBound(b: Bytes)
    ensures FromBytes(b) < Pow256(|b|)
  {
    if b != [] { FromBytesBound(b[..|b| - 1]); }
  }

  // ---- chunks --------------------------------------------------------------

  datatype Chunk = Chunk(id: nat, index: nat, total: nat, body: Bytes)

  function Encode(c: Chunk): Bytes {
    MAGIC + ToBytes(c.id, 8) + ToBytes(c.index, 4) + ToBytes(c.total, 4) + c.body
  }

  predicate StartsWithMagic(b: Bytes) { |b| >= 4 && b[..4] == MAGIC }

  function Parse(b: Bytes): Chunk
    requires |b| >= HEADER
  {
    Chunk(FromBytes(b[4..12]), FromBytes(b[12..16]), FromBytes(b[16..20]), b[20..])
  }

  predicate Fits(c: Chunk) { c.id < U64 && c.index < U32 && c.total < U32 }

  /** What a decrypted plaintext is taken for. */
  datatype Item = Whole(payload: Bytes) | Broken | Part(chunk: Chunk)

  function Classify(plain: Bytes): Item {
    if !StartsWithMagic(plain) then Whole(plain)
    else if |plain| < HEADER then Broken
    else Part(Parse(plain))
  }

  lemma ChunkRoundTrip(c: Chunk)
    requires Fits(c)
    ensures |Encode(c)| == HEADER + |c.body| && Classify(Encode(c)) == Part(c)
  {
    var b := Encode(c);
    assert b[..4] == MAGIC;
    assert b[4..12] == ToBytes(c.id, 8);
    assert b[12..16] == ToBytes(c.index, 4);
    assert b[16..20] == ToBytes(c.total, 4);
    assert b[20..] == c.body;
    Widths();
    NumberRoundTrip(c.id, 8);
    NumberRoundTrip(c.index, 4);
    NumberRoundTrip(c.total, 4);
  }

  lemma PartFits(plain: Bytes)
    requires Classify(plain).Part?
    ensures Fits(Classify(plain).chunk)
  {
    Widths();
    FromBytesBound(plain[4..12]);
    FromBytesBound(plain[12..16]);
    FromBytesBound(plain[16..20]);
  }

  // ---- the receiver ----------------------------------------------------------

  /** One decrypted plaintext. */
  function Accept(s: State, item: Item, limit: nat): (State, Outcome) {
    match item
    case Whole(plain) =>
      if s.Some? then (None, Err(InvalidSequence))
      else if |plain| > limit then (None, Err(MessageTooLarge))
      else (None, Ok(Some(plain)))
    case Broken => (None, Err(InvalidHeader))
    case Part(c) => AcceptChunk(s, c, limit)
  }

  function AcceptChunk(s: State, c: Chunk, limit: nat): (State, Outcome) {
    if c.total == 0 || c.index >= c.total then (None, Err(InvalidSequence))
    else if c.index == 0 && s.Some? then (None, Err(InvalidSequence))
    else if c.index != 0 && s.None? then (None, Err(MissingStart))
    else
      var m := if c.index == 0 then Incoming(c.id, c.total, 0, []) else s.value;
      if m.id != c.id || m.total != c.total || m.next != c.index then (None, Err(InvalidSequence))
      else if |m.payload| + |c.body| > limit then (None, Err(MessageTooLarge))
      else
        var m' := m.(payload := m.payload + c.body, next := m.next + 1);
        if m'.next != m'.total then (Some(m'), Ok(None)) else (None, Ok(Some(m'.payload)))
  }

  /** One frame from the wire: an oversize or rejected frame leaves a partial message untouched. */
  function Decrypt(s: State, f: Frame, limit: nat): (State, Outcome) {
    if f.length > MAX_FRAME then (s, Err(MessageTooLarge))
    else if f.plain.None? then (s, Err(Transport))
    else Accept(s, Classify(f.plain.value), limit)
  }

  // ---- what a completed message is made of -----------------------------------

  /** The plaintexts that reached the receiver, oldest first. */
  function Decrypted(frames: seq<Frame>): seq<Item> {
    if frames == [] then []
    else
      var front, f := Decrypted(frames[..|frames| - 1]), frames[|frames| - 1];
      if f.length <= MAX_FRAME && f.plain.Some? then front + [Classify(f.plain.value)] else front
  }

  function Bodies(run: seq<Item>): Bytes {
    if run == [] then []
    else Bodies(run[..|run| - 1]) + match run[|run| - 1] case Part(c) => c.body case _ => []
  }

  /** `run` holds chunks 0, 1, ... of one message, in order. */
  ghost predicate ChunkRun(run: seq<Item>, id: nat, total: nat) {
    forall i :: 0 <= i < |run| ==>
      run[i].Part? && run[i].chunk.id == id && run[i].chunk.index == i && run[i].chunk.total == total
  }

  /** The latest `n` plaintexts are chunks 0..n-1 of one message and carry this payload. */
  ghost predicate LatestRun(history: seq<Item>, n: nat, id: nat, total: nat, payload: Bytes) {
    && n <= |history|
    && ChunkRun(history[|history| - n..], id, total)
    && payload == Bodies(history[|history| - n..])
  }

  /** A partial message is a proper beginning of a message, made of the plaintexts that arrived last. */
  ghost predicate Explained(s: State, history: seq<Item>) {
    s.Some? ==>
      var m := s.value;
      && 1 <= m.next < m.total < U32 && m.id < U64
      && LatestRun(history, m.next, m.id, m.total, m.payload)
  }

  ghost predicate Assembled(history: seq<Item>, payload: Bytes) {
    exists id, total :: total >= 1 && LatestRun(history, total, id, total, payload)
  }

  lemma RunGrows(history: seq<Item>, n: nat, c: Chunk, payload: Bytes)
    requires LatestRun(history, n, c.id, c.total, payload) && c.index == n
    ensures LatestRun(history + [Part(c)], n + 1, c.id, c.total, payload + c.body)
  {
    var run := history[|history| - n..];
    var longer := history + [Part(c)];
    assert longer[|longer| - (n + 1)..] == run + [Part(c)];
    assert (run + [Part(c)])[..|run|] == run;
  }

  lemma AcceptChunkExplained(s: State, history: seq<Item>, c: Chunk, limit: nat)
    requires Explained(s, history) && Fits(c)
    ensures
      var (s', o) := AcceptChunk(s, c, limit);
      var history' := history + [Part(c)];
      && Explained(s', history')
      && (s'.Some? ==> |s'.value.payload| <= limit)
      && (o.Ok? && o.value.Some? ==> Assembled(history', o.value.value) && |o.value.value| <= limit)
  {
    var (s', o) := AcceptChunk(s, c, limit);
    if o.Ok? {
      var m := if c.index == 0 then Incoming(c.id, c.total, 0, []) else s.value;
      assert LatestRun(history, m.next, c.id, c.total, m.payload);
      RunGrows(history, m.next, c, m.payload);
    }
  }

  lemma AcceptExplained(s: State, history: seq<Item>, plain: Bytes, limit: nat)
    requires Explained(s, history)
    ensures
      var (s', o) := Accept(s, Classify(plain), limit);
      var history' := history + [Classify(plain)];
      && Explained(s', history')
      && (s'.Some? ==> |s'.value.payload| <= limit)
      && (o.Ok? && o.value.Some? ==>
            && |o.value.value| <= limit
            && (Classify(plain) == Whole(o.value.value) || Assembled(history', o.value.value)))
  {
    if Classify(plain).Part? {
      PartFits(plain);
      AcceptChunkExplained(s, history, Classify(plain).chunk, limit);
    }
  }

  /** State after a sequence of frames, each with its own limit. */
  function Receive(s: State, frames: seq<Frame>, limits: seq<nat>): State
    requires |limits| == |frames|
  {
    if frames == [] then s
    else
      var n := |frames| - 1;
      Decrypt(Receive(s, frames[..n], limits[..n]), frames[n], limits[n]).0
  }

  lemma {:induction false} ReceiveExplained(frames: seq<Frame>, limits: seq<nat>)
    requires |limits| == |frames|
    ensures Explained(Receive(None, frames, limits), Decrypted(frames))
  {
    if frames != [] {
      var n := |frames| - 1;
      ReceiveExplained(frames[..n], limits[..n]);
      if frames[n].length <= MAX_FRAME && frames[n].plain.Some? {
        AcceptExplained(Receive(None, frames[..n], limits[..n]), Decrypted(frames[..n]), frames[n].plain.value, limits[n]);
      }
    }
  }

  /** Reassembly soundness over arbitrary frames: whatever is delivered is either one whole
      plaintext or the bodies of chunks 0..total-1 of one message, consecutive among the
      plaintexts that decrypted, and never longer than the limit. */
  lemma ReassemblySound(frames: seq<Frame>, limits: seq<nat>, f: Frame, limit: nat)
    requires |limits| == |frames|
    requires Decrypt(Receive(None, frames, limits), f, limit).1.Ok?
    ensures
      var (s', o) := Decrypt(Receive(None, frames, limits), f, limit);
      o.value.Some? ==>
        && s' == None && |o.value.value| <= limit
        && (f.plain == Some(o.value.value) || Assembled(Decrypted(frames + [f]), o.value.value))
  {
    ReceiveExplained(frames, limits);
    assert (frames + [f])[..|frames|] == frames;
    AcceptExplained(Receive(None, frames, limits), Decrypted(frames), f.plain.value, limit);
  }

  /** A partial message is a proper beginning, its counters are below the wire width, and it was
      within the limit of the last frame that decrypted. */
  lemma PartialBounded(frames: seq<Frame>, limits: seq<nat>, f: Frame, limit: nat)
    requires |limits| == |frames|
    ensures
      var s' := Decrypt(Receive(None, frames, limits), f, limit).0;
      s'.Some? ==>
        && 1 <= s'.value.next < s'.value.total < U32 && s'.value.id < U64
        && (f.length <= MAX_FRAME && f.plain.Some? ==> |s'.value.payload| <= limit)
  {
    ReceiveExplained(frames, limits);
    if f.length <= MAX_FRAME && f.plain.Some? {
      AcceptExplained(Receive(None, frames, limits), Decrypted(frames), f.plain.value, limit);
    }
  }

  /** An error drops the partial message exactly when the frame decrypted. */
  lemma ErrorDropsPartial(s: State, f: Frame, limit: nat)
    requires Decrypt(s, f, limit).1.Err? && s.Some?
    ensures Decrypt(s, f, limit).0 == (if f.length > MAX_FRAME || f.plain.None? then s else None)
  {}

  /** What may come next: a whole message or chunk 0 when idle, and otherwise exactly the next chunk
      of the message under way. */
  predicate Expected(s: State, item: Item) {
    match item
    case Whole(_) => s.None?
    case Broken => false
    case Part(c) =>
      && c.index < c.total
      && (s.None? ==> c.index == 0)
      && (s.Some? ==> c.index != 0 && c.index == s.value.next && c.id == s.value.id && c.total == s.value.total)
  }

  /** How long the message is with this item. */
  function LengthWith(s: State, item: Item): nat {
    (if s.Some? then |s.value.payload| else 0)
    + (match item case Whole(p) => |p| case Broken => 0 case Part(c) => |c.body|)
  }

  /** In every reachable state, for every frame: it is accepted exactly if it gets through the
      transport, is what may come next and keeps within the limit; then a whole message is
      delivered, and a chunk is appended, and delivers the message exactly if it is the last one.
      In particular nothing interrupts a message under way, not even a new first chunk. */
  lemma AcceptedExactly(frames: seq<Frame>, limits: seq<nat>, f: Frame, limit: nat)
    requires |limits| == |frames|
    ensures
      var s := Receive(None, frames, limits);
      var (s', o) := Decrypt(s, f, limit);
      && (o.Ok? <==> f.length <= MAX_FRAME && f.plain.Some? && Expected(s, Classify(f.plain.value))
                     && LengthWith(s, Classify(f.plain.value)) <= limit)
      && (o.Ok? ==>
            match Classify(f.plain.value)
            case Whole(p) => o.value == Some(p) && s' == None
            case Part(c) =>
              var payload := (if s.Some? then s.value.payload else []) + c.body;
              if c.index + 1 == c.total then o.value == Some(payload) && s' == None
              else o.value == None && s' == Some(Incoming(c.id, c.total, c.index + 1, payload)))
  {
    ReceiveExplained(frames, limits);
    var s := Receive(None, frames, limits);
    if f.plain.Some? && Classify(f.plain.value).Part? && s.None? {
      assert [] + Classify(f.plain.value).chunk.body == Classify(f.plain.value).chunk.body;
    }
  }

  // ---- the wire format ---------------------------------------------------------

  /** Numbers go over the wire with the most significant byte first. */
  lemma {:induction false} BigEndian(n: nat, width: nat)
    requires width >= 1
    ensures ToBytes(n, width)[width - 1] == n % 256
    ensures width >= 2 ==> ToBytes(n, width)[..width - 1] == ToBytes(n / 256, width - 1)
  {}

  /** A chunk is the four letters, the id in eight bytes, the index and the total in four each, and the body. */
  lemma WireFormat()
    ensures Encode(Chunk(1, 2, 0x0304, [9]))
         == [65, 77, 69, 50,  0, 0, 0, 0, 0, 0, 0, 1,  0, 0, 0, 2,  0, 0, 3, 4,  9]
  {
    Small(1, 8, [0, 0, 0, 0, 0, 0, 0]);
    Small(2, 4, [0, 0, 0]);
    BigEndian(0x0304, 4);
    Small(3, 3, [0, 0]);
    assert ToBytes(0x0304, 4) == ToBytes(3, 3) + [4];
  }

  lemma {:induction false} Small(n: nat, width: nat, zeros: seq<Byte>)
    requires n < 256 && width >= 1 && |zeros| == width - 1 && forall i :: 0 <= i < |zeros| ==> zeros[i] == 0
    ensures ToBytes(n, width) == zeros + [n]
  {
    BigEndian(n, width);
    if width >= 2 {
      Small(0, width - 1, zeros[..width - 2]);
      assert zeros == zeros[..width - 2] + [0];
    }
  }

  // ---- the sender ------------------------------------------------------------

  const CHUNK_BODY: nat := MAX_PLAINTEXT - HEADER

  function ChunkStart(i: nat): nat { i * CHUNK_BODY }

  function ChunkCount(n: nat): nat { (n + CHUNK_BODY - 1) / CHUNK_BODY }

  /** The body of chunk `i`: as much as fits beside the header, less in the last one. */
  function Piece(payload: Bytes, i: nat): Bytes
    requires i < ChunkCount(|payload|)
  {
    if ChunkStart(i + 1) <= |payload| then payload[ChunkStart(i)..ChunkStart(i + 1)] else payload[ChunkStart(i)..]
  }

  function ChunkAt(payload: Bytes, id: nat, i: nat): Chunk
    requires i < ChunkCount(|payload|)
  {
    Chunk(id, i, ChunkCount(|payload|), Piece(payload, i))
  }

  function Fragment(payload: Bytes, id: nat): Result<seq<Frame>, Error> {
    if |payload| > MAX_MESSAGE then Err(MessageTooLarge)
    else if |payload| <= MAX_PLAINTEXT then Ok([Seal(payload)])
    else
      Ok(seq(ChunkCount(|payload|), i requires 0 <= i < ChunkCount(|payload|) => Seal(Encode(ChunkAt(payload, id, i)))))
  }

  /** Every frame of a message is accepted by the receiver's frame limit. */
  lemma FramesFit(payload: Bytes, id: nat, i: nat)
    requires id < U64 && Fragment(payload, id).Ok? && i < |Fragment(payload, id).value|
    ensures Fragment(payload, id).value[i].length <= MAX_FRAME
  {
    if |payload| > MAX_PLAINTEXT { ChunkRoundTrip(ChunkAt(payload, id, i)); }
  }

  function Feed(s: State, frames: seq<Frame>, limit: nat): (r: (State, seq<Outcome>))
    ensures |r.1| == |frames|
  {
    if frames == [] then (s, [])
    else
      var n := |frames| - 1;
      var (t, outcomes) := Feed(s, frames[..n], limit);
      var (t', o) := Decrypt(t, frames[n], limit);
      (t', outcomes + [o])
  }

  /** What the receiver holds after `n` of the chunks. */
  function Partial(payload: Bytes, id: nat, n: nat): State
    requires ChunkStart(n) <= |payload|
  {
    if n == 0 then None else Some(Incoming(id, ChunkCount(|payload|), n, payload[..ChunkStart(n)]))
  }

  lemma PieceExtends(payload: Bytes, i: nat)
    requires i < ChunkCount(|payload|)
    ensures ChunkStart(i) < |payload|
    ensures payload[..ChunkStart(i)] + Piece(payload, i)
            == if i + 1 < ChunkCount(|payload|) then payload[..ChunkStart(i + 1)] else payload
    ensures i + 1 < ChunkCount(|payload|) ==> ChunkStart(i + 1) <= |payload|
  {}

  lemma ChunkFrame(s: State, c: Chunk, limit: nat)
    requires Fits(c) && |c.body| <= CHUNK_BODY
    ensures Decrypt(s, Seal(Encode(c)), limit) == AcceptChunk(s, c, limit)
  {
    ChunkRoundTrip(c);
  }

  lemma AcceptNext(id: nat, total: nat, i: nat, before: Bytes, body: Bytes, limit: nat)
    requires i < total && |before + body| <= limit && (i == 0 ==> before == [])
    ensures
      AcceptChunk(if i == 0 then None else Some(Incoming(id, total, i, before)), Chunk(id, i, total, body), limit)
      == if i + 1 < total then (Some(Incoming(id, total, i + 1, before + body)), Ok(None))
         else (None, Ok(Some(before + body)))
  {}

  lemma PartialAccepts(payload: Bytes, id: nat, i: nat, limit: nat)
    requires |payload| <= limit && i < ChunkCount(|payload|) && ChunkStart(i) <= |payload|
    ensures
      var r := AcceptChunk(Partial(payload, id, i), ChunkAt(payload, id, i), limit);
      if i + 1 < ChunkCount(|payload|)
      then ChunkStart(i + 1) <= |payload| && r == (Partial(payload, id, i + 1), Ok(None))
      else r == (None, Ok(Some(payload)))
  {
    PieceExtends(payload, i);
    AcceptNext(id, ChunkCount(|payload|), i, payload[..ChunkStart(i)], Piece(payload, i), limit);
  }

  /** The chunk's fields fit their header, and its frame is decrypted to it. */
  lemma ChunkDecrypts(payload: Bytes, id: nat, i: nat, s: State, limit: nat)
    requires id < U64 && |payload| <= MAX_MESSAGE && i < ChunkCount(|payload|)
    ensures var c := ChunkAt(payload, id, i); Decrypt(s, Seal(Encode(c)), limit) == AcceptChunk(s, c, limit)
  {
    ChunkFrame(s, ChunkAt(payload, id, i), limit);
  }

  lemma {:induction false} ChunksFed(payload: Bytes, id: nat, n: nat, limit: nat)
    requires id < U64 && MAX_PLAINTEXT < |payload| <= MAX_MESSAGE && |payload| <= limit
    requires n < ChunkCount(|payload|)
    ensures ChunkStart(n) <= |payload|
    ensures
      var r := Feed(None, Fragment(payload, id).value[..n], limit);
      r.0 == Partial(payload, id, n) && forall i :: 0 <= i < n ==> r.1[i] == Ok(None)
  {
    if n > 0 {
      var frames := Fragment(payload, id).value;
      ChunksFed(payload, id, n - 1, limit);
      ChunkDecrypts(payload, id, n - 1, Partial(payload, id, n - 1), limit);
      PartialAccepts(payload, id, n - 1, limit);
      assert frames[..n][..n - 1] == frames[..n - 1];
    }
  }

  /** The frames of the message, fed to an idle receiver, deliver exactly the payload, with
      the last frame and not before, and leave the receiver idle. */
  ghost predicate Delivered(payload: Bytes, id: nat, limit: nat) {
    Fragment(payload, id).Ok? &&
    var frames := Fragment(payload, id).value;
    var (s, outcomes) := Feed(None, frames, limit);
    && s == None
    && |outcomes| > 0 && outcomes[|outcomes| - 1] == Ok(Some(payload))
    && forall i :: 0 <= i < |outcomes| - 1 ==> outcomes[i] == Ok(None)
  }

  lemma LongDelivered(payload: Bytes, id: nat, limit: nat)
    requires id < U64 && MAX_PLAINTEXT < |payload| <= MAX_MESSAGE && |payload| <= limit
    ensures Delivered(payload, id, limit)
  {
    var frames := Fragment(payload, id).value;
    var n := ChunkCount(|payload|) - 1;
    assert |frames| == n + 1 && frames[n] == Seal(Encode(ChunkAt(payload, id, n)));
    ChunksFed(payload, id, n, limit);
    ChunkDecrypts(payload, id, n, Partial(payload, id, n), limit);
    PartialAccepts(payload, id, n, limit);
    var (t, outcomes) := Feed(None, frames[..n], limit);
    assert Feed(None, frames, limit) == (None, outcomes + [Ok(Some(payload))]);
  }

  lemma ShortOutcome(payload: Bytes, id: nat, limit: nat)
    requires |payload| <= MAX_PLAINTEXT
    ensures Feed(None, Fragment(payload, id).value, limit).1 == [Accept(None, Classify(payload), limit).1]
    ensures Feed(None, Fragment(payload, id).value, limit).0 == Accept(None, Classify(payload), limit).0
  {
    var frames := Fragment(payload, id).value;
    assert frames[..0] == [];
  }

  /** Nothing longer than the limit is ever delivered. */
  lemma DeliveredWithinLimit(s: State, f: Frame, limit: nat)
    ensures
      var o := Decrypt(s, f, limit).1;
      o.Ok? && o.value.Some? ==> |o.value.value| <= limit
  {}

  lemma OverLimitNotDelivered(payload: Bytes, id: nat, limit: nat)
    requires |payload| > limit
    ensures !Delivered(payload, id, limit)
  {
    if Fragment(payload, id).Ok? && |Fragment(payload, id).value| > 0 {
      var frames := Fragment(payload, id).value;
      var n := |frames| - 1;
      DeliveredWithinLimit(Feed(None, frames[..n], limit).0, frames[n], limit);
    }
  }

  /** The round trip holds exactly for payloads within both limits that either are long enough
      to be chunked or do not begin with the chunk magic. */
  lemma RoundTripExactly(payload: Bytes, id: nat, limit: nat)
    requires id < U64
    ensures Delivered(payload, id, limit)
            <==> |payload| <= MAX_MESSAGE && |payload| <= limit
                 && (|payload| > MAX_PLAINTEXT || !StartsWithMagic(payload))
  {
    if |payload| > MAX_MESSAGE {
    } else if |payload| > limit {
      OverLimitNotDelivered(payload, id, limit);
    } else if |payload| > MAX_PLAINTEXT {
      LongDelivered(payload, id, limit);
    } else {
      ShortOutcome(payload, id, limit);
    }
  }

  /** A message is encoded as JSON, whose text begins with `{`, `"` or another character that is
      not the first of the chunk magic; so every message within the two limits is delivered. */
  lemma JsonDelivered(payload: Bytes, id: nat, limit: nat)
    requires id < U64 && payload != [] && payload[0] != MAGIC[0]
    ensures Delivered(payload, id, limit) <==> |payload| <= MAX_MESSAGE && |payload| <= limit
  {
    assert forall b: Bytes :: StartsWithMagic(b) ==> b[0] == b[..4][0] == MAGIC[0];
    RoundTripExactly(payload, id, limit);
  }

  /** What is left of the payload before chunk `i`. */
  function Remaining(payload: Bytes, i: nat): Bytes {
    if ChunkStart(i) <= |payload| then payload[ChunkStart(i)..] else []
  }

  lemma NextPiece(payload: Bytes, i: nat)
    requires Remaining(payload, i) != []
    ensures i < ChunkCount(|payload|)
    ensures
      var rest := Remaining(payload, i);
      var size := if |rest| < CHUNK_BODY then |rest| else CHUNK_BODY;
      rest[..size] == Piece(payload, i) && rest[size..] == Remaining(payload, i + 1)
  {}

  // ---- the object ------------------------------------------------------------

  class Channel {
    var incoming: State

    constructor ()
      ensures incoming == None
    {
      incoming := None;
    }

    method EncryptMessage(payload: Bytes, messageId: nat) returns (r: Result<seq<Frame>, Error>)
      ensures r == Fragment(payload, messageId)
    {
      if |payload| > MAX_MESSAGE { return Err(MessageTooLarge); }
      if |payload| <= MAX_PLAINTEXT { return Ok([Seal(payload)]); }
      var total := ChunkCount(|payload|);
      var frames: seq<Frame> := [];
      var rest := payload;
      while rest != []
        invariant |frames| <= total && rest == Remaining(payload, |frames|)
        invariant forall i :: 0 <= i < |frames| ==> frames[i] == Seal(Encode(ChunkAt(payload, messageId, i)))
        decreases |rest|
      {
        NextPiece(payload, |frames|);
        var size := if |rest| < CHUNK_BODY then |rest| else CHUNK_BODY;
        var framed := MAGIC + ToBytes(messageId, 8) + ToBytes(|frames|, 4) + ToBytes(total, 4) + rest[..size];
        assert framed == Encode(ChunkAt(payload, messageId, |frames|));
        frames := frames + [Seal(framed)];
        rest := rest[size..];
      }
      assert frames == Fragment(payload, messageId).value;
      return Ok(frames);
    }

    method DecryptFrame(frame: Frame, limit: nat) returns (o: Outcome)
      modifies this
      ensures (incoming, o) == Decrypt(old(incoming), frame, limit)
    {
      if frame.length > MAX_FRAME { return Err(MessageTooLarge); }
      if frame.plain.None? { return Err(Transport); }
      var out := frame.plain.value;
      if !StartsWithMagic(out) {
        var busy := incoming.Some?;
        incoming := None;
        if busy { return Err(InvalidSequence); }
        if |out| > limit { return Err(MessageTooLarge); }
        return Ok(Some(out));
      }
      if |out| < HEADER {
        incoming := None;
        return Err(InvalidHeader);
      }
      var c := Parse(out);
      if c.total == 0 || c.index >= c.total {
        incoming := None;
        return Err(InvalidSequence);
      }
      if c.index == 0 {
        if incoming.Some? {
          incoming := None;
          return Err(InvalidSequence);
        }
        incoming := Some(Incoming(c.id, c.total, 0, []));
      }
      if incoming.None? { return Err(MissingStart); }
      var m := incoming.value;
      if m.id != c.id || m.total != c.total || m.next != c.index {
        incoming := None;
        return Err(InvalidSequence);
      }
      if |m.payload| + |c.body| > limit {
        incoming := None;
        return Err(MessageTooLarge);
      }
      m := m.(payload := m.payload + c.body, next := m.next + 1);
      if m.next != m.total {
        incoming := Some(m);
        return Ok(None);
      }
      incoming := None;
      return Ok(Some(m.payload));
    }
  }
}
