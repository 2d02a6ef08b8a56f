/**
 The account engine's binary log: one frame per batch, each holding its records and a checksum,
 scanned back up to a last frame that may be torn.
 */
module AccountLog {
  import opened Bytes
  import opened Accounts
  import opened AccountEngine

  const I64_LIMIT: int := 0x8000_0000_0000_0000
  const MAX_FRAME_BYTES: nat := 0x400_0000

  // The checksum of a byte string, as the CRC-32 library computes it.
  type Checksum = Bytes -> nat

  function Crc(sum: Checksum, b: Bytes): nat
  {
    sum(b) % U32_LIMIT
  }

  // ------------------------------------------------------------------ fixed-width words

  predicate InI64(v: int) { -I64_LIMIT <= v < I64_LIMIT }

  predicate InU64(v: int) { 0 <= v < U64_LIMIT }

  // A signed value as the unsigned word with the same bits, and back.
  function Unsigned(v: int): nat
  {
    v % U64_LIMIT
  }

  function Signed(w: nat): int
  {
    if w < I64_LIMIT then w else w - U64_LIMIT
  }

  lemma SignedRoundTrip(v: int)
    requires InI64(v)
    ensures Unsigned(v) < U64_LIMIT && Signed(Unsigned(v)) == v
  {
    if v < 0 { assert Unsigned(v) == v + U64_LIMIT; }
  }

  // Consecutive 64-bit words.
  function Words(ws: seq<nat>): (b: Bytes)
    ensures |b| == 8 * |ws|
  {
    if ws == [] then [] else Words(ws[..|ws| - 1]) + LittleEndian(8, ws[|ws| - 1])
  }

  function WordAt(src: Bytes, pos: nat, i: nat): nat
    requires pos + 8 * i + 8 <= |src|
  {
    FromLittleEndian(src[pos + 8 * i..pos + 8 * i + 8])
  }

  // Words read back from wherever they were written.
  lemma {:induction false} WordsReadBack(before: Bytes, ws: seq<nat>, after: Bytes, i: nat)
    requires i < |ws| && ws[i] < U64_LIMIT
    ensures WordAt(before + Words(ws) + after, |before|, i) == ws[i]
  {
    Widths();
    var src := before + Words(ws) + after;
    WordSlice(ws, i);
    assert src[|before| + 8 * i..|before| + 8 * i + 8] == Words(ws)[8 * i..8 * i + 8];
    LittleEndianRoundTrip(8, ws[i]);
  }

  lemma {:induction false} WordSlice(ws: seq<nat>, i: nat)
    requires i < |ws|
    ensures Words(ws)[8 * i..8 * i + 8] == LittleEndian(8, ws[i])
  {
    if i < |ws| - 1 {
      WordSlice(ws[..|ws| - 1], i);
    }
  }

  // ------------------------------------------------------------------------- records

  function Flags(accepted: bool, pending: bool): byte
  {
    (if accepted then 1 else 0) + (if pending then 2 else 0)
  }

  function HeadWords(r: Record): seq<nat>
  {
    [Unsigned(r.kind), r.a, r.b, Unsigned(r.amount)]
  }

  function TailWords(r: Record): seq<nat>
  {
    [Unsigned(r.reason), Unsigned(r.effect), Unsigned(r.turns), Unsigned(r.newBalanceA), Unsigned(r.newBalanceB),
     Unsigned(r.newStatus), r.expectedA, r.expectedB, r.pending.target, Unsigned(r.pending.amount)]
  }

  function RecordBytes(r: Record): Bytes
  {
    LittleEndian(8, r.sequence) + LittleEndian(4, |r.commandID|) + r.commandID
    + Words(HeadWords(r)) + [Flags(r.accepted, r.pending.active)] + Words(TailWords(r))
  }

  // Every number of the record fits the width it is written with.
  predicate Encodable(r: Record)
  {
    && InU64(r.sequence) && 0 < |r.commandID| < U32_LIMIT && InI64(r.kind) && InU64(r.a) && InU64(r.b)
       && InI64(r.amount)
    && InI64(r.reason) && InI64(r.effect) && InI64(r.turns) && InI64(r.newBalanceA) && InI64(r.newBalanceB)
       && InI64(r.newStatus)
    && InU64(r.expectedA) && InU64(r.expectedB) && InU64(r.pending.target) && InI64(r.pending.amount)
  }

  // The size the parser's guard reckons with, and the size of what follows the command identity.
  const GUARD: nat := 117
  const FIXED_TAIL: nat := 113

  datatype Parsed = Parsed(record: Record, next: nat) | Malformed | Panics

  // `id` is where the command identity starts, `pos` where it ends.
  function ReadRecord(src: Bytes, sequence: nat, id: nat, pos: nat): Record
    requires id <= pos && pos + FIXED_TAIL <= |src|
  {
    var tail := pos + 33;
    Record(sequence, src[id..pos], Signed(WordAt(src, pos, 0)), WordAt(src, pos, 1), WordAt(src, pos, 2),
        Signed(WordAt(src, pos, 3)),
           src[pos + 32] % 2 == 1, Signed(WordAt(src, tail, 0)), Signed(WordAt(src, tail, 1)),
               Signed(WordAt(src, tail, 2)),
           Signed(WordAt(src, tail, 3)), Signed(WordAt(src, tail, 4)), Signed(WordAt(src, tail, 5)),
               WordAt(src, tail, 6), WordAt(src, tail, 7),
           Pending(src[pos + 32] / 2 % 2 == 1, WordAt(src, tail, 8), Signed(WordAt(src, tail, 9))))
  }

  // A record is read from a slice `src` of a larger buffer, whose next bytes are `spare`. The guard
  // is eight bytes short of what is read, so that the last number may be read from there; only
  // where the buffer ends does the program stop. The cursor then stands behind the slice.
  function ParseRecord(src: Bytes, spare: Bytes, pos: nat): Parsed
  {
    if |src| - pos < GUARD then Malformed
    else
      var sequence, size := WordAt(src, pos, 0), FromLittleEndian(src[pos + 8..pos + 12]);
      var id := pos + 12;
      if size == 0 || size > |src| - id || |src| - id - size < GUARD - 12 then Malformed
      else ReadFixed(src, spare, sequence, id, id + size)
  }

  function ReadFixed(src: Bytes, spare: Bytes, sequence: nat, id: nat, at: nat): Parsed
    requires id <= at
  {
    if at + FIXED_TAIL <= |src| then Parsed(ReadRecord(src, sequence, id, at), at + FIXED_TAIL)
    else if at + FIXED_TAIL <= |src + spare| then Parsed(ReadRecord(src + spare, sequence, id, at), at + FIXED_TAIL)
    else Panics
  }

  function IdentityBytes(r: Record): Bytes
  {
    LittleEndian(8, r.sequence) + LittleEndian(4, |r.commandID|) + r.commandID
  }

  lemma IdentityReadBack(r: Record, before: Bytes, after: Bytes)
    requires Encodable(r)
    ensures IdentityAt(r, before + IdentityBytes(r) + after, |before|)
  {
    var src, pos := before + IdentityBytes(r) + after, |before|;
    Widths();
    LittleEndianRoundTrip(8, r.sequence);
    LittleEndianRoundTrip(4, |r.commandID|);
    assert src[pos..pos + 8] == LittleEndian(8, r.sequence);
    assert src[pos + 8..pos + 12] == LittleEndian(4, |r.commandID|);
  }

  lemma HeadReadBack(r: Record, before: Bytes, after: Bytes)
    requires Encodable(r)
    ensures HeadAt(r, before + Words(HeadWords(r)) + ([Flags(r.accepted, r.pending.active)] + after), |before|)
  {
    var ws, rest := HeadWords(r), [Flags(r.accepted, r.pending.active)] + after;
    SignedRoundTrip(r.kind);
    SignedRoundTrip(r.amount);
    forall i: nat | i < 4 ensures WordAt(before + Words(ws) + rest, |before|, i)
        == ws[i] { WordsReadBack(before, ws, rest, i); }
  }

  ghost predicate TailAt(r: Record, src: Bytes, pos: nat)
  {
    && pos + 80 <= |src|
    && Signed(WordAt(src, pos, 0)) == r.reason && Signed(WordAt(src, pos, 1)) == r.effect
       && Signed(WordAt(src, pos, 2)) == r.turns
    && Signed(WordAt(src, pos, 3)) == r.newBalanceA && Signed(WordAt(src, pos, 4)) == r.newBalanceB
    && Signed(WordAt(src, pos, 5)) == r.newStatus && WordAt(src, pos, 6) == r.expectedA
       && WordAt(src, pos, 7) == r.expectedB
    && WordAt(src, pos, 8) == r.pending.target && Signed(WordAt(src, pos, 9)) == r.pending.amount
  }

  lemma TailReadBack(r: Record, before: Bytes, after: Bytes)
    requires Encodable(r)
    ensures TailAt(r, before + Words(TailWords(r)) + after, |before|)
  {
    var ws, src := TailWords(r), before + Words(TailWords(r)) + after;
    TailWordsFit(r);
    forall i: nat | i < 10 ensures WordAt(src, |before|, i) == ws[i] { WordsReadBack(before, ws, after, i); }
    SignedRoundTrip(r.reason);
    SignedRoundTrip(r.effect);
    SignedRoundTrip(r.turns);
    SignedRoundTrip(r.newBalanceA);
    SignedRoundTrip(r.newBalanceB);
    SignedRoundTrip(r.newStatus);
    SignedRoundTrip(r.pending.amount);
  }

  lemma TailWordsFit(r: Record)
    requires Encodable(r)
    ensures forall i: nat | i < 10 :: TailWords(r)[i] < U64_LIMIT
  {}

  ghost predicate IdentityAt(r: Record, src: Bytes, pos: nat)
  {
    && pos + 12 + |r.commandID| <= |src|
    && WordAt(src, pos, 0) == r.sequence && FromLittleEndian(src[pos + 8..pos + 12]) == |r.commandID|
    && src[pos + 12..pos + 12 + |r.commandID|] == r.commandID
  }

  ghost predicate HeadAt(r: Record, src: Bytes, pos: nat)
  {
    && pos + 33 <= |src|
    && Signed(WordAt(src, pos, 0)) == r.kind && WordAt(src, pos, 1) == r.a && WordAt(src, pos, 2) == r.b
    && Signed(WordAt(src, pos, 3)) == r.amount && src[pos + 32] == Flags(r.accepted, r.pending.active)
  }

  lemma ReadFields(r: Record, src: Bytes, id: nat)
    requires id + |r.commandID| + FIXED_TAIL <= |src| && src[id..id + |r.commandID|] == r.commandID
    requires HeadAt(r, src, id + |r.commandID|) && TailAt(r, src, id + |r.commandID| + 33)
    ensures ReadRecord(src, r.sequence, id, id + |r.commandID|) == r
  {}

  lemma ParseSteps(src: Bytes, spare: Bytes, pos: nat, id: nat, at: nat)
    requires id == pos + 12 && id < at && at + FIXED_TAIL <= |src|
             && FromLittleEndian(src[pos + 8..pos + 12]) == at - id
    ensures ParseRecord(src, spare, pos) == Parsed(ReadRecord(src, WordAt(src, pos, 0), id, at), at + FIXED_TAIL)
  {}

  lemma ParseFields(r: Record, src: Bytes, spare: Bytes, pos: nat, id: nat, at: nat)
    requires Encodable(r) && id == pos + 12 && at == id + |r.commandID| && IdentityAt(r, src, pos)
    requires HeadAt(r, src, at) && TailAt(r, src, at + 33)
    ensures ParseRecord(src, spare, pos) == Parsed(r, at + FIXED_TAIL)
  {
    ReadFields(r, src, id);
    ParseSteps(src, spare, pos, id, at);
  }

  lemma Regroup(before: Bytes, identity: Bytes, head: Bytes, flags: Bytes, tail: Bytes, after: Bytes)
    ensures var src := before + (identity + head + flags + tail) + after;
            && src == before + identity + (head + flags + tail + after)
            && src == (before + identity) + head + (flags + tail + after)
            && src == (before + identity + head + flags) + tail + after
  {}

  lemma IdentityStands(r: Record, before: Bytes, after: Bytes)
    requires Encodable(r)
    ensures IdentityAt(r, before + RecordBytes(r) + after, |before|)
  {
    var identity, head, flags, tail := IdentityBytes(r), Words(HeadWords(r)), [Flags(r.accepted, r.pending.active)],
        Words(TailWords(r));
    Regroup(before, identity, head, flags, tail, after);
    IdentityReadBack(r, before, head + flags + tail + after);
  }

  lemma HeadStands(r: Record, before: Bytes, after: Bytes)
    requires Encodable(r)
    ensures HeadAt(r, before + RecordBytes(r) + after, |before| + 12 + |r.commandID|)
  {
    var identity, head, flags, tail := IdentityBytes(r), Words(HeadWords(r)), [Flags(r.accepted, r.pending.active)],
        Words(TailWords(r));
    Regroup(before, identity, head, flags, tail, after);
    ConcatAssoc(flags, tail, after);
    HeadReadBack(r, before + identity, tail + after);
  }

  lemma TailStands(r: Record, before: Bytes, after: Bytes)
    requires Encodable(r)
    ensures TailAt(r, before + RecordBytes(r) + after, |before| + 12 + |r.commandID| + 33)
  {
    var identity, head, flags, tail := IdentityBytes(r), Words(HeadWords(r)), [Flags(r.accepted, r.pending.active)],
        Words(TailWords(r));
    Regroup(before, identity, head, flags, tail, after);
    TailReadBack(r, before + identity + head + flags, after);
  }

  lemma RecordStands(r: Record, before: Bytes, after: Bytes) returns (src: Bytes, at: nat)
    requires Encodable(r)
    ensures src == before + RecordBytes(r) + after && at == |before| + 12 + |r.commandID|
    ensures IdentityAt(r, src, |before|) && HeadAt(r, src, at) && TailAt(r, src, at + 33)
  {
    src, at := before + RecordBytes(r) + after, |before| + 12 + |r.commandID|;
    IdentityStands(r, before, after);
    HeadStands(r, before, after);
    TailStands(r, before, after);
  }

  // A record parses back to what was written, wherever it stands in a frame.
  lemma RecordRoundTrip(r: Record, before: Bytes, after: Bytes, spare: Bytes)
    requires Encodable(r)
    ensures ParseRecord(before + RecordBytes(r) + after, spare, |before|) == Parsed(r, |before| + |RecordBytes(r)|)
  {
    var src, at := RecordStands(r, before, after);
    ParseFields(r, src, spare, |before|, |before| + 12, at);
  }

  // -------------------------------------------------------------------------- frames

  function RecordsBytes(rs: seq<Record>): Bytes
  {
    if rs == [] then [] else RecordBytes(rs[0]) + RecordsBytes(rs[1..])
  }

  function Payload(rs: seq<Record>): Bytes
  {
    LittleEndian(4, |rs|) + RecordsBytes(rs)
  }

  function Framed(sum: Checksum, p: Bytes): Bytes
  {
    LittleEndian(4, |p|) + p + LittleEndian(4, Crc(sum, p))
  }

  function Frame(sum: Checksum, rs: seq<Record>): Bytes
  {
    Framed(sum, Payload(rs))
  }

  // A batch the log can hold: every record encodable, and the frame not too large to be written.
  ghost predicate FrameOk(rs: seq<Record>)
  {
    |rs| < U32_LIMIT && (forall r <- rs :: Encodable(r)) && |Payload(rs)| <= MAX_FRAME_BYTES
  }

  function Frames(sum: Checksum, batches: seq<seq<Record>>): Bytes
  {
    if batches == [] then [] else Frame(sum, batches[0]) + Frames(sum, batches[1..])
  }

  const MAGIC: Bytes := [79, 67, 84, 87, 65, 76, 48, 49]
  const TAG: Bytes := [83, 65, 70, 69, 71, 79, 48, 49]

  function Header(sum: Checksum): (h: Bytes)
    ensures |h| == 24
  {
    var named := MAGIC + LittleEndian(4, 1) + TAG;
    named + LittleEndian(4, Crc(sum, named))
  }

  datatype ParsedAll = AllParsed(records: seq<Record>, next: nat) | BadRecord | RunsOffTheEnd

  function ParseRecords(src: Bytes, spare: Bytes, pos: nat, count: nat): (p: ParsedAll)
    ensures p.AllParsed? ==> pos <= p.next && |p.records| == count
    decreases count
  {
    if count == 0 then AllParsed([], pos)
    else
      match ParseRecord(src, spare, pos)
      case Malformed => BadRecord
      case Panics => RunsOffTheEnd
      case Parsed(r, next) =>
        match ParseRecords(src, spare, next, count - 1)
        case AllParsed(rs, last) => AllParsed([r] + rs, last)
        case bad => bad
  }

  lemma Splice<T>(a: seq<T>, b: seq<T>, c: seq<T>, d: seq<T>)
    ensures a + (b + c) + d == a + b + (c + d) && a + (b + c) + d == (a + b) + c + d
  {}

  lemma ParseOneMore(src: Bytes, spare: Bytes, pos: nat, count: nat, r: Record, next: nat, rs: seq<Record>, last: nat,
      all: seq<Record>)
    requires count > 0 && ParseRecord(src, spare, pos) == Parsed(r, next)
    requires ParseRecords(src, spare, next, count - 1) == AllParsed(rs, last) && all == [r] + rs
    ensures ParseRecords(src, spare, pos, count) == AllParsed(all, last)
  {}

  lemma FirstParses(rs: seq<Record>, before: Bytes, after: Bytes, src: Bytes, spare: Bytes)
    requires rs != [] && Encodable(rs[0]) && src == before + RecordsBytes(rs) + after
    ensures src == (before + RecordBytes(rs[0])) + RecordsBytes(rs[1..]) + after
    ensures ParseRecord(src, spare, |before|) == Parsed(rs[0], |before + RecordBytes(rs[0])|)
  {
    var one, rest := RecordBytes(rs[0]), RecordsBytes(rs[1..]);
    Splice(before, one, rest, after);
    RecordRoundTrip(rs[0], before, rest + after, spare);
  }

  lemma SplitFirst<T>(s: seq<T>)
    requires s != []
    ensures s == [s[0]] + s[1..]
  {}

  lemma {:induction false} RecordsRoundTrip(rs: seq<Record>, before: Bytes, after: Bytes, src: Bytes, spare: Bytes)
    requires (forall r <- rs :: Encodable(r)) && src == before + RecordsBytes(rs) + after
    ensures ParseRecords(src, spare, |before|, |rs|) == AllParsed(rs, |before| + |RecordsBytes(rs)|)
    decreases |rs|
  {
    if rs != [] {
      var one, rest := RecordBytes(rs[0]), RecordsBytes(rs[1..]);
      FirstParses(rs, before, after, src, spare);
      RecordsRoundTrip(rs[1..], before + one, after, src, spare);
      SplitFirst(rs);
      ParseOneMore(src, spare, |before|, |rs|, rs[0], |before + one|, rs[1..], |before + one| + |rest|, rs);
    }
  }

  // ---------------------------------------------------------------------------- scan

  function Above(rs: seq<Record>, sequence: nat): seq<Record>
  {
    if rs == [] then []
    else Above(rs[..|rs| - 1], sequence) + if rs[|rs| - 1].sequence > sequence then [rs[|rs| - 1]] else []
  }

  datatype Scanned = Scanned(records: seq<Record>, keep: nat) | Invalid | Incompatible | Crashes

  datatype FrameRead = Complete(records: seq<Record>, next: nat) | Incomplete | Broken(crash: bool)

  function ReadPayload(payload: Bytes, spare: Bytes, next: nat): FrameRead
    requires |payload| >= 4
  {
    match ParseRecords(payload, spare, 4, FromLittleEndian(payload[..4]))
    case BadRecord => Broken(false)
    case RunsOffTheEnd => Broken(true)
    case AllParsed(rs, last) => if last == |payload| then Complete(rs, next) else Broken(false)
  }

  function ReadSummed(sum: Checksum, data: Bytes, spare: Bytes, start: nat, stop: nat): FrameRead
    requires start + 4 <= stop && stop + 4 <= |data|
  {
    if Crc(sum, data[start..stop]) != FromLittleEndian(data[stop..stop + 4]) then Broken(false)
    else ReadPayload(data[start..stop], data[stop..] + spare, stop + 4)
  }

  function ReadFrame(sum: Checksum, data: Bytes, spare: Bytes, pos: nat): (f: FrameRead)
    requires pos < |data|
    ensures f.Complete? ==> pos < f.next <= |data|
  {
    if |data| - pos < 4 then Incomplete
    else
      var size, start := FromLittleEndian(data[pos..pos + 4]), pos + 4;
      if size < 4 || size > MAX_FRAME_BYTES then Broken(false)
      else if |data| - start < size + 4 then Incomplete
      else ReadSummed(sum, data, spare, start, start + size)
  }

  function ScanFrom(sum: Checksum, data: Bytes, spare: Bytes, pos: nat, after: nat): Scanned
    requires pos <= |data|
    decreases |data| - pos
  {
    if pos == |data| then Scanned([], pos)
    else
      match ReadFrame(sum, data, spare, pos)
      case Incomplete => Scanned([], pos)
      case Broken(crash) => if crash then Crashes else Invalid
      case Complete(rs, next) =>
        match ScanFrom(sum, data, spare, next, after)
        case Scanned(more, keep) => Scanned(Above(rs, after) + more, keep)
        case bad => bad
  }

  function Scan(sum: Checksum, data: Bytes, spare: Bytes, after: nat): Scanned
  {
    if |data| >= 12 && data[..8] == MAGIC && FromLittleEndian(data[8..12]) != 1 then Incompatible
    else if |data| < 24 || data[..8] != MAGIC || FromLittleEndian(data[20..24]) != Crc(sum, data[..20]) then Invalid
    else ScanFrom(sum, data, spare, 24, after)
  }

  lemma Middle<T>(a: seq<T>, b: seq<T>, c: seq<T>, i: nat, j: nat)
    requires i == |a| && j == |a| + |b|
    ensures (a + b + c)[i..j] == b
  {}

  lemma ThreeParts<T>(a: seq<T>, b: seq<T>, c: seq<T>, d: seq<T>, e: seq<T>)
    ensures var all := a + (b + c + d) + e;
              all == a + b + (c + d + e) && all == (a + b) + c + (d + e) && all == (a + b + c) + d + e
  {}

  lemma FrameSlices(sum: Checksum, p: Bytes, before: Bytes, after: Bytes, start: nat)
    requires start == |before| + 4
    ensures var data := before + Framed(sum, p) + after;
            && data[|before|..|before| + 4] == LittleEndian(4, |p|)
            && data[start..start + |p|] == p && data[start + |p|..start + |p| + 4] == LittleEndian(4, Crc(sum, p))
  {
    var size, crc := LittleEndian(4, |p|), LittleEndian(4, Crc(sum, p));
    ThreeParts(before, size, p, crc, after);
    Middle(before, size, p + crc + after, |before|, |before| + 4);
    Middle(before + size, p, crc + after, start, start + |p|);
    Middle(before + size + p, crc, after, start + |p|, start + |p| + 4);
  }

  lemma FrameFrom(sum: Checksum, data: Bytes, spare: Bytes, pos: nat, start: nat, stop: nat)
    requires start == pos + 4 && start + 4 <= stop <= start + MAX_FRAME_BYTES && stop + 4 <= |data|
    requires FromLittleEndian(data[pos..pos + 4]) == stop - start
    ensures ReadFrame(sum, data, spare, pos) == ReadSummed(sum, data, spare, start, stop)
  {
    assert |data| - start >= stop - start + 4;
  }

  lemma SummedReads(sum: Checksum, p: Bytes, data: Bytes, spare: Bytes, start: nat, stop: nat)
    requires start + 4 <= stop && stop + 4 <= |data| && data[start..stop] == p
             && data[stop..stop + 4] == LittleEndian(4, Crc(sum, p))
    ensures ReadSummed(sum, data, spare, start, stop) == ReadPayload(p, data[stop..] + spare, stop + 4)
  {
    Widths();
    LittleEndianRoundTrip(4, Crc(sum, p));
  }

  lemma FramedReads(sum: Checksum, p: Bytes, data: Bytes, spare: Bytes, pos: nat, start: nat, stop: nat)
    requires 4 <= |p| <= MAX_FRAME_BYTES && start == pos + 4 && stop == start + |p| && stop + 4 <= |data|
    requires data[pos..pos + 4] == LittleEndian(4, |p|)
    requires data[start..stop] == p && data[stop..stop + 4] == LittleEndian(4, Crc(sum, p))
    ensures ReadFrame(sum, data, spare, pos) == ReadPayload(p, data[stop..] + spare, stop + 4)
  {
    Widths();
    LittleEndianRoundTrip(4, |p|);
    FrameFrom(sum, data, spare, pos, start, stop);
    SummedReads(sum, p, data, spare, start, stop);
  }

  lemma FrameReads(sum: Checksum, rs: seq<Record>, before: Bytes, after: Bytes, spare: Bytes)
    requires FrameOk(rs)
    ensures |Frame(sum, rs)| > 0
    ensures ReadFrame(sum, before + Frame(sum, rs) + after, spare, |before|)
            == Complete(rs, |before| + |Frame(sum, rs)|)
  {
    FrameSlices(sum, Payload(rs), before, after, |before| + 4);
    FrameReadsAt(sum, rs, before + Frame(sum, rs) + after, spare, |before|, |before| + 4 + |Payload(rs)|);
  }

  lemma FrameReadsAt(sum: Checksum, rs: seq<Record>, data: Bytes, spare: Bytes, pos: nat, stop: nat)
    requires FrameOk(rs) && stop == pos + 4 + |Payload(rs)| && stop + 4 <= |data|
    requires data[pos..pos + 4] == LittleEndian(4, |Payload(rs)|)
    requires data[pos + 4..stop] == Payload(rs) && data[stop..stop + 4] == LittleEndian(4, Crc(sum, Payload(rs)))
    ensures ReadFrame(sum, data, spare, pos) == Complete(rs, stop + 4)
  {
    PayloadReads(rs, data[stop..] + spare, stop + 4);
    FramedReads(sum, Payload(rs), data, spare, pos, pos + 4, stop);
  }

  lemma PayloadReads(rs: seq<Record>, spare: Bytes, next: nat)
    requires FrameOk(rs)
    ensures ReadPayload(Payload(rs), spare, next) == Complete(rs, next)
  {
    Widths();
    LittleEndianRoundTrip(4, |rs|);
    assert Payload(rs)[..4] == LittleEndian(4, |rs|);
    assert LittleEndian(4, |rs|) + RecordsBytes(rs) + [] == Payload(rs);
    RecordsRoundTrip(rs, LittleEndian(4, |rs|), [], Payload(rs), spare);
  }

  // A strict prefix of one more frame, as an interrupted write leaves it.
  ghost predicate Torn(sum: Checksum, tail: Bytes)
  {
    exists rs :: FrameOk(rs) && tail < Frame(sum, rs)
  }

  lemma TornIncomplete(sum: Checksum, before: Bytes, tail: Bytes, spare: Bytes)
    requires Torn(sum, tail) && tail != []
    ensures ReadFrame(sum, before + tail, spare, |before|) == Incomplete
  {
    var rs :| FrameOk(rs) && tail < Frame(sum, rs);
    var p, data, pos := Payload(rs), before + tail, |before|;
    if |tail| >= 4 {
      Widths();
      LittleEndianRoundTrip(4, |p|);
      assert data[pos..pos + 4] == tail[..4] == Frame(sum, rs)[..4] == LittleEndian(4, |p|);
    }
  }

  function Flatten(batches: seq<seq<Record>>): seq<Record>
  {
    if batches == [] then [] else batches[0] + Flatten(batches[1..])
  }

  lemma {:induction false} AboveAppend(a: seq<Record>, b: seq<Record>, sequence: nat)
    ensures Above(a + b, sequence) == Above(a, sequence) + Above(b, sequence)
  {
    if b == [] {
      assert a + b == a;
    } else {
      assert (a + b)[..|a + b| - 1] == a + b[..|b| - 1];
      AboveAppend(a, b[..|b| - 1], sequence);
    }
  }

  lemma ScanOneMore(sum: Checksum, data: Bytes, spare: Bytes, pos: nat, after: nat, rs: seq<Record>, next: nat,
      more: seq<Record>, keep: nat)
    requires pos < next <= |data| && ReadFrame(sum, data, spare, pos) == Complete(rs, next)
    requires ScanFrom(sum, data, spare, next, after) == Scanned(more, keep)
    ensures ScanFrom(sum, data, spare, pos, after) == Scanned(Above(rs, after) + more, keep)
  {}

  lemma FirstReads(sum: Checksum, before: Bytes, batches: seq<seq<Record>>, tail: Bytes, data: Bytes, spare: Bytes)
    requires batches != [] && FrameOk(batches[0]) && data == before + Frames(sum, batches) + tail
    ensures |Frame(sum, batches[0])| > 0 && data == (before + Frame(sum, batches[0])) + Frames(sum, batches[1..]) + tail
    ensures ReadFrame(sum, data, spare, |before|) == Complete(batches[0], |before + Frame(sum, batches[0])|)
  {
    var one, rest := Frame(sum, batches[0]), Frames(sum, batches[1..]);
    Splice(before, one, rest, tail);
    FrameReads(sum, batches[0], before, rest + tail, spare);
  }

  lemma ScanTorn(sum: Checksum, before: Bytes, tail: Bytes, after: nat, data: Bytes, spare: Bytes)
    requires Torn(sum, tail) && data == before + [] + tail
    ensures ScanFrom(sum, data, spare, |before|, after) == Scanned([], |before|)
  {
    assert data == before + tail;
    if tail != [] { TornIncomplete(sum, before, tail, spare); }
  }

  lemma ScanStep(sum: Checksum, before: Bytes, batches: seq<seq<Record>>, tail: Bytes, after: nat, data: Bytes,
      spare: Bytes, next: nat, keep: nat)
    requires batches != [] && FrameOk(batches[0]) && data == before + Frames(sum, batches) + tail
    requires next == |before + Frame(sum, batches[0])|
             && ScanFrom(sum, data, spare, next, after) == Scanned(Above(Flatten(batches[1..]), after), keep)
    ensures ScanFrom(sum, data, spare, |before|, after) == Scanned(Above(Flatten(batches), after), keep)
  {
    FirstReads(sum, before, batches, tail, data, spare);
    AboveAppend(batches[0], Flatten(batches[1..]), after);
    ScanOneMore(sum, data, spare, |before|, after, batches[0], next, Above(Flatten(batches[1..]), after), keep);
  }

  lemma {:induction false} ScanFromFrames(sum: Checksum, before: Bytes, batches: seq<seq<Record>>, tail: Bytes,
      after: nat, data: Bytes, spare: Bytes)
    requires (forall rs <- batches :: FrameOk(rs)) && Torn(sum, tail) && data == before + Frames(sum, batches) + tail
    ensures ScanFrom(sum, data, spare, |before|, after)
            == Scanned(Above(Flatten(batches), after), |before| + |Frames(sum, batches)|)
    decreases |batches|
  {
    if batches == [] {
      ScanTorn(sum, before, tail, after, data, spare);
    } else {
      var one, rest := Frame(sum, batches[0]), Frames(sum, batches[1..]);
      FirstReads(sum, before, batches, tail, data, spare);
      ScanFromFrames(sum, before + one, batches[1..], tail, after, data, spare);
      ScanStep(sum, before, batches, tail, after, data, spare, |before + one|, |before + one| + |rest|);
    }
  }

  // Scanning a header, any frames and a torn last one gives exactly the records of the complete
  // frames above the given sequence, and cuts the log at the end of the last complete frame.
  lemma ScanFrames(sum: Checksum, batches: seq<seq<Record>>, tail: Bytes, spare: Bytes, after: nat)
    requires (forall rs <- batches :: FrameOk(rs)) && Torn(sum, tail)
    ensures Scan(sum, Header(sum) + Frames(sum, batches) + tail, spare, after)
         == Scanned(Above(Flatten(batches), after), |Header(sum) + Frames(sum, batches)|)
  {
    ConcatAssoc(Header(sum), Frames(sum, batches), tail);
    ScanStarts(sum, Frames(sum, batches) + tail, spare, after);
    ScanFromFrames(sum, Header(sum), batches, tail, after, Header(sum) + Frames(sum, batches) + tail, spare);
  }

  lemma ScanStarts(sum: Checksum, rest: Bytes, spare: Bytes, after: nat)
    ensures Scan(sum, Header(sum) + rest, spare, after) == ScanFrom(sum, Header(sum) + rest, spare, 24, after)
  {
    HeaderReads(sum, rest);
  }

  lemma HeaderReads(sum: Checksum, rest: Bytes)
    ensures var data := Header(sum) + rest;
            && data[..8] == MAGIC && FromLittleEndian(data[8..12]) == 1
               && FromLittleEndian(data[20..24]) == Crc(sum, data[..20])
  {
    var named, data := MAGIC + LittleEndian(4, 1) + TAG, Header(sum) + rest;
    Widths();
    LittleEndianRoundTrip(4, 1);
    LittleEndianRoundTrip(4, Crc(sum, named));
    assert data[..20] == named && data[8..12] == LittleEndian(4, 1) && data[20..24] == LittleEndian(4, Crc(sum, named));
  }

  // ------------------------------------------------------------ reading past the payload

  // Where the record at `pos` ends, if its guards let it be read; at most eight bytes behind `src`.
  function RecordEnd(src: Bytes, pos: nat): (end: Option<nat>)
    ensures end.Some? ==> pos < end.value <= |src| + 8
  {
    if |src| - pos < GUARD then None
    else
      var size, id := FromLittleEndian(src[pos + 8..pos + 12]), pos + 12;
      if size == 0 || size > |src| - id || |src| - id - size < GUARD - 12 then None
      else Some(id + size + FIXED_TAIL)
  }

  // How far behind `src` its first `count` records, from `pos`, are read.
  function Overrun(src: Bytes, pos: nat, count: nat): (k: nat)
    ensures k <= 8
    decreases count
  {
    if count == 0 || RecordEnd(src, pos).None? then 0
    else
      var end := RecordEnd(src, pos).value;
      if end > |src| then end - |src| else Overrun(src, end, count - 1)
  }

  lemma RecordReads(src: Bytes, spare: Bytes, other: Bytes, pos: nat)
    ensures match RecordEnd(src, pos)
            case None => ParseRecord(src, spare, pos) == Malformed
            case Some(end) =>
              var p := ParseRecord(src, spare, pos);
              && (p == Panics <==> |src| + |spare| < end)
              && (p != Panics ==> p.Parsed? && p.next == end)
              && (end <= |src| ==> p == ParseRecord(src, other, pos))
  {
    if |src| - pos >= GUARD { assert |src + spare| == |src| + |spare|; }
  }

  ghost predicate OverrunOutcome(src: Bytes, spare: Bytes, k: nat, p: ParsedAll, q: ParsedAll)
  {
    && (p == RunsOffTheEnd <==> |spare| < k)
    && (k > 0 && p.AllParsed? ==> p.next > |src|)
    && (k == 0 ==> p == q)
  }

  // Reading stops the program exactly where the buffer is shorter than the overrun; otherwise
  // an overrun is refused, and without one what lies behind the slice is never looked at.
  lemma {:induction false} OverrunDecides(src: Bytes, spare: Bytes, other: Bytes, pos: nat, count: nat)
    ensures OverrunOutcome(src, spare, Overrun(src, pos, count), ParseRecords(src, spare, pos, count),
            ParseRecords(src, other, pos, count))
    decreases count
  {
    if count > 0 {
      var end := RecordEnd(src, pos);
      if end.Some? && end.value <= |src| {
        OverrunDecides(src, spare, other, end.value, count - 1);
        OneMoreOutcome(src, spare, other, pos, end.value, count);
      } else {
        LastOutcome(src, spare, other, pos, count);
      }
    }
  }

  lemma OneMoreOutcome(src: Bytes, spare: Bytes, other: Bytes, pos: nat, end: nat, count: nat)
    requires count > 0 && RecordEnd(src, pos) == Some(end) && end <= |src|
    requires OverrunOutcome(src, spare, Overrun(src, end, count - 1), ParseRecords(src, spare, end, count - 1),
             ParseRecords(src, other, end, count - 1))
    ensures OverrunOutcome(src, spare, Overrun(src, pos, count), ParseRecords(src, spare, pos, count),
            ParseRecords(src, other, pos, count))
  {
    RecordReads(src, spare, other, pos);
  }

  lemma LastOutcome(src: Bytes, spare: Bytes, other: Bytes, pos: nat, count: nat)
    requires count > 0 && (RecordEnd(src, pos).None? || RecordEnd(src, pos).value > |src|)
    ensures OverrunOutcome(src, spare, Overrun(src, pos, count), ParseRecords(src, spare, pos, count),
            ParseRecords(src, other, pos, count))
  {
    RecordReads(src, spare, other, pos);
    var end := RecordEnd(src, pos);
    if end.None? {
      RecordReads(src, other, spare, pos);
    } else {
      PastTheEnd(src, spare, end.value, count - 1);
    }
  }

  lemma PastTheEnd(src: Bytes, spare: Bytes, pos: nat, count: nat)
    requires pos > |src|
    ensures var p := ParseRecords(src, spare, pos, count); p == BadRecord || (p.AllParsed? && p.next == pos)
  {}

  lemma PayloadCrashesIff(payload: Bytes, spare: Bytes, other: Bytes, next: nat)
    requires |payload| >= 4
    ensures var f, k := ReadPayload(payload, spare, next), Overrun(payload, 4, FromLittleEndian(payload[..4]));
            && (f == Broken(true) <==> |spare| < k) && (k > 0 ==> f.Broken?)
            && (k == 0 ==> f == ReadPayload(payload, other, next))
  {
    OverrunDecides(payload, spare, other, 4, FromLittleEndian(payload[..4]));
  }

  // How many bytes behind the file the scan reads: none, or up to four behind its last frame,
  // since a checksum follows every payload.
  function Reach(sum: Checksum, data: Bytes, pos: nat): (k: nat)
    requires pos <= |data|
    ensures k <= 4
    decreases |data| - pos
  {
    if pos == |data| then 0
    else
      match ReadFrame(sum, data, [0, 0, 0, 0], pos)
      case Incomplete => 0
      case Complete(_, next) => Reach(sum, data, next)
      case Broken(_) => FrameReach(sum, data, pos)
  }

  // Where the payload of the frame at `pos` ends, if its length and its checksum are right.
  function PayloadEnd(sum: Checksum, data: Bytes, pos: nat): (stop: Option<nat>)
    requires pos < |data|
    ensures stop.Some? ==> pos + 8 <= stop.value <= |data| - 4
  {
    if |data| - pos < 4 then None
    else
      var stop := pos + 4 + FromLittleEndian(data[pos..pos + 4]);
      if stop < pos + 8 || stop > pos + 4 + MAX_FRAME_BYTES || |data| < stop + 4 then None
      else if Crc(sum, data[pos + 4..stop]) != FromLittleEndian(data[stop..stop + 4]) then None
      else Some(stop)
  }

  function FrameReach(sum: Checksum, data: Bytes, pos: nat): (k: nat)
    requires pos < |data|
    ensures k <= 4
  {
    match PayloadEnd(sum, data, pos)
    case None => 0
    case Some(stop) =>
      var payload, behind := data[pos + 4..stop], |data| - stop;
      var k := Overrun(payload, 4, FromLittleEndian(payload[..4]));
      if k <= behind then 0 else k - behind
  }

  lemma FrameEnds(sum: Checksum, data: Bytes, spare: Bytes, other: Bytes, pos: nat)
    requires pos < |data|
    ensures var f := ReadFrame(sum, data, spare, pos);
            match PayloadEnd(sum, data, pos)
            case None => f != Broken(true) && f == ReadFrame(sum, data, other, pos)
            case Some(stop) => f == ReadPayload(data[pos + 4..stop], data[stop..] + spare, stop + 4)
  {}

  lemma FrameCrashesIff(sum: Checksum, data: Bytes, spare: Bytes, other: Bytes, pos: nat)
    requires pos < |data|
    ensures var f := ReadFrame(sum, data, spare, pos);
            && (f == Broken(true) <==> |spare| < FrameReach(sum, data, pos))
            && (!f.Broken? ==> f == ReadFrame(sum, data, other, pos))
  {
    FrameEnds(sum, data, spare, other, pos);
    FrameEnds(sum, data, other, spare, pos);
    match PayloadEnd(sum, data, pos)
    case None =>
    case Some(stop) => PayloadCrashesIff(data[pos + 4..stop], data[stop..] + spare, data[stop..] + other, stop + 4);
  }

  /** Which records a log holds, and whether it is refused, does not depend on what lies behind it
      in memory; whether the program survives reading it does, and `Reach` says exactly how. */
  lemma {:induction false} ScanFromIgnoresSpare(sum: Checksum, data: Bytes, spare: Bytes, pos: nat, after: nat)
    requires pos <= |data|
    ensures var s := ScanFrom(sum, data, spare, pos, after);
            && (s == Crashes <==> |spare| < Reach(sum, data, pos))
            && (s != Crashes ==> s == ScanFrom(sum, data, [0, 0, 0, 0], pos, after))
    decreases |data| - pos
  {
    if pos < |data| {
      FrameCrashesIff(sum, data, spare, [0, 0, 0, 0], pos);
      FrameCrashesIff(sum, data, [0, 0, 0, 0], spare, pos);
      var f := ReadFrame(sum, data, spare, pos);
      if f.Complete? { ScanFromIgnoresSpare(sum, data, spare, f.next, after); }
    }
  }

  predicate HeaderOk(sum: Checksum, data: Bytes)
  {
    |data| >= 24 && data[..8] == MAGIC && FromLittleEndian(data[8..12]) == 1
        && FromLittleEndian(data[20..24]) == Crc(sum, data[..20])
  }

  lemma ScanIgnoresSpare(sum: Checksum, data: Bytes, spare: Bytes, other: Bytes, after: nat)
    ensures var s, t := Scan(sum, data, spare, after), Scan(sum, data, other, after);
              s == t || s == Crashes || t == Crashes
    ensures Scan(sum, data, spare, after) == Crashes <==> HeaderOk(sum, data) && |spare| < Reach(sum, data, 24)
    ensures |spare| >= 4 ==> Scan(sum, data, spare, after) != Crashes
  {
    if HeaderOk(sum, data) {
      ScanFromIgnoresSpare(sum, data, spare, 24, after);
      ScanFromIgnoresSpare(sum, data, other, 24, after);
    }
  }

  // One record of which eight bytes are missing: a one-byte identity and 105 bytes behind it.
  function ShortPayload(): Bytes
  {
    LittleEndian(4, 1) + LittleEndian(8, 0) + LittleEndian(4, 1) + [120] + Zeros(105)
  }

  /** A log that a crash can never leave, but a damaged or foreign file can: one frame, rightly
      summed, whose record is eight bytes short. It stops the program where fewer than four bytes
      are left in the buffer, and is refused where four are. */
  lemma ShortRecordExample(sum: Checksum, spare: Bytes, after: nat)
    ensures Scan(sum, Header(sum) + Framed(sum, ShortPayload()), spare, after) == if |spare| < 4 then Crashes
            else Invalid
  {
    var p, data := ShortPayload(), Header(sum) + Framed(sum, ShortPayload());
    assert |p| == 122;
    ShortParses(data[24 + 4 + 122..] + spare);
    assert Header(sum) + Framed(sum, p) + [] == data;
    FrameSlices(sum, p, Header(sum), [], 28);
    FramedReads(sum, p, data, spare, 24, 28, 150);
    assert |data[150..] + spare| == 4 + |spare|;
    ScanStarts(sum, Framed(sum, p), spare, after);
  }

  lemma ShortEnds()
    ensures var p := ShortPayload(); |p| == 122 && FromLittleEndian(p[..4]) == 1 && RecordEnd(p, 4) == Some(130)
  {
    var p := ShortPayload();
    Widths();
    LittleEndianRoundTrip(4, 1);
    assert p[..4] == LittleEndian(4, 1);
    assert p[12..16] == LittleEndian(4, 1);
  }

  lemma ShortParses(spare: Bytes)
    ensures var p := ShortPayload(); |p| == 122 && forall next :: ReadPayload(p, spare, next) == Broken(|spare| < 8)
  {
    var p := ShortPayload();
    ShortEnds();
    assert Overrun(p, 4, 1) == 8;
    forall next ensures ReadPayload(p, spare, next) == Broken(|spare| < 8) {
      PayloadCrashesIff(p, spare, spare, next);
    }
  }
}
