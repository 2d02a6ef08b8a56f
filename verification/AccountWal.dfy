/** The log file of the account engine: building frames byte by byte, and the scanning loops. */
module AccountWal {
  import opened Bytes
  import opened Accounts
  import opened AccountEngine
  import opened AccountLog

  method AppendWords(dst: Bytes, values: seq<nat>) returns (out: Bytes)
    ensures out == dst + Words(values)
  {
    out := dst;
    for i := 0 to |values|
      invariant out == dst + Words(values[..i])
    {
      assert values[..i + 1][..i] == values[..i];
      ConcatAssoc(dst, Words(values[..i]), LittleEndian(8, values[i]));
      out := out + LittleEndian(8, values[i]);
    }
    assert values[..|values|] == values;
  }

  method AppendRecord(dst: Bytes, r: Record) returns (out: Bytes)
    ensures out == dst + RecordBytes(r)
  {
    out := dst + LittleEndian(8, r.sequence) + LittleEndian(4, |r.commandID|) + r.commandID;
    out := AppendWords(out, [Unsigned(r.kind), r.a, r.b, Unsigned(r.amount)]);
    var flags: byte := 0;
    if r.accepted { flags := flags + 1; }
    if r.pending.active { flags := flags + 2; }
    out := out + [flags];
    out := AppendWords(out,
        [Unsigned(r.reason), Unsigned(r.effect), Unsigned(r.turns), Unsigned(r.newBalanceA), Unsigned(r.newBalanceB),
                             Unsigned(r.newStatus), r.expectedA, r.expectedB, r.pending.target,
                                 Unsigned(r.pending.amount)]);
    Joined(dst, LittleEndian(8, r.sequence), LittleEndian(4, |r.commandID|), r.commandID, Words(HeadWords(r)), [flags],
        Words(TailWords(r)));
  }

  lemma Joined(dst: Bytes, a: Bytes, b: Bytes, c: Bytes, d: Bytes, e: Bytes, f: Bytes)
    ensures dst + a + b + c + d + e + f == dst + (a + b + c + d + e + f)
  {}

  lemma {:induction false} RecordsSnoc(rs: seq<Record>, r: Record)
    ensures RecordsBytes(rs + [r]) == RecordsBytes(rs) + RecordBytes(r)
    decreases |rs|
  {
    if rs == [] {
      assert RecordsBytes([r]) == RecordBytes(r) + RecordsBytes([]);
    } else {
      assert (rs + [r])[1..] == rs[1..] + [r];
      RecordsSnoc(rs[1..], r);
      ConcatAssoc(RecordBytes(rs[0]), RecordsBytes(rs[1..]), RecordBytes(r));
    }
  }

  method FrameBuffer(sum: Checksum, records: seq<Record>) returns (payload: Bytes, frame: Bytes)
    ensures payload == Payload(records) && frame == Frame(sum, records)
  {
    payload := LittleEndian(4, |records|);
    for i := 0 to |records|
      invariant payload == LittleEndian(4, |records|) + RecordsBytes(records[..i])
    {
      assert records[..i + 1] == records[..i] + [records[i]];
      RecordsSnoc(records[..i], records[i]);
      ConcatAssoc(LittleEndian(4, |records|), RecordsBytes(records[..i]), RecordBytes(records[i]));
      payload := AppendRecord(payload, records[i]);
    }
    assert records[..|records|] == records;
    frame := LittleEndian(4, |payload|) + payload + LittleEndian(4, Crc(sum, payload));
  }

  // How storage answers one append: the write stops after some bytes, or the sync fails.
  datatype Storage = Works | WriteStops(written: nat) | SyncFails

  class WalFile {
    const sum: Checksum
    const memoryOnly: bool
    var file: Bytes
    var synced: nat

    constructor (sum: Checksum, memoryOnly: bool)
      ensures this.sum == sum && this.memoryOnly == memoryOnly
      ensures file == (if memoryOnly then [] else Header(sum)) && synced == |file|
    {
      this.sum, this.memoryOnly := sum, memoryOnly;
      file := if memoryOnly then [] else Header(sum);
      synced := if memoryOnly then 0 else 24;
    }

    // One frame for the whole batch, and one sync.
    method AppendBatch(records: seq<Record>, storage: Storage) returns (ok: bool)
      modifies this
      ensures memoryOnly ==> ok && file == old(file) && synced == old(synced)
      ensures !memoryOnly && |Payload(records)| > MAX_FRAME_BYTES ==> !ok && file == old(file) && synced == old(synced)
      ensures !memoryOnly && |Payload(records)| <= MAX_FRAME_BYTES ==>
                && ok == storage.Works?
                && (storage.WriteStops? ==> old(file) <= file <= old(file) + Frame(sum, records))
                && (!storage.WriteStops? ==> file == old(file) + Frame(sum, records))
                && synced == if ok then |file| else old(synced)
    {
      if memoryOnly {
        return true;
      }
      var payload, frame := FrameBuffer(sum, records);
      if |payload| > MAX_FRAME_BYTES {
        return false;
      }
      match storage {
        case WriteStops(written) =>
          file := file + if written < |frame| then frame[..written] else frame;
          return false;
        case SyncFails =>
          file := file + frame;
          return false;
        case Works =>
          file := file + frame;
          synced := |file|;
          return true;
      }
    }
  }

  // ------------------------------------------------------------------------- scanning

  method ParseWALRecord(src: Bytes, spare: Bytes, start: nat) returns (p: Parsed)
    ensures p == ParseRecord(src, spare, start)
  {
    if |src| - start < GUARD { return Malformed; }
    var pos := start;
    var sequence := WordAt(src, pos, 0);
    pos := pos + 8;
    var size := FromLittleEndian(src[pos..pos + 4]);
    pos := pos + 4;
    if size == 0 || size > |src| - pos || |src| - pos - size < GUARD - 12 { return Malformed; }
    p := ParseFixed(src, spare, sequence, pos, pos + size);
  }

  // The fixed part behind the identity. A slice of Go may be read on to its capacity.
  method ParseFixed(src: Bytes, spare: Bytes, sequence: nat, id: nat, pos: nat) returns (p: Parsed)
    requires id <= pos
    ensures p == ReadFixed(src, spare, sequence, id, pos)
  {
    var buffer := if |src| - pos < FIXED_TAIL then src + spare else src;
    if |buffer| - pos < FIXED_TAIL { return Panics; }
    var r := TakeRecord(buffer, sequence, id, pos);
    return Parsed(r, pos + FIXED_TAIL);
  }

  method TakeRecord(src: Bytes, sequence: nat, id: nat, pos: nat) returns (r: Record)
    requires id <= pos && pos + FIXED_TAIL <= |src|
    ensures r == ReadRecord(src, sequence, id, pos)
  {
    var commandID := src[id..pos];
    var flags := src[pos + 32];
    var tail := pos + 33;
    r := Record(sequence, commandID, Signed(WordAt(src, pos, 0)), WordAt(src, pos, 1), WordAt(src, pos, 2),
        Signed(WordAt(src, pos, 3)),
                flags % 2 == 1, Signed(WordAt(src, tail, 0)), Signed(WordAt(src, tail, 1)),
                    Signed(WordAt(src, tail, 2)),
                Signed(WordAt(src, tail, 3)), Signed(WordAt(src, tail, 4)), Signed(WordAt(src, tail, 5)),
                    WordAt(src, tail, 6), WordAt(src, tail, 7),
                Pending(flags / 2 % 2 == 1, WordAt(src, tail, 8), Signed(WordAt(src, tail, 9))));
  }

  function ThenParsed(rs: seq<Record>, p: ParsedAll): ParsedAll
  {
    if p.AllParsed? then AllParsed(rs + p.records, p.next) else p
  }

  function ThenScanned(rs: seq<Record>, s: Scanned): Scanned
  {
    if s.Scanned? then Scanned(rs + s.records, s.keep) else s
  }

  lemma AboveSnoc(rs: seq<Record>, r: Record, after: nat)
    ensures Above(rs + [r], after) == Above(rs, after) + if r.sequence > after then [r] else []
  {
    assert (rs + [r])[..|rs|] == rs;
  }

  // Where scanning goes on after a frame.
  datatype Progress = Advance(next: nat) | CutHere | Fail(crash: bool)

  function ProgressOf(f: FrameRead): Progress
  {
    match f
    case Complete(_, next) => Advance(next)
    case Incomplete => CutHere
    case Broken(crash) => Fail(crash)
  }

  // The records of one checked payload, those above `after` only.
  method ScanPayload(payload: Bytes, spare: Bytes, after: nat, next: nat)
      returns (progress: Progress, above: seq<Record>)
    requires |payload| >= 4
    ensures var f := ReadPayload(payload, spare, next);
              progress == ProgressOf(f) && (f.Complete? ==> above == Above(f.records, after))
  {
    var count := FromLittleEndian(payload[..4]);
    var read, records := ScanRecords(payload, spare, count, after);
    match read {
      case Fail(crash) => return Fail(crash), [];
      case CutHere => assert false;
      case Advance(cursor) =>
        if cursor != |payload| { return Fail(false), []; }
        return Advance(next), records;
    }
  }

  function CursorOf(p: ParsedAll): Progress
  {
    match p
    case BadRecord => Fail(false)
    case RunsOffTheEnd => Fail(true)
    case AllParsed(_, next) => Advance(next)
  }

  method ScanRecords(payload: Bytes, spare: Bytes, count: nat, after: nat)
    returns (read: Progress, above: seq<Record>)
    ensures var p := ParseRecords(payload, spare, 4, count);
            read == CursorOf(p) && (p.AllParsed? ==> above == Above(p.records, after))
  {
    ghost var total := ParseRecords(payload, spare, 4, count);
    var cursor := 4;
    ghost var all: seq<Record> := [];
    above := [];
    ghost var rest, left := total, count;
    ParsedNone(payload, spare, count);
    for i := 0 to count
      invariant above == Above(all, after) && total == ThenParsed(all, rest) && left == count - i
      invariant rest == ParseRecords(payload, spare, cursor, left)
    {
      var p;
      p, rest := NextRecord(payload, spare, cursor, left, all, rest);
      left := left - 1;
      match p {
        case Malformed => return Fail(false), [];
        case Panics => return Fail(true), [];
        case Parsed(r, at) =>
          AboveSnoc(all, r, after);
          all := all + [r];
          if r.sequence > after { above := above + [r]; }
          cursor := at;
      }
    }
    ParsedEnd(payload, spare, cursor, all);
    read := Advance(cursor);
  }

  lemma ParsedNone(src: Bytes, spare: Bytes, count: nat)
    ensures ParseRecords(src, spare, 4, count) == ThenParsed([], ParseRecords(src, spare, 4, count))
  {
    var p := ParseRecords(src, spare, 4, count);
    if p.AllParsed? { assert [] + p.records == p.records; }
  }

  lemma ParsedEnd(src: Bytes, spare: Bytes, pos: nat, rs: seq<Record>)
    ensures ThenParsed(rs, ParseRecords(src, spare, pos, 0)) == AllParsed(rs, pos)
  {
    assert rs + [] == rs;
  }

  lemma ParsedStep(src: Bytes, spare: Bytes, pos: nat, left: nat, rs: seq<Record>, p: Parsed)
    requires left > 0 && p == ParseRecord(src, spare, pos)
    ensures match p
            case Malformed => ThenParsed(rs, ParseRecords(src, spare, pos, left)) == BadRecord
            case Panics => ThenParsed(rs, ParseRecords(src, spare, pos, left)) == RunsOffTheEnd
            case Parsed(r, next) =>
              ThenParsed(rs, ParseRecords(src, spare, pos, left))
                  == ThenParsed(rs + [r], ParseRecords(src, spare, next, left - 1))
  {
    if p.Parsed? {
      var rest := ParseRecords(src, spare, p.next, left - 1);
      if rest.AllParsed? { ConcatAssoc(rs, [p.record], rest.records); }
    }
  }

  method NextRecord(src: Bytes, spare: Bytes, pos: nat, ghost left: nat, ghost rs: seq<Record>, ghost all: ParsedAll)
    returns (p: Parsed, ghost rest: ParsedAll)
    requires left > 0 && all == ParseRecords(src, spare, pos, left)
    ensures match p
            case Malformed => ThenParsed(rs, all) == BadRecord
            case Panics => ThenParsed(rs, all) == RunsOffTheEnd
            case Parsed(r, next) =>
                rest == ParseRecords(src, spare, next, left - 1) && ThenParsed(rs, all) == ThenParsed(rs + [r], rest)
  {
    p := ParseWALRecord(src, spare, pos);
    ParsedStep(src, spare, pos, left, rs, p);
    rest := if p.Parsed? then ParseRecords(src, spare, p.next, left - 1) else all;
  }

  method ScanFrame(sum: Checksum, data: Bytes, spare: Bytes, start: nat, after: nat)
      returns (progress: Progress, above: seq<Record>)
    requires start < |data|
    ensures var f := ReadFrame(sum, data, spare, start);
              progress == ProgressOf(f) && (f.Complete? ==> above == Above(f.records, after))
  {
    if |data| - start < 4 { return CutHere, []; }
    var pos := start + 4;
    var size := FromLittleEndian(data[start..start + 4]);
    if size < 4 || size > MAX_FRAME_BYTES { return Fail(false), []; }
    if |data| - pos < size + 4 { return CutHere, []; }
    var payload := data[pos..pos + size];
    if Crc(sum, payload) != FromLittleEndian(data[pos + size..pos + size + 4]) { return Fail(false), []; }
    progress, above := ScanPayload(payload, data[pos + size..] + spare, after, pos + size + 4);
  }

  method ScanWAL(sum: Checksum, data: Bytes, spare: Bytes, after: nat) returns (s: Scanned)
    ensures s == Scan(sum, data, spare, after)
  {
    if |data| >= 12 && data[..8] == MAGIC && FromLittleEndian(data[8..12]) != 1 { return Incompatible; }
    if |data| < 24 || data[..8] != MAGIC || FromLittleEndian(data[20..24]) != Crc(sum, data[..20]) { return Invalid; }
    var pos, records := 24, [];
    assert ScanFrom(sum, data, spare, 24, after) == ThenScanned([], ScanFrom(sum, data, spare, 24, after));
    while pos < |data|
      invariant pos <= |data|
      invariant Scan(sum, data, spare, after) == ThenScanned(records, ScanFrom(sum, data, spare, pos, after))
    {
      var progress, above := ScanFrame(sum, data, spare, pos, after);
      match progress {
        case CutHere =>
          assert records + [] == records;
          return Scanned(records, pos);
        case Fail(crash) => return if crash then Crashes else Invalid;
        case Advance(next) =>
          ScannedStep(sum, data, spare, pos, after, records);
          records := records + above;
          pos := next;
      }
    }
    assert records + [] == records;
    return Scanned(records, pos);
  }

  lemma ScannedStep(sum: Checksum, data: Bytes, spare: Bytes, pos: nat, after: nat, rs: seq<Record>)
    requires pos < |data| && ReadFrame(sum, data, spare, pos).Complete?
    ensures var f := ReadFrame(sum, data, spare, pos);
            ThenScanned(rs, ScanFrom(sum, data, spare, pos, after))
                == ThenScanned(rs + Above(f.records, after), ScanFrom(sum, data, spare, f.next, after))
  {
    var f := ReadFrame(sum, data, spare, pos);
    var rest := ScanFrom(sum, data, spare, f.next, after);
    if rest.Scanned? { ConcatAssoc(rs, Above(f.records, after), rest.records); }
  }
}
