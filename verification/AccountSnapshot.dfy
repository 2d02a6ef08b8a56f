/**
 The account engine's binary snapshot: the dense slots in order, the ledger, and the remembered
 results in dedupe order, behind a header with a digest. Loading what was encoded restores it.
 */
module AccountSnapshot {
  import opened Bytes
  import opened Accounts
  import opened AccountEngine
  import opened AccountLog

  // The 32-byte digest of a byte string, as the SHA-256 library computes it.
  type Digest = Bytes -> Bytes

  // What a snapshot holds: the slots in the order of their numbers.
  datatype Image = Image(sequence: nat, rows: seq<Slot>, ledger: seq<LedgerEntry>, window: nat, results: seq<Result>)

  // -------------------------------------------------------------------------- writing

  function RowHead(s: Slot): seq<nat>
  {
    [s.account.id, Unsigned(s.account.balance), Unsigned(s.account.status), s.account.version]
  }

  function RowTail(s: Slot): seq<nat>
  {
    [s.agent.pending.target, Unsigned(s.agent.pending.amount), Unsigned(s.agent.turns)]
  }

  function RowBytes(s: Slot): (b: Bytes)
    ensures |b| == 57
  {
    Words(RowHead(s)) + [Flags(s.present, s.agent.pending.active)] + Words(RowTail(s))
  }

  function EntryWords(l: LedgerEntry): seq<nat>
  {
    [l.from, l.to, Unsigned(l.amount), Unsigned(l.effect)]
  }

  function EntryBytes(l: LedgerEntry): Bytes
  {
    LittleEndian(8, l.sequence) + LittleEndian(4, |l.commandID|) + l.commandID + Words(EntryWords(l))
  }

  function ResultWords(r: Result): seq<nat>
  {
    [Unsigned(r.reason), Unsigned(r.effect), Unsigned(r.turns)]
  }

  function ResultBytes(r: Result): Bytes
  {
    LittleEndian(4, |r.commandID|) + r.commandID + LittleEndian(8, r.sequence) + [if r.accepted then 1 else 0]
        + Words(ResultWords(r))
  }

  function Rows(rows: seq<Slot>): (b: Bytes)
    ensures |b| == 57 * |rows|
  {
    if rows == [] then [] else RowBytes(rows[0]) + Rows(rows[1..])
  }

  function Entries(ledger: seq<LedgerEntry>): Bytes
  {
    if ledger == [] then [] else EntryBytes(ledger[0]) + Entries(ledger[1..])
  }

  function Results(results: seq<Result>): Bytes
  {
    if results == [] then [] else ResultBytes(results[0]) + Results(results[1..])
  }

  const SNAPSHOT_MAGIC: Bytes := [79, 67, 84, 83, 78, 80, 48, 49]
  const HEADER_SIZE: nat := 52

  function Body(img: Image): Bytes
  {
    LittleEndian(8, img.sequence) + LittleEndian(4, |img.rows|) + Rows(img.rows)
    + LittleEndian(8, |img.ledger|) + Entries(img.ledger)
    + LittleEndian(4, img.window) + LittleEndian(4, |img.results|) + Results(img.results)
  }

  function Encode(digest: Digest, img: Image): Bytes
  {
    SNAPSHOT_MAGIC + LittleEndian(4, 1) + LittleEndian(8, |Body(img)|) + digest(Body(img)) + Body(img)
  }

  // -------------------------------------------------------------------------- loading

  datatype Load = Loaded(image: Image) | Corrupt | OtherFormat

  function ReadRow(src: Bytes, pos: nat): Slot
    requires pos + 57 <= |src|
  {
    var flags, tail := src[pos + 32], pos + 33;
    Slot(Account(WordAt(src, pos, 0), Signed(WordAt(src, pos, 1)), Signed(WordAt(src, pos, 2)), WordAt(src, pos, 3)),
        flags % 2 == 1,
         Agent(Pending(flags / 2 % 2 == 1, WordAt(src, tail, 0), Signed(WordAt(src, tail, 1))),
             Signed(WordAt(src, tail, 2))))
  }

  function ReadRows(src: Bytes, pos: nat, count: nat): Option<seq<Slot>>
    requires pos <= |src|
    decreases count
  {
    if count == 0 then Some([])
    else if |src| - pos < 57 then None
    else
      var rest := ReadRows(src, pos + 57, count - 1);
      if rest.Some? then Some([ReadRow(src, pos)] + rest.value) else None
  }

  datatype Read<T> = Read(items: seq<T>, next: nat) | Bad

  datatype One<T> = One(item: T, next: nat) | NoOne

  function ReadEntry(src: Bytes, pos: nat): (e: One<LedgerEntry>)
    requires pos <= |src|
    ensures e.One? ==> pos <= e.next <= |src|
  {
    if |src| - pos < 12 then NoOne
    else
      var size, id := FromLittleEndian(src[pos + 8..pos + 12]), pos + 12;
      if size == 0 || size > |src| - id || |src| - id - size < 32 then NoOne
      else
        var at := id + size;
        One(LedgerEntry(WordAt(src, pos, 0), src[id..at], WordAt(src, at, 0), WordAt(src, at, 1),
            Signed(WordAt(src, at, 2)), Signed(WordAt(src, at, 3))),
            at + 32)
  }

  // Entries must come in the order of their sequence numbers, none beyond the snapshot's own.
  function ReadEntries(src: Bytes, pos: nat, count: nat, prior: nat, limit: nat): (e: Read<LedgerEntry>)
    requires pos <= |src|
    ensures e.Read? ==> pos <= e.next <= |src|
    decreases count
  {
    if count == 0 then Read([], pos)
    else
      var one := ReadEntry(src, pos);
      if one.NoOne? || one.item.sequence <= prior || one.item.sequence > limit then Bad
      else
        var rest := ReadEntries(src, one.next, count - 1, one.item.sequence, limit);
        if rest.Read? then Read([one.item] + rest.items, rest.next) else Bad
  }

  function ReadResult(src: Bytes, pos: nat): (e: One<Result>)
    requires pos <= |src|
    ensures e.One? ==> pos <= e.next <= |src|
  {
    if |src| - pos < 4 then NoOne
    else
      var size, id := FromLittleEndian(src[pos..pos + 4]), pos + 4;
      if size == 0 || size > |src| - id || |src| - id - size < 33 then NoOne
      else
        var at := id + size;
        One(Result(WordAt(src, at, 0), src[id..at], src[at + 8] != 0, Signed(WordAt(src, at + 9, 0)),
            Signed(WordAt(src, at + 9, 1)),
                   Signed(WordAt(src, at + 9, 2)), false), at + 33)
  }

  function ReadResults(src: Bytes, pos: nat, count: nat, seen: set<Bytes>, prior: nat, limit: nat): (e: Read<Result>)
    requires pos <= |src|
    ensures e.Read? ==> pos <= e.next <= |src|
    decreases count
  {
    if count == 0 then Read([], pos)
    else
      var one := ReadResult(src, pos);
      if one.NoOne? || one.item.commandID in seen || one.item.sequence <= prior || one.item.sequence > limit then Bad
      else
        var rest := ReadResults(src, one.next, count - 1, seen + {one.item.commandID}, one.item.sequence, limit);
        if rest.Read? then Read([one.item] + rest.items, rest.next) else Bad
  }

  function LoadResults(window: nat, src: Bytes, pos: nat, sequence: nat, rows: seq<Slot>,
      ledger: seq<LedgerEntry>): Load
    requires pos <= |src|
  {
    if |src| - pos < 8 then Corrupt
    else
      var horizon, count := FromLittleEndian(src[pos..pos + 4]), FromLittleEndian(src[pos + 4..pos + 8]);
      if horizon != window || count > window then OtherFormat
      else
        match ReadResults(src, pos + 8, count, {}, 0, sequence)
        case Bad => Corrupt
        case Read(results, next) => if next == |src| then Loaded(Image(sequence, rows, ledger, window, results))
            else Corrupt
  }

  function LoadLedger(window: nat, src: Bytes, pos: nat, sequence: nat, rows: seq<Slot>): Load
    requires pos <= |src|
  {
    if |src| - pos < 8 then Corrupt
    else
      var count := WordAt(src, pos, 0);
      if count > |src| / 44 then Corrupt
      else
        match ReadEntries(src, pos + 8, count, 0, sequence)
        case Bad => Corrupt
        case Read(ledger, next) => LoadResults(window, src, next, sequence, rows, ledger)
  }

  function LoadBody(window: nat, src: Bytes): Load
    requires |src| >= HEADER_SIZE
  {
    var pos := HEADER_SIZE;
    if |src| - pos < 12 then Corrupt
    else
      var count := FromLittleEndian(src[pos + 8..pos + 12]);
      var rows := ReadRows(src, pos + 12, count);
      if rows.None? || pos + 12 + 57 * count > |src| then Corrupt
      else LoadLedger(window, src, pos + 12 + 57 * count, WordAt(src, pos, 0), rows.value)
  }

  function LoadSnapshot(digest: Digest, window: nat, src: Bytes): Load
  {
    if |src| >= 12 && src[..8] == SNAPSHOT_MAGIC && FromLittleEndian(src[8..12]) != 1 then OtherFormat
    else if |src| < HEADER_SIZE || src[..8] != SNAPSHOT_MAGIC || FromLittleEndian(src[12..20]) != |src| - HEADER_SIZE
            || src[20..52] != digest(src[52..]) then Corrupt
    else LoadBody(window, src)
  }

  // ----------------------------------------------------------------------- round trip

  predicate RowFits(s: Slot)
  {
    && InU64(s.account.id) && InI64(s.account.balance) && InI64(s.account.status) && InU64(s.account.version)
    && InU64(s.agent.pending.target) && InI64(s.agent.pending.amount) && InI64(s.agent.turns)
  }

  predicate EntryFits(l: LedgerEntry)
  {
    InU64(l.sequence) && 0 < |l.commandID| < U32_LIMIT && InU64(l.from) && InU64(l.to) && InI64(l.amount)
        && InI64(l.effect)
  }

  predicate ResultFits(r: Result)
  {
    && InU64(r.sequence) && 0 < |r.commandID| < U32_LIMIT && InI64(r.reason) && InI64(r.effect) && InI64(r.turns)
       && !r.duplicate
  }

  lemma RowReadBack(s: Slot, before: Bytes, after: Bytes)
    requires RowFits(s)
    ensures ReadRow(before + RowBytes(s) + after, |before|) == s
  {
    var head, flags, tail := Words(RowHead(s)), [Flags(s.present, s.agent.pending.active)], Words(RowTail(s));
    ThreeParts(before, head, flags, tail, after);
    RowHeadAt(s, before, flags + tail + after);
    RowTailAt(s, before + head + flags, after);
    assert (before + RowBytes(s) + after)[|before| + 32] == Flags(s.present, s.agent.pending.active);
  }

  lemma RowHeadAt(s: Slot, before: Bytes, after: Bytes)
    requires RowFits(s)
    ensures var src, pos := before + Words(RowHead(s)) + after, |before|;
            && WordAt(src, pos, 0) == s.account.id && Signed(WordAt(src, pos, 1)) == s.account.balance
            && Signed(WordAt(src, pos, 2)) == s.account.status && WordAt(src, pos, 3) == s.account.version
  {
    var ws := RowHead(s);
    SignedRoundTrip(s.account.balance);
    SignedRoundTrip(s.account.status);
    forall i: nat | i < 4 ensures WordAt(before + Words(ws) + after, |before|, i)
        == ws[i] { WordsReadBack(before, ws, after, i); }
  }

  lemma RowTailAt(s: Slot, before: Bytes, after: Bytes)
    requires RowFits(s)
    ensures var src, pos := before + Words(RowTail(s)) + after, |before|;
            && WordAt(src, pos, 0) == s.agent.pending.target && Signed(WordAt(src, pos, 1)) == s.agent.pending.amount
            && Signed(WordAt(src, pos, 2)) == s.agent.turns
  {
    var ws := RowTail(s);
    SignedRoundTrip(s.agent.pending.amount);
    SignedRoundTrip(s.agent.turns);
    forall i: nat | i < 3 ensures WordAt(before + Words(ws) + after, |before|, i)
        == ws[i] { WordsReadBack(before, ws, after, i); }
  }

  lemma {:induction false} RowsReadBack(rows: seq<Slot>, before: Bytes, after: Bytes, src: Bytes)
    requires (forall i | 0 <= i < |rows| :: RowFits(rows[i])) && src == before + Rows(rows) + after
    ensures ReadRows(src, |before|, |rows|) == Some(rows)
    decreases |rows|
  {
    if rows != [] {
      var one, rest := RowBytes(rows[0]), Rows(rows[1..]);
      Splice(before, one, rest, after);
      RowReadBack(rows[0], before, rest + after);
      RowsReadBack(rows[1..], before + one, after, src);
      assert [rows[0]] + rows[1..] == rows;
    }
  }

  // Sequence numbers strictly grow from above `prior` and stay within `limit`.
  ghost predicate EntriesGrow(ledger: seq<LedgerEntry>, prior: nat, limit: nat)
  {
    ledger == [] || (prior < ledger[0].sequence <= limit && EntriesGrow(ledger[1..], ledger[0].sequence, limit))
  }

  ghost predicate ResultsGrow(results: seq<Result>, seen: set<Bytes>, prior: nat, limit: nat)
  {
    results == [] || (prior < results[0].sequence <= limit && results[0].commandID !in seen
                      && ResultsGrow(results[1..], seen + {results[0].commandID}, results[0].sequence, limit))
  }

  ghost predicate EntryAt(l: LedgerEntry, src: Bytes, pos: nat, id: nat, at: nat)
  {
    && id == pos + 12 && at == id + |l.commandID| && at + 32 <= |src|
    && WordAt(src, pos, 0) == l.sequence && FromLittleEndian(src[pos + 8..pos + 12]) == |l.commandID|
    && src[id..at] == l.commandID && WordAt(src, at, 0) == l.from && WordAt(src, at, 1) == l.to
    && Signed(WordAt(src, at, 2)) == l.amount && Signed(WordAt(src, at, 3)) == l.effect
  }

  lemma EntryStands(l: LedgerEntry, before: Bytes, after: Bytes)
    requires EntryFits(l)
    ensures EntryAt(l, before + EntryBytes(l) + after, |before|, |before| + 12, |before| + 12 + |l.commandID|)
  {
    var sequence, size, tail := LittleEndian(8, l.sequence), LittleEndian(4, |l.commandID|), Words(EntryWords(l));
    Widths();
    LittleEndianRoundTrip(8, l.sequence);
    LittleEndianRoundTrip(4, |l.commandID|);
    var pos := |before|;
    FourParts(before, sequence, size, l.commandID, tail, after);
    Middle(before, sequence, size + l.commandID + tail + after, pos, pos + 8);
    Middle(before + sequence, size, l.commandID + tail + after, pos + 8, pos + 12);
    Middle(before + sequence + size, l.commandID, tail + after, pos + 12, pos + 12 + |l.commandID|);
    EntryWordsAt(l, before + sequence + size + l.commandID, after);
  }

  lemma EntryReadBack(l: LedgerEntry, before: Bytes, after: Bytes)
    requires EntryFits(l)
    ensures ReadEntry(before + EntryBytes(l) + after, |before|) == One(l, |before| + |EntryBytes(l)|)
  {
    EntryStands(l, before, after);
  }

  lemma FourParts<T>(a: seq<T>, b: seq<T>, c: seq<T>, d: seq<T>, e: seq<T>, f: seq<T>)
    ensures var all := a + (b + c + d + e) + f;
            && all == a + b + (c + d + e + f) && all == (a + b) + c + (d + e + f)
            && all == (a + b + c) + d + (e + f) && all == (a + b + c + d) + e + f
  {}

  lemma EntryWordsAt(l: LedgerEntry, before: Bytes, after: Bytes)
    requires EntryFits(l)
    ensures var src, pos := before + Words(EntryWords(l)) + after, |before|;
            && WordAt(src, pos, 0) == l.from && WordAt(src, pos, 1) == l.to
            && Signed(WordAt(src, pos, 2)) == l.amount && Signed(WordAt(src, pos, 3)) == l.effect
  {
    var ws := EntryWords(l);
    SignedRoundTrip(l.amount);
    SignedRoundTrip(l.effect);
    forall i: nat | i < 4 ensures WordAt(before + Words(ws) + after, |before|, i)
        == ws[i] { WordsReadBack(before, ws, after, i); }
  }

  lemma FirstEntry(ledger: seq<LedgerEntry>, before: Bytes, after: Bytes, src: Bytes) returns (beyond: Bytes)
    requires ledger != [] && EntryFits(ledger[0]) && src == before + Entries(ledger) + after
    ensures ReadEntry(src, |before|) == One(ledger[0], |beyond|)
    ensures src == beyond + Entries(ledger[1..]) + after
            && |before| + |Entries(ledger)| == |beyond| + |Entries(ledger[1..])|
  {
    var one, rest := EntryBytes(ledger[0]), Entries(ledger[1..]);
    Splice(before, one, rest, after);
    EntryReadBack(ledger[0], before, rest + after);
    beyond := before + one;
  }

  // The entries stand one after the other from `pos` on.
  ghost predicate EntriesAt(src: Bytes, pos: nat, ledger: seq<LedgerEntry>, next: nat)
    requires pos <= |src|
    decreases |ledger|
  {
    if ledger == [] then next == pos
    else
      && ReadEntry(src, pos).One? && ReadEntry(src, pos).item == ledger[0]
      && EntriesAt(src, ReadEntry(src, pos).next, ledger[1..], next)
  }

  lemma {:induction false} EntriesStand(ledger: seq<LedgerEntry>, before: Bytes, after: Bytes, src: Bytes, pos: nat,
      next: nat)
    requires (forall i | 0 <= i < |ledger| :: EntryFits(ledger[i])) && src == before + Entries(ledger) + after
    requires pos == |before| && next == |before| + |Entries(ledger)|
    ensures EntriesAt(src, pos, ledger, next)
    decreases |ledger|
  {
    if ledger == [] {
      assert next == pos;
    } else {
      var beyond := FirstEntry(ledger, before, after, src);
      EntriesStand(ledger[1..], beyond, after, src, |beyond|, next);
    }
  }

  lemma {:induction false} EntriesReadBack(src: Bytes, pos: nat, ledger: seq<LedgerEntry>, prior: nat, limit: nat,
      next: nat)
    requires pos <= |src| && EntriesAt(src, pos, ledger, next) && EntriesGrow(ledger, prior, limit)
    ensures ReadEntries(src, pos, |ledger|, prior, limit) == Read(ledger, next)
    decreases |ledger|
  {
    if ledger != [] {
      EntriesReadBack(src, ReadEntry(src, pos).next, ledger[1..], ledger[0].sequence, limit, next);
      assert [ledger[0]] + ledger[1..] == ledger;
    }
  }

  ghost predicate ResultAt(r: Result, src: Bytes, pos: nat, id: nat, at: nat)
  {
    && id == pos + 4 && at == id + |r.commandID| && at + 33 <= |src|
       && FromLittleEndian(src[pos..pos + 4]) == |r.commandID|
    && src[id..at] == r.commandID && WordAt(src, at, 0) == r.sequence && src[at + 8] == (if r.accepted then 1 else 0)
    && Signed(WordAt(src, at + 9, 0)) == r.reason && Signed(WordAt(src, at + 9, 1)) == r.effect
       && Signed(WordAt(src, at + 9, 2)) == r.turns
  }

  lemma ResultStands(r: Result, before: Bytes, after: Bytes)
    requires ResultFits(r)
    ensures ResultAt(r, before + ResultBytes(r) + after, |before|, |before| + 4, |before| + 4 + |r.commandID|)
  {
    var size, sequence, flag, tail := LittleEndian(4, |r.commandID|), LittleEndian(8, r.sequence), if r.accepted then 1
        else 0, Words(ResultWords(r));
    Widths();
    LittleEndianRoundTrip(8, r.sequence);
    LittleEndianRoundTrip(4, |r.commandID|);
    var pos := |before|;
    FiveParts(before, size, r.commandID, sequence, [flag], tail, after);
    var at := pos + 4 + |r.commandID|;
    Middle(before, size, r.commandID + sequence + [flag] + tail + after, pos, pos + 4);
    Middle(before + size, r.commandID, sequence + [flag] + tail + after, pos + 4, at);
    Middle(before + size + r.commandID, sequence, [flag] + tail + after, at, at + 8);
    Single(before + size + r.commandID + sequence, flag, tail + after, at + 8);
    ConcatAssoc([flag], tail, after);
    ResultWordsAt(r, before + size + r.commandID + sequence + [flag], after, at + 9);
  }

  lemma ResultReadBack(r: Result, before: Bytes, after: Bytes)
    requires ResultFits(r)
    ensures ReadResult(before + ResultBytes(r) + after, |before|) == One(r, |before| + |ResultBytes(r)|)
  {
    ResultStands(r, before, after);
  }

  lemma Single<T>(a: seq<T>, x: T, c: seq<T>, i: nat)
    requires i == |a|
    ensures (a + [x] + c)[i] == x
  {}

  lemma FiveParts<T>(a: seq<T>, b: seq<T>, c: seq<T>, d: seq<T>, e: seq<T>, f: seq<T>, g: seq<T>)
    ensures var all := a + (b + c + d + e + f) + g;
            && all == a + b + (c + d + e + f + g) && all == (a + b) + c + (d + e + f + g)
               && all == (a + b + c) + d + (e + f + g)
            && all == (a + b + c + d) + e + (f + g) && all == (a + b + c + d + e) + f + g
  {}

  lemma ResultWordsAt(r: Result, before: Bytes, after: Bytes, pos: nat)
    requires ResultFits(r) && pos == |before|
    ensures var src := before + Words(ResultWords(r)) + after;
            && Signed(WordAt(src, pos, 0)) == r.reason && Signed(WordAt(src, pos, 1)) == r.effect
               && Signed(WordAt(src, pos, 2)) == r.turns
  {
    var ws := ResultWords(r);
    SignedRoundTrip(r.reason);
    SignedRoundTrip(r.effect);
    SignedRoundTrip(r.turns);
    forall i: nat | i < 3 ensures WordAt(before + Words(ws) + after, |before|, i)
        == ws[i] { WordsReadBack(before, ws, after, i); }
  }

  lemma FirstResult(results: seq<Result>, before: Bytes, after: Bytes, src: Bytes) returns (beyond: Bytes)
    requires results != [] && ResultFits(results[0]) && src == before + Results(results) + after
    ensures ReadResult(src, |before|) == One(results[0], |beyond|)
    ensures src == beyond + Results(results[1..]) + after
            && |before| + |Results(results)| == |beyond| + |Results(results[1..])|
  {
    var one, rest := ResultBytes(results[0]), Results(results[1..]);
    Splice(before, one, rest, after);
    ResultReadBack(results[0], before, rest + after);
    beyond := before + one;
  }

  ghost predicate ResultsAt(src: Bytes, pos: nat, results: seq<Result>, next: nat)
    requires pos <= |src|
    decreases |results|
  {
    if results == [] then next == pos
    else
      && ReadResult(src, pos).One? && ReadResult(src, pos).item == results[0]
      && ResultsAt(src, ReadResult(src, pos).next, results[1..], next)
  }

  lemma {:induction false} ResultsStand(results: seq<Result>, before: Bytes, after: Bytes, src: Bytes, pos: nat,
      next: nat)
    requires (forall i | 0 <= i < |results| :: ResultFits(results[i])) && src == before + Results(results) + after
    requires pos == |before| && next == |before| + |Results(results)|
    ensures ResultsAt(src, pos, results, next)
    decreases |results|
  {
    if results == [] {
      assert next == pos;
    } else {
      var beyond := FirstResult(results, before, after, src);
      ResultsStand(results[1..], beyond, after, src, |beyond|, next);
    }
  }

  lemma {:induction false} ResultsReadBack(src: Bytes, pos: nat, results: seq<Result>, seen: set<Bytes>, prior: nat,
      limit: nat, next: nat)
    requires pos <= |src| && ResultsAt(src, pos, results, next) && ResultsGrow(results, seen, prior, limit)
    ensures ReadResults(src, pos, |results|, seen, prior, limit) == Read(results, next)
    decreases |results|
  {
    if results != [] {
      ResultsReadBack(src, ReadResult(src, pos).next, results[1..], seen + {results[0].commandID}, results[0].sequence,
          limit, next);
      assert [results[0]] + results[1..] == results;
    }
  }

  // ------------------------------------------------------------------ whole snapshots

  // Every number of the image fits the width it is written with.
  ghost predicate ImageFits(img: Image)
  {
    && InU64(img.sequence) && |img.rows| < U32_LIMIT && |img.ledger| < U64_LIMIT && img.window < U32_LIMIT
       && |img.results| < U32_LIMIT
    && (forall i | 0 <= i < |img.rows| :: RowFits(img.rows[i]))
    && (forall i | 0 <= i < |img.ledger| :: EntryFits(img.ledger[i]))
    && (forall i | 0 <= i < |img.results| :: ResultFits(img.results[i]))
    && |Body(img)| < U64_LIMIT
  }

  // Ledger and results in order, and no more results than the window holds.
  ghost predicate ImageOrdered(img: Image)
  {
    && EntriesGrow(img.ledger, 0, img.sequence) && ResultsGrow(img.results, {}, 0, img.sequence)
    && |img.results| <= img.window
  }

  predicate StandsAt(src: Bytes, pos: nat, x: Bytes)
  {
    pos + |x| <= |src| && src[pos..pos + |x|] == x
  }

  lemma StandsSplit(src: Bytes, pos: nat, x: Bytes, y: Bytes, mid: nat)
    requires StandsAt(src, pos, x + y) && mid == pos + |x|
    ensures StandsAt(src, pos, x) && StandsAt(src, mid, y)
  {
    assert src[pos..mid] == (x + y)[..|x|];
    assert src[mid..mid + |y|] == (x + y)[|x|..];
  }

  lemma StandsAmong(src: Bytes, pos: nat, x: Bytes) returns (before: Bytes, after: Bytes)
    requires StandsAt(src, pos, x)
    ensures |before| == pos && src == before + x + after && |after| == |src| - pos - |x|
  {
    before, after := src[..pos], src[pos + |x|..];
  }

  lemma U32Stands(src: Bytes, pos: nat, v: nat)
    requires StandsAt(src, pos, LittleEndian(4, v)) && v < U32_LIMIT
    ensures FromLittleEndian(src[pos..pos + 4]) == v
  {
    Widths();
    LittleEndianRoundTrip(4, v);
  }

  lemma U64Stands(src: Bytes, pos: nat, v: nat)
    requires StandsAt(src, pos, LittleEndian(8, v)) && v < U64_LIMIT
    ensures FromLittleEndian(src[pos..pos + 8]) == v && WordAt(src, pos, 0) == v
  {
    Widths();
    LittleEndianRoundTrip(8, v);
  }

  // Where each part of a body that starts at `pos` stands.
  lemma BodyParts(img: Image, src: Bytes, pos: nat, p1: nat, p2: nat)
    requires StandsAt(src, pos, Body(img)) && p1 == pos + 12 + |Rows(img.rows)| && p2 == p1 + 8 + |Entries(img.ledger)|
    ensures StandsAt(src, pos, LittleEndian(8, img.sequence)) && StandsAt(src, pos + 8, LittleEndian(4, |img.rows|))
    ensures StandsAt(src, pos + 12, Rows(img.rows)) && StandsAt(src, p1, LittleEndian(8, |img.ledger|))
    ensures StandsAt(src, p1 + 8, Entries(img.ledger)) && StandsAt(src, p2, LittleEndian(4, img.window))
    ensures StandsAt(src, p2 + 4, LittleEndian(4, |img.results|)) && StandsAt(src, p2 + 8, Results(img.results))
    ensures pos + |Body(img)| == p2 + 8 + |Results(img.results)|
  {
    var a, b, c, d := LittleEndian(8, img.sequence), LittleEndian(4, |img.rows|), Rows(img.rows),
        LittleEndian(8, |img.ledger|);
    var e, f, g, h := Entries(img.ledger), LittleEndian(4, img.window), LittleEndian(4, |img.results|),
        Results(img.results);
    EightParts(src, pos, a, b, c, d, e, f, g, h, p1, p2);
  }

  lemma EightParts(src: Bytes, pos: nat, a: Bytes, b: Bytes, c: Bytes, d: Bytes, e: Bytes, f: Bytes, g: Bytes, h: Bytes,
      p1: nat, p2: nat)
    requires StandsAt(src, pos, a + b + c + d + e + f + g + h) && |a| == 8 && |b| == 4 && |d| == 8 && |f| == 4
             && |g| == 4
    requires p1 == pos + 12 + |c| && p2 == p1 + 8 + |e|
    ensures StandsAt(src, pos, a) && StandsAt(src, pos + 8, b) && StandsAt(src, pos + 12, c) && StandsAt(src, p1, d)
    ensures StandsAt(src, p1 + 8, e) && StandsAt(src, p2, f) && StandsAt(src, p2 + 4, g) && StandsAt(src, p2 + 8, h)
  {
    LastFour(src, pos, a + b + c + d, e, f, g, h, p1 + 8, p2, p2 + 4, p2 + 8);
    StandsSplit(src, pos, a + b + c, d, p1);
    StandsSplit(src, pos, a + b, c, pos + 12);
    StandsSplit(src, pos, a, b, pos + 8);
  }

  lemma LastFour(src: Bytes, pos: nat, x: Bytes, e: Bytes, f: Bytes, g: Bytes, h: Bytes, i: nat, j: nat, k: nat, l: nat)
    requires StandsAt(src, pos, x + e + f + g + h) && i == pos + |x| && j == i + |e| && k == j + |f| && l == k + |g|
    ensures StandsAt(src, pos, x) && StandsAt(src, i, e) && StandsAt(src, j, f) && StandsAt(src, k, g)
            && StandsAt(src, l, h)
  {
    StandsSplit(src, pos, x + e + f + g, h, l);
    StandsSplit(src, pos, x + e + f, g, k);
    StandsSplit(src, pos, x + e, f, j);
    StandsSplit(src, pos, x, e, i);
  }

  lemma {:induction false} EntriesSize(ledger: seq<LedgerEntry>)
    ensures |Entries(ledger)| >= 44 * |ledger|
  {
    if ledger != [] { EntriesSize(ledger[1..]); }
  }

  lemma ResultsLoad(img: Image, src: Bytes, pos: nat)
    requires ImageFits(img) && ImageOrdered(img) && pos + 8 <= |src|
    requires StandsAt(src, pos, LittleEndian(4, img.window)) && StandsAt(src, pos + 4, LittleEndian(4, |img.results|))
    requires StandsAt(src, pos + 8, Results(img.results)) && pos + 8 + |Results(img.results)| == |src|
    ensures LoadResults(img.window, src, pos, img.sequence, img.rows, img.ledger) == Loaded(img)
  {
    U32Stands(src, pos, img.window);
    U32Stands(src, pos + 4, |img.results|);
    var before, after := StandsAmong(src, pos + 8, Results(img.results));
    ResultsStand(img.results, before, after, src, pos + 8, |src|);
    ResultsReadBack(src, pos + 8, img.results, {}, 0, img.sequence, |src|);
  }

  lemma LedgerLoads(img: Image, src: Bytes, pos: nat, next: nat)
    requires ImageFits(img) && ImageOrdered(img) && next == pos + 8 + |Entries(img.ledger)|
    requires StandsAt(src, pos, LittleEndian(8, |img.ledger|)) && StandsAt(src, pos + 8, Entries(img.ledger))
    ensures LoadLedger(img.window, src, pos, img.sequence, img.rows)
            == LoadResults(img.window, src, next, img.sequence, img.rows, img.ledger)
  {
    U64Stands(src, pos, |img.ledger|);
    EntriesSize(img.ledger);
    var before, after := StandsAmong(src, pos + 8, Entries(img.ledger));
    EntriesStand(img.ledger, before, after, src, pos + 8, next);
    EntriesReadBack(src, pos + 8, img.ledger, 0, img.sequence, next);
  }

  lemma BodyLoads(img: Image, src: Bytes)
    requires ImageFits(img) && ImageOrdered(img) && StandsAt(src, HEADER_SIZE, Body(img))
             && |src| == HEADER_SIZE + |Body(img)|
    ensures LoadBody(img.window, src) == Loaded(img)
  {
    var p1 := HEADER_SIZE + 12 + |Rows(img.rows)|;
    var p2 := p1 + 8 + |Entries(img.ledger)|;
    BodyParts(img, src, HEADER_SIZE, p1, p2);
    RowsLoad(img, src, p1);
    LedgerLoads(img, src, p1, p2);
    ResultsLoad(img, src, p2);
  }

  lemma RowsLoad(img: Image, src: Bytes, next: nat)
    requires ImageFits(img) && next == HEADER_SIZE + 12 + |Rows(img.rows)|
    requires StandsAt(src, HEADER_SIZE, LittleEndian(8, img.sequence))
             && StandsAt(src, HEADER_SIZE + 8, LittleEndian(4, |img.rows|))
    requires StandsAt(src, HEADER_SIZE + 12, Rows(img.rows))
    ensures LoadBody(img.window, src) == LoadLedger(img.window, src, next, img.sequence, img.rows)
  {
    U64Stands(src, HEADER_SIZE, img.sequence);
    U32Stands(src, HEADER_SIZE + 8, |img.rows|);
    var before, after := StandsAmong(src, HEADER_SIZE + 12, Rows(img.rows));
    RowsReadBack(img.rows, before, after, src);
  }

  // Loading an encoded image gives the image back.
  lemma ImageRoundTrip(digest: Digest, img: Image)
    requires ImageFits(img) && ImageOrdered(img) && |digest(Body(img))| == 32
    ensures LoadSnapshot(digest, img.window, Encode(digest, img)) == Loaded(img)
  {
    var src, body := Encode(digest, img), Body(img);
    var a, b, c, d := SNAPSHOT_MAGIC, LittleEndian(4, 1), LittleEndian(8, |body|), digest(body);
    assert StandsAt(src, 0, a + b + c + d + body);
    StandsSplit(src, 0, a + b + c + d, body, 52);
    StandsSplit(src, 0, a + b + c, d, 20);
    StandsSplit(src, 0, a + b, c, 12);
    StandsSplit(src, 0, a, b, 8);
    U32Stands(src, 8, 1);
    U64Stands(src, 12, |body|);
    assert src[52..] == src[52..52 + |body|];
    BodyLoads(img, src);
  }
}
