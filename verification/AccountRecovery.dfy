/**
 Opening the account engine's files, and the histories of batches that they describe: what the
 engine is after each batch, and what a snapshot and any surviving part of a log give back.
 */
module AccountRecovery {
  import opened Bytes
  import opened AccountEngine
  import opened AccountInvariants
  import opened AccountLog
  import opened AccountImages
  import Snap = AccountSnapshot

  datatype Env = Env(cfg: Config, sum: Checksum, digest: Snap.Digest)

  // ------------------------------------------------------------------------- opening

  // The engine a snapshot file - or its absence - gives.
  function Restored(env: Env, snap: Option<Bytes>): Option<Engine>
  {
    if snap.None? then Some(EMPTY)
    else
      match Snap.LoadSnapshot(env.digest, env.cfg.window, snap.value)
      case Loaded(img) => Some(EngineOf(img))
      case _ => None
  }

  // What the files hold: an engine and how much of the log is whole frames.
  datatype Found = Found(engine: Engine, keep: nat) | Unreadable

  // An empty log gets its header. `spare` is what the buffer that the log was read into holds
  // behind it.
  function Recover(env: Env, snap: Option<Bytes>, wal: Bytes, spare: Bytes): Found
  {
    var base := Restored(env, snap);
    if base.None? then Unreadable
    else
      match Scan(env.sum, if wal == [] then Header(env.sum) else wal, spare, base.value.sequence)
      case Scanned(records, keep) =>
        var e := Replay(env.cfg.window, base.value, records);
        if e.None? then Unreadable else Found(e.value, keep)
      case _ => Unreadable
  }

  datatype Opened = Opened(engine: Engine) | Refused(why: Refusal)

  datatype Refusal = Damaged | TooManyAccounts

  function Open(env: Env, snap: Option<Bytes>, wal: Bytes, spare: Bytes): Opened
  {
    match Recover(env, snap, wal, spare)
    case Unreadable => Refused(Damaged)
    case Found(e, _) => if |e.slots| > env.cfg.maxAccounts then Refused(TooManyAccounts) else Opened(e)
  }

  // -------------------------------------------------------------------------- histories

  function EngineAt(window: nat, batches: seq<seq<Record>>, k: nat): Engine
    requires k <= |batches|
  {
    ApplyAll(window, EMPTY, Flatten(batches[..k]))
  }

  // A batch that may follow: it holds a record, replays from where the engine is, and fits a frame.
  ghost predicate Follows(window: nat, e: Engine, rs: seq<Record>)
  {
    rs != [] && FrameOk(rs) && Replay(window, e, rs) == Some(ApplyAll(window, e, rs))
        && Good(window, ApplyAll(window, e, rs))
  }

  ghost predicate Lawful(window: nat, batches: seq<seq<Record>>)
  {
    forall k: nat | k < |batches| :: Follows(window, EngineAt(window, batches, k), batches[k])
  }

  lemma {:induction false} FlattenAppend(a: seq<seq<Record>>, b: seq<seq<Record>>)
    ensures Flatten(a + b) == Flatten(a) + Flatten(b)
    decreases |a|
  {
    if a == [] {
      assert a + b == b;
    } else {
      assert (a + b)[1..] == a[1..] + b;
      FlattenAppend(a[1..], b);
      ConcatAssoc(a[0], Flatten(a[1..]), Flatten(b));
    }
  }

  lemma FlattenSnoc(a: seq<seq<Record>>, rs: seq<Record>)
    ensures Flatten(a + [rs]) == Flatten(a) + rs
  {
    FlattenAppend(a, [rs]);
    assert Flatten([rs]) == rs + Flatten([]);
  }

  lemma {:induction false} ApplyAllAppend(window: nat, e: Engine, a: seq<Record>, b: seq<Record>)
    ensures ApplyAll(window, e, a + b) == ApplyAll(window, ApplyAll(window, e, a), b)
  {
    if b == [] {
      assert a + b == a;
    } else {
      assert (a + b)[..|a + b| - 1] == a + b[..|b| - 1];
      ApplyAllAppend(window, e, a, b[..|b| - 1]);
    }
  }

  function ReplayOne(window: nat, e: Option<Engine>, r: Record): Option<Engine>
  {
    if e.Some? && Replays(e.value, r) then Some(Apply(window, e.value, r)) else None
  }

  lemma ReplaySnoc(window: nat, e: Engine, rs: seq<Record>, r: Record)
    ensures Replay(window, e, rs + [r]) == ReplayOne(window, Replay(window, e, rs), r)
  {
    assert (rs + [r])[..|rs|] == rs;
  }

  lemma {:induction false} ReplayAppend(window: nat, e: Engine, a: seq<Record>, b: seq<Record>)
    requires Replay(window, e, a).Some?
    ensures Replay(window, e, a + b) == Replay(window, Replay(window, e, a).value, b)
  {
    if b == [] {
      assert a + b == a;
    } else {
      var front, r := b[..|b| - 1], b[|b| - 1];
      ReplayAppend(window, e, a, front);
      assert b == front + [r] && a + b == (a + front) + [r];
      ReplaySnoc(window, e, a + front, r);
      ReplaySnoc(window, Replay(window, e, a).value, front, r);
    }
  }

  lemma EngineStep(window: nat, batches: seq<seq<Record>>, k: nat)
    requires k < |batches|
    ensures EngineAt(window, batches, k + 1) == ApplyAll(window, EngineAt(window, batches, k), batches[k])
  {
    assert batches[..k + 1] == batches[..k] + [batches[k]];
    FlattenSnoc(batches[..k], batches[k]);
    ApplyAllAppend(window, EMPTY, Flatten(batches[..k]), batches[k]);
  }

  lemma EngineInPrefix(window: nat, batches: seq<seq<Record>>, more: seq<seq<Record>>, k: nat)
    requires k <= |batches|
    ensures EngineAt(window, batches + more, k) == EngineAt(window, batches, k)
  {
    assert (batches + more)[..k] == batches[..k];
  }

  lemma LawfulSnoc(window: nat, batches: seq<seq<Record>>, rs: seq<Record>)
    requires Lawful(window, batches) && Follows(window, EngineAt(window, batches, |batches|), rs)
    ensures Lawful(window, batches + [rs])
  {
    forall k: nat | k < |batches|
        + 1 ensures Follows(window, EngineAt(window, batches + [rs], k), (batches + [rs])[k]) {
      EngineInPrefix(window, batches, [rs], k);
    }
  }

  lemma ReplayOver(window: nat, e: Engine, rs: seq<Record>, rest: seq<Record>, next: Engine, last: Engine)
    requires Follows(window, e, rs) && next == ApplyAll(window, e, rs) && Replay(window, next, rest) == Some(last)
    ensures Replay(window, e, rs + rest) == Some(last)
  {
    ReplayAppend(window, e, rs, rest);
  }

  lemma FlattenFrom(batches: seq<seq<Record>>, k: nat)
    requires k < |batches|
    ensures Flatten(batches[k..]) == batches[k] + Flatten(batches[k + 1..])
  {
    assert batches[k..][1..] == batches[k + 1..];
  }

  ghost predicate Leads(window: nat, batches: seq<seq<Record>>, k: nat, last: Engine)
    requires k <= |batches|
  {
    Replay(window, EngineAt(window, batches, k), Flatten(batches[k..])) == Some(last)
  }

  lemma ReplayStep(window: nat, batches: seq<seq<Record>>, k: nat, last: Engine)
    requires k < |batches| && Follows(window, EngineAt(window, batches, k), batches[k])
    requires Leads(window, batches, k + 1, last)
    ensures Leads(window, batches, k, last)
  {
    var now, next := EngineAt(window, batches, k), EngineAt(window, batches, k + 1);
    EngineStep(window, batches, k);
    FlattenFrom(batches, k);
    ReplayOver(window, now, batches[k], Flatten(batches[k + 1..]), next, last);
  }

  lemma ReplayNone(window: nat, batches: seq<seq<Record>>)
    ensures Leads(window, batches, |batches|, EngineAt(window, batches, |batches|))
  {
    assert batches[|batches|..] == [];
  }

  lemma LawfulStep(window: nat, batches: seq<seq<Record>>, k: nat)
    requires Lawful(window, batches) && k < |batches|
    ensures Follows(window, EngineAt(window, batches, k), batches[k])
  {}

  // Replaying from any point of a history reaches its end.
  lemma {:induction false} ReplayToEnd(window: nat, batches: seq<seq<Record>>, k: nat)
    requires Lawful(window, batches) && k <= |batches|
    ensures Leads(window, batches, k, EngineAt(window, batches, |batches|))
    decreases |batches| - k
  {
    if k < |batches| {
      ReplayToEnd(window, batches, k + 1);
      LawfulStep(window, batches, k);
      ReplayStep(window, batches, k, EngineAt(window, batches, |batches|));
    } else {
      ReplayNone(window, batches);
    }
  }

  lemma StartsEmpty(window: nat, batches: seq<seq<Record>>)
    ensures EngineAt(window, batches, 0) == EMPTY && Good(window, EMPTY)
  {
    assert Flatten(batches[..0]) == [];
  }

  lemma GoodNext(window: nat, e: Engine, rs: seq<Record>, next: Engine)
    requires Follows(window, e, rs) && next == ApplyAll(window, e, rs)
    ensures Good(window, next)
  {}

  lemma GoodAt(window: nat, batches: seq<seq<Record>>, k: nat)
    requires Lawful(window, batches) && k <= |batches|
    ensures Good(window, EngineAt(window, batches, k))
  {
    if k == 0 {
      StartsEmpty(window, batches);
    } else {
      EngineStep(window, batches, k - 1);
      GoodNext(window, EngineAt(window, batches, k - 1), batches[k - 1], EngineAt(window, batches, k));
    }
  }

  // ------------------------------------------------------------------ sequence numbers

  lemma {:induction false} ReplayCounts(window: nat, e: Engine, rs: seq<Record>)
    requires Replay(window, e, rs).Some?
    ensures Replay(window, e, rs).value.sequence == e.sequence + |rs|
    ensures forall i | 0 <= i < |rs| :: rs[i].sequence == e.sequence + i + 1
  {
    if rs != [] {
      var front := rs[..|rs| - 1];
      ReplayCounts(window, e, front);
      assert forall i | 0 <= i < |front| :: rs[i] == front[i];
    }
  }

  lemma {:induction false} AboveAll(rs: seq<Record>, s: nat)
    requires forall i | 0 <= i < |rs| :: rs[i].sequence > s
    ensures Above(rs, s) == rs
  {
    if rs != [] { AboveAll(rs[..|rs| - 1], s); }
  }

  lemma {:induction false} AboveNone(rs: seq<Record>, s: nat)
    requires forall i | 0 <= i < |rs| :: rs[i].sequence <= s
    ensures Above(rs, s) == []
  {
    if rs != [] { AboveNone(rs[..|rs| - 1], s); }
  }

  // ------------------------------------------------------------- parts of a history

  lemma EngineOfPrefix(window: nat, batches: seq<seq<Record>>, j: nat, k: nat)
    requires k <= j <= |batches|
    ensures EngineAt(window, batches[..j], k) == EngineAt(window, batches, k)
  {
    assert batches[..j][..k] == batches[..k];
  }

  lemma LawfulPrefix(window: nat, batches: seq<seq<Record>>, j: nat)
    requires Lawful(window, batches) && j <= |batches|
    ensures Lawful(window, batches[..j])
  {
    forall k: nat | k < j ensures Follows(window, EngineAt(window, batches[..j], k), batches[..j][k]) {
      EngineOfPrefix(window, batches, j, k);
    }
  }

  // Replaying the batches between two points of a history leads from one to the other.
  lemma ReplayBetween(window: nat, batches: seq<seq<Record>>, i: nat, j: nat)
    requires Lawful(window, batches) && i <= j <= |batches|
    ensures Replay(window, EngineAt(window, batches, i), Flatten(batches[i..j])) == Some(EngineAt(window, batches, j))
  {
    LawfulPrefix(window, batches, j);
    ReplayToEnd(window, batches[..j], i);
    EngineOfPrefix(window, batches, j, i);
    EngineOfPrefix(window, batches, j, j);
    assert batches[..j][i..] == batches[i..j];
  }

  lemma SequencesBetween(window: nat, batches: seq<seq<Record>>, i: nat, j: nat)
    requires Lawful(window, batches) && i <= j <= |batches|
    ensures EngineAt(window, batches, j).sequence == EngineAt(window, batches, i).sequence + |Flatten(batches[i..j])|
    ensures forall x | 0 <= x < |Flatten(batches[i..j])| ::
              EngineAt(window, batches, i).sequence < Flatten(batches[i..j])[x].sequence
                  <= EngineAt(window, batches, j).sequence
  {
    ReplayBetween(window, batches, i, j);
    ReplayCounts(window, EngineAt(window, batches, i), Flatten(batches[i..j]));
  }

  lemma SequenceIsCount(window: nat, batches: seq<seq<Record>>, k: nat)
    requires Lawful(window, batches) && k <= |batches|
    ensures EngineAt(window, batches, k).sequence == |Flatten(batches[..k])|
  {
    StartsEmpty(window, batches);
    SequencesBetween(window, batches, 0, k);
    assert batches[0..k] == batches[..k];
  }

  // Every batch holds a record, so that sequence numbers tell the points of a history apart.
  lemma SequenceTells(window: nat, batches: seq<seq<Record>>, i: nat, j: nat)
    requires Lawful(window, batches) && i < j <= |batches|
    ensures EngineAt(window, batches, i).sequence < EngineAt(window, batches, j).sequence
  {
    SequencesBetween(window, batches, i, j);
    assert batches[i..j][0] == batches[i] && Follows(window, EngineAt(window, batches, i), batches[i]);
    assert Flatten(batches[i..j]) == batches[i] + Flatten(batches[i..j][1..]);
  }

  // The batches of a history up to a sequence number.
  function Upto(batches: seq<seq<Record>>, sequence: nat): (front: seq<seq<Record>>)
    ensures front <= batches
  {
    if batches == [] || |Flatten(batches)| <= sequence then batches else Upto(batches[..|batches| - 1], sequence)
  }

  lemma {:induction false} UptoBy(batches: seq<seq<Record>>, k: nat, sequence: nat)
    requires k <= |batches| && |Flatten(batches[..k])| <= sequence
    requires forall j | k < j <= |batches| :: |Flatten(batches[..j])| > sequence
    ensures Upto(batches, sequence) == batches[..k]
    decreases |batches|
  {
    var n := |batches|;
    assert batches[..n] == batches;
    if k < n {
      var front := batches[..n - 1];
      assert forall j | 0 <= j <= n - 1 :: front[..j] == batches[..j];
      UptoBy(front, k, sequence);
    }
  }

  lemma UptoPoint(window: nat, batches: seq<seq<Record>>, k: nat)
    requires Lawful(window, batches) && k <= |batches|
    ensures Upto(batches, EngineAt(window, batches, k).sequence) == batches[..k]
  {
    var sequence := EngineAt(window, batches, k).sequence;
    SequenceIsCount(window, batches, k);
    forall j | k < j <= |batches| ensures |Flatten(batches[..j])| > sequence {
      SequenceTells(window, batches, k, j);
      SequenceIsCount(window, batches, j);
    }
    UptoBy(batches, k, sequence);
  }

  // ---------------------------------------------------------------- what a log holds

  lemma {:induction false} FramesAppend(sum: Checksum, a: seq<seq<Record>>, rs: seq<Record>)
    ensures Frames(sum, a + [rs]) == Frames(sum, a) + Frame(sum, rs)
    decreases |a|
  {
    if a == [] {
      assert Frames(sum, [rs]) == Frame(sum, rs) + Frames(sum, []);
    } else {
      assert (a + [rs])[1..] == a[1..] + [rs];
      FramesAppend(sum, a[1..], rs);
      ConcatAssoc(Frame(sum, a[0]), Frames(sum, a[1..]), Frame(sum, rs));
    }
  }

  // Frames of older batches, which every snapshot covers, then a stretch of the history.
  ghost predicate Covered(window: nat, batches: seq<seq<Record>>, older: seq<seq<Record>>, from: nat)
  {
    && from <= |batches| && (forall rs <- older :: FrameOk(rs))
    && forall x | 0 <= x < |Flatten(older)| :: Flatten(older)[x].sequence <= EngineAt(window, batches, from).sequence
  }

  lemma AboveSplit(a: seq<Record>, b: seq<Record>, s: nat)
    requires forall x | 0 <= x < |a| :: a[x].sequence <= s
    requires forall x | 0 <= x < |b| :: b[x].sequence > s
    ensures Above(a + b, s) == b
  {
    AboveAppend(a, b, s);
    AboveNone(a, s);
    AboveAll(b, s);
  }

  lemma FlattenSplit(batches: seq<seq<Record>>, i: nat, j: nat, k: nat)
    requires i <= j <= k <= |batches|
    ensures Flatten(batches[i..k]) == Flatten(batches[i..j]) + Flatten(batches[j..k])
  {
    assert batches[i..k] == batches[i..j] + batches[j..k];
    FlattenAppend(batches[i..j], batches[j..k]);
  }

  lemma AboveSegment(window: nat, batches: seq<seq<Record>>, from: nat, k: nat, b: nat)
    requires Lawful(window, batches) && from <= b <= |batches| && from <= k <= |batches|
    ensures Above(Flatten(batches[from..k]), EngineAt(window, batches, b).sequence) == if b <= k
            then Flatten(batches[b..k]) else []
  {
    var s := EngineAt(window, batches, b).sequence;
    if b <= k {
      SequencesBetween(window, batches, from, b);
      SequencesBetween(window, batches, b, k);
      FlattenSplit(batches, from, b, k);
      AboveSplit(Flatten(batches[from..b]), Flatten(batches[b..k]), s);
    } else {
      SequencesBetween(window, batches, from, k);
      SequenceMonotone(window, batches, k, b);
      AboveNone(Flatten(batches[from..k]), s);
    }
  }

  lemma SequenceMonotone(window: nat, batches: seq<seq<Record>>, i: nat, j: nat)
    requires Lawful(window, batches) && i <= j <= |batches|
    ensures EngineAt(window, batches, i).sequence <= EngineAt(window, batches, j).sequence
  {
    SequencesBetween(window, batches, i, j);
  }

  // The records that a snapshot after b batches leaves to be replayed.
  lemma AboveSpan(window: nat, batches: seq<seq<Record>>, older: seq<seq<Record>>, from: nat, k: nat, b: nat)
    requires Lawful(window, batches) && Covered(window, batches, older, from) && from <= b <= |batches|
             && from <= k <= |batches|
    ensures Above(Flatten(older + batches[from..k]), EngineAt(window, batches, b).sequence) == if b <= k
            then Flatten(batches[b..k]) else []
  {
    var s := EngineAt(window, batches, b).sequence;
    SequenceMonotone(window, batches, from, b);
    AboveNone(Flatten(older), s);
    FlattenAppend(older, batches[from..k]);
    AboveAppend(Flatten(older), Flatten(batches[from..k]), s);
    AboveSegment(window, batches, from, k, b);
  }

  function Max(a: nat, b: nat): nat { if a < b then b else a }

  lemma NothingIsTorn(sum: Checksum)
    ensures Torn(sum, [])
  {
    assert FrameOk([]) && [] < Frame(sum, []);
  }

  lemma RecoverScanned(env: Env, snap: Option<Bytes>, wal: Bytes, spare: Bytes, e: Engine, rs: seq<Record>, keep: nat,
      last: Engine)
    requires Restored(env, snap) == Some(e) && Replay(env.cfg.window, e, rs) == Some(last)
    requires Scan(env.sum, if wal == [] then Header(env.sum) else wal, spare, e.sequence) == Scanned(rs, keep)
    ensures Recover(env, snap, wal, spare) == Found(last, keep)
  {}

  lemma SpanFits(window: nat, batches: seq<seq<Record>>, older: seq<seq<Record>>, from: nat, k: nat)
    requires Lawful(window, batches) && Covered(window, batches, older, from) && from <= k <= |batches|
    ensures forall rs <- older + batches[from..k] :: FrameOk(rs)
  {
    forall rs <- older + batches[from..k] ensures FrameOk(rs) {
      if rs !in older { BatchesFit(window, batches, from, k, rs); }
    }
  }

  lemma ReplayLeft(window: nat, batches: seq<seq<Record>>, b: nat, k: nat)
    requires Lawful(window, batches) && b <= |batches| && k <= |batches|
    ensures Replay(window, EngineAt(window, batches, b), if b <= k then Flatten(batches[b..k]) else [])
            == Some(EngineAt(window, batches, Max(b, k)))
  {
    if b <= k { ReplayBetween(window, batches, b, k); }
  }

  // A snapshot after b batches and a log whose whole frames reach the first k give the engine after
  // the later of the two.
  lemma RecoverImage(env: Env, batches: seq<seq<Record>>, snap: Option<Bytes>, b: nat, older: seq<seq<Record>>,
      from: nat, k: nat,
                     tail: Bytes, spare: Bytes)
    requires var w := env.cfg.window; Lawful(w, batches) && Covered(w, batches, older, from) && from <= b <= |batches|
    requires from <= k <= |batches| && Restored(env, snap) == Some(EngineAt(env.cfg.window, batches, b))
             && Torn(env.sum, tail)
    ensures var kept := Header(env.sum) + Frames(env.sum, older + batches[from..k]);
            Recover(env, snap, kept + tail, spare) == Found(EngineAt(env.cfg.window, batches, Max(b, k)), |kept|)
  {
    var w, fs, e := env.cfg.window, older + batches[from..k], EngineAt(env.cfg.window, batches, b);
    SpanFits(w, batches, older, from, k);
    ScanFrames(env.sum, fs, tail, spare, e.sequence);
    AboveSpan(w, batches, older, from, k, b);
    ReplayLeft(w, batches, b, k);
    var kept := Header(env.sum) + Frames(env.sum, fs);
    RecoverScanned(env, snap, kept + tail, spare, e, if b <= k then Flatten(batches[b..k])
        else [], |kept|, EngineAt(w, batches, Max(b, k)));
  }

  lemma BatchesFit(window: nat, batches: seq<seq<Record>>, from: nat, k: nat, rs: seq<Record>)
    requires Lawful(window, batches) && from <= k <= |batches| && rs in batches[from..k]
    ensures FrameOk(rs)
  {
    var i :| 0 <= i < k - from && batches[from..k][i] == rs;
    assert Follows(window, EngineAt(window, batches, from + i), batches[from + i]);
  }

  lemma RecoverBlank(env: Env, snap: Option<Bytes>, e: Engine, spare: Bytes)
    requires Restored(env, snap) == Some(e)
    ensures Recover(env, snap, [], spare) == Found(e, 24)
  {
    NothingIsTorn(env.sum);
    ScanFrames(env.sum, [], [], spare, e.sequence);
    assert Header(env.sum) + [] + [] == Header(env.sum);
    RecoverScanned(env, snap, [], spare, e, [], 24, e);
  }

  // A log that is neither empty nor starts as a log must.
  predicate Ruined(wal: Bytes)
  {
    wal != [] && (|wal| < 24 || wal[..8] != MAGIC)
  }

  lemma RecoverRuined(env: Env, snap: Option<Bytes>, wal: Bytes, spare: Bytes)
    requires Ruined(wal)
    ensures Recover(env, snap, wal, spare) == Unreadable
  {}

  lemma RuinedPrefix(wal: Bytes, cut: nat)
    requires Ruined(wal) && 0 < cut <= |wal|
    ensures Ruined(wal[..cut])
  {
    if cut >= 24 { assert wal[..cut][..8] == wal[..8]; }
  }

  // ----------------------------------------------------------------------- cut logs

  lemma FramesFirst(sum: Checksum, fs: seq<seq<Record>>, q: nat)
    requires fs != [] && q < |fs|
    ensures Frames(sum, fs[..q + 1]) == Frame(sum, fs[0]) + Frames(sum, fs[1..][..q])
  {
    assert fs[..q + 1][1..] == fs[1..][..q];
  }

  lemma TakePart<T>(a: seq<T>, b: seq<T>, c: nat)
    requires c <= |a + b|
    ensures (a + b)[..c] == if c <= |a| then a[..c] else a + b[..c - |a|]
  {}

  lemma NoFrameFits(sum: Checksum, fs: seq<seq<Record>>, c: nat)
    requires fs != [] && c < |Frame(sum, fs[0])|
    ensures forall m | 0 <= m <= |fs| && |Frames(sum, fs[..m])| <= c :: m <= 0
  {
    forall m | 0 <= m <= |fs| && |Frames(sum, fs[..m])| <= c ensures m <= 0 {
      if m > 0 { FramesFirst(sum, fs, m - 1); }
    }
  }

  lemma OneMoreFits(sum: Checksum, fs: seq<seq<Record>>, c: nat, d: nat, q: nat)
    requires fs != [] && c == |Frame(sum, fs[0])| + d
    requires forall m | 0 <= m <= |fs[1..]| && |Frames(sum, fs[1..][..m])| <= d :: m <= q
    ensures forall m | 0 <= m <= |fs| && |Frames(sum, fs[..m])| <= c :: m <= q + 1
  {
    forall m | 0 <= m <= |fs| && |Frames(sum, fs[..m])| <= c ensures m <= q + 1 {
      if m > 0 { FramesFirst(sum, fs, m - 1); }
    }
  }

  // A cut leaves whole frames and a torn one.
  lemma {:induction false} CutFrames(sum: Checksum, fs: seq<seq<Record>>, tail: Bytes, c: nat)
      returns (q: nat, rest: Bytes)
    requires (forall rs <- fs :: FrameOk(rs)) && Torn(sum, tail) && c <= |Frames(sum, fs) + tail|
    ensures q <= |fs| && Torn(sum, rest) && (Frames(sum, fs) + tail)[..c] == Frames(sum, fs[..q]) + rest
    ensures forall m | 0 <= m <= |fs| && |Frames(sum, fs[..m])| <= c :: m <= q
    decreases |fs|
  {
    if fs == [] {
      q, rest := 0, tail[..c];
      ShorterTorn(sum, tail, c);
      assert fs[..0] == [] && Frames(sum, fs) + tail == tail;
    } else {
      var one, more := Frame(sum, fs[0]), Frames(sum, fs[1..]) + tail;
      ConcatAssoc(one, Frames(sum, fs[1..]), tail);
      TakePart(one, more, c);
      if c < |one| {
        q, rest := 0, one[..c];
        TornPart(sum, fs[0], c);
        NoFrameFits(sum, fs, c);
        assert fs[..0] == [] && Frames(sum, fs[..0]) + rest == rest;
      } else {
        q, rest := CutFrames(sum, fs[1..], tail, c - |one|);
        OneMoreFits(sum, fs, c, c - |one|, q);
        FramesFirst(sum, fs, q);
        ConcatAssoc(one, Frames(sum, fs[1..][..q]), rest);
        q := q + 1;
      }
    }
  }

  lemma ShorterTorn(sum: Checksum, tail: Bytes, c: nat)
    requires Torn(sum, tail) && c <= |tail|
    ensures Torn(sum, tail[..c])
  {
    var rs :| FrameOk(rs) && tail < Frame(sum, rs);
    assert tail[..c] < Frame(sum, rs);
  }

  lemma TornPart(sum: Checksum, rs: seq<Record>, c: nat)
    requires FrameOk(rs) && c < |Frame(sum, rs)|
    ensures Torn(sum, Frame(sum, rs)[..c])
  {
    assert Frame(sum, rs)[..c] < Frame(sum, rs);
  }
}
