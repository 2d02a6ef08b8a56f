/**
 Whole runs of the account engine: batches with storage failures, snapshots that stop at any
 step, processes that open the files again, and crashes that lose any part of what was not synced.
 */
module AccountRuns {
  import opened Bytes
  import opened Accounts
  import opened AccountEngine
  import opened AccountBatches
  import opened AccountInvariants
  import opened AccountLog
  import opened AccountWal
  import opened AccountImages
  import opened AccountRecovery
  import Snap = AccountSnapshot

  // Contents of the log and how much of it is synced.
  datatype Log = Log(bytes: Bytes, synced: nat)

  // The files, with everything a crash may bring back: the snapshots since the last sync of the
  // directory and the logs since the last sync of the log, the current ones last; and where the
  // process writes next.
  datatype Disk = Disk(snaps: seq<Option<Bytes>>, logs: seq<Log>, offset: nat)

  // The engine in memory and the files, with the batches whose frames were written and how many
  // of those are durable.
  datatype Sys = Sys(engine: Engine, up: bool, poisoned: bool, disk: Disk, history: seq<seq<Record>>, acked: nat)

  datatype Event =
    | Submit(commands: seq<Command>, storage: Storage)
    | TakeSnapshot(ids: seq<AccountID>, stopAfter: nat, part: nat)
    | Reopen(spare: Bytes)
    | Crash(snap: nat, log: nat, cut: nat)

  // A new store: its log has a header that is not synced yet.
  function Created(env: Env): Sys
  {
    Sys(EMPTY, true, false, Disk([None], [Log(Header(env.sum), 0)], 24), [], 0)
  }

  predicate Present(d: Disk) { d.snaps != [] && d.logs != [] }

  function Current(d: Disk): Log
    requires Present(d)
  {
    d.logs[|d.logs| - 1]
  }

  function Min(a: nat, b: nat): nat { if a < b then a else b }

  // ---------------------------------------------------------------------------- batches

  // Bytes written at an offset: what lies between the end of the file and the offset is zero.
  function Written(file: Bytes, offset: nat, data: Bytes): Bytes
  {
    if data == [] then file
    else
      (if offset <= |file| then file[..offset] else file + Zeros(offset - |file|)) + data
      + (if offset + |data| <= |file| then file[offset + |data|..] else [])
  }

  // The next write goes to the end of a log that is not empty.
  predicate Ready(d: Disk)
    requires Present(d)
  {
    0 < d.offset == |Current(d).bytes|
  }

  function PartWritten(storage: Storage, frame: Bytes): Bytes
  {
    if storage.WriteStops? && storage.written < |frame| then frame[..storage.written] else frame
  }

  function Synced(d: Disk, frame: Bytes): Disk
    requires Present(d)
  {
    var wal := Written(Current(d).bytes, d.offset, frame);
    Disk(d.snaps, [Log(wal, |wal|)], d.offset + |frame|)
  }

  function Unsynced(d: Disk, part: Bytes): Disk
    requires Present(d)
  {
    var log := Current(d);
    Disk(d.snaps, d.logs + [Log(Written(log.bytes, d.offset, part), Min(log.synced, d.offset))], d.offset + |part|)
  }

  // A batch is written as one frame and acknowledged once the frame is synced. Any failure poisons
  // the engine, which keeps the agents and registrations of the batch.
  function AfterAppend(env: Env, y: Sys, st: Staging, storage: Storage): Sys
    requires Present(y.disk)
  {
    var rs, left := st.records, y.engine.(slots := st.slots);
    var frame := Frame(env.sum, rs);
    if |Payload(rs)| > MAX_FRAME_BYTES then y.(engine := left, poisoned := true)
    else if storage.Works? then
      Sys(ApplyAll(env.cfg.window, left, rs), y.up, y.poisoned, Synced(y.disk, frame), y.history + [rs],
          |y.history| + 1)
    else
      var part := PartWritten(storage, frame);
      Sys(left, y.up, true, Unsynced(y.disk, part), if Ready(y.disk) && part == frame then y.history + [rs]
          else y.history, y.acked)
  }

  function AfterSubmit(env: Env, y: Sys, cs: seq<Command>, storage: Storage): Sys
    requires Present(y.disk)
  {
    var st := StageAll(y.engine, cs);
    if !Admitted(env.cfg, y.engine, cs) || st.records == [] then y else AfterAppend(env, y, st, storage)
  }

  // -------------------------------------------------------------------------- snapshots

  // How many batches of the history the engine in memory has applied.
  function Applied(y: Sys): nat { |Upto(y.history, y.engine.sequence)| }

  function HeaderPart(env: Env, stopAfter: nat, part: nat): Bytes
  {
    if stopAfter == 3 then [] else if stopAfter == 4 && part < 24 then Header(env.sum)[..part] else Header(env.sum)
  }

  // Write and rename, sync the directory, truncate the log, go to its start, write the header,
  // sync the log, go to its end: `stopAfter` of the seven steps are done. Stopping early is an
  // error, but does not poison the engine.
  function AfterSnapshot(env: Env, y: Sys, bytes: Bytes, stopAfter: nat, part: nat): Sys
    requires Present(y.disk)
  {
    var d, n := y.disk, Applied(y);
    if stopAfter == 0 then y
    else if stopAfter == 1 then y.(disk := d.(snaps := d.snaps + [Some(bytes)]))
    else if stopAfter == 2 then y.(disk := d.(snaps := [Some(bytes)]), acked := Max(y.acked, n))
    else if stopAfter <= 5 then
      y.(disk :=
          Disk([Some(bytes)], d.logs + [Log(HeaderPart(env, stopAfter, part), 0)], if stopAfter == 3 then d.offset
          else 0),
         acked := Max(y.acked, n))
    else
      y.(disk := Disk([Some(bytes)], [Log(Header(env.sum), 24)], if stopAfter == 6 then 0 else 24),
         history := Upto(y.history, y.engine.sequence), acked := n)
  }

  // ------------------------------------------------------------------ opening and crashing

  // A process opens the files as they are. It gives an empty log its header and cuts off a torn
  // tail; neither is synced.
  function AfterReopen(env: Env, y: Sys, spare: Bytes): Sys
    requires Present(y.disk)
  {
    Resumed(env, y, Recover(env, y.disk.snaps[|y.disk.snaps| - 1], Current(y.disk).bytes, spare))
  }

  function Resumed(env: Env, y: Sys, found: Found): Sys
    requires Present(y.disk)
  {
    var d, log := y.disk, Current(y.disk);
    match found
    case Unreadable => y.(up := false)
    case Found(e, keep) =>
      var wal := if log.bytes == [] then Header(env.sum) else log.bytes;
      var kept := if keep <= |wal| then wal[..keep] else wal;
      var logs := if kept == log.bytes then d.logs else d.logs + [Log(kept, Min(log.synced, keep))];
      Sys(e, |e.slots| <= env.cfg.maxAccounts, false, Disk(d.snaps, logs, keep), y.history, y.acked)
  }

  // What a crash leaves of a log: all that is synced and any part of the rest.
  function Survives(log: Log, cut: nat): Bytes
  {
    if log.synced <= cut <= |log.bytes| then log.bytes[..cut] else log.bytes
  }

  // Power is lost. What is then on disk is durable, and the history ends with it.
  function AfterCrash(env: Env, y: Sys, snap: Option<Bytes>, wal: Bytes): Sys
  {
    Crashed(y, Disk([snap], [Log(wal, |wal|)], 0), Recover(env, snap, wal, []))
  }

  function Crashed(y: Sys, d: Disk, found: Found): Sys
  {
    match found
    case Unreadable => y.(up := false, disk := d)
    case Found(e, _) =>
      var history := Upto(y.history, e.sequence);
      Sys(y.engine, false, y.poisoned, d, history, |history|)
  }

  // -------------------------------------------------------------------------------- runs

  ghost predicate Takes(y: Sys, ids: seq<AccountID>)
  {
    Numbers(ids, y.engine.slots) && forall id <- y.engine.order :: id in y.engine.results
  }

  ghost function Next(env: Env, y: Sys, e: Event): Sys
  {
    if !Present(y.disk) then y
    else
      match e
      case Submit(cs, storage) => if !y.up || y.poisoned then y else AfterSubmit(env, y, cs, storage)
      case TakeSnapshot(ids, stopAfter, part) =>
        if !y.up || !Takes(y, ids) then y
        else AfterSnapshot(env, y, Snap.Encode(env.digest, ImageOf(env.cfg.window, y.engine, ids)), stopAfter, part)
      case Reopen(spare) => AfterReopen(env, y, spare)
      case Crash(i, j, cut) =>
        if i < |y.disk.snaps| && j < |y.disk.logs|
            then AfterCrash(env, y, y.disk.snaps[i], Survives(y.disk.logs[j], cut)) else y
  }

  ghost function RunFrom(env: Env, y: Sys, es: seq<Event>): Sys
  {
    if es == [] then y else Next(env, RunFrom(env, y, es[..|es| - 1]), es[|es| - 1])
  }

  ghost function Run(env: Env, es: seq<Event>): Sys { RunFrom(env, Created(env), es) }

  // The numbers an event writes fit their fixed widths.
  ghost predicate Sized(env: Env, y: Sys, e: Event)
  {
    match e
    case Submit(cs, _) => var rs := StageAll(y.engine, cs).records; |rs| < U32_LIMIT && forall r <- rs :: Encodable(r)
    case TakeSnapshot(ids, _, _) =>
      Takes(y, ids) ==> var img := ImageOf(env.cfg.window, y.engine, ids);
            Snap.ImageFits(img) && |env.digest(Snap.Body(img))| == 32
    case _ => true
  }

  // A snapshot of a poisoned engine is one of a point of the history: the failed batch left nothing
  // in memory, and if its frame is in the log, the log is not left half reset.
  ghost predicate Faithful(env: Env, y: Sys, e: Event)
  {
    e.TakeSnapshot? && y.up && y.poisoned ==>
      var n := Applied(y);
            y.engine == EngineAt(env.cfg.window, y.history, n) && (n < |y.history| ==> !(3 <= e.stopAfter <= 5))
  }

  ghost predicate AllProper(env: Env, y: Sys, es: seq<Event>)
  {
    es == [] || (var front := es[..|es| - 1];
                 AllProper(env, y, front) && Sized(env, RunFrom(env, y, front), es[|es| - 1])
                     && Faithful(env, RunFrom(env, y, front), es[|es| - 1]))
  }

  // --------------------------------------------------------------------------- invariant

  // What a log holds: older frames that every snapshot covers, the batches of the history from
  // `from` to `until`, of which those before `sure` are synced, and a torn tail. A spoilt log
  // cannot be read at all.
  datatype Span = Span(older: seq<seq<Record>>, from: nat, until: nat, sure: nat, tail: Bytes, spoilt: bool)

  // Each snapshot is after `bases[i]` batches and each log holds `spans[j]`.
  datatype Layout = Layout(bases: seq<nat>, spans: seq<Span>)

  ghost predicate SnapOk(env: Env, h: seq<seq<Record>>, snap: Option<Bytes>, b: nat)
  {
    b <= |h| && Restored(env, snap) == Some(EngineAt(env.cfg.window, h, b))
  }

  ghost predicate SnapsOk(env: Env, h: seq<seq<Record>>, snaps: seq<Option<Bytes>>, bases: seq<nat>)
  {
    |snaps| == |bases| > 0 && forall i | 0 <= i < |snaps| :: SnapOk(env, h, snaps[i], bases[i]) && bases[0] <= bases[i]
  }

  function Kept(env: Env, h: seq<seq<Record>>, s: Span, k: nat): (b: Bytes)
    requires s.from <= k <= |h|
    ensures |b| >= 24
  {
    Header(env.sum) + Frames(env.sum, s.older + h[s.from..k])
  }

  ghost predicate SyncedAt(env: Env, h: seq<seq<Record>>, log: Log, s: Span)
    requires s.from <= s.sure <= s.until <= |h|
  {
    || log.synced == |Kept(env, h, s, s.sure)|
    || (s.sure == s.from && log.synced == 0)
    || (s.sure == s.until && log.synced == |log.bytes|)
  }

  ghost predicate Holds(env: Env, h: seq<seq<Record>>, wal: Bytes, s: Span)
    requires s.from <= s.until <= |h|
  {
    Covered(env.cfg.window, h, s.older, s.from) && Torn(env.sum, s.tail) && wal == Kept(env, h, s, s.until) + s.tail
  }

  ghost predicate LogOk(env: Env, h: seq<seq<Record>>, log: Log, s: Span)
  {
    && s.from <= s.sure <= s.until <= |h| && log.synced <= |log.bytes|
    && if s.spoilt then Ruined(log.bytes) && s.from == s.until
       else if log.bytes == [] then s.older == [] && s.tail == [] && s.from == s.until
       else Holds(env, h, log.bytes, s) && SyncedAt(env, h, log, s)
  }

  predicate Lost(log: Log, s: Span) { s.spoilt && log.synced > 0 }

  // No crash loses a durable batch.
  ghost predicate LogFits(env: Env, h: seq<seq<Record>>, acked: nat, base: nat, log: Log, s: Span)
  {
    LogOk(env, h, log, s) && s.from <= base && (Lost(log, s) || acked <= Max(base, s.sure))
  }

  ghost predicate LogsFit(env: Env, h: seq<seq<Record>>, acked: nat, base: nat, logs: seq<Log>, spans: seq<Span>)
  {
    |logs| == |spans| > 0 && forall j | 0 <= j < |logs| :: LogFits(env, h, acked, base, logs[j], spans[j])
  }

  ghost predicate DiskOk(env: Env, h: seq<seq<Record>>, acked: nat, d: Disk, l: Layout)
  {
    && SnapsOk(env, h, d.snaps, l.bases) && LogsFit(env, h, acked, l.bases[0], d.logs, l.spans)
    && (Lost(d.logs[0], l.spans[0]) || acked == Max(l.bases[0], l.spans[0].sure))
    && (!l.spans[|l.spans| - 1].spoilt ==> l.spans[|l.spans| - 1].until == |h|)
    && acked <= |h|
  }

  // Where the next write of a running engine goes.
  ghost predicate WriterOk(d: Disk, s: Span)
    requires Present(d)
  {
    var bytes := Current(d).bytes;
    if Ready(d) then (if s.spoilt then |bytes| >= 24 else s.tail == [])
    else && (bytes == [] || d.offset == 0)
         && (if s.spoilt then |bytes| < 24 && Current(d).synced == 0
            else s.older == [] && s.from == s.until && s.tail == [])
  }

  ghost predicate LiveOk(env: Env, y: Sys, l: Layout)
    requires Present(y.disk) && |l.bases| > 0 && |l.spans| > 0
  {
    && l.bases[0] <= Applied(y) && y.acked <= Applied(y)
    && (!y.poisoned ==>
         y.engine == EngineAt(env.cfg.window, y.history, |y.history|) && WriterOk(y.disk, l.spans[|l.spans| - 1]))
  }

  ghost predicate Invariant(env: Env, y: Sys, l: Layout)
  {
    Lawful(env.cfg.window, y.history) && DiskOk(env, y.history, y.acked, y.disk, l) && (y.up ==> LiveOk(env, y, l))
  }

  lemma DiskParts(env: Env, h: seq<seq<Record>>, acked: nat, d: Disk, l: Layout)
    requires DiskOk(env, h, acked, d, l)
    ensures SnapsOk(env, h, d.snaps, l.bases) && Present(d) && |l.spans| == |d.logs|
    ensures LogFits(env, h, acked, l.bases[0], Current(d), l.spans[|l.spans| - 1])
    ensures !l.spans[|l.spans| - 1].spoilt ==> l.spans[|l.spans| - 1].until == |h|
  {}

  const START := Layout([0], [Span([], 0, 0, 0, [], false)])

  lemma CreatedOk(env: Env)
    ensures Invariant(env, Created(env), START)
  {
    var h: seq<seq<Record>> := [];
    assert h[0..0] == [] && h[..0] == [];
    assert Flatten([]) == [];
    NothingIsTorn(env.sum);
    assert Header(env.sum) + [] + [] == Header(env.sum) + [] == Header(env.sum);
    assert Kept(env, h, START.spans[0], 0) == Header(env.sum) + Frames(env.sum, []);
  }

  // ----------------------------------------------------------------- a longer history

  lemma SliceLonger<T>(h: seq<T>, more: seq<T>, i: nat, j: nat)
    requires i <= j <= |h|
    ensures (h + more)[i..j] == h[i..j]
  {}

  lemma SnapsLonger(env: Env, h: seq<seq<Record>>, rs: seq<Record>, snaps: seq<Option<Bytes>>, bases: seq<nat>)
    requires SnapsOk(env, h, snaps, bases)
    ensures SnapsOk(env, h + [rs], snaps, bases)
  {
    forall i | 0 <= i < |snaps| ensures SnapOk(env, h + [rs], snaps[i], bases[i]) {
      EngineInPrefix(env.cfg.window, h, [rs], bases[i]);
    }
  }

  lemma CoveredLonger(window: nat, h: seq<seq<Record>>, rs: seq<Record>, older: seq<seq<Record>>, from: nat)
    requires Covered(window, h, older, from)
    ensures Covered(window, h + [rs], older, from)
  {
    EngineInPrefix(window, h, [rs], from);
  }

  lemma KeptLonger(env: Env, h: seq<seq<Record>>, rs: seq<Record>, s: Span, k: nat)
    requires s.from <= k <= |h|
    ensures Kept(env, h + [rs], s, k) == Kept(env, h, s, k)
  {
    SliceLonger(h, [rs], s.from, k);
  }

  lemma LogLonger(env: Env, h: seq<seq<Record>>, rs: seq<Record>, log: Log, s: Span)
    requires LogOk(env, h, log, s)
    ensures LogOk(env, h + [rs], log, s)
  {
    KeptLonger(env, h, rs, s, s.from);
    KeptLonger(env, h, rs, s, s.sure);
    KeptLonger(env, h, rs, s, s.until);
    if !s.spoilt && log.bytes != [] { CoveredLonger(env.cfg.window, h, rs, s.older, s.from); }
  }

  lemma LogsLonger(env: Env, h: seq<seq<Record>>, rs: seq<Record>, acked: nat, base: nat, logs: seq<Log>,
      spans: seq<Span>)
    requires LogsFit(env, h, acked, base, logs, spans)
    ensures LogsFit(env, h + [rs], acked, base, logs, spans)
  {
    forall j | 0 <= j < |logs| ensures LogFits(env, h + [rs], acked, base, logs[j], spans[j]) {
      LogLonger(env, h, rs, logs[j], spans[j]);
    }
  }

  lemma LogsSnoc(env: Env, h: seq<seq<Record>>, acked: nat, base: nat, logs: seq<Log>, spans: seq<Span>, log: Log,
      s: Span)
    requires LogsFit(env, h, acked, base, logs, spans) && LogFits(env, h, acked, base, log, s)
    ensures LogsFit(env, h, acked, base, logs + [log], spans + [s])
  {}

  // One more whole frame, and what of it is synced.
  lemma KeptSnoc(env: Env, h: seq<seq<Record>>, rs: seq<Record>, s: Span)
    requires s.from <= |h|
    ensures Kept(env, h + [rs], s, |h| + 1) == Kept(env, h, s, |h|) + Frame(env.sum, rs)
  {
    assert (h + [rs])[s.from..|h| + 1] == h[s.from..|h|] + [rs];
    ConcatAssoc(s.older, h[s.from..|h|], [rs]);
    FramesAppend(env.sum, s.older + h[s.from..|h|], rs);
    ConcatAssoc(Header(env.sum), Frames(env.sum, s.older + h[s.from..|h|]), Frame(env.sum, rs));
  }

  lemma NothingBehind(b: Bytes)
    ensures b + [] == b
  {}

  lemma SyncedStays(env: Env, h: seq<seq<Record>>, rs: seq<Record>, log: Log, s: Span, log': Log, s': Span)
    requires s.from <= s.sure <= s.until == |h| && SyncedAt(env, h, log, s) && |log.bytes| == |Kept(env, h, s, |h|)|
    requires log'.synced == log.synced && s' == s.(until := |h| + 1)
    ensures SyncedAt(env, h + [rs], log', s')
  {
    KeptLonger(env, h, rs, s, s.from);
    KeptLonger(env, h, rs, s, s.sure);
    KeptAlike(env, h + [rs], s, s');
  }

  lemma KeptGrown(env: Env, h: seq<seq<Record>>, rs: seq<Record>, bytes: Bytes, s: Span, s': Span) returns (wal: Bytes)
    requires s.from <= s.until == |h| && Holds(env, h, bytes, s) && s.tail == []
    requires s' == s.(until := |h| + 1, sure := s'.sure)
    ensures wal == bytes + Frame(env.sum, rs) && |bytes| == |Kept(env, h, s, |h|)|
    ensures Holds(env, h + [rs], wal, s')
  {
    wal := bytes + Frame(env.sum, rs);
    NothingBehind(Kept(env, h, s, |h|));
    KeptSnoc(env, h, rs, s);
    NothingBehind(wal);
    KeptAlike(env, h + [rs], s, s');
    CoveredLonger(env.cfg.window, h, rs, s.older, s.from);
  }

  lemma HoldsIsOk(env: Env, h: seq<seq<Record>>, log: Log, s: Span)
    requires s.from <= s.sure <= s.until <= |h| && !s.spoilt && log.synced <= |log.bytes|
    requires Holds(env, h, log.bytes, s) && SyncedAt(env, h, log, s)
    ensures LogOk(env, h, log, s)
  {}

  lemma OkHolds(env: Env, h: seq<seq<Record>>, log: Log, s: Span)
    requires LogOk(env, h, log, s) && !s.spoilt && log.bytes != []
    ensures s.from <= s.sure <= s.until <= |h| && log.synced <= |log.bytes|
    ensures Holds(env, h, log.bytes, s) && SyncedAt(env, h, log, s)
  {}

  lemma AllSynced(env: Env, h: seq<seq<Record>>, log: Log, s: Span)
    requires s.from <= s.sure == s.until <= |h| && log.synced == |log.bytes| >= 24
    ensures SyncedAt(env, h, log, s)
  {}

  // The log with one more frame, synced or not.
  lemma SyncedLog(env: Env, h: seq<seq<Record>>, rs: seq<Record>, log: Log, s: Span) returns (log': Log, s': Span)
    requires s.from <= s.sure <= s.until == |h| && !s.spoilt && s.tail == [] && Holds(env, h, log.bytes, s)
    ensures log'.bytes == log.bytes + Frame(env.sum, rs) && log'.synced == |log'.bytes|
    ensures s' == s.(until := |h| + 1, sure := |h| + 1) && LogOk(env, h + [rs], log', s')
  {
    s' := s.(until := |h| + 1, sure := |h| + 1);
    var wal := KeptGrown(env, h, rs, log.bytes, s, s');
    log' := Log(wal, |wal|);
    AllSynced(env, h + [rs], log', s');
    HoldsIsOk(env, h + [rs], log', s');
  }

  lemma UnsyncedLog(env: Env, h: seq<seq<Record>>, rs: seq<Record>, log: Log, s: Span) returns (log': Log, s': Span)
    requires s.from <= s.sure <= s.until == |h| && !s.spoilt && s.tail == [] && Holds(env, h, log.bytes, s)
    requires SyncedAt(env, h, log, s) && log.synced <= |log.bytes|
    ensures log'.bytes == log.bytes + Frame(env.sum, rs) && log'.synced == log.synced
    ensures s' == s.(until := |h| + 1) && LogOk(env, h + [rs], log', s')
  {
    s' := s.(until := |h| + 1);
    var wal := KeptGrown(env, h, rs, log.bytes, s, s');
    log' := Log(wal, log.synced);
    SyncedStays(env, h, rs, log, s, log', s');
    HoldsIsOk(env, h + [rs], log', s');
  }

  lemma KeptAlike(env: Env, h: seq<seq<Record>>, s: Span, s': Span)
    requires s'.from == s.from <= |h| && s'.older == s.older
    ensures forall k | s.from <= k <= |h| :: Kept(env, h, s', k) == Kept(env, h, s, k)
  {}

  // The log with part of a frame, not synced.
  lemma TornLog(env: Env, h: seq<seq<Record>>, log: Log, s: Span, part: Bytes) returns (log': Log, s': Span)
    requires s.from <= s.sure <= s.until <= |h| && !s.spoilt && s.tail == [] && Holds(env, h, log.bytes, s)
    requires SyncedAt(env, h, log, s) && log.synced <= |log.bytes| && Torn(env.sum, part)
    ensures log' == Log(log.bytes + part, log.synced) && s' == s.(tail := part) && LogOk(env, h, log', s')
  {
    log', s' := Log(log.bytes + part, log.synced), s.(tail := part);
    NothingBehind(Kept(env, h, s, s.until));
    KeptAlike(env, h, s, s');
    assert SyncedAt(env, h, log', s');
    HoldsIsOk(env, h, log', s');
  }

  // ------------------------------------------------------------- writing over a header

  lemma WrittenAtEnd(file: Bytes, data: Bytes)
    ensures Written(file, |file|, data) == file + data
  {}

  lemma FrameStart(sum: Checksum, rs: seq<Record>)
    requires FrameOk(rs) && rs != []
    ensures |Frame(sum, rs)| > 24 && Frame(sum, rs)[3] != MAGIC[3]
  {
    var n := |Payload(rs)|;
    assert |RecordsBytes(rs)| >= |RecordBytes(rs[0])|;
    var b := LittleEndian(4, n);
    assert Frame(sum, rs)[..4] == b;
    assert b == [n % 256] + LittleEndian(3, n / 256);
    assert LittleEndian(3, n / 256) == [n / 256 % 256] + LittleEndian(2, n / 256 / 256);
    assert LittleEndian(2, n / 256 / 256) == [n / 256 / 256 % 256] + LittleEndian(1, n / 256 / 256 / 256);
    assert b[3] == n / 256 / 256 / 256 % 256;
    assert n / 256 / 256 / 256 <= 4;
  }

  lemma {:induction false} ZerosAre(n: nat)
    ensures forall i | 0 <= i < n :: Zeros(n)[i] == 0
  {
    if n > 0 { ZerosAre(n - 1); }
  }

  lemma NotMagic(wal: Bytes, i: nat)
    requires i < 8 && i < |wal| && wal[i] != MAGIC[i]
    ensures Ruined(wal)
  {
    if |wal| >= 24 { assert wal[..8][i] != MAGIC[i]; }
  }

  lemma WrittenOver(file: Bytes, data: Bytes)
    requires data != []
    ensures var wal := Written(file, 0, data);
            && |wal| == Max(|file|, |data|) && (forall i | 0 <= i < |data| :: wal[i] == data[i])
            && forall i | |data| <= i < |file| :: wal[i] == file[i]
  {}

  lemma WrittenBehind(offset: nat, data: Bytes)
    requires offset > 0 && data != []
    ensures var wal := Written([], offset, data); |wal| == offset + |data| && wal[0] == 0
  {
    ZerosAre(offset);
  }

  // A whole frame that is written over a header, or behind a gap, leaves no log.
  lemma FrameRuins(sum: Checksum, file: Bytes, offset: nat, rs: seq<Record>)
    requires FrameOk(rs) && rs != [] && |file| <= 24 && (file == [] || offset == 0)
    ensures var wal := Written(file, offset, Frame(sum, rs));
              Ruined(wal) && |wal| >= 24 && |wal| == offset + |Frame(sum, rs)|
  {
    var frame := Frame(sum, rs);
    FrameStart(sum, rs);
    if offset == 0 {
      WrittenOver(file, frame);
      NotMagic(Written(file, offset, frame), 3);
    } else {
      WrittenBehind(offset, frame);
      NotMagic(Written(file, offset, frame), 0);
    }
  }

  // Part of one leaves no log either, or changes nothing.
  lemma PartRuins(sum: Checksum, file: Bytes, offset: nat, rs: seq<Record>, part: Bytes)
    requires FrameOk(rs) && rs != [] && part <= Frame(sum, rs) && (file == [] || offset == 0)
             && (|file| < 24 || file == Header(sum))
    ensures var wal := Written(file, offset, part); wal == file || Ruined(wal)
  {
    var wal := Written(file, offset, part);
    FrameStart(sum, rs);
    if part == [] {
    } else if offset > 0 {
      WrittenBehind(offset, part);
      NotMagic(wal, 0);
    } else {
      WrittenOver(file, part);
      if |part| > 3 {
        NotMagic(wal, 3);
      } else if |file| == 24 && wal != file {
        FewBytes(sum, file, part, wal);
      }
    }
  }

  lemma FewBytes(sum: Checksum, file: Bytes, part: Bytes, wal: Bytes)
    requires file == Header(sum) && |part| <= 3 && |wal| == |file| && wal != file
    requires forall i | |part| <= i < |file| :: wal[i] == file[i]
    ensures Ruined(wal)
  {
    var i :| 0 <= i < |wal| && wal[i] != file[i];
    assert file[..8] == MAGIC && file[..8][i] == MAGIC[i];
    NotMagic(wal, i);
  }

  lemma RuinedGrows(file: Bytes, data: Bytes)
    requires Ruined(file) && |file| >= 24
    ensures Ruined(file + data)
  {
    assert (file + data)[..8] == file[..8];
  }

  // ----------------------------------------------------------------- batches keep it

  lemma OneLog(env: Env, h: seq<seq<Record>>, acked: nat, d: Disk, l: Layout)
    requires SnapsOk(env, h, d.snaps, l.bases) && |d.logs| == |l.spans| == 1 && acked <= |h|
    requires LogFits(env, h, acked, l.bases[0], d.logs[0], l.spans[0])
    requires Lost(d.logs[0], l.spans[0]) || acked == Max(l.bases[0], l.spans[0].sure)
    requires !l.spans[0].spoilt ==> l.spans[0].until == |h|
    ensures DiskOk(env, h, acked, d, l)
  {}

  lemma LastOf<T>(a: seq<T>, x: T)
    ensures |a + [x]| == |a| + 1 && (a + [x])[|a|] == x && (a != [] ==> (a + [x])[0] == a[0])
  {}

  // One more log that a crash may leave, beside a history that may be longer.
  lemma MoreLogs(env: Env, h: seq<seq<Record>>, h': seq<seq<Record>>, acked: nat, d: Disk, l: Layout, log: Log, s: Span,
      d': Disk) returns (l': Layout)
    requires DiskOk(env, h, acked, d, l) && |h| <= |h'| && SnapsOk(env, h', d.snaps, l.bases)
    requires LogsFit(env, h', acked, l.bases[0], d.logs, l.spans) && LogFits(env, h', acked, l.bases[0], log, s)
    requires !s.spoilt ==> s.until == |h'|
    requires d'.snaps == d.snaps && d'.logs == d.logs + [log]
    ensures l' == Layout(l.bases, l.spans + [s]) && DiskOk(env, h', acked, d', l')
  {
    l' := Layout(l.bases, l.spans + [s]);
    LogsSnoc(env, h', acked, l.bases[0], d.logs, l.spans, log, s);
    LastOf(d.logs, log);
    LastOf(l.spans, s);
  }

  const SPOILT := Span([], 0, 0, 0, [], true)

  lemma SpoiltFits(env: Env, h: seq<seq<Record>>, acked: nat, base: nat, log: Log)
    requires Ruined(log.bytes) && log.synced <= |log.bytes| && (log.synced > 0 || acked <= base)
    ensures LogFits(env, h, acked, base, log, SPOILT)
  {}

  lemma AppliedAt(window: nat, h: seq<seq<Record>>, k: nat, e: Engine)
    requires Lawful(window, h) && k <= |h| && e.sequence == EngineAt(window, h, k).sequence
    ensures |Upto(h, e.sequence)| == k
  {
    UptoPoint(window, h, k);
  }

  lemma HistorySnoc(window: nat, h: seq<seq<Record>>, rs: seq<Record>, e: Engine)
    requires Lawful(window, h) && e == EngineAt(window, h, |h|) && Follows(window, e, rs)
    ensures Lawful(window, h + [rs])
    ensures EngineAt(window, h + [rs], |h| + 1) == ApplyAll(window, e, rs) && EngineAt(window, h + [rs], |h|) == e
  {
    LawfulSnoc(window, h, rs);
    EngineInPrefix(window, h, [rs], |h|);
    EngineStep(window, h + [rs], |h|);
  }

  lemma SyncedDisk(env: Env, y: Sys, l: Layout, rs: seq<Record>) returns (d': Disk, l': Layout)
    requires DiskOk(env, y.history, y.acked, y.disk, l) && FrameOk(rs) && rs != []
    requires Present(y.disk) && WriterOk(y.disk, l.spans[|l.spans| - 1])
    ensures d' == Synced(y.disk, Frame(env.sum, rs)) && DiskOk(env, y.history + [rs], |y.history| + 1, d', l')
    ensures Present(d') && |l'.spans| == 1 && WriterOk(d', l'.spans[0]) && l'.bases == l.bases && |l.bases| > 0
    ensures l'.spans[0].spoilt <==> l.spans[|l.spans| - 1].spoilt || !Ready(y.disk)
  {
    var h, d, log, s := y.history, y.disk, Current(y.disk), l.spans[|l.spans| - 1];
    var frame := Frame(env.sum, rs);
    d' := Synced(d, frame);
    SnapsLonger(env, h, rs, d.snaps, l.bases);
    FrameStart(env.sum, rs);
    if Ready(d) && !s.spoilt {
      OkHolds(env, h, log, s);
      var log', s' := SyncedLog(env, h, rs, log, s);
      WrittenAtEnd(log.bytes, frame);
      l' := Layout(l.bases, [s']);
    } else {
      SpoiltWrite(env, y, l, rs);
      SpoiltFits(env, h + [rs], |h| + 1, l.bases[0], d'.logs[0]);
      l' := Layout(l.bases, [SPOILT]);
    }
    OneLog(env, h + [rs], |h| + 1, d', l');
  }

  lemma SpoiltWrite(env: Env, y: Sys, l: Layout, rs: seq<Record>)
    requires DiskOk(env, y.history, y.acked, y.disk, l) && FrameOk(rs) && rs != []
    requires Present(y.disk) && WriterOk(y.disk, l.spans[|l.spans| - 1])
    requires !Ready(y.disk) || l.spans[|l.spans| - 1].spoilt
    ensures var wal := Written(Current(y.disk).bytes, y.disk.offset, Frame(env.sum, rs));
            Ruined(wal) && |wal| >= 24 && |wal| == y.disk.offset + |Frame(env.sum, rs)|
  {
    var log, s := Current(y.disk), l.spans[|l.spans| - 1];
    assert LogFits(env, y.history, y.acked, l.bases[0], log, s);
    if Ready(y.disk) {
      WrittenAtEnd(log.bytes, Frame(env.sum, rs));
      RuinedGrows(log.bytes, Frame(env.sum, rs));
    } else {
      if !s.spoilt { HeaderOnly(env, y.history, log, s); }
      FrameRuins(env.sum, log.bytes, y.disk.offset, rs);
    }
  }

  lemma HeaderOnly(env: Env, h: seq<seq<Record>>, log: Log, s: Span)
    requires LogOk(env, h, log, s) && !s.spoilt && s.older == [] && s.from == s.until && s.tail == []
    ensures log.bytes == [] || log.bytes == Header(env.sum)
  {
    if log.bytes != [] {
      assert [] + h[s.from..s.from] == [];
      assert Kept(env, h, s, s.until) == Header(env.sum) + Frames(env.sum, []);
      assert Header(env.sum) + [] + [] == Header(env.sum);
    }
  }

  lemma SyncedKeeps(env: Env, y: Sys, l: Layout, rs: seq<Record>, y': Sys) returns (l': Layout)
    requires Invariant(env, y, l) && y.up && !y.poisoned && Follows(env.cfg.window, y.engine, rs) && Present(y.disk)
    requires y'
             == Sys(ApplyAll(env.cfg.window, y.engine, rs), true, false, Synced(y.disk, Frame(env.sum, rs)),
             y.history + [rs], |y.history| + 1)
    ensures Invariant(env, y', l') && |l.spans| > 0 && |l'.spans| == 1 && l'.bases == l.bases
    ensures l'.spans[0].spoilt <==> l.spans[|l.spans| - 1].spoilt || !Ready(y.disk)
  {
    var w, d' := env.cfg.window, y'.disk;
    HistorySnoc(w, y.history, rs, y.engine);
    AppliedAt(w, y'.history, |y'.history|, y'.engine);
    d', l' := SyncedDisk(env, y, l, rs);
  }

  // A failed append: which log it may leave.
  lemma FailedLog(env: Env, y: Sys, l: Layout, rs: seq<Record>, part: Bytes)
      returns (h': seq<seq<Record>>, log': Log, s': Span)
    requires DiskOk(env, y.history, y.acked, y.disk, l) && FrameOk(rs) && rs != [] && part <= Frame(env.sum, rs)
    requires Present(y.disk) && WriterOk(y.disk, l.spans[|l.spans| - 1])
    ensures h' == if Ready(y.disk) && part == Frame(env.sum, rs) then y.history + [rs] else y.history
    ensures log' == Log(Written(Current(y.disk).bytes, y.disk.offset, part), Min(Current(y.disk).synced, y.disk.offset))
    ensures LogFits(env, h', y.acked, l.bases[0], log', s') && (!s'.spoilt ==> s'.until == |h'|)
  {
    var d, log, s := y.disk, Current(y.disk), l.spans[|l.spans| - 1];
    assert LogFits(env, y.history, y.acked, l.bases[0], log, s);
    h' := if Ready(d) && part == Frame(env.sum, rs) then y.history + [rs] else y.history;
    log' := Log(Written(log.bytes, d.offset, part), Min(log.synced, d.offset));
    if Ready(d) {
      WrittenAtEnd(log.bytes, part);
      if s.spoilt {
        RuinedGrows(log.bytes, part);
        s' := SPOILT;
        SpoiltFits(env, h', y.acked, l.bases[0], log');
      } else {
        s' := FailedSound(env, y.history, rs, log, s, part, log', h');
      }
    } else {
      s' := FailedStart(env, y, l, rs, part, log');
    }
  }

  lemma FailedSound(env: Env, h: seq<seq<Record>>, rs: seq<Record>, log: Log, s: Span, part: Bytes, log': Log,
      h': seq<seq<Record>>) returns (s': Span)
    requires LogOk(env, h, log, s) && !s.spoilt && log.bytes != [] && s.tail == [] && s.until == |h| && FrameOk(rs)
             && part <= Frame(env.sum, rs)
    requires log' == Log(log.bytes + part, log.synced) && h' == if part == Frame(env.sum, rs) then h + [rs] else h
    ensures LogOk(env, h', log', s') && s'.from == s.from && s'.sure == s.sure && !s'.spoilt && s'.until == |h'|
  {
    OkHolds(env, h, log, s);
    var log'';
    if part == Frame(env.sum, rs) {
      log'', s' := UnsyncedLog(env, h, rs, log, s);
    } else {
      assert part < Frame(env.sum, rs);
      log'', s' := TornLog(env, h, log, s, part);
    }
  }

  lemma FailedStart(env: Env, y: Sys, l: Layout, rs: seq<Record>, part: Bytes, log': Log) returns (s': Span)
    requires DiskOk(env, y.history, y.acked, y.disk, l) && FrameOk(rs) && rs != [] && part <= Frame(env.sum, rs)
    requires Present(y.disk) && WriterOk(y.disk, l.spans[|l.spans| - 1]) && !Ready(y.disk)
    requires log'
             == Log(Written(Current(y.disk).bytes, y.disk.offset, part), Min(Current(y.disk).synced, y.disk.offset))
    ensures LogFits(env, y.history, y.acked, l.bases[0], log', s') && (!s'.spoilt ==> s'.until == |y.history|)
  {
    var log, s := Current(y.disk), l.spans[|l.spans| - 1];
    assert LogFits(env, y.history, y.acked, l.bases[0], log, s);
    assert log'.synced == 0 && y.acked <= l.bases[0];
    if !s.spoilt { HeaderOnly(env, y.history, log, s); }
    PartRuins(env.sum, log.bytes, y.disk.offset, rs, part);
    if Ruined(log'.bytes) {
      s' := SPOILT;
      SpoiltFits(env, y.history, y.acked, l.bases[0], log');
    } else {
      s' := s;
    }
  }

  lemma FailedKeeps(env: Env, y: Sys, l: Layout, rs: seq<Record>, part: Bytes, left: Engine, y': Sys)
      returns (l': Layout)
    requires Invariant(env, y, l) && y.up && !y.poisoned && Follows(env.cfg.window, y.engine, rs)
             && part <= Frame(env.sum, rs)
    requires left.sequence == y.engine.sequence && Present(y.disk)
    requires y' == Sys(left, true, true, Unsynced(y.disk, part),
                       if Ready(y.disk) && part == Frame(env.sum, rs) then y.history + [rs] else y.history, y.acked)
    ensures Invariant(env, y', l')
  {
    var w, h := env.cfg.window, y.history;
    var h', log', s' := FailedLog(env, y, l, rs, part);
    HistorySnoc(w, h, rs, y.engine);
    AppliedAt(w, h', |h|, left);
    SnapsLonger(env, h, rs, y.disk.snaps, l.bases);
    LogsLonger(env, h, rs, y.acked, l.bases[0], y.disk.logs, l.spans);
    l' := MoreLogs(env, h, h', y.acked, y.disk, l, log', s', y'.disk);
  }

  lemma GoodNow(env: Env, y: Sys, l: Layout)
    requires Invariant(env, y, l) && y.up && !y.poisoned
    ensures Good(env.cfg.window, y.engine)
  {
    GoodAt(env.cfg.window, y.history, |y.history|);
  }

  lemma SubmitFollows(env: Env, e: Engine, cs: seq<Command>) returns (rs: seq<Record>)
    requires env.cfg.window > 0 && Good(env.cfg.window, e) && Admitted(env.cfg, e, cs)
    requires FrameOk(StageAll(e, cs).records) && StageAll(e, cs).records != []
    ensures rs == StageAll(e, cs).records && Follows(env.cfg.window, e, rs)
    ensures ApplyAll(env.cfg.window, e.(slots := StageAll(e, cs).slots), rs) == ApplyAll(env.cfg.window, e, rs)
  {
    rs := StageAll(e, cs).records;
    BatchGood(env.cfg.window, e, cs);
    BatchIsItsReplay(env.cfg.window, e, cs);
  }

  lemma OversizedKeeps(env: Env, y: Sys, l: Layout, left: Engine)
    requires Invariant(env, y, l) && y.up && left.sequence == y.engine.sequence
    ensures Invariant(env, y.(engine := left, poisoned := true), l)
  {}

  lemma PartIsPrefix(storage: Storage, frame: Bytes)
    ensures PartWritten(storage, frame) <= frame
  {}

  lemma AppendKeeps(env: Env, y: Sys, l: Layout, st: Staging, storage: Storage) returns (l': Layout)
    requires Invariant(env, y, l) && y.up && !y.poisoned && Present(y.disk) && |Payload(st.records)| <= MAX_FRAME_BYTES
    requires Follows(env.cfg.window, y.engine, st.records)
    requires ApplyAll(env.cfg.window, y.engine.(slots := st.slots), st.records)
             == ApplyAll(env.cfg.window, y.engine, st.records)
    ensures Invariant(env, AfterAppend(env, y, st, storage), l')
  {
    var y', rs := AfterAppend(env, y, st, storage), st.records;
    if storage.Works? {
      l' := SyncedKeeps(env, y, l, rs, y');
    } else {
      PartIsPrefix(storage, Frame(env.sum, rs));
      l' := FailedKeeps(env, y, l, rs, PartWritten(storage, Frame(env.sum, rs)), y.engine.(slots := st.slots), y');
    }
  }

  lemma SubmitKeeps(env: Env, y: Sys, l: Layout, cs: seq<Command>, storage: Storage) returns (l': Layout)
    requires env.cfg.window > 0 && Invariant(env, y, l) && y.up && !y.poisoned && Present(y.disk)
             && Sized(env, y, Submit(cs, storage))
    ensures Invariant(env, AfterSubmit(env, y, cs, storage), l')
  {
    var st := StageAll(y.engine, cs);
    l' := l;
    if Admitted(env.cfg, y.engine, cs) && st.records != [] {
      if |Payload(st.records)| > MAX_FRAME_BYTES {
        OversizedKeeps(env, y, l, y.engine.(slots := st.slots));
      } else {
        GoodNow(env, y, l);
        var rs := SubmitFollows(env, y.engine, cs);
        l' := AppendKeeps(env, y, l, st, storage);
      }
    }
  }

  // --------------------------------------------------------------- snapshots keep it

  lemma ImageIsRestored(env: Env, e: Engine, ids: seq<AccountID>)
    requires Good(env.cfg.window, e) && Numbers(ids, e.slots) && forall id <- e.order :: id in e.results
    requires var img := ImageOf(env.cfg.window, e, ids); Snap.ImageFits(img) && |env.digest(Snap.Body(img))| == 32
    ensures Restored(env, Some(Snap.Encode(env.digest, ImageOf(env.cfg.window, e, ids)))) == Some(e)
  {
    ImageIsOrdered(env.cfg.window, e, ids);
    Snap.ImageRoundTrip(env.digest, ImageOf(env.cfg.window, e, ids));
    ImageRestores(env.cfg.window, e, ids);
  }

  // A higher base keeps what every log promises.
  lemma LogsCovered(env: Env, h: seq<seq<Record>>, acked: nat, base: nat, n: nat, logs: seq<Log>, spans: seq<Span>)
    requires LogsFit(env, h, acked, base, logs, spans) && base <= n
    ensures LogsFit(env, h, Max(acked, n), n, logs, spans)
  {
    forall j | 0 <= j < |logs| ensures LogFits(env, h, Max(acked, n), n, logs[j], spans[j]) {
      assert LogFits(env, h, acked, base, logs[j], spans[j]);
    }
  }

  lemma RenamedDisk(env: Env, h: seq<seq<Record>>, acked: nat, d: Disk, l: Layout, snap: Option<Bytes>, n: nat,
      d': Disk, l': Layout)
    requires DiskOk(env, h, acked, d, l) && SnapOk(env, h, snap, n) && l.bases[0] <= n
    requires d' == d.(snaps := d.snaps + [snap]) && l' == l.(bases := l.bases + [n])
    ensures DiskOk(env, h, acked, d', l') && l'.bases[0] == l.bases[0]
  {
    LastOf(d.snaps, snap);
    LastOf(l.bases, n);
    forall i | 0 <= i < |d'.snaps| ensures SnapOk(env, h, d'.snaps[i], l'.bases[i]) && l'.bases[0] <= l'.bases[i] {
      if i < |d.snaps| { assert SnapOk(env, h, d.snaps[i], l.bases[i]); }
    }
  }

  // The new snapshot is the only one, and nothing it holds can be lost.
  lemma DirectoryDisk(env: Env, h: seq<seq<Record>>, acked: nat, d: Disk, l: Layout, snap: Option<Bytes>, n: nat,
      d': Disk, l': Layout)
    requires DiskOk(env, h, acked, d, l) && SnapOk(env, h, snap, n) && l.bases[0] <= n
    requires d' == d.(snaps := [snap]) && l' == l.(bases := [n])
    ensures DiskOk(env, h, Max(acked, n), d', l')
  {
    LogsCovered(env, h, acked, l.bases[0], n, d.logs, l.spans);
  }

  lemma HeaderLog(env: Env, h: seq<seq<Record>>, log: Log, s: Span)
    requires s == Span([], |h|, |h|, |h|, [], false) && log.bytes == Header(env.sum)
             && (log.synced == 0 || log.synced == 24)
    ensures LogOk(env, h, log, s)
  {
    assert h[|h|..|h|] == [] && [] + [] == h[|h|..|h|];
    assert Kept(env, h, s, |h|) == Header(env.sum) + Frames(env.sum, []);
    assert Header(env.sum) + [] == Header(env.sum) && Header(env.sum) + [] + [] == Header(env.sum);
    assert Flatten([]) == [];
    NothingIsTorn(env.sum);
  }

  // What a half reset log is: empty, a whole header, or part of one.
  lemma HalfReset(env: Env, h: seq<seq<Record>>, acked: nat, stopAfter: nat, part: nat) returns (log: Log, s: Span)
    requires 3 <= stopAfter <= 5 && acked <= |h|
    ensures log == Log(HeaderPart(env, stopAfter, part), 0) && LogFits(env, h, acked, |h|, log, s)
    ensures s == SPOILT || s == Span([], |h|, |h|, |h|, [], false)
    ensures s.spoilt ==> |log.bytes| < 24
    ensures stopAfter == 3 ==> log.bytes == []
  {
    log := Log(HeaderPart(env, stopAfter, part), 0);
    if log.bytes == [] {
      s := Span([], |h|, |h|, |h|, [], false);
    } else if |log.bytes| < 24 {
      s := SPOILT;
      SpoiltFits(env, h, acked, |h|, log);
    } else {
      s := Span([], |h|, |h|, |h|, [], false);
      HeaderLog(env, h, log, s);
    }
  }

  // Other snapshots beside the same logs.
  lemma SameLogs(env: Env, y: Sys, l: Layout, y': Sys, l': Layout)
    requires Present(y.disk) && |l.bases| > 0 && |l.spans| > 0 && LiveOk(env, y, l)
    requires y'.engine == y.engine && y'.poisoned == y.poisoned && y'.history == y.history
    requires y'.disk.logs == y.disk.logs && y'.disk.offset == y.disk.offset && l'.spans == l.spans
    requires Present(y'.disk) && |l'.bases| > 0 && l'.bases[0] <= Applied(y) && y'.acked <= Applied(y)
    ensures LiveOk(env, y', l')
  {}

  lemma RenameKeeps(env: Env, y: Sys, l: Layout, bytes: Bytes, y': Sys, n: nat) returns (l': Layout)
    requires Invariant(env, y, l) && y.up && n == Applied(y) && SnapOk(env, y.history, Some(bytes), n)
    requires y' == y.(disk := y.disk.(snaps := y.disk.snaps + [Some(bytes)]))
    ensures Invariant(env, y', l')
  {
    var d' := y.disk.(snaps := y.disk.snaps + [Some(bytes)]);
    l' := l.(bases := l.bases + [n]);
    RenamedDisk(env, y.history, y.acked, y.disk, l, Some(bytes), n, d', l');
    SameLogs(env, y, l, y', l');
  }

  lemma DirectoryKeeps(env: Env, y: Sys, l: Layout, bytes: Bytes, y': Sys, n: nat) returns (l': Layout)
    requires Invariant(env, y, l) && y.up && n == Applied(y) && SnapOk(env, y.history, Some(bytes), n)
    requires y' == y.(disk := y.disk.(snaps := [Some(bytes)]), acked := Max(y.acked, n))
    ensures Invariant(env, y', l') && l' == l.(bases := [n])
  {
    var d' := y.disk.(snaps := [Some(bytes)]);
    l' := l.(bases := [n]);
    DirectoryDisk(env, y.history, y.acked, y.disk, l, Some(bytes), n, d', l');
    SameLogs(env, y, l, y', l');
  }

  lemma HalfResetState(env: Env, y: Sys, bytes: Bytes, stopAfter: nat, part: nat, n: nat, log: Log) returns (y': Sys)
    requires Present(y.disk) && 3 <= stopAfter <= 5 && n == Applied(y)
             && log == Log(HeaderPart(env, stopAfter, part), 0)
    ensures y' == AfterSnapshot(env, y, bytes, stopAfter, part) && y'.acked == Max(y.acked, n)
    ensures y'.engine == y.engine && y'.up == y.up && y'.poisoned == y.poisoned && y'.history == y.history
    ensures y'.disk.snaps == [Some(bytes)] && y'.disk.logs == y.disk.logs + [log] && Present(y'.disk)
            && Current(y'.disk) == log
    ensures y'.disk.offset == if stopAfter == 3 then y.disk.offset else 0
  {
    y' := AfterSnapshot(env, y, bytes, stopAfter, part);
    LastOf(y.disk.logs, log);
  }

  lemma HalfResetDisk(env: Env, h: seq<seq<Record>>, acked: nat, d: Disk, l: Layout, snap: Option<Bytes>, log: Log,
      s: Span, d': Disk) returns (l': Layout)
    requires DiskOk(env, h, acked, d, l) && SnapOk(env, h, snap, |h|) && LogFits(env, h, |h|, |h|, log, s)
             && (!s.spoilt ==> s.until == |h|)
    requires d'.snaps == [snap] && d'.logs == d.logs + [log]
    ensures l' == Layout([|h|], l.spans + [s]) && DiskOk(env, h, |h|, d', l')
  {
    var d1, l1 := d.(snaps := [snap]), l.(bases := [|h|]);
    DirectoryDisk(env, h, acked, d, l, snap, |h|, d1, l1);
    l' := MoreLogs(env, h, h, |h|, d1, l1, log, s, d');
  }

  lemma HalfResetKeeps(env: Env, y: Sys, l: Layout, bytes: Bytes, stopAfter: nat, part: nat) returns (l': Layout)
    requires Invariant(env, y, l) && y.up && SnapOk(env, y.history, Some(bytes), |y.history|)
             && Applied(y) == |y.history|
    requires 3 <= stopAfter <= 5 && Present(y.disk)
    ensures Invariant(env, AfterSnapshot(env, y, bytes, stopAfter, part), l')
  {
    var n := |y.history|;
    var log, s := HalfReset(env, y.history, n, stopAfter, part);
    var y' := HalfResetState(env, y, bytes, stopAfter, part, n, log);
    l' := HalfResetDisk(env, y.history, y.acked, y.disk, l, Some(bytes), log, s, y'.disk);
    LastOf(l.spans, s);
    HalfResetLive(env, y, y', l', log, s);
  }

  lemma HalfResetLive(env: Env, y: Sys, y': Sys, l: Layout, log: Log, s: Span)
    requires !y.poisoned ==> y.engine == EngineAt(env.cfg.window, y.history, |y.history|)
    requires Applied(y) == |y.history| && y'.acked <= |y.history|
    requires y'.engine == y.engine && y'.poisoned == y.poisoned && y'.history == y.history
    requires Present(y'.disk) && Current(y'.disk) == log && log.synced == 0 && (log.bytes == [] || y'.disk.offset == 0)
    requires |l.bases| == 1 && l.bases[0] == |y.history| && |l.spans| > 0 && l.spans[|l.spans| - 1] == s
    requires if s.spoilt then |log.bytes| < 24 else s.older == [] && s.from == s.until && s.tail == []
    ensures LiveOk(env, y', l)
  {}

  lemma PrefixPoint(window: nat, h: seq<seq<Record>>, n: nat)
    requires Lawful(window, h) && n <= |h|
    ensures Lawful(window, h[..n]) && EngineAt(window, h[..n], n) == EngineAt(window, h, n)
  {
    LawfulPrefix(window, h, n);
    EngineOfPrefix(window, h, n, n);
  }

  lemma ResetDisk(env: Env, h: seq<seq<Record>>, snap: Option<Bytes>, d: Disk, l: Layout)
    requires SnapOk(env, h, snap, |h|) && d.snaps == [snap] && d.logs == [Log(Header(env.sum), 24)]
    requires l == Layout([|h|], [Span([], |h|, |h|, |h|, [], false)])
    ensures DiskOk(env, h, |h|, d, l)
  {
    HeaderLog(env, h, d.logs[0], l.spans[0]);
    OneLog(env, h, |h|, d, l);
  }

  lemma ResetState(env: Env, y: Sys, bytes: Bytes, stopAfter: nat, part: nat, n: nat) returns (y': Sys)
    requires Present(y.disk) && stopAfter > 5 && n == Applied(y)
    ensures y' == AfterSnapshot(env, y, bytes, stopAfter, part) && y'.history == y.history[..n]
            && y'.acked == n <= |y.history|
    ensures y'.engine == y.engine && y'.up == y.up && y'.poisoned == y.poisoned
    ensures y'.disk.snaps == [Some(bytes)] && y'.disk.logs == [Log(Header(env.sum), 24)]
            && (y'.disk.offset == 0 || y'.disk.offset == 24)
  {
    y' := AfterSnapshot(env, y, bytes, stopAfter, part);
    assert Upto(y.history, y.engine.sequence) == y.history[..n];
  }

  lemma ResetKeeps(env: Env, y: Sys, l: Layout, bytes: Bytes, stopAfter: nat, part: nat) returns (l': Layout)
    requires Invariant(env, y, l) && y.up && Present(y.disk) && stopAfter > 5
    requires Restored(env, Some(bytes)) == Some(y.engine) && y.engine == EngineAt(env.cfg.window, y.history, Applied(y))
    ensures Invariant(env, AfterSnapshot(env, y, bytes, stopAfter, part), l')
  {
    var w, n := env.cfg.window, Applied(y);
    var y' := ResetState(env, y, bytes, stopAfter, part, n);
    PrefixPoint(w, y.history, n);
    l' := Layout([n], [Span([], n, n, n, [], false)]);
    ResetDisk(env, y'.history, Some(bytes), y'.disk, l');
    AppliedAt(w, y'.history, n, y.engine);
  }

  lemma SnapshotKeeps(env: Env, y: Sys, l: Layout, bytes: Bytes, stopAfter: nat, part: nat) returns (l': Layout)
    requires Invariant(env, y, l) && y.up && Present(y.disk)
    requires Restored(env, Some(bytes)) == Some(y.engine) && y.engine == EngineAt(env.cfg.window, y.history, Applied(y))
    requires Applied(y) < |y.history| ==> !(3 <= stopAfter <= 5)
    ensures Invariant(env, AfterSnapshot(env, y, bytes, stopAfter, part), l')
  {
    var y' := AfterSnapshot(env, y, bytes, stopAfter, part);
    l' := l;
    if stopAfter == 1 {
      l' := RenameKeeps(env, y, l, bytes, y', Applied(y));
    } else if stopAfter == 2 {
      l' := DirectoryKeeps(env, y, l, bytes, y', Applied(y));
    } else if 3 <= stopAfter <= 5 {
      l' := HalfResetKeeps(env, y, l, bytes, stopAfter, part);
    } else if stopAfter > 5 {
      l' := ResetKeeps(env, y, l, bytes, stopAfter, part);
    }
  }

  lemma SnapshotEventKeeps(env: Env, y: Sys, l: Layout, e: Event) returns (l': Layout)
    requires Invariant(env, y, l) && e.TakeSnapshot? && Sized(env, y, e) && Faithful(env, y, e)
    ensures Invariant(env, Next(env, y, e), l')
  {
    l' := l;
    DiskParts(env, y.history, y.acked, y.disk, l);
    if y.up && Takes(y, e.ids) {
      var n := Applied(y);
      if !y.poisoned { AppliedAt(env.cfg.window, y.history, |y.history|, y.engine); }
      GoodAt(env.cfg.window, y.history, n);
      ImageIsRestored(env, y.engine, e.ids);
      l' := SnapshotKeeps(env, y, l, Snap.Encode(env.digest, ImageOf(env.cfg.window, y.engine, e.ids)), e.stopAfter,
          e.part);
    }
  }

  // --------------------------------------------------------------- reopening keeps it

  lemma LastSnap(env: Env, h: seq<seq<Record>>, snaps: seq<Option<Bytes>>, bases: seq<nat>) returns (b: nat)
    requires SnapsOk(env, h, snaps, bases)
    ensures SnapOk(env, h, snaps[|snaps| - 1], b) && bases[0] <= b
  {
    b := bases[|bases| - 1];
  }

  lemma HoldsRecovers(env: Env, h: seq<seq<Record>>, snap: Option<Bytes>, b: nat, wal: Bytes, s: Span, spare: Bytes)
    requires Lawful(env.cfg.window, h) && SnapOk(env, h, snap, b) && s.from <= s.until <= |h| && Holds(env, h, wal, s)
             && s.from <= b
    ensures Recover(env, snap, wal, spare)
            == Found(EngineAt(env.cfg.window, h, Max(b, s.until)), |Kept(env, h, s, s.until)|)
  {
    RecoverImage(env, h, snap, b, s.older, s.from, s.until, s.tail, spare);
  }

  function FoundIn(env: Env, h: seq<seq<Record>>, log: Log, s: Span): Found
    requires s.from <= s.until <= |h|
  {
    if s.spoilt then Unreadable
    else Found(EngineAt(env.cfg.window, h, |h|), if log.bytes == [] then 24 else |Kept(env, h, s, s.until)|)
  }

  lemma SpoiltGives(env: Env, h: seq<seq<Record>>, snap: Option<Bytes>, log: Log, s: Span, spare: Bytes)
    requires s.from <= s.until <= |h| && s.spoilt && Ruined(log.bytes)
    ensures Recover(env, snap, log.bytes, spare) == FoundIn(env, h, log, s)
  {
    RecoverRuined(env, snap, log.bytes, spare);
  }

  lemma BlankGives(env: Env, h: seq<seq<Record>>, snap: Option<Bytes>, b: nat, log: Log, s: Span, spare: Bytes)
    requires SnapOk(env, h, snap, b) && b == s.from == s.until == |h| && !s.spoilt && log.bytes == []
    ensures Recover(env, snap, log.bytes, spare) == FoundIn(env, h, log, s)
  {
    RecoverBlank(env, snap, EngineAt(env.cfg.window, h, b), spare);
  }

  lemma HoldsGives(env: Env, h: seq<seq<Record>>, snap: Option<Bytes>, b: nat, log: Log, s: Span, spare: Bytes)
    requires Lawful(env.cfg.window, h) && SnapOk(env, h, snap, b) && s.from <= s.until == |h| && s.from <= b
             && !s.spoilt
    requires Holds(env, h, log.bytes, s)
    ensures Recover(env, snap, log.bytes, spare) == FoundIn(env, h, log, s)
  {
    HoldsRecovers(env, h, snap, b, log.bytes, s, spare);
  }

  lemma FilesGive(env: Env, h: seq<seq<Record>>, snap: Option<Bytes>, b: nat, log: Log, s: Span, spare: Bytes)
    requires Lawful(env.cfg.window, h) && SnapOk(env, h, snap, b) && LogOk(env, h, log, s) && s.from <= b
             && (!s.spoilt ==> s.until == |h|)
    ensures Recover(env, snap, log.bytes, spare) == FoundIn(env, h, log, s)
  {
    if s.spoilt {
      SpoiltGives(env, h, snap, log, s, spare);
    } else if log.bytes == [] {
      BlankGives(env, h, snap, b, log, s, spare);
    } else {
      HoldsGives(env, h, snap, b, log, s, spare);
    }
  }

  // The files that are there give the engine after the whole history, unless the log is spoilt.
  lemma ReopenFinds(env: Env, y: Sys, l: Layout, spare: Bytes) returns (found: Found)
    requires Lawful(env.cfg.window, y.history) && DiskOk(env, y.history, y.acked, y.disk, l) && Present(y.disk)
    ensures found == Recover(env, y.disk.snaps[|y.disk.snaps| - 1], Current(y.disk).bytes, spare) && |l.spans| > 0
    ensures var s, log, h := l.spans[|l.spans| - 1], Current(y.disk), y.history;
            LogOk(env, h, log, s) && (!s.spoilt ==> s.until == |h|) && found == FoundIn(env, h, log, s)
  {
    DiskParts(env, y.history, y.acked, y.disk, l);
    var b := LastSnap(env, y.history, y.disk.snaps, l.bases);
    var snap := y.disk.snaps[|y.disk.snaps| - 1];
    found := Recover(env, snap, Current(y.disk).bytes, spare);
    FilesGive(env, y.history, snap, b, Current(y.disk), l.spans[|l.spans| - 1], spare);
  }

  // The log without its torn tail.
  lemma CutLog(env: Env, h: seq<seq<Record>>, log: Log, s: Span, keep: nat) returns (log': Log, s': Span)
    requires s.from <= s.sure <= s.until <= |h| && !s.spoilt && Holds(env, h, log.bytes, s) && SyncedAt(env, h, log, s)
    requires log.synced <= |log.bytes| && keep == |Kept(env, h, s, s.until)|
    ensures keep <= |log.bytes| && log' == Log(log.bytes[..keep], Min(log.synced, keep)) && s' == s.(tail := [])
    ensures LogOk(env, h, log', s') && |log'.bytes| == keep
  {
    var kept := Kept(env, h, s, s.until);
    assert (kept + s.tail)[..keep] == kept;
    log', s' := Log(kept, Min(log.synced, keep)), s.(tail := []);
    NothingBehind(kept);
    NothingIsTorn(env.sum);
    KeptAlike(env, h, s, s');
    SyncedCut(env, h, log, s, log', s');
    HoldsIsOk(env, h, log', s');
  }

  lemma {:induction false} FramesSplit(sum: Checksum, a: seq<seq<Record>>, b: seq<seq<Record>>)
    ensures Frames(sum, a + b) == Frames(sum, a) + Frames(sum, b)
    decreases |a|
  {
    if a == [] {
      assert a + b == b;
    } else {
      assert (a + b)[1..] == a[1..] + b;
      FramesSplit(sum, a[1..], b);
      ConcatAssoc(Frame(sum, a[0]), Frames(sum, a[1..]), Frames(sum, b));
    }
  }

  lemma KeptShorter(env: Env, h: seq<seq<Record>>, s: Span, i: nat, j: nat)
    requires s.from <= i <= j <= |h|
    ensures |Kept(env, h, s, i)| <= |Kept(env, h, s, j)|
  {
    assert s.older + h[s.from..j] == (s.older + h[s.from..i]) + h[i..j];
    FramesSplit(env.sum, s.older + h[s.from..i], h[i..j]);
  }

  lemma SyncedCut(env: Env, h: seq<seq<Record>>, log: Log, s: Span, log': Log, s': Span)
    requires s.from <= s.sure <= s.until <= |h| && SyncedAt(env, h, log, s) && log.synced <= |log.bytes|
             && s' == s.(tail := [])
    requires |log.bytes| >= |log'.bytes| == |Kept(env, h, s, s.until)| && log'.synced == Min(log.synced, |log'.bytes|)
    ensures SyncedAt(env, h, log', s')
  {
    KeptShorter(env, h, s, s.from, s.until);
    KeptShorter(env, h, s, s.sure, s.until);
    KeptAlike(env, h, s, s');
  }

  // The log as the process that has opened it goes on with it.
  lemma ReopenedLog(env: Env, h: seq<seq<Record>>, log: Log, s: Span, keep: nat) returns (log': Log, s': Span)
    requires LogOk(env, h, log, s) && !s.spoilt && s.until == |h| && keep == if log.bytes == [] then 24
             else |Kept(env, h, s, s.until)|
    ensures var wal := if log.bytes == [] then Header(env.sum) else log.bytes;
              keep <= |wal| && log' == Log(wal[..keep], Min(log.synced, keep))
    ensures |log'.bytes| == keep > 0 && LogOk(env, h, log', s') && !s'.spoilt && s'.tail == []
    ensures s'.from == s.from && s'.sure == s.sure && s'.until == |h|
  {
    if log.bytes == [] {
      log', s' := Log(Header(env.sum), 0), Span([], |h|, |h|, |h|, [], false);
      assert Header(env.sum)[..24] == Header(env.sum);
      HeaderLog(env, h, log', s');
    } else {
      OkHolds(env, h, log, s);
      log', s' := CutLog(env, h, log, s, keep);
    }
  }

  lemma ReopenedState(env: Env, y: Sys, e: Engine, keep: nat, log': Log) returns (y': Sys)
    requires Present(y.disk)
    requires var wal := if Current(y.disk).bytes == [] then Header(env.sum) else Current(y.disk).bytes;
             keep <= |wal| && log' == Log(wal[..keep], Min(Current(y.disk).synced, keep))
    ensures y' == Resumed(env, y, Found(e, keep)) && y'.history == y.history && y'.acked == y.acked && !y'.poisoned
            && y'.engine == e
    ensures y'.disk.snaps == y.disk.snaps && y'.disk.offset == keep && (y'.up <==> |e.slots| <= env.cfg.maxAccounts)
    ensures y'.disk.logs == if log'.bytes == Current(y.disk).bytes then y.disk.logs else y.disk.logs + [log']
  {
    y' := Resumed(env, y, Found(e, keep));
  }

  // Logs left as they are, beside the same snapshots.
  lemma SameDisk(env: Env, h: seq<seq<Record>>, acked: nat, d: Disk, l: Layout, d': Disk)
    requires DiskOk(env, h, acked, d, l) && d'.snaps == d.snaps && d'.logs == d.logs
    ensures DiskOk(env, h, acked, d', l)
  {}

  lemma ReopenedDisk(env: Env, h: seq<seq<Record>>, acked: nat, d: Disk, l: Layout, log': Log, s': Span, d': Disk)
      returns (l': Layout)
    requires DiskOk(env, h, acked, d, l) && Present(d) && !l.spans[|l.spans| - 1].spoilt
    requires LogOk(env, h, log', s') && !s'.spoilt && s'.until == |h| && s'.tail == [] && log'.bytes != []
    requires s'.from == l.spans[|l.spans| - 1].from && s'.sure == l.spans[|l.spans| - 1].sure
    requires log'.bytes == Current(d).bytes ==> l.spans[|l.spans| - 1].tail == []
    requires d'.snaps == d.snaps && d'.logs == if log'.bytes == Current(d).bytes then d.logs else d.logs + [log']
    ensures DiskOk(env, h, acked, d', l') && l'.bases == l.bases && |l'.spans| > 0
    ensures var s := l'.spans[|l'.spans| - 1];
              Present(d') && Current(d').bytes == log'.bytes && !s.spoilt && s.tail == []
  {
    var s, log := l.spans[|l.spans| - 1], Current(d);
    assert LogFits(env, h, acked, l.bases[0], log, s);
    if log'.bytes == log.bytes {
      l' := l;
      SameDisk(env, h, acked, d, l, d');
    } else {
      l' := MoreLogs(env, h, h, acked, d, l, log', s', d');
      LastOf(d.logs, log');
      LastOf(l.spans, s');
    }
  }

  lemma NoTail(env: Env, h: seq<seq<Record>>, log: Log, s: Span, kept: Bytes)
    requires LogOk(env, h, log, s) && !s.spoilt && kept == log.bytes != [] && |kept| == |Kept(env, h, s, s.until)|
    ensures s.tail == []
  {}

  lemma ReopenKeeps(env: Env, y: Sys, l: Layout, spare: Bytes) returns (l': Layout)
    requires Invariant(env, y, l) && Present(y.disk)
    ensures Invariant(env, AfterReopen(env, y, spare), l') && l'.bases == l.bases
  {
    var h, log, s := y.history, Current(y.disk), l.spans[|l.spans| - 1];
    var found := ReopenFinds(env, y, l, spare);
    if s.spoilt {
      l' := l;
    } else {
      var keep := found.keep;
      var log', s' := ReopenedLog(env, h, log, s, keep);
      var y' := ReopenedState(env, y, found.engine, keep, log');
      if log'.bytes == log.bytes { NoTail(env, h, log, s, log'.bytes); }
      l' := ReopenedDisk(env, h, y.acked, y.disk, l, log', s', y'.disk);
      AppliedAt(env.cfg.window, h, |h|, y'.engine);
    }
  }

  // ------------------------------------------------------------------ crashes keep it

  lemma SurvivesShape(log: Log, cut: nat) returns (c: nat)
    requires log.synced <= |log.bytes|
    ensures log.synced <= c <= |log.bytes| && Survives(log, cut) == log.bytes[..c] && |log.bytes[..c]| == c
  {
    c := if log.synced <= cut <= |log.bytes| then cut else |log.bytes|;
  }

  // How far the whole frames of a cut log reach, and the torn rest.
  lemma CutSpan(env: Env, h: seq<seq<Record>>, log: Log, s: Span, c: nat) returns (q: nat, rest: Bytes)
    requires s.from <= s.sure <= s.until <= |h| && Lawful(env.cfg.window, h) && Holds(env, h, log.bytes, s)
             && 24 <= c <= |log.bytes|
    ensures var fs := s.older + h[s.from..s.until];
            && q <= |fs| && Torn(env.sum, rest) && log.bytes[..c] == Header(env.sum) + Frames(env.sum, fs[..q]) + rest
            && forall m | 0 <= m <= |fs| && |Frames(env.sum, fs[..m])| <= c - 24 :: m <= q
  {
    var fs := s.older + h[s.from..s.until];
    SpanFits(env.cfg.window, h, s.older, s.from, s.until);
    ConcatAssoc(Header(env.sum), Frames(env.sum, fs), s.tail);
    TakePart(Header(env.sum), Frames(env.sum, fs) + s.tail, c);
    q, rest := CutFrames(env.sum, fs, s.tail, c - 24);
    if c == 24 { assert Frames(env.sum, fs[..q]) + rest == []; }
    ConcatAssoc(Header(env.sum), Frames(env.sum, fs[..q]), rest);
  }

  lemma FramesOfSpan(h: seq<seq<Record>>, s: Span, k: nat)
    requires s.from <= k <= s.until <= |h|
    ensures (s.older + h[s.from..s.until])[..|s.older| + k - s.from] == s.older + h[s.from..k]
  {
    assert h[s.from..s.until][..k - s.from] == h[s.from..k];
  }

  // What was synced survives.
  lemma SureSurvives(env: Env, h: seq<seq<Record>>, log: Log, s: Span, c: nat, q: nat)
    requires s.from <= s.sure <= s.until <= |h| && SyncedAt(env, h, log, s) && Holds(env, h, log.bytes, s)
             && log.synced <= c && 24 <= c
    requires var fs := s.older + h[s.from..s.until];
               q <= |fs| && forall m | 0 <= m <= |fs| && |Frames(env.sum, fs[..m])| <= c - 24 :: m <= q
    ensures s.sure == s.from || |s.older| + s.sure - s.from <= q
  {
    if s.sure > s.from {
      var m := |s.older| + s.sure - s.from;
      FramesOfSpan(h, s, s.sure);
      assert |Frames(env.sum, (s.older + h[s.from..s.until])[..m])| == |Kept(env, h, s, s.sure)| - 24;
    }
  }

  lemma {:induction false} FlattenPrefix(a: seq<seq<Record>>, q: nat)
    requires q <= |a|
    ensures Flatten(a[..q]) <= Flatten(a)
  {
    assert a == a[..q] + a[q..];
    FlattenAppend(a[..q], a[q..]);
  }

  ghost predicate NoneAbove(rs: seq<Record>, sequence: nat)
  {
    forall x | 0 <= x < |rs| :: rs[x].sequence <= sequence
  }

  lemma NoneAboveJoined(a: seq<Record>, b: seq<Record>, i: nat, j: nat, sequence: nat)
    requires NoneAbove(a, i) && NoneAbove(b, j) && i <= sequence && j <= sequence
    ensures NoneAbove(a + b, sequence)
  {}

  lemma SpanBelow(window: nat, h: seq<seq<Record>>, older: seq<seq<Record>>, from: nat, k: nat, b: nat)
    requires Lawful(window, h) && Covered(window, h, older, from) && from <= k <= b <= |h|
    ensures NoneAbove(Flatten(older + h[from..k]), EngineAt(window, h, b).sequence)
  {
    FlattenAppend(older, h[from..k]);
    SequencesBetween(window, h, from, k);
    SequenceMonotone(window, h, from, b);
    SequenceMonotone(window, h, k, b);
    NoneAboveJoined(Flatten(older), Flatten(h[from..k]), EngineAt(window, h, from).sequence,
        EngineAt(window, h, k).sequence,
                    EngineAt(window, h, b).sequence);
  }

  // Frames that do not reach beyond a snapshot are covered by it.
  lemma ShortIsCovered(window: nat, h: seq<seq<Record>>, s: Span, q: nat, b: nat)
    requires Lawful(window, h) && s.from <= s.until <= |h| && Covered(window, h, s.older, s.from) && s.from <= b <= |h|
    requires q <= |s.older| + s.until - s.from && q <= |s.older| + b - s.from
    ensures Covered(window, h, (s.older + h[s.from..s.until])[..q], b)
  {
    var k := if s.until < b then s.until else b;
    SpanFits(window, h, s.older, s.from, k);
    SpanBelow(window, h, s.older, s.from, k, b);
    ShorterCovered(window, h, s.older + h[s.from..k], q, b);
    SameFront(h, s, k, q);
  }

  lemma SameFront(h: seq<seq<Record>>, s: Span, k: nat, q: nat)
    requires s.from <= k <= s.until <= |h| && q <= |s.older| + k - s.from
    ensures (s.older + h[s.from..k])[..q] == (s.older + h[s.from..s.until])[..q]
  {}

  lemma ShorterCovered(window: nat, h: seq<seq<Record>>, fs: seq<seq<Record>>, q: nat, b: nat)
    requires q <= |fs| && b <= |h| && NoneAbove(Flatten(fs), EngineAt(window, h, b).sequence) && forall rs <- fs ::
               FrameOk(rs)
    ensures Covered(window, h, fs[..q], b)
  {
    FlattenPrefix(fs, q);
    forall rs <- fs[..q] ensures FrameOk(rs) { assert rs in fs; }
  }

  lemma CoveredPrefix(window: nat, h: seq<seq<Record>>, older: seq<seq<Record>>, from: nat, n: nat)
    requires Covered(window, h, older, from) && from <= n <= |h|
    ensures Covered(window, h[..n], older, from)
  {
    EngineOfPrefix(window, h, n, from);
  }

  // What a cut log holds, if it does not reach beyond the snapshot beside it, and if it does.
  lemma OlderHolds(env: Env, h: seq<seq<Record>>, older: seq<seq<Record>>, rest: Bytes, wal: Bytes, b: nat)
      returns (s': Span)
    requires b <= |h| && Covered(env.cfg.window, h, older, b) && Torn(env.sum, rest)
             && wal == Header(env.sum) + Frames(env.sum, older) + rest
    ensures s' == Span(older, b, b, b, rest, false) && Holds(env, h[..b], wal, s')
  {
    s' := Span(older, b, b, b, rest, false);
    CoveredPrefix(env.cfg.window, h, older, b, b);
    assert older + h[..b][b..b] == older;
  }

  lemma LongHolds(env: Env, h: seq<seq<Record>>, s: Span, q: nat, n: nat, rest: Bytes, wal: Bytes) returns (s': Span)
    requires s.from <= n <= s.until <= |h| && Covered(env.cfg.window, h, s.older, s.from) && Torn(env.sum, rest)
             && q == |s.older| + n - s.from
    requires wal == Header(env.sum) + Frames(env.sum, (s.older + h[s.from..s.until])[..q]) + rest
    ensures !s'.spoilt && s'.from == s.from && s'.until == s'.sure == n && Holds(env, h[..n], wal, s')
  {
    s' := Span(s.older, s.from, n, n, rest, false);
    FramesOfSpan(h, s, n);
    assert h[..n][s.from..n] == h[s.from..n];
    CoveredPrefix(env.cfg.window, h, s.older, s.from, n);
  }

  // What a cut log holds of a history that ends with it or with the snapshot beside it.
  lemma CutHolds(env: Env, h: seq<seq<Record>>, s: Span, q: nat, rest: Bytes, wal: Bytes, b: nat)
      returns (n: nat, s': Span)
    requires Lawful(env.cfg.window, h) && s.from <= s.until <= |h| && Covered(env.cfg.window, h, s.older, s.from)
             && s.from <= b <= |h|
    requires q <= |s.older| + s.until - s.from && Torn(env.sum, rest)
    requires wal == Header(env.sum) + Frames(env.sum, (s.older + h[s.from..s.until])[..q]) + rest
    ensures n == (if q <= |s.older| + b - s.from then b else s.from + q - |s.older|) && b <= n <= |h|
    ensures !s'.spoilt && s'.from <= s'.until == s'.sure == n && s'.from <= b && Holds(env, h[..n], wal, s')
  {
    if q <= |s.older| + b - s.from {
      n := b;
      ShortIsCovered(env.cfg.window, h, s, q, b);
      s' := OlderHolds(env, h, (s.older + h[s.from..s.until])[..q], rest, wal, b);
    } else {
      n := s.from + q - |s.older|;
      s' := LongHolds(env, h, s, q, n, rest, wal);
    }
  }

  lemma SnapInPrefix(env: Env, h: seq<seq<Record>>, snap: Option<Bytes>, b: nat, n: nat)
    requires SnapOk(env, h, snap, b) && b <= n <= |h|
    ensures SnapOk(env, h[..n], snap, b)
  {
    EngineOfPrefix(env.cfg.window, h, n, b);
  }

  // What a crash leaves: files of a prefix of the history that no durable batch is missing from, or
  // a log without its header.
  ghost predicate ImageOk(env: Env, h: seq<seq<Record>>, snap: Option<Bytes>, b: nat, wal: Bytes, s: Span, n: nat)
  {
    && b <= n <= |h| && SnapOk(env, h[..n], snap, b) && LogOk(env, h[..n], Log(wal, |wal|), s) && s.from <= b
    && (!s.spoilt ==> s.until == s.sure == n)
  }

  lemma SoundImage(env: Env, h: seq<seq<Record>>, acked: nat, base: nat, snap: Option<Bytes>, b: nat, log: Log, s: Span,
      c: nat) returns (n: nat, s': Span)
    requires Lawful(env.cfg.window, h) && SnapOk(env, h, snap, b) && base <= b && s.from <= base && !s.spoilt
             && acked <= Max(base, s.sure)
    requires s.from <= s.sure <= s.until <= |h| && Holds(env, h, log.bytes, s) && SyncedAt(env, h, log, s)
             && log.synced <= c && 24 <= c <= |log.bytes|
    ensures ImageOk(env, h, snap, b, log.bytes[..c], s', n) && acked <= n && !s'.spoilt
  {
    var q, rest := CutSpan(env, h, log, s, c);
    SureSurvives(env, h, log, s, c, q);
    n, s' := CutHolds(env, h, s, q, rest, log.bytes[..c], b);
    SnapInPrefix(env, h, snap, b, n);
    var log' := Log(log.bytes[..c], |log.bytes[..c]|);
    AllSynced(env, h[..n], log', s');
    HoldsIsOk(env, h[..n], log', s');
  }

  lemma CrashImage(env: Env, h: seq<seq<Record>>, acked: nat, base: nat, snap: Option<Bytes>, b: nat, log: Log, s: Span,
      cut: nat) returns (n: nat, s': Span)
    requires Lawful(env.cfg.window, h) && SnapOk(env, h, snap, b) && base <= b && LogFits(env, h, acked, base, log, s)
    ensures ImageOk(env, h, snap, b, Survives(log, cut), s', n)
    ensures s'.spoilt || acked <= n
    ensures s'.spoilt <==> Ruined(Survives(log, cut))
  {
    var c := SurvivesShape(log, cut);
    var wal := log.bytes[..c];
    n := b;
    SnapInPrefix(env, h, snap, b, b);
    if c == 0 {
      s' := Span([], b, b, b, [], false);
    } else if s.spoilt {
      s' := SPOILT;
      RuinedPrefix(log.bytes, c);
    } else if c < 24 {
      s' := SPOILT;
    } else {
      n, s' := SoundImage(env, h, acked, base, snap, b, log, s, c);
      HeadedStands(env, h[..n], wal, s');
    }
  }

  lemma HeadedStands(env: Env, h: seq<seq<Record>>, wal: Bytes, s: Span)
    requires LogOk(env, h, Log(wal, |wal|), s) && !s.spoilt && |wal| >= 24
    ensures wal[..24] == Header(env.sum) && !Ruined(wal)
  {
    OkHolds(env, h, Log(wal, |wal|), s);
    StartsWith(env.sum, Frames(env.sum, s.older + h[s.from..s.until]), s.tail);
  }

  lemma StartsWith(sum: Checksum, frames: Bytes, tail: Bytes)
    ensures var wal := Header(sum) + frames + tail; wal[..24] == Header(sum) && wal[..8] == MAGIC
  {
    var wal := Header(sum) + frames + tail;
    assert Header(sum)[..8] == MAGIC && wal[..8] == Header(sum)[..8];
  }

  lemma ImageRecovers(env: Env, h: seq<seq<Record>>, snap: Option<Bytes>, b: nat, wal: Bytes, s: Span, n: nat,
      spare: Bytes)
    requires Lawful(env.cfg.window, h) && ImageOk(env, h, snap, b, wal, s, n)
    ensures if s.spoilt then Recover(env, snap, wal, spare) == Unreadable
            else
              && Recover(env, snap, wal, spare).Found?
              && Recover(env, snap, wal, spare).engine == EngineAt(env.cfg.window, h, n)
  {
    LawfulPrefix(env.cfg.window, h, n);
    FilesGive(env, h[..n], snap, b, Log(wal, |wal|), s, spare);
    EngineOfPrefix(env.cfg.window, h, n, n);
  }

  lemma CrashedDisk(env: Env, h: seq<seq<Record>>, acked: nat, snap: Option<Bytes>, b: nat, wal: Bytes, s: Span,
      d: Disk, l: Layout)
    requires SnapOk(env, h, snap, b) && LogOk(env, h, Log(wal, |wal|), s) && s.from <= b && acked <= |h|
    requires !s.spoilt ==> s.until == s.sure == |h| == acked
    requires d.snaps == [snap] && d.logs == [Log(wal, |wal|)] && l == Layout([b], [s])
    ensures DiskOk(env, h, acked, d, l)
  {
    OneLog(env, h, acked, d, l);
  }

  lemma CrashedState(env: Env, y: Sys, snap: Option<Bytes>, wal: Bytes, s: Span, n: nat) returns (y': Sys)
    requires Lawful(env.cfg.window, y.history) && n <= |y.history|
    requires if s.spoilt then Recover(env, snap, wal, []) == Unreadable
             else
               && Recover(env, snap, wal, []).Found?
               && Recover(env, snap, wal, []).engine == EngineAt(env.cfg.window, y.history, n)
    ensures y' == AfterCrash(env, y, snap, wal) && !y'.up && y'.disk.snaps == [snap]
            && y'.disk.logs == [Log(wal, |wal|)]
    ensures y'.history == (if s.spoilt then y.history else y.history[..n]) && y'.acked == if s.spoilt then y.acked
            else n
  {
    y' := AfterCrash(env, y, snap, wal);
    if !s.spoilt { UptoPoint(env.cfg.window, y.history, n); }
  }

  lemma CrashKeeps(env: Env, y: Sys, l: Layout, i: nat, j: nat, cut: nat) returns (y': Sys, l': Layout, n: nat)
    requires Invariant(env, y, l) && i < |y.disk.snaps| && j < |y.disk.logs|
    ensures y' == AfterCrash(env, y, y.disk.snaps[i], Survives(y.disk.logs[j], cut)) && Invariant(env, y', l')
    ensures if Ruined(Survives(y.disk.logs[j], cut)) then y'.history == y.history && y'.acked == y.acked
            else y.acked <= n <= |y.history| && y'.history == y.history[..n] && y'.acked == n
  {
    var h, snap, wal := y.history, y.disk.snaps[i], Survives(y.disk.logs[j], cut);
    assert SnapOk(env, h, snap, l.bases[i]) && LogFits(env, h, y.acked, l.bases[0], y.disk.logs[j], l.spans[j]);
    var s;
    n, s := CrashImage(env, h, y.acked, l.bases[0], snap, l.bases[i], y.disk.logs[j], l.spans[j], cut);
    ImageRecovers(env, h, snap, l.bases[i], wal, s, n, []);
    y' := CrashedState(env, y, snap, wal, s, n);
    l' := Layout([l.bases[i]], [s]);
    if s.spoilt {
      SpoiltFits(env, h, y.acked, l.bases[i], Log(wal, |wal|));
      l' := Layout([l.bases[i]], [SPOILT]);
      CrashedDisk(env, h, y.acked, snap, l.bases[i], wal, SPOILT, y'.disk, l');
    } else {
      LawfulPrefix(env.cfg.window, h, n);
      CrashedDisk(env, h[..n], n, snap, l.bases[i], wal, s, y'.disk, l');
    }
  }

  // --------------------------------------------------------------------- every run

  // What is durable stays, in its place.
  ghost predicate KeepsDurable(y: Sys, y': Sys)
  {
    && y.acked <= |y.history| && y.acked <= y'.acked <= |y'.history|
    && y'.history[..y.acked] == y.history[..y.acked]
  }

  lemma KeepsDurableChain(a: Sys, b: Sys, c: Sys)
    requires KeepsDurable(a, b) && KeepsDurable(b, c)
    ensures KeepsDurable(a, c)
  {
    assert c.history[..a.acked] == c.history[..b.acked][..a.acked];
    assert b.history[..a.acked] == b.history[..b.acked][..a.acked];
  }

  lemma Bounds(env: Env, y: Sys, l: Layout)
    requires Invariant(env, y, l)
    ensures y.acked <= |y.history| && (y.up ==> y.acked <= Applied(y))
  {}

  lemma SubmitKeepsDurable(env: Env, y: Sys, cs: seq<Command>, storage: Storage)
    requires Present(y.disk) && y.acked <= |y.history|
    ensures KeepsDurable(y, AfterSubmit(env, y, cs, storage))
  {}

  lemma SnapshotKeepsDurable(env: Env, y: Sys, bytes: Bytes, stopAfter: nat, part: nat)
    requires Present(y.disk) && y.acked <= Applied(y)
    ensures KeepsDurable(y, AfterSnapshot(env, y, bytes, stopAfter, part))
  {}

  lemma PrefixKeepsDurable(y: Sys, y': Sys, n: nat)
    requires y.acked <= n <= |y.history| && y'.history == y.history[..n] && y'.acked == n
    ensures KeepsDurable(y, y')
  {
    assert y.history[..n][..y.acked] == y.history[..y.acked];
  }

  lemma ReopenKeepsDurable(env: Env, y: Sys, spare: Bytes)
    requires Present(y.disk) && y.acked <= |y.history|
    ensures KeepsDurable(y, AfterReopen(env, y, spare))
  {}

  lemma CrashEventIs(env: Env, y: Sys, e: Event)
    requires e.Crash? && Present(y.disk)
    ensures Next(env, y, e) == if e.snap < |y.disk.snaps| && e.log < |y.disk.logs|
                               then AfterCrash(env, y, y.disk.snaps[e.snap], Survives(y.disk.logs[e.log], e.cut)) else y
  {}

  lemma CrashEventKeeps(env: Env, y: Sys, l: Layout, e: Event) returns (y': Sys, l': Layout)
    requires Invariant(env, y, l) && e.Crash? && Present(y.disk) && y.acked <= |y.history|
    ensures y' == Next(env, y, e) && Invariant(env, y', l') && KeepsDurable(y, y')
  {
    CrashEventIs(env, y, e);
    if e.snap < |y.disk.snaps| && e.log < |y.disk.logs| {
      y', l' := CrashChosenKeeps(env, y, l, e.snap, e.log, e.cut);
    } else {
      y', l' := y, l;
    }
  }

  lemma CrashChosenKeeps(env: Env, y: Sys, l: Layout, i: nat, j: nat, cut: nat) returns (y': Sys, l': Layout)
    requires Invariant(env, y, l) && i < |y.disk.snaps| && j < |y.disk.logs| && y.acked <= |y.history|
    ensures y' == AfterCrash(env, y, y.disk.snaps[i], Survives(y.disk.logs[j], cut)) && Invariant(env, y', l')
            && KeepsDurable(y, y')
  {
    var n;
    y', l', n := CrashKeeps(env, y, l, i, j, cut);
    if !Ruined(Survives(y.disk.logs[j], cut)) { PrefixKeepsDurable(y, y', n); }
  }

  lemma WorkKeeps(env: Env, y: Sys, l: Layout, e: Event) returns (l': Layout)
    requires env.cfg.window > 0 && Invariant(env, y, l) && Sized(env, y, e) && Faithful(env, y, e)
             && (e.Submit? || e.TakeSnapshot?)
    ensures Invariant(env, Next(env, y, e), l') && KeepsDurable(y, Next(env, y, e))
  {
    l' := l;
    DiskParts(env, y.history, y.acked, y.disk, l);
    Bounds(env, y, l);
    match e
    case Submit(cs, storage) =>
      if y.up && !y.poisoned {
        l' := SubmitKeeps(env, y, l, cs, storage);
        SubmitKeepsDurable(env, y, cs, storage);
      }
    case TakeSnapshot(ids, stopAfter, part) =>
      l' := SnapshotEventKeeps(env, y, l, e);
      if y.up && Takes(y, ids) {
        SnapshotKeepsDurable(env, y, Snap.Encode(env.digest, ImageOf(env.cfg.window, y.engine, ids)), stopAfter, part);
      }
  }

  lemma NextKeeps(env: Env, y: Sys, l: Layout, e: Event) returns (l': Layout)
    requires env.cfg.window > 0 && Invariant(env, y, l) && Sized(env, y, e) && Faithful(env, y, e)
    ensures Invariant(env, Next(env, y, e), l') && KeepsDurable(y, Next(env, y, e))
  {
    DiskParts(env, y.history, y.acked, y.disk, l);
    Bounds(env, y, l);
    match e
    case Reopen(spare) =>
      l' := ReopenKeeps(env, y, l, spare);
      ReopenKeepsDurable(env, y, spare);
    case Crash(_, _, _) =>
      var y';
      y', l' := CrashEventKeeps(env, y, l, e);
    case _ => l' := WorkKeeps(env, y, l, e);
  }

  lemma {:induction false} RunKeeps(env: Env, y: Sys, l: Layout, es: seq<Event>) returns (l': Layout)
    requires env.cfg.window > 0 && Invariant(env, y, l) && AllProper(env, y, es)
    ensures Invariant(env, RunFrom(env, y, es), l') && KeepsDurable(y, RunFrom(env, y, es))
    decreases |es|
  {
    l' := l;
    Bounds(env, y, l);
    if es != [] {
      var front := es[..|es| - 1];
      l' := RunKeeps(env, y, l, front);
      l' := NextKeeps(env, RunFrom(env, y, front), l', es[|es| - 1]);
      KeepsDurableChain(y, RunFrom(env, y, front), RunFrom(env, y, es));
    }
  }

  lemma RunInvariant(env: Env, es: seq<Event>) returns (l: Layout)
    requires env.cfg.window > 0 && AllProper(env, Created(env), es)
    ensures Invariant(env, Run(env, es), l)
  {
    CreatedOk(env);
    l := RunKeeps(env, Created(env), START, es);
  }

  lemma {:induction false} RunAppend(env: Env, y: Sys, es: seq<Event>, more: seq<Event>)
    ensures RunFrom(env, y, es + more) == RunFrom(env, RunFrom(env, y, es), more)
    ensures AllProper(env, y, es + more) <==> AllProper(env, y, es) && AllProper(env, RunFrom(env, y, es), more)
    decreases |more|
  {
    if more == [] {
      assert es + more == es;
    } else {
      assert (es + more)[..|es + more| - 1] == es + more[..|more| - 1];
      RunAppend(env, y, es, more[..|more| - 1]);
    }
  }
}
