/**
 What the account engine promises about runs: which batches every crash leaves, which answers
 outlive one, and what writing after a failed reset or snapshotting after a failed batch does.
 */
module AccountDurability {
  import opened Bytes
  import opened Accounts
  import opened AccountEngine
  import opened AccountDedupe
  import opened AccountBatches
  import opened AccountInvariants
  import opened AccountSerial
  import opened AccountLog
  import opened AccountWal
  import opened AccountImages
  import opened AccountRecovery
  import opened AccountRuns
  import Snap = AccountSnapshot

  // A crash keeps one of the snapshots and one of the logs, cut somewhere behind what is synced.
  predicate Chosen(y: Sys, i: nat, j: nat)
  {
    i < |y.disk.snaps| && j < |y.disk.logs|
  }

  function LeftLog(y: Sys, j: nat, cut: nat): Bytes
    requires j < |y.disk.logs|
  {
    Survives(y.disk.logs[j], cut)
  }

  // What the files that a crash leaves give back.
  function Left(env: Env, y: Sys, i: nat, j: nat, cut: nat, spare: Bytes): Found
    requires Chosen(y, i, j)
  {
    Recover(env, y.disk.snaps[i], LeftLog(y, j, cut), spare)
  }

  lemma LeftIs(env: Env, y: Sys, l: Layout, i: nat, j: nat, cut: nat, spare: Bytes) returns (k: nat)
    requires Invariant(env, y, l) && Chosen(y, i, j)
    ensures var found := Left(env, y, i, j, cut, spare);
            if Ruined(LeftLog(y, j, cut)) then found == Unreadable
            else y.acked <= k <= |y.history| && found.Found? && found.engine == EngineAt(env.cfg.window, y.history, k)
  {
    var h, snap, wal := y.history, y.disk.snaps[i], LeftLog(y, j, cut);
    assert SnapOk(env, h, snap, l.bases[i]) && LogFits(env, h, y.acked, l.bases[0], y.disk.logs[j], l.spans[j]);
    var s;
    k, s := CrashImage(env, h, y.acked, l.bases[0], snap, l.bases[i], y.disk.logs[j], l.spans[j], cut);
    ImageRecovers(env, h, snap, l.bases[i], wal, s, k, spare);
  }

  /** After any run and any crash, opening the files gives the engine after k batches of the history,
      none of the durable ones missing, and is refused exactly if the log that is left is not empty
      and lacks its header, or if the registered accounts exceed the configured bound. */
  lemma RecoveryAfterAnyCrash(env: Env, es: seq<Event>, i: nat, j: nat, cut: nat, spare: Bytes) returns (k: nat)
    requires env.cfg.window > 0 && AllProper(env, Created(env), es) && Chosen(Run(env, es), i, j)
    ensures var y := Run(env, es); var wal := LeftLog(y, j, cut);
            var result := Open(env, y.disk.snaps[i], wal, spare);
            if Ruined(wal) then result == Refused(Damaged)
            else && y.acked <= k <= |y.history|
                 && var e := EngineAt(env.cfg.window, y.history, k);
                    result == if |e.slots| > env.cfg.maxAccounts then Refused(TooManyAccounts) else Opened(e)
  {
    var l := RunInvariant(env, es);
    k := LeftIs(env, Run(env, es), l, i, j, cut, spare);
  }

  lemma ExtendsDurable(y: Sys, z: Sys, k: nat)
    requires KeepsDurable(y, z) && z.acked <= k <= |z.history|
    ensures y.history[..y.acked] <= z.history[..k]
  {
    assert z.history[..k][..y.acked] == z.history[..y.acked];
  }

  lemma ExtendedBy(env: Env, y: Sys, z: Sys, l: Layout, i: nat, j: nat, cut: nat, spare: Bytes)
      returns (batches: seq<seq<Record>>)
    requires Invariant(env, z, l) && KeepsDurable(y, z) && Chosen(z, i, j)
    ensures var found := Left(env, z, i, j, cut, spare);
            found.Found? ==>
              && y.history[..y.acked] <= batches && Lawful(env.cfg.window, batches)
              && found.engine == EngineAt(env.cfg.window, batches, |batches|)
  {
    var k := LeftIs(env, z, l, i, j, cut, spare);
    batches := [];
    if !Ruined(LeftLog(z, j, cut)) {
      batches := z.history[..k];
      ExtendsDurable(y, z, k);
      PrefixPoint(env.cfg.window, z.history, k);
    }
  }

  lemma LaterKeeps(env: Env, es: seq<Event>, more: seq<Event>) returns (l: Layout)
    requires env.cfg.window > 0 && AllProper(env, Created(env), es + more)
    ensures Invariant(env, Run(env, es + more), l) && KeepsDurable(Run(env, es), Run(env, es + more))
  {
    RunAppend(env, Created(env), es, more);
    l := RunInvariant(env, es);
    l := RunKeeps(env, Run(env, es), l, more);
  }

  /** A durable batch is never lost or changed: whatever happens later, every store that opens is the
      engine of a lawful history that extends the durable batches. */
  lemma DurableForGood(env: Env, es: seq<Event>, more: seq<Event>, i: nat, j: nat, cut: nat, spare: Bytes)
      returns (batches: seq<seq<Record>>)
    requires env.cfg.window > 0 && AllProper(env, Created(env), es + more) && Chosen(Run(env, es + more), i, j)
    ensures var y, z := Run(env, es), Run(env, es + more);
            var result := Open(env, z.disk.snaps[i], LeftLog(z, j, cut), spare);
            && y.acked <= |y.history|
            && (result.Opened? ==>
                  && y.history[..y.acked] <= batches && Lawful(env.cfg.window, batches)
                  && result.engine == EngineAt(env.cfg.window, batches, |batches|))
  {
    var l := LaterKeeps(env, es, more);
    batches := ExtendedBy(env, Run(env, es), Run(env, es + more), l, i, j, cut, spare);
  }

  // -------------------------------------------------------------- exactly the durable ones

  // The synced part of a log is nothing, the frames before `sure`, or all of it.
  lemma SyncedPart(env: Env, h: seq<seq<Record>>, snap: Option<Bytes>, b: nat, log: Log, s: Span, spare: Bytes)
    requires Lawful(env.cfg.window, h) && SnapOk(env, h, snap, b) && LogOk(env, h, log, s) && s.from <= b && !s.spoilt
    ensures var found := Recover(env, snap, Survives(log, log.synced), spare);
            found.Found? && found.engine == EngineAt(env.cfg.window, h, Max(b, s.sure))
  {
    if log.synced == 0 {
      assert Survives(log, log.synced) == [];
      RecoverBlank(env, snap, EngineAt(env.cfg.window, h, b), spare);
    } else {
      OkHolds(env, h, log, s);
      var s' := SyncedSpan(env, h, log, s);
      HoldsRecovers(env, h, snap, b, Survives(log, log.synced), s', spare);
    }
  }

  lemma KeptStarts(env: Env, h: seq<seq<Record>>, s: Span, k: nat, wal: Bytes)
    requires s.from <= k <= s.until <= |h| && wal == Kept(env, h, s, s.until) + s.tail
    ensures |Kept(env, h, s, k)| <= |wal| && wal[..|Kept(env, h, s, k)|] == Kept(env, h, s, k)
  {
    var header, one, two := Header(env.sum), Frames(env.sum, s.older + h[s.from..k]), Frames(env.sum, h[k..s.until]);
    Joined(s.older, h, s.from, k, s.until);
    FramesSplit(env.sum, s.older + h[s.from..k], h[k..s.until]);
    TakeFirst(header, one, two, s.tail);
  }

  lemma Joined<T>(older: seq<T>, h: seq<T>, i: nat, k: nat, j: nat)
    requires i <= k <= j <= |h|
    ensures older + h[i..j] == (older + h[i..k]) + h[k..j]
  {}

  lemma TakeFirst(a: Bytes, b: Bytes, c: Bytes, d: Bytes)
    ensures var all := a + (b + c) + d; |a + b| <= |all| && all[..|a + b|] == a + b
  {}

  lemma SyncedSpan(env: Env, h: seq<seq<Record>>, log: Log, s: Span) returns (s': Span)
    requires s.from <= s.sure <= s.until <= |h| && Holds(env, h, log.bytes, s) && SyncedAt(env, h, log, s)
             && 0 < log.synced <= |log.bytes|
    ensures s'.from == s.from && s'.until == s.sure && Holds(env, h, Survives(log, log.synced), s')
  {
    if log.synced == |Kept(env, h, s, s.sure)| {
      s' := s.(until := s.sure, tail := []);
      KeptStarts(env, h, s, s.sure, log.bytes);
      KeptAlike(env, h, s, s');
      NothingBehind(Kept(env, h, s', s.sure));
      NothingIsTorn(env.sum);
    } else {
      s' := s;
      assert Survives(log, log.synced) == log.bytes;
    }
  }

  lemma Exactly(env: Env, y: Sys, l: Layout, spare: Bytes)
    requires Invariant(env, y, l) && Chosen(y, 0, 0) && !Ruined(y.disk.logs[0].bytes)
    ensures y.acked <= |y.history|
    ensures var found := Left(env, y, 0, 0, y.disk.logs[0].synced, spare);
            found.Found? && found.engine == EngineAt(env.cfg.window, y.history, y.acked)
  {
    assert SnapOk(env, y.history, y.disk.snaps[0], l.bases[0])
        && LogFits(env, y.history, y.acked, l.bases[0], y.disk.logs[0], l.spans[0]);
    SyncedPart(env, y.history, y.disk.snaps[0], l.bases[0], y.disk.logs[0], l.spans[0], spare);
  }

  lemma CutBack(env: Env, y: Sys, l: Layout)
    requires Invariant(env, y, l) && Chosen(y, 0, 0) && !Ruined(y.disk.logs[0].bytes)
    ensures AfterCrash(env, y, y.disk.snaps[0], Survives(y.disk.logs[0], y.disk.logs[0].synced)).history
            == y.history[..y.acked]
  {
    Exactly(env, y, l, []);
    UptoPoint(env.cfg.window, y.history, y.acked);
  }

  lemma CrashIs(env: Env, y: Sys, cut: nat)
    requires Present(y.disk)
    ensures Next(env, y, Crash(0, 0, cut)) == AfterCrash(env, y, y.disk.snaps[0], Survives(y.disk.logs[0], cut))
  {}

  lemma RunParts(env: Env, y: Sys, l: Layout)
    requires Invariant(env, y, l)
    ensures Present(y.disk) && y.acked <= |y.history| && (y.up && !y.poisoned ==> Applied(y) == |y.history|)
  {
    DiskParts(env, y.history, y.acked, y.disk, l);
    if y.up && !y.poisoned { AppliedAt(env.cfg.window, y.history, |y.history|, y.engine); }
  }

  /** The number of durable batches is exact: if the oldest log that may come back can be read at all,
      power may be lost so that every other batch is gone. */
  lemma NoMoreIsDurable(env: Env, es: seq<Event>)
    requires env.cfg.window > 0 && AllProper(env, Created(env), es)
    ensures var y := Run(env, es);
            && Present(y.disk) && y.acked <= |y.history|
            && (!Ruined(y.disk.logs[0].bytes) ==>
                 Next(env, y, Crash(0, 0, y.disk.logs[0].synced)).history == y.history[..y.acked])
  {
    var l := RunInvariant(env, es);
    var y := Run(env, es);
    RunParts(env, y, l);
    if !Ruined(y.disk.logs[0].bytes) {
      CutBack(env, y, l);
      CrashIs(env, y, y.disk.logs[0].synced);
    }
  }

  // ------------------------------------------------------------------- what is visible

  // Every crash that leaves readable files leaves an engine that has come at least that far.
  ghost predicate Outlives(env: Env, y: Sys, sequence: nat)
  {
    forall i: nat, j: nat, cut: nat | Chosen(y, i, j) ::
      Left(env, y, i, j, cut, []).Found? ==> Left(env, y, i, j, cut, []).engine.sequence >= sequence
  }

  lemma OutlivesIff(env: Env, y: Sys, l: Layout, sequence: nat)
    requires Invariant(env, y, l) && Chosen(y, 0, 0) && !Ruined(y.disk.logs[0].bytes)
    ensures y.acked <= |y.history|
    ensures Outlives(env, y, sequence) <==> sequence <= EngineAt(env.cfg.window, y.history, y.acked).sequence
  {
    Exactly(env, y, l, []);
    if sequence <= EngineAt(env.cfg.window, y.history, y.acked).sequence {
      forall i: nat, j: nat, cut: nat | Chosen(y, i, j) && Left(env, y, i, j, cut, []).Found?
        ensures Left(env, y, i, j, cut, []).engine.sequence >= sequence
      {
        var k := LeftIs(env, y, l, i, j, cut, []);
        SequenceMonotone(env.cfg.window, y.history, y.acked, k);
      }
    } else {
      assert Left(env, y, 0, 0, y.disk.logs[0].synced, []).Found?;
    }
  }

  // Records do not bring back an older result: one that is remembered after them was remembered before.
  lemma {:induction false} OlderResult(window: nat, e: Engine, rs: seq<Record>, id: Bytes)
    requires forall r <- rs :: r.sequence > e.sequence
    requires id in ApplyAll(window, e, rs).results && ApplyAll(window, e, rs).results[id].sequence <= e.sequence
    ensures id in e.results && e.results[id] == ApplyAll(window, e, rs).results[id]
  {
    if rs != [] {
      assert rs[|rs| - 1] in rs && forall r <- rs[..|rs| - 1] :: r in rs;
      OlderResult(window, e, rs[..|rs| - 1], id);
    }
  }

  predicate Remembered(e: Engine, id: Bytes, result: Result)
  {
    id in e.results && e.results[id] == result
  }

  lemma OlderResultStep(window: nat, h: seq<seq<Record>>, m: nat, n: nat, id: Bytes, result: Result)
    requires Lawful(window, h) && n == m + 1 <= |h| && Remembered(EngineAt(window, h, n), id, result)
    requires result.sequence <= EngineAt(window, h, m).sequence
    ensures Remembered(EngineAt(window, h, m), id, result)
  {
    var e := EngineAt(window, h, m);
    EngineStep(window, h, m);
    assert Follows(window, e, h[m]);
    ReplayCounts(window, e, h[m]);
    OlderResult(window, e, h[m], id);
  }

  lemma {:induction false} OlderResultAt(window: nat, h: seq<seq<Record>>, k: nat, n: nat, id: Bytes, result: Result)
    requires Lawful(window, h) && k <= n <= |h| && Remembered(EngineAt(window, h, n), id, result)
    requires result.sequence <= EngineAt(window, h, k).sequence
    ensures Remembered(EngineAt(window, h, k), id, result)
    decreases n
  {
    if k < n {
      var m := n - 1;
      SequenceMonotone(window, h, k, m);
      OlderResultStep(window, h, m, n, id, result);
      OlderResultAt(window, h, k, m, id, result);
    }
  }

  // Every crash that leaves readable files leaves an engine that answers the command alike.
  ghost predicate AnswersAgain(env: Env, y: Sys, id: Bytes, result: Result)
  {
    forall i: nat, j: nat, cut: nat | Chosen(y, i, j) ::
      Left(env, y, i, j, cut, []).Found? ==> Remembered(Left(env, y, i, j, cut, []).engine, id, result)
  }

  lemma ResultBound(window: nat, h: seq<seq<Record>>, k: nat, id: Bytes)
    requires Lawful(window, h) && k <= |h| && id in EngineAt(window, h, k).results
    ensures EngineAt(window, h, k).results[id].sequence <= EngineAt(window, h, k).sequence
  {
    GoodAt(window, h, k);
    assert ResultOk(EngineAt(window, h, k), id);
  }

  lemma AnswersIff(env: Env, y: Sys, l: Layout, id: Bytes)
    requires Invariant(env, y, l) && Chosen(y, 0, 0) && !Ruined(y.disk.logs[0].bytes) && y.acked <= |y.history|
    requires y.engine == EngineAt(env.cfg.window, y.history, |y.history|) && id in y.engine.results
    ensures AnswersAgain(env, y, id, y.engine.results[id])
            <==> y.engine.results[id].sequence <= EngineAt(env.cfg.window, y.history, y.acked).sequence
  {
    var result := y.engine.results[id];
    Exactly(env, y, l, []);
    if result.sequence <= EngineAt(env.cfg.window, y.history, y.acked).sequence {
      forall i: nat, j: nat, cut: nat | Chosen(y, i, j) && Left(env, y, i, j, cut, []).Found?
        ensures Remembered(Left(env, y, i, j, cut, []).engine, id, result)
      {
        var k := LeftIs(env, y, l, i, j, cut, []);
        SequenceMonotone(env.cfg.window, y.history, y.acked, k);
        OlderResultAt(env.cfg.window, y.history, k, |y.history|, id, result);
      }
    } else if AnswersAgain(env, y, id, result) {
      assert Left(env, y, 0, 0, y.disk.logs[0].synced, []).Found?;
      ResultBound(env.cfg.window, y.history, y.acked, id);
    }
  }

  /** A command that the running engine answers from memory is answered alike by every engine that a crash
      leaves, exactly if its record is among the durable batches. */
  lemma AnswerDurableIff(env: Env, es: seq<Event>, id: Bytes)
    requires env.cfg.window > 0 && AllProper(env, Created(env), es)
    requires var y := Run(env, es); y.up && !y.poisoned && id in y.engine.results
    ensures var y := Run(env, es);
            && Present(y.disk) && y.acked <= |y.history|
            && (!Ruined(y.disk.logs[0].bytes) ==>
                  (AnswersAgain(env, y, id, y.engine.results[id])
                   <==> y.engine.results[id].sequence <= EngineAt(env.cfg.window, y.history, y.acked).sequence))
  {
    var l := RunInvariant(env, es);
    var y := Run(env, es);
    DiskParts(env, y.history, y.acked, y.disk, l);
    Bounds(env, y, l);
    if !Ruined(y.disk.logs[0].bytes) { AnswersIff(env, y, l, id); }
  }

  /** While the engine takes commands, its state is the one after the whole history, and no crash
      takes any of it back exactly if all batches are durable. */
  lemma VisibleStateDurableIff(env: Env, es: seq<Event>)
    requires env.cfg.window > 0 && AllProper(env, Created(env), es)
    requires var y := Run(env, es); y.up && !y.poisoned
    ensures var y := Run(env, es);
            && Present(y.disk) && y.engine == EngineAt(env.cfg.window, y.history, |y.history|)
            && (!Ruined(y.disk.logs[0].bytes) ==> (Outlives(env, y, y.engine.sequence) <==> y.acked == |y.history|))
  {
    var l := RunInvariant(env, es);
    var y := Run(env, es);
    DiskParts(env, y.history, y.acked, y.disk, l);
    if !Ruined(y.disk.logs[0].bytes) {
      OutlivesIff(env, y, l, y.engine.sequence);
      if y.acked < |y.history| { SequenceTells(env.cfg.window, y.history, y.acked, |y.history|); }
    }
  }

  // All batches are durable, or they were not before and nothing was written.
  predicate StaysDurable(y: Sys, y': Sys)
  {
    y'.up && !y'.poisoned && (y.acked == |y.history| || y'.history != y.history) ==> y'.acked == |y'.history|
  }

  lemma SubmitStaysDurable(env: Env, y: Sys, cs: seq<Command>, storage: Storage)
    requires Present(y.disk)
    ensures StaysDurable(y, AfterSubmit(env, y, cs, storage))
  {}

  lemma SnapshotStaysDurable(env: Env, y: Sys, bytes: Bytes, stopAfter: nat, part: nat)
    requires Present(y.disk) && y.acked <= |y.history| && (!y.poisoned ==> Applied(y) == |y.history|)
    ensures StaysDurable(y, AfterSnapshot(env, y, bytes, stopAfter, part))
  {
    var front := Upto(y.history, y.engine.sequence);
    if |front| == |y.history| { assert front == y.history; }
  }

  lemma CrashStaysDurable(env: Env, y: Sys, e: Event)
    requires e.Crash?
    ensures StaysDurable(y, Next(env, y, e))
  {}

  lemma StepStaysDurable(env: Env, y: Sys, e: Event)
    requires y.acked <= |y.history| && (y.up && !y.poisoned ==> Applied(y) == |y.history|)
    ensures var y' := Next(env, y, e);
              if e.Reopen? then y'.history == y.history && y'.acked == y.acked else StaysDurable(y, y')
  {
    match e
    case Reopen(_) =>
    case Crash(_, _, _) => CrashStaysDurable(env, y, e);
    case Submit(cs, storage) => if Present(y.disk) { SubmitStaysDurable(env, y, cs, storage); }
    case TakeSnapshot(ids, stopAfter, part) =>
      if Present(y.disk) && y.up && Takes(y, ids) {
        SnapshotStaysDurable(env, y, Snap.Encode(env.digest, ImageOf(env.cfg.window, y.engine, ids)), stopAfter, part);
      }
  }

  /** Batches that are not durable come only from a process that has opened the files again and shows
      what the one before left unsynced: no other step of an engine that goes on taking commands adds
      any, and one that writes a batch makes all of them durable. */
  lemma DurableUnlessReopened(env: Env, es: seq<Event>, e: Event)
    requires env.cfg.window > 0 && AllProper(env, Created(env), es)
    ensures var y := Run(env, es); var y' := Next(env, y, e);
            if e.Reopen? then y'.history == y.history && y'.acked == y.acked else StaysDurable(y, y')
  {
    var l := RunInvariant(env, es);
    RunParts(env, Run(env, es), l);
    StepStaysDurable(env, Run(env, es), e);
  }

  // ------------------------------------------------------------- writing after a failed reset

  // A batch that is written and synced in this state.
  ghost predicate Writes(env: Env, y: Sys, cs: seq<Command>)
  {
    && y.up && !y.poisoned && Admitted(env.cfg, y.engine, cs) && Sized(env, y, Submit(cs, Works))
    && StageAll(y.engine, cs).records != [] && |Payload(StageAll(y.engine, cs).records)| <= MAX_FRAME_BYTES
  }

  lemma WrittenState(env: Env, y: Sys, l: Layout, cs: seq<Command>) returns (y': Sys, l': Layout)
    requires env.cfg.window > 0 && Invariant(env, y, l) && Writes(env, y, cs) && Present(y.disk)
    ensures y' == Next(env, y, Submit(cs, Works)) && Invariant(env, y', l') && Present(y'.disk) && |l.spans| > 0
            && |l'.spans| == 1
    ensures y'.acked == |y'.history| == |y.history| + 1 && |y'.disk.logs| == 1
            && y'.disk.logs[0].synced == |y'.disk.logs[0].bytes|
    ensures l'.spans[0].spoilt <==> l.spans[|l.spans| - 1].spoilt || !Ready(y.disk)
  {
    var st := StageAll(y.engine, cs);
    GoodNow(env, y, l);
    var rs := SubmitFollows(env, y.engine, cs);
    y' := AfterAppend(env, y, st, Works);
    l' := SyncedKeeps(env, y, l, rs, y');
    DiskParts(env, y'.history, y'.acked, y'.disk, l');
  }

  lemma ReadableIff(env: Env, y: Sys, l: Layout, spare: Bytes)
    requires Invariant(env, y, l) && Present(y.disk)
    ensures |l.spans| > 0
    ensures Recover(env, y.disk.snaps[|y.disk.snaps| - 1], Current(y.disk).bytes, spare).Found? <==>
              !l.spans[|l.spans| - 1].spoilt
  {
    var _ := ReopenFinds(env, y, l, spare);
  }

  // Whether a process that opens the files now can read them.
  predicate Readable(env: Env, y: Sys)
    requires Present(y.disk)
  {
    Recover(env, y.disk.snaps[|y.disk.snaps| - 1], Current(y.disk).bytes, []).Found?
  }

  lemma OverwriteAt(env: Env, y: Sys, l: Layout, cs: seq<Command>)
    requires env.cfg.window > 0 && Invariant(env, y, l) && Writes(env, y, cs) && Present(y.disk) && Readable(env, y)
    ensures var y' := Next(env, y, Submit(cs, Works));
            && Present(y'.disk) && y'.acked == |y'.history| == |y.history| + 1 && (Readable(env, y') <==> Ready(y.disk))
            && (!Ready(y.disk) ==> forall i: nat, j: nat, cut: nat, spare: Bytes | Chosen(y', i, j) ::
                 Left(env, y', i, j, cut, spare) == Unreadable)
  {
    var y', l' := WrittenState(env, y, l, cs);
    ReadableIff(env, y, l, []);
    ReadableIff(env, y', l', []);
    if !Ready(y.disk) {
      forall i: nat, j: nat, cut: nat,
          spare: Bytes | Chosen(y', i, j) ensures Left(env, y', i, j, cut, spare) == Unreadable {
        OnlyLogRuined(env, y', l', j, cut);
        RecoverRuined(env, y'.disk.snaps[i], LeftLog(y', j, cut), spare);
      }
    }
  }

  lemma OnlyLogRuined(env: Env, y: Sys, l: Layout, j: nat, cut: nat)
    requires |l.bases| > 0 && LogsFit(env, y.history, y.acked, l.bases[0], y.disk.logs, l.spans)
    requires |l.spans| == 1 && l.spans[0].spoilt && j < |y.disk.logs| && y.disk.logs[0].synced == |y.disk.logs[0].bytes|
    ensures Ruined(LeftLog(y, j, cut))
  {
    assert LogFits(env, y.history, y.acked, l.bases[0], y.disk.logs[0], l.spans[0]);
    assert LeftLog(y, j, cut) == y.disk.logs[0].bytes;
  }

  /** A snapshot that fails after truncating the log leaves the engine running and the place of the next
      write behind: the next batch is acknowledged as durable, and the store opens again exactly if the
      write went to the end of a log with a header. Otherwise no crash leaves anything that opens. */
  lemma WriteAfterFailedResetIff(env: Env, es: seq<Event>, cs: seq<Command>)
    requires env.cfg.window > 0 && AllProper(env, Created(env), es)
    requires var y := Run(env, es); Present(y.disk) && Writes(env, y, cs) && Readable(env, y)
    ensures var y := Run(env, es); var y' := Next(env, y, Submit(cs, Works));
            && Present(y'.disk) && y'.acked == |y'.history| == |y.history| + 1 && (Readable(env, y') <==> Ready(y.disk))
            && (!Ready(y.disk) ==> forall i: nat, j: nat, cut: nat, spare: Bytes | Chosen(y', i, j) ::
                 Left(env, y', i, j, cut, spare) == Unreadable)
  {
    var l := RunInvariant(env, es);
    OverwriteAt(env, Run(env, es), l, cs);
  }

  // Whether the next write goes to the end of a log with a header, after an event.
  ghost predicate ReadyNext(y: Sys, e: Event, y': Sys)
    requires Present(y.disk)
  {
    if e.Reopen? || (e.Submit? && y'.history != y.history) then true
    else if e.TakeSnapshot? && y.up && Takes(y, e.ids) && e.stopAfter > 2 then e.stopAfter > 6
    else Ready(y.disk)
  }

  lemma ReadyWrite(env: Env, y: Sys, l: Layout, rs: seq<Record>)
    requires Invariant(env, y, l) && Present(y.disk) && y.up && !y.poisoned && FrameOk(rs) && rs != []
    ensures Present(Synced(y.disk, Frame(env.sum, rs))) && Ready(Synced(y.disk, Frame(env.sum, rs)))
  {
    FrameStart(env.sum, rs);
    if Ready(y.disk) {
      WrittenAtEnd(Current(y.disk).bytes, Frame(env.sum, rs));
    } else {
      DiskParts(env, y.history, y.acked, y.disk, l);
      SpoiltWrite(env, y, l, rs);
    }
  }

  lemma SubmitCases(env: Env, y: Sys, cs: seq<Command>, storage: Storage)
    requires Present(y.disk) && Sized(env, y, Submit(cs, storage))
    ensures var y', rs := AfterSubmit(env, y, cs, storage), StageAll(y.engine, cs).records;
            !y'.poisoned ==>
              || y' == y
              || (&& y'.disk == Synced(y.disk, Frame(env.sum, rs)) && y'.history == y.history + [rs]
                  && FrameOk(rs) && rs != [])
  {}

  lemma ReadySubmit(env: Env, y: Sys, l: Layout, cs: seq<Command>, storage: Storage)
    requires Invariant(env, y, l) && Present(y.disk) && y.up && !y.poisoned && Sized(env, y, Submit(cs, storage))
    ensures var y' := AfterSubmit(env, y, cs, storage);
            !y'.poisoned ==> Present(y'.disk) && (Ready(y'.disk) <==> y'.history != y.history || Ready(y.disk))
  {
    SubmitCases(env, y, cs, storage);
    var y', rs := AfterSubmit(env, y, cs, storage), StageAll(y.engine, cs).records;
    if !y'.poisoned && y' != y { ReadyWrite(env, y, l, rs); }
  }

  lemma ResumedReady(d: Disk, d': Disk, log': Log)
    requires Present(d) && d'.snaps == d.snaps && d'.offset == |log'.bytes| > 0
    requires d'.logs == if log'.bytes == Current(d).bytes then d.logs else d.logs + [log']
    ensures Present(d') && Ready(d')
  {
    LastOf(d.logs, log');
  }

  lemma ReadyReopen(env: Env, y: Sys, l: Layout, spare: Bytes)
    requires Invariant(env, y, l) && Present(y.disk)
    ensures var y' := AfterReopen(env, y, spare); y'.up ==> Present(y'.disk) && Ready(y'.disk)
  {
    var found := ReopenFinds(env, y, l, spare);
    if found.Found? {
      var log', s' := ReopenedLog(env, y.history, Current(y.disk), l.spans[|l.spans| - 1], found.keep);
      var y' := ReopenedState(env, y, found.engine, found.keep, log');
      ResumedReady(y.disk, y'.disk, log');
    }
  }

  lemma ReadySnapshot(env: Env, y: Sys, bytes: Bytes, stopAfter: nat, part: nat)
    requires Present(y.disk)
    ensures var y' := AfterSnapshot(env, y, bytes, stopAfter, part);
            Present(y'.disk) && (Ready(y'.disk) <==> if stopAfter > 2 then stopAfter > 6 else Ready(y.disk))
  {}

  /** A running engine writes to the end of a log with a header unless its last snapshot failed after
      truncating the log, and nothing has been written and no process has opened the files since. */
  lemma ReadyUnlessResetFails(env: Env, es: seq<Event>, e: Event)
    requires env.cfg.window > 0 && AllProper(env, Created(env), es) && Sized(env, Run(env, es), e)
    requires Present(Run(env, es).disk) && Next(env, Run(env, es), e).up && !Next(env, Run(env, es), e).poisoned
    ensures var y := Run(env, es); var y' := Next(env, y, e);
            Present(y'.disk) && (Ready(y'.disk) <==> ReadyNext(y, e, y'))
  {
    var l := RunInvariant(env, es);
    ReadyAt(env, Run(env, es), l, e);
  }

  ghost predicate ReadyAfter(env: Env, y: Sys, e: Event)
    requires Present(y.disk)
  {
    var y' := Next(env, y, e);
    y'.up && !y'.poisoned ==> Present(y'.disk) && (Ready(y'.disk) <==> ReadyNext(y, e, y'))
  }

  lemma ReadyAfterSubmit(env: Env, y: Sys, l: Layout, e: Event)
    requires Invariant(env, y, l) && e.Submit? && Sized(env, y, e) && Present(y.disk)
    ensures ReadyAfter(env, y, e)
  {
    if y.up && !y.poisoned { ReadySubmit(env, y, l, e.commands, e.storage); }
  }

  lemma ReadyAfterSnapshot(env: Env, y: Sys, e: Event)
    requires e.TakeSnapshot? && Present(y.disk)
    ensures ReadyAfter(env, y, e)
  {
    if y.up && Takes(y, e.ids) {
      ReadySnapshot(env, y, Snap.Encode(env.digest, ImageOf(env.cfg.window, y.engine, e.ids)), e.stopAfter, e.part);
    }
  }

  lemma ReadyAfterReopen(env: Env, y: Sys, l: Layout, e: Event)
    requires Invariant(env, y, l) && e.Reopen? && Present(y.disk)
    ensures ReadyAfter(env, y, e)
  {
    ReadyReopen(env, y, l, e.spare);
  }

  lemma ReadyAfterCrash(env: Env, y: Sys, e: Event)
    requires e.Crash? && Present(y.disk)
    ensures ReadyAfter(env, y, e)
  {
    CrashEventIs(env, y, e);
  }

  lemma ReadyAt(env: Env, y: Sys, l: Layout, e: Event)
    requires Invariant(env, y, l) && Sized(env, y, e) && Present(y.disk)
    ensures ReadyAfter(env, y, e)
  {
    match e
    case Submit(_, _) => ReadyAfterSubmit(env, y, l, e);
    case TakeSnapshot(_, _, _) => ReadyAfterSnapshot(env, y, e);
    case Reopen(_) => ReadyAfterReopen(env, y, l, e);
    case Crash(_, _, _) => ReadyAfterCrash(env, y, e);
  }

  // ------------------------------------------------------- a snapshot of a poisoned engine

  lemma StagedSlotOk(start: Slots, staged: Slots, now: Slots, touched: set<AccountID>, id: AccountID)
    requires SlotsOk(start) && SlotsOk(now) && Ahead(staged, start, touched) && id in staged
    requires id in now && staged[id].agent == now[id].agent
    ensures SlotOk(id, staged[id])
  {
    assert SlotOk(id, now[id]);
    if id in start { assert SlotOk(id, start[id]); }
  }

  // What a failed batch leaves in memory can be snapshotted.
  lemma LeftoverGood(window: nat, e: Engine, cs: seq<Command>)
    requires window > 0 && Good(window, e) && forall c <- cs :: ValidCommand(c)
    ensures Good(window, e.(slots := StageAll(e, cs).slots))
  {
    var st := StageAll(e, cs);
    var now := ApplyAll(window, e, st.records);
    BatchGood(window, e, cs);
    BatchReplays(window, e, cs);
    StagedAhead(window, e, cs);
    forall id <- st.slots ensures SlotOk(id, st.slots[id]) {
      StagedSlotOk(e.slots, st.slots, now.slots, Primaries(st.records), id);
    }
    SameMemory(window, e, st.slots);
  }

  lemma SameMemory(window: nat, e: Engine, slots: Slots)
    requires Good(window, e) && SlotsOk(slots)
    ensures Good(window, e.(slots := slots))
  {
    var e' := e.(slots := slots);
    forall id <- e'.results ensures ResultOk(e', id) { assert ResultOk(e, id); }
  }

  lemma FailedLeaves(env: Env, y: Sys, cs: seq<Command>, storage: Storage)
    requires Present(y.disk) && !y.poisoned && AfterSubmit(env, y, cs, storage).poisoned
    ensures AfterSubmit(env, y, cs, storage).engine == y.engine.(slots := StageAll(y.engine, cs).slots)
    ensures Admitted(env.cfg, y.engine, cs) && Present(AfterSubmit(env, y, cs, storage).disk)
            && AfterSubmit(env, y, cs, storage).up == y.up
  {}

  lemma ReopenAfterReset(env: Env, y: Sys, bytes: Bytes, e: Engine, spare: Bytes)
    requires y.disk.snaps == [Some(bytes)] && |y.disk.logs| == 1 && y.disk.logs[0].bytes == Header(env.sum)
    requires Restored(env, Some(bytes)) == Some(e)
    ensures Next(env, y, Reopen(spare)).engine == e
  {
    RecoverBlank(env, Some(bytes), e, spare);
  }

  lemma ResetBy(env: Env, y: Sys, ids: seq<AccountID>, stopAfter: nat, part: nat) returns (y': Sys, bytes: Bytes)
    requires Present(y.disk) && y.up && Takes(y, ids) && stopAfter > 5
    ensures bytes == Snap.Encode(env.digest, ImageOf(env.cfg.window, y.engine, ids))
            && y' == Next(env, y, TakeSnapshot(ids, stopAfter, part))
    ensures y'.disk.snaps == [Some(bytes)] && |y'.disk.logs| == 1 && y'.disk.logs[0].bytes == Header(env.sum)
  {
    bytes := Snap.Encode(env.digest, ImageOf(env.cfg.window, y.engine, ids));
    y' := AfterSnapshot(env, y, bytes, stopAfter, part);
  }

  lemma PoisonedSnapshotAt(env: Env, y: Sys, ids: seq<AccountID>, stopAfter: nat, part: nat, spare: Bytes)
    requires Present(y.disk) && y.up && Good(env.cfg.window, y.engine) && stopAfter > 5
    requires Takes(y, ids) && Sized(env, y, TakeSnapshot(ids, stopAfter, part))
    ensures Next(env, Next(env, y, TakeSnapshot(ids, stopAfter, part)), Reopen(spare)).engine == y.engine
  {
    var y', bytes := ResetBy(env, y, ids, stopAfter, part);
    ImageIsRestored(env, y.engine, ids);
    ReopenAfterReset(env, y', bytes, y.engine, spare);
  }

  lemma LeftoverAt(env: Env, y: Sys, cs: seq<Command>, storage: Storage, ids: seq<AccountID>, stopAfter: nat, part: nat,
      spare: Bytes)
    requires env.cfg.window > 0 && Present(y.disk) && y.up && !y.poisoned && Good(env.cfg.window, y.engine)
             && stopAfter > 5
    requires var failed := Next(env, y, Submit(cs, storage));
             failed.poisoned && Takes(failed, ids) && Sized(env, failed, TakeSnapshot(ids, stopAfter, part))
    ensures Next(env, Next(env, Next(env, y, Submit(cs, storage)), TakeSnapshot(ids, stopAfter, part)),
            Reopen(spare)).engine
         == y.engine.(slots := StageAll(y.engine, cs).slots)
  {
    FailedLeaves(env, y, cs, storage);
    LeftoverGood(env.cfg.window, y.engine, cs);
    PoisonedSnapshotAt(env, AfterSubmit(env, y, cs, storage), ids, stopAfter, part, spare);
  }

  /** A failed batch poisons the engine, but a snapshot of it can still be taken. The store that is then
      opened has the agents and registrations of the failed batch; it is the store from before the batch
      exactly if no fresh command creates an account or is about a registered one. */
  lemma PoisonedSnapshotIff(env: Env, es: seq<Event>, cs: seq<Command>, storage: Storage, ids: seq<AccountID>,
      stopAfter: nat, part: nat, spare: Bytes)
    requires env.cfg.window > 0 && AllProper(env, Created(env), es) && stopAfter > 5
    requires var y := Run(env, es); y.up && !y.poisoned
    requires var failed := Next(env, Run(env, es), Submit(cs, storage));
             failed.poisoned && Takes(failed, ids) && Sized(env, failed, TakeSnapshot(ids, stopAfter, part))
    ensures var e := Run(env, es).engine; var failed := Next(env, Run(env, es), Submit(cs, storage));
            var e' := Next(env, Next(env, failed, TakeSnapshot(ids, stopAfter, part)), Reopen(spare)).engine;
            && e' == e.(slots := StageAll(e, cs).slots)
            && (e' == e <==> forall k: nat | k < |cs| && FreshAt(e, cs, k) ::
                 cs[k].account !in e.slots && cs[k].kind != CREATE)
  {
    var l := RunInvariant(env, es);
    RunParts(env, Run(env, es), l);
    GoodNow(env, Run(env, es), l);
    LeftoverAt(env, Run(env, es), cs, storage, ids, stopAfter, part, spare);
    FailedBatchLeavesNothingIff(Run(env, es).engine, cs);
  }
}
