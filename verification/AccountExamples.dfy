/** Runs of the account engine that show where its promises end. */
module AccountExamples {
  import opened Bytes
  import opened Accounts
  import opened AccountEngine
  import opened AccountInvariants
  import opened AccountLog
  import opened AccountWal
  import opened AccountImages
  import opened AccountRecovery
  import opened AccountRuns
  import opened AccountDurability
  import Snap = AccountSnapshot

  // Account 1 is created with a balance of 10, by command "x".
  const CREATE_ONE := Command([120], CREATE, 1, 0, 10)

  const CREATED := Record(1, [120], CREATE, 1, 0, 10, true, APPLIED, 1, 1, 10, 0, STATUS_OPEN, 0, 0, NO_PENDING)

  const STAGED: Slots := map[1 := Slot(Account(1, 0, 0, 0), false, Agent(NO_PENDING, 1))]

  const ONE := Engine(map[1 := Slot(Account(1, 10, STATUS_OPEN, 1), true, Agent(NO_PENDING, 1))],
                      [LedgerEntry(1, [120], 1, 0, 10, 1)], map[[120] := Result(1, [120], true, APPLIED, 1, 1, false)],
                          [[120]], 1)

  lemma CreateStages()
    ensures var st := StageAll(EMPTY, [CREATE_ONE]); st.records == [CREATED] && st.slots == STAGED
  {
    StageSingle(EMPTY, CREATE_ONE);
  }

  lemma CreateApplies(window: nat)
    requires window > 0
    ensures ApplyAll(window, EMPTY.(slots := STAGED), [CREATED]) == ONE
  {
    assert [CREATED][..0] == [];
    assert ApplyAll(window, EMPTY.(slots := STAGED), [CREATED]) == Apply(window, EMPTY.(slots := STAGED), CREATED);
  }

  lemma CreateFits()
    ensures Encodable(CREATED) && |Payload([CREATED])| <= MAX_FRAME_BYTES && FrameOk([CREATED])
  {
    assert RecordsBytes([CREATED]) == RecordBytes(CREATED) + RecordsBytes([]);
    assert |RecordBytes(CREATED)| < 1000;
  }

  lemma CreateAdmitted(cfg: Config)
    requires cfg.maxAccounts > 0 && cfg.batchMax > 0
    ensures Admitted(cfg, EMPTY, [CREATE_ONE])
  {
    assert NewAccounts(EMPTY.slots, [CREATE_ONE]) == {1};
  }

  predicate Usable(env: Env) { env.cfg.window > 0 && env.cfg.maxAccounts > 0 && env.cfg.batchMax > 0 }

  // ------------------------------------------------------------------ a lost answer

  lemma FirstProper(env: Env, e: Event)
    requires Sized(env, Created(env), e) && Faithful(env, Created(env), e)
    ensures Run(env, [e]) == Next(env, Created(env), e) && AllProper(env, Created(env), [e])
  {
    assert [e][..0] == [];
    assert RunFrom(env, Created(env), []) == Created(env) && AllProper(env, Created(env), []);
  }

  lemma SecondProper(env: Env, d: Event, e: Event)
    requires AllProper(env, Created(env), [d]) && Sized(env, Run(env, [d]), e) && Faithful(env, Run(env, [d]), e)
    ensures Run(env, [d, e]) == Next(env, Run(env, [d]), e) && AllProper(env, Created(env), [d, e])
  {
    assert [d, e][..1] == [d];
  }

  // The first batch reaches the log, but is not synced.
  lemma UnsyncedCreate(env: Env) returns (y: Sys)
    requires Usable(env)
    ensures y == Next(env, Created(env), Submit([CREATE_ONE], SyncFails))
    ensures y.disk
            == Disk([None], [Log(Header(env.sum), 0), Log(Header(env.sum) + Frame(env.sum, [CREATED]), 0)],
            24 + |Frame(env.sum, [CREATED])|)
    ensures y.up && y.poisoned && y.history == [[CREATED]] && y.acked == 0
  {
    var created := Created(env);
    CreateStages();
    CreateFits();
    CreateAdmitted(env.cfg);
    WrittenAtEnd(Header(env.sum), Frame(env.sum, [CREATED]));
    y := AfterAppend(env, created, StageAll(EMPTY, [CREATE_ONE]), SyncFails);
  }

  lemma CreateRecovers(env: Env, spare: Bytes)
    requires Usable(env)
    ensures Recover(env, None, Header(env.sum) + Frame(env.sum, [CREATED]), spare)
            == Found(ONE, |Header(env.sum) + Frame(env.sum, [CREATED])|)
  {
    var fs := [[CREATED]];
    CreateFits();
    NothingIsTorn(env.sum);
    assert Frames(env.sum, fs) == Frame(env.sum, [CREATED]) + Frames(env.sum, []);
    assert Frames(env.sum, fs) == Frame(env.sum, [CREATED]);
    var kept := Header(env.sum) + Frames(env.sum, fs);
    assert kept + [] == kept;
    ScanFrames(env.sum, fs, [], spare, 0);
    assert Flatten(fs) == [CREATED] + Flatten([]);
    assert Flatten(fs) == [CREATED];
    AboveAll([CREATED], 0);
    CreateReplays(env.cfg.window);
    RecoverScanned(env, None, kept, spare, EMPTY, [CREATED], |kept|, ONE);
  }

  lemma CreateReplays(window: nat)
    requires window > 0
    ensures Replay(window, EMPTY, [CREATED]) == Some(ONE)
  {
    assert [CREATED][..0] == [];
    assert Replay(window, EMPTY, []) == Some(EMPTY);
    assert Apply(window, EMPTY, CREATED) == ONE;
  }

  // Opening the files shows the account.
  lemma CreateReopened(env: Env, y: Sys, spare: Bytes) returns (y': Sys)
    requires Usable(env) && y.history == [[CREATED]] && y.acked == 0
    requires y.disk
             == Disk([None], [Log(Header(env.sum), 0), Log(Header(env.sum) + Frame(env.sum, [CREATED]), 0)],
             24 + |Frame(env.sum, [CREATED])|)
    ensures y' == Next(env, y, Reopen(spare)) && y'.up && !y'.poisoned && y'.engine == ONE && y'.disk == y.disk
    ensures y'.history == [[CREATED]] && y'.acked == 0
  {
    var wal := Header(env.sum) + Frame(env.sum, [CREATED]);
    CreateRecovers(env, spare);
    assert wal[..|wal|] == wal;
    y' := ReopenedState(env, y, ONE, |wal|, Log(wal, 0));
  }

  lemma RepeatedCreate()
    ensures StageAll(ONE, [CREATE_ONE]).records == []
            && StageAll(ONE, [CREATE_ONE]).replies == [Result(1, [120], true, APPLIED, 1, 1, true)]
  {
    StageSingle(ONE, CREATE_ONE);
  }

  /** A batch whose sync failed is shown by the process that opens the files next. It answers the
      command as done, again and again, writing nothing; and then power is lost and the account with it. */
  lemma LostAnswerExample(env: Env, spare: Bytes)
    requires Usable(env)
    ensures var y := Run(env, [Submit([CREATE_ONE], SyncFails), Reopen(spare)]);
            && AllProper(env, Created(env), [Submit([CREATE_ONE], SyncFails), Reopen(spare)]) && y.up && !y.poisoned
            && StageAll(y.engine, [CREATE_ONE]).replies == [Result(1, [120], true, APPLIED, 1, 1, true)]
            && Next(env, y, Submit([CREATE_ONE], Works)) == y
            && Next(env, y, Crash(0, 0, 24)).history == [] && |y.disk.logs| > 0
            && Open(env, None, LeftLog(y, 0, 24), spare) == Opened(EMPTY)
  {
    CreateStages();
    CreateFits();
    FirstProper(env, Submit([CREATE_ONE], SyncFails));
    SecondProper(env, Submit([CREATE_ONE], SyncFails), Reopen(spare));
    var failed := UnsyncedCreate(env);
    var y := CreateReopened(env, failed, spare);
    RepeatedCreate();
    HeaderAlone(env, y, spare);
  }

  lemma HeaderAlone(env: Env, y: Sys, spare: Bytes)
    requires y.disk.snaps == [None] && |y.disk.logs| == 2 && y.disk.logs[0] == Log(Header(env.sum), 0)
             && y.history == [[CREATED]]
    ensures Next(env, y, Crash(0, 0, 24)).history == [] && Open(env, None, LeftLog(y, 0, 24), spare) == Opened(EMPTY)
  {
    assert Header(env.sum)[..24] == Header(env.sum);
    RecoverBlank(env, None, EMPTY, []);
    RecoverBlank(env, None, EMPTY, spare);
    assert Flatten([[CREATED]]) == [CREATED] + Flatten([]);
    assert [[CREATED]][..0] == [];
    UptoBy([[CREATED]], 0, 0);
  }

  // ----------------------------------------------------------- headers torn and overwritten

  /** Power lost while the header of a new log is on its way leaves a store that never opens. */
  lemma TornHeaderExample(env: Env, cut: nat, spare: Bytes)
    requires 0 < cut < 24
    ensures var y := Run(env, [Crash(0, 0, cut)]);
            AllProper(env, Created(env), [Crash(0, 0, cut)]) && !y.up && Next(env, y, Reopen(spare)) == y
  {
    FirstProper(env, Crash(0, 0, cut));
    var y := Next(env, Created(env), Crash(0, 0, cut));
    var wal := Header(env.sum)[..cut];
    assert Survives(Log(Header(env.sum), 0), cut) == wal;
    RecoverRuined(env, None, wal, []);
    RecoverRuined(env, None, wal, spare);
  }

  lemma EmptyImage(env: Env)
    requires env.cfg.window < U32_LIMIT && forall b :: |env.digest(b)| == 32
    ensures Sized(env, Created(env), TakeSnapshot([], 5, 0)) && Takes(Created(env), [])
  {
    var img := ImageOf(env.cfg.window, EMPTY, []);
    assert img.rows == [] && img.results == [] && img.ledger == [];
    assert |Snap.Body(img)| < U64_LIMIT;
  }

  lemma EmptyRestored(env: Env) returns (bytes: Bytes)
    requires env.cfg.window < U32_LIMIT && forall b :: |env.digest(b)| == 32
    ensures bytes == Snap.Encode(env.digest, ImageOf(env.cfg.window, EMPTY, []))
            && Restored(env, Some(bytes)) == Some(EMPTY)
  {
    EmptyImage(env);
    bytes := Snap.Encode(env.digest, ImageOf(env.cfg.window, EMPTY, []));
    assert Good(env.cfg.window, EMPTY);
    ImageIsRestored(env, EMPTY, []);
  }

  // The snapshot has written the header and could not sync it.
  lemma HalfResetStore(env: Env) returns (y: Sys)
    requires env.cfg.window < U32_LIMIT && forall b :: |env.digest(b)| == 32
    ensures y == Run(env, [TakeSnapshot([], 5, 0)]) && AllProper(env, Created(env), [TakeSnapshot([], 5, 0)])
    ensures y.up && !y.poisoned && y.engine == EMPTY && Present(y.disk) && y.disk.offset == 0 && y.history == []
            && Current(y.disk) == Log(Header(env.sum), 0)
    ensures Restored(env, y.disk.snaps[|y.disk.snaps| - 1]) == Some(EMPTY)
  {
    EmptyImage(env);
    FirstProper(env, TakeSnapshot([], 5, 0));
    var bytes := EmptyRestored(env);
    y := HalfResetState(env, Created(env), bytes, 5, 0, 0, Log(Header(env.sum), 0));
  }

  /** A snapshot whose last sync fails is reported and leaves the engine running. The next batch is
      acknowledged as durable, but has replaced the header: nothing that a crash leaves, and not what is
      there, can be opened again. */
  lemma OverwrittenHeaderExample(env: Env)
    requires Usable(env) && env.cfg.window < U32_LIMIT && forall b :: |env.digest(b)| == 32
    ensures var y := Next(env, Run(env, [TakeSnapshot([], 5, 0)]), Submit([CREATE_ONE], Works));
            && y.up && !y.poisoned && y.acked == |y.history| == 1
            && forall i: nat, j: nat, cut: nat, spare: Bytes | Chosen(y, i, j) ::
                 Left(env, y, i, j, cut, spare) == Unreadable
  {
    var y := HalfResetStore(env);
    RecoverBlank(env, y.disk.snaps[|y.disk.snaps| - 1], EMPTY, []);
    CreateStages();
    CreateFits();
    CreateAdmitted(env.cfg);
    assert Writes(env, y, [CREATE_ONE]);
    WriteAfterFailedResetIff(env, [TakeSnapshot([], 5, 0)], [CREATE_ONE]);
  }

  // ------------------------------------------------------------- a transfer nobody began

  const BEGIN := Command([121], BEGIN_TRANSFER, 1, 2, 5)

  // The agent of account 1 as the failed command has left it.
  const LEFT := ONE.(slots := map[1 := Slot(Account(1, 10, STATUS_OPEN, 1), true, Agent(Pending(true, 2, 5), 2))])

  lemma StageSingle(e: Engine, c: Command)
    ensures StageAll(e, [c]) == Stage(e, Begin(e), c)
  {
    assert [c][..0] == [];
  }

  lemma BeginDecided()
    ensures Decided(ONE, Begin(ONE), BEGIN)
         == Record(2, [121], BEGIN_TRANSFER, 1, 2, 5, true, PREPARED, 0, 2, 10, 0, STATUS_OPEN, 1, 0,
             Pending(true, 2, 5))
  {}

  lemma BeginStages()
    ensures var st := StageAll(ONE, [BEGIN]);
              ONE.(slots := st.slots) == LEFT && |st.records| == 1 && Encodable(st.records[0])
    ensures |Payload(StageAll(ONE, [BEGIN]).records)| <= MAX_FRAME_BYTES
  {
    var st, r := StageAll(ONE, [BEGIN]), Decided(ONE, Begin(ONE), BEGIN);
    StageSingle(ONE, BEGIN);
    BeginDecided();
    assert st == StageFresh(ONE, Begin(ONE), BEGIN) && st.records == [r];
    assert RecordsBytes([r]) == RecordBytes(r) + RecordsBytes([]);
    assert |RecordBytes(r)| < 1000;
  }

  lemma LeftImage(env: Env, y: Sys)
    requires env.cfg.window < U32_LIMIT && (forall b :: |env.digest(b)| == 32) && y.engine == LEFT
    ensures Takes(y, [1]) && Sized(env, y, TakeSnapshot([1], 7, 0))
  {
    var img := ImageOf(env.cfg.window, LEFT, [1]);
    assert |img.rows| == 1 && img.results == [LEFT.results[[120]]] && |img.ledger| == 1;
    assert |Snap.Entries(img.ledger)| == |Snap.EntryBytes(img.ledger[0]) + Snap.Entries([])| < 1000;
    assert |Snap.Results(img.results)| == |Snap.ResultBytes(img.results[0]) + Snap.Results([])| < 1000;
    assert |Snap.Body(img)| < U64_LIMIT;
  }

  lemma CreatedStore(env: Env) returns (y: Sys)
    requires Usable(env)
    ensures y == Run(env, [Submit([CREATE_ONE], Works)]) && AllProper(env, Created(env), [Submit([CREATE_ONE], Works)])
    ensures y.up && !y.poisoned && y.engine == ONE && y.acked == |y.history| == 1 && Present(y.disk)
  {
    CreateStages();
    CreateFits();
    CreateAdmitted(env.cfg);
    CreateApplies(env.cfg.window);
    FirstProper(env, Submit([CREATE_ONE], Works));
    y := Next(env, Created(env), Submit([CREATE_ONE], Works));
  }

  lemma FailedBegin(env: Env, y: Sys) returns (failed: Sys)
    requires Usable(env) && y.up && !y.poisoned && y.engine == ONE && Present(y.disk)
    ensures failed == Next(env, y, Submit([BEGIN], WriteStops(0))) && failed.poisoned && failed.engine == LEFT
            && failed.history == y.history
  {
    BeginStages();
    var st := StageAll(ONE, [BEGIN]);
    assert NewAccounts(ONE.slots, [BEGIN]) == {};
    assert |ONE.slots| == 1;
    var frame := Frame(env.sum, st.records);
    assert PartWritten(WriteStops(0), frame) == [] != frame;
    failed := AfterAppend(env, y, st, WriteStops(0));
  }


  /** A transfer is begun, the append fails, and the caller is told so. A snapshot of the poisoned engine
      makes it durable all the same: the store that is opened next can confirm it. */
  lemma PendingTransferExample(env: Env, spare: Bytes)
    requires Usable(env) && env.cfg.window < U32_LIMIT && forall b :: |env.digest(b)| == 32
    ensures var y := Run(env, [Submit([CREATE_ONE], Works)]);
            var failed := Next(env, y, Submit([BEGIN], WriteStops(0)));
            var y' := Next(env, Next(env, failed, TakeSnapshot([1], 7, 0)), Reopen(spare));
            && y.engine == ONE && y.acked == |y.history| == 1 && failed.poisoned && failed.history == y.history
            && y'.engine == LEFT && y'.engine != y.engine && y'.engine.slots[1].agent.pending == Pending(true, 2, 5)
  {
    var y := CreatedStore(env);
    var failed := FailedBegin(env, y);
    BeginStages();
    LeftImage(env, failed);
    PoisonedSnapshotIff(env, [Submit([CREATE_ONE], Works)], [BEGIN], WriteStops(0), [1], 7, 0, spare);
  }
}
