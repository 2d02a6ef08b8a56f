/**
 Concrete runs of the keyed store in which what one would expect fails. The exact conditions are
 stated beside the theorems about all runs.
 */
module KeyedExamples {
  import opened Bytes
  import opened KeyedRecords
  import opened KeyedRecovery
  import opened KeyedSnapshot
  import opened KeyedCommit
  import opened KeyedRuns

  // ------------------------------------------------------- deletes that replay refuses

  lemma TwoDeletes()
    ensures var ms := [Mutation([97], [], true), Mutation([98], [], true)];
            CountAfter(map[], ms) == 0 && LiveTotal(ms) == 0 && Total(ms) == 2
  {
    var a, b := Mutation([97], [], true), Mutation([98], [], true);
    assert [a, b][..1] == [a] && [a][..0] == [];
    assert CountAfter(map[], [a]) == 0 && LiveTotal([a]) == 0 && Total([a]) == 1;
  }

  lemma TwoDeleteWrites(o: Options, c: Codec)
    requires !o.catalogFormat
    ensures MutationsOf(WritesOf(o, c, [Delete([97]), Delete([98])]))
            == [Mutation([97], [], true), Mutation([98], [], true)]
  {
    var a, b := Delete([97]), Delete([98]);
    assert [a, b][..1] == [a] && [a][..0] == [];
    var writes: Writes := map[[97 as byte] := None, [98 as byte] := None];
    assert WritesOf(o, c, []) == map[];
    assert WritesOf(o, c, [a]) == map[[97 as byte] := None];
    assert WritesOf(o, c, [a, b]) == writes;
    var keys: seq<Bytes> := [[97], [98]];
    assert Less([97], [98]);
    assert Elements(keys) == writes.Keys;
    AscendingUnique(keys, Sorted(writes.Keys));
  }

  lemma DeletesExecute(o: Options, c: Codec, f: Callback) returns (r: Record)
    requires o == Options(1, 1, 1, 1, false) && c.validJson([48])
    requires f(map[]) == Completes([48], [Delete([97]), Delete([98])])
    ensures r == Record(1, [120], true, [], [48], [Mutation([97], [], true), Mutation([98], [], true)])
    ensures Execute(o, c, EMPTY, Request([120], Some(f), false)) == Persist(r) && Total(r.mutations) == 2
  {
    TwoDeleteWrites(o, c);
    TwoDeletes();
    assert !Blank([120]) by { assert 120 in [120 as byte]; }
    r := Record(1, [120], true, [], [48], [Mutation([97], [], true), Mutation([98], [], true)]);
  }

  lemma DeletesCommit(o: Options, c: Codec, f: Callback, r: Record) returns (g: Group)
    requires Execute(o, c, EMPTY, Request([120], Some(f), false)) == Persist(r) && |c.encode(r)| <= MAX_FRAME_BYTES
    ensures g == Commit(o, c, NO_FAULT, EMPTY, [Request([120], Some(f), false)])
    ensures !g.failed && g.appended == [r] && g.log == Frame(c, r)
  {
    CommitOne(o, c, EMPTY, Request([120], Some(f), false));
    g := Commit(o, c, NO_FAULT, EMPTY, [Request([120], Some(f), false)]);
  }

  lemma DeletesRefused(o: Options, c: Codec, r: Record)
    requires o.Normalized() && Lossless(c) && CleanText(r) && |c.encode(r)| <= MAX_FRAME_BYTES
    requires Follows(o, c, EMPTY, r) && !Fits(o, r)
    ensures Recover(o, c, None, Frame(c, r)) == Refused(Capacity)
  {
    OneRecordLog(o, c, r);
    RecoverImage(o, c, None, [r], 0, Frame(c, r), Span(0, 0, 0, 1), []);
    assert r in [r];
  }

  lemma OneRecordLog(o: Options, c: Codec, r: Record)
    requires o.Normalized() && Encodable(c, r) && Follows(o, c, EMPTY, r)
    ensures Legal(o, c, [r]) && Fold(o, [r]) == Apply(o, EMPTY, r) && SnapshotAt(o, c, None, [r], 0)
    ensures LogAt(c, Frame(c, r), [r], Span(0, 0, 0, 1), []) && [r][0..1] == [r] && [r][0..0] == []
  {
    assert [r][..0] == [] && [r][0..1] == [r] && [r][0..0] == [];
    assert Frames(c, [r]) == Frame(c, r) + Frames(c, []);
    assert [] + Frame(c, r) + [] == Frame(c, r);
  }

  // The live path bounds a transaction without the key bytes of its deletes, replay with them; so
  // a command the store accepts and acknowledges can keep it from being opened again.
  lemma OversizedDeletesExample(c: Codec, f: Callback)
    requires Lossless(c) && c.validJson([48])
    requires |c.encode(Record(1, [120], true, [], [48], [Mutation([97], [], true), Mutation([98], [], true)]))|
             <= MAX_FRAME_BYTES
    requires f(map[]) == Completes([48], [Delete([97]), Delete([98])])
    ensures var o := Options(1, 1, 1, 1, false);
            var y := AfterGroup(o, c, FRESH, NO_FAULT, [Request([120], Some(f), false)]);
            && o.Normalized() && !y.poisoned && y.acked == 1
            && Recover(o, c, y.disk.snaps[0], y.disk.logs[0].bytes) == Refused(Capacity)
  {
    var o := Options(1, 1, 1, 1, false);
    var r := DeletesExecute(o, c, f);
    ExecuteFollows(o, c, EMPTY, Request([120], Some(f), false));
    var g := DeletesCommit(o, c, f, r);
    assert ValidUtf8([]) && ValidUtf8([120]) && ValidUtf8([97]) && ValidUtf8([98]);
    DeletesRefused(o, c, r);
    assert [] + Frame(c, r) == Frame(c, r);
  }

  // ----------------------------------------------------------- commands that write nothing

  const SYNC_FAILS := Plan(None, 0, true)

  function Note(sequence: nat, id: Bytes): Record { Record(sequence, id, true, [], [48], []) }

  // The callback accepts every command without writing.
  ghost predicate Notes(o: Options, c: Codec, f: Callback)
  {
    o.Normalized() && Lossless(c) && c.validJson([48]) && forall records :: f(records) == Completes([48], [])
  }

  lemma NoteExecutes(o: Options, c: Codec, f: Callback, s: State, id: Bytes)
    requires Notes(o, c, f) && s.records == map[] && id !in s.dedupe && !Blank(id) && |id| == 1
    ensures Execute(o, c, s, Request(id, Some(f), false)) == Persist(Note(s.sequence + 1, id))
  {
    NoWrites(o, c);
    assert CountAfter(s.records, []) == 0 && LiveTotal([]) == 0;
  }

  lemma NoteCommits(o: Options, c: Codec, f: Callback, plan: Plan, s: State, id: Bytes) returns (g: Group)
    requires Notes(o, c, f) && s.records == map[] && id !in s.dedupe && !Blank(id) && |id| == 1 && plan.failAt.None?
    requires |c.encode(Note(s.sequence + 1, id))| <= MAX_FRAME_BYTES
    ensures g == Commit(o, c, plan, s, [Request(id, Some(f), false)]) && g.failed == plan.syncFails
    ensures var r := Note(s.sequence + 1, id); g.appended == [r] && g.log == Frame(c, r) && g.state == Apply(o, s, r)
  {
    var q := Request(id, Some(f), false);
    NoteExecutes(o, c, f, s, id);
    assert [q][..0] == [];
    assert Steps(o, c, plan, false, s, [q]) == Step(o, c, plan, false, Start(s), q);
    g := Commit(o, c, plan, s, [q]);
  }

  lemma NoteRepeats(o: Options, c: Codec, f: Callback, s: State, id: Bytes) returns (g: Group)
    requires id in s.dedupe && !Blank(id) && |id| == 1
    ensures g == Commit(o, c, NO_FAULT, s, [Request(id, Some(f), false)]) && !g.failed && g.appended == []
    ensures g.replies == [Decided(DecisionOf(s.dedupe[id]).(duplicate := true))]
  {
    CommitOne(o, c, s, Request(id, Some(f), false));
    g := Commit(o, c, NO_FAULT, s, [Request(id, Some(f), false)]);
  }

  lemma NoteIsClean(c: Codec, f: Callback, o: Options, sequence: nat, id: Bytes)
    requires Notes(o, c, f) && |id| == 1 && id[0] < 128 && |c.encode(Note(sequence, id))| <= MAX_FRAME_BYTES
    ensures CleanRequest(Request(id, Some(f), false)) && Encodable(c, Note(sequence, id)) && Fits(o, Note(sequence, id))
  {
    assert ValidUtf8([]) && id[1..] == [] && ValidUtf8(id);
    assert CleanText(Note(sequence, id));
  }

  lemma OneMoreEvent(o: Options, c: Codec, y: Sys, es: seq<Event>, e: Event)
    ensures RunFrom(o, c, y, es + [e]) == Next(o, c, RunFrom(o, c, y, es), e)
  {
    assert (es + [e])[..|es|] == es;
  }

  lemma TwoEvents(o: Options, c: Codec, y: Sys, d: Event, e: Event) returns (y': Sys)
    ensures y' == Next(o, c, Next(o, c, y, d), e) == RunFrom(o, c, y, [d, e])
  {
    OneMoreEvent(o, c, y, [], d);
    OneMoreEvent(o, c, y, [d], e);
    assert [] + [d] == [d] && [d] + [e] == [d, e];
    y' := RunFrom(o, c, y, [d, e]);
  }

  lemma ThreeEvents(o: Options, c: Codec, y: Sys, d: Event, e: Event, f: Event)
    ensures RunFrom(o, c, y, [d, e, f]) == Next(o, c, Next(o, c, Next(o, c, y, d), e), f)
  {
    var y' := TwoEvents(o, c, y, d, e);
    OneMoreEvent(o, c, y, [d, e], f);
    assert [d, e] + [f] == [d, e, f];
  }

  // --------------------------------------------------------- a decision that is lost

  lemma FailedNote(o: Options, c: Codec, f: Callback, id: Bytes) returns (y: Sys)
    requires Notes(o, c, f) && !Blank(id) && |id| == 1 && id[0] < 128 && |c.encode(Note(1, id))| <= MAX_FRAME_BYTES
    ensures y == Run(o, c, [CommitGroup(SYNC_FAILS, [Request(id, Some(f), false)])]) && y.poisoned && y.acked == 0
    ensures y.disk == Disk([None], [Log(Frame(c, Note(1, id)), 0)]) && y.history == [Note(1, id)]
  {
    var r, e := Note(1, id), CommitGroup(SYNC_FAILS, [Request(id, Some(f), false)]);
    var g := NoteCommits(o, c, f, SYNC_FAILS, EMPTY, id);
    assert [] + Frame(c, r) == Frame(c, r) && [] + [r] == [r];
    OneMoreEvent(o, c, FRESH, [], e);
    assert [] + [e] == [e];
    y := Sys(g.state, true, Disk([None], [Log(Frame(c, r), 0)]), [r], 0);
  }

  lemma NoteReopened(o: Options, c: Codec, f: Callback, id: Bytes, y: Sys) returns (y': Sys)
    requires Notes(o, c, f) && !Blank(id) && |id| == 1 && id[0] < 128 && |c.encode(Note(1, id))| <= MAX_FRAME_BYTES
    requires y.disk == Disk([None], [Log(Frame(c, Note(1, id)), 0)]) && y.history == [Note(1, id)] && y.acked == 0
    ensures y' == Next(o, c, y, Reopen)
    ensures y'
            == Sys(Apply(o, EMPTY, Note(1, id)), false, Disk([None], [Log(Frame(c, Note(1, id)), 0)]), [Note(1, id)], 0)
  {
    var r := Note(1, id);
    NoteIsClean(c, f, o, 1, id);
    NoteExecutes(o, c, f, EMPTY, id);
    ExecuteFollows(o, c, EMPTY, Request(id, Some(f), false));
    OneRecordLog(o, c, r);
    RecoverImage(o, c, None, [r], 0, Frame(c, r), Span(0, 0, 0, 1), []);
    assert [r][..1] == [r] && [] + Frame(c, r) == Frame(c, r);
    y' := Next(o, c, y, Reopen);
  }

  lemma UnsyncedNote(o: Options, c: Codec, f: Callback, id: Bytes) returns (y: Sys)
    requires Notes(o, c, f) && !Blank(id) && |id| == 1 && id[0] < 128 && |c.encode(Note(1, id))| <= MAX_FRAME_BYTES
    ensures y == Run(o, c, [CommitGroup(SYNC_FAILS, [Request(id, Some(f), false)]), Reopen])
    ensures y == Sys(Apply(o, EMPTY, Note(1, id)), false, Disk([None], [Log(Frame(c, Note(1, id)), 0)]), [Note(1, id)],
            0)
  {
    var es := [CommitGroup(SYNC_FAILS, [Request(id, Some(f), false)])];
    var failed := FailedNote(o, c, f, id);
    y := NoteReopened(o, c, f, id, failed);
    OneMoreEvent(o, c, FRESH, es, Reopen);
    assert es + [Reopen] == [CommitGroup(SYNC_FAILS, [Request(id, Some(f), false)]), Reopen];
  }

  // With nothing synced a crash may leave an empty log, and the store opens empty.
  lemma CrashToNothing(o: Options, c: Codec, y: Sys, e: Event)
    requires y.disk.snaps == [None] && |y.disk.logs| == 1 && y.disk.logs[0].synced == 0 && Next(o, c, y, e) == y
    ensures var z := RunFrom(o, c, y, [e, Crash(0, 0, 0), Reopen]); !z.poisoned && z.state == EMPTY
  {
    ThreeEvents(o, c, y, e, Crash(0, 0, 0), Reopen);
    assert Survives(y.disk.logs[0], 0) == [] && LastSequence(c, []) == 0;
  }

  // The sync of a group fails, and the store is reopened as its error says. Repeating the command
  // is answered with its decision. Then power is lost, and the store opens without the command.
  lemma LostDecisionExample(o: Options, c: Codec, f: Callback)
    requires Notes(o, c, f) && |c.encode(Note(1, [120]))| <= MAX_FRAME_BYTES
    ensures var q := Request([120], Some(f), false);
            var y := Run(o, c, [CommitGroup(SYNC_FAILS, [q]), Reopen]);
            var g := Commit(o, c, NO_FAULT, y.state, [q]);
            var z := RunFrom(o, c, y, [CommitGroup(NO_FAULT, [q]), Crash(0, 0, 0), Reopen]);
            && !y.poisoned && g.replies == [Decided(DecisionOf(Note(1, [120])).(duplicate := true))]
            && !z.poisoned && z.state == EMPTY
  {
    assert !Blank([120]) by { assert 120 in [120 as byte]; }
    var y := UnsyncedNote(o, c, f, [120]);
    var g := NoteRepeats(o, c, f, y.state, [120]);
    CrashToNothing(o, c, y, CommitGroup(NO_FAULT, [Request([120], Some(f), false)]));
  }

  // ------------------------------------------------- a log that ends before its snapshot

  lemma NoteApplied(o: Options, s: State, r: Record)
    requires r.applied && r.mutations == []
    ensures var s' := Apply(o, s, r);
              s'.records == s.records && forall id <- s'.dedupe :: id == r.commandID || id in s.dedupe
  {}

  lemma FoldSnoc(o: Options, h: seq<Record>, r: Record)
    ensures Fold(o, h + [r]) == Apply(o, Fold(o, h), r)
  {
    assert (h + [r])[..|h|] == h;
  }

  lemma NoteLegal(o: Options, c: Codec, f: Callback, h: seq<Record>, s: State, id: Bytes) returns (h': seq<Record>)
    requires Notes(o, c, f) && Legal(o, c, h) && s == Fold(o, h) && s.records == map[] && id !in s.dedupe && !Blank(id)
             && |id| == 1
    ensures h' == h + [Note(|h| + 1, id)] && Legal(o, c, h') && Fold(o, h') == Apply(o, s, Note(|h| + 1, id))
  {
    h' := h + [Note(|h| + 1, id)];
    LegalState(o, c, h);
    NoteExecutes(o, c, f, s, id);
    ExecuteFollows(o, c, s, Request(id, Some(f), false));
    LegalSnoc(o, c, h, Note(|h| + 1, id));
    FoldSnoc(o, h, Note(|h| + 1, id));
  }

  lemma OneNote(o: Options, c: Codec, f: Callback) returns (h: seq<Record>)
    requires Notes(o, c, f)
    ensures h == [Note(1, [120])] && Legal(o, c, h) && Fold(o, h).records == map[] && forall id <- Fold(o, h).dedupe ::
              id == [120]
  {
    assert !Blank([120]) by { assert 120 in [120 as byte]; }
    h := NoteLegal(o, c, f, [], EMPTY, [120]);
    NoteApplied(o, EMPTY, Note(1, [120]));
    assert [] + [Note(1, [120])] == [Note(1, [120])];
  }

  lemma TwoNotes(o: Options, c: Codec, f: Callback) returns (h: seq<Record>)
    requires Notes(o, c, f) && |c.encode(Note(1, [120]))| <= MAX_FRAME_BYTES
             && |c.encode(Note(2, [121]))| <= MAX_FRAME_BYTES
    ensures h == [Note(1, [120]), Note(2, [121])] && Legal(o, c, h) && AllEncodable(c, h) && AllFit(o, h)
    ensures Fold(o, h).records == map[] && [122] !in Fold(o, h).dedupe
  {
    assert !Blank([121]) by { assert 121 in [121 as byte]; }
    NoteIsClean(c, f, o, 1, [120]);
    NoteIsClean(c, f, o, 2, [121]);
    var one := OneNote(o, c, f);
    h := NoteLegal(o, c, f, one, Fold(o, one), [121]);
    NoteApplied(o, Fold(o, one), Note(2, [121]));
  }

  // One command, another whose sync fails, and a reopening: two records, one of them durable.
  lemma OneOfTwoSynced(o: Options, c: Codec, f: Callback, h: seq<Record>) returns (y: Sys)
    requires Notes(o, c, f) && |c.encode(Note(1, [120]))| <= MAX_FRAME_BYTES
             && |c.encode(Note(2, [121]))| <= MAX_FRAME_BYTES
    requires h == [Note(1, [120]), Note(2, [121])] && Legal(o, c, h) && AllEncodable(c, h) && AllFit(o, h)
    ensures y == Run(o, c, [CommitGroup(NO_FAULT, [Request([120], Some(f), false)]),
                            CommitGroup(SYNC_FAILS, [Request([121], Some(f), false)]), Reopen])
    ensures var wal := Frame(c, h[0]) + Frame(c, h[1]);
            y == Sys(Fold(o, h), false, Disk([None], [Log(wal, |Frame(c, h[0])|)]), h, 1)
  {
    assert !Blank([120]) by { assert 120 in [120 as byte]; }
    assert !Blank([121]) by { assert 121 in [121 as byte]; }
    var a, b := CommitGroup(NO_FAULT, [Request([120], Some(f), false)]),
        CommitGroup(SYNC_FAILS, [Request([121], Some(f), false)]);
    var y1 := FirstCommit(o, c, f, a);
    var y2 := SecondFails(o, c, f, y1, h, b);
    ReopenBoth(o, c, h, y2);
    ThreeEvents(o, c, FRESH, a, b, Reopen);
    y := Run(o, c, [a, b, Reopen]);
  }

  lemma FirstCommit(o: Options, c: Codec, f: Callback, e: Event) returns (y: Sys)
    requires Notes(o, c, f) && |c.encode(Note(1, [120]))| <= MAX_FRAME_BYTES && !Blank([120])
    requires e == CommitGroup(NO_FAULT, [Request([120], Some(f), false)])
    ensures y == Next(o, c, FRESH, e)
    ensures y == Sys(Apply(o, EMPTY, Note(1, [120])), false,
                     Disk([None], [Log(Frame(c, Note(1, [120])), |Frame(c, Note(1, [120]))|)]), [Note(1, [120])], 1)
  {
    var g := NoteCommits(o, c, f, NO_FAULT, EMPTY, [120]);
    assert [] + g.log == g.log && [] + g.appended == g.appended;
    y := Next(o, c, FRESH, e);
  }

  lemma SecondFails(o: Options, c: Codec, f: Callback, y: Sys, h: seq<Record>, e: Event) returns (y': Sys)
    requires Notes(o, c, f) && |c.encode(Note(2, [121]))| <= MAX_FRAME_BYTES && !Blank([121])
    requires h == [Note(1, [120]), Note(2, [121])] && e == CommitGroup(SYNC_FAILS, [Request([121], Some(f), false)])
    requires y == Sys(Apply(o, EMPTY, h[0]), false, Disk([None], [Log(Frame(c, h[0]), |Frame(c, h[0])|)]), [h[0]], 1)
    ensures y' == Next(o, c, y, e) && y'.poisoned && y'.history == h && y'.acked == 1
    ensures y'.disk == Disk([None], [Log(Frame(c, h[0]) + Frame(c, h[1]), |Frame(c, h[0])|)])
  {
    var g := NoteCommits(o, c, f, SYNC_FAILS, y.state, [121]);
    assert [h[0]] + [h[1]] == h;
    y' := Next(o, c, y, e);
    assert y'.disk.logs == [] + [Log(Frame(c, h[0]) + Frame(c, h[1]), |Frame(c, h[0])|)];
  }

  lemma TwoFrames(c: Codec, h: seq<Record>)
    requires |h| == 2 && AllEncodable(c, h)
    ensures LogAt(c, Frame(c, h[0]) + Frame(c, h[1]), h, Span(0, 0, 0, 2), [])
    ensures LogAt(c, Frame(c, h[0]), h, Span(0, 0, 0, 1), [])
  {
    assert h[0..0] == [] && h[0..2] == h && h[0..1] == [h[0]] && h[1..] == [h[1]] && h[1..][1..] == [];
    assert Frames(c, h[1..]) == Frame(c, h[1]) + [] == Frame(c, h[1]);
    assert Frames(c, h[0..1]) == Frame(c, h[0]) + [] == Frame(c, h[0]);
    assert Frames(c, h) == Frame(c, h[0]) + Frame(c, h[1]);
    assert [] + Frames(c, h) + [] == Frames(c, h) && [] + Frame(c, h[0]) + [] == Frame(c, h[0]);
    assert h[0] in h;
  }

  lemma ReopenBoth(o: Options, c: Codec, h: seq<Record>, y: Sys)
    requires o.Normalized() && |h| == 2 && Legal(o, c, h) && AllEncodable(c, h) && AllFit(o, h)
    requires y.disk.snaps == [None] && |y.disk.logs| == 1 && y.disk.logs[0].bytes == Frame(c, h[0]) + Frame(c, h[1])
    ensures Next(o, c, y, Reopen) == y.(state := Fold(o, h), poisoned := false)
  {
    RecoverBoth(o, c, h);
    OpensAsIs(o, c, y, Fold(o, h));
  }

  lemma RecoverBoth(o: Options, c: Codec, h: seq<Record>)
    requires o.Normalized() && |h| == 2 && Legal(o, c, h) && AllEncodable(c, h) && AllFit(o, h)
    ensures var wal := Frame(c, h[0]) + Frame(c, h[1]); Recover(o, c, None, wal) == Replayed(Fold(o, h), |wal|)
  {
    var s := Span(0, 0, 0, 2);
    TwoFrames(c, h);
    assert h[..0] == [] && SnapshotAt(o, c, None, h, 0) && h[0..0] == [] && h[0..2] == h && h[..2] == h;
    RecoverImage(o, c, None, h, 0, Frame(c, h[0]) + Frame(c, h[1]), s, []);
    assert SpanBytes(c, h, s) + [] == SpanBytes(c, h, s);
  }

  lemma SnapshotTaken(o: Options, c: Codec, h: seq<Record>, y: Sys) returns (y': Sys, snap: Option<Snapshot>)
    requires o.Normalized() && Legal(o, c, h) && Present(y) && y.state == Fold(o, h) && !y.poisoned && y.history == h
    ensures y' == Next(o, c, y, TakeSnapshot(2)) && y'.disk == Disk([snap], y.disk.logs) && y'.history == h
    ensures SnapshotAt(o, c, snap, h, |h|)
  {
    SnapshotNow(o, c, h);
    y', snap := AfterSnapshot(y, 2), Some(SnapshotOf(Fold(o, h)));
  }

  lemma FirstSurvives(o: Options, c: Codec, h: seq<Record>, y: Sys, snap: Option<Snapshot>) returns (y': Sys)
    requires o.Normalized() && |h| == 2 && Legal(o, c, h) && AllEncodable(c, h) && SnapshotAt(o, c, snap, h, 2)
             && y.history == h
    requires y.disk == Disk([snap], [Log(Frame(c, h[0]) + Frame(c, h[1]), |Frame(c, h[0])|)])
    ensures y' == Next(o, c, y, Crash(0, 0, |Frame(c, h[0])|)) && y'.history == h && y'.acked == 2
    ensures y'.disk == Disk([snap], [Log(Frame(c, h[0]), |Frame(c, h[0])|)])
  {
    var one := Frame(c, h[0]);
    TwoFrames(c, h);
    ReachedIsLast(o, c, h, snap, 2, one, Span(0, 0, 0, 1), [], 2);
    assert (one + Frame(c, h[1]))[..|one|] == one && h[..2] == h;
    y' := Next(o, c, y, Crash(0, 0, |one|));
  }

  lemma RecoverFirst(o: Options, c: Codec, h: seq<Record>, snap: Option<Snapshot>)
    requires o.Normalized() && |h| == 2 && Legal(o, c, h) && AllEncodable(c, h) && AllFit(o, h)
             && SnapshotAt(o, c, snap, h, 2)
    ensures Recover(o, c, snap, Frame(c, h[0])) == Replayed(Fold(o, h), |Frame(c, h[0])|)
  {
    var s := Span(0, 0, 0, 1);
    TwoFrames(c, h);
    RecoverImage(o, c, snap, h, 2, Frame(c, h[0]), s, []);
    assert h[0..0] == [] && h[..2] == h && forall r <- h[0..1] :: r in h;
    assert SpanBytes(c, h, s) + [] == SpanBytes(c, h, s);
  }

  lemma OpensAsIs(o: Options, c: Codec, y: Sys, s: State)
    requires Present(y)
             && Recover(o, c, Last(y.disk.snaps), Last(y.disk.logs).bytes) == Replayed(s, |Last(y.disk.logs).bytes|)
    ensures Next(o, c, y, Reopen) == y.(state := s, poisoned := false)
  {}

  // A snapshot whose directory is synced, power lost before the log is truncated, and the part of
  // the log that was never synced is gone.
  lemma SnapshotThenCrash(o: Options, c: Codec, h: seq<Record>, y: Sys) returns (y': Sys)
    requires o.Normalized() && |h| == 2 && Legal(o, c, h) && AllEncodable(c, h) && AllFit(o, h)
    requires y == Sys(Fold(o, h), false, Disk([None], [Log(Frame(c, h[0]) + Frame(c, h[1]), |Frame(c, h[0])|)]), h, 1)
    ensures y' == RunFrom(o, c, y, [TakeSnapshot(2), Crash(0, 0, |Frame(c, h[0])|), Reopen])
    ensures !y'.poisoned && y'.state == Fold(o, h) && y'.history == h && y'.acked == 2 && |y'.disk.snaps| == 1
    ensures y'.disk.logs == [Log(Frame(c, h[0]), |Frame(c, h[0])|)]
    ensures Recover(o, c, y'.disk.snaps[0], Frame(c, h[0])).Replayed?
  {
    var y1, snap := SnapshotTaken(o, c, h, y);
    var y2 := FirstSurvives(o, c, h, y1, snap);
    RecoverFirst(o, c, h, snap);
    OpensAsIs(o, c, y2, Fold(o, h));
    ThreeEvents(o, c, y, TakeSnapshot(2), Crash(0, 0, |Frame(c, h[0])|), Reopen);
    y' := Next(o, c, y2, Reopen);
  }

  function BehindRun(c: Codec, f: Callback): seq<Event>
  {
    [CommitGroup(NO_FAULT, [Request([120], Some(f), false)]), CommitGroup(SYNC_FAILS, [Request([121], Some(f), false)]),
        Reopen]
    + [TakeSnapshot(2), Crash(0, 0, |Frame(c, Note(1, [120]))|), Reopen]
  }

  lemma BehindRunEnds(o: Options, c: Codec, f: Callback, h: seq<Record>) returns (y: Sys)
    requires Notes(o, c, f) && |c.encode(Note(1, [120]))| <= MAX_FRAME_BYTES
             && |c.encode(Note(2, [121]))| <= MAX_FRAME_BYTES
    requires h == [Note(1, [120]), Note(2, [121])] && Legal(o, c, h) && AllEncodable(c, h) && AllFit(o, h)
    ensures y == Run(o, c, BehindRun(c, f)) && !y.poisoned && y.state == Fold(o, h) && y.history == h && y.acked == 2
    ensures |y.disk.snaps| == 1 && y.disk.logs == [Log(Frame(c, h[0]), |Frame(c, h[0])|)]
    ensures Recover(o, c, y.disk.snaps[0], Frame(c, h[0])).Replayed?
  {
    var x := OneOfTwoSynced(o, c, f, h);
    y := SnapshotThenCrash(o, c, h, x);
    RunAppend(o, c, FRESH, [CommitGroup(NO_FAULT, [Request([120], Some(f), false)]),
                            CommitGroup(SYNC_FAILS, [Request([121], Some(f), false)]), Reopen],
              [TakeSnapshot(2), Crash(0, 0, |Frame(c, h[0])|), Reopen]);
  }

  lemma ThirdCommit(o: Options, c: Codec, f: Callback, y: Sys) returns (g: Group)
    requires Notes(o, c, f) && |c.encode(Note(3, [122]))| <= MAX_FRAME_BYTES && Present(y) && |y.history| == 2
    requires y.state.records == map[] && y.state.sequence == 2 && [122] !in y.state.dedupe
    ensures g == Commit(o, c, NO_FAULT, y.state, [Request([122], Some(f), false)]) && !g.failed && g.appended != []
    ensures var z := AfterGroup(o, c, y, NO_FAULT, [Request([122], Some(f), false)]); !z.poisoned && z.acked == 3
  {
    assert !Blank([122]) by { assert 122 in [122 as byte]; }
    g := NoteCommits(o, c, f, NO_FAULT, y.state, [122]);
  }

  // So the log ends before the snapshot, and the next command - acknowledged and synced - leaves
  // files that no longer open.
  lemma BehindSnapshotExample(o: Options, c: Codec, f: Callback) returns (y: Sys, z: Sys)
    requires Notes(o, c, f) && |c.encode(Note(1, [120]))| <= MAX_FRAME_BYTES
             && |c.encode(Note(2, [121]))| <= MAX_FRAME_BYTES
    requires |c.encode(Note(3, [122]))| <= MAX_FRAME_BYTES
    ensures y == Run(o, c, BehindRun(c, f)) && Present(y) && !y.poisoned
    ensures 0 < LastSequence(c, Last(y.disk.logs).bytes) < y.state.sequence
    ensures z == AfterGroup(o, c, y, NO_FAULT, [Request([122], Some(f), false)]) && Present(z) && !z.poisoned
            && z.acked == 3
    ensures Recover(o, c, Last(z.disk.snaps), Last(z.disk.logs).bytes) == Refused(Corruption)
  {
    var h := TwoNotes(o, c, f);
    y := BehindRunEnds(o, c, f, h);
    FirstIsLast(o, c, h);
    var g := ThirdCommit(o, c, f, y);
    z := AfterGroup(o, c, y, NO_FAULT, [Request([122], Some(f), false)]);
    BehindRunClean(o, c, f);
    AppendBehindSnapshotIff(o, c, BehindRun(c, f), NO_FAULT, [Request([122], Some(f), false)]);
  }

  lemma FirstIsLast(o: Options, c: Codec, h: seq<Record>)
    requires o.Normalized() && |h| == 2 && Legal(o, c, h) && AllEncodable(c, h)
    ensures LastSequence(c, Frame(c, h[0])) == 1 && Fold(o, h).sequence == 2
  {
    LegalState(o, c, h);
    TwoFrames(c, h);
    LastOfSpan(o, c, h, Frame(c, h[0]), Span(0, 0, 0, 1), []);
  }

  lemma BehindRunClean(o: Options, c: Codec, f: Callback)
    requires Notes(o, c, f)
    ensures (forall e <- BehindRun(c, f) :: CleanEvent(e)) && CleanRequest(Request([122], Some(f), false))
  {
    assert ValidUtf8([]) && [120][1..] == [] && [121][1..] == [] && [122][1..] == [];
    assert ValidUtf8([120]) && ValidUtf8([121]) && ValidUtf8([122]);
  }
}
