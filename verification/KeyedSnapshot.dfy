/** Snapshots of the keyed store, and recovery from a snapshot and a log together. */
module KeyedSnapshot {
  import opened Bytes
  import opened KeyedRecords
  import opened KeyedRecovery

  datatype Snapshot = Snapshot(sequence: nat, records: map<Bytes, Bytes>, dedupe: seq<Record>)

  // Retained decisions in order.
  function Decisions(s: State): seq<Record>
    requires forall id <- s.dedupeIDs :: id in s.dedupe
  {
    seq(|s.dedupeIDs|, i requires 0 <= i < |s.dedupeIDs| =>
        assert s.dedupeIDs[i] in s.dedupeIDs; s.dedupe[s.dedupeIDs[i]])
  }

  function SnapshotOf(s: State): Snapshot
    requires forall id <- s.dedupeIDs :: id in s.dedupe
  {
    Snapshot(s.sequence, s.records, Decisions(s))
  }

  // Entry `i` of a snapshot's decisions, given the ones before it.
  predicate DecisionLoads(o: Options, c: Codec, snap: Snapshot, i: nat)
    requires i < |snap.dedupe|
  {
    var r := snap.dedupe[i];
    && 0 < r.sequence <= snap.sequence
    && Validate(o, c, r) == None
    && (i > 0 ==> snap.dedupe[i - 1].sequence < r.sequence)
    && (forall j | 0 <= j < i :: snap.dedupe[j].commandID != r.commandID)
  }

  predicate SnapshotLoads(o: Options, c: Codec, snap: Snapshot)
  {
    && |snap.records| <= o.maxRecords && |snap.dedupe| <= o.dedupeHorizon
    && EntriesOk(o, c, snap.records)
    && (forall i | 0 <= i < |snap.dedupe| :: DecisionLoads(o, c, snap, i))
    && (snap.sequence != 0 ==> snap.dedupe != [] && snap.dedupe[|snap.dedupe| - 1].sequence == snap.sequence)
  }

  function Ids(rs: seq<Record>): seq<Bytes>
  {
    if rs == [] then [] else Ids(rs[..|rs| - 1]) + [rs[|rs| - 1].commandID]
  }

  function ById(rs: seq<Record>): map<Bytes, Record>
  {
    if rs == [] then map[] else ById(rs[..|rs| - 1])[rs[|rs| - 1].commandID := rs[|rs| - 1]]
  }

  function Loaded(snap: Snapshot): State
  {
    State(snap.records, ById(snap.dedupe), Ids(snap.dedupe), snap.sequence)
  }

  lemma {:induction false} IdsAt(rs: seq<Record>, ids: seq<Bytes>)
    requires |rs| == |ids| && forall i | 0 <= i < |rs| :: rs[i].commandID == ids[i]
    ensures Ids(rs) == ids
  {
    if rs != [] {
      IdsAt(rs[..|rs| - 1], ids[..|rs| - 1]);
    }
  }

  lemma {:induction false} ByIdHas(rs: seq<Record>, i: nat)
    requires i < |rs| && forall j | i < j < |rs| :: rs[j].commandID != rs[i].commandID
    ensures rs[i].commandID in ById(rs) && ById(rs)[rs[i].commandID] == rs[i]
  {
    if i < |rs| - 1 { ByIdHas(rs[..|rs| - 1], i); }
  }

  lemma {:induction false} ByIdOnly(rs: seq<Record>, id: Bytes)
    requires id in ById(rs)
    ensures exists i :: 0 <= i < |rs| && rs[i].commandID == id
  {
    var last := rs[|rs| - 1];
    if last.commandID != id {
      ByIdOnly(rs[..|rs| - 1], id);
      var i :| 0 <= i < |rs| - 1 && rs[..|rs| - 1][i].commandID == id;
      assert rs[i].commandID == id;
    }
  }

  lemma ByIdAt(rs: seq<Record>, ids: seq<Bytes>, m: map<Bytes, Record>)
    requires |rs| == |ids| && Distinct(ids) && Elements(ids) == m.Keys
    requires forall i | 0 <= i < |rs| :: ids[i] in m && rs[i] == m[ids[i]] && rs[i].commandID == ids[i]
    ensures ById(rs) == m
  {
    forall id <- m ensures id in ById(rs) && ById(rs)[id] == m[id] {
      assert id in Elements(ids);
      var i :| 0 <= i < |ids| && ids[i] == id;
      ByIdHas(rs, i);
    }
    forall id <- ById(rs) ensures id in m {
      ByIdOnly(rs, id);
      var i :| 0 <= i < |rs| && rs[i].commandID == id;
    }
  }

  lemma DecisionsInOrder(o: Options, c: Codec, s: State, i: nat)
    requires DedupeOk(o, c, s) && i < |s.dedupeIDs|
    ensures forall id <- s.dedupeIDs :: id in s.dedupe
    ensures DecisionLoads(o, c, SnapshotOf(s), i) && SnapshotOf(s).dedupe[i].commandID == s.dedupeIDs[i]
  {
    var snap := SnapshotOf(s);
    assert DecisionOk(o, c, s, i);
    if i > 0 { assert DecisionOk(o, c, s, i - 1); }
    ValidateIff(o, c, snap.dedupe[i]);
    forall j | 0 <= j < i ensures snap.dedupe[j].commandID != snap.dedupe[i].commandID {
      assert DecisionOk(o, c, s, j);
    }
  }

  lemma DecisionsLoadBack(o: Options, c: Codec, s: State)
    requires DedupeOk(o, c, s)
    ensures forall id <- s.dedupeIDs :: id in s.dedupe
    ensures Ids(Decisions(s)) == s.dedupeIDs && ById(Decisions(s)) == s.dedupe
  {
    var rs := Decisions(s);
    forall i | 0 <= i < |rs| ensures rs[i] == s.dedupe[s.dedupeIDs[i]] && rs[i].commandID == s.dedupeIDs[i] {
      assert DecisionOk(o, c, s, i);
    }
    IdsAt(rs, s.dedupeIDs);
    ByIdAt(rs, s.dedupeIDs, s.dedupe);
  }

  // Loading a snapshot gives back the state it was taken of.
  lemma SnapshotRoundTrip(o: Options, c: Codec, s: State)
    requires StateOk(o, c, s)
    ensures forall id <- s.dedupeIDs :: id in s.dedupe
    ensures SnapshotLoads(o, c, SnapshotOf(s)) && Loaded(SnapshotOf(s)) == s
  {
    DecisionsLoadBack(o, c, s);
    forall i | 0 <= i < |s.dedupeIDs| ensures DecisionLoads(o, c, SnapshotOf(s), i) {
      DecisionsInOrder(o, c, s, i);
    }
    if s.sequence != 0 { assert DecisionOk(o, c, s, |s.dedupeIDs| - 1); }
  }

  // ------------------------------------------------------------------- recovery

  // An absent or unloadable snapshot: only the first lets recovery go on, from the empty state.
  function Recover(o: Options, c: Codec, snap: Option<Snapshot>, wal: Bytes): Outcome
  {
    if snap.None? then Replay(o, c, wal, 0, EMPTY)
    else if !SnapshotLoads(o, c, snap.value) then Refused(Corruption)
    else Replay(o, c, wal, 0, Loaded(snap.value))
  }

  // The snapshot, if any, is the state after the first b records.
  ghost predicate SnapshotAt(o: Options, c: Codec, snap: Option<Snapshot>, h: seq<Record>, b: nat)
  {
    && b <= |h|
    && (snap.None? ==> b == 0)
    && (snap.Some? ==> StateOk(o, c, Fold(o, h[..b])) && snap.value == SnapshotOfFold(o, c, h[..b]))
  }

  ghost function SnapshotOfFold(o: Options, c: Codec, h: seq<Record>): Snapshot
    requires StateOk(o, c, Fold(o, h))
  {
    SnapshotRoundTrip(o, c, Fold(o, h));
    SnapshotOf(Fold(o, h))
  }

  // Which records of a history a log holds: from..until and then resume..end. The first part is
  // there only if records are missing between the two.
  datatype Span = Span(from: nat, until: nat, resume: nat, end: nat)
  {
    predicate Within(n: nat) { from <= until <= resume <= end <= n && (from == until <==> until == resume) }

    predicate Broken() { from < until }
  }

  function SpanBytes(c: Codec, h: seq<Record>, s: Span): Bytes
    requires s.Within(|h|)
  {
    Frames(c, h[s.from..s.until]) + Frames(c, h[s.resume..s.end])
  }

  ghost predicate LogAt(c: Codec, wal: Bytes, h: seq<Record>, s: Span, tail: Bytes)
  {
    && s.Within(|h|) && AllEncodable(c, h[s.from..s.until]) && AllEncodable(c, h[s.resume..s.end])
    && Torn(c, tail) && wal == SpanBytes(c, h, s) + tail
  }

  // What opening a snapshot after `base` records and such a log must yield.
  function Opened(o: Options, c: Codec, h: seq<Record>, base: nat, s: Span): Outcome
    requires s.Within(|h|) && base <= |h|
  {
    if !AllFit(o, h[s.from..s.until]) then Refused(Capacity)
    else if s.Broken() && s.resume < s.end then Refused(Corruption)
    else if !AllFit(o, h[s.resume..s.end]) then Refused(Capacity)
    else Replayed(Fold(o, h[..Max(s.end, base)]), |SpanBytes(c, h, s)|)
  }

  lemma RecoverFrom(o: Options, c: Codec, snap: Option<Snapshot>, h: seq<Record>, b: nat, wal: Bytes)
    requires SnapshotAt(o, c, snap, h, b)
    ensures Recover(o, c, snap, wal) == Replay(o, c, wal, 0, Fold(o, h[..b]))
  {
    if snap.Some? {
      SnapshotRoundTrip(o, c, Fold(o, h[..b]));
    } else {
      assert h[..0] == [];
    }
  }

  lemma RecoverWhole(o: Options, c: Codec, h: seq<Record>, base: nat, from: nat, end: nat, tail: Bytes)
    requires o.Normalized() && Legal(o, c, h) && from <= base <= |h| && from <= end <= |h|
    requires AllEncodable(c, h[from..end]) && Torn(c, tail)
    ensures Replay(o, c, Frames(c, h[from..end]) + tail, 0, Fold(o, h[..base])) ==
            if AllFit(o, h[from..end]) then Replayed(Fold(o, h[..Max(end, base)]), |Frames(c, h[from..end])|)
                else Refused(Capacity)
  {
    ReplayFrames(o, c, h, from, base, end, 0, tail);
    ReplayTorn(o, c, tail, if from < end then end else 0, Fold(o, h[..Max(end, base)]));
  }

  lemma RecoverBroken(o: Options, c: Codec, h: seq<Record>, base: nat, s: Span, tail: Bytes)
    requires o.Normalized() && Legal(o, c, h) && s.Within(|h|) && LogAt(c, SpanBytes(c, h, s) + tail, h, s, tail)
    requires s.Broken() && s.resume < s.end && s.from <= base <= |h|
    ensures Replay(o, c, Frames(c, h[s.from..s.until]) + (Frames(c, h[s.resume..s.end]) + tail), 0,
            Fold(o, h[..base])) ==
            if AllFit(o, h[s.from..s.until]) then Refused(Corruption) else Refused(Capacity)
  {
    FramesHead(o, c, h, s.resume, s.end, tail);
    var rest := Frames(c, h[s.resume + 1..s.end]) + tail;
    ReplayFrames(o, c, h, s.from, base, s.until, 0, Frames(c, h[s.resume..s.end]) + tail);
    LegalAt(o, c, h, s.resume);
    assert h[s.resume] in h[s.resume..s.end];
    ReplayGap(o, c, h[s.resume], rest, s.until, Fold(o, h[..Max(s.until, base)]));
  }

  // Recovery from a snapshot after `base` records and a log with a torn tail - whether the log
  // still holds records the snapshot covers, or ends before it - rebuilds the state after the last
  // record of either. It is refused exactly if the log holds a record that replay counts as too
  // large, or goes on behind missing records.
  lemma RecoverImage(o: Options, c: Codec, snap: Option<Snapshot>, h: seq<Record>, base: nat, wal: Bytes, s: Span,
      tail: Bytes)
    requires o.Normalized() && Legal(o, c, h) && SnapshotAt(o, c, snap, h, base) && LogAt(c, wal, h, s, tail)
    requires s.from <= base && (s.Broken() ==> s.resume <= base)
    ensures Recover(o, c, snap, wal) == Opened(o, c, h, base, s)
  {
    RecoverFrom(o, c, snap, h, base, wal);
    if !s.Broken() {
      ReplayUnbroken(o, c, h, base, wal, s, tail);
    } else if s.resume < s.end {
      ConcatAssoc(Frames(c, h[s.from..s.until]), Frames(c, h[s.resume..s.end]), tail);
      RecoverBroken(o, c, h, base, s, tail);
    } else {
      ReplayEnded(o, c, h, base, wal, s, tail);
    }
  }

  lemma ReplayUnbroken(o: Options, c: Codec, h: seq<Record>, base: nat, wal: Bytes, s: Span, tail: Bytes)
    requires o.Normalized() && Legal(o, c, h) && LogAt(c, wal, h, s, tail) && s.from <= base <= |h| && !s.Broken()
    ensures Replay(o, c, wal, 0, Fold(o, h[..base])) == Opened(o, c, h, base, s)
  {
    var two := Frames(c, h[s.resume..s.end]);
    assert h[s.from..s.until] == [];
    assert Frames(c, h[s.from..s.until]) + two == two;
    RecoverWhole(o, c, h, base, s.resume, s.end, tail);
  }

  lemma ReplayEnded(o: Options, c: Codec, h: seq<Record>, base: nat, wal: Bytes, s: Span, tail: Bytes)
    requires o.Normalized() && Legal(o, c, h) && LogAt(c, wal, h, s, tail) && s.from <= base <= |h| && s.Broken()
             && s.resume == s.end <= base
    ensures Replay(o, c, wal, 0, Fold(o, h[..base])) == Opened(o, c, h, base, s)
  {
    var one := Frames(c, h[s.from..s.until]);
    assert h[s.resume..s.end] == [];
    assert one + Frames(c, h[s.resume..s.end]) == one && wal == one + tail;
    assert AllFit(o, h[s.resume..s.end]) && |SpanBytes(c, h, s)| == |one| && Max(s.until, base) == Max(s.end, base);
    RecoverWhole(o, c, h, base, s.from, s.until, tail);
  }
}
