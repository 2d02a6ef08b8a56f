/** The keyed store's snapshot file: an envelope around the snapshot, and why one may be refused. */
module KeyedEnvelope {
  import opened Bytes
  import opened KeyedRecords
  import opened KeyedRecovery
  import opened KeyedSnapshot

  const SNAPSHOT_MAGIC: Bytes := [79, 67, 84, 75, 69, 89, 48, 49]

  datatype Envelope = Envelope(magic: Bytes, version: int, payload: Bytes, digest: Bytes)

  // JSON for envelopes and snapshots, and the hexadecimal digest of a payload.
  datatype Format = Format(seal: Envelope -> Bytes, unseal: Bytes -> Option<Envelope>, encode: Snapshot -> Bytes,
                           decode: Bytes -> Option<Snapshot>, digest: Bytes -> Bytes)

  datatype LoadError = Incompatible | Faulty(fault: Fault)

  function SnapshotFile(f: Format, snap: Snapshot): Bytes
  {
    var payload := f.encode(snap);
    f.seal(Envelope(SNAPSHOT_MAGIC, 1, payload, f.digest(payload)))
  }

  datatype FileRead = Holds(snap: Snapshot) | NotRead(why: LoadError)

  function ReadFile(f: Format, data: Bytes): FileRead
  {
    match f.unseal(data)
    case None => NotRead(Faulty(Corruption))
    case Some(e) =>
      if e.magic != SNAPSHOT_MAGIC || e.version != 1 then NotRead(Incompatible)
      else if e.digest != f.digest(e.payload) then NotRead(Faulty(Corruption))
      else
        match f.decode(e.payload)
        case None => NotRead(Faulty(Corruption))
        case Some(snap) => Holds(snap)
  }

  function EntryFault(o: Options, value: Bytes): Fault { if |value| > o.maxValueBytes then Capacity else Corruption }

  function DecisionFault(o: Options, c: Codec, snap: Snapshot, r: Record): Fault
  {
    if r.commandID == [] || r.sequence == 0 || r.sequence > snap.sequence then Corruption
    else if Validate(o, c, r).Some? then Validate(o, c, r).value
    else Corruption
  }

  // The fault of one entry, in whatever order the entries come.
  ghost predicate EntriesFault(o: Options, c: Codec, snap: Snapshot, fault: Fault)
  {
    exists key <- snap.records :: !EntryOk(o, c, key, snap.records[key]) && fault == EntryFault(o, snap.records[key])
  }

  // The fault of the first decision that does not load.
  ghost predicate DecisionsFault(o: Options, c: Codec, snap: Snapshot, fault: Fault)
  {
    exists i: nat | i < |snap.dedupe| ::
      && !DecisionLoads(o, c, snap, i) && (forall j: nat | j < i :: DecisionLoads(o, c, snap, j))
      && fault == DecisionFault(o, c, snap, snap.dedupe[i])
  }

  // What a snapshot that does not load is refused with.
  ghost predicate FaultOf(o: Options, c: Codec, snap: Snapshot, fault: Fault)
  {
    if |snap.records| > o.maxRecords || |snap.dedupe| > o.dedupeHorizon then fault == Capacity
    else if !EntriesOk(o, c, snap.records) then EntriesFault(o, c, snap, fault)
    else if !(forall i | 0 <= i < |snap.dedupe| :: DecisionLoads(o, c, snap, i)) then DecisionsFault(o, c, snap, fault)
    else !SnapshotLoads(o, c, snap) && fault == Corruption
  }

  lemma {:induction false} FirstBad(o: Options, c: Codec, snap: Snapshot, n: nat) returns (i: nat)
    requires n < |snap.dedupe| && !DecisionLoads(o, c, snap, n)
    ensures i <= n && !DecisionLoads(o, c, snap, i) && forall j: nat | j < i :: DecisionLoads(o, c, snap, j)
    decreases n
  {
    if j: nat :| j < n && !DecisionLoads(o, c, snap, j) {
      i := FirstBad(o, c, snap, j);
    } else {
      i := n;
    }
  }

  /** A snapshot has a fault exactly if it does not load; and unless its faults are among its records,
      which a map lists in no order, it has only one. */
  lemma LoadsUnlessFaulty(o: Options, c: Codec, snap: Snapshot)
    ensures SnapshotLoads(o, c, snap) <==> forall fault :: !FaultOf(o, c, snap, fault)
    ensures forall a, b :: FaultOf(o, c, snap, a) && FaultOf(o, c, snap, b) ==> a == b || !EntriesOk(o, c, snap.records)
  {
    if |snap.records| > o.maxRecords || |snap.dedupe| > o.dedupeHorizon {
      assert FaultOf(o, c, snap, Capacity);
    } else if !EntriesOk(o, c, snap.records) {
      var key :| key in snap.records && !EntryOk(o, c, key, snap.records[key]);
      assert FaultOf(o, c, snap, EntryFault(o, snap.records[key]));
    } else if n: nat :| n < |snap.dedupe| && !DecisionLoads(o, c, snap, n) {
      var i := FirstBad(o, c, snap, n);
      assert FaultOf(o, c, snap, DecisionFault(o, c, snap, snap.dedupe[i]));
    } else if !SnapshotLoads(o, c, snap) {
      assert FaultOf(o, c, snap, Corruption);
    }
  }

  /** What a store writes as its snapshot file, it reads back: the file is accepted and holds the state. */
  lemma FileRoundTrip(o: Options, c: Codec, f: Format, s: State)
    requires StateOk(o, c, s) && forall e :: f.unseal(f.seal(e)) == Some(e)
    requires (forall id <- s.dedupeIDs :: id in s.dedupe) ==> f.decode(f.encode(SnapshotOf(s))) == Some(SnapshotOf(s))
    ensures forall id <- s.dedupeIDs :: id in s.dedupe
    ensures ReadFile(f, SnapshotFile(f, SnapshotOf(s))) == Holds(SnapshotOf(s))
    ensures SnapshotLoads(o, c, SnapshotOf(s)) && Loaded(SnapshotOf(s)) == s
  {
    SnapshotRoundTrip(o, c, s);
  }

  // A file is read only if its payload has the digest it was sealed with.
  lemma OnlySealedIsRead(f: Format, data: Bytes)
    ensures ReadFile(f, data).Holds? <==>
            exists payload ::
                  f.unseal(data) == Some(Envelope(SNAPSHOT_MAGIC, 1, payload, f.digest(payload)))
                  && f.decode(payload).Some?
  {
    if ReadFile(f, data).Holds? {
      var e := f.unseal(data).value;
      assert e == Envelope(SNAPSHOT_MAGIC, 1, e.payload, f.digest(e.payload));
    }
  }

  /** Whatever happens to a snapshot file, as long as the digest in it is that of the state which was
      written, opening gives that state or refuses the file. */
  lemma WrittenOrRefused(o: Options, c: Codec, f: Format, s: State, data: Bytes)
    requires StateOk(o, c, s) && (forall id <- s.dedupeIDs :: id in s.dedupe)
    requires (forall b :: f.digest(b) == f.digest(f.encode(SnapshotOf(s))) ==> b == f.encode(SnapshotOf(s)))
             && f.decode(f.encode(SnapshotOf(s))) == Some(SnapshotOf(s))
    requires f.unseal(data).Some? && f.unseal(data).value.digest == f.digest(f.encode(SnapshotOf(s)))
    ensures ReadFile(f, data).Holds? ==>
              SnapshotLoads(o, c, ReadFile(f, data).snap) && Loaded(ReadFile(f, data).snap) == s
    ensures ReadFile(f, data).Holds? <==>
              f.unseal(data).value == Envelope(SNAPSHOT_MAGIC, 1, f.encode(SnapshotOf(s)), f.unseal(data).value.digest)
  {
    OnlySealedIsRead(f, data);
    SnapshotRoundTrip(o, c, s);
  }
}
