/**
 The keyed store as the source writes it: one object whose fields the commit path, validation,
 replay and snapshot code update step by step. Every method is proved to do exactly what the
 specification functions of the other keyed modules say.
 */
module KeyedDb {
  import opened Bytes
  import opened KeyedRecords
  import opened KeyedRecovery
  import opened KeyedSnapshot
  import opened KeyedEnvelope
  import opened KeyedCommit
  import QI = QueryIndex

  // A transaction's write set; it is valid only during the callback.
  class KeyedTx {
    const options: Options
    const codec: Codec
    var writes: Writes

    constructor (options: Options, codec: Codec)
      ensures this.options == options && this.codec == codec && writes == map[]
    {
      this.options, this.codec, writes := options, codec, map[];
    }

    method PutValue(key: Bytes, value: Bytes) returns (ok: bool)
      requires !options.catalogFormat
      modifies this
      ensures writes == Write(options, codec, old(writes), Put(key, value))
      ensures ok <==>
                0 < |key| <= MAX_KEY_BYTES && codec.validJson(value) && |value| <= options.maxValueBytes
    {
      if key == [] || |key| > MAX_KEY_BYTES || !codec.validJson(value) || |value| > options.maxValueBytes {
        return false;
      }
      writes := writes[key := Some(value)];
      return true;
    }

    method DeleteKey(key: Bytes) returns (ok: bool)
      requires !options.catalogFormat
      modifies this
      ensures writes == Write(options, codec, old(writes), Delete(key))
      ensures ok <==> 0 < |key| <= MAX_KEY_BYTES
    {
      if key == [] || |key| > MAX_KEY_BYTES {
        return false;
      }
      writes := writes[key := None];
      return true;
    }

    // The same in a dataset of a catalog, whose records are stored under longer keys.
    method PutRecord(dataset: nat, key: Bytes, value: Bytes) returns (ok: bool)
      requires options.catalogFormat
      modifies this
      ensures writes == Write(options, codec, old(writes), Put(QI.BackendKey(dataset, key), value))
      ensures ok <==>
                0 < |key| <= MAX_KEY_BYTES && codec.validJson(value) && |value| <= options.maxValueBytes
    {
      if key == [] || |key| > MAX_KEY_BYTES || !codec.validJson(value) || |value| > options.maxValueBytes {
        return false;
      }
      writes := writes[QI.BackendKey(dataset, key) := Some(value)];
      return true;
    }

    method DeleteRecord(dataset: nat, key: Bytes) returns (ok: bool)
      requires options.catalogFormat
      modifies this
      ensures writes == Write(options, codec, old(writes), Delete(QI.BackendKey(dataset, key)))
      ensures ok <==> 0 < |key| <= MAX_KEY_BYTES
    {
      if key == [] || |key| > MAX_KEY_BYTES {
        return false;
      }
      writes := writes[QI.BackendKey(dataset, key) := None];
      return true;
    }

    // One call. In a catalog a stored key that belongs to no dataset is one no call can name.
    method RunOp(op: TxOp)
      modifies this
      ensures writes == Write(options, codec, old(writes), op)
    {
      if !options.catalogFormat {
        match op {
          case Put(key, value) => var _ := PutValue(key, value);
          case Delete(key) => var _ := DeleteKey(key);
        }
      } else if QI.DatasetOf(op.key).Some? {
        var dataset := QI.DatasetOf(op.key).value;
        QI.BackendKeyUnique(op.key, dataset);
        match op {
          case Put(key, value) => var _ := PutRecord(dataset, key[9..], value);
          case Delete(key) => var _ := DeleteRecord(dataset, key[9..]);
        }
      }
    }

    // The calls a callback makes, in order.
    method RunOps(ops: seq<TxOp>)
      requires writes == map[]
      modifies this
      ensures writes == WritesOf(options, codec, ops)
    {
      for i := 0 to |ops|
        invariant writes == WritesOf(options, codec, ops[..i])
      {
        assert ops[..i + 1][..i] == ops[..i];
        RunOp(ops[i]);
      }
      assert ops[..|ops|] == ops;
    }
  }

  method SortKeys(keys: set<Bytes>) returns (q: seq<Bytes>)
    ensures q == Sorted(keys)
  {
    q := [];
    var left := keys;
    while left != {}
      invariant left <= keys && Ascending(q) && Elements(q) == keys - left
    {
      var k :| k in left;
      var p := 0;
      while p < |q| && Less(q[p], k)
        invariant p <= |q| && forall i | 0 <= i < p :: Less(q[i], k)
      {
        p := p + 1;
      }
      assert k !in q by { assert k !in Elements(q); }
      forall i | p <= i < |q| ensures Less(k, q[i]) {
        LessTotal(k, q[p]);
        if i > p { LessTransitive(k, q[p], q[i]); }
      }
      InsertAscending(q, k, p);
      q := q[..p] + [k] + q[p..];
      left := left - {k};
    }
    AscendingUnique(q, Sorted(keys));
  }

  class KeyedDB {
    const options: Options
    const codec: Codec
    var records: map<Bytes, Bytes>
    var dedupe: map<Bytes, Record>
    var dedupeIDs: seq<Bytes>
    var sequence: nat
    var wal: Bytes
    var synced: nat
    var poisoned: bool

    function Contents(): State
      reads this
    {
      State(records, dedupe, dedupeIDs, sequence)
    }

    constructor (options: Options, codec: Codec)
      ensures this.options == options && this.codec == codec && Contents() == EMPTY
      ensures wal == [] && synced == 0 && !poisoned
    {
      this.options, this.codec := options, codec;
      records, dedupe, dedupeIDs, sequence := map[], map[], [], 0;
      wal, synced, poisoned := [], 0, false;
    }

    // ---------------------------------------------------------------- applying

    method ApplyKeyed(record: Record)
      modifies this`records, this`dedupe, this`dedupeIDs, this`sequence
      ensures Contents() == Apply(options, old(Contents()), record)
    {
      if record.applied {
        for i := 0 to |record.mutations|
          invariant records == ApplyMutations(old(records), record.mutations[..i])
          invariant dedupe == old(dedupe) && dedupeIDs == old(dedupeIDs) && sequence == old(sequence)
        {
          var mutation := record.mutations[i];
          assert record.mutations[..i + 1][..i] == record.mutations[..i];
          if mutation.delete {
            records := records - {mutation.key};
          } else {
            records := records[mutation.key := mutation.value];
          }
        }
        assert record.mutations[..|record.mutations|] == record.mutations;
      }
      sequence := record.sequence;
      dedupe := dedupe[record.commandID := record.(mutations := [])];
      dedupeIDs := dedupeIDs + [record.commandID];
      if |dedupeIDs| > options.dedupeHorizon {
        var expired := dedupeIDs[0];
        dedupeIDs := dedupeIDs[1..];
        dedupe := dedupe - {expired};
      }
    }

    // ------------------------------------------------------------- group commit

    // Sorts the write set into mutations and checks the live bounds.
    method FinalizeWrites(writes: Writes) returns (mutations: seq<Mutation>, ok: bool)
      ensures mutations == MutationsOf(writes)
      ensures ok <==>
                CountAfter(records, mutations) <= options.maxRecords
                && LiveTotal(mutations) <= options.maxTransactionBytes
    {
      var keys := SortKeys(writes.Keys);
      var count: int, total: nat := |records|, 0;
      mutations := [];
      for i := 0 to |keys|
        invariant mutations == MutationsOf(writes)[..i]
        invariant count == CountAfter(records, mutations) && total == LiveTotal(mutations)
      {
        var key := keys[i];
        assert key in Elements(keys);
        var existed := key in records;
        var mutation := MutationOf(writes, key);
        assert (mutations + [mutation])[..i] == mutations;
        if writes[key].None? {
          if existed { count := count - 1; }
        } else {
          if !existed { count := count + 1; }
          total := total + |key| + |writes[key].value|;
        }
        mutations := mutations + [mutation];
      }
      ok := count <= options.maxRecords && total <= options.maxTransactionBytes;
    }

    method ExecuteKeyed(request: Request) returns (e: Executed)
      ensures e == Execute(options, codec, Contents(), request)
    {
      if Blank(request.commandID) {
        return Answer(Errored(InvalidInput));
      }
      if |request.commandID| > MAX_IDENTITY_BYTES {
        return Answer(Errored(OverCapacity));
      }
      if request.mutation.None? {
        return Answer(Errored(InvalidInput));
      }
      if request.commandID in dedupe {
        return Answer(Decided(DecisionOf(dedupe[request.commandID]).(duplicate := true)));
      }
      var mutation := request.mutation.value;
      match mutation(records) {
        case Panics => return Answer(Panicked);
        case Fails => return Answer(Errored(FromCallback));
        case Rejects(code, reason) =>
          if reason != [] && !codec.validJson(reason) { return Answer(Errored(FromCallback)); }
          if Blank(code) { return Answer(Errored(InvalidInput)); }
          if |code| > MAX_CODE_BYTES || |reason| > options.maxValueBytes { return Answer(Errored(OverCapacity)); }
          return Persist(Record(sequence + 1, request.commandID, false, code, reason, []));
        case Completes(result, ops) => e := CompleteKeyed(request, result, ops);
      }
    }

    method CompleteKeyed(request: Request, result: Bytes, ops: seq<TxOp>) returns (e: Executed)
      requires !Blank(request.commandID) && |request.commandID| <= MAX_IDENTITY_BYTES && request.commandID !in dedupe
      requires request.mutation.Some? && request.mutation.value(records) == Completes(result, ops)
      ensures e == Execute(options, codec, Contents(), request)
    {
      var tx := new KeyedTx(options, codec);
      tx.RunOps(ops);
      if !codec.validJson(result) { return Answer(Errored(InvalidInput)); }
      if |result| > options.maxValueBytes { return Answer(Errored(OverCapacity)); }
      var mutations, ok := FinalizeWrites(tx.writes);
      if !ok { return Answer(Errored(OverCapacity)); }
      return Persist(Record(sequence + 1, request.commandID, true, [], result, mutations));
    }

    // Appends one frame; what the file system does is the plan's choice.
    method AppendKeyedFrame(plan: Plan, index: nat, record: Record) returns (ok: bool)
      modifies this`wal
      ensures var size := |codec.encode(record)|;
              && ok == !(size > MAX_FRAME_BYTES || plan.failAt == Some(index))
              && wal == old(wal) + if size > MAX_FRAME_BYTES then [] else if ok then Frame(codec, record)
                                   else Take(Frame(codec, record), plan.written)
    {
      var payload := codec.encode(record);
      if |payload| > MAX_FRAME_BYTES {
        assert wal == wal + [];
        return false;
      }
      var frame := LittleEndian(4, |payload|) + payload + LittleEndian(4, Crc32(codec, payload));
      ok := plan.failAt != Some(index);
      wal := wal + if ok then frame else Take(frame, plan.written);
    }

    // One request: answered, or appended and - if that succeeds - applied. `base` is the log
    // before the group, `g` what the group has done so far.
    method StageRequest(plan: Plan, shared: bool, request: Request, staged: map<Bytes, nat>, results: seq<Reply>,
                        ghost base: Bytes, ghost g: Group)
        returns (reply: Reply, durable: bool, persisted: bool)
      requires StagedOk(shared, g) && results == g.replies && staged == g.staged
      requires poisoned == g.failed && Contents() == g.state && wal == base + g.log
      modifies this`records, this`dedupe, this`dedupeIDs, this`sequence, this`wal, this`poisoned
      ensures var g' := Step(options, codec, plan, shared, g, request);
              && g'.replies == g.replies + [reply] && g'.durable == g.durable + [durable]
              && g'.staged == (if persisted && shared then staged[request.commandID := |results|] else staged)
              && (!g'.failed ==> |g'.appended| == |g.appended| + if persisted then 1 else 0)
              && poisoned == g'.failed && Contents() == g'.state && wal == base + g'.log
    {
      if poisoned {
        return Errored(Poisoned), false, false;
      }
      if request.cancelled {
        return Errored(Cancelled), false, false;
      }
      if request.commandID in staged && request.commandID in dedupe {
        assert StagedIdOk(g, request.commandID);
        return Decided(results[staged[request.commandID]].decision.(duplicate := true)), true, false;
      }
      var e := ExecuteKeyed(request);
      if e.Answer? {
        return e.reply, false, false;
      }
      var ok := AppendKeyedFrame(plan, |results|, e.record);
      ConcatAssoc(base, g.log, wal[|base + g.log|..]);
      if !ok {
        poisoned := true;
        return Errored(Storage), false, false;
      }
      ApplyKeyed(e.record);
      return Decided(DecisionOf(e.record)), true, true;
    }

    // The group's requests in queue order. Frames are appended and applied, but not yet synced.
    method StageGroup(plan: Plan, group: seq<Request>) returns (results: seq<Reply>, durable: seq<bool>, frames: nat)
      requires !poisoned
      modifies this`records, this`dedupe, this`dedupeIDs, this`sequence, this`wal, this`poisoned
      ensures var g := Steps(options, codec, plan, |group| > 1, old(Contents()), group);
              && results == g.replies && durable == g.durable && (!g.failed ==> frames == |g.appended|)
              && poisoned == g.failed && Contents() == g.state && wal == old(wal) + g.log
    {
      var shared := |group| > 1;
      ghost var g := Start(Contents());
      var staged: map<Bytes, nat> := map[];
      results, durable, frames := [], [], 0;
      for index := 0 to |group|
        invariant g == Steps(options, codec, plan, shared, old(Contents()), group[..index])
        invariant results == g.replies && durable == g.durable && staged == g.staged
                  && (!g.failed ==> frames == |g.appended|)
        invariant poisoned == g.failed && Contents() == g.state && wal == old(wal) + g.log
      {
        assert group[..index + 1][..index] == group[..index];
        StepsKeepStaged(options, codec, plan, shared, old(Contents()), group[..index]);
        var reply, kept, persisted := StageRequest(plan, shared, group[index], staged, results, old(wal), g);
        StepExtends(options, codec, plan, shared, g, group[index]);
        g := Step(options, codec, plan, shared, g, group[index]);
        if persisted {
          frames := frames + 1;
          if shared { staged := staged[group[index].commandID := |results|]; }
        }
        results, durable := results + [reply], durable + [kept];
      }
      assert group[..|group|] == group;
    }

    // Stages a group, syncs once, and only then gives its answers out.
    method ProcessCommitGroup(plan: Plan, group: seq<Request>) returns (results: seq<Reply>)
      modifies this
      ensures old(poisoned) ==> Contents() == old(Contents()) && wal == old(wal) && synced == old(synced) && poisoned
      ensures old(poisoned) ==> |results| == |group| && forall reply <- results :: reply == Errored(Poisoned)
      ensures !old(poisoned) ==>
                var g := Commit(options, codec, plan, old(Contents()), group);
                && results == g.replies && Contents() == g.state && poisoned == g.failed && wal == old(wal) + g.log
                && synced == if g.failed || g.appended == [] then old(synced) else |wal|
    {
      if poisoned {
        return seq(|group|, _ => Errored(Poisoned));
      }
      var durable: seq<bool>, frames: nat;
      results, durable, frames := StageGroup(plan, group);
      if frames > 0 && !poisoned {
        if plan.syncFails {
          poisoned := true;
        } else {
          synced := |wal|;
        }
      }
      if poisoned {
        results :=
            seq(|results|, i requires 0 <= i < |results| => if i < |durable| && durable[i] then Errored(Storage)
            else results[i]);
      }
    }

    // -------------------------------------------------------------- validation

    method ValidateKeyedRecord(record: Record) returns (fault: Option<Fault>)
      ensures fault == Validate(options, codec, record)
    {
      if record.commandID == [] || |record.commandID| > MAX_IDENTITY_BYTES || |record.code| > MAX_CODE_BYTES {
        return Some(Corruption);
      }
      if |record.result| > options.maxValueBytes {
        return Some(Capacity);
      }
      if record.result != [] && !codec.validJson(record.result) {
        return Some(Corruption);
      }
      if !record.applied && record.mutations != [] {
        return Some(Corruption);
      }
      var total: nat;
      fault, total := ValidateMutations(record.mutations);
      if fault.Some? {
        return;
      }
      if total > options.maxTransactionBytes {
        return Some(Capacity);
      }
      return None;
    }

    method ValidateMutations(mutations: seq<Mutation>) returns (fault: Option<Fault>, total: nat)
      ensures fault == FirstFault(options, codec, mutations)
      ensures fault == None ==> total == Total(mutations)
    {
      total := 0;
      var seen: set<Bytes> := {};
      for i := 0 to |mutations|
        invariant total == Total(mutations[..i]) && FirstFault(options, codec, mutations[..i]) == None
        invariant seen == KeysOf(mutations[..i])
      {
        var mutation := mutations[i];
        assert mutations[..i + 1][..i] == mutations[..i];
        assert KeysOf(mutations[..i + 1]) == KeysOf(mutations[..i]) + {mutation.key} by {
          assert mutations[..i + 1] == mutations[..i] + [mutation];
        }
        fault := MutationFault(options, codec, mutation, seen);
        if fault.Some? {
          FaultStays(options, codec, mutations, i + 1);
          return;
        }
        seen := seen + {mutation.key};
        total := total + |mutation.key| + |mutation.value|;
      }
      assert mutations[..|mutations|] == mutations;
      return None, total;
    }

    method ValidateKeyedApply(record: Record) returns (ok: bool)
      ensures ok <==> RecordsFit(options, Contents(), record)
    {
      if !record.applied {
        return true;
      }
      var count: int := |records|;
      for i := 0 to |record.mutations|
        invariant count == CountAfter(records, record.mutations[..i])
      {
        var mutation := record.mutations[i];
        assert record.mutations[..i + 1][..i] == record.mutations[..i];
        if mutation.delete && mutation.key in records {
          count := count - 1;
        }
        if !mutation.delete && mutation.key !in records {
          count := count + 1;
        }
      }
      assert record.mutations[..|record.mutations|] == record.mutations;
      return count <= options.maxRecords;
    }

    // ------------------------------------------------------------------ replay

    // Reads the log from its start; `keep` is where a torn tail is truncated.
    method ReplayKeyedWAL(wal: Bytes) returns (fault: Option<Fault>, keep: nat)
      modifies this`records, this`dedupe, this`dedupeIDs, this`sequence
      ensures match Replay(options, codec, wal, 0, old(Contents()))
              case Refused(kind) => fault == Some(kind)
              case Replayed(s, k) => fault == None && Contents() == s && keep == k
    {
      ghost var spec := Replay(options, codec, wal, 0, Contents());
      keep := 0;
      var lastSequence: nat := 0;
      assert wal[0..] == wal;
      while true
        invariant keep <= |wal| && spec == Later(Replay(options, codec, wal[keep..], lastSequence, Contents()), keep)
        decreases |wal| - keep
      {
        var read := ReadFrame(wal, keep);
        ReplayAt(options, codec, wal, keep, lastSequence, Contents());
        if read.EndOfLog? {
          return None, keep;
        }
        if read.BadFrame? {
          return Some(Corruption), keep;
        }
        fault := AdmitRecord(lastSequence, read.record);
        if fault.Some? {
          return;
        }
        lastSequence := read.record.sequence;
        keep := keep + read.size;
      }
    }

    // Header, body and checksum of the frame at `offset`.
    method ReadFrame(wal: Bytes, offset: nat) returns (read: FrameRead)
      requires offset <= |wal|
      ensures read == NextFrame(codec, wal[offset..])
    {
      if |wal| - offset < 4 {
        return EndOfLog;
      }
      ghost var rest := wal[offset..];
      var length := FromLittleEndian(wal[offset..offset + 4]);
      assert rest[..4] == wal[offset..offset + 4];
      if length == 0 || length > MAX_FRAME_BYTES {
        return BadFrame;
      }
      if |wal| - offset - 4 < length + 4 {
        return EndOfLog;
      }
      var payload := wal[offset + 4..offset + 4 + length];
      assert rest[4..4 + length] == payload;
      assert rest[4 + length..8 + length] == wal[offset + 4 + length..offset + 8 + length];
      var decoded := codec.decode(payload);
      if FromLittleEndian(wal[offset + 4 + length..offset + 8 + length]) != Crc32(codec, payload) || decoded.None? {
        return BadFrame;
      }
      return Whole(decoded.value, 4 + length + 4);
    }

    // One decoded record: contiguity, validation, and application unless the snapshot covers it.
    method AdmitRecord(lastSequence: nat, record: Record) returns (fault: Option<Fault>)
      modifies this`records, this`dedupe, this`dedupeIDs, this`sequence
      ensures match Admit(options, codec, lastSequence, old(Contents()), record)
              case Rejected(kind) => fault == Some(kind)
              case Admitted(s) => fault == None && Contents() == s
    {
      if record.sequence == 0 || (lastSequence != 0 && record.sequence != lastSequence + 1) {
        return Some(Corruption);
      }
      fault := ValidateKeyedRecord(record);
      if fault.Some? {
        return;
      }
      if record.sequence > sequence {
        if record.sequence != sequence + 1 || record.commandID in dedupe {
          return Some(Corruption);
        }
        var fits := ValidateKeyedApply(record);
        if !fits {
          return Some(Capacity);
        }
        ApplyKeyed(record);
      }
      return None;
    }

    // --------------------------------------------------------------- snapshots

    // What the snapshot file is written with.
    method TakeSnapshot(f: Format) returns (data: Bytes)
      requires forall id <- dedupeIDs :: id in dedupe
      ensures data == SnapshotFile(f, SnapshotOf(Contents()))
    {
      var decisions: seq<Record> := [];
      for i := 0 to |dedupeIDs|
        invariant decisions == Decisions(Contents())[..i]
      {
        decisions := decisions + [dedupe[dedupeIDs[i]]];
      }
      assert decisions == Decisions(Contents());
      var payload := f.encode(Snapshot(sequence, records, decisions));
      data := f.seal(Envelope(SNAPSHOT_MAGIC, 1, payload, f.digest(payload)));
    }

    // The snapshot file is read, checked and taken over; without one the store stays empty.
    method LoadKeyedSnapshot(f: Format, data: Option<Bytes>) returns (error: Option<LoadError>)
      requires Contents() == EMPTY
      modifies this`records, this`dedupe, this`dedupeIDs, this`sequence
      ensures data == None ==> error == None && Contents() == EMPTY
      ensures data.Some? ==>
                match ReadFile(f, data.value)
                case NotRead(why) => error == Some(why)
                case Holds(snap) =>
                  if SnapshotLoads(options, codec, snap) then error == None && Contents() == Loaded(snap)
                  else error.Some? && error.value.Faulty? && FaultOf(options, codec, snap, error.value.fault)
    {
      if data.None? {
        return None;
      }
      var envelope := f.unseal(data.value);
      if envelope.None? {
        return Some(Faulty(Corruption));
      }
      var e := envelope.value;
      if e.magic != SNAPSHOT_MAGIC || e.version != 1 {
        return Some(Incompatible);
      }
      if e.digest != f.digest(e.payload) {
        return Some(Faulty(Corruption));
      }
      var decoded := f.decode(e.payload);
      if decoded.None? {
        return Some(Faulty(Corruption));
      }
      var fault := LoadContents(decoded.value);
      return if fault.None? then None else Some(Faulty(fault.value));
    }

    method LoadContents(snap: Snapshot) returns (fault: Option<Fault>)
      requires Contents() == EMPTY
      modifies this`records, this`dedupe, this`dedupeIDs, this`sequence
      ensures fault == None <==> SnapshotLoads(options, codec, snap)
      ensures fault == None ==> Contents() == Loaded(snap)
      ensures fault.Some? ==> FaultOf(options, codec, snap, fault.value)
    {
      if |snap.records| > options.maxRecords || |snap.dedupe| > options.dedupeHorizon {
        return Some(Capacity);
      }
      fault := CheckEntries(snap);
      if fault.Some? {
        return;
      }
      records := snap.records;
      sequence := snap.sequence;
      fault := LoadDecisions(snap);
      if fault.Some? {
        return;
      }
      if snap.sequence != 0 && (snap.dedupe == [] || snap.dedupe[|snap.dedupe| - 1].sequence != snap.sequence) {
        return Some(Corruption);
      }
      return None;
    }

    // The entries come in any order.
    method CheckEntries(snap: Snapshot) returns (fault: Option<Fault>)
      ensures fault == None <==> EntriesOk(options, codec, snap.records)
      ensures fault.Some? ==> EntriesFault(options, codec, snap, fault.value)
    {
      var left := snap.records.Keys;
      while left != {}
        invariant left <= snap.records.Keys
        invariant forall key <- snap.records | key !in left :: EntryOk(options, codec, key, snap.records[key])
      {
        var key :| key in left;
        var value := snap.records[key];
        if |value| > options.maxValueBytes {
          assert !EntryOk(options, codec, key, value);
          return Some(Capacity);
        }
        if key == [] || |key| > options.MaxStoredKeyBytes() || !codec.validJson(value) {
          assert !EntryOk(options, codec, key, value);
          return Some(Corruption);
        }
        left := left - {key};
      }
      return None;
    }

    method LoadDecisions(snap: Snapshot) returns (fault: Option<Fault>)
      requires dedupe == map[] && dedupeIDs == []
      modifies this`dedupe, this`dedupeIDs
      ensures fault == None <==> forall i | 0 <= i < |snap.dedupe| :: DecisionLoads(options, codec, snap, i)
      ensures fault == None ==> dedupe == ById(snap.dedupe) && dedupeIDs == Ids(snap.dedupe)
      ensures fault.Some? ==> DecisionsFault(options, codec, snap, fault.value)
    {
      var lastDedupeSequence: nat := 0;
      ghost var all := snap.dedupe;
      for i := 0 to |snap.dedupe|
        invariant dedupe == ById(all[..i]) && dedupeIDs == Ids(all[..i])
        invariant forall j: nat | j < i :: DecisionLoads(options, codec, snap, j)
        invariant lastDedupeSequence == (if i == 0 then 0 else all[i - 1].sequence)
      {
        var record := snap.dedupe[i];
        ByIdKeys(all, i, record.commandID);
        fault := CheckDecision(snap, i, lastDedupeSequence);
        if fault.Some? {
          FirstFaulty(options, codec, snap, i);
          return;
        }
        lastDedupeSequence := record.sequence;
        LoadedStep(all, i);
        dedupe := dedupe[record.commandID := record];
        dedupeIDs := dedupeIDs + [record.commandID];
      }
      assert all[..|all|] == all;
      return None;
    }

    method CheckDecision(snap: Snapshot, i: nat, lastDedupeSequence: nat) returns (fault: Option<Fault>)
      requires i < |snap.dedupe| && lastDedupeSequence == (if i == 0 then 0 else snap.dedupe[i - 1].sequence)
      requires snap.dedupe[i].commandID in dedupe <==> exists j | 0 <= j < i ::
                 snap.dedupe[j].commandID == snap.dedupe[i].commandID
      ensures fault == None <==> DecisionLoads(options, codec, snap, i)
      ensures fault.Some? ==> fault.value == DecisionFault(options, codec, snap, snap.dedupe[i])
    {
      var record := snap.dedupe[i];
      if record.commandID == [] || record.sequence == 0 || record.sequence > snap.sequence {
        ValidateIff(options, codec, record);
        return Some(Corruption);
      }
      fault := ValidateKeyedRecord(record);
      if fault.Some? {
        return;
      }
      if record.sequence <= lastDedupeSequence {
        return Some(Corruption);
      }
      if record.commandID in dedupe {
        return Some(Corruption);
      }
      return None;
    }
  }

  // A fault found early is the fault of the whole record.
  lemma {:induction false} FaultStays(o: Options, c: Codec, ms: seq<Mutation>, n: nat)
    requires n <= |ms| && FirstFault(o, c, ms[..n]).Some?
    ensures FirstFault(o, c, ms) == FirstFault(o, c, ms[..n])
  {
    if n < |ms| {
      assert ms[..|ms| - 1][..n] == ms[..n];
      FaultStays(o, c, ms[..|ms| - 1], n);
    } else {
      assert ms[..n] == ms;
    }
  }

  lemma FirstFaulty(o: Options, c: Codec, snap: Snapshot, i: nat)
    requires i < |snap.dedupe| && !DecisionLoads(o, c, snap, i) && forall j: nat | j < i :: DecisionLoads(o, c, snap, j)
    ensures DecisionsFault(o, c, snap, DecisionFault(o, c, snap, snap.dedupe[i]))
  {}

  lemma LoadedStep(rs: seq<Record>, i: nat)
    requires i < |rs|
    ensures ById(rs[..i + 1]) == ById(rs[..i])[rs[i].commandID := rs[i]]
            && Ids(rs[..i + 1]) == Ids(rs[..i]) + [rs[i].commandID]
  {
    assert rs[..i + 1][..i] == rs[..i];
  }

  lemma {:induction false} ByIdKeys(rs: seq<Record>, n: nat, id: Bytes)
    requires n <= |rs|
    ensures id in ById(rs[..n]) <==> exists j | 0 <= j < n :: rs[j].commandID == id
  {
    if n > 0 {
      ByIdKeys(rs, n - 1, id);
      assert rs[..n][..n - 1] == rs[..n - 1];
    }
  }

  // One turn of the replay loop.
  lemma ReplayAt(o: Options, c: Codec, wal: Bytes, offset: nat, last: nat, s: State)
    requires offset <= |wal|
    ensures var read := NextFrame(c, wal[offset..]);
            Replay(o, c, wal[offset..], last, s) ==
            if read.EndOfLog? then Replayed(s, 0)
            else if read.BadFrame? then Refused(Corruption)
            else if Admit(o, c, last, s, read.record).Rejected? then Refused(Admit(o, c, last, s, read.record).fault)
            else Later(Replay(o, c, wal[offset + read.size..], read.record.sequence,
                Admit(o, c, last, s, read.record).state), read.size)
  {
    var read := NextFrame(c, wal[offset..]);
    if read.Whole? { assert wal[offset..][read.size..] == wal[offset + read.size..]; }
  }
}
