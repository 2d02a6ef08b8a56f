/**
 The keyed store's records and in-memory state: what applying a decided command does, what
 replay validates, and the invariant that makes the two fit.
 */
module KeyedRecords {
  import opened Bytes

  const MAX_FRAME_BYTES := 0x400_0000
  const MAX_IDENTITY_BYTES := 4096
  const MAX_KEY_BYTES := 4096
  const MAX_CODE_BYTES := 1024

  datatype Mutation = Mutation(key: Bytes, value: Bytes, delete: bool)

  datatype Record = Record(sequence: nat, commandID: Bytes, applied: bool, code: Bytes, result: Bytes,
      mutations: seq<Mutation>)

  // Bounds after normalisation, which replaces every zero by a positive default.
  datatype Options = Options(maxRecords: nat, dedupeHorizon: nat, maxValueBytes: nat, maxTransactionBytes: nat,
      catalogFormat: bool)
  {
    predicate Normalized() { maxRecords > 0 && dedupeHorizon > 0 && 0 < maxValueBytes <= maxTransactionBytes }

    function MaxStoredKeyBytes(): nat { if catalogFormat then MAX_KEY_BYTES + 9 else MAX_KEY_BYTES }
  }

  // JSON and CRC-32, as functions the storage format is parametric in.
  datatype Codec = Codec(encode: Record -> Bytes, decode: Bytes -> Option<Record>, crc: Bytes -> nat,
      validJson: Bytes -> bool)

  datatype State = State(records: map<Bytes, Bytes>, dedupe: map<Bytes, Record>, dedupeIDs: seq<Bytes>, sequence: nat)

  const EMPTY := State(map[], map[], [], 0)

  // ------------------------------------------------------------------- applying

  function ApplyMutation(records: map<Bytes, Bytes>, m: Mutation): map<Bytes, Bytes>
  {
    if m.delete then records - {m.key} else records[m.key := m.value]
  }

  function ApplyMutations(records: map<Bytes, Bytes>, ms: seq<Mutation>): map<Bytes, Bytes>
  {
    if ms == [] then records
    else ApplyMutation(ApplyMutations(records, ms[..|ms| - 1]), ms[|ms| - 1])
  }

  function Retained(r: Record): Record
  {
    r.(mutations := [])
  }

  function Apply(o: Options, s: State, r: Record): State
  {
    var records := if r.applied then ApplyMutations(s.records, r.mutations) else s.records;
    var dedupe, ids := s.dedupe[r.commandID := Retained(r)], s.dedupeIDs + [r.commandID];
    if |ids| > o.dedupeHorizon then State(records, dedupe - {ids[0]}, ids[1..], r.sequence)
    else State(records, dedupe, ids, r.sequence)
  }

  function Fold(o: Options, h: seq<Record>): State
  {
    if h == [] then EMPTY else Apply(o, Fold(o, h[..|h| - 1]), h[|h| - 1])
  }

  // ----------------------------------------------------------------- validation

  function Total(ms: seq<Mutation>): nat
  {
    if ms == [] then 0 else Total(ms[..|ms| - 1]) + |ms[|ms| - 1].key| + |ms[|ms| - 1].value|
  }

  predicate MutationValid(o: Options, c: Codec, m: Mutation)
  {
    && m.key != [] && |m.key| <= o.MaxStoredKeyBytes()
    && (m.delete ==> m.value == [])
    && |m.value| <= o.maxValueBytes
    && (!m.delete ==> c.validJson(m.value))
  }

  predicate DistinctKeys(ms: seq<Mutation>)
  {
    forall i, j | 0 <= i < j < |ms| :: ms[i].key != ms[j].key
  }

  // What replay demands of a record, apart from its size.
  predicate WellFormed(o: Options, c: Codec, r: Record)
  {
    && r.commandID != [] && |r.commandID| <= MAX_IDENTITY_BYTES
    && |r.code| <= MAX_CODE_BYTES
    && |r.result| <= o.maxValueBytes
    && (r.result != [] ==> c.validJson(r.result))
    && (!r.applied ==> r.mutations == [])
    && (forall m <- r.mutations :: MutationValid(o, c, m))
    && DistinctKeys(r.mutations)
  }

  // Replay counts the key bytes of deletes too.
  predicate Fits(o: Options, r: Record)
  {
    Total(r.mutations) <= o.maxTransactionBytes
  }

  function Delta(records: map<Bytes, Bytes>, m: Mutation): int
  {
    if m.delete && m.key in records then -1 else if !m.delete && m.key !in records then 1 else 0
  }

  function CountAfter(records: map<Bytes, Bytes>, ms: seq<Mutation>): int
  {
    if ms == [] then |records| else CountAfter(records, ms[..|ms| - 1]) + Delta(records, ms[|ms| - 1])
  }

  predicate RecordsFit(o: Options, s: State, r: Record)
  {
    r.applied ==> CountAfter(s.records, r.mutations) <= o.maxRecords
  }

  // A key not mentioned keeps its value.
  lemma {:induction false} UntouchedKey(records: map<Bytes, Bytes>, ms: seq<Mutation>, key: Bytes)
    requires forall m <- ms :: m.key != key
    ensures key in ApplyMutations(records, ms) <==> key in records
    ensures key in records ==> ApplyMutations(records, ms)[key] == records[key]
  {
    if ms != [] {
      UntouchedKey(records, ms[..|ms| - 1], key);
    }
  }

  // The count validation keeps is the number of records after the command.
  lemma {:induction false} CountIsSize(records: map<Bytes, Bytes>, ms: seq<Mutation>)
    requires DistinctKeys(ms)
    ensures |ApplyMutations(records, ms)| == CountAfter(records, ms)
  {
    if ms != [] {
      var front, m := ms[..|ms| - 1], ms[|ms| - 1];
      CountIsSize(records, front);
      UntouchedKey(records, front, m.key);
      var mid := ApplyMutations(records, front);
      if m.delete {
        assert (mid - {m.key}).Keys == mid.Keys - {m.key};
        if m.key !in mid { assert mid - {m.key} == mid; }
      } else {
        assert mid[m.key := m.value].Keys == mid.Keys + {m.key};
      }
    }
  }

  // ------------------------------------------------------------------ invariant

  predicate EntryOk(o: Options, c: Codec, key: Bytes, value: Bytes)
  {
    key != [] && |key| <= o.MaxStoredKeyBytes() && |value| <= o.maxValueBytes && c.validJson(value)
  }

  predicate EntriesOk(o: Options, c: Codec, records: map<Bytes, Bytes>)
  {
    forall key <- records :: EntryOk(o, c, key, records[key])
  }

  predicate DecisionOk(o: Options, c: Codec, s: State, i: int)
    requires 0 <= i < |s.dedupeIDs| && s.dedupeIDs[i] in s.dedupe
  {
    var r := s.dedupe[s.dedupeIDs[i]];
    && r.commandID == s.dedupeIDs[i] && r.sequence == s.sequence - |s.dedupeIDs| + 1 + i
    && r.mutations == [] && WellFormed(o, c, r)
  }

  // Retained decisions are the last ones, in order, without gaps.
  predicate DedupeOk(o: Options, c: Codec, s: State)
  {
    && |s.dedupeIDs| <= s.sequence && |s.dedupeIDs| <= o.dedupeHorizon
    && (s.sequence > 0 ==> s.dedupeIDs != [])
    && Distinct(s.dedupeIDs) && Elements(s.dedupeIDs) == s.dedupe.Keys
    && forall i | 0 <= i < |s.dedupeIDs| :: DecisionOk(o, c, s, i)
  }

  predicate StateOk(o: Options, c: Codec, s: State)
  {
    DedupeOk(o, c, s) && EntriesOk(o, c, s.records) && |s.records| <= o.maxRecords
  }

  // What makes a record the next one: a fresh command that fits the live store.
  predicate Follows(o: Options, c: Codec, s: State, r: Record)
  {
    && r.sequence == s.sequence + 1 && r.commandID !in s.dedupe
    && WellFormed(o, c, r) && RecordsFit(o, s, r)
  }

  lemma {:induction false} ApplyKeepsEntries(o: Options, c: Codec, records: map<Bytes, Bytes>, ms: seq<Mutation>)
    requires EntriesOk(o, c, records) && forall m <- ms :: MutationValid(o, c, m)
    ensures EntriesOk(o, c, ApplyMutations(records, ms))
  {
    if ms != [] {
      ApplyKeepsEntries(o, c, records, ms[..|ms| - 1]);
      assert MutationValid(o, c, ms[|ms| - 1]);
    }
  }

  lemma DropFirst(ids: seq<Bytes>)
    requires ids != [] && Distinct(ids)
    ensures Elements(ids[1..]) == Elements(ids) - {ids[0]}
  {
    forall x | x in ids && x != ids[0] ensures x in ids[1..] {
      var i :| 0 <= i < |ids| && ids[i] == x;
      assert ids[1..][i - 1] == x;
    }
  }

  // The retained identities stay distinct and are exactly the retained decisions.
  lemma ApplyKeepsIds(o: Options, s: State, r: Record)
    requires Distinct(s.dedupeIDs) && Elements(s.dedupeIDs) == s.dedupe.Keys && r.commandID !in s.dedupe
    ensures var s' := Apply(o, s, r); Distinct(s'.dedupeIDs) && Elements(s'.dedupeIDs) == s'.dedupe.Keys
  {
    var ids := s.dedupeIDs + [r.commandID];
    assert forall i | 0 <= i < |s.dedupeIDs| :: s.dedupeIDs[i] in Elements(s.dedupeIDs);
    assert Distinct(ids);
    assert Elements(ids) == Elements(s.dedupeIDs) + {r.commandID};
    DropFirst(ids);
  }

  lemma ApplyKeepsDecision(o: Options, c: Codec, s: State, r: Record, i: nat)
    requires o.Normalized() && DedupeOk(o, c, s) && Follows(o, c, s, r) && i < |Apply(o, s, r).dedupeIDs|
    requires Apply(o, s, r).dedupeIDs[i] in Apply(o, s, r).dedupe
    ensures DecisionOk(o, c, Apply(o, s, r), i)
  {
    var s' := Apply(o, s, r);
    var drop := |s.dedupeIDs| + 1 - |s'.dedupeIDs|;
    assert s'.dedupeIDs[i] == (s.dedupeIDs + [r.commandID])[i + drop];
    if i + drop < |s.dedupeIDs| {
      assert s.dedupeIDs[i + drop] in Elements(s.dedupeIDs);
      assert DecisionOk(o, c, s, i + drop);
    }
  }

  lemma ApplyKeepsDedupe(o: Options, c: Codec, s: State, r: Record)
    requires o.Normalized() && DedupeOk(o, c, s) && Follows(o, c, s, r)
    ensures DedupeOk(o, c, Apply(o, s, r))
  {
    var s' := Apply(o, s, r);
    ApplyKeepsIds(o, s, r);
    forall i | 0 <= i < |s'.dedupeIDs| ensures s'.dedupeIDs[i] in s'.dedupe && DecisionOk(o, c, s', i) {
      assert s'.dedupeIDs[i] in Elements(s'.dedupeIDs);
      ApplyKeepsDecision(o, c, s, r, i);
    }
  }

  lemma ApplyKeepsState(o: Options, c: Codec, s: State, r: Record)
    requires o.Normalized() && StateOk(o, c, s) && Follows(o, c, s, r)
    ensures StateOk(o, c, Apply(o, s, r))
  {
    ApplyKeepsDedupe(o, c, s, r);
    ApplyKeepsEntries(o, c, s.records, r.mutations);
    CountIsSize(s.records, r.mutations);
  }

  // Histories the live store can have produced.
  predicate Legal(o: Options, c: Codec, h: seq<Record>)
  {
    h == [] || (Legal(o, c, h[..|h| - 1]) && Follows(o, c, Fold(o, h[..|h| - 1]), h[|h| - 1]))
  }

  lemma {:induction false} LegalState(o: Options, c: Codec, h: seq<Record>)
    requires o.Normalized() && Legal(o, c, h)
    ensures StateOk(o, c, Fold(o, h)) && Fold(o, h).sequence == |h|
  {
    if h != [] {
      LegalState(o, c, h[..|h| - 1]);
      ApplyKeepsState(o, c, Fold(o, h[..|h| - 1]), h[|h| - 1]);
    }
  }

  lemma {:induction false} LegalPrefix(o: Options, c: Codec, h: seq<Record>, n: nat)
    requires Legal(o, c, h) && n <= |h|
    ensures Legal(o, c, h[..n])
  {
    if n < |h| {
      LegalPrefix(o, c, h[..|h| - 1], n);
      assert h[..|h| - 1][..n] == h[..n];
    } else {
      assert h[..n] == h;
    }
  }

  lemma LegalSnoc(o: Options, c: Codec, h: seq<Record>, r: Record)
    requires Legal(o, c, h) && Follows(o, c, Fold(o, h), r)
    ensures Legal(o, c, h + [r]) && Fold(o, h + [r]) == Apply(o, Fold(o, h), r)
  {
    assert (h + [r])[..|h|] == h;
  }

  // Record number n follows the first n records.
  lemma LegalAt(o: Options, c: Codec, h: seq<Record>, n: nat)
    requires o.Normalized() && Legal(o, c, h) && n < |h|
    ensures Legal(o, c, h[..n]) && Follows(o, c, Fold(o, h[..n]), h[n]) && h[n].sequence == n + 1
    ensures Fold(o, h[..n + 1]) == Apply(o, Fold(o, h[..n]), h[n])
  {
    LegalPrefix(o, c, h, n + 1);
    assert h[..n + 1][..n] == h[..n];
    LegalState(o, c, h[..n]);
  }
}
