/**
 What JSON does to the strings of the keyed store. Identities, codes and keys are arbitrary bytes in
 memory, but a JSON string keeps only well-formed UTF-8, and different strings can become one. No key that
 is not well-formed ever comes back, and the number of a dataset can make all its keys such.
 */
module KeyedText {
  import opened Bytes
  import opened KeyedRecords
  import opened KeyedRecovery
  import opened KeyedSnapshot
  import opened KeyedCommit
  import opened KeyedRuns
  import opened QueryIndex

  // U+FFFD in UTF-8.
  const REPLACEMENT: Bytes := [0xEF, 0xBF, 0xBD]

  // A string encoded and decoded: every byte that starts no well-formed sequence is replaced.
  function Scrub(b: Bytes): Bytes
    decreases |b|
  {
    if b == [] then []
    else if Utf8Length(b) == 0 then REPLACEMENT + Scrub(b[1..])
    else b[..Utf8Length(b)] + Scrub(b[Utf8Length(b)..])
  }

  lemma {:induction false} ScrubKeepsIff(b: Bytes)
    ensures Scrub(b) == b <==> ValidUtf8(b)
    decreases |b|
  {
    if b != [] {
      var n := Utf8Length(b);
      if n == 0 {
        var rest := Scrub(b[1..]);
        assert Utf8Length(REPLACEMENT + rest) == 3;
      } else {
        ScrubKeepsIff(b[n..]);
        assert b == b[..n] + b[n..];
        assert Scrub(b)[n..] == Scrub(b[n..]);
      }
    }
  }

  lemma SameStart(b: Bytes, rest: Bytes)
    requires Utf8Length(b) > 0
    ensures Utf8Length(b[..Utf8Length(b)] + rest) == Utf8Length(b)
  {}

  lemma {:induction false} ScrubIsValid(b: Bytes)
    ensures ValidUtf8(Scrub(b))
    decreases |b|
  {
    if b != [] {
      var n := Utf8Length(b);
      if n == 0 {
        ScrubIsValid(b[1..]);
        assert Scrub(b)[3..] == Scrub(b[1..]);
      } else {
        ScrubIsValid(b[n..]);
        SameStart(b, Scrub(b[n..]));
        assert Scrub(b)[n..] == Scrub(b[n..]);
      }
    }
  }

  function ScrubMutations(ms: seq<Mutation>): (t: seq<Mutation>)
    ensures |t| == |ms|
    ensures forall i | 0 <= i < |ms| :: t[i] == ms[i].(key := Scrub(ms[i].key))
  {
    if ms == [] then [] else ScrubMutations(ms[..|ms| - 1]) + [ms[|ms| - 1].(key := Scrub(ms[|ms| - 1].key))]
  }

  function ScrubRecord(r: Record): Record
  {
    r.(commandID := Scrub(r.commandID), code := Scrub(r.code), mutations := ScrubMutations(r.mutations))
  }

  // JSON gives back the record with its strings coerced to UTF-8.
  ghost predicate Scrubs(c: Codec)
  {
    forall r: Record :: c.decode(c.encode(r)) == Some(ScrubRecord(r)) && c.encode(r) != []
  }

  lemma CleanIsKept(r: Record)
    ensures ScrubRecord(r) == r <==> CleanText(r)
  {
    ScrubKeepsIff(r.commandID);
    ScrubKeepsIff(r.code);
    forall i | 0 <= i < |r.mutations| ensures ScrubMutations(r.mutations)[i] == r.mutations[i] <==>
          ValidUtf8(r.mutations[i].key) {
      ScrubKeepsIff(r.mutations[i].key);
    }
    assert CleanText(r) ==> forall i | 0 <= i < |r.mutations| :: r.mutations[i] in r.mutations;
    assert ScrubRecord(r) == r ==> forall m <- r.mutations :: ValidUtf8(m.key);
  }

  // So the codec is lossless on well-formed text, as the theorems about whole runs assume.
  lemma ScrubbingIsLossless(c: Codec)
    requires Scrubs(c)
    ensures Lossless(c)
  {
    forall r: Record | CleanText(r) ensures c.decode(c.encode(r)) == Some(r) { CleanIsKept(r); }
  }

  // ------------------------------------------------------------- one stored record

  lemma FrameReadsScrubbed(c: Codec, r: Record)
    requires Scrubs(c) && |c.encode(r)| <= MAX_FRAME_BYTES
    ensures NextFrame(c, Frame(c, r)) == Whole(ScrubRecord(r), |Frame(c, r)|)
  {
    FrameParts(c, r, []);
    assert Frame(c, r) + [] == Frame(c, r);
  }

  lemma ReplayScrubbed(o: Options, c: Codec, r: Record)
    requires Scrubs(c) && |c.encode(r)| <= MAX_FRAME_BYTES
    ensures var admitted := Admit(o, c, 0, EMPTY, ScrubRecord(r));
            Recover(o, c, None, Frame(c, r)) ==
            if admitted.Rejected? then Refused(admitted.fault) else Replayed(admitted.state, |Frame(c, r)|)
  {
    FrameReadsScrubbed(c, r);
    var r', rest := ScrubRecord(r), Frame(c, r)[|Frame(c, r)|..];
    var admitted := Admit(o, c, 0, EMPTY, r');
    assert rest == [];
    assert admitted.Admitted? ==> Replay(o, c, rest, r'.sequence, admitted.state) == Replayed(admitted.state, 0);
  }

  function PutRecord(id: Bytes, key: Bytes, value: Bytes, result: Bytes): Record
  {
    Record(1, id, true, [], result, [Mutation(key, value, false)])
  }

  predicate PutFits(o: Options, c: Codec, id: Bytes, key: Bytes, value: Bytes, result: Bytes)
  {
    && !Blank(id) && |id| <= MAX_IDENTITY_BYTES && CanWrite(o, key)
       && |key| + |value| <= o.maxTransactionBytes
    && c.validJson(value) && |value| <= o.maxValueBytes && c.validJson(result) && |result| <= o.maxValueBytes
    && |c.encode(PutRecord(id, key, value, result))| <= MAX_FRAME_BYTES
  }

  lemma OneWrite(o: Options, c: Codec, key: Bytes, value: Bytes)
    requires CanWrite(o, key) && c.validJson(value) && |value| <= o.maxValueBytes
    ensures MutationsOf(WritesOf(o, c, [Put(key, value)])) == [Mutation(key, value, false)]
  {
    assert [Put(key, value)][..0] == [];
    var writes: Writes := map[key := Some(value)];
    assert WritesOf(o, c, [Put(key, value)]) == writes;
    assert Elements([key]) == writes.Keys;
    AscendingUnique([key], Sorted(writes.Keys));
  }

  lemma PutExecutes(o: Options, c: Codec, f: Callback, id: Bytes, key: Bytes, value: Bytes, result: Bytes)
    requires o.Normalized() && PutFits(o, c, id, key, value, result) && f(map[]) == Completes(result, [Put(key, value)])
    ensures Execute(o, c, EMPTY, Request(id, Some(f), false)) == Persist(PutRecord(id, key, value, result))
  {
    OneWrite(o, c, key, value);
    var ms := [Mutation(key, value, false)];
    assert ms[..0] == [];
    assert CountAfter(map[], ms) == 1 && LiveTotal(ms) == |key| + |value|;
  }

  lemma PutCommits(o: Options, c: Codec, f: Callback, id: Bytes, key: Bytes, value: Bytes, result: Bytes)
      returns (y: Sys)
    requires o.Normalized() && PutFits(o, c, id, key, value, result) && f(map[]) == Completes(result, [Put(key, value)])
    ensures y == AfterGroup(o, c, FRESH, NO_FAULT, [Request(id, Some(f), false)]) && !y.poisoned && y.acked == 1
    ensures var r := PutRecord(id, key, value, result);
              y.disk == Disk([None], [Log(Frame(c, r), |Frame(c, r)|)]) && y.state == Apply(o, EMPTY, r)
  {
    PutExecutes(o, c, f, id, key, value, result);
    CommitOne(o, c, EMPTY, Request(id, Some(f), false));
    y := AfterGroup(o, c, FRESH, NO_FAULT, [Request(id, Some(f), false)]);
    var r := PutRecord(id, key, value, result);
    assert [] + Frame(c, r) == Frame(c, r);
  }

  lemma PutApplied(o: Options, id: Bytes, key: Bytes, value: Bytes, result: Bytes)
    requires o.Normalized()
    ensures var s := Apply(o, EMPTY, PutRecord(id, key, value, result));
            s.records == map[key := value] && s.dedupeIDs == [id]
  {
    var ms := [Mutation(key, value, false)];
    assert ms[..0] == [];
    assert ApplyMutations(map[], ms) == map[key := value];
  }

  lemma PutScrubbed(id: Bytes, key: Bytes, value: Bytes, result: Bytes)
    ensures ScrubRecord(PutRecord(id, key, value, result)) == PutRecord(Scrub(id), Scrub(key), value, result)
  {
    assert ScrubMutations([Mutation(key, value, false)]) == [Mutation(Scrub(key), value, false)];
  }

  lemma PutAdmitted(o: Options, c: Codec, id: Bytes, key: Bytes, value: Bytes, result: Bytes)
    requires o.Normalized()
    ensures var r := PutRecord(id, key, value, result); var admitted := Admit(o, c, 0, EMPTY, r);
            && (admitted.Admitted? ==> admitted.state == Apply(o, EMPTY, r))
            && (PutFits(o, c, id, key, value, result) ==> admitted.Admitted?)
  {
    var r, ms := PutRecord(id, key, value, result), [Mutation(key, value, false)];
    assert ms[..0] == [];
    assert CountAfter(map[], ms) == 1 && Total(ms) == |key| + |value|;
    ValidateIff(o, c, r);
  }

  // A store's first command puts one record. It is acknowledged and shown whatever its strings are;
  // reopening gives the same state exactly if its identity and key are well-formed UTF-8, and never
  // shows a record under a key that is not.
  lemma PutSurvivesIff(o: Options, c: Codec, f: Callback, id: Bytes, key: Bytes, value: Bytes, result: Bytes)
    requires o.Normalized() && Scrubs(c) && PutFits(o, c, id, key, value, result)
    requires f(map[]) == Completes(result, [Put(key, value)])
    ensures var y := AfterGroup(o, c, FRESH, NO_FAULT, [Request(id, Some(f), false)]);
            var again := Recover(o, c, y.disk.snaps[0], y.disk.logs[0].bytes);
            && !y.poisoned && y.acked == 1 && y.state.records == map[key := value]
            && (again == Replayed(y.state, |y.disk.logs[0].bytes|) <==> ValidUtf8(id) && ValidUtf8(key))
            && (again.Replayed? && !ValidUtf8(key) ==> key !in again.state.records)
  {
    var y := PutCommits(o, c, f, id, key, value, result);
    PutApplied(o, id, key, value, result);
    PutApplied(o, Scrub(id), Scrub(key), value, result);
    PutScrubbed(id, key, value, result);
    PutAdmitted(o, c, Scrub(id), Scrub(key), value, result);
    ReplayScrubbed(o, c, PutRecord(id, key, value, result));
    ScrubKeepsIff(id);
    ScrubKeepsIff(key);
  }

  // --------------------------------------------------------------- any log at all

  // A decoded JSON string is well-formed, whatever the bytes it was decoded from.
  ghost predicate DecodesText(c: Codec)
  {
    forall b: Bytes :: c.decode(b).Some? ==> CleanText(c.decode(b).value)
  }

  predicate ValidKeys(records: map<Bytes, Bytes>)
  {
    forall key <- records :: ValidUtf8(key)
  }

  lemma {:induction false} MutationsKeepValidKeys(records: map<Bytes, Bytes>, ms: seq<Mutation>)
    requires ValidKeys(records) && forall m <- ms :: ValidUtf8(m.key)
    ensures ValidKeys(ApplyMutations(records, ms))
  {
    if ms != [] {
      assert ms[|ms| - 1] in ms && forall m <- ms[..|ms| - 1] :: m in ms;
      MutationsKeepValidKeys(records, ms[..|ms| - 1]);
    }
  }

  lemma {:induction false} ReplayKeepsValidKeys(o: Options, c: Codec, rest: Bytes, last: nat, s: State)
    requires DecodesText(c) && ValidKeys(s.records)
    ensures var out := Replay(o, c, rest, last, s); out.Replayed? ==> ValidKeys(out.state.records)
    decreases |rest|
  {
    var f := NextFrame(c, rest);
    if f.Whole? {
      assert CleanText(f.record);
      MutationsKeepValidKeys(s.records, f.record.mutations);
      var admitted := Admit(o, c, last, s, f.record);
      if admitted.Admitted? { ReplayKeepsValidKeys(o, c, rest[f.size..], f.record.sequence, admitted.state); }
    }
  }

  // No log gives back a record under a key that is not well-formed, whatever was appended to it.
  lemma IllFormedKeysNeverReturn(o: Options, c: Codec, wal: Bytes, key: Bytes)
    requires DecodesText(c) && !ValidUtf8(key)
    ensures var out := Recover(o, c, None, wal); out.Replayed? ==> key !in out.state.records
  {
    ReplayKeepsValidKeys(o, c, wal, 0, EMPTY);
  }

  // -------------------------------------------------------------------- datasets

  // Well-formed text does not complete a sequence begun before it.
  lemma NothingStraddles(p: Bytes, text: Bytes)
    requires p != [] && ValidUtf8(text)
    ensures Utf8Length(p + text) == Utf8Length(p)
  {
    assert text != [] ==> !Continuation(text[0]);
  }

  // What stands before well-formed text must be well-formed by itself.
  lemma {:induction false} BeforeValidText(p: Bytes, text: Bytes)
    requires ValidUtf8(text)
    ensures ValidUtf8(p + text) <==> ValidUtf8(p)
    decreases |p|
  {
    if p == [] {
      assert p + text == text;
    } else {
      var n := Utf8Length(p);
      NothingStraddles(p, text);
      if n > 0 {
        assert (p + text)[n..] == p[n..] + text;
        BeforeValidText(p[n..], text);
      }
    }
  }

  // The stored key of a record whose own key is well-formed is well-formed exactly if the eight
  // bytes of its dataset's number are.
  lemma DatasetKeyValidIff(dataset: nat, key: Bytes)
    requires ValidUtf8(key)
    ensures ValidUtf8(BackendKey(dataset, key)) <==> ValidUtf8(BigEndian(8, dataset))
  {
    var number := BigEndian(8, dataset);
    BeforeValidText(number, key);
    assert BackendKey(dataset, key) == [0] + (number + key);
    assert ([0] + (number + key))[1..] == number + key;
  }

  lemma {:induction false} ZerosFirst(n: nat, b: Bytes)
    ensures ValidUtf8(BigEndian(n, 0) + b) <==> ValidUtf8(b)
  {
    if n == 0 {
      assert BigEndian(0, 0) + b == b;
    } else {
      assert BigEndian(n, 0) + b == BigEndian(n - 1, 0) + ([0] + b);
      ZerosFirst(n - 1, [0] + b);
      assert ([0] + b)[1..] == b;
    }
  }

  // The first 127 datasets are safe and the next 128 are not.
  lemma EarlyDatasets(dataset: nat)
    requires dataset < 256
    ensures ValidUtf8(BigEndian(8, dataset)) <==> dataset < 128
  {
    assert BigEndian(8, dataset) == BigEndian(7, 0) + [dataset];
    ZerosFirst(7, [dataset]);
    assert [dataset][1..] == [];
  }
}
