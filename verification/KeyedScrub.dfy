/**
 Whole histories of the keyed store under JSON: exactly when a log of commands with arbitrary bytes
 in their strings opens again, and what of the state it then gives back.
 */
module KeyedScrub {
  import opened Bytes
  import opened KeyedRecords
  import opened KeyedRecovery
  import opened KeyedSnapshot
  import opened KeyedText

  function ScrubAll(h: seq<Record>): (t: seq<Record>)
    ensures |t| == |h| && forall i | 0 <= i < |h| :: t[i] == ScrubRecord(h[i])
  {
    if h == [] then [] else ScrubAll(h[..|h| - 1]) + [ScrubRecord(h[|h| - 1])]
  }

  predicate AllSized(c: Codec, h: seq<Record>)
  {
    forall r <- h :: |c.encode(r)| <= MAX_FRAME_BYTES
  }

  // ------------------------------------------------------- replay reads the scrubbed history

  lemma ScrubPrefix(h: seq<Record>, n: nat)
    requires n <= |h|
    ensures ScrubAll(h)[..n] == ScrubAll(h[..n])
  {}

  lemma FrameReads(c: Codec, r: Record, rest: Bytes)
    requires Scrubs(c) && |c.encode(r)| <= MAX_FRAME_BYTES
    ensures NextFrame(c, Frame(c, r) + rest) == Whole(ScrubRecord(r), |Frame(c, r)|)
    ensures (Frame(c, r) + rest)[|Frame(c, r)|..] == rest
  {
    FrameParts(c, r, rest);
  }

  // Replay takes a record exactly if the live store could have written it and it fits.
  lemma AdmitIff(o: Options, c: Codec, s: State, r: Record, last: nat)
    requires s.sequence == last && r.sequence == last + 1
    ensures var admitted := Admit(o, c, last, s, r);
            && (admitted.Admitted? <==> Follows(o, c, s, r) && Fits(o, r))
            && (admitted.Admitted? ==> admitted.state == Apply(o, s, r))
  {
    ValidateIff(o, c, r);
  }

  ghost predicate Readable(o: Options, c: Codec, h: seq<Record>)
  {
    Legal(o, c, h) && AllFit(o, h)
  }

  lemma ReadableSnoc(o: Options, c: Codec, h: seq<Record>, n: nat)
    requires n < |h|
    ensures Readable(o, c, h[..n + 1]) <==>
              Readable(o, c, h[..n]) && Follows(o, c, Fold(o, h[..n]), h[n]) && Fits(o, h[n])
    ensures Fold(o, h[..n + 1]) == Apply(o, Fold(o, h[..n]), h[n])
  {
    assert h[..n + 1][..n] == h[..n];
    assert h[..n + 1] == h[..n] + [h[n]];
  }

  lemma {:induction false} ReadablePrefix(o: Options, c: Codec, h: seq<Record>, n: nat)
    requires n <= |h| && Readable(o, c, h)
    ensures Readable(o, c, h[..n])
  {
    LegalPrefix(o, c, h, n);
    assert forall r <- h[..n] :: r in h;
  }

  // What replaying the frames from record i on gives, over the scrubbed history before it.
  ghost predicate ReadsFrom(o: Options, c: Codec, h: seq<Record>, t: seq<Record>, i: nat, out: Outcome)
    requires i <= |h|
  {
    if Readable(o, c, t) then out == Replayed(Fold(o, t), |Frames(c, h[i..])|) else out.Refused?
  }

  lemma ReplayOneMore(o: Options, c: Codec, h: seq<Record>, i: nat, s: State)
    requires Scrubs(c) && AllSized(c, h) && i < |h|
    ensures Replay(o, c, Frames(c, h[i..]), i, s) ==
            var admitted := Admit(o, c, i, s, ScrubRecord(h[i]));
            if admitted.Rejected? then Refused(admitted.fault)
            else Later(Replay(o, c, Frames(c, h[i + 1..]), h[i].sequence, admitted.state), |Frame(c, h[i])|)
    ensures |Frames(c, h[i..])| == |Frame(c, h[i])| + |Frames(c, h[i + 1..])|
  {
    assert h[i..][1..] == h[i + 1..] && h[i] in h;
    FrameReads(c, h[i], Frames(c, h[i + 1..]));
  }

  // One record: either it ends the replay or the rest decides.
  lemma ReplayStep(o: Options, c: Codec, h: seq<Record>, t: seq<Record>, i: nat)
    requires o.Normalized() && Scrubs(c) && AllSized(c, h) && t == ScrubAll(h) && i < |h|
    requires h[i].sequence == i + 1 && Readable(o, c, t[..i])
    ensures var out := Replay(o, c, Frames(c, h[i..]), i, Fold(o, t[..i]));
            if Readable(o, c, t[..i + 1])
              then out == Later(Replay(o, c, Frames(c, h[i + 1..]), i + 1, Fold(o, t[..i + 1])), |Frame(c, h[i])|)
            else out.Refused?
    ensures |Frames(c, h[i..])| == |Frame(c, h[i])| + |Frames(c, h[i + 1..])|
  {
    var s := Fold(o, t[..i]);
    CountsUp(o, c, t[..i]);
    ReplayOneMore(o, c, h, i, s);
    AdmitIff(o, c, s, t[i], i);
    ReadableSnoc(o, c, t, i);
  }

  lemma ReadsOneMore(o: Options, c: Codec, h: seq<Record>, t: seq<Record>, i: nat, rest: Outcome, out: Outcome)
    requires i < |h| && ReadsFrom(o, c, h, t, i + 1, rest) && out == Later(rest, |Frame(c, h[i])|)
    requires |Frames(c, h[i..])| == |Frame(c, h[i])| + |Frames(c, h[i + 1..])|
    ensures ReadsFrom(o, c, h, t, i, out)
  {}

  lemma {:induction false} ReplayScrubbedFrom(o: Options, c: Codec, h: seq<Record>, t: seq<Record>, i: nat)
      returns (out: Outcome)
    requires o.Normalized() && Scrubs(c) && AllSized(c, h) && t == ScrubAll(h) && i <= |h|
    requires (forall j | 0 <= j < |h| :: h[j].sequence == j + 1) && Readable(o, c, t[..i])
    ensures out == Replay(o, c, Frames(c, h[i..]), i, Fold(o, t[..i])) && ReadsFrom(o, c, h, t, i, out)
    decreases |h| - i
  {
    out := Replay(o, c, Frames(c, h[i..]), i, Fold(o, t[..i]));
    if i == |h| {
      assert t[..i] == t && h[i..] == [];
    } else {
      ReplayStep(o, c, h, t, i);
      if Readable(o, c, t[..i + 1]) {
        var rest := ReplayScrubbedFrom(o, c, h, t, i + 1);
        ReadsOneMore(o, c, h, t, i, rest, out);
      } else {
        NotReadable(o, c, t, i + 1);
      }
    }
  }

  lemma NotReadable(o: Options, c: Codec, t: seq<Record>, n: nat)
    requires n <= |t| && !Readable(o, c, t[..n])
    ensures !Readable(o, c, t)
  {
    if Readable(o, c, t) { ReadablePrefix(o, c, t, n); }
  }

  lemma {:induction false} LegalSequence(o: Options, c: Codec, h: seq<Record>, i: nat)
    requires o.Normalized() && Legal(o, c, h) && i < |h|
    ensures h[i].sequence == i + 1
  {
    LegalAt(o, c, h, i);
  }

  // A log of any records the live store has written opens exactly if the history with its strings
  // coerced is one that the store could have written and replay can count, and then gives its state.
  lemma ReplayScrubbedHistory(o: Options, c: Codec, h: seq<Record>)
    requires o.Normalized() && Scrubs(c) && AllSized(c, h) && Legal(o, c, h)
    ensures ReadsFrom(o, c, h, ScrubAll(h), 0, Recover(o, c, None, Frames(c, h)))
  {
    forall j | 0 <= j < |h| ensures h[j].sequence == j + 1 { LegalSequence(o, c, h, j); }
    assert ScrubAll(h)[..0] == [] && h[0..] == h;
    var out := ReplayScrubbedFrom(o, c, h, ScrubAll(h), 0);
  }

  // ------------------------------------------------------------- retained identities

  // The identities of the last `n` records.
  function LastIds(h: seq<Record>, n: nat): (ids: seq<Bytes>)
    ensures |ids| == if |h| < n then |h| else n
  {
    var from := if |h| < n then 0 else |h| - n;
    seq(|h| - from, i requires 0 <= i < |h| - from => h[from + i].commandID)
  }

  lemma LastIdsSnoc(h: seq<Record>, r: Record, n: nat)
    requires n > 0
    ensures LastIds(h + [r], n) == (if |h| < n then LastIds(h, n) else LastIds(h, n)[1..]) + [r.commandID]
  {}

  lemma {:induction false} DedupeIdsAre(o: Options, h: seq<Record>)
    requires o.Normalized()
    ensures Fold(o, h).dedupeIDs == LastIds(h, o.dedupeHorizon)
  {
    if h != [] {
      var front, r := h[..|h| - 1], h[|h| - 1];
      DedupeIdsAre(o, front);
      assert h == front + [r];
      LastIdsSnoc(front, r, o.dedupeHorizon);
      var ids := Fold(o, front).dedupeIDs + [r.commandID];
      assert |ids| > o.dedupeHorizon ==> ids[1..] == Fold(o, front).dedupeIDs[1..] + [r.commandID];
    }
  }

  // Record n repeats no identity of the records that are still retained before it.
  ghost predicate FreshAt(o: Options, h: seq<Record>, n: nat)
    requires n < |h|
  {
    forall j: nat | j < n && n - j <= o.dedupeHorizon :: h[j].commandID != h[n].commandID
  }

  lemma LastIdsHas(h: seq<Record>, n: nat, id: Bytes)
    ensures id in LastIds(h, n) <==> exists j: nat | j < |h| && |h| - j <= n :: h[j].commandID == id
  {
    var ids, from := LastIds(h, n), if |h| < n then 0 else |h| - n;
    if id in ids {
      var i :| 0 <= i < |ids| && ids[i] == id;
      assert h[from + i].commandID == id;
    }
    if j: nat :| j < |h| && |h| - j <= n && h[j].commandID == id {
      assert ids[j - from] == id;
    }
  }

  lemma RetainedAre(o: Options, c: Codec, h: seq<Record>, id: Bytes)
    requires o.Normalized() && Legal(o, c, h)
    ensures id in Fold(o, h).dedupe <==> id in LastIds(h, o.dedupeHorizon)
  {
    LegalState(o, c, h);
    DedupeIdsAre(o, h);
    assert id in Fold(o, h).dedupe <==> id in Elements(Fold(o, h).dedupeIDs);
  }

  lemma FreshIff(o: Options, c: Codec, h: seq<Record>, n: nat)
    requires o.Normalized() && n < |h| && Legal(o, c, h[..n])
    ensures h[n].commandID !in Fold(o, h[..n]).dedupe <==> FreshAt(o, h, n)
  {
    RetainedAre(o, c, h[..n], h[n].commandID);
    LastIdsHas(h[..n], o.dedupeHorizon, h[n].commandID);
    assert forall j: nat | j < n :: h[..n][j] == h[j];
  }

  // ------------------------------------------------------------------ live records

  // Every scrubbed key is that of a live one.
  predicate ImageOf(scrubbed: map<Bytes, Bytes>, live: map<Bytes, Bytes>)
  {
    forall k <- scrubbed :: exists l <- live :: Scrub(l) == k
  }

  lemma MutationKeepsImage(scrubbed: map<Bytes, Bytes>, live: map<Bytes, Bytes>, m: Mutation)
    requires ImageOf(scrubbed, live)
    ensures ImageOf(ApplyMutation(scrubbed, m.(key := Scrub(m.key))), ApplyMutation(live, m))
  {
    var scrubbed', live' := ApplyMutation(scrubbed, m.(key := Scrub(m.key))), ApplyMutation(live, m);
    forall k <- scrubbed' ensures exists l <- live' :: Scrub(l) == k {
      if k == Scrub(m.key) {
        assert m.key in live';
      } else {
        var l :| l in live && Scrub(l) == k;
        assert l in live';
      }
    }
  }

  lemma {:induction false} MutationsKeepImage(scrubbed: map<Bytes, Bytes>, live: map<Bytes, Bytes>, ms: seq<Mutation>)
    requires ImageOf(scrubbed, live)
    ensures ImageOf(ApplyMutations(scrubbed, ScrubMutations(ms)), ApplyMutations(live, ms))
  {
    if ms != [] {
      var front, m := ms[..|ms| - 1], ms[|ms| - 1];
      MutationsKeepImage(scrubbed, live, front);
      assert ScrubMutations(ms)[..|ms| - 1] == ScrubMutations(front);
      MutationKeepsImage(ApplyMutations(scrubbed, ScrubMutations(front)), ApplyMutations(live, front), m);
    }
  }

  lemma {:induction false} HistoryImage(o: Options, h: seq<Record>)
    ensures ImageOf(Fold(o, ScrubAll(h)).records, Fold(o, h).records)
  {
    if h != [] {
      var front, r := h[..|h| - 1], h[|h| - 1];
      HistoryImage(o, front);
      ScrubPrefix(h, |h| - 1);
      if r.applied { MutationsKeepImage(Fold(o, ScrubAll(front)).records, Fold(o, front).records, r.mutations); }
    }
  }

  lemma {:induction false} ImageIsSmaller(keys: set<Bytes>, live: set<Bytes>)
    requires forall k <- keys :: exists l <- live :: Scrub(l) == k
    ensures |keys| <= |live|
    decreases |keys|
  {
    if keys != {} {
      var k :| k in keys;
      var l :| l in live && Scrub(l) == k;
      forall x <- keys - {k} ensures exists y <- live - {l} :: Scrub(y) == x {
        var y :| y in live && Scrub(y) == x;
        assert y in live - {l};
      }
      ImageIsSmaller(keys - {k}, live - {l});
    }
  }

  // However many keys collide, the scrubbed store never holds more records than the live one.
  lemma ScrubbedIsSmaller(o: Options, h: seq<Record>)
    ensures |Fold(o, ScrubAll(h)).records| <= |Fold(o, h).records|
  {
    HistoryImage(o, h);
    ImageIsSmaller(Fold(o, ScrubAll(h)).records.Keys, Fold(o, h).records.Keys);
  }

  // ------------------------------------------------------------------- when it opens

  // The strings of a record still fit when every ill-formed byte has become three, and no two of
  // its keys have become one.
  ghost predicate TextFits(o: Options, r: Record)
  {
    && |Scrub(r.commandID)| <= MAX_IDENTITY_BYTES && |Scrub(r.code)| <= MAX_CODE_BYTES
    && (forall m <- r.mutations :: |Scrub(m.key)| <= o.MaxStoredKeyBytes())
    && (forall i, j | 0 <= i < j < |r.mutations| :: Scrub(r.mutations[i].key) != Scrub(r.mutations[j].key))
    && Total(ScrubMutations(r.mutations)) <= o.maxTransactionBytes
  }

  // No identity becomes that of a decision which is still retained.
  ghost predicate TextFresh(o: Options, h: seq<Record>, n: nat)
    requires n < |h|
  {
    forall j: nat | j < n && n - j <= o.dedupeHorizon :: Scrub(h[j].commandID) != Scrub(h[n].commandID)
  }

  // Record n comes back.
  ghost predicate TextOk(o: Options, h: seq<Record>, n: nat)
    requires n < |h|
  {
    TextFits(o, h[n]) && TextFresh(o, h, n)
  }

  ghost predicate FirstOk(o: Options, h: seq<Record>, n: nat)
    requires n <= |h|
  {
    forall i: nat | i < n :: TextOk(o, h, i)
  }

  ghost predicate Reopens(o: Options, h: seq<Record>)
  {
    FirstOk(o, h, |h|)
  }

  lemma ScrubNotEmpty(b: Bytes)
    ensures Scrub(b) == [] <==> b == []
  {}

  lemma MutationsFitIff(o: Options, c: Codec, ms: seq<Mutation>)
    requires forall m <- ms :: MutationValid(o, c, m)
    ensures (forall m <- ScrubMutations(ms) :: MutationValid(o, c, m)) <==>
              forall m <- ms :: |Scrub(m.key)| <= o.MaxStoredKeyBytes()
  {
    var t := ScrubMutations(ms);
    forall i | 0 <= i < |ms| ensures MutationValid(o, c, t[i]) <==> |Scrub(ms[i].key)| <= o.MaxStoredKeyBytes() {
      assert ms[i] in ms;
      ScrubNotEmpty(ms[i].key);
    }
    if forall m <- t :: MutationValid(o, c, m) {
      forall m <- ms ensures |Scrub(m.key)| <= o.MaxStoredKeyBytes() {
        var i :| 0 <= i < |ms| && ms[i] == m;
        assert t[i] in t;
      }
    }
  }

  lemma WellFormedIff(o: Options, c: Codec, r: Record)
    requires WellFormed(o, c, r)
    ensures WellFormed(o, c, ScrubRecord(r)) && Fits(o, ScrubRecord(r)) <==> TextFits(o, r)
  {
    MutationsFitIff(o, c, r.mutations);
    ScrubNotEmpty(r.commandID);
    var t := ScrubMutations(r.mutations);
    assert DistinctKeys(t) <==>
        forall i, j | 0 <= i < j < |r.mutations| :: Scrub(r.mutations[i].key) != Scrub(r.mutations[j].key);
  }

  // The number of records needs no condition of its own.
  lemma CountFits(o: Options, c: Codec, h: seq<Record>, n: nat)
    requires o.Normalized() && Legal(o, c, h) && n < |h| && DistinctKeys(ScrubRecord(h[n]).mutations)
    ensures RecordsFit(o, Fold(o, ScrubAll(h)[..n]), ScrubRecord(h[n]))
  {
    var t := ScrubAll(h);
    LegalPrefix(o, c, h, n + 1);
    LegalState(o, c, h[..n + 1]);
    ScrubPrefix(h, n + 1);
    ScrubbedIsSmaller(o, h[..n + 1]);
    ReadableSnoc(o, c, t, n);
    CountIsSize(Fold(o, t[..n]).records, t[n].mutations);
  }

  lemma CountsUp(o: Options, c: Codec, h: seq<Record>)
    requires o.Normalized() && Legal(o, c, h)
    ensures Fold(o, h).sequence == |h|
  {
    LegalState(o, c, h);
  }

  lemma WrittenAt(o: Options, c: Codec, h: seq<Record>, n: nat)
    requires o.Normalized() && Legal(o, c, h) && n < |h|
    ensures WellFormed(o, c, h[n]) && h[n].sequence == n + 1
  {
    LegalAt(o, c, h, n);
  }

  lemma FreshTextIff(o: Options, c: Codec, h: seq<Record>, t: seq<Record>, n: nat)
    requires o.Normalized() && t == ScrubAll(h) && n < |h| && Legal(o, c, t[..n])
    ensures t[n].commandID !in Fold(o, t[..n]).dedupe <==> TextFresh(o, h, n)
  {
    FreshIff(o, c, t, n);
    assert forall j: nat | j <= n :: t[j].commandID == Scrub(h[j].commandID);
  }

  lemma FollowsIff(o: Options, c: Codec, h: seq<Record>, t: seq<Record>, n: nat)
    requires o.Normalized() && Legal(o, c, h) && t == ScrubAll(h) && n < |h| && Legal(o, c, t[..n])
    ensures Follows(o, c, Fold(o, t[..n]), t[n]) && Fits(o, t[n]) <==> TextFits(o, h[n]) && TextFresh(o, h, n)
  {
    var s, r := Fold(o, t[..n]), t[n];
    WrittenAt(o, c, h, n);
    CountsUp(o, c, t[..n]);
    FreshTextIff(o, c, h, t, n);
    WellFormedIff(o, c, h[n]);
    if TextFits(o, h[n]) { CountFits(o, c, h, n); }
  }

  lemma ReadableStep(o: Options, c: Codec, h: seq<Record>, t: seq<Record>, n: nat, next: nat)
    requires o.Normalized() && Legal(o, c, h) && t == ScrubAll(h) && next == n + 1 <= |h|
    ensures Readable(o, c, t[..next]) <==> Readable(o, c, t[..n]) && TextOk(o, h, n)
  {
    ReadableSnoc(o, c, t, n);
    if Readable(o, c, t[..n]) { FollowsIff(o, c, h, t, n); }
  }

  lemma FirstOkSnoc(o: Options, h: seq<Record>, n: nat, next: nat)
    requires next == n + 1 <= |h|
    ensures FirstOk(o, h, next) <==> FirstOk(o, h, n) && TextOk(o, h, n)
  {}

  lemma {:induction false} ReadableIff(o: Options, c: Codec, h: seq<Record>, t: seq<Record>, n: nat)
    requires o.Normalized() && Legal(o, c, h) && t == ScrubAll(h) && n <= |h|
    ensures Readable(o, c, t[..n]) <==> FirstOk(o, h, n)
  {
    if n == 0 {
      assert t[..0] == [];
    } else {
      ReadableIff(o, c, h, t, n - 1);
      ReadableStep(o, c, h, t, n - 1, n);
      FirstOkSnoc(o, h, n - 1, n);
    }
  }

  lemma ScrubbedIsLegal(o: Options, c: Codec, h: seq<Record>)
    requires o.Normalized() && Legal(o, c, h) && Reopens(o, h)
    ensures Legal(o, c, ScrubAll(h))
  {
    ReadableIff(o, c, h, ScrubAll(h), |h|);
    WholeHistory(h, ScrubAll(h));
  }

  /** The log of any history of commands opens again exactly if, with the strings coerced to UTF-8, every
      record still fits, no record names a key twice, and no identity repeats a retained one. It then gives
      the state of the coerced history. */
  lemma ReopensIff(o: Options, c: Codec, h: seq<Record>)
    requires o.Normalized() && Scrubs(c) && Legal(o, c, h) && AllSized(c, h)
    ensures var again := Recover(o, c, None, Frames(c, h));
            if Reopens(o, h) then again == Replayed(Fold(o, ScrubAll(h)), |Frames(c, h)|) else again.Refused?
  {
    ReplayScrubbedHistory(o, c, h);
    ReadableIff(o, c, h, ScrubAll(h), |h|);
    WholeHistory(h, ScrubAll(h));
  }

  lemma WholeHistory<T, U>(h: seq<T>, t: seq<U>)
    requires |t| == |h|
    ensures t[..|h|] == t && h[0..] == h
  {}
}
