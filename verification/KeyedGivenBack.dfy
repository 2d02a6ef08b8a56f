/**
 What a log gives back once it opens: which records come back under their keys with their values, and
 exactly when the whole state does, for every history of commands with arbitrary bytes in their strings.
 */
module KeyedGivenBack {
  import opened Bytes
  import opened KeyedRecords
  import opened KeyedRecovery
  import opened KeyedSnapshot
  import opened KeyedCommit
  import opened KeyedRuns
  import opened KeyedText
  import opened KeyedScrub
  import opened QueryIndex

  // ------------------------------------------------------------ the last word on a key

  // All mutations of a history, in order.
  function Muts(h: seq<Record>): seq<Mutation>
  {
    if h == [] then [] else Muts(h[..|h| - 1]) + if h[|h| - 1].applied then h[|h| - 1].mutations else []
  }

  lemma {:induction false} ApplyAppend(records: map<Bytes, Bytes>, a: seq<Mutation>, b: seq<Mutation>)
    ensures ApplyMutations(records, a + b) == ApplyMutations(ApplyMutations(records, a), b)
  {
    if b == [] {
      assert a + b == a;
    } else {
      assert (a + b)[..|a + b| - 1] == a + b[..|b| - 1];
      ApplyAppend(records, a, b[..|b| - 1]);
    }
  }

  lemma {:induction false} RecordsAre(o: Options, h: seq<Record>)
    ensures Fold(o, h).records == ApplyMutations(map[], Muts(h))
  {
    if h != [] {
      RecordsAre(o, h[..|h| - 1]);
      ApplyAppend(map[], Muts(h[..|h| - 1]), if h[|h| - 1].applied then h[|h| - 1].mutations else []);
    }
  }

  lemma {:induction false} MutsScrubbed(h: seq<Record>)
    ensures Muts(ScrubAll(h)) == ScrubMutations(Muts(h))
  {
    if h != [] {
      MutsScrubbed(h[..|h| - 1]);
      ScrubPrefix(h, |h| - 1);
    }
  }

  // The last mutation of a key.
  function LastOn(ms: seq<Mutation>, key: Bytes): Option<Mutation>
  {
    if ms == [] then None
    else if ms[|ms| - 1].key == key then Some(ms[|ms| - 1])
    else LastOn(ms[..|ms| - 1], key)
  }

  // The last mutation of any key that becomes this one.
  function LastLike(ms: seq<Mutation>, key: Bytes): Option<Mutation>
  {
    if ms == [] then None
    else if Scrub(ms[|ms| - 1].key) == key then Some(ms[|ms| - 1])
    else LastLike(ms[..|ms| - 1], key)
  }

  predicate Puts(m: Option<Mutation>) { m.Some? && !m.value.delete }

  lemma {:induction false} LastDecides(ms: seq<Mutation>, key: Bytes)
    ensures var records := ApplyMutations(map[], ms);
            && (key in records <==> Puts(LastOn(ms, key)))
            && (key in records ==> records[key] == LastOn(ms, key).value.value)
  {
    if ms != [] { LastDecides(ms[..|ms| - 1], key); }
  }

  lemma {:induction false} LastScrubbed(ms: seq<Mutation>, key: Bytes)
    ensures LastOn(ScrubMutations(ms), key)
         == match LastLike(ms, key) case None => None case Some(m) => Some(m.(key := key))
  {
    if ms != [] {
      assert ScrubMutations(ms)[..|ms| - 1] == ScrubMutations(ms[..|ms| - 1]);
      LastScrubbed(ms[..|ms| - 1], key);
    }
  }

  // The last of its kind is the last of its own key.
  lemma {:induction false} LastLikeIsLast(ms: seq<Mutation>, key: Bytes)
    requires LastLike(ms, key).Some?
    ensures var m := LastLike(ms, key).value; Scrub(m.key) == key && LastOn(ms, m.key) == Some(m)
  {
    if Scrub(ms[|ms| - 1].key) != key { LastLikeIsLast(ms[..|ms| - 1], key); }
  }

  lemma {:induction false} LastHasLike(ms: seq<Mutation>, key: Bytes)
    requires LastOn(ms, key).Some?
    ensures LastLike(ms, Scrub(key)).Some?
  {
    if ms[|ms| - 1].key != key { LastHasLike(ms[..|ms| - 1], key); }
  }

  // ------------------------------------------------------------------ one record

  lemma ScrubbedRecord(o: Options, h: seq<Record>, key: Bytes)
    ensures var m, records := LastLike(Muts(h), key), Fold(o, ScrubAll(h)).records;
            (key in records <==> Puts(m)) && (key in records ==> records[key] == m.value.value)
  {
    RecordsAre(o, ScrubAll(h));
    MutsScrubbed(h);
    LastScrubbed(Muts(h), key);
    LastDecides(ScrubMutations(Muts(h)), key);
  }

  lemma LiveRecord(o: Options, h: seq<Record>, key: Bytes)
    ensures var m, records := LastOn(Muts(h), key), Fold(o, h).records;
            (key in records <==> Puts(m)) && (key in records ==> records[key] == m.value.value)
  {
    RecordsAre(o, h);
    LastDecides(Muts(h), key);
  }

  // A coerced key is well-formed, and so is every key the log gives back.
  lemma GivenBackIsValid(o: Options, h: seq<Record>, key: Bytes)
    requires key in Fold(o, ScrubAll(h)).records
    ensures ValidUtf8(key)
  {
    ScrubbedRecord(o, h, key);
    LastLikeIsLast(Muts(h), key);
    ScrubIsValid(LastLike(Muts(h), key).value.key);
  }

  // What a later reader finds under a key: its value, and not that of another key.
  predicate ComesBack(again: map<Bytes, Bytes>, key: Bytes, value: Bytes)
  {
    key in again && again[key] == value
  }

  /** Of a history that opens again, a live record comes back under its key with its value exactly if the
      key is well-formed and the last mutation of all the keys that JSON makes this one was a put of that
      value. */
  lemma RecordSurvivesIff(o: Options, c: Codec, h: seq<Record>, key: Bytes)
    requires o.Normalized() && Scrubs(c) && Legal(o, c, h) && AllSized(c, h) && Reopens(o, h)
    requires key in Fold(o, h).records
    ensures var again, value := Recover(o, c, None, Frames(c, h)), Fold(o, h).records[key];
            && again.Replayed?
            && (ComesBack(again.state.records, key, value) <==>
                  ValidUtf8(key) && Puts(LastLike(Muts(h), key)) && LastLike(Muts(h), key).value.value == value)
  {
    ReopensIff(o, c, h);
    ScrubbedRecord(o, h, key);
    if key in Fold(o, ScrubAll(h)).records { GivenBackIsValid(o, h, key); }
  }

  // -------------------------------------------------------------------- the whole state

  // Every live key is well-formed, and nothing was done since to another key that becomes it.
  ghost predicate RecordsKept(o: Options, h: seq<Record>)
  {
    forall key <- Fold(o, h).records :: ValidUtf8(key) && LastLike(Muts(h), key) == LastOn(Muts(h), key)
  }

  lemma KeptComesBack(o: Options, h: seq<Record>, key: Bytes)
    requires RecordsKept(o, h)
    ensures var live, again := Fold(o, h).records, Fold(o, ScrubAll(h)).records;
            (key in live <==> key in again) && (key in live ==> live[key] == again[key])
  {
    var ms := Muts(h);
    ScrubbedRecord(o, h, key);
    LiveRecord(o, h, key);
    if key in Fold(o, ScrubAll(h)).records {
      LastLikeIsLast(ms, key);
      var other := LastLike(ms, key).value.key;
      LiveRecord(o, h, other);
      ScrubKeepsIff(other);
    }
  }

  lemma LostIfNotKept(o: Options, h: seq<Record>, key: Bytes)
    requires Fold(o, ScrubAll(h)).records == Fold(o, h).records && key in Fold(o, h).records
    ensures ValidUtf8(key) && LastLike(Muts(h), key) == LastOn(Muts(h), key)
  {
    var ms := Muts(h);
    GivenBackIsValid(o, h, key);
    ScrubbedRecord(o, h, key);
    LastLikeIsLast(ms, key);
    var other := LastLike(ms, key).value.key;
    LiveRecord(o, h, other);
    GivenBackIsValid(o, h, other);
    ScrubKeepsIff(other);
  }

  lemma RecordsKeptIff(o: Options, h: seq<Record>)
    ensures Fold(o, ScrubAll(h)).records == Fold(o, h).records <==> RecordsKept(o, h)
  {
    var live, again := Fold(o, h).records, Fold(o, ScrubAll(h)).records;
    if again == live {
      forall key <- live ensures ValidUtf8(key) && LastLike(Muts(h), key) == LastOn(Muts(h), key) {
        LostIfNotKept(o, h, key);
      }
    } else if RecordsKept(o, h) {
      forall key ensures (key in live <==> key in again) && (key in live ==> live[key] == again[key]) {
        KeptComesBack(o, h, key);
      }
    }
  }

  // ----------------------------------------------------------------------- decisions

  // Identity and code of the decisions that are still retained are well-formed.
  predicate DecisionsKept(o: Options, h: seq<Record>)
  {
    forall j: nat | j < |h| && |h| - j <= o.dedupeHorizon :: ValidUtf8(h[j].commandID) && ValidUtf8(h[j].code)
  }

  // A retained decision is that of its record.
  lemma {:induction false} RetainedIs(o: Options, c: Codec, h: seq<Record>, j: nat)
    requires o.Normalized() && Legal(o, c, h) && j < |h| && |h| - j <= o.dedupeHorizon
    ensures h[j].commandID in Fold(o, h).dedupe && Fold(o, h).dedupe[h[j].commandID] == Retained(h[j])
  {
    var n := |h| - 1;
    var front, r := h[..n], h[n];
    var s := Fold(o, front);
    RetainedAre(o, c, h, h[j].commandID);
    LastIdsHas(h, o.dedupeHorizon, h[j].commandID);
    if j < n {
      RetainedIs(o, c, front, j);
      assert front[j] == h[j];
    }
  }

  // The retained identities are well-formed.
  predicate IdsKept(o: Options, h: seq<Record>)
  {
    forall j: nat | j < |h| && |h| - j <= o.dedupeHorizon :: ValidUtf8(h[j].commandID)
  }

  lemma IdAt(n: nat, h: seq<Record>, j: nat)
    requires j < |h| && |h| - j <= n
    ensures var i := j - (|h| - |LastIds(h, n)|); i >= 0 && LastIds(h, n)[i] == h[j].commandID
  {}

  lemma SameFrom(h: seq<Record>, ids: seq<Bytes>, ids': seq<Bytes>, from: nat)
    requires |ids| == |ids'| == |h| - from
    requires forall j: nat | from <= j < |h| :: ids'[j - from] == ids[j - from] <==> ValidUtf8(h[j].commandID)
    ensures ids' == ids <==> forall j: nat | from <= j < |h| :: ValidUtf8(h[j].commandID)
  {
    if forall j: nat | from <= j < |h| :: ValidUtf8(h[j].commandID) {
      forall i | 0 <= i < |ids| ensures ids'[i] == ids[i] { assert ValidUtf8(h[from + i].commandID); }
    }
  }

  lemma KeptId(id: Bytes, a: Bytes, b: Bytes)
    requires a == Scrub(id) && b == id
    ensures a == b <==> ValidUtf8(id)
  {
    ScrubKeepsIff(id);
  }

  lemma SameIdsIff(o: Options, h: seq<Record>, t: seq<Record>)
    requires t == ScrubAll(h)
    ensures LastIds(t, o.dedupeHorizon) == LastIds(h, o.dedupeHorizon) <==> IdsKept(o, h)
  {
    var n := o.dedupeHorizon;
    var ids, ids' := LastIds(h, n), LastIds(t, n);
    var from := |h| - |ids|;
    forall j: nat | from <= j < |h| ensures ids'[j - from] == ids[j - from] <==> ValidUtf8(h[j].commandID) {
      IdAt(n, h, j);
      IdAt(n, t, j);
      KeptId(h[j].commandID, ids'[j - from], ids[j - from]);
    }
    SameFrom(h, ids, ids', from);
  }

  predicate SameDecisions(s: State, s': State)
  {
    s.dedupe == s'.dedupe && s.dedupeIDs == s'.dedupeIDs
  }

  lemma KeptDecision(o: Options, c: Codec, h: seq<Record>, id: Bytes)
    requires o.Normalized() && Legal(o, c, h) && Legal(o, c, ScrubAll(h)) && DecisionsKept(o, h)
    requires id in Fold(o, h).dedupe
    ensures id in Fold(o, ScrubAll(h)).dedupe && Fold(o, ScrubAll(h)).dedupe[id] == Fold(o, h).dedupe[id]
  {
    RetainedAre(o, c, h, id);
    LastIdsHas(h, o.dedupeHorizon, id);
    var j: nat :| j < |h| && |h| - j <= o.dedupeHorizon && h[j].commandID == id;
    RetainedIs(o, c, h, j);
    RetainedIs(o, c, ScrubAll(h), j);
    SameRetainedRecord(h[j]);
  }

  lemma SameRetainedRecord(r: Record)
    ensures Retained(ScrubRecord(r)) == Retained(r) <==> ValidUtf8(r.commandID) && ValidUtf8(r.code)
  {
    ScrubKeepsIff(r.commandID);
    ScrubKeepsIff(r.code);
  }

  lemma SameRetained(o: Options, c: Codec, h: seq<Record>, t: seq<Record>)
    requires o.Normalized() && Legal(o, c, h) && Legal(o, c, t)
    requires LastIds(t, o.dedupeHorizon) == LastIds(h, o.dedupeHorizon)
    ensures Fold(o, t).dedupeIDs == Fold(o, h).dedupeIDs && Fold(o, t).dedupe.Keys == Fold(o, h).dedupe.Keys
  {
    DedupeIdsAre(o, h);
    DedupeIdsAre(o, t);
    forall id ensures id in Fold(o, h).dedupe <==> id in Fold(o, t).dedupe {
      RetainedAre(o, c, h, id);
      RetainedAre(o, c, t, id);
    }
  }

  lemma SameMap<K, V>(a: map<K, V>, b: map<K, V>)
    requires a.Keys == b.Keys && forall k <- a :: a[k] == b[k]
    ensures a == b
  {}

  lemma DecisionsStay(o: Options, c: Codec, h: seq<Record>)
    requires o.Normalized() && Legal(o, c, h) && Legal(o, c, ScrubAll(h)) && DecisionsKept(o, h)
    ensures SameDecisions(Fold(o, ScrubAll(h)), Fold(o, h))
  {
    SameIdsIff(o, h, ScrubAll(h));
    assert IdsKept(o, h);
    SameRetained(o, c, h, ScrubAll(h));
    var live, again := Fold(o, h).dedupe, Fold(o, ScrubAll(h)).dedupe;
    forall id <- live ensures id in again && live[id] == again[id] { KeptDecision(o, c, h, id); }
    SameMap(live, again);
  }

  lemma DecisionsChange(o: Options, c: Codec, h: seq<Record>, j: nat)
    requires o.Normalized() && Legal(o, c, h) && Legal(o, c, ScrubAll(h)) && j < |h| && |h| - j <= o.dedupeHorizon
    requires SameDecisions(Fold(o, ScrubAll(h)), Fold(o, h))
    ensures ValidUtf8(h[j].commandID) && ValidUtf8(h[j].code)
  {
    DedupeIdsAre(o, h);
    DedupeIdsAre(o, ScrubAll(h));
    SameIdsIff(o, h, ScrubAll(h));
    RetainedIs(o, c, h, j);
    RetainedIs(o, c, ScrubAll(h), j);
    ScrubKeepsIff(h[j].commandID);
    ScrubKeepsIff(h[j].code);
  }

  lemma DecisionsKeptIff(o: Options, c: Codec, h: seq<Record>)
    requires o.Normalized() && Legal(o, c, h) && Legal(o, c, ScrubAll(h))
    ensures SameDecisions(Fold(o, ScrubAll(h)), Fold(o, h)) <==> DecisionsKept(o, h)
  {
    if SameDecisions(Fold(o, ScrubAll(h)), Fold(o, h)) {
      forall j: nat | j < |h| && |h| - j <= o.dedupeHorizon ensures ValidUtf8(h[j].commandID) && ValidUtf8(h[j].code) {
        DecisionsChange(o, c, h, j);
      }
    } else if DecisionsKept(o, h) {
      DecisionsStay(o, c, h);
    }
  }

  /** The log of a history gives back the very state exactly if it opens, every live key is well-formed
      and untouched by its likes, and the retained decisions have well-formed strings. */
  lemma StateKeptIff(o: Options, c: Codec, h: seq<Record>)
    requires o.Normalized() && Scrubs(c) && Legal(o, c, h) && AllSized(c, h)
    ensures Recover(o, c, None, Frames(c, h)) == Replayed(Fold(o, h), |Frames(c, h)|) <==>
              Reopens(o, h) && RecordsKept(o, h) && DecisionsKept(o, h)
  {
    ReopensIff(o, c, h);
    if Reopens(o, h) {
      ScrubbedIsLegal(o, c, h);
      CountsUp(o, c, h);
      CountsUp(o, c, ScrubAll(h));
      RecordsKeptIff(o, h);
      DecisionsKeptIff(o, c, h);
    }
  }

  // ------------------------------------------------------------------------ whole runs

  // What a group that has not failed did to the store and its log, whatever its strings are.
  ghost predicate Extends(o: Options, c: Codec, h: seq<Record>, g: Group)
  {
    && Legal(o, c, h + g.appended) && AllSized(c, g.appended)
    && g.log == Frames(c, g.appended) && g.state == Fold(o, h + g.appended)
  }

  lemma OneMore(o: Options, c: Codec, h: seq<Record>, g: Group, r: Record)
    requires Extends(o, c, h, g) && Follows(o, c, g.state, r) && |c.encode(r)| <= MAX_FRAME_BYTES
    ensures var g' := g.(log := g.log + Frame(c, r), appended := g.appended + [r], state := Apply(o, g.state, r));
            Extends(o, c, h, g')
  {
    ConcatAssoc(h, g.appended, [r]);
    LegalSnoc(o, c, h + g.appended, r);
    FramesSnoc(c, g.appended, r);
  }

  lemma StepKeeps(o: Options, c: Codec, plan: Plan, shared: bool, h: seq<Record>, g: Group, q: Request)
    requires !g.failed && Extends(o, c, h, g) && !Step(o, c, plan, shared, g, q).failed
    ensures Extends(o, c, h, Step(o, c, plan, shared, g, q))
  {
    var e := Execute(o, c, g.state, q);
    if e.Persist? {
      ExecuteFollows(o, c, g.state, q);
      if |c.encode(e.record)| <= MAX_FRAME_BYTES { OneMore(o, c, h, g, e.record); }
    }
  }

  lemma {:induction false} StepsKeep(o: Options, c: Codec, plan: Plan, shared: bool, h: seq<Record>, qs: seq<Request>)
    requires Legal(o, c, h) && !Steps(o, c, plan, shared, Fold(o, h), qs).failed
    ensures Extends(o, c, h, Steps(o, c, plan, shared, Fold(o, h), qs))
  {
    if qs == [] {
      assert h + [] == h;
    } else {
      var front := Steps(o, c, plan, shared, Fold(o, h), qs[..|qs| - 1]);
      StepExtends(o, c, plan, shared, front, qs[|qs| - 1]);
      StepsKeep(o, c, plan, shared, h, qs[..|qs| - 1]);
      StepKeeps(o, c, plan, shared, h, front, qs[|qs| - 1]);
    }
  }

  // The log holds the whole history, all of it synced, and memory its outcome.
  ghost predicate Logged(o: Options, c: Codec, y: Sys)
  {
    && Legal(o, c, y.history) && AllSized(c, y.history) && y.acked == |y.history|
    && y.disk == Disk([None], [Log(Frames(c, y.history), |Frames(c, y.history)|)])
    && y.state == Fold(o, y.history)
  }

  lemma GroupLogged(o: Options, c: Codec, y: Sys, plan: Plan, qs: seq<Request>)
    requires Logged(o, c, y) && !y.poisoned && !AfterGroup(o, c, y, plan, qs).poisoned
    ensures Logged(o, c, AfterGroup(o, c, y, plan, qs))
  {
    var g := Steps(o, c, plan, |qs| > 1, y.state, qs);
    StepsKeep(o, c, plan, |qs| > 1, y.history, qs);
    FramesAppend(c, y.history, g.appended);
  }

  lemma {:induction false} CommitsLogged(o: Options, c: Codec, es: seq<Event>)
    requires (forall e <- es :: e.CommitGroup?) && !Run(o, c, es).poisoned
    ensures Logged(o, c, Run(o, c, es))
  {
    if es != [] {
      var front, e := es[..|es| - 1], es[|es| - 1];
      assert forall e <- front :: e in es;
      assert e in es;
      CommitsLogged(o, c, front);
      if 0 < |e.requests| <= MAX_GROUP { GroupLogged(o, c, Run(o, c, front), e.plan, e.requests); }
    }
  }

  lemma ReopenLogged(o: Options, c: Codec, y: Sys)
    requires Logged(o, c, y) && !y.poisoned
    ensures var again, z := Recover(o, c, None, Frames(c, y.history)), Next(o, c, y, Reopen);
            z.poisoned == again.Refused? && (again.Replayed? ==> z.state == again.state)
  {}

  lemma LoggedReopens(o: Options, c: Codec, y: Sys)
    requires o.Normalized() && Scrubs(c) && Logged(o, c, y) && !y.poisoned
    ensures var z := Next(o, c, y, Reopen);
            && (!z.poisoned <==> Reopens(o, y.history))
            && (!z.poisoned ==> z.state == Fold(o, ScrubAll(y.history)))
            && (!z.poisoned && z.state == y.state <==>
                  Reopens(o, y.history) && RecordsKept(o, y.history) && DecisionsKept(o, y.history))
  {
    ReopenLogged(o, c, y);
    ReopensIff(o, c, y.history);
    StateKeptIff(o, c, y.history);
  }

  /** Whatever commands a store has committed, all of them acknowledged: reopening it succeeds exactly if
      the coerced history is admitted, and shows the state that was acknowledged exactly if moreover every
      live key and retained decision keeps its text. */
  lemma ReopenedIff(o: Options, c: Codec, es: seq<Event>)
    requires o.Normalized() && Scrubs(c) && (forall e <- es :: e.CommitGroup?) && !Run(o, c, es).poisoned
    ensures var y := Run(o, c, es); var z := Next(o, c, y, Reopen);
            && y.acked == |y.history|
            && (!z.poisoned <==> Reopens(o, y.history))
            && (!z.poisoned ==> z.state == Fold(o, ScrubAll(y.history)))
            && (!z.poisoned && z.state == y.state <==>
                  Reopens(o, y.history) && RecordsKept(o, y.history) && DecisionsKept(o, y.history))
  {
    CommitsLogged(o, c, es);
    LoggedReopens(o, c, Run(o, c, es));
  }

  // ---------------------------------------------------------------------------- datasets

  // A record of a dataset, under a well-formed key of its own, comes back exactly if the dataset's number
  // is well-formed and nothing else was last written under what JSON makes the same stored key.
  lemma DatasetSurvivesIff(o: Options, c: Codec, h: seq<Record>, dataset: nat, key: Bytes)
    requires o.Normalized() && Scrubs(c) && Legal(o, c, h) && AllSized(c, h) && Reopens(o, h)
    requires ValidUtf8(key) && BackendKey(dataset, key) in Fold(o, h).records
    ensures var again, stored := Recover(o, c, None, Frames(c, h)), BackendKey(dataset, key);
            var value, last := Fold(o, h).records[stored], LastLike(Muts(h), stored);
            && again.Replayed?
            && (ComesBack(again.state.records, stored, value) <==>
                  ValidUtf8(BigEndian(8, dataset)) && Puts(last) && last.value.value == value)
  {
    RecordSurvivesIff(o, c, h, BackendKey(dataset, key));
    DatasetKeyValidIff(dataset, key);
  }

  lemma {:induction false} ZerosStay(n: nat, b: Bytes)
    ensures Scrub(BigEndian(n, 0) + b) == BigEndian(n, 0) + Scrub(b)
  {
    if n == 0 {
      assert BigEndian(0, 0) + b == b;
    } else {
      assert BigEndian(n, 0) + b == BigEndian(n - 1, 0) + ([0] + b);
      ZerosStay(n - 1, [0] + b);
      assert ([0] + b)[1..] == b && ([0] + b)[..1] == [0];
      assert BigEndian(n - 1, 0) + ([0] + Scrub(b)) == BigEndian(n, 0) + Scrub(b);
    }
  }

  lemma {:induction false} ZeroInFront(n: nat)
    ensures [0] + BigEndian(n, 0) == BigEndian(n + 1, 0)
  {
    if n == 0 {
      assert BigEndian(1, 0) == BigEndian(0, 0) + [0] == [0] + BigEndian(0, 0);
    } else {
      ZeroInFront(n - 1);
      assert [0] + (BigEndian(n - 1, 0) + [0]) == [0] + BigEndian(n - 1, 0) + [0];
    }
  }

  lemma SmallNumber(dataset: byte, key: Bytes)
    ensures BackendKey(dataset, key) == BigEndian(8, 0) + ([dataset] + key)
  {
    assert BigEndian(8, dataset) == BigEndian(7, 0) + [dataset];
    ZeroInFront(7);
    var zeros := BigEndian(7, 0);
    assert [0] + (zeros + [dataset]) + key == ([0] + zeros) + ([dataset] + key);
  }

  // A byte of 128 or more before well-formed text becomes U+FFFD, whatever it is.
  lemma LoneByte(b: byte, text: Bytes)
    requires b >= 128 && ValidUtf8(text)
    ensures Scrub([b] + text) == REPLACEMENT + text
  {
    NothingStraddles([b], text);
    assert ([b] + text)[1..] == text;
    ScrubKeepsIff(text);
  }

  // JSON takes the datasets 128 to 255 for one: the last byte of their number becomes U+FFFD.
  lemma DatasetsMerge(dataset: byte, key: Bytes)
    requires dataset >= 128 && ValidUtf8(key)
    ensures Scrub(BackendKey(dataset, key)) == BigEndian(8, 0) + (REPLACEMENT + key)
  {
    SmallNumber(dataset, key);
    LoneByte(dataset, key);
    ZerosStay(8, [dataset] + key);
  }

  /** One transaction that writes the same well-formed key in two of these datasets, in whatever history,
      and the store never opens again. */
  lemma TwoDatasetsRefused(o: Options, c: Codec, h: seq<Record>, n: nat, i: nat, j: nat, d: byte, d': byte,
      key: Bytes)
    requires o.Normalized() && Scrubs(c) && Legal(o, c, h) && AllSized(c, h) && n < |h|
    requires i < j < |h[n].mutations| && d >= 128 && d' >= 128 && ValidUtf8(key)
    requires h[n].mutations[i].key == BackendKey(d, key) && h[n].mutations[j].key == BackendKey(d', key)
    ensures Recover(o, c, None, Frames(c, h)).Refused?
  {
    DatasetsMerge(d, key);
    DatasetsMerge(d', key);
    assert !TextFits(o, h[n]);
    assert !TextOk(o, h, n);
    ReopensIff(o, c, h);
  }

  // -------------------------------------------------------------------- a lost store

  lemma {:induction false} LessAfter(p: Bytes, a: Bytes, b: Bytes)
    requires Less(a, b)
    ensures Less(p + a, p + b)
  {
    if p == [] {
      assert p + a == a && p + b == b;
    } else {
      assert (p + a)[1..] == p[1..] + a && (p + b)[1..] == p[1..] + b;
      LessAfter(p[1..], a, b);
    }
  }

  function TwoPuts(a: Bytes, b: Bytes, value: Bytes): seq<TxOp>
  {
    [Put(a, value), Put(b, value)]
  }

  function TwoMutations(a: Bytes, b: Bytes, value: Bytes): seq<Mutation>
  {
    [Mutation(a, value, false), Mutation(b, value, false)]
  }

  lemma TwoWrites(o: Options, c: Codec, a: Bytes, b: Bytes, value: Bytes)
    requires Less(a, b) && CanWrite(o, a) && CanWrite(o, b)
    requires c.validJson(value) && |value| <= o.maxValueBytes
    ensures MutationsOf(WritesOf(o, c, TwoPuts(a, b, value))) == TwoMutations(a, b, value)
  {
    LessIrreflexive(a);
    var ops := TwoPuts(a, b, value);
    var one: Writes := map[a := Some(value)];
    var writes: Writes := map[a := Some(value), b := Some(value)];
    assert ops[..1] == [Put(a, value)] && [Put(a, value)][..0] == [];
    assert WritesOf(o, c, [Put(a, value)]) == one;
    assert WritesOf(o, c, ops) == writes;
    assert Elements([a, b]) == writes.Keys;
    AscendingUnique([a, b], Sorted(writes.Keys));
  }

  lemma TwoCount(records: map<Bytes, Bytes>, m: Mutation, m': Mutation)
    requires !m.delete && !m'.delete
    ensures CountAfter(records, [m, m']) <= |records| + 2
    ensures LiveTotal([m, m']) == |m.key| + |m.value| + |m'.key| + |m'.value|
  {
    assert [m, m'][..1] == [m] && [m][..0] == [];
    assert CountAfter(records, [m]) == |records| + Delta(records, m);
    assert LiveTotal([m]) == |m.key| + |m.value|;
  }

  function TwoRecord(s: State, id: Bytes, a: Bytes, b: Bytes, value: Bytes, result: Bytes): Record
  {
    Record(s.sequence + 1, id, true, [], result, TwoMutations(a, b, value))
  }

  // The transaction fits the store.
  predicate TwoFit(o: Options, c: Codec, s: State, id: Bytes, a: Bytes, b: Bytes, value: Bytes, result: Bytes)
  {
    && !Blank(id) && |id| <= MAX_IDENTITY_BYTES && id !in s.dedupe
    && CanWrite(o, a) && CanWrite(o, b) && |a| + |b| + 2 * |value| <= o.maxTransactionBytes
    && c.validJson(value) && |value| <= o.maxValueBytes && c.validJson(result) && |result| <= o.maxValueBytes
    && |s.records| + 2 <= o.maxRecords && |c.encode(TwoRecord(s, id, a, b, value, result))| <= MAX_FRAME_BYTES
  }

  lemma TwoExecute(o: Options, c: Codec, s: State, f: Callback, id: Bytes, a: Bytes, b: Bytes, value: Bytes,
      result: Bytes)
    requires Less(a, b) && TwoFit(o, c, s, id, a, b, value, result)
    requires f(s.records) == Completes(result, TwoPuts(a, b, value))
    ensures Execute(o, c, s, Request(id, Some(f), false)) == Persist(TwoRecord(s, id, a, b, value, result))
  {
    TwoWrites(o, c, a, b, value);
    TwoCount(s.records, Mutation(a, value, false), Mutation(b, value, false));
  }

  lemma CommitsRecord(o: Options, c: Codec, s: State, q: Request, r: Record)
    requires Execute(o, c, s, q) == Persist(r) && !q.cancelled && |c.encode(r)| <= MAX_FRAME_BYTES
    ensures var g := Commit(o, c, NO_FAULT, s, [q]); !g.failed && g.appended == [r]
  {
    CommitOne(o, c, s, q);
  }

  // The transaction is acknowledged like any other.
  lemma TwoCommit(o: Options, c: Codec, y: Sys, f: Callback, id: Bytes, a: Bytes, b: Bytes, value: Bytes,
      result: Bytes)
    requires Present(y) && Less(a, b) && TwoFit(o, c, y.state, id, a, b, value, result)
    requires f(y.state.records) == Completes(result, TwoPuts(a, b, value))
    ensures var y' := AfterGroup(o, c, y, NO_FAULT, [Request(id, Some(f), false)]);
            && !y'.poisoned && y'.acked == |y'.history|
            && y'.history == y.history + [TwoRecord(y.state, id, a, b, value, result)]
  {
    TwoExecute(o, c, y.state, f, id, a, b, value, result);
    CommitsRecord(o, c, y.state, Request(id, Some(f), false), TwoRecord(y.state, id, a, b, value, result));
  }

  lemma TwoDatasetsInOrder(key: Bytes)
    ensures Less(BackendKey(128, key), BackendKey(129, key))
  {
    SmallNumber(128, key);
    SmallNumber(129, key);
    LessAfter(BigEndian(8, 0), [128] + key, [129] + key);
  }

  lemma LostAfter(o: Options, c: Codec, y: Sys, f: Callback, id: Bytes, key: Bytes, value: Bytes, result: Bytes)
    requires o.Normalized() && Scrubs(c) && ValidUtf8(key) && Logged(o, c, y) && !y.poisoned
    requires TwoFit(o, c, y.state, id, BackendKey(128, key), BackendKey(129, key), value, result)
    requires f(y.state.records) == Completes(result, TwoPuts(BackendKey(128, key), BackendKey(129, key), value))
    ensures var y' := AfterGroup(o, c, y, NO_FAULT, [Request(id, Some(f), false)]);
            && !y'.poisoned && y'.acked == |y'.history| == |y.history| + 1
            && Recover(o, c, Last(y'.disk.snaps), Last(y'.disk.logs).bytes).Refused?
  {
    var a, b := BackendKey(128, key), BackendKey(129, key);
    TwoDatasetsInOrder(key);
    TwoCommit(o, c, y, f, id, a, b, value, result);
    GroupLogged(o, c, y, NO_FAULT, [Request(id, Some(f), false)]);
    var h := AfterGroup(o, c, y, NO_FAULT, [Request(id, Some(f), false)]).history;
    TwoDatasetsRefused(o, c, h, |y.history|, 0, 1, 128, 129, key);
  }

  /** In whatever state committing commands has brought the store: a transaction that puts one key in
      datasets 128 and 129 is acknowledged, and after it the store does not open - with everything that
      was acknowledged before. */
  lemma TwoDatasetsLoseTheStore(o: Options, c: Codec, es: seq<Event>, f: Callback, id: Bytes, key: Bytes,
      value: Bytes, result: Bytes)
    requires o.Normalized() && Scrubs(c) && (forall e <- es :: e.CommitGroup?) && ValidUtf8(key)
    requires var y := Run(o, c, es);
             && !y.poisoned && TwoFit(o, c, y.state, id, BackendKey(128, key), BackendKey(129, key), value, result)
             && f(y.state.records) == Completes(result, TwoPuts(BackendKey(128, key), BackendKey(129, key), value))
    ensures var y' := Run(o, c, es + [CommitGroup(NO_FAULT, [Request(id, Some(f), false)])]);
            && !y'.poisoned && y'.acked == |y'.history| == |Run(o, c, es).history| + 1
            && Recover(o, c, Last(y'.disk.snaps), Last(y'.disk.logs).bytes).Refused?
  {
    var e := CommitGroup(NO_FAULT, [Request(id, Some(f), false)]);
    CommitsLogged(o, c, es);
    LostAfter(o, c, Run(o, c, es), f, id, key, value, result);
    assert (es + [e])[..|es|] == es;
  }

  lemma RepeatedKey(o: Options, c: Codec, r: Record, m: Mutation, m': Mutation)
    requires r.sequence == 1 && WellFormed(o, c, r.(mutations := [m])) && r.applied && r.mutations == [m, m']
    requires m'.key == m.key
    ensures Admit(o, c, 0, EMPTY, r) == Rejected(Corruption)
  {
    assert [m, m'][..1] == [m] && [m][..0] == [];
    assert m in [m] && m.key in KeysOf([m]);
    assert FirstFault(o, c, [m]) == None;
  }

  lemma TwoScrubbed(r: Record, key: Bytes, value: Bytes)
    requires ValidUtf8(key) && r.mutations == TwoMutations(BackendKey(128, key), BackendKey(129, key), value)
    ensures var m := Mutation(Scrub(BackendKey(128, key)), value, false); ScrubRecord(r).mutations == [m, m]
  {
    DatasetsMerge(128, key);
    DatasetsMerge(129, key);
  }

  lemma OneFrame(c: Codec, r: Record)
    ensures Frames(c, [r]) == Frame(c, r)
  {
    assert [r][..0] == [];
    assert [] + Frame(c, r) == Frame(c, r);
  }

  lemma OneEvent(o: Options, c: Codec, e: Event)
    ensures Run(o, c, [e]) == Next(o, c, FRESH, e)
  {
    assert [e][..0] == [];
    assert RunFrom(o, c, FRESH, []) == FRESH;
  }

  lemma FirstIsTwo(o: Options, c: Codec, f: Callback, id: Bytes, a: Bytes, b: Bytes, value: Bytes, result: Bytes)
      returns (y: Sys)
    requires Less(a, b) && TwoFit(o, c, EMPTY, id, a, b, value, result)
    requires f(map[]) == Completes(result, TwoPuts(a, b, value))
    ensures y == Run(o, c, [CommitGroup(NO_FAULT, [Request(id, Some(f), false)])]) && !y.poisoned && y.acked == 1
    ensures y.disk.snaps == [None] && y.disk.logs != []
    ensures Last(y.disk.logs).bytes == Frame(c, TwoRecord(EMPTY, id, a, b, value, result))
  {
    var e, r := CommitGroup(NO_FAULT, [Request(id, Some(f), false)]), TwoRecord(EMPTY, id, a, b, value, result);
    y := Run(o, c, [e]);
    OneEvent(o, c, e);
    TwoCommit(o, c, FRESH, f, id, a, b, value, result);
    CommitsLogged(o, c, [e]);
    assert y.history == [r];
    OneFrame(c, r);
  }

  lemma TwoRejected(o: Options, c: Codec, r: Record, key: Bytes, value: Bytes)
    requires o.Normalized() && r.sequence == 1 && r.applied && ValidUtf8(r.commandID) && r.commandID != []
             && r.code == []
    requires |r.commandID| <= MAX_IDENTITY_BYTES && |key| + 11 <= o.MaxStoredKeyBytes() && ValidUtf8(key)
    requires c.validJson(r.result) && |r.result| <= o.maxValueBytes && c.validJson(value) && |value| <= o.maxValueBytes
    requires r.mutations == TwoMutations(BackendKey(128, key), BackendKey(129, key), value)
    ensures Admit(o, c, 0, EMPTY, ScrubRecord(r)) == Rejected(Corruption)
  {
    var m := Mutation(Scrub(BackendKey(128, key)), value, false);
    DatasetsMerge(128, key);
    ScrubKeepsIff(r.commandID);
    TwoScrubbed(r, key, value);
    assert MutationValid(o, c, m);
    RepeatedKey(o, c, ScrubRecord(r), m, m);
  }

  /** The smallest such store: one command that puts one key, such as "a", in datasets 128 and 129. It is
      acknowledged, and opening the store again reports corruption. */
  lemma TwoDatasetsExample(o: Options, c: Codec, f: Callback, id: Bytes, key: Bytes, value: Bytes, result: Bytes)
    requires o.Normalized() && Scrubs(c) && ValidUtf8(id) && ValidUtf8(key) && |key| + 11 <= o.MaxStoredKeyBytes()
    requires TwoFit(o, c, EMPTY, id, BackendKey(128, key), BackendKey(129, key), value, result)
    requires f(map[]) == Completes(result, TwoPuts(BackendKey(128, key), BackendKey(129, key), value))
    ensures var y := Run(o, c, [CommitGroup(NO_FAULT, [Request(id, Some(f), false)])]);
            && !y.poisoned && y.acked == 1 && y.disk.logs != [] && y.disk.snaps == [None]
            && Recover(o, c, None, Last(y.disk.logs).bytes) == Refused(Corruption)
  {
    var a, b := BackendKey(128, key), BackendKey(129, key);
    TwoDatasetsInOrder(key);
    var y := FirstIsTwo(o, c, f, id, a, b, value, result);
    ReplayScrubbed(o, c, TwoRecord(EMPTY, id, a, b, value, result));
    TwoRejected(o, c, TwoRecord(EMPTY, id, a, b, value, result), key, value);
  }
}
