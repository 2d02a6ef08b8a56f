/**
 Whole runs of the keyed store: groups of commands with storage failures, snapshots that stop at
 any point, and crashes that lose any part of what was not yet synced, followed by reopening.
 */
module KeyedRuns {
  import opened Bytes
  import opened KeyedRecords
  import opened KeyedRecovery
  import opened KeyedSnapshot
  import opened KeyedCommit

  const MAX_GROUP := 64

  // Contents of the log and how much of it is synced.
  datatype Log = Log(bytes: Bytes, synced: nat)

  // The files, with everything a crash may bring back: the snapshots since the last sync of the
  // directory and the logs since the last sync of the log, the current ones last.
  datatype Disk = Disk(snaps: seq<Option<Snapshot>>, logs: seq<Log>)

  // The store, with the history of appended records and the number of those that are durable.
  datatype Sys = Sys(state: State, poisoned: bool, disk: Disk, history: seq<Record>, acked: nat)

  datatype Event =
    | CommitGroup(plan: Plan, requests: seq<Request>)
    | TakeSnapshot(stopAfter: nat)
    | Reopen
    | Crash(snap: nat, log: nat, cut: nat)

  const FRESH := Sys(EMPTY, false, Disk([None], [Log([], 0)]), [], 0)

  // ---------------------------------------------------------------------- events

  function Last<T>(s: seq<T>): T
    requires s != []
  {
    s[|s| - 1]
  }

  function Front<T>(s: seq<T>): seq<T>
    requires s != []
  {
    s[..|s| - 1]
  }

  predicate Present(y: Sys) { y.disk.snaps != [] && y.disk.logs != [] }

  // The frames reached the file. Only a group that wrote some is synced, and then its records
  // and all before them are durable.
  function AfterCommit(y: Sys, g: Group): Sys
    requires Present(y)
  {
    var wal, history := Last(y.disk.logs).bytes + g.log, y.history + g.appended;
    if g.failed then
      Sys(g.state, true, y.disk.(logs := Front(y.disk.logs) + [Log(wal, Last(y.disk.logs).synced)]), history, y.acked)
    else if g.appended == [] then y
    else Sys(g.state, false, y.disk.(logs := [Log(wal, |wal|)]), history, |history|)
  }

  ghost function AfterGroup(o: Options, c: Codec, y: Sys, plan: Plan, qs: seq<Request>): Sys
    requires Present(y)
  {
    AfterCommit(y, Commit(o, c, plan, y.state, qs))
  }

  // Write and rename, sync the directory, truncate the log, sync it: `stopAfter` of the four
  // steps are done, and stopping early poisons the store.
  function AfterSnapshot(y: Sys, stopAfter: nat): Sys
    requires Present(y) && forall id <- y.state.dedupeIDs :: id in y.state.dedupe
  {
    var d, snap, n := y.disk, Some(SnapshotOf(y.state)), |y.history|;
    match stopAfter
    case 0 => y.(poisoned := true)
    case 1 => y.(poisoned := true, disk := d.(snaps := d.snaps + [snap]))
    case 2 => y.(poisoned := true, disk := d.(snaps := [snap]), acked := n)
    case 3 => y.(poisoned := true, disk := Disk([snap], d.logs + [Log([], 0)]), acked := n)
    case _ => y.(disk := Disk([snap], [Log([], 0)]), acked := n)
  }

  // Another process opens the files as they are. Nothing is synced, unless a torn tail is cut off.
  function AfterReopen(o: Options, c: Codec, y: Sys): Sys
    requires Present(y)
  {
    var wal := Last(y.disk.logs).bytes;
    match Recover(o, c, Last(y.disk.snaps), wal)
    case Refused(_) => y.(poisoned := true)
    case Replayed(s, keep) =>
      if keep < |wal|
          then y.(state := s, poisoned := false, disk := y.disk.(logs := [Log(wal[..keep], keep)]),
          acked := |y.history|)
      else y.(state := s, poisoned := false)
  }

  // What a crash leaves of a log: all that is synced and any part of the rest.
  function Survives(log: Log, cut: nat): Bytes
  {
    if log.synced <= cut <= |log.bytes| then log.bytes[..cut] else log.bytes
  }

  function SequenceOf(snap: Option<Snapshot>): nat { if snap.None? then 0 else snap.value.sequence }

  // Power is lost. What is then on disk is durable, and the history ends with it.
  function AfterCrash(c: Codec, y: Sys, snap: Option<Snapshot>, wal: Bytes): Sys
  {
    var n := Max(LastSequence(c, wal), SequenceOf(snap));
    var history := if n <= |y.history| then y.history[..n] else y.history;
    Sys(y.state, true, Disk([snap], [Log(wal, |wal|)]), history, |history|)
  }

  ghost function Next(o: Options, c: Codec, y: Sys, e: Event): Sys
  {
    if !Present(y) then y
    else
      match e
      case CommitGroup(plan, qs) => if y.poisoned || !(0 < |qs| <= MAX_GROUP) then y else AfterGroup(o, c, y, plan, qs)
      case TakeSnapshot(n) =>
        if y.poisoned || !(forall id <- y.state.dedupeIDs :: id in y.state.dedupe) then y else AfterSnapshot(y, n)
      case Reopen => AfterReopen(o, c, y)
      case Crash(i, j, cut) =>
        if i < |y.disk.snaps| && j < |y.disk.logs| then AfterCrash(c, y, y.disk.snaps[i], Survives(y.disk.logs[j], cut))
            else y
  }

  ghost function RunFrom(o: Options, c: Codec, y: Sys, es: seq<Event>): Sys
  {
    if es == [] then y else Next(o, c, RunFrom(o, c, y, es[..|es| - 1]), es[|es| - 1])
  }

  ghost function Run(o: Options, c: Codec, es: seq<Event>): Sys { RunFrom(o, c, FRESH, es) }

  // ------------------------------------------------------------- clean text, lossless JSON

  // Identities, codes and keys are JSON strings, which keep only well-formed UTF-8.
  predicate CleanText(r: Record)
  {
    ValidUtf8(r.commandID) && ValidUtf8(r.code) && forall m <- r.mutations :: ValidUtf8(m.key)
  }

  ghost predicate Lossless(c: Codec)
  {
    forall r: Record | CleanText(r) :: c.decode(c.encode(r)) == Some(r) && c.encode(r) != []
  }

  predicate CleanAttempt(a: Attempted)
  {
    match a
    case Rejects(code, _) => ValidUtf8(code)
    case Completes(_, ops) => forall op <- ops :: ValidUtf8(op.key)
    case _ => true
  }

  ghost predicate CleanRequest(q: Request)
  {
    && ValidUtf8(q.commandID)
    && (q.mutation.Some? ==> forall records :: CleanAttempt(q.mutation.value(records)))
  }

  ghost predicate CleanEvent(e: Event)
  {
    e.CommitGroup? ==> forall q <- e.requests :: CleanRequest(q)
  }

  lemma {:induction false} WritesClean(o: Options, c: Codec, ops: seq<TxOp>)
    requires forall op <- ops :: ValidUtf8(op.key)
    ensures forall key <- WritesOf(o, c, ops) :: ValidUtf8(key)
  {
    if ops != [] {
      assert forall op <- ops[..|ops| - 1] :: op in ops;
      assert ops[|ops| - 1] in ops;
      WritesClean(o, c, ops[..|ops| - 1]);
    }
  }

  lemma MutationsClean(writes: Writes)
    requires forall key <- writes :: ValidUtf8(key)
    ensures forall m <- MutationsOf(writes) :: ValidUtf8(m.key)
  {
    var keys, ms := Sorted(writes.Keys), MutationsOf(writes);
    forall i | 0 <= i < |ms| ensures ms[i].key == keys[i] && ValidUtf8(keys[i]) {
      assert keys[i] in Elements(keys);
    }
  }

  lemma ExecuteClean(o: Options, c: Codec, s: State, q: Request)
    requires Execute(o, c, s, q).Persist? && CleanRequest(q)
    ensures CleanText(Execute(o, c, s, q).record)
  {
    assert ValidUtf8([]);
    match q.mutation.value(s.records)
    case Completes(result, ops) =>
      assert CleanAttempt(q.mutation.value(s.records));
      WritesClean(o, c, ops);
      MutationsClean(WritesOf(o, c, ops));
    case _ =>
  }

  // ------------------------------------------------------------------ groups and history

  // The decision a reply carries is that of a record among the first n of the history.
  predicate Backed(h: seq<Record>, n: nat, d: Decision)
  {
    0 < d.sequence <= n <= |h| && DecisionOf(h[d.sequence - 1]) == d.(duplicate := false)
  }

  lemma RetainedAfterApply(o: Options, s: State, r: Record, id: Bytes)
    requires id in Apply(o, s, r).dedupe
    ensures if id == r.commandID then Apply(o, s, r).dedupe[id] == Retained(r)
            else id in s.dedupe && Apply(o, s, r).dedupe[id] == s.dedupe[id]
  {}

  lemma {:induction false} RetainedFromHistory(o: Options, c: Codec, h: seq<Record>, id: Bytes)
    requires o.Normalized() && Legal(o, c, h) && id in Fold(o, h).dedupe
    ensures Backed(h, |h|, DecisionOf(Fold(o, h).dedupe[id]))
  {
    if h != [] {
      var n := |h| - 1;
      LegalAt(o, c, h, n);
      assert h[..n + 1] == h;
      RetainedAfterApply(o, Fold(o, h[..n]), h[n], id);
      if id != h[n].commandID {
        RetainedFromHistory(o, c, h[..n], id);
      }
    }
  }

  // What processing requests against the state of history h preserves.
  ghost predicate GroupOk(o: Options, c: Codec, h: seq<Record>, g: Group, tail: Bytes)
  {
    && Legal(o, c, h + g.appended) && AllEncodable(c, g.appended)
    && g.log == Frames(c, g.appended) + tail && Torn(c, tail)
    && (!g.failed ==> tail == [] && g.state == Fold(o, h + g.appended))
    && |g.replies| == |g.durable|
    && forall i | 0 <= i < |g.replies| && g.replies[i].Decided? :: ReplyOk(h, g, i)
  }

  ghost predicate ReplyOk(h: seq<Record>, g: Group, i: nat)
    requires i < |g.replies| == |g.durable| && g.replies[i].Decided?
  {
    Backed(h + g.appended, if g.durable[i] then |h| + |g.appended| else |h|, g.replies[i].decision)
  }

  lemma AnsweredOk(o: Options, c: Codec, h: seq<Record>, g: Group, tail: Bytes, reply: Reply, durable: bool)
    requires GroupOk(o, c, h, g, tail)
    requires reply.Decided? ==> Backed(h + g.appended, if durable then |h| + |g.appended| else |h|, reply.decision)
    ensures GroupOk(o, c, h, Answered(g, reply, durable), tail)
  {
    var g' := Answered(g, reply, durable);
    forall i | 0 <= i < |g'.replies| && g'.replies[i].Decided? ensures ReplyOk(h, g', i) {
      if i < |g.replies| { assert ReplyOk(h, g, i); }
    }
  }

  lemma BackedLonger(h: seq<Record>, more: seq<Record>, n: nat, n': nat, d: Decision)
    requires Backed(h, n, d) && n <= n' <= |h + more|
    ensures Backed(h + more, n', d)
  {}

  // Replies that were backed stay backed when one more frame is appended.
  lemma RepliesStay(h: seq<Record>, g: Group, g': Group, r: Record)
    requires g'.appended == g.appended + [r] && g'.replies == g.replies && g'.durable == g.durable
             && |g.replies| == |g.durable|
    requires forall i | 0 <= i < |g.replies| && g.replies[i].Decided? :: ReplyOk(h, g, i)
    ensures forall i | 0 <= i < |g'.replies| && g'.replies[i].Decided? :: ReplyOk(h, g', i)
  {
    assert h + g'.appended == h + g.appended + [r];
    forall i | 0 <= i < |g'.replies| && g'.replies[i].Decided? ensures ReplyOk(h, g', i) {
      assert ReplyOk(h, g, i);
      var n := if g.durable[i] then |h| + |g.appended| else |h|;
      BackedLonger(h + g.appended, [r], n, if g.durable[i] then n + 1 else n, g.replies[i].decision);
    }
  }

  // One more whole frame.
  lemma AppendedOk(o: Options, c: Codec, h: seq<Record>, g: Group, r: Record) returns (g': Group)
    requires GroupOk(o, c, h, g, []) && !g.failed && Follows(o, c, g.state, r) && Encodable(c, r)
    ensures g' == g.(log := g.log + Frame(c, r), appended := g.appended + [r], state := Apply(o, g.state, r))
    ensures GroupOk(o, c, h, g', [])
  {
    g' := g.(log := g.log + Frame(c, r), appended := g.appended + [r], state := Apply(o, g.state, r));
    ConcatAssoc(h, g.appended, [r]);
    LegalSnoc(o, c, h + g.appended, r);
    FramesSnoc(c, g.appended, r);
    RepliesStay(h, g, g', r);
    assert g.log == Frames(c, g.appended);
    assert g'.log == Frames(c, g'.appended) + [];
  }

  // Every decision this group added to the store is one the group has staged.
  ghost predicate StagedCovers(h: seq<Record>, shared: bool, g: Group)
  {
    if shared then forall id <- g.state.dedupe | g.state.dedupe[id].sequence > |h| :: id in g.staged
    else g.replies == [] ==> g.appended == []
  }

  ghost predicate GroupInv(o: Options, c: Codec, h: seq<Record>, shared: bool, g: Group, tail: Bytes)
  {
    GroupOk(o, c, h, g, tail) && (!g.failed ==> StagedCovers(h, shared, g)) && StagedOk(shared, g)
  }

  // A duplicate answered from the store, not from this group, is a decision from before it.
  lemma DuplicateIsOlder(o: Options, c: Codec, h: seq<Record>, shared: bool, g: Group, q: Request)
    requires o.Normalized() && GroupInv(o, c, h, shared, g, []) && !g.failed && (shared || g.replies == [])
    requires q.commandID in g.state.dedupe && !(q.commandID in g.staged)
    ensures Backed(h + g.appended, |h|, DecisionOf(g.state.dedupe[q.commandID]))
  {
    RetainedFromHistory(o, c, h + g.appended, q.commandID);
  }

  // A request answered without a frame: what it is answered, and on what that rests.
  lemma AnswerOfStep(o: Options, c: Codec, plan: Plan, shared: bool, g: Group, q: Request)
      returns (reply: Reply, durable: bool)
    requires StagedOk(shared, g)
    requires g.failed || q.cancelled || (q.commandID in g.staged && q.commandID in g.state.dedupe)
             || Execute(o, c, g.state, q).Answer?
    ensures Step(o, c, plan, shared, g, q) == Answered(g, reply, durable)
    ensures reply.Decided? ==> !g.failed && q.commandID in g.state.dedupe && durable == (q.commandID in g.staged)
    ensures reply.Decided? && durable ==>
              g.staged[q.commandID] < |g.replies| && g.replies[g.staged[q.commandID]].Decided?
    ensures reply.Decided? && durable ==>
              reply.decision == g.replies[g.staged[q.commandID]].decision.(duplicate := true)
    ensures reply.Decided? && !durable ==> reply.decision == DecisionOf(g.state.dedupe[q.commandID]).(duplicate := true)
  {
    var g' := Step(o, c, plan, shared, g, q);
    reply, durable := g'.replies[|g.replies|], g'.durable[|g.durable|];
    if q.commandID in g.staged { assert StagedIdOk(g, q.commandID); }
  }

  lemma AnswerStep(o: Options, c: Codec, plan: Plan, h: seq<Record>, shared: bool, g: Group, q: Request, tail: Bytes)
      returns (reply: Reply, durable: bool)
    requires o.Normalized() && GroupInv(o, c, h, shared, g, tail) && (shared || g.replies == [])
    requires g.failed || q.cancelled || (q.commandID in g.staged && q.commandID in g.state.dedupe)
             || Execute(o, c, g.state, q).Answer?
    ensures Step(o, c, plan, shared, g, q) == Answered(g, reply, durable)
            && GroupOk(o, c, h, Answered(g, reply, durable), tail)
  {
    reply, durable := AnswerOfStep(o, c, plan, shared, g, q);
    if reply.Decided? {
      if durable {
        assert ReplyOk(h, g, g.staged[q.commandID]);
      } else {
        DuplicateIsOlder(o, c, h, shared, g, q);
      }
    }
    AnsweredOk(o, c, h, g, tail, reply, durable);
  }

  // Any part of a frame that reached the file beyond the complete ones is a torn tail.
  lemma TailOk(o: Options, c: Codec, h: seq<Record>, g: Group, g': Group, tail: Bytes)
    requires GroupOk(o, c, h, g, []) && Torn(c, tail) && g'.failed && g'.log == g.log + tail
    requires g'.appended == g.appended && g'.replies == g.replies && g'.durable == g.durable
    ensures GroupOk(o, c, h, g', tail)
  {
    assert Frames(c, g.appended) + [] == Frames(c, g.appended);
    forall i | 0 <= i < |g'.replies| && g'.replies[i].Decided? ensures ReplyOk(h, g', i) {
      assert ReplyOk(h, g, i);
    }
  }

  lemma TornWriteOk(o: Options, c: Codec, h: seq<Record>, g: Group, r: Record, n: nat) returns (tail: Bytes)
    requires GroupOk(o, c, h, g, []) && Encodable(c, r) && n < |Frame(c, r)|
    ensures GroupOk(o, c, h, Answered(g, Errored(Storage), false).(failed := true, log := g.log + Frame(c, r)[..n]),
            tail)
  {
    tail := Frame(c, r)[..n];
    assert tail < Frame(c, r);
    AnsweredOk(o, c, h, g, [], Errored(Storage), false);
    var g' := Answered(g, Errored(Storage), false);
    TailOk(o, c, h, g', g'.(failed := true, log := g.log + tail), tail);
  }

  lemma WholeWriteOk(o: Options, c: Codec, h: seq<Record>, g: Group, r: Record)
    requires GroupOk(o, c, h, g, []) && !g.failed && Follows(o, c, g.state, r) && Encodable(c, r)
    ensures GroupOk(o, c, h,
            Answered(g, Errored(Storage), false).(failed := true, log := g.log + Frame(c, r),
            appended := g.appended + [r]), [])
  {
    var g' := AppendedOk(o, c, h, g, r);
    AnsweredOk(o, c, h, g', [], Errored(Storage), false);
    FailingOk(o, c, h, Answered(g', Errored(Storage), false), g.state);
  }

  // Once the store has failed its in-memory state no longer matters.
  lemma FailingOk(o: Options, c: Codec, h: seq<Record>, g: Group, s: State)
    requires GroupOk(o, c, h, g, [])
    ensures GroupOk(o, c, h, g.(failed := true, state := s), [])
  {
    var g' := g.(failed := true, state := s);
    forall i | 0 <= i < |g'.replies| && g'.replies[i].Decided? ensures ReplyOk(h, g', i) {
      assert ReplyOk(h, g, i);
    }
  }

  // A write that stops inside a frame leaves a torn tail; one that stops after it leaves the frame.
  lemma FailedWriteOk(o: Options, c: Codec, plan: Plan, h: seq<Record>, g: Group, r: Record) returns (tail: Bytes)
    requires GroupOk(o, c, h, g, []) && !g.failed && Follows(o, c, g.state, r)
    requires c.decode(c.encode(r)) == Some(r) && c.encode(r) != [] && Append(c, plan, g, r).failed
    ensures GroupOk(o, c, h, Append(c, plan, g, r), tail)
  {
    tail := [];
    if |c.encode(r)| > MAX_FRAME_BYTES {
      AnsweredOk(o, c, h, g, [], Errored(Storage), false);
    } else if plan.written < |Frame(c, r)| {
      tail := TornWriteOk(o, c, h, g, r, plan.written);
    } else {
      WholeWriteOk(o, c, h, g, r);
    }
  }

  lemma PersistedOk(o: Options, c: Codec, h: seq<Record>, g: Group, r: Record)
    requires o.Normalized() && GroupOk(o, c, h, g, []) && !g.failed && Follows(o, c, g.state, r) && Encodable(c, r)
    ensures GroupOk(o, c, h,
            Answered(g.(log := g.log + Frame(c, r), appended := g.appended + [r], state := Apply(o, g.state, r)),
                                      Decided(DecisionOf(r)), true), [])
  {
    var g' := AppendedOk(o, c, h, g, r);
    LastIsBacked(o, c, h + g.appended, r);
    ConcatAssoc(h, g.appended, [r]);
    AnsweredOk(o, c, h, g', [], Decided(DecisionOf(r)), true);
  }

  lemma StagingOk(o: Options, c: Codec, h: seq<Record>, g: Group, staged: map<Bytes, nat>)
    requires GroupOk(o, c, h, g, [])
    ensures GroupOk(o, c, h, g.(staged := staged), [])
  {
    var g' := g.(staged := staged);
    forall i | 0 <= i < |g'.replies| && g'.replies[i].Decided? ensures ReplyOk(h, g', i) {
      assert ReplyOk(h, g, i);
    }
  }

  lemma PersistStep(o: Options, c: Codec, plan: Plan, h: seq<Record>, shared: bool, g: Group, q: Request)
      returns (tail: Bytes)
    requires o.Normalized() && Lossless(c) && CleanRequest(q) && GroupOk(o, c, h, g, []) && !g.failed && !q.cancelled
    requires !(q.commandID in g.staged && q.commandID in g.state.dedupe) && Execute(o, c, g.state, q).Persist?
    ensures GroupOk(o, c, h, Step(o, c, plan, shared, g, q), tail)
  {
    var r := Execute(o, c, g.state, q).record;
    ExecuteFollows(o, c, g.state, q);
    ExecuteClean(o, c, g.state, q);
    tail := [];
    if Append(c, plan, g, r).failed {
      tail := FailedWriteOk(o, c, plan, h, g, r);
    } else {
      PersistedOk(o, c, h, g, r);
      var g' := Answered(g.(log := g.log + Frame(c, r), appended := g.appended + [r], state := Apply(o, g.state, r)),
                         Decided(DecisionOf(r)), true);
      StagingOk(o, c, h, g', if shared then g.staged[q.commandID := |g.replies|] else g.staged);
    }
  }

  lemma LastIsBacked(o: Options, c: Codec, h: seq<Record>, r: Record)
    requires o.Normalized() && Legal(o, c, h) && Follows(o, c, Fold(o, h), r)
    ensures Backed(h + [r], |h| + 1, DecisionOf(r))
  {
    LegalState(o, c, h);
  }

  lemma CoversAfterPersist(o: Options, c: Codec, plan: Plan, h: seq<Record>, shared: bool, g: Group, q: Request)
    requires StagedCovers(h, shared, g) && !g.failed && !q.cancelled && !Step(o, c, plan, shared, g, q).failed
    requires !(q.commandID in g.staged && q.commandID in g.state.dedupe) && Execute(o, c, g.state, q).Persist?
    ensures StagedCovers(h, shared, Step(o, c, plan, shared, g, q))
  {
    ExecuteFollows(o, c, g.state, q);
    var g', r := Step(o, c, plan, shared, g, q), Execute(o, c, g.state, q).record;
    if shared {
      forall id <- g'.state.dedupe | g'.state.dedupe[id].sequence > |h| ensures id in g'.staged {
        RetainedAfterApply(o, g.state, r, id);
      }
    }
  }

  lemma StepKeepsGroup(o: Options, c: Codec, plan: Plan, h: seq<Record>, shared: bool, g: Group, q: Request,
      tail: Bytes)
      returns (tail': Bytes)
    requires o.Normalized() && Lossless(c) && CleanRequest(q) && GroupInv(o, c, h, shared, g, tail)
             && (shared || g.replies == [])
    ensures GroupInv(o, c, h, shared, Step(o, c, plan, shared, g, q), tail')
  {
    StepKeepsStaged(o, c, plan, shared, g, q);
    if g.failed || q.cancelled || (q.commandID in g.staged && q.commandID in g.state.dedupe)
        || Execute(o, c, g.state, q).Answer? {
      tail' := tail;
      var _, _ := AnswerStep(o, c, plan, h, shared, g, q, tail);
    } else {
      tail' := PersistStep(o, c, plan, h, shared, g, q);
      if !Step(o, c, plan, shared, g, q).failed { CoversAfterPersist(o, c, plan, h, shared, g, q); }
    }
  }

  lemma {:induction false} StepsKeepGroup(o: Options, c: Codec, plan: Plan, h: seq<Record>, shared: bool,
      qs: seq<Request>)
      returns (tail: Bytes)
    requires o.Normalized() && Lossless(c) && Legal(o, c, h) && (forall q <- qs :: CleanRequest(q))
             && (shared || |qs| <= 1)
    ensures GroupInv(o, c, h, shared, Steps(o, c, plan, shared, Fold(o, h), qs), tail)
    ensures |Steps(o, c, plan, shared, Fold(o, h), qs).replies| == |qs|
    decreases |qs|
  {
    StepsKeepStaged(o, c, plan, shared, Fold(o, h), qs);
    if qs == [] {
      tail := [];
      assert h + [] == h;
      NothingStaged(o, c, h, shared);
    } else {
      var front, q := qs[..|qs| - 1], qs[|qs| - 1];
      assert (forall x <- front :: x in qs) && q in qs;
      tail := StepsKeepGroup(o, c, plan, h, shared, front);
      tail := StepKeepsGroup(o, c, plan, h, shared, Steps(o, c, plan, shared, Fold(o, h), front), q, tail);
    }
  }

  lemma NothingStaged(o: Options, c: Codec, h: seq<Record>, shared: bool)
    requires o.Normalized() && Legal(o, c, h)
    ensures StagedCovers(h, shared, Start(Fold(o, h)))
  {
    forall id <- Fold(o, h).dedupe ensures Fold(o, h).dedupe[id].sequence <= |h| {
      RetainedFromHistory(o, c, h, id);
    }
  }

  // What a whole group leaves behind: whole frames of a legal continuation and perhaps a torn
  // tail; every decision it hands out is in the history, and after a storage failure every such
  // decision is from before the group.
  lemma CommitKeepsGroup(o: Options, c: Codec, plan: Plan, h: seq<Record>, qs: seq<Request>)
      returns (g: Group, tail: Bytes)
    requires o.Normalized() && Lossless(c) && Legal(o, c, h) && forall q <- qs :: CleanRequest(q)
    ensures g == Commit(o, c, plan, Fold(o, h), qs)
    ensures Legal(o, c, h + g.appended) && AllEncodable(c, g.appended)
    ensures g.log == Frames(c, g.appended) + tail && Torn(c, tail)
    ensures !g.failed ==> tail == [] && g.state == Fold(o, h + g.appended)
    ensures |g.replies| == |qs|
    ensures forall i | 0 <= i < |qs| && g.replies[i].Decided? ::
              Backed(h + g.appended, if g.failed then |h| else |h| + |g.appended|, g.replies[i].decision)
  {
    var shared := |qs| > 1;
    tail := StepsKeepGroup(o, c, plan, h, shared, qs);
    var before := Steps(o, c, plan, shared, Fold(o, h), qs);
    g := Finish(plan, before);
    forall i | 0 <= i < |qs| && g.replies[i].Decided?
      ensures Backed(h + g.appended, if g.failed then |h| else |h| + |g.appended|, g.replies[i].decision)
    {
      assert before.replies[i] == g.replies[i];
      assert ReplyOk(h, before, i);
    }
  }

  // ------------------------------------------------------------------- the invariant

  // Where the files stand in the history: each snapshot is after `bases[i]` records, each log
  // holds `spans[j]`, the current one ends in `tail`, and of the current one everything before
  // record `sure` is synced.
  datatype Layout = Layout(bases: seq<nat>, spans: seq<Span>, tail: Bytes, sure: nat)

  ghost predicate SnapsOk(o: Options, c: Codec, h: seq<Record>, snaps: seq<Option<Snapshot>>, bases: seq<nat>)
  {
    && |snaps| == |bases| > 0
    && forall i | 0 <= i < |snaps| :: SnapshotAt(o, c, snaps[i], h, bases[i]) && bases[0] <= bases[i]
  }

  // A log starts no later than any snapshot, and a broken one is covered up to where it resumes.
  ghost predicate LogOk(c: Codec, h: seq<Record>, log: Log, s: Span, tail: Bytes, base: nat)
  {
    && LogAt(c, log.bytes, h, s, tail) && s.from <= base && (s.Broken() ==> s.resume <= base)
    && |Frames(c, h[s.from..s.until])| <= log.synced <= |log.bytes|
  }

  // Logs a crash may bring back hold nothing that a snapshot does not cover.
  ghost predicate OldLogsOk(c: Codec, h: seq<Record>, logs: seq<Log>, spans: seq<Span>, base: nat)
  {
    && |logs| == |spans|
    && forall j | 0 <= j < |logs| :: LogOk(c, h, logs[j], spans[j], [], base) && spans[j].end <= base
  }

  function SyncedTo(c: Codec, h: seq<Record>, s: Span, sure: nat): nat
    requires s.Within(|h|) && s.resume <= sure <= s.end
  {
    |Frames(c, h[s.from..s.until])| + |Frames(c, h[s.resume..sure])|
  }

  ghost predicate SureOk(c: Codec, h: seq<Record>, log: Log, s: Span, sure: nat)
    requires s.Within(|h|)
  {
    s.resume <= sure <= s.end && (log.synced == SyncedTo(c, h, s, sure) || (sure == s.end && log.synced == |log.bytes|))
  }

  ghost predicate DiskOk(o: Options, c: Codec, h: seq<Record>, d: Disk, l: Layout)
  {
    && SnapsOk(o, c, h, d.snaps, l.bases)
    && |d.logs| == |l.spans| > 0 && OldLogsOk(c, h, Front(d.logs), Front(l.spans), l.bases[0])
    && LogOk(c, h, Last(d.logs), Last(l.spans), l.tail, l.bases[0])
    && SureOk(c, h, Last(d.logs), Last(l.spans), l.sure)
    && (|d.logs| > 1 ==> l.sure == Last(l.spans).resume)
    && |h| == Max(Last(l.spans).end, Last(l.bases))
    && (Last(l.spans).end < |h| ==> l.bases[0] == |h| && l.sure == Last(l.spans).end)
  }

  ghost predicate Invariant(o: Options, c: Codec, y: Sys, l: Layout)
  {
    && Legal(o, c, y.history) && DiskOk(o, c, y.history, y.disk, l) && y.acked == Max(l.sure, l.bases[0])
    && (!y.poisoned ==> y.state == Fold(o, y.history) && l.tail == [] && Last(l.spans).end == |y.history|)
  }

  const START := Layout([0], [Span(0, 0, 0, 0)], [], 0)

  lemma FreshInvariant(o: Options, c: Codec)
    ensures Invariant(o, c, FRESH, START)
  {
    var h: seq<Record> := [];
    assert h[0..0] == [];
  }

  // ----------------------------------------------------------------- groups keep it

  lemma SliceLonger<T>(h: seq<T>, more: seq<T>, i: nat, j: nat)
    requires i <= j <= |h|
    ensures (h + more)[i..j] == h[i..j]
  {}

  lemma SnapshotAtLonger(o: Options, c: Codec, snap: Option<Snapshot>, h: seq<Record>, b: nat, more: seq<Record>)
    requires SnapshotAt(o, c, snap, h, b)
    ensures SnapshotAt(o, c, snap, h + more, b)
  {
    assert (h + more)[..b] == h[..b];
  }

  lemma SnapsLonger(o: Options, c: Codec, h: seq<Record>, more: seq<Record>, snaps: seq<Option<Snapshot>>,
      bases: seq<nat>)
    requires SnapsOk(o, c, h, snaps, bases)
    ensures SnapsOk(o, c, h + more, snaps, bases)
  {
    forall i | 0 <= i < |snaps| ensures SnapshotAt(o, c, snaps[i], h + more, bases[i]) {
      SnapshotAtLonger(o, c, snaps[i], h, bases[i], more);
    }
  }

  lemma LogLonger(c: Codec, h: seq<Record>, more: seq<Record>, log: Log, s: Span, tail: Bytes, base: nat)
    requires LogOk(c, h, log, s, tail, base)
    ensures LogOk(c, h + more, log, s, tail, base)
  {
    SliceLonger(h, more, s.from, s.until);
    SliceLonger(h, more, s.resume, s.end);
  }

  lemma OldLogsLonger(c: Codec, h: seq<Record>, more: seq<Record>, logs: seq<Log>, spans: seq<Span>, base: nat)
    requires OldLogsOk(c, h, logs, spans, base)
    ensures OldLogsOk(c, h + more, logs, spans, base)
  {
    forall j | 0 <= j < |logs| ensures LogOk(c, h + more, logs[j], spans[j], [], base) {
      LogLonger(c, h, more, logs[j], spans[j], [], base);
    }
  }

  // More frames at the end of the current log.
  lemma LogGrows(c: Codec, h: seq<Record>, more: seq<Record>, wal: Bytes, s: Span, tail: Bytes, h': seq<Record>,
      s': Span)
    requires LogAt(c, wal, h, s, []) && s.end == |h| && AllEncodable(c, more) && Torn(c, tail)
    requires h' == h + more && s' == s.(end := |h'|)
    ensures LogAt(c, wal + (Frames(c, more) + tail), h', s', tail)
    ensures Frames(c, h'[s'.from..s'.until]) == Frames(c, h[s.from..s.until])
    ensures forall k | s.resume <= k <= s.end :: SyncedTo(c, h', s', k) == SyncedTo(c, h, s, k)
    ensures SyncedTo(c, h', s', s'.end) == |wal + Frames(c, more)|
  {
    SliceLonger(h, more, s.from, s.until);
    forall k | s.resume <= k <= s.end ensures SyncedTo(c, h', s', k)
        == SyncedTo(c, h, s, k) { SliceLonger(h, more, s.resume, k); }
    var one, two := Frames(c, h[s.from..s.until]), Frames(c, h[s.resume..s.end]);
    assert h'[s.resume..s'.end] == h[s.resume..s.end] + more;
    FramesAppend(c, h[s.resume..s.end], more);
    Regroup(one, two, Frames(c, more), tail);
  }

  lemma Regroup(a: Bytes, b: Bytes, m: Bytes, t: Bytes)
    ensures a + b + [] == a + b && a + b + (m + t) == a + (b + m) + t && |a + b + m| == |a| + |b + m|
  {}

  lemma ReplacedLast<T>(s: seq<T>, x: T)
    requires s != []
    ensures |Front(s) + [x]| == |s| && Front(Front(s) + [x]) == Front(s) && Last(Front(s) + [x]) == x
  {}

  lemma FailedState(y: Sys, g: Group) returns (y': Sys, log: Log)
    requires Present(y) && g.failed
    ensures y' == AfterCommit(y, g) && y'.history == y.history + g.appended && y'.poisoned && y'.acked == y.acked
    ensures y'.disk.snaps == y.disk.snaps && log == Log(Last(y.disk.logs).bytes + g.log, Last(y.disk.logs).synced)
    ensures |y'.disk.logs| == |y.disk.logs| && Front(y'.disk.logs) == Front(y.disk.logs) && Last(y'.disk.logs) == log
  {
    log := Log(Last(y.disk.logs).bytes + g.log, Last(y.disk.logs).synced);
    ReplacedLast(y.disk.logs, log);
    y' := AfterCommit(y, g);
  }

  // The current log has grown without a sync.
  lemma GrownDisk(o: Options, c: Codec, h: seq<Record>, more: seq<Record>, d: Disk, l: Layout, tail: Bytes, d': Disk,
      l': Layout)
    requires DiskOk(o, c, h, d, l) && l.tail == [] && Last(l.spans).end == |h| && AllEncodable(c, more) && Torn(c, tail)
    requires d'.snaps == d.snaps && |d'.logs| == |d.logs| && Front(d'.logs) == Front(d.logs)
    requires Last(d'.logs) == Log(Last(d.logs).bytes + (Frames(c, more) + tail), Last(d.logs).synced)
    requires l'.bases == l.bases && |l'.spans| == |l.spans| && Front(l'.spans) == Front(l.spans) && l'.tail == tail
             && l'.sure == l.sure
    requires Last(l'.spans) == Last(l.spans).(end := |h + more|)
    ensures DiskOk(o, c, h + more, d', l')
  {
    LogGrows(c, h, more, Last(d.logs).bytes, Last(l.spans), tail, h + more, Last(l'.spans));
    SnapsLonger(o, c, h, more, d.snaps, l.bases);
    OldLogsLonger(c, h, more, Front(d.logs), Front(l.spans), l.bases[0]);
  }

  lemma FailedKeeps(o: Options, c: Codec, y: Sys, l: Layout, g: Group, tail: Bytes) returns (l': Layout)
    requires Invariant(o, c, y, l) && !y.poisoned && g.failed && Legal(o, c, y.history + g.appended)
    requires AllEncodable(c, g.appended) && g.log == Frames(c, g.appended) + tail && Torn(c, tail)
    ensures Invariant(o, c, AfterCommit(y, g), l')
  {
    var s' := Last(l.spans).(end := |y.history + g.appended|);
    l' := l.(spans := Front(l.spans) + [s'], tail := tail);
    ReplacedLast(l.spans, s');
    var y', log := FailedState(y, g);
    GrownDisk(o, c, y.history, g.appended, y.disk, l, tail, y'.disk, l');
  }

  // The current log has grown and is the only one left.
  lemma SyncedDisk(o: Options, c: Codec, h: seq<Record>, more: seq<Record>, d: Disk, l: Layout, d': Disk, l': Layout)
    requires DiskOk(o, c, h, d, l) && l.tail == [] && Last(l.spans).end == |h| && AllEncodable(c, more)
    requires d'.snaps == d.snaps && l'.bases == l.bases && l'.tail == [] && l'.sure == |h + more|
    requires |d'.logs| == 1 && d'.logs[0].bytes == Last(d.logs).bytes + Frames(c, more)
             && d'.logs[0].synced == |d'.logs[0].bytes|
    requires |l'.spans| == 1 && l'.spans[0] == Last(l.spans).(end := |h + more|)
    ensures DiskOk(o, c, h + more, d', l')
  {
    assert Torn(c, []) && Frames(c, more) + [] == Frames(c, more);
    LogGrows(c, h, more, Last(d.logs).bytes, Last(l.spans), [], h + more, l'.spans[0]);
    SnapsLonger(o, c, h, more, d.snaps, l.bases);
  }

  lemma SyncedState(y: Sys, g: Group) returns (y': Sys)
    requires Present(y) && !g.failed && g.appended != []
    ensures y' == AfterCommit(y, g) && y'.history == y.history + g.appended && y'.acked == |y'.history|
    ensures y'.state == g.state && y'.disk.snaps == y.disk.snaps
    ensures |y'.disk.logs| == 1 && y'.disk.logs[0].bytes == Last(y.disk.logs).bytes + g.log
    ensures y'.disk.logs[0].synced == |y'.disk.logs[0].bytes|
  {
    y' := AfterCommit(y, g);
  }

  lemma SyncedKeepsAt(o: Options, c: Codec, y: Sys, l: Layout, g: Group) returns (y': Sys, l': Layout)
    requires Invariant(o, c, y, l) && !y.poisoned && !g.failed && g.appended != []
             && Legal(o, c, y.history + g.appended)
    requires AllEncodable(c, g.appended) && g.log == Frames(c, g.appended) && g.state == Fold(o, y.history + g.appended)
    ensures y' == AfterCommit(y, g) && y'.history == y.history + g.appended && Invariant(o, c, y', l')
    ensures l'.bases == l.bases && l'.spans == [Last(l.spans).(end := |y'.history|)]
  {
    var n := |y.history + g.appended|;
    l' := Layout(l.bases, [Last(l.spans).(end := n)], [], n);
    y' := SyncedState(y, g);
    SyncedDisk(o, c, y.history, g.appended, y.disk, l, y'.disk, l');
  }

  lemma GroupKeepsInvariant(o: Options, c: Codec, y: Sys, l: Layout, plan: Plan, qs: seq<Request>) returns (l': Layout)
    requires o.Normalized() && Lossless(c) && Invariant(o, c, y, l) && !y.poisoned && forall q <- qs :: CleanRequest(q)
    ensures Present(y) && Invariant(o, c, AfterGroup(o, c, y, plan, qs), l')
  {
    var g, tail := CommitKeepsGroup(o, c, plan, y.history, qs);
    if g.failed {
      l' := FailedKeeps(o, c, y, l, g, tail);
    } else if g.appended == [] {
      l' := l;
    } else {
      assert Frames(c, g.appended) + [] == Frames(c, g.appended);
      var y';
      y', l' := SyncedKeepsAt(o, c, y, l, g);
    }
  }

  // -------------------------------------------------------------- snapshots keep it

  lemma SnapshotNow(o: Options, c: Codec, h: seq<Record>)
    requires o.Normalized() && Legal(o, c, h)
    ensures StateOk(o, c, Fold(o, h)) && forall id <- Fold(o, h).dedupeIDs :: id in Fold(o, h).dedupe
    ensures SnapshotAt(o, c, Some(SnapshotOf(Fold(o, h))), h, |h|)
  {
    LegalState(o, c, h);
    SnapshotRoundTrip(o, c, Fold(o, h));
    assert h[..|h|] == h;
  }

  lemma OldLogsCovered(c: Codec, h: seq<Record>, logs: seq<Log>, spans: seq<Span>, base: nat, base': nat)
    requires OldLogsOk(c, h, logs, spans, base) && base <= base'
    ensures OldLogsOk(c, h, logs, spans, base')
  {
    forall j | 0 <= j < |logs| ensures LogOk(c, h, logs[j], spans[j], [], base') && spans[j].end <= base' {
      assert LogOk(c, h, logs[j], spans[j], [], base);
    }
  }

  // All logs, the current one too, are covered by a snapshot of the whole history.
  lemma AllLogsCovered(o: Options, c: Codec, h: seq<Record>, d: Disk, l: Layout)
    requires DiskOk(o, c, h, d, l) && l.tail == []
    ensures OldLogsOk(c, h, d.logs, l.spans, |h|)
  {
    OldLogsCovered(c, h, Front(d.logs), Front(l.spans), l.bases[0], |h|);
    forall j | 0 <= j < |d.logs| ensures LogOk(c, h, d.logs[j], l.spans[j], [], |h|) && l.spans[j].end <= |h| {
      if j < |d.logs| - 1 {
        assert d.logs[j] == Front(d.logs)[j] && l.spans[j] == Front(l.spans)[j];
      } else {
        assert LogOk(c, h, Last(d.logs), Last(l.spans), l.tail, l.bases[0]);
      }
    }
  }

  lemma RenamedDisk(o: Options, c: Codec, h: seq<Record>, d: Disk, l: Layout, snap: Option<Snapshot>, d': Disk,
      l': Layout)
    requires DiskOk(o, c, h, d, l) && SnapshotAt(o, c, snap, h, |h|) && Last(l.spans).end == |h|
    requires d'.snaps == d.snaps + [snap] && d'.logs == d.logs
    requires l'.bases == l.bases + [|h|] && l'.spans == l.spans && l'.tail == l.tail && l'.sure == l.sure
    ensures DiskOk(o, c, h, d', l') && l'.bases[0] == l.bases[0]
  {
    forall i | 0 <= i < |d'.snaps| ensures SnapshotAt(o, c, d'.snaps[i], h, l'.bases[i]) && l'.bases[0] <= l'.bases[i] {
      if i < |d.snaps| { assert SnapshotAt(o, c, d.snaps[i], h, l.bases[i]); }
    }
  }

  lemma CoveredDisk(o: Options, c: Codec, h: seq<Record>, d: Disk, l: Layout, snap: Option<Snapshot>, d': Disk,
      l': Layout)
    requires DiskOk(o, c, h, d, l) && SnapshotAt(o, c, snap, h, |h|) && Last(l.spans).end == |h|
    requires d'.snaps == [snap] && d'.logs == d.logs
    requires l'.bases == [|h|] && l'.spans == l.spans && l'.tail == l.tail && l'.sure == l.sure
    ensures DiskOk(o, c, h, d', l')
  {
    OldLogsCovered(c, h, Front(d.logs), Front(l.spans), l.bases[0], |h|);
    assert SnapsOk(o, c, h, d'.snaps, l'.bases);
  }

  lemma EmptyLogAt(c: Codec, h: seq<Record>, s: Span)
    requires s == Span(|h|, |h|, |h|, |h|)
    ensures LogOk(c, h, Log([], 0), s, [], |h|) && SureOk(c, h, Log([], 0), s, |h|)
  {
    assert h[|h|..|h|] == [];
  }

  // The log was truncated; a crash may still bring the earlier ones back.
  lemma TruncatedDisk(o: Options, c: Codec, h: seq<Record>, snap: Option<Snapshot>, olds: seq<Log>, spans: seq<Span>,
      d': Disk, l': Layout)
    requires SnapshotAt(o, c, snap, h, |h|) && OldLogsOk(c, h, olds, spans, |h|)
    requires d'.snaps == [snap] && d'.logs == olds + [Log([], 0)]
    requires l'.bases == [|h|] && l'.spans == spans + [Span(|h|, |h|, |h|, |h|)] && l'.tail == [] && l'.sure == |h|
    ensures DiskOk(o, c, h, d', l')
  {
    assert Front(d'.logs) == olds && Front(l'.spans) == spans;
    EmptyLogAt(c, h, Last(l'.spans));
    assert SnapsOk(o, c, h, d'.snaps, l'.bases);
  }

  lemma SnapshotKeepsInvariant(o: Options, c: Codec, y: Sys, l: Layout, n: nat) returns (l': Layout)
    requires o.Normalized() && Invariant(o, c, y, l) && !y.poisoned
    ensures Present(y) && (forall id <- y.state.dedupeIDs :: id in y.state.dedupe)
            && Invariant(o, c, AfterSnapshot(y, n), l')
  {
    var h := y.history;
    SnapshotNow(o, c, h);
    var y', snap := AfterSnapshot(y, n), Some(SnapshotOf(y.state));
    if n == 0 {
      l' := l;
    } else if n == 1 {
      l' := l.(bases := l.bases + [|h|]);
      RenamedDisk(o, c, h, y.disk, l, snap, y'.disk, l');
    } else if n == 2 {
      l' := l.(bases := [|h|]);
      CoveredDisk(o, c, h, y.disk, l, snap, y'.disk, l');
    } else if n == 3 {
      l' := Layout([|h|], l.spans + [Span(|h|, |h|, |h|, |h|)], [], |h|);
      AllLogsCovered(o, c, h, y.disk, l);
      TruncatedDisk(o, c, h, snap, y.disk.logs, l.spans, y'.disk, l');
    } else {
      l' := Layout([|h|], [] + [Span(|h|, |h|, |h|, |h|)], [], |h|);
      assert y'.disk.logs == [] + [Log([], 0)];
      TruncatedDisk(o, c, h, snap, [], [], y'.disk, l');
    }
  }

  // ------------------------------------------------------------------ crashes keep it

  lemma SliceOfSlice<T>(h: seq<T>, i: nat, j: nat, k: nat)
    requires i <= k <= j <= |h|
    ensures h[i..j][..k - i] == h[i..k] && forall x <- h[i..k] :: x in h[i..j]
  {
    assert h[i..j] == h[i..k] + h[k..j];
  }

  // Cutting a log behind what is synced of it.
  lemma CutLog(c: Codec, h: seq<Record>, wal: Bytes, s: Span, tail: Bytes, sure: nat, cut: nat)
      returns (m: nat, tail': Bytes)
    requires LogAt(c, wal, h, s, tail) && s.resume <= sure <= s.end && SyncedTo(c, h, s, sure) <= cut <= |wal|
    ensures sure <= m <= s.end && LogAt(c, wal[..cut], h, s.(end := m), tail')
  {
    var one, rs := Frames(c, h[s.from..s.until]), h[s.resume..s.end];
    SliceOfSlice(h, s.resume, s.end, sure);
    var j: nat;
    j, tail' := CutFrames(c, rs, tail, cut - |one|, sure - s.resume);
    m := s.resume + j;
    SliceOfSlice(h, s.resume, s.end, m);
    ConcatAssoc(one, Frames(c, rs), tail);
    TakeConcat(one, Frames(c, rs) + tail, cut);
    ConcatAssoc(one, Frames(c, h[s.resume..m]), tail');
  }

  lemma SureIsSynced(c: Codec, h: seq<Record>, log: Log, s: Span, tail: Bytes, sure: nat)
    requires LogAt(c, log.bytes, h, s, tail) && SureOk(c, h, log, s, sure)
    ensures SyncedTo(c, h, s, sure) <= log.synced
  {}

  lemma LastOfSpan(o: Options, c: Codec, h: seq<Record>, wal: Bytes, s: Span, tail: Bytes)
    requires o.Normalized() && Legal(o, c, h) && LogAt(c, wal, h, s, tail)
    ensures LastSequence(c, wal) == if s.resume < s.end then s.end else if s.Broken() then s.until else 0
  {
    var one, two := Frames(c, h[s.from..s.until]), Frames(c, h[s.resume..s.end]);
    ConcatAssoc(one, two, tail);
    LastTorn(c, tail);
    LastOfFrames(o, c, h, s.resume, s.end, tail);
    LastOfFrames(o, c, h, s.from, s.until, two + tail);
  }

  lemma SequenceOfSnapshot(o: Options, c: Codec, h: seq<Record>, snap: Option<Snapshot>, base: nat)
    requires o.Normalized() && Legal(o, c, h) && SnapshotAt(o, c, snap, h, base)
    ensures SequenceOf(snap) == base
  {
    LegalPrefix(o, c, h, base);
    LegalState(o, c, h[..base]);
  }

  // A snapshot and a log that lie in one history and reach its record n.
  ghost predicate ImageAt(o: Options, c: Codec, h: seq<Record>, snap: Option<Snapshot>, base: nat, wal: Bytes, s: Span,
      tail: Bytes, n: nat)
  {
    && SnapshotAt(o, c, snap, h, base) && LogAt(c, wal, h, s, tail)
    && s.from <= base && (s.Broken() ==> s.resume <= base) && n == Max(s.end, base)
  }

  lemma ReachedIsLast(o: Options, c: Codec, h: seq<Record>, snap: Option<Snapshot>, base: nat, wal: Bytes, s: Span,
      tail: Bytes, n: nat)
    requires o.Normalized() && Legal(o, c, h) && ImageAt(o, c, h, snap, base, wal, s, tail, n)
    ensures n == Max(LastSequence(c, wal), SequenceOf(snap)) && n <= |h|
  {
    LastOfSpan(o, c, h, wal, s, tail);
    SequenceOfSnapshot(o, c, h, snap, base);
  }

  lemma CutSurvivor(c: Codec, h: seq<Record>, log: Log, at: Span, tail: Bytes, sure: nat, cut: nat)
      returns (s: Span, tail': Bytes)
    requires LogAt(c, log.bytes, h, at, tail) && at.resume <= sure <= at.end
             && SyncedTo(c, h, at, sure) <= log.synced <= |log.bytes|
    ensures LogAt(c, Survives(log, cut), h, s, tail') && sure <= s.end <= at.end && s == at.(end := s.end)
  {
    var k := if log.synced <= cut <= |log.bytes| then cut else |log.bytes|;
    assert log.bytes[..|log.bytes|] == log.bytes;
    var m: nat;
    m, tail' := CutLog(c, h, log.bytes, at, tail, sure, k);
    s := at.(end := m);
  }

  lemma CutCurrent(o: Options, c: Codec, h: seq<Record>, d: Disk, l: Layout, i: nat, cut: nat)
      returns (s: Span, tail: Bytes, n: nat)
    requires DiskOk(o, c, h, d, l) && i < |d.snaps|
    ensures ImageAt(o, c, h, d.snaps[i], l.bases[i], Survives(Last(d.logs), cut), s, tail, n)
            && Max(l.sure, l.bases[0]) <= n
  {
    SureIsSynced(c, h, Last(d.logs), Last(l.spans), l.tail, l.sure);
    s, tail := CutSurvivor(c, h, Last(d.logs), Last(l.spans), l.tail, l.sure, cut);
    n := Max(s.end, l.bases[i]);
  }

  lemma CutOldLog(c: Codec, h: seq<Record>, log: Log, at: Span, base: nat, cut: nat) returns (s: Span, tail: Bytes)
    requires LogOk(c, h, log, at, [], base)
    ensures LogAt(c, Survives(log, cut), h, s, tail) && s.end <= at.end && s == at.(end := s.end)
  {
    assert h[at.resume..at.resume] == [];
    s, tail := CutSurvivor(c, h, log, at, [], at.resume, cut);
  }

  lemma CutOld(o: Options, c: Codec, h: seq<Record>, d: Disk, l: Layout, i: nat, j: nat, cut: nat)
      returns (s: Span, tail: Bytes, n: nat)
    requires DiskOk(o, c, h, d, l) && i < |d.snaps| && j < |d.logs| - 1
    ensures ImageAt(o, c, h, d.snaps[i], l.bases[i], Survives(d.logs[j], cut), s, tail, n)
            && Max(l.sure, l.bases[0]) <= n
  {
    assert LogOk(c, h, Front(d.logs)[j], Front(l.spans)[j], [], l.bases[0]);
    s, tail := CutOldLog(c, h, Front(d.logs)[j], Front(l.spans)[j], l.bases[0], cut);
    n := Max(s.end, l.bases[i]);
  }

  // Whatever a crash leaves lies in the history and reaches every durable record.
  lemma CrashImage(o: Options, c: Codec, h: seq<Record>, d: Disk, l: Layout, i: nat, j: nat, cut: nat)
      returns (s: Span, tail: Bytes, n: nat)
    requires DiskOk(o, c, h, d, l) && i < |d.snaps| && j < |d.logs|
    ensures ImageAt(o, c, h, d.snaps[i], l.bases[i], Survives(d.logs[j], cut), s, tail, n)
            && Max(l.sure, l.bases[0]) <= n
  {
    if j < |d.logs| - 1 {
      s, tail, n := CutOld(o, c, h, d, l, i, j, cut);
    } else {
      s, tail, n := CutCurrent(o, c, h, d, l, i, cut);
    }
  }

  lemma ImagePrefix(o: Options, c: Codec, h: seq<Record>, snap: Option<Snapshot>, base: nat, wal: Bytes, s: Span,
      tail: Bytes, n: nat)
    requires n <= |h| && ImageAt(o, c, h, snap, base, wal, s, tail, n)
    ensures ImageAt(o, c, h[..n], snap, base, wal, s, tail, n)
  {
    assert h[..n][..base] == h[..base] && h[..n][s.from..s.until] == h[s.from..s.until]
        && h[..n][s.resume..s.end] == h[s.resume..s.end];
  }

  // What is on disk after a crash is durable as it is.
  lemma CrashedDisk(o: Options, c: Codec, h: seq<Record>, snap: Option<Snapshot>, base: nat, wal: Bytes, s: Span,
      tail: Bytes, d: Disk, l: Layout)
    requires ImageAt(o, c, h, snap, base, wal, s, tail, |h|)
    requires d.snaps == [snap] && d.logs == [Log(wal, |wal|)] && l == Layout([base], [s], tail, s.end)
    ensures DiskOk(o, c, h, d, l) && Max(l.sure, l.bases[0]) == |h|
  {
    assert SnapsOk(o, c, h, d.snaps, l.bases);
    assert Front(d.logs) == [] && Front(l.spans) == [];
  }

  lemma CrashKeepsInvariant(o: Options, c: Codec, y: Sys, l: Layout, i: nat, j: nat, cut: nat)
      returns (y': Sys, l': Layout, n: nat)
    requires o.Normalized() && Invariant(o, c, y, l) && i < |y.disk.snaps| && j < |y.disk.logs|
    ensures y' == AfterCrash(c, y, y.disk.snaps[i], Survives(y.disk.logs[j], cut)) && Invariant(o, c, y', l')
    ensures y.acked <= n <= |y.history| && y'.history == y.history[..n] && y'.acked == n
  {
    var h, snap, wal := y.history, y.disk.snaps[i], Survives(y.disk.logs[j], cut);
    var s, tail;
    s, tail, n := CrashImage(o, c, h, y.disk, l, i, j, cut);
    ReachedIsLast(o, c, h, snap, l.bases[i], wal, s, tail, n);
    ImagePrefix(o, c, h, snap, l.bases[i], wal, s, tail, n);
    LegalPrefix(o, c, h, n);
    y', l' := AfterCrash(c, y, snap, wal), Layout([l.bases[i]], [s], tail, s.end);
    CrashedDisk(o, c, h[..n], snap, l.bases[i], wal, s, tail, y'.disk, l');
  }

  // ---------------------------------------------------------------- reopening keeps it

  // Where the current log stands once the store is open: behind a snapshot that covers more than
  // the log holds, the next frame leaves records out.
  function OpenSpan(s: Span, n: nat): Span
    requires s.Within(n)
  {
    if s.end == n then s
    else if s.Broken() then Span(s.from, s.until, n, n)
    else if s.from < s.end then Span(s.from, s.end, n, n)
    else Span(n, n, n, n)
  }

  lemma OpenSpanSame(c: Codec, h: seq<Record>, wal: Bytes, s: Span)
    requires LogAt(c, wal, h, s, []) && (s.Broken() ==> s.resume == s.end) && (s.end < |h| ==> s.from <= s.end)
    ensures LogAt(c, wal, h, OpenSpan(s, |h|), [])
    ensures s.end < |h| ==>
              |wal| == SyncedTo(c, h, OpenSpan(s, |h|), |h|)
              == |Frames(c, h[OpenSpan(s, |h|).from..OpenSpan(s, |h|).until])|
  {
    var n := |h|;
    assert h[n..n] == [] && h[s.end..s.end] == [];
    if s.end < n {
      if s.Broken() || s.from == s.end {
        assert Frames(c, h[s.resume..s.end]) == [];
      } else {
        assert h[s.from..s.until] == [];
      }
    }
  }

  lemma ReopenFinds(o: Options, c: Codec, y: Sys, l: Layout)
    requires o.Normalized() && Invariant(o, c, y, l)
    ensures Recover(o, c, Last(y.disk.snaps), Last(y.disk.logs).bytes)
            == Opened(o, c, y.history, Last(l.bases), Last(l.spans))
    ensures y.history[..Max(Last(l.spans).end, Last(l.bases))] == y.history
  {
    assert SnapshotAt(o, c, Last(y.disk.snaps), y.history, Last(l.bases));
    RecoverImage(o, c, Last(y.disk.snaps), y.history, Last(l.bases), Last(y.disk.logs).bytes, Last(l.spans), l.tail);
  }

  lemma AloneDisk(o: Options, c: Codec, h: seq<Record>, d: Disk, l: Layout)
    requires SnapsOk(o, c, h, d.snaps, l.bases) && |d.logs| == |l.spans| == 1
             && LogOk(c, h, d.logs[0], l.spans[0], l.tail, l.bases[0])
    requires SureOk(c, h, d.logs[0], l.spans[0], l.sure) && l.spans[0].end == |h| && Last(l.bases) <= |h|
    ensures DiskOk(o, c, h, d, l)
  {
    assert Front(d.logs) == [] && Front(l.spans) == [];
  }

  lemma CutOffLog(c: Codec, h: seq<Record>, s: Span, base: nat, wal: Bytes)
    requires s.from <= base && (s.Broken() ==> s.resume <= base) && LogAt(c, wal, h, s, [])
             && (s.Broken() ==> s.resume == s.end) && (s.end < |h| ==> base == |h|)
    ensures LogOk(c, h, Log(wal, |wal|), OpenSpan(s, |h|), [], base)
            && SureOk(c, h, Log(wal, |wal|), OpenSpan(s, |h|), |h|)
  {
    OpenSpanSame(c, h, wal, s);
  }

  // Only the current log, with its torn tail cut off and everything synced.
  lemma CutOffDisk(o: Options, c: Codec, h: seq<Record>, d: Disk, l: Layout, s: Span, d': Disk, l': Layout)
    requires DiskOk(o, c, h, d, l) && s == Last(l.spans) && (s.Broken() ==> s.resume == s.end)
    requires d'.snaps == d.snaps && d'.logs == [Log(SpanBytes(c, h, s), |SpanBytes(c, h, s)|)]
    requires l' == Layout(l.bases, [OpenSpan(s, |h|)], [], |h|)
    ensures DiskOk(o, c, h, d', l') && Max(l'.sure, l'.bases[0]) == |h|
  {
    var wal := SpanBytes(c, h, s);
    assert wal + [] == wal && Torn(c, []);
    CutOffLog(c, h, s, l.bases[0], wal);
    AloneDisk(o, c, h, d', l');
  }

  // The files as they are.
  lemma KeptDisk(o: Options, c: Codec, h: seq<Record>, d: Disk, l: Layout, s: Span, l': Layout)
    requires DiskOk(o, c, h, d, l) && l.tail == [] && s == Last(l.spans) && (s.Broken() ==> s.resume == s.end)
             && s.end < |h|
    requires l'.bases == l.bases && l'.tail == [] && l'.sure == |h|
    requires |l'.spans| == |l.spans| && Front(l'.spans) == Front(l.spans) && Last(l'.spans) == OpenSpan(s, |h|)
    ensures DiskOk(o, c, h, d, l') && Max(l'.sure, l'.bases[0]) == |h|
  {
    OpenSpanSame(c, h, Last(d.logs).bytes, s);
    assert LogAt(c, Last(d.logs).bytes, h, s, []) && Last(d.logs).synced == |Last(d.logs).bytes|;
  }

  lemma OpenedWhole(o: Options, c: Codec, h: seq<Record>, base: nat, s: Span)
    requires s.Within(|h|) && base <= |h| && Opened(o, c, h, base, s).Replayed?
    ensures s.Broken() ==> s.resume == s.end
    ensures Opened(o, c, h, base, s) == Replayed(Fold(o, h[..Max(s.end, base)]), |SpanBytes(c, h, s)|)
  {}

  lemma ReopenCutsTail(o: Options, c: Codec, y: Sys, l: Layout) returns (l': Layout)
    requires o.Normalized() && Invariant(o, c, y, l) && l.tail != []
    requires Opened(o, c, y.history, Last(l.bases), Last(l.spans)).Replayed?
    ensures Present(y) && Invariant(o, c, AfterReopen(o, c, y), l') && AfterReopen(o, c, y).acked == |y.history|
  {
    var h, s, wal := y.history, Last(l.spans), Last(y.disk.logs).bytes;
    ReopenFinds(o, c, y, l);
    OpenedWhole(o, c, h, Last(l.bases), s);
    var kept, y' := SpanBytes(c, h, s), AfterReopen(o, c, y);
    assert wal[..|kept|] == kept;
    l' := Layout(l.bases, [OpenSpan(s, |h|)], [], |h|);
    CutOffDisk(o, c, h, y.disk, l, s, y'.disk, l');
  }

  lemma ReopenKeepsFiles(o: Options, c: Codec, y: Sys, l: Layout) returns (l': Layout)
    requires o.Normalized() && Invariant(o, c, y, l) && l.tail == []
    requires Opened(o, c, y.history, Last(l.bases), Last(l.spans)).Replayed?
    ensures Present(y) && AfterReopen(o, c, y) == y.(state := Fold(o, y.history), poisoned := false)
    ensures Invariant(o, c, AfterReopen(o, c, y), l')
  {
    var h, s, wal := y.history, Last(l.spans), Last(y.disk.logs).bytes;
    ReopenFinds(o, c, y, l);
    OpenedWhole(o, c, h, Last(l.bases), s);
    assert SpanBytes(c, h, s) + [] == SpanBytes(c, h, s);
    if s.end == |h| {
      l' := l;
    } else {
      l' := Layout(l.bases, Front(l.spans) + [OpenSpan(s, |h|)], [], |h|);
      ReplacedLast(l.spans, OpenSpan(s, |h|));
      KeptDisk(o, c, h, y.disk, l, s, l');
    }
  }

  lemma ReopenKeepsInvariant(o: Options, c: Codec, y: Sys, l: Layout) returns (l': Layout)
    requires o.Normalized() && Invariant(o, c, y, l)
    ensures Present(y) && Invariant(o, c, AfterReopen(o, c, y), l')
    ensures AfterReopen(o, c, y).history == y.history && AfterReopen(o, c, y).acked >= y.acked
  {
    ReopenFinds(o, c, y, l);
    if Opened(o, c, y.history, Last(l.bases), Last(l.spans)).Refused? {
      l' := l;
    } else if l.tail == [] {
      l' := ReopenKeepsFiles(o, c, y, l);
    } else {
      l' := ReopenCutsTail(o, c, y, l);
    }
  }

  // -------------------------------------------------------------------- whole runs

  predicate KeepsDurable(y: Sys, y': Sys)
  {
    y.acked <= |y.history| && y.acked <= y'.acked <= |y'.history| && y.history[..y.acked] <= y'.history
  }

  lemma KeepsDurableChain(x: Sys, y: Sys, z: Sys)
    requires KeepsDurable(x, y) && KeepsDurable(y, z)
    ensures KeepsDurable(x, z)
  {
    assert x.history[..x.acked] == y.history[..y.acked][..x.acked];
  }

  lemma PrefixOfPrefix<T>(h: seq<T>, m: nat, n: nat)
    requires m <= n <= |h|
    ensures h[..m] <= h[..n] <= h
  {}

  lemma StateWithin(o: Options, c: Codec, y: Sys, l: Layout)
    requires Invariant(o, c, y, l)
    ensures Present(y) && y.acked <= |y.history|
  {}

  lemma GroupKeeps(o: Options, c: Codec, y: Sys, plan: Plan, qs: seq<Request>)
    requires Present(y) && y.acked <= |y.history|
    ensures KeepsDurable(y, AfterGroup(o, c, y, plan, qs))
  {}

  lemma SnapshotKeeps(y: Sys, n: nat)
    requires Present(y) && y.acked <= |y.history| && forall id <- y.state.dedupeIDs :: id in y.state.dedupe
    ensures KeepsDurable(y, AfterSnapshot(y, n))
  {}

  lemma CrashKeeps(y: Sys, y': Sys, n: nat)
    requires y.acked <= n <= |y.history| && y'.history == y.history[..n] && y'.acked == n
    ensures KeepsDurable(y, y')
  {
    PrefixOfPrefix(y.history, y.acked, n);
  }

  lemma WorkKeepsInvariant(o: Options, c: Codec, y: Sys, l: Layout, e: Event) returns (l': Layout)
    requires o.Normalized() && Lossless(c) && Invariant(o, c, y, l) && CleanEvent(e)
             && (e.CommitGroup? || e.TakeSnapshot?)
    ensures Invariant(o, c, Next(o, c, y, e), l') && KeepsDurable(y, Next(o, c, y, e))
  {
    l' := l;
    StateWithin(o, c, y, l);
    match e
    case CommitGroup(plan, qs) =>
      if !y.poisoned && 0 < |qs| <= MAX_GROUP {
        l' := GroupKeepsInvariant(o, c, y, l, plan, qs);
        GroupKeeps(o, c, y, plan, qs);
      }
    case TakeSnapshot(n) =>
      if !y.poisoned {
        l' := SnapshotKeepsInvariant(o, c, y, l, n);
        SnapshotKeeps(y, n);
      }
  }

  lemma ReopenEventKeeps(o: Options, c: Codec, y: Sys, l: Layout) returns (l': Layout)
    requires o.Normalized() && Invariant(o, c, y, l)
    ensures Present(y) && Invariant(o, c, AfterReopen(o, c, y), l') && KeepsDurable(y, AfterReopen(o, c, y))
  {
    StateWithin(o, c, y, l);
    l' := ReopenKeepsInvariant(o, c, y, l);
    StateWithin(o, c, AfterReopen(o, c, y), l');
  }

  lemma CrashEventKeeps(o: Options, c: Codec, y: Sys, l: Layout, i: nat, j: nat, cut: nat) returns (l': Layout)
    requires o.Normalized() && Invariant(o, c, y, l) && i < |y.disk.snaps| && j < |y.disk.logs|
    ensures var y' := AfterCrash(c, y, y.disk.snaps[i], Survives(y.disk.logs[j], cut));
              Invariant(o, c, y', l') && KeepsDurable(y, y')
  {
    var y', n;
    y', l', n := CrashKeepsInvariant(o, c, y, l, i, j, cut);
    CrashKeeps(y, y', n);
  }

  lemma NextKeepsInvariant(o: Options, c: Codec, y: Sys, l: Layout, e: Event) returns (l': Layout)
    requires o.Normalized() && Lossless(c) && Invariant(o, c, y, l) && CleanEvent(e)
    ensures Invariant(o, c, Next(o, c, y, e), l') && KeepsDurable(y, Next(o, c, y, e))
  {
    l' := l;
    StateWithin(o, c, y, l);
    match e
    case Reopen => l' := ReopenEventKeeps(o, c, y, l);
    case Crash(i, j, cut) =>
      if i < |y.disk.snaps| && j < |y.disk.logs| { l' := CrashEventKeeps(o, c, y, l, i, j, cut); }
    case _ => l' := WorkKeepsInvariant(o, c, y, l, e);
  }

  lemma {:induction false} RunKeeps(o: Options, c: Codec, y: Sys, l: Layout, es: seq<Event>) returns (l': Layout)
    requires o.Normalized() && Lossless(c) && Invariant(o, c, y, l) && forall e <- es :: CleanEvent(e)
    ensures Invariant(o, c, RunFrom(o, c, y, es), l') && KeepsDurable(y, RunFrom(o, c, y, es))
    decreases |es|
  {
    l' := l;
    if es != [] {
      var front, e := es[..|es| - 1], es[|es| - 1];
      assert (forall x <- front :: x in es) && e in es;
      l' := RunKeeps(o, c, y, l, front);
      l' := NextKeepsInvariant(o, c, RunFrom(o, c, y, front), l', e);
      KeepsDurableChain(y, RunFrom(o, c, y, front), RunFrom(o, c, y, es));
    }
  }

  lemma RunInvariant(o: Options, c: Codec, es: seq<Event>) returns (l: Layout)
    requires o.Normalized() && Lossless(c) && forall e <- es :: CleanEvent(e)
    ensures Invariant(o, c, Run(o, c, es), l)
  {
    FreshInvariant(o, c);
    l := RunKeeps(o, c, FRESH, START, es);
  }

  lemma {:induction false} RunAppend(o: Options, c: Codec, y: Sys, es: seq<Event>, more: seq<Event>)
    ensures RunFrom(o, c, y, es + more) == RunFrom(o, c, RunFrom(o, c, y, es), more)
    decreases |more|
  {
    if more == [] {
      assert es + more == es;
    } else {
      assert (es + more)[..|es + more| - 1] == es + more[..|more| - 1];
      RunAppend(o, c, y, es, more[..|more| - 1]);
    }
  }

  // -------------------------------------------------------------------- theorems

  // After any run of groups, storage failures, snapshots, reopenings and crashes, whatever a
  // further crash leaves is a snapshot after `base` records of the history and a log that holds
  // `span` of it and a torn tail; together they reach record n, and no durable record is behind n.
  // Opening them rebuilds the state of the first n records - unless the log holds a record that
  // replay counts as too large, or goes on behind missing records, and then with that error.
  lemma RecoveryAfterAnyCrash(o: Options, c: Codec, es: seq<Event>, i: nat, j: nat, cut: nat)
      returns (n: nat, base: nat, span: Span, tail: Bytes)
    requires o.Normalized() && Lossless(c) && forall e <- es :: CleanEvent(e)
    requires i < |Run(o, c, es).disk.snaps| && j < |Run(o, c, es).disk.logs|
    ensures var y := Run(o, c, es); var snap, wal := y.disk.snaps[i], Survives(y.disk.logs[j], cut);
            && y.acked <= n <= |y.history| && ImageAt(o, c, y.history, snap, base, wal, span, tail, n)
            && Recover(o, c, snap, wal) == Opened(o, c, y.history, base, span)
  {
    var l := RunInvariant(o, c, es);
    var y := Run(o, c, es);
    base := l.bases[i];
    span, tail, n := CrashImage(o, c, y.history, y.disk, l, i, j, cut);
    RecoverImage(o, c, y.disk.snaps[i], y.history, base, Survives(y.disk.logs[j], cut), span, tail);
  }

  // A durable record is never lost or changed: whatever happens later, every store that opens
  // holds it.
  lemma DurableForGood(o: Options, c: Codec, es: seq<Event>, more: seq<Event>, i: nat, j: nat, cut: nat)
      returns (n: nat)
    requires o.Normalized() && Lossless(c) && (forall e <- es :: CleanEvent(e)) && forall e <- more :: CleanEvent(e)
    requires var z := Run(o, c, es + more); i < |z.disk.snaps| && j < |z.disk.logs|
    ensures var y, z := Run(o, c, es), Run(o, c, es + more);
            var found := Recover(o, c, z.disk.snaps[i], Survives(z.disk.logs[j], cut));
            && y.acked <= |y.history| && n <= |z.history| && y.history[..y.acked] <= z.history[..n]
            && (found.Replayed? ==> found.state == Fold(o, z.history[..n]))
  {
    var l := RunInvariant(o, c, es);
    RunAppend(o, c, FRESH, es, more);
    var l' := RunKeeps(o, c, Run(o, c, es), l, more);
    var base, span, tail;
    n, base, span, tail := RecoveryAfterAnyCrash(o, c, es + more, i, j, cut);
    ReachedPrefix(Run(o, c, es), Run(o, c, es + more), n);
  }

  lemma ReachedPrefix(y: Sys, z: Sys, n: nat)
    requires KeepsDurable(y, z) && z.acked <= n <= |z.history|
    ensures y.history[..y.acked] <= z.history[..n]
  {
    assert y.history[..y.acked] == z.history[..n][..y.acked];
  }

  // The number of durable records is exact: power may be lost so that all others are gone.
  lemma NoMoreIsDurable(o: Options, c: Codec, es: seq<Event>)
    requires o.Normalized() && Lossless(c) && (forall e <- es :: CleanEvent(e)) && !Run(o, c, es).poisoned
    ensures var y := Run(o, c, es);
            && Present(y) && y.acked <= |y.history|
            && Next(o, c, y, AtOnce(y)).history == y.history[..y.acked]
  {
    var l := RunInvariant(o, c, es);
    CutAtSure(o, c, Run(o, c, es), l);
    CutTo(o, c, Run(o, c, es), Run(o, c, es).acked);
  }

  lemma CrashIs(o: Options, c: Codec, y: Sys, i: nat, j: nat, cut: nat)
    requires Present(y) && i < |y.disk.snaps| && j < |y.disk.logs|
    ensures Next(o, c, y, Crash(i, j, cut)) == AfterCrash(c, y, y.disk.snaps[i], Survives(y.disk.logs[j], cut))
  {}

  // What is synced of the current log, with the oldest snapshot, reaches exactly the durable records.
  lemma SureImage(o: Options, c: Codec, y: Sys, l: Layout) returns (s: Span)
    requires o.Normalized() && Invariant(o, c, y, l) && !y.poisoned
    ensures var log := Last(y.disk.logs);
            && log.synced <= |log.bytes|
            && ImageAt(o, c, y.history, y.disk.snaps[0], l.bases[0], log.bytes[..log.synced], s, [], y.acked)
  {
    var h, log, at := y.history, Last(y.disk.logs), Last(l.spans);
    s := at.(end := l.sure);
    SyncedBytes(c, h, log, at, l.sure);
    assert SnapshotAt(o, c, y.disk.snaps[0], h, l.bases[0]);
  }

  lemma CutAtSure(o: Options, c: Codec, y: Sys, l: Layout)
    requires o.Normalized() && Invariant(o, c, y, l) && !y.poisoned
    ensures ReachesSynced(c, y, y.acked)
  {
    var s := SureImage(o, c, y, l);
    var log := Last(y.disk.logs);
    ReachedIsLast(o, c, y.history, y.disk.snaps[0], l.bases[0], log.bytes[..log.synced], s, [], y.acked);
  }

  lemma SyncedSplit(c: Codec, h: seq<Record>, i: nat, sure: nat, end: nat)
    requires i <= sure <= end <= |h|
    ensures Frames(c, h[i..end]) == Frames(c, h[i..sure]) + Frames(c, h[sure..end])
    ensures AllEncodable(c, h[i..end]) ==> AllEncodable(c, h[i..sure])
  {
    assert h[i..end] == h[i..sure] + h[sure..end];
    FramesAppend(c, h[i..sure], h[sure..end]);
    assert forall r <- h[i..sure] :: r in h[i..end];
  }

  lemma TakeTwo(one: Bytes, two: Bytes, rest: Bytes, n: nat)
    requires n == |one| + |two|
    ensures (one + (two + rest) + [])[..n] == one + two + []
  {}

  lemma SyncedBytes(c: Codec, h: seq<Record>, log: Log, s: Span, sure: nat)
    requires LogAt(c, log.bytes, h, s, []) && SureOk(c, h, log, s, sure)
    ensures log.synced <= |log.bytes| && LogAt(c, log.bytes[..log.synced], h, s.(end := sure), [])
  {
    var one, two, rest := Frames(c, h[s.from..s.until]), Frames(c, h[s.resume..sure]), Frames(c, h[sure..s.end]);
    SyncedSplit(c, h, s.resume, sure, s.end);
    assert h[s.end..s.end] == [];
    TakeTwo(one, two, rest, |one| + |two|);
  }

  // Whatever a crash leaves, its history has the decision.
  ghost predicate Outlives(o: Options, c: Codec, y: Sys, d: Decision)
  {
    forall e: Event | e.Crash? :: Backed(Next(o, c, y, e).history, |Next(o, c, y, e).history|, d)
  }

  lemma BackedAfter(y: Sys, y': Sys, d: Decision)
    requires KeepsDurable(y, y') && Backed(y.history, y.acked, d)
    ensures Backed(y'.history, |y'.history|, d)
  {
    assert y'.history[d.sequence - 1] == y.history[..y.acked][d.sequence - 1];
  }

  lemma DurableOutlives(o: Options, c: Codec, y: Sys, l: Layout, d: Decision)
    requires o.Normalized() && Invariant(o, c, y, l) && Backed(y.history, y.acked, d)
    ensures Outlives(o, c, y, d)
  {
    forall e: Event | e.Crash? ensures Backed(Next(o, c, y, e).history, |Next(o, c, y, e).history|, d) {
      CrashKeepsBacked(o, c, y, l, d, e);
    }
  }

  lemma CrashKeepsBacked(o: Options, c: Codec, y: Sys, l: Layout, d: Decision, e: Event)
    requires o.Normalized() && Invariant(o, c, y, l) && Backed(y.history, y.acked, d) && e.Crash?
    ensures Backed(Next(o, c, y, e).history, |Next(o, c, y, e).history|, d)
  {
    StateWithin(o, c, y, l);
    if e.snap < |y.disk.snaps| && e.log < |y.disk.logs| {
      var l' := CrashEventKeeps(o, c, y, l, e.snap, e.log, e.cut);
      CrashIs(o, c, y, e.snap, e.log, e.cut);
      BackedAfter(y, Next(o, c, y, e), d);
    }
  }

  // Power is lost at once: of the current log only what is synced is left.
  function AtOnce(y: Sys): Event
    requires Present(y)
  {
    Crash(0, |y.disk.logs| - 1, Last(y.disk.logs).synced)
  }

  function SyncedPart(y: Sys): Bytes
    requires Present(y) && Last(y.disk.logs).synced <= |Last(y.disk.logs).bytes|
  {
    Last(y.disk.logs).bytes[..Last(y.disk.logs).synced]
  }

  predicate ReachesSynced(c: Codec, y: Sys, n: nat)
  {
    && Present(y) && n <= |y.history| && Last(y.disk.logs).synced <= |Last(y.disk.logs).bytes|
    && Max(LastSequence(c, SyncedPart(y)), SequenceOf(y.disk.snaps[0])) == n
  }

  lemma CutTo(o: Options, c: Codec, y: Sys, n: nat)
    requires ReachesSynced(c, y, n)
    ensures Next(o, c, y, AtOnce(y)).history == y.history[..n]
  {
    CrashIs(o, c, y, 0, |y.disk.logs| - 1, Last(y.disk.logs).synced);
  }

  lemma StillCut(o: Options, c: Codec, y: Sys, l: Layout, g: Group)
    requires o.Normalized() && Invariant(o, c, y, l) && !y.poisoned && (g.failed || g.appended == [])
    ensures var y' := AfterCommit(y, g);
            && Present(y') && y.acked <= |y.history|
            && Next(o, c, y', AtOnce(y')).history == y.history[..y.acked]
  {
    CutAtSure(o, c, y, l);
    SamePart(c, y, g, y.acked);
    CutTo(o, c, AfterCommit(y, g), y.acked);
  }

  lemma LostUnlessDurable(o: Options, c: Codec, y: Sys, l: Layout, g: Group, d: Decision)
    requires o.Normalized() && Invariant(o, c, y, l) && !y.poisoned && (g.failed || g.appended == [])
    requires Outlives(o, c, AfterCommit(y, g), d)
    ensures d.sequence <= y.acked
  {
    StillCut(o, c, y, l, g);
    var y' := AfterCommit(y, g);
    assert Backed(Next(o, c, y', AtOnce(y')).history, |Next(o, c, y', AtOnce(y')).history|, d);
  }

  /** A group that writes frames makes every decision it hands out durable, repeated ones too. A
      decision handed out by a group that writes none, or fails, is durable exactly if it was before. Durable
      means that there is no crash whose files lack it. */
  lemma DecisionDurableIff(o: Options, c: Codec, es: seq<Event>, plan: Plan, qs: seq<Request>, i: nat)
    requires o.Normalized() && Lossless(c) && (forall e <- es :: CleanEvent(e)) && i < |qs| && forall q <- qs ::
               CleanRequest(q)
    requires !Run(o, c, es).poisoned
    ensures var y := Run(o, c, es); var g := Commit(o, c, plan, y.state, qs);
            && Present(y) && |g.replies| == |qs|
            && (g.replies[i].Decided? ==>
                  var y', d := AfterCommit(y, g), g.replies[i].decision;
                  && Backed(y'.history, |y'.history|, d)
                  && (Outlives(o, c, y', d) <==> (!g.failed && g.appended != []) || d.sequence <= y.acked))
  {
    var l := RunInvariant(o, c, es);
    var y := Run(o, c, es);
    var l' := GroupKeepsInvariant(o, c, y, l, plan, qs);
    var g, tail := CommitKeepsGroup(o, c, plan, y.history, qs);
    if g.replies[i].Decided? { AnswerOutlivesIff(o, c, y, l, g, l', g.replies[i].decision); }
  }

  lemma AnswerOutlivesIff(o: Options, c: Codec, y: Sys, l: Layout, g: Group, l': Layout, d: Decision)
    requires o.Normalized() && Invariant(o, c, y, l) && !y.poisoned && Invariant(o, c, AfterCommit(y, g), l')
    requires Backed(y.history + g.appended, if g.failed || g.appended == [] then |y.history|
                                            else |y.history| + |g.appended|, d)
    ensures Backed(AfterCommit(y, g).history, |AfterCommit(y, g).history|, d)
    ensures Outlives(o, c, AfterCommit(y, g), d) <==> (!g.failed && g.appended != []) || d.sequence <= y.acked
  {
    var y' := AfterCommit(y, g);
    StateWithin(o, c, y, l);
    if (!g.failed && g.appended != []) || d.sequence <= y.acked {
      assert Backed(y'.history, y'.acked, d);
      DurableOutlives(o, c, y', l', d);
    } else if Outlives(o, c, y', d) {
      LostUnlessDurable(o, c, y, l, g, d);
    }
  }

  // An image that opens shows the records it reaches.
  lemma ImageShows(o: Options, c: Codec, h: seq<Record>, snap: Option<Snapshot>, base: nat, wal: Bytes, s: Span,
      tail: Bytes, n: nat)
    requires o.Normalized() && Legal(o, c, h) && ImageAt(o, c, h, snap, base, wal, s, tail, n) && n <= |h|
    requires Recover(o, c, snap, wal).Replayed?
    ensures Recover(o, c, snap, wal).state == Fold(o, h[..n]) && Recover(o, c, snap, wal).state.sequence == n
  {
    RecoverImage(o, c, snap, h, base, wal, s, tail);
    OpenedWhole(o, c, h, base, s);
    LegalPrefix(o, c, h, n);
    LegalState(o, c, h[..n]);
  }

  // If these files open, they show the decision.
  ghost predicate Shows(o: Options, c: Codec, y: Sys, snap: Option<Snapshot>, wal: Bytes, d: Decision)
  {
    var found := Recover(o, c, snap, wal);
    found.Replayed? ==>
      && Backed(y.history, found.state.sequence, d)
      && found.state == Fold(o, y.history[..found.state.sequence])
  }

  ghost predicate AllShow(o: Options, c: Codec, y: Sys, d: Decision)
  {
    forall i: nat, j: nat, cut: nat | i < |y.disk.snaps| && j < |y.disk.logs| ::
      Shows(o, c, y, y.disk.snaps[i], Survives(y.disk.logs[j], cut), d)
  }

  lemma DurableShows(o: Options, c: Codec, y: Sys, l: Layout, d: Decision)
    requires o.Normalized() && Invariant(o, c, y, l) && Backed(y.history, y.acked, d)
    ensures AllShow(o, c, y, d)
  {
    forall i: nat, j: nat, cut: nat | i < |y.disk.snaps| && j < |y.disk.logs|
        ensures Shows(o, c, y, y.disk.snaps[i], Survives(y.disk.logs[j], cut), d) {
      ImageHolds(o, c, y, l, d, i, j, cut);
    }
  }

  lemma ImageHolds(o: Options, c: Codec, y: Sys, l: Layout, d: Decision, i: nat, j: nat, cut: nat)
    requires o.Normalized() && Invariant(o, c, y, l) && Backed(y.history, y.acked, d)
    requires i < |y.disk.snaps| && j < |y.disk.logs|
    ensures Shows(o, c, y, y.disk.snaps[i], Survives(y.disk.logs[j], cut), d)
  {
    var snap, wal := y.disk.snaps[i], Survives(y.disk.logs[j], cut);
    var s, tail, n := CrashImage(o, c, y.history, y.disk, l, i, j, cut);
    ReachedIsLast(o, c, y.history, snap, l.bases[i], wal, s, tail, n);
    if Recover(o, c, snap, wal).Replayed? { ImageShows(o, c, y.history, snap, l.bases[i], wal, s, tail, n); }
  }

  lemma ShownAtOnce(o: Options, c: Codec, y: Sys, d: Decision)
    requires Present(y) && Last(y.disk.logs).synced <= |Last(y.disk.logs).bytes| && AllShow(o, c, y, d)
    ensures Shows(o, c, y, y.disk.snaps[0], SyncedPart(y), d)
  {
    var j := |y.disk.logs| - 1;
    assert Shows(o, c, y, y.disk.snaps[0], Survives(y.disk.logs[j], Last(y.disk.logs).synced), d);
  }

  lemma SamePart(c: Codec, y: Sys, g: Group, n: nat)
    requires ReachesSynced(c, y, n) && (g.failed || g.appended == [])
    ensures var y' := AfterCommit(y, g);
            && ReachesSynced(c, y', n) && SyncedPart(y') == SyncedPart(y) && y'.disk.snaps == y.disk.snaps
            && y'.history[..n] == y.history[..n]
  {
    if g.failed {
      var y', log := FailedState(y, g);
      assert SyncedPart(y') == SyncedPart(y);
    }
  }

  lemma ShownOnlyIfDurable(o: Options, c: Codec, y: Sys, l: Layout, g: Group, d: Decision)
    requires o.Normalized() && Invariant(o, c, y, l) && !y.poisoned && (g.failed || g.appended == [])
    requires ReachesSynced(c, y, y.acked) && Recover(o, c, y.disk.snaps[0], SyncedPart(y)).Replayed?
    requires AllShow(o, c, AfterCommit(y, g), d)
    ensures d.sequence <= y.acked
  {
    SamePart(c, y, g, y.acked);
    ShownAtOnce(o, c, AfterCommit(y, g), d);
    var s := SureImage(o, c, y, l);
    ImageShows(o, c, y.history, y.disk.snaps[0], l.bases[0], SyncedPart(y), s, [], y.acked);
  }

  /** The same over what can be opened: unless losing power at once would leave files that do not open, all
      files that a crash can leave and that open show the decision exactly then. */
  lemma DecisionShownIff(o: Options, c: Codec, es: seq<Event>, plan: Plan, qs: seq<Request>, i: nat)
    requires o.Normalized() && Lossless(c) && (forall e <- es :: CleanEvent(e)) && i < |qs| && forall q <- qs ::
               CleanRequest(q)
    requires !Run(o, c, es).poisoned
    ensures var y := Run(o, c, es); var g := Commit(o, c, plan, y.state, qs);
            && ReachesSynced(c, y, y.acked) && |g.replies| == |qs|
            && (g.replies[i].Decided? && Recover(o, c, y.disk.snaps[0], SyncedPart(y)).Replayed? ==>
                  var d := g.replies[i].decision;
                  AllShow(o, c, AfterCommit(y, g), d) <==> (!g.failed && g.appended != []) || d.sequence <= y.acked)
  {
    var l := RunInvariant(o, c, es);
    var y := Run(o, c, es);
    CutAtSure(o, c, y, l);
    var l' := GroupKeepsInvariant(o, c, y, l, plan, qs);
    var g, tail := CommitKeepsGroup(o, c, plan, y.history, qs);
    if g.replies[i].Decided? && Recover(o, c, y.disk.snaps[0], SyncedPart(y)).Replayed? {
      AnswerShownIff(o, c, y, l, g, l', g.replies[i].decision);
    }
  }

  lemma AnswerShownIff(o: Options, c: Codec, y: Sys, l: Layout, g: Group, l': Layout, d: Decision)
    requires o.Normalized() && Invariant(o, c, y, l) && !y.poisoned && Invariant(o, c, AfterCommit(y, g), l')
    requires ReachesSynced(c, y, y.acked) && Recover(o, c, y.disk.snaps[0], SyncedPart(y)).Replayed?
    requires Backed(y.history + g.appended, if g.failed || g.appended == [] then |y.history|
                                            else |y.history| + |g.appended|, d)
    ensures AllShow(o, c, AfterCommit(y, g), d) <==> (!g.failed && g.appended != []) || d.sequence <= y.acked
  {
    var y' := AfterCommit(y, g);
    if (!g.failed && g.appended != []) || d.sequence <= y.acked {
      assert Backed(y'.history, y'.acked, d);
      DurableShows(o, c, y', l', d);
    } else if AllShow(o, c, y', d) {
      ShownOnlyIfDurable(o, c, y, l, g, d);
    }
  }

  // While the store can be read or written at all, what it shows is the state of the whole history,
  // and that state survives every crash exactly if all records are durable. A failed group or
  // snapshot closes it until it is reopened.
  lemma VisibleStateDurableIff(o: Options, c: Codec, es: seq<Event>)
    requires o.Normalized() && Lossless(c) && forall e <- es :: CleanEvent(e)
    ensures var y := Run(o, c, es);
            if y.poisoned then forall e: Event | !e.Reopen? && !e.Crash? :: Next(o, c, y, e) == y
            else && y.state == Fold(o, y.history)
                 && ((forall e: Event | e.Crash? :: Next(o, c, y, e).history == y.history) <==> y.acked == |y.history|)
  {
    var l := RunInvariant(o, c, es);
    var y := Run(o, c, es);
    if !y.poisoned {
      NoMoreIsDurable(o, c, es);
      if y.acked == |y.history| {
        forall e: Event | e.Crash? ensures Next(o, c, y, e).history == y.history { CrashLosesNothing(o, c, y, l, e); }
      } else {
        assert AtOnce(y).Crash?;
      }
    }
  }

  lemma CrashLosesNothing(o: Options, c: Codec, y: Sys, l: Layout, e: Event)
    requires o.Normalized() && Invariant(o, c, y, l) && y.acked == |y.history| && e.Crash?
    ensures Next(o, c, y, e).history == y.history
  {
    StateWithin(o, c, y, l);
    if e.snap < |y.disk.snaps| && e.log < |y.disk.logs| {
      var y', l', n := CrashKeepsInvariant(o, c, y, l, e.snap, e.log, e.cut);
      CrashIs(o, c, y, e.snap, e.log, e.cut);
      assert y.history[..|y.history|] == y.history;
    }
  }

  // Event k opened files with records that were not synced, cut nothing off, and nothing has been added
  // or synced since.
  ghost predicate ReopenedOver(o: Options, c: Codec, es: seq<Event>, k: nat)
  {
    && k < |es| && es[k].Reopen?
    && var z, z', y := Run(o, c, es[..k]), Run(o, c, es[..k + 1]), Run(o, c, es);
       && z.acked < |z.history| && z'.disk.logs == z.disk.logs
       && y.history == z.history && y.acked == z.acked
  }

  lemma OthersStayDurable(o: Options, c: Codec, y: Sys, e: Event)
    requires Present(y) && !e.Reopen? && !Next(o, c, y, e).poisoned
    ensures !y.poisoned
    ensures Next(o, c, y, e).acked == |Next(o, c, y, e).history|
            || (Next(o, c, y, e).history == y.history && Next(o, c, y, e).acked == y.acked)
  {}

  lemma SameCause(o: Options, c: Codec, es: seq<Event>, n: nat, k: nat)
    requires |es| == n + 1 && ReopenedOver(o, c, es[..n], k)
    requires Run(o, c, es).history == Run(o, c, es[..n]).history && Run(o, c, es).acked == Run(o, c, es[..n]).acked
    ensures ReopenedOver(o, c, es, k)
  {
    assert es[..n][..k] == es[..k] && es[..n][..k + 1] == es[..k + 1];
  }

  /** An open store shows records that are not durable exactly if it was reopened over files that held them
      unsynced, without a torn tail to cut off, and has committed and snapshotted nothing since. In particular
      one that was never reopened shows only what is durable. */
  lemma DurableUnlessReopened(o: Options, c: Codec, es: seq<Event>)
    requires o.Normalized() && Lossless(c) && (forall x <- es :: CleanEvent(x)) && !Run(o, c, es).poisoned
    ensures Run(o, c, es).acked < |Run(o, c, es).history| <==> exists k: nat :: ReopenedOver(o, c, es, k)
  {
    if Run(o, c, es).acked < |Run(o, c, es).history| {
      var k := ReopenedBefore(o, c, es);
    }
  }

  lemma {:induction false} ReopenedBefore(o: Options, c: Codec, es: seq<Event>) returns (k: nat)
    requires o.Normalized() && Lossless(c) && (forall x <- es :: CleanEvent(x)) && !Run(o, c, es).poisoned
    requires Run(o, c, es).acked < |Run(o, c, es).history|
    ensures ReopenedOver(o, c, es, k)
    decreases |es|
  {
    var n := |es| - 1;
    var y, e := Run(o, c, es[..n]), es[n];
    assert forall x <- es[..n] :: x in es;
    var l := RunInvariant(o, c, es[..n]);
    StateWithin(o, c, y, l);
    if e.Reopen? {
      k := n;
      ReopenedDurableIff(o, c, y, l);
      assert es[..n + 1] == es;
    } else {
      OthersStayDurable(o, c, y, e);
      k := ReopenedBefore(o, c, es[..n]);
      SameCause(o, c, es, n, k);
    }
  }

  lemma ReopenedDurableIff(o: Options, c: Codec, y: Sys, l: Layout)
    requires o.Normalized() && Invariant(o, c, y, l) && Present(y) && !AfterReopen(o, c, y).poisoned
    ensures var y' := AfterReopen(o, c, y);
            && (y'.acked == |y'.history| <==> y.acked == |y.history| || y'.disk.logs != y.disk.logs)
            && y'.history == y.history && (y'.disk.logs == y.disk.logs ==> y'.acked == y.acked)
  {
    ReopenFinds(o, c, y, l);
    if l.tail == [] {
      var _ := ReopenKeepsFiles(o, c, y, l);
    } else {
      var _ := ReopenCutsTail(o, c, y, l);
      CutIsShorter(o, c, y);
      assert Last(y.disk.logs).bytes == SpanBytes(c, y.history, Last(l.spans)) + l.tail;
    }
  }

  lemma CutIsShorter(o: Options, c: Codec, y: Sys)
    requires Present(y)
    ensures match Recover(o, c, Last(y.disk.snaps), Last(y.disk.logs).bytes)
            case Refused(_) => true
            case Replayed(_, keep) => keep < |Last(y.disk.logs).bytes| ==> AfterReopen(o, c, y).disk.logs != y.disk.logs
  {
    var found, wal := Recover(o, c, Last(y.disk.snaps), Last(y.disk.logs).bytes), Last(y.disk.logs).bytes;
    if found.Replayed? && found.keep < |wal| { assert |wal[..found.keep]| != |wal|; }
  }

  // A store whose log ends before its snapshot goes on leaving records out: the next group that
  // writes frames makes the files unopenable, and no other group does.
  lemma AppendBehindSnapshotIff(o: Options, c: Codec, es: seq<Event>, plan: Plan, qs: seq<Request>)
    requires o.Normalized() && Lossless(c) && (forall e <- es :: CleanEvent(e)) && forall q <- qs :: CleanRequest(q)
    requires var y := Run(o, c, es);
               !y.poisoned && Present(y) && Recover(o, c, Last(y.disk.snaps), Last(y.disk.logs).bytes).Replayed?
    requires var y := Run(o, c, es); var g := Commit(o, c, plan, y.state, qs); !g.failed && g.appended != []
    ensures var y := Run(o, c, es); var y' := AfterGroup(o, c, y, plan, qs);
            Recover(o, c, Last(y'.disk.snaps), Last(y'.disk.logs).bytes) == Refused(Corruption) <==>
            0 < LastSequence(c, Last(y.disk.logs).bytes) < y.state.sequence
  {
    var l := RunInvariant(o, c, es);
    var y := Run(o, c, es);
    var g, tail := CommitKeepsGroup(o, c, plan, y.history, qs);
    assert Frames(c, g.appended) + [] == Frames(c, g.appended);
    LegalState(o, c, y.history);
    BehindSnapshot(o, c, y, l, g);
  }

  lemma OpenedLater(o: Options, c: Codec, h: seq<Record>, more: seq<Record>, base: nat, s: Span, s': Span)
    requires s.Within(|h|) && base <= |h| && s.end == |h| && more != [] && s' == s.(end := |h + more|)
    requires Opened(o, c, h, base, s).Replayed?
    ensures Opened(o, c, h + more, base, s') == Refused(Corruption) <==> s.Broken()
  {
    assert (h + more)[s.from..s.until] == h[s.from..s.until];
  }

  lemma BehindIffBroken(o: Options, c: Codec, h: seq<Record>, wal: Bytes, s: Span)
    requires o.Normalized() && Legal(o, c, h) && LogAt(c, wal, h, s, []) && s.end == |h|
             && (s.Broken() ==> s.resume == s.end)
    ensures 0 < LastSequence(c, wal) < |h| <==> s.Broken()
  {
    LastOfSpan(o, c, h, wal, s, []);
  }

  lemma BehindSnapshot(o: Options, c: Codec, y: Sys, l: Layout, g: Group)
    requires o.Normalized() && Invariant(o, c, y, l) && !y.poisoned && !g.failed && g.appended != []
    requires Recover(o, c, Last(y.disk.snaps), Last(y.disk.logs).bytes).Replayed?
    requires Legal(o, c, y.history + g.appended) && AllEncodable(c, g.appended)
    requires g.log == Frames(c, g.appended) && g.state == Fold(o, y.history + g.appended)
    ensures Recover(o, c, Last(AfterCommit(y, g).disk.snaps), Last(AfterCommit(y, g).disk.logs).bytes)
            == Refused(Corruption) <==>
            0 < LastSequence(c, Last(y.disk.logs).bytes) < |y.history|
  {
    var h, s := y.history, Last(l.spans);
    ReopenFinds(o, c, y, l);
    OpenedWhole(o, c, h, Last(l.bases), s);
    BehindIffBroken(o, c, h, Last(y.disk.logs).bytes, s);
    var y', l' := SyncedKeepsAt(o, c, y, l, g);
    ReopenFinds(o, c, y', l');
    OpenedLater(o, c, h, g.appended, Last(l.bases), s, Last(l'.spans));
  }
}
