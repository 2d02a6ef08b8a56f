/**
 Executing application commands against the keyed store, and group commit: a group of queued
 requests is executed and appended in order, staged in memory, and made durable by one sync.
 */
module KeyedCommit {
  import opened Bytes
  import opened KeyedRecords
  import opened KeyedRecovery

  datatype TxOp = Put(key: Bytes, value: Bytes) | Delete(key: Bytes)

  // What an application callback did with the records it saw. A value or result that is not
  // valid JSON stands for one that could not be encoded.
  datatype Attempted =
    | Panics
    | Fails
    | Rejects(code: Bytes, reason: Bytes)
    | Completes(result: Bytes, ops: seq<TxOp>)

  type Callback = map<Bytes, Bytes> -> Attempted

  datatype Request = Request(commandID: Bytes, mutation: Option<Callback>, cancelled: bool)

  datatype Decision = Decision(sequence: nat, commandID: Bytes, applied: bool, code: Bytes, result: Bytes,
      duplicate: bool)

  datatype ErrorKind = InvalidInput | OverCapacity | FromCallback | Cancelled | Poisoned | Storage

  datatype Reply = Decided(decision: Decision) | Errored(kind: ErrorKind) | Panicked

  datatype Executed = Persist(record: Record) | Answer(reply: Reply)

  function DecisionOf(r: Record): Decision
  {
    Decision(r.sequence, r.commandID, r.applied, r.code, r.result, false)
  }

  predicate IsSpace(b: byte) { b == 32 || 9 <= b <= 13 }

  predicate Blank(s: Bytes) { forall b <- s :: IsSpace(b) }

  // ---------------------------------------------------------------- transactions

  type Writes = map<Bytes, Option<Bytes>>

  // The keys a callback can write under: its own, or in a catalog those of the records of datasets,
  // nine bytes in front of a key of the same size.
  predicate CanWrite(o: Options, key: Bytes)
  {
    if o.catalogFormat then 9 < |key| <= MAX_KEY_BYTES + 9 && key[0] == 0 else 0 < |key| <= MAX_KEY_BYTES
  }

  // A call that violates a bound returns an error to the callback and writes nothing.
  function Write(o: Options, c: Codec, writes: Writes, op: TxOp): Writes
  {
    if !CanWrite(o, op.key) then writes
    else match op
      case Put(key, value) => if c.validJson(value) && |value| <= o.maxValueBytes then writes[key := Some(value)]
          else writes
      case Delete(key) => writes[key := None]
  }

  function WritesOf(o: Options, c: Codec, ops: seq<TxOp>): Writes
  {
    if ops == [] then map[] else Write(o, c, WritesOf(o, c, ops[..|ops| - 1]), ops[|ops| - 1])
  }

  function MutationOf(writes: Writes, key: Bytes): Mutation
    requires key in writes
  {
    if writes[key].None? then Mutation(key, [], true) else Mutation(key, writes[key].value, false)
  }

  ghost function MutationsOf(writes: Writes): (ms: seq<Mutation>)
    ensures |ms| == |Sorted(writes.Keys)|
  {
    var keys := Sorted(writes.Keys);
    seq(|keys|, i requires 0 <= i < |keys| => assert keys[i] in Elements(keys); MutationOf(writes, keys[i]))
  }

  // The live path counts what is written, not the keys of what is deleted.
  function LiveTotal(ms: seq<Mutation>): nat
  {
    if ms == [] then 0
    else LiveTotal(ms[..|ms| - 1]) + if ms[|ms| - 1].delete then 0 else |ms[|ms| - 1].key| + |ms[|ms| - 1].value|
  }

  // -------------------------------------------------------------------- execution

  ghost function Execute(o: Options, c: Codec, s: State, q: Request): Executed
  {
    if Blank(q.commandID) then Answer(Errored(InvalidInput))
    else if |q.commandID| > MAX_IDENTITY_BYTES then Answer(Errored(OverCapacity))
    else if q.mutation.None? then Answer(Errored(InvalidInput))
    else if q.commandID in s.dedupe then Answer(Decided(DecisionOf(s.dedupe[q.commandID]).(duplicate := true)))
    else
      match q.mutation.value(s.records)
      case Panics => Answer(Panicked)
      case Fails => Answer(Errored(FromCallback))
      case Rejects(code, reason) =>
        if reason != [] && !c.validJson(reason) then Answer(Errored(FromCallback))
        else if Blank(code) then Answer(Errored(InvalidInput))
        else if |code| > MAX_CODE_BYTES || |reason| > o.maxValueBytes then Answer(Errored(OverCapacity))
        else Persist(Record(s.sequence + 1, q.commandID, false, code, reason, []))
      case Completes(result, ops) =>
        var ms := MutationsOf(WritesOf(o, c, ops));
        if !c.validJson(result) then Answer(Errored(InvalidInput))
        else if |result| > o.maxValueBytes then Answer(Errored(OverCapacity))
        else if CountAfter(s.records, ms) > o.maxRecords || LiveTotal(ms) > o.maxTransactionBytes
            then Answer(Errored(OverCapacity))
        else Persist(Record(s.sequence + 1, q.commandID, true, [], result, ms))
  }

  predicate WritesOk(o: Options, c: Codec, writes: Writes)
  {
    forall key <- writes :: key != [] && |key| <= o.MaxStoredKeyBytes()
      && (writes[key].Some? ==> c.validJson(writes[key].value) && |writes[key].value| <= o.maxValueBytes)
  }

  lemma {:induction false} WritesStayOk(o: Options, c: Codec, ops: seq<TxOp>)
    ensures WritesOk(o, c, WritesOf(o, c, ops))
  {
    if ops != [] { WritesStayOk(o, c, ops[..|ops| - 1]); }
  }

  lemma MutationsOk(o: Options, c: Codec, writes: Writes)
    requires WritesOk(o, c, writes)
    ensures DistinctKeys(MutationsOf(writes)) && forall m <- MutationsOf(writes) :: MutationValid(o, c, m)
  {
    var keys, ms := Sorted(writes.Keys), MutationsOf(writes);
    forall i | 0 <= i < |ms| ensures ms[i].key == keys[i] && keys[i] in writes && MutationValid(o, c, ms[i]) {
      assert keys[i] in Elements(keys);
    }
    forall i, j | 0 <= i < j < |ms| ensures ms[i].key != ms[j].key { LessIrreflexive(keys[i]); }
  }

  // A command that is to be persisted is the next record of a legal history.
  lemma ExecuteFollows(o: Options, c: Codec, s: State, q: Request)
    requires Execute(o, c, s, q).Persist?
    ensures var r := Execute(o, c, s, q).record;
            Follows(o, c, s, r) && LiveTotal(r.mutations) <= o.maxTransactionBytes && r.commandID == q.commandID
  {
    match q.mutation.value(s.records)
    case Completes(result, ops) =>
      WritesStayOk(o, c, ops);
      MutationsOk(o, c, WritesOf(o, c, ops));
    case _ =>
  }

  // ------------------------------------------------------------------ group commit

  // How storage behaves while a group commits: which request's append fails, after how many
  // bytes reached the file, and whether the shared sync fails.
  datatype Plan = Plan(failAt: Option<nat>, written: nat, syncFails: bool)

  const NO_FAULT := Plan(None, 0, false)

  datatype Group = Group(state: State, appended: seq<Record>, log: Bytes, replies: seq<Reply>, durable: seq<bool>,
                         staged: map<Bytes, nat>, failed: bool)

  function Start(s: State): Group
  {
    Group(s, [], [], [], [], map[], false)
  }

  function Answered(g: Group, reply: Reply, durable: bool): Group
  {
    g.(replies := g.replies + [reply], durable := g.durable + [durable])
  }

  function Take(b: Bytes, n: nat): Bytes
  {
    if n < |b| then b[..n] else b
  }

  // Writing one frame: it is refused before any byte is written if it is too large, and a
  // failing write leaves some of its bytes behind - possibly all of them.
  function Append(c: Codec, plan: Plan, g: Group, r: Record): Group
  {
    var i, frame := |g.replies|, Frame(c, r);
    if |c.encode(r)| > MAX_FRAME_BYTES then Answered(g, Errored(Storage), false).(failed := true)
    else if plan.failAt == Some(i) then
      Answered(g, Errored(Storage), false).(failed := true, log := g.log + Take(frame, plan.written),
                appended := if plan.written < |frame| then g.appended else g.appended + [r])
    else g.(log := g.log + frame, appended := g.appended + [r])
  }

  // Request number |g.replies| of a group; `shared` says the group has more than one request.
  ghost function Step(o: Options, c: Codec, plan: Plan, shared: bool, g: Group, q: Request): Group
  {
    if g.failed then Answered(g, Errored(Poisoned), false)
    else if q.cancelled then Answered(g, Errored(Cancelled), false)
    else if q.commandID in g.staged && q.commandID in g.state.dedupe && g.staged[q.commandID] < |g.replies|
            && g.replies[g.staged[q.commandID]].Decided? then
      Answered(g, Decided(g.replies[g.staged[q.commandID]].decision.(duplicate := true)), true)
    else
      var e := Execute(o, c, g.state, q);
      if e.Answer? then Answered(g, e.reply, false)
      else
        var written := Append(c, plan, g, e.record);
        if written.failed then written
        else
          Answered(written, Decided(DecisionOf(e.record)), true)
            .(state := Apply(o, g.state, e.record),
              staged := if shared then g.staged[q.commandID := |g.replies|] else g.staged)
  }

  ghost function Steps(o: Options, c: Codec, plan: Plan, shared: bool, s: State, qs: seq<Request>): Group
  {
    if qs == [] then Start(s) else Step(o, c, plan, shared, Steps(o, c, plan, shared, s, qs[..|qs| - 1]), qs[|qs| - 1])
  }

  // After the last request: one sync if anything was appended, and a storage failure withdraws
  // every answer that depends on this group's frames.
  function Finish(plan: Plan, g: Group): Group
  {
    if g.failed || (plan.syncFails && g.appended != []) then
      g.(failed := true, replies := seq(|g.replies|, i requires 0 <= i < |g.replies| =>
                                          if i < |g.durable| && g.durable[i] then Errored(Storage) else g.replies[i]))
    else g
  }

  ghost function Commit(o: Options, c: Codec, plan: Plan, s: State, qs: seq<Request>): Group
  {
    Finish(plan, Steps(o, c, plan, |qs| > 1, s, qs))
  }

  // ------------------------------------------------------- a group against single commits

  // The same requests, each committed alone.
  ghost function Alone(o: Options, c: Codec, s: State, qs: seq<Request>): (State, seq<Reply>)
  {
    if qs == [] then (s, [])
    else
      var (mid, replies) := Alone(o, c, s, qs[..|qs| - 1]);
      var last := Commit(o, c, NO_FAULT, mid, [qs[|qs| - 1]]);
      (last.state, replies + last.replies)
  }

  // What the group remembers of its own commands is what the store remembers of them.
  predicate StagedOk(shared: bool, g: Group)
  {
    (!shared ==> g.staged == map[]) && forall id <- g.staged :: StagedIdOk(g, id)
  }

  predicate StagedIdOk(g: Group, id: Bytes)
    requires id in g.staged
  {
    && !Blank(id) && |id| <= MAX_IDENTITY_BYTES
    && g.staged[id] < |g.replies| && g.replies[g.staged[id]].Decided?
    && (id in g.state.dedupe ==> g.replies[g.staged[id]].decision == DecisionOf(g.state.dedupe[id]))
  }

  lemma StepKeepsStaged(o: Options, c: Codec, plan: Plan, shared: bool, g: Group, q: Request)
    requires StagedOk(shared, g)
    ensures StagedOk(shared, Step(o, c, plan, shared, g, q))
    ensures |Step(o, c, plan, shared, g, q).replies| == |g.replies| + 1
  {
    var g' := Step(o, c, plan, shared, g, q);
    forall id <- g'.staged ensures StagedIdOk(g', id) {
      if id in g.staged { assert StagedIdOk(g, id); }
    }
  }

  lemma {:induction false} StepsKeepStaged(o: Options, c: Codec, plan: Plan, shared: bool, s: State, qs: seq<Request>)
    ensures StagedOk(shared, Steps(o, c, plan, shared, s, qs)) && |Steps(o, c, plan, shared, s, qs).replies| == |qs|
  {
    if qs != [] {
      StepsKeepStaged(o, c, plan, shared, s, qs[..|qs| - 1]);
      StepKeepsStaged(o, c, plan, shared, Steps(o, c, plan, shared, s, qs[..|qs| - 1]), qs[|qs| - 1]);
    }
  }

  // A request without a callback that repeats a command this group has already decided.
  predicate EmptyRepeat(g: Group, q: Request)
  {
    q.mutation.None? && !q.cancelled && !g.failed && q.commandID in g.staged && q.commandID in g.state.dedupe
  }

  lemma CommitOne(o: Options, c: Codec, s: State, q: Request)
    ensures Commit(o, c, NO_FAULT, s, [q]) == Step(o, c, NO_FAULT, false, Start(s), q)
  {
    assert [q][..0] == [];
    assert Steps(o, c, NO_FAULT, false, s, []) == Start(s);
  }

  // One more request in a group does what committing it alone does, except that a repeat without
  // a callback is answered as a duplicate instead of being refused.
  lemma StepIsAlone(o: Options, c: Codec, shared: bool, g: Group, q: Request)
    requires StagedOk(shared, g) && !Step(o, c, NO_FAULT, shared, g, q).failed
    ensures var g', one := Step(o, c, NO_FAULT, shared, g, q), Commit(o, c, NO_FAULT, g.state, [q]);
            && |one.replies| == 1 && |g'.replies| == |g.replies| + 1
            && (!EmptyRepeat(g, q) ==> g'.state == one.state && g'.replies == g.replies + one.replies)
            && (EmptyRepeat(g, q) ==> g'.replies[|g.replies|] != one.replies[0])
  {
    CommitOne(o, c, g.state, q);
    if q.commandID in g.staged { assert StagedIdOk(g, q.commandID); }
  }

  ghost predicate RepeatAt(o: Options, c: Codec, shared: bool, s: State, qs: seq<Request>, i: nat)
  {
    i < |qs| && EmptyRepeat(Steps(o, c, NO_FAULT, shared, s, qs[..i]), qs[i])
  }

  ghost predicate NoEmptyRepeatIn(o: Options, c: Codec, shared: bool, s: State, qs: seq<Request>)
  {
    forall i: nat | i < |qs| :: !RepeatAt(o, c, shared, s, qs, i)
  }

  lemma RepeatInPrefix(o: Options, c: Codec, shared: bool, s: State, qs: seq<Request>, n: nat)
    requires n <= |qs|
    ensures forall i: nat | i < n :: RepeatAt(o, c, shared, s, qs[..n], i) == RepeatAt(o, c, shared, s, qs, i)
  {
    forall i: nat | i < n ensures RepeatAt(o, c, shared, s, qs[..n], i) == RepeatAt(o, c, shared, s, qs, i) {
      assert qs[..n][..i] == qs[..i];
    }
  }

  lemma {:induction false} StepsAreAlone(o: Options, c: Codec, shared: bool, s: State, qs: seq<Request>)
    requires !Steps(o, c, NO_FAULT, shared, s, qs).failed && NoEmptyRepeatIn(o, c, shared, s, qs)
    ensures var g := Steps(o, c, NO_FAULT, shared, s, qs); (g.state, g.replies) == Alone(o, c, s, qs)
  {
    if qs != [] {
      var n := |qs| - 1;
      var front, q := qs[..n], qs[n];
      StepsKeepStaged(o, c, NO_FAULT, shared, s, front);
      RepeatInPrefix(o, c, shared, s, qs, n);
      assert !RepeatAt(o, c, shared, s, qs, n);
      StepsAreAlone(o, c, shared, s, front);
      StepIsAlone(o, c, shared, Steps(o, c, NO_FAULT, shared, s, front), q);
    }
  }

  lemma StepExtends(o: Options, c: Codec, plan: Plan, shared: bool, g: Group, q: Request)
    ensures var g' := Step(o, c, plan, shared, g, q); g.replies <= g'.replies && (g.failed ==> g'.failed)
  {}

  // Answers already given stay as they are while the rest of the group is processed.
  lemma {:induction false} RepliesExtend(o: Options, c: Codec, plan: Plan, shared: bool, s: State, qs: seq<Request>,
      n: nat)
    requires n <= |qs|
    ensures Steps(o, c, plan, shared, s, qs[..n]).replies <= Steps(o, c, plan, shared, s, qs).replies
    ensures Steps(o, c, plan, shared, s, qs[..n]).failed ==> Steps(o, c, plan, shared, s, qs).failed
  {
    if n == |qs| {
      assert qs[..n] == qs;
    } else {
      var front := qs[..|qs| - 1];
      RepliesExtend(o, c, plan, shared, s, front, n);
      assert front[..n] == qs[..n];
      StepExtends(o, c, plan, shared, Steps(o, c, plan, shared, s, front), qs[|qs| - 1]);
    }
  }

  lemma {:induction false} AloneExtends(o: Options, c: Codec, s: State, qs: seq<Request>, n: nat)
    requires n <= |qs|
    ensures Alone(o, c, s, qs[..n]).1 <= Alone(o, c, s, qs).1
  {
    if n == |qs| {
      assert qs[..n] == qs;
    } else {
      AloneExtends(o, c, s, qs[..|qs| - 1], n);
      assert qs[..|qs| - 1][..n] == qs[..n];
    }
  }

  lemma RepeatIsLast(o: Options, c: Codec, shared: bool, s: State, qs: seq<Request>, n: nat)
    requires |qs| == n + 1 && !Steps(o, c, NO_FAULT, shared, s, qs).failed
    requires RepeatAt(o, c, shared, s, qs, n) && NoEmptyRepeatIn(o, c, shared, s, qs[..n])
    ensures |Steps(o, c, NO_FAULT, shared, s, qs).replies| == n + 1 == |Alone(o, c, s, qs).1|
    ensures Steps(o, c, NO_FAULT, shared, s, qs).replies[n] != Alone(o, c, s, qs).1[n]
  {
    var front, q := qs[..n], qs[n];
    var g := Steps(o, c, NO_FAULT, shared, s, front);
    StepsKeepStaged(o, c, NO_FAULT, shared, s, front);
    StepExtends(o, c, NO_FAULT, shared, g, q);
    StepsAreAlone(o, c, shared, s, front);
    StepIsAlone(o, c, shared, g, q);
  }

  lemma {:induction false} FirstRepeat(o: Options, c: Codec, shared: bool, s: State, qs: seq<Request>, some: nat)
      returns (i: nat)
    requires RepeatAt(o, c, shared, s, qs, some)
    ensures RepeatAt(o, c, shared, s, qs, i) && NoEmptyRepeatIn(o, c, shared, s, qs[..i])
    decreases some
  {
    if j: nat :| j < some && RepeatAt(o, c, shared, s, qs, j) {
      i := FirstRepeat(o, c, shared, s, qs, j);
    } else {
      i := some;
      RepeatInPrefix(o, c, shared, s, qs, i);
    }
  }

  lemma GroupDiffers(o: Options, c: Codec, shared: bool, s: State, qs: seq<Request>, some: nat)
    requires !Steps(o, c, NO_FAULT, shared, s, qs).failed && RepeatAt(o, c, shared, s, qs, some)
    ensures Steps(o, c, NO_FAULT, shared, s, qs).replies != Alone(o, c, s, qs).1
  {
    var i := FirstRepeat(o, c, shared, s, qs, some);
    RepeatInPrefix(o, c, shared, s, qs, i + 1);
    assert qs[..i + 1][..i] == qs[..i];
    RepliesExtend(o, c, NO_FAULT, shared, s, qs, i + 1);
    RepeatIsLast(o, c, shared, s, qs[..i + 1], i);
    AloneExtends(o, c, s, qs, i + 1);
  }

  // Committed alone after the ones before it, request j is decided and written.
  ghost predicate DecidesAlone(o: Options, c: Codec, s: State, qs: seq<Request>, j: nat)
  {
    j < |qs| && Commit(o, c, NO_FAULT, Alone(o, c, s, qs[..j]).0, [qs[j]]).appended != []
  }

  ghost predicate DecidedBefore(o: Options, c: Codec, s: State, qs: seq<Request>, n: nat, id: Bytes)
  {
    exists j: nat | j < n && j < |qs| :: qs[j].commandID == id && DecidesAlone(o, c, s, qs, j)
  }

  // Request i has no callback and repeats a command that an earlier one of the same group decides, and
  // that is still remembered.
  ghost predicate RepeatsDecided(o: Options, c: Codec, s: State, qs: seq<Request>, i: nat)
  {
    && i < |qs| && qs[i].mutation.None? && !qs[i].cancelled
    && qs[i].commandID in Alone(o, c, s, qs[..i]).0.dedupe && DecidedBefore(o, c, s, qs, i, qs[i].commandID)
  }

  ghost predicate NoneRepeats(o: Options, c: Codec, s: State, qs: seq<Request>, n: nat)
  {
    forall i: nat | i < n :: !RepeatsDecided(o, c, s, qs, i)
  }

  // A request of a group is staged exactly if it is written when it is committed alone.
  lemma StepStages(o: Options, c: Codec, g: Group, q: Request)
    requires StagedOk(true, g) && !g.failed && !Step(o, c, NO_FAULT, true, g, q).failed && !EmptyRepeat(g, q)
    ensures Step(o, c, NO_FAULT, true, g, q).staged.Keys
         == g.staged.Keys + if Commit(o, c, NO_FAULT, g.state, [q]).appended != [] then {q.commandID} else {}
  {
    CommitOne(o, c, g.state, q);
    if q.commandID in g.staged { assert StagedIdOk(g, q.commandID); }
  }

  ghost predicate StagedAre(o: Options, c: Codec, s: State, qs: seq<Request>, n: nat, staged: map<Bytes, nat>)
  {
    forall id :: id in staged <==> DecidedBefore(o, c, s, qs, n, id)
  }

  lemma DecidedOneMore(o: Options, c: Codec, s: State, qs: seq<Request>, n: nat, next: nat, id: Bytes)
    requires n < |qs| && next == n + 1
    ensures DecidedBefore(o, c, s, qs, next, id) <==>
              DecidedBefore(o, c, s, qs, n, id) || (qs[n].commandID == id && DecidesAlone(o, c, s, qs, n))
  {}

  lemma StagedGrow(o: Options, c: Codec, s: State, qs: seq<Request>, n: nat, staged: map<Bytes, nat>,
      staged': map<Bytes, nat>)
    requires n < |qs| && StagedAre(o, c, s, qs, n, staged)
    requires staged'.Keys == staged.Keys + if DecidesAlone(o, c, s, qs, n) then {qs[n].commandID} else {}
    ensures StagedAre(o, c, s, qs, n + 1, staged')
  {
    forall id ensures id in staged' <==> DecidedBefore(o, c, s, qs, n + 1, id) {
      DecidedOneMore(o, c, s, qs, n, n + 1, id);
      assert id in staged <==> DecidedBefore(o, c, s, qs, n, id);
    }
  }

  // Up to the first repeat the group has staged what is decided alone.
  lemma {:induction false} GroupStages(o: Options, c: Codec, s: State, qs: seq<Request>, n: nat)
    requires n <= |qs| && !Steps(o, c, NO_FAULT, true, s, qs[..n]).failed
             && NoEmptyRepeatIn(o, c, true, s, qs[..n])
    ensures StagedAre(o, c, s, qs, n, Steps(o, c, NO_FAULT, true, s, qs[..n]).staged)
    ensures Steps(o, c, NO_FAULT, true, s, qs[..n]).state == Alone(o, c, s, qs[..n]).0
    decreases n
  {
    StepsAreAlone(o, c, true, s, qs[..n]);
    if n == 0 {
      assert qs[..0] == [];
    } else {
      var m := n - 1;
      assert qs[..n][..m] == qs[..m];
      RepliesExtend(o, c, NO_FAULT, true, s, qs[..n], m);
      RepeatInPrefix(o, c, true, s, qs[..n], m);
      GroupStages(o, c, s, qs, m);
      var g := Steps(o, c, NO_FAULT, true, s, qs[..m]);
      StepsKeepStaged(o, c, NO_FAULT, true, s, qs[..m]);
      assert !RepeatAt(o, c, true, s, qs[..n], m);
      StepStages(o, c, g, qs[m]);
      StagedGrow(o, c, s, qs, m, g.staged, Steps(o, c, NO_FAULT, true, s, qs[..n]).staged);
    }
  }

  lemma RepeatsAlike(o: Options, c: Codec, s: State, qs: seq<Request>, m: nat)
    requires m < |qs| && !Steps(o, c, NO_FAULT, true, s, qs).failed && NoEmptyRepeatIn(o, c, true, s, qs[..m])
    ensures RepeatAt(o, c, true, s, qs, m) <==> RepeatsDecided(o, c, s, qs, m)
  {
    RepliesExtend(o, c, NO_FAULT, true, s, qs, m);
    GroupStages(o, c, s, qs, m);
    assert qs[m].commandID in Steps(o, c, NO_FAULT, true, s, qs[..m]).staged <==>
        DecidedBefore(o, c, s, qs, m, qs[m].commandID);
  }

  lemma NoRepeatSnoc(o: Options, c: Codec, s: State, qs: seq<Request>, m: nat, n: nat)
    requires n == m + 1 <= |qs|
    ensures NoEmptyRepeatIn(o, c, true, s, qs[..n]) <==>
              NoEmptyRepeatIn(o, c, true, s, qs[..m]) && !RepeatAt(o, c, true, s, qs, m)
  {
    RepeatInPrefix(o, c, true, s, qs, n);
    RepeatInPrefix(o, c, true, s, qs, m);
  }

  lemma NoneSnoc(o: Options, c: Codec, s: State, qs: seq<Request>, m: nat, n: nat)
    requires n == m + 1
    ensures NoneRepeats(o, c, s, qs, n) <==> NoneRepeats(o, c, s, qs, m) && !RepeatsDecided(o, c, s, qs, m)
  {}

  lemma {:induction false} SameRepeats(o: Options, c: Codec, s: State, qs: seq<Request>, n: nat)
    requires n <= |qs| && !Steps(o, c, NO_FAULT, true, s, qs).failed
    ensures NoEmptyRepeatIn(o, c, true, s, qs[..n]) <==> NoneRepeats(o, c, s, qs, n)
    decreases n
  {
    if n > 0 {
      var m := n - 1;
      SameRepeats(o, c, s, qs, m);
      NoRepeatSnoc(o, c, s, qs, m, n);
      NoneSnoc(o, c, s, qs, m, n);
      if NoEmptyRepeatIn(o, c, true, s, qs[..m]) { RepeatsAlike(o, c, s, qs, m); }
    }
  }

  lemma NothingToRepeat(o: Options, c: Codec, s: State, qs: seq<Request>)
    requires |qs| <= 1
    ensures NoEmptyRepeatIn(o, c, false, s, qs) && NoneRepeats(o, c, s, qs, |qs|)
  {
    forall i: nat | i < |qs| ensures !RepeatAt(o, c, false, s, qs, i) { assert qs[..i] == []; }
  }

  /** Without a storage failure, a group gives every request the answer, and the store the state,
      that committing the requests one at a time in the same order gives - exactly when no request
      without a callback repeats a command that one of the single commits before it decides. */
  lemma GroupEqualsSingles(o: Options, c: Codec, s: State, qs: seq<Request>)
    requires !Commit(o, c, NO_FAULT, s, qs).failed
    ensures var g := Commit(o, c, NO_FAULT, s, qs);
            (g.state, g.replies) == Alone(o, c, s, qs) <==> NoneRepeats(o, c, s, qs, |qs|)
  {
    var shared := |qs| > 1;
    if shared {
      SameRepeats(o, c, s, qs, |qs|);
      assert qs[..|qs|] == qs;
    } else {
      NothingToRepeat(o, c, s, qs);
    }
    if NoEmptyRepeatIn(o, c, shared, s, qs) {
      StepsAreAlone(o, c, shared, s, qs);
    } else {
      var some: nat :| some < |qs| && RepeatAt(o, c, shared, s, qs, some);
      GroupDiffers(o, c, shared, s, qs, some);
    }
  }

  // With a callback on every request the two always agree.
  lemma GroupEqualsSinglesWithCallbacks(o: Options, c: Codec, s: State, qs: seq<Request>)
    requires !Commit(o, c, NO_FAULT, s, qs).failed && forall q <- qs :: q.mutation.Some?
    ensures var g := Commit(o, c, NO_FAULT, s, qs); (g.state, g.replies) == Alone(o, c, s, qs)
  {
    forall i: nat | i < |qs| ensures !RepeatsDecided(o, c, s, qs, i) { assert qs[i] in qs; }
    GroupEqualsSingles(o, c, s, qs);
  }

  lemma FirstOfTwo(o: Options, c: Codec, f: Callback, shared: bool) returns (r: Record, g: Group)
    requires o.Normalized() && c.validJson([48]) && |c.encode(Record(1, [120], true, [], [48], []))| <= MAX_FRAME_BYTES
    requires forall records :: f(records) == Completes([48], [])
    ensures r == Record(1, [120], true, [], [48], [])
    ensures g == Step(o, c, NO_FAULT, shared, Start(EMPTY), Request([120], Some(f), false))
    ensures !g.failed && g.replies == [Decided(DecisionOf(r))] && g.state.dedupe == map[[120 as byte] := r]
    ensures shared ==> g.staged == map[[120 as byte] := 0]
  {
    assert !Blank([120]) by { assert 120 in [120 as byte]; }
    NoWrites(o, c);
    r := Record(1, [120], true, [], [48], []);
    g := Step(o, c, NO_FAULT, shared, Start(EMPTY), Request([120], Some(f), false));
  }

  // A request without a callback that repeats its predecessor shows the difference: the group
  // answers it as a duplicate, alone it is refused.
  lemma EmptyRepeatExample(o: Options, c: Codec, f: Callback)
    requires o.Normalized() && c.validJson([48]) && |c.encode(Record(1, [120], true, [], [48], []))| <= MAX_FRAME_BYTES
    requires forall records :: f(records) == Completes([48], [])
    ensures var qs := [Request([120], Some(f), false), Request([120], None, false)];
            var grouped, alone := Commit(o, c, NO_FAULT, EMPTY, qs).replies, Alone(o, c, EMPTY, qs).1;
            |grouped| == |alone| == 2 && grouped[1].Decided? && alone[1] == Errored(InvalidInput)
  {
    var q0, q1 := Request([120], Some(f), false), Request([120], None, false);
    assert [q0, q1][..1] == [q0] && [q0][..0] == [];
    var r, g := FirstOfTwo(o, c, f, true);
    assert Steps(o, c, NO_FAULT, true, EMPTY, [q0])
        == Step(o, c, NO_FAULT, true, Steps(o, c, NO_FAULT, true, EMPTY, []), q0) == g;
    assert Steps(o, c, NO_FAULT, true, EMPTY, [q0, q1]) == Step(o, c, NO_FAULT, true, g, q1);
    AloneOfTwo(o, c, f);
  }

  lemma AloneOfTwo(o: Options, c: Codec, f: Callback)
    requires o.Normalized() && c.validJson([48]) && |c.encode(Record(1, [120], true, [], [48], []))| <= MAX_FRAME_BYTES
    requires forall records :: f(records) == Completes([48], [])
    ensures var alone := Alone(o, c, EMPTY, [Request([120], Some(f), false), Request([120], None, false)]).1;
            |alone| == 2 && alone[1] == Errored(InvalidInput)
  {
    var q0, q1 := Request([120], Some(f), false), Request([120], None, false);
    assert [q0, q1][..1] == [q0] && [q0][..0] == [];
    var r, g := FirstOfTwo(o, c, f, false);
    CommitOne(o, c, EMPTY, q0);
    assert Alone(o, c, EMPTY, [q0]) == (g.state, [] + g.replies);
    CommitOne(o, c, g.state, q1);
    assert !Blank([120]) by { assert 120 in [120 as byte]; }
  }

  lemma NoWrites(o: Options, c: Codec)
    ensures MutationsOf(WritesOf(o, c, [])) == []
  {
    var none: Writes := WritesOf(o, c, []);
    assert none.Keys == {};
    var q := Sorted(none.Keys);
    assert Elements<Bytes>([]) == {};
    AscendingUnique([], q);
  }
}
