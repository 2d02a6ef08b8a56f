/** When a batch does what its commands submitted one at a time do. */
module AccountSerial {
  import opened Bytes
  import opened Accounts
  import opened AccountEngine
  import opened AccountDedupe
  import opened AccountBatches
  import opened AccountInvariants

  // ------------------------------------------------------- one command, one at a time

  ghost predicate Recalls(e: Engine, st: Staging, now: Engine)
  {
    forall id <- now.results :: Known(e, st, id) && now.results[id].(duplicate := true) == Recall(e, st, id)
  }

  // Accounts that the batch has touched without registering them.
  predicate Adrift(st: Staging, now: Engine, id: AccountID)
  {
    id !in st.slots && id in now.slots
  }

  lemma SingleBatch(window: nat, now: Engine, c: Command) returns (one: Outcome)
    requires EngineOk(now) && ValidCommand(c)
    ensures one == Batch(window, now, [c])
    ensures c.id in now.results ==> one == Outcome(now, [now.results[c.id].(duplicate := true)])
    ensures c.id !in now.results ==>
              var r := Decided(now, Begin(now), c); one == Outcome(Apply(window, now, r), [ResultOf(r)])
  {
    assert [c][..0] == [];
    assert StageAll(now, [c]) == Stage(now, Begin(now), c);
    BatchIsItsReplay(window, now, [c]);
    one := Batch(window, now, [c]);
    if c.id !in now.results {
      var r := Decided(now, Begin(now), c);
      assert StageAll(now, [c]).records == [r];
      assert [r][..0] == [];
    }
  }

  lemma LooksAlike(e: Engine, st: Staging, now: Engine, c: Command, id: AccountID)
    requires Tracks(e, st, now) && c.account != 0
    ensures var a, b := AccountFor(Registered(st.slots, c), st.overlay, id),
            AccountFor(Registered(now.slots, c), map[], id);
            a.balance == b.balance && a.status == b.status && a.version == b.version
    ensures Exists(Registered(st.slots, c), st.overlay, id) == Exists(Registered(now.slots, c), map[], id)
  {
    if id in st.slots { assert ShowsAt(st.slots, st.overlay, now.slots, id); }
  }

  // Against the overlay and against the replayed engine a command is decided alike, up to what
  // its agent remembers.
  lemma DecidedAlike(e: Engine, st: Staging, now: Engine, c: Command)
    requires Tracks(e, st, now) && ValidCommand(c)
    ensures !Adrift(st, now, c.account) ==> Decided(now, Begin(now), c) == Decided(e, st, c)
    ensures Adrift(st, now, c.account) ==>
              Decided(now, Begin(now), c).turns == now.slots[c.account].agent.turns + 1 && Decided(e, st, c).turns == 1
  {
    var x, y := Registered(st.slots, c), Registered(now.slots, c);
    LooksAlike(e, st, now, c, c.account);
    LooksAlike(e, st, now, c, c.other);
    RecordAlike(c, now.sequence + 1, AccountFor(x, st.overlay, c.account), AccountFor(y, map[], c.account),
        Exists(y, map[], c.account),
                AccountFor(x, st.overlay, c.other), AccountFor(y, map[], c.other), Exists(y, map[], c.other),
                    AgentFor(x, c.account), AgentFor(y, c.account));
  }

  lemma RecordAlike(c: Command, sequence: nat, a: Account, a': Account, aok: bool, b: Account, b': Account, bok: bool,
      agent: Agent, agent': Agent)
    requires a.balance == a'.balance && a.status == a'.status && a.version == a'.version
    requires b.balance == b'.balance && b.status == b'.status && b.version == b'.version
    ensures agent == agent' ==>
              RecordOf(c, sequence, a, aok, b, bok, agent) == RecordOf(c, sequence, a', aok, b', bok, agent')
    ensures RecordOf(c, sequence, a, aok, b, bok, agent).turns == agent.turns + 1
    ensures RecordOf(c, sequence, a', aok, b', bok, agent').turns == agent'.turns + 1
  {}

  lemma StageOrSingle(window: nat, e: Engine, st: Staging, now: Engine, c: Command)
    requires EngineOk(now) && Tracks(e, st, now) && Recalls(e, st, now) && ValidCommand(c)
    requires Adrift(st, now, c.account) ==> now.slots[c.account].agent.turns > 0
    ensures var st', one := Stage(e, st, c), Batch(window, now, [c]);
            && |one.replies| == 1 && |st'.replies| == |st.replies| + 1 && st.replies <= st'.replies
            && (Known(e, st, c.id) && c.id in now.results ==> st'.records == st.records && one.engine == now)
            && (!Known(e, st, c.id) && !Adrift(st, now, c.account) ==>
                st'.records == st.records + [Decided(e, st, c)] && one.engine == Apply(window, now, Decided(e, st, c)))
            && (one.replies[0] == st'.replies[|st.replies|] <==>
                if Known(e, st, c.id) then c.id in now.results else !Adrift(st, now, c.account))
  {
    var one := SingleBatch(window, now, c);
    DecidedAlike(e, st, now, c);
  }

  lemma FreshRecalls(window: nat, e: Engine, st: Staging, now: Engine, c: Command)
    requires Tracks(e, st, now) && Recalls(e, st, now) && !Known(e, st, c.id)
    ensures Recalls(e, StageFresh(e, st, c), Apply(window, now, Decided(e, st, c)))
  {
    var st' := StageFresh(e, st, c);
    assert forall id <- now.results :: Known(e, st, id) && Known(e, st', id) && Recall(e, st', id) == Recall(e, st, id);
  }

  // Whatever a batch registers or touches has taken a turn.
  ghost predicate Turned(start: Slots, slots: Slots)
  {
    forall id <- slots :: id in start || slots[id].agent.turns > 0
  }

  lemma {:induction false} StagedRecalls(window: nat, e: Engine, cs: seq<Command>)
    requires window > 0 && Good(window, e) && forall c <- cs :: ValidCommand(c)
    ensures var now := ApplyAll(window, e, StageAll(e, cs).records);
              Recalls(e, StageAll(e, cs), now) && Turned(e.slots, now.slots)
  {
    if cs != [] {
      var front, c := cs[..|cs| - 1], cs[|cs| - 1];
      StagedRecalls(window, e, front);
      BatchGood(window, e, front);
      BatchReplays(window, e, front);
      var st := StageAll(e, front);
      var now := ApplyAll(window, e, st.records);
      assert ValidCommand(c) by { assert c in cs; }
      if Known(e, st, c.id) {
        KnownRecalls(e, st, now, c);
      } else {
        var r := Decided(e, st, c);
        FreshRecalls(window, e, st, now, c);
        FreshTurned(e, st, now, c);
        assert (st.records + [r])[..|st.records|] == st.records;
      }
    }
  }

  lemma FreshTurned(e: Engine, st: Staging, now: Engine, c: Command)
    requires Tracks(e, st, now) && ValidCommand(c) && SlotsOk(now.slots) && Turned(e.slots, now.slots)
    ensures Turned(e.slots, ApplySlots(now.slots, Decided(e, st, c)))
  {
    FreshSlotsOk(e, st, now, c);
    ApplyAgents(now.slots, Decided(e, st, c));
  }

  lemma KnownRecalls(e: Engine, st: Staging, now: Engine, c: Command)
    requires Recalls(e, st, now) && Known(e, st, c.id)
    ensures Recalls(e, Stage(e, st, c), now)
  {
    assert forall id <- now.results :: Known(e, st, id) && Recall(e, Stage(e, st, c), id) == Recall(e, st, id);
  }

  // ------------------------------------------------------------------ whole batches

  // At its turn, a command's identity is known to the batch but forgotten by the engine, or its
  // account has been touched by the batch without being registered.
  ghost predicate Diverges(window: nat, e: Engine, cs: seq<Command>, k: nat)
  {
    k < |cs| &&
    var st := StageAll(e, cs[..k]);
    var now := ApplyAll(window, e, st.records);
    if Known(e, st, cs[k].id) then cs[k].id !in now.results else Adrift(st, now, cs[k].account)
  }

  lemma AtTurn(window: nat, e: Engine, cs: seq<Command>, now: Engine) returns (one: Outcome)
    requires window > 0 && Good(window, e) && cs != [] && forall c <- cs :: ValidCommand(c)
    requires now == ApplyAll(window, e, StageAll(e, cs[..|cs| - 1]).records)
    ensures one == Batch(window, now, [cs[|cs| - 1]]) && |one.replies| == 1
    ensures var st, st' := StageAll(e, cs[..|cs| - 1]), StageAll(e, cs);
            && |st'.replies| == |st.replies| + 1 && st.replies <= st'.replies
            && (one.replies[0] == st'.replies[|st.replies|] <==> !Diverges(window, e, cs, |cs| - 1))
            && (!Diverges(window, e, cs, |cs| - 1) ==>
                one.engine == ApplyAll(window, e, st'.records) && st.replies + one.replies == st'.replies)
  {
    var n := |cs| - 1;
    var st, c := StageAll(e, cs[..n]), cs[n];
    assert ValidCommand(c) by { assert c in cs; }
    BeforeTurn(window, e, cs[..n], c);
    StageOrSingle(window, e, st, now, c);
    one := Batch(window, now, [c]);
    RecordsSnoc(window, e, st.records, Decided(e, st, c));
    if !Diverges(window, e, cs, n) { OneMore(st.replies, one.replies, StageAll(e, cs).replies); }
  }

  lemma BeforeTurn(window: nat, e: Engine, cs: seq<Command>, c: Command)
    requires window > 0 && Good(window, e) && forall c <- cs :: ValidCommand(c)
    ensures var st := StageAll(e, cs);
            var now := ApplyAll(window, e, st.records);
            && EngineOk(now) && Tracks(e, st, now) && Recalls(e, st, now)
            && (Adrift(st, now, c.account) ==> now.slots[c.account].agent.turns > 0)
  {
    BatchGood(window, e, cs);
    BatchReplays(window, e, cs);
    StagedRecalls(window, e, cs);
    StagedAhead(window, e, cs);
    NoAccountZero(ApplyAll(window, e, StageAll(e, cs).records).slots);
  }

  lemma RecordsSnoc(window: nat, e: Engine, rs: seq<Record>, r: Record)
    ensures ApplyAll(window, e, rs + [r]) == Apply(window, ApplyAll(window, e, rs), r)
  {
    assert (rs + [r])[..|rs|] == rs;
  }

  lemma OneMore<T>(a: seq<T>, one: seq<T>, b: seq<T>)
    requires |one| == 1 && |b| == |a| + 1 && a <= b && one[0] == b[|a|]
    ensures a + one == b
  {}

  ghost predicate Steady(window: nat, e: Engine, cs: seq<Command>)
  {
    forall k: nat | k < |cs| :: !Diverges(window, e, cs, k)
  }

  lemma DivergesInPrefix(window: nat, e: Engine, cs: seq<Command>, n: nat, k: nat)
    requires k < n <= |cs|
    ensures Diverges(window, e, cs[..n], k) == Diverges(window, e, cs, k)
  {
    assert cs[..n][..k] == cs[..k];
  }

  lemma SteadyPrefix(window: nat, e: Engine, cs: seq<Command>, n: nat)
    requires n <= |cs| && forall k: nat | k < n :: !Diverges(window, e, cs, k)
    ensures Steady(window, e, cs[..n])
  {
    forall k: nat | k < n ensures !Diverges(window, e, cs[..n], k) { DivergesInPrefix(window, e, cs, n, k); }
  }

  lemma SerialOneMore(window: nat, e: Engine, cs: seq<Command>, mid: Outcome, one: Outcome)
    requires cs != [] && mid == Serial(window, e, cs[..|cs| - 1]) && one == Batch(window, mid.engine, [cs[|cs| - 1]])
    ensures Serial(window, e, cs) == Outcome(one.engine, mid.replies + one.replies)
  {}

  lemma {:induction false} SerialAgrees(window: nat, e: Engine, cs: seq<Command>) returns (serial: Outcome)
    requires window > 0 && Good(window, e) && (forall c <- cs :: ValidCommand(c)) && Steady(window, e, cs)
    ensures serial == Serial(window, e, cs)
    ensures serial == Outcome(ApplyAll(window, e, StageAll(e, cs).records), StageAll(e, cs).replies)
  {
    if cs == [] {
      serial := Serial(window, e, cs);
    } else {
      var n := |cs| - 1;
      SteadyPrefix(window, e, cs, n);
      var mid := SerialAgrees(window, e, cs[..n]);
      assert !Diverges(window, e, cs, n);
      var one := AtTurn(window, e, cs, mid.engine);
      SerialOneMore(window, e, cs, mid, one);
      serial := Outcome(one.engine, mid.replies + one.replies);
      assert serial.replies == StageAll(e, cs).replies;
    }
  }

  lemma {:induction false} StageExtends(e: Engine, cs: seq<Command>, n: nat)
    requires n <= |cs|
    ensures StageAll(e, cs[..n]).replies <= StageAll(e, cs).replies && |StageAll(e, cs).replies| == |cs|
  {
    if cs == [] {
    } else if n == |cs| {
      assert cs[..n] == cs;
      StageExtends(e, cs[..|cs| - 1], 0);
    } else {
      StageExtends(e, cs[..|cs| - 1], n);
      assert cs[..|cs| - 1][..n] == cs[..n];
    }
  }

  lemma {:induction false} SerialExtends(window: nat, e: Engine, cs: seq<Command>, n: nat)
    requires n <= |cs|
    ensures Serial(window, e, cs[..n]).replies <= Serial(window, e, cs).replies
  {
    if n == |cs| {
      assert cs[..n] == cs;
    } else {
      SerialExtends(window, e, cs[..|cs| - 1], n);
      assert cs[..|cs| - 1][..n] == cs[..n];
    }
  }

  lemma FirstDivergence(window: nat, e: Engine, cs: seq<Command>, some: nat) returns (k: nat)
    requires Diverges(window, e, cs, some)
    ensures Diverges(window, e, cs, k) && forall j: nat | j < k :: !Diverges(window, e, cs, j)
    decreases some
  {
    if j: nat :| j < some && Diverges(window, e, cs, j) {
      k := FirstDivergence(window, e, cs, j);
    } else {
      k := some;
    }
  }

  lemma LastDiverges(window: nat, e: Engine, cs: seq<Command>, n: nat)
    requires window > 0 && Good(window, e) && |cs| == n + 1 && forall c <- cs :: ValidCommand(c)
    requires Steady(window, e, cs[..n]) && Diverges(window, e, cs, n)
    ensures |Serial(window, e, cs).replies| == n + 1 == |StageAll(e, cs).replies|
    ensures Serial(window, e, cs).replies[n] != StageAll(e, cs).replies[n]
  {
    var mid := SerialAgrees(window, e, cs[..n]);
    var one := AtTurn(window, e, cs, mid.engine);
    SerialOneMore(window, e, cs, mid, one);
    StageExtends(e, cs[..n], 0);
  }

  // The first divergence already shows in the answers.
  lemma DivergenceShows(window: nat, e: Engine, cs: seq<Command>, some: nat)
    requires window > 0 && Good(window, e) && (forall c <- cs :: ValidCommand(c)) && Diverges(window, e, cs, some)
    ensures Serial(window, e, cs).replies != StageAll(e, cs).replies
  {
    var k := FirstDivergence(window, e, cs, some);
    SteadyPrefix(window, e, cs, k);
    assert cs[..k + 1][..k] == cs[..k];
    DivergesInPrefix(window, e, cs, k + 1, k);
    LastDiverges(window, e, cs[..k + 1], k);
    StageExtends(e, cs, k + 1);
    SerialExtends(window, e, cs, k + 1);
  }

  lemma AgreesUnlessDiverges(window: nat, e: Engine, cs: seq<Command>)
    requires window > 0 && Good(window, e) && forall c <- cs :: ValidCommand(c)
    ensures Batch(window, e, cs) == Serial(window, e, cs) <==> Steady(window, e, cs)
  {
    BatchGood(window, e, cs);
    BatchIsItsReplay(window, e, cs);
    if Steady(window, e, cs) {
      var serial := SerialAgrees(window, e, cs);
    } else {
      var some: nat :| some < |cs| && Diverges(window, e, cs, some);
      DivergenceShows(window, e, cs, some);
    }
  }

  // ------------------------------------------------------- the condition, up front

  // Command `k` is the first with its identity, which the engine does not remember.
  predicate FreshAt(e: Engine, cs: seq<Command>, k: nat)
    requires k < |cs|
  {
    cs[k].id !in e.results && forall j | 0 <= j < k :: cs[j].id != cs[k].id
  }

  // A fresh Create of the account comes at or before `k`.
  predicate CreatedBy(e: Engine, cs: seq<Command>, k: nat, id: AccountID)
    requires k <= |cs|
  {
    exists j: nat | j < k :: FreshAt(e, cs, j) && cs[j].kind == CREATE && cs[j].account == id
  }

  // A fresh command about an account that is not registered at its turn.
  predicate Loose(e: Engine, cs: seq<Command>, k: nat)
    requires k < |cs|
  {
    FreshAt(e, cs, k) && cs[k].account !in e.slots && !CreatedBy(e, cs, k + 1, cs[k].account)
  }

  // No fresh command follows a loose one on the same account.
  ghost predicate RegisteredFirst(e: Engine, cs: seq<Command>)
  {
    forall j: nat, k: nat | j < k < |cs| :: Loose(e, cs, j) && FreshAt(e, cs, k) ==> cs[j].account != cs[k].account
  }

  function FreshIds(e: Engine, cs: seq<Command>): seq<Bytes>
  {
    if cs == [] then []
    else FreshIds(e, cs[..|cs| - 1]) + if FreshAt(e, cs, |cs| - 1) then [cs[|cs| - 1].id] else []
  }

  // Every repeated command is still among the last `window` when its turn comes.
  ghost predicate NothingForgotten(window: nat, e: Engine, cs: seq<Command>)
  {
    forall k: nat | k < |cs| :: FreshAt(e, cs, k) || cs[k].id in LastN(window, e.order + FreshIds(e, cs[..k]))
  }

  predicate TouchedBy(e: Engine, cs: seq<Command>, k: nat, id: AccountID)
    requires k <= |cs|
  {
    exists j: nat | j < k :: FreshAt(e, cs, j) && cs[j].account == id
  }

  lemma FreshInPrefix(e: Engine, cs: seq<Command>, n: nat, k: nat)
    requires k < n <= |cs|
    ensures FreshAt(e, cs[..n], k) == FreshAt(e, cs, k)
  {
    assert forall j | 0 <= j < k :: cs[..n][j] == cs[j];
  }

  lemma {:induction false} KnownIff(e: Engine, cs: seq<Command>, id: Bytes)
    ensures var st := StageAll(e, cs);
            && |st.replies| == |cs| && (id in st.seen ==> st.seen[id] < |cs|)
            && (Known(e, st, id) <==> id in e.results || exists j | 0 <= j < |cs| :: cs[j].id == id)
  {
    if cs != [] {
      var n := |cs| - 1;
      KnownIff(e, cs[..n], id);
      KnownIff(e, cs[..n], cs[n].id);
      assert forall j | 0 <= j < n :: cs[..n][j] == cs[j];
      if cs[n].id == id { assert cs[n].id == id; }
    }
  }

  lemma KnownAtTurn(e: Engine, cs: seq<Command>, k: nat)
    requires k < |cs|
    ensures Known(e, StageAll(e, cs[..k]), cs[k].id) <==> !FreshAt(e, cs, k)
  {
    KnownIff(e, cs[..k], cs[k].id);
    assert forall j | 0 <= j < k :: cs[..k][j] == cs[j];
  }

  lemma OneMoreCommand(e: Engine, cs: seq<Command>, n: nat, id: AccountID)
    requires |cs| == n + 1
    ensures CreatedBy(e, cs, n + 1, id) <==>
              CreatedBy(e, cs, n, id) || (FreshAt(e, cs, n) && cs[n].kind == CREATE && cs[n].account == id)
    ensures TouchedBy(e, cs, n + 1, id) <==> TouchedBy(e, cs, n, id) || (FreshAt(e, cs, n) && cs[n].account == id)
  {}

  // Which accounts a batch has registered and which it has touched.
  lemma {:induction false} SlotsIff(window: nat, e: Engine, cs: seq<Command>, id: AccountID)
    ensures id in StageAll(e, cs).slots <==> id in e.slots || CreatedBy(e, cs, |cs|, id)
    ensures id in ApplyAll(window, e, StageAll(e, cs).records).slots <==> id in e.slots || TouchedBy(e, cs, |cs|, id)
  {
    if cs != [] {
      var n := |cs| - 1;
      SlotsIff(window, e, cs[..n], id);
      KnownAtTurn(e, cs, n);
      SamePrefix(e, cs, n, id);
      OneMoreCommand(e, cs, n, id);
      var st := StageAll(e, cs[..n]);
      if FreshAt(e, cs, n) {
        var r := Decided(e, st, cs[n]);
        ApplyAgents(ApplyAll(window, e, st.records).slots, r);
        assert (st.records + [r])[..|st.records|] == st.records;
      }
    }
  }

  lemma {:induction false} IdsAreFresh(e: Engine, cs: seq<Command>)
    ensures Ids(StageAll(e, cs).records) == FreshIds(e, cs)
  {
    if cs != [] {
      var n := |cs| - 1;
      IdsAreFresh(e, cs[..n]);
      KnownAtTurn(e, cs, n);
    }
  }

  lemma DivergesIff(window: nat, e: Engine, cs: seq<Command>, k: nat)
    requires window > 0 && Good(window, e) && k < |cs| && forall c <- cs :: ValidCommand(c)
    ensures Diverges(window, e, cs, k) <==>
              if FreshAt(e, cs, k)
              then cs[k].account !in e.slots && !CreatedBy(e, cs, k, cs[k].account)
                  && TouchedBy(e, cs, k, cs[k].account)
              else cs[k].id !in LastN(window, e.order + FreshIds(e, cs[..k]))
  {
    var front, id := cs[..k], cs[k].account;
    KnownAtTurn(e, cs, k);
    SlotsIff(window, e, front, id);
    assert cs[..k + 1][..k] == front && forall j: nat | j < k :: cs[..k + 1][j] == cs[j];
    SamePrefix(e, cs, k, id);
    IdsAreFresh(e, front);
    OrderAfter(window, e, StageAll(e, front).records);
    BatchGood(window, e, front);
  }

  lemma SamePrefix(e: Engine, cs: seq<Command>, k: nat, id: AccountID)
    requires k <= |cs|
    ensures CreatedBy(e, cs, k, id) == CreatedBy(e, cs[..k], k, id)
    ensures TouchedBy(e, cs, k, id) == TouchedBy(e, cs[..k], k, id)
  {
    forall j: nat | j < k ensures FreshAt(e, cs[..k], j) == FreshAt(e, cs, j)
        && cs[..k][j] == cs[j] { FreshInPrefix(e, cs, k, j); }
  }

  // Following a loose command comes to the same as a first divergence over accounts.
  lemma LooseDiverges(e: Engine, cs: seq<Command>, j: nat, k: nat) returns (i: nat)
    requires j < k < |cs| && Loose(e, cs, j) && FreshAt(e, cs, k) && cs[j].account == cs[k].account
    ensures i < |cs| && FreshAt(e, cs, i)
    ensures cs[i].account !in e.slots && !CreatedBy(e, cs, i, cs[i].account) && TouchedBy(e, cs, i, cs[i].account)
    decreases k
  {
    var id := cs[k].account;
    if CreatedBy(e, cs, k, id) {
      var m: nat :| m < k && FreshAt(e, cs, m) && cs[m].kind == CREATE && cs[m].account == id;
      assert m > j;
      i := LooseDiverges(e, cs, j, m);
    } else {
      i := k;
    }
  }

  lemma DivergesIsLoose(e: Engine, cs: seq<Command>, k: nat)
    requires k < |cs| && FreshAt(e, cs, k) && cs[k].account !in e.slots
    requires !CreatedBy(e, cs, k, cs[k].account) && TouchedBy(e, cs, k, cs[k].account)
    ensures !RegisteredFirst(e, cs)
  {
    var id := cs[k].account;
    var j: nat :| j < k && FreshAt(e, cs, j) && cs[j].account == id;
    assert !CreatedBy(e, cs, j + 1, id);
    assert Loose(e, cs, j);
  }

  lemma SteadyIff(window: nat, e: Engine, cs: seq<Command>)
    requires window > 0 && Good(window, e) && forall c <- cs :: ValidCommand(c)
    ensures Steady(window, e, cs) <==> RegisteredFirst(e, cs) && NothingForgotten(window, e, cs)
  {
    forall k: nat | k < |cs| ensures Diverges(window, e, cs, k) <==>
        if FreshAt(e, cs, k)
        then cs[k].account !in e.slots && !CreatedBy(e, cs, k, cs[k].account) && TouchedBy(e, cs, k, cs[k].account)
        else cs[k].id !in LastN(window, e.order + FreshIds(e, cs[..k]))
    {
      DivergesIff(window, e, cs, k);
    }
    if Steady(window, e, cs) {
      forall j: nat, k: nat | j < k < |cs| && Loose(e, cs, j)
          && FreshAt(e, cs, k) ensures cs[j].account != cs[k].account {
        if cs[j].account == cs[k].account {
          var i := LooseDiverges(e, cs, j, k);
          assert false;
        }
      }
    } else if RegisteredFirst(e, cs) {
      var k: nat :| k < |cs| && Diverges(window, e, cs, k);
      if FreshAt(e, cs, k) { DivergesIsLoose(e, cs, k); }
    }
  }

  // A batch gives the answers and the state that its commands give one at a time - exactly when no
  // fresh command follows, on the same account, one whose account was not registered at its turn,
  // and no repeated command has dropped out of the dedupe window by its turn.
  lemma BatchEqualsSerial(window: nat, e: Engine, cs: seq<Command>)
    requires window > 0 && Good(window, e) && forall c <- cs :: ValidCommand(c)
    ensures Batch(window, e, cs) == Serial(window, e, cs) <==> RegisteredFirst(e, cs) && NothingForgotten(window, e, cs)
  {
    AgreesUnlessDiverges(window, e, cs);
    SteadyIff(window, e, cs);
  }

  lemma {:induction false} SubsetSize<T>(a: set<T>, b: set<T>)
    requires a <= b
    ensures |a| <= |b|
  {
    if a != {} {
      var x :| x in a;
      SubsetSize(a - {x}, b - {x});
    }
  }

  // The registered accounts of `slots` and whatever `c` creates fit where the batch fits.
  lemma StillAdmitted(cfg: Config, e: Engine, slots: Slots, cs: seq<Command>, c: Command)
    requires |e.slots| + |NewAccounts(e.slots, cs)| <= cfg.maxAccounts && c in cs
    requires slots.Keys <= e.slots.Keys + NewAccounts(e.slots, cs) && e.slots.Keys <= slots.Keys
    ensures |slots| + |NewAccounts(slots, [c])| <= cfg.maxAccounts
  {
    var all, created := e.slots.Keys + NewAccounts(e.slots, cs), NewAccounts(slots, [c]);
    assert created <= NewAccounts(e.slots, cs) by { assert forall x <- [c] :: x == c; }
    SubsetSize(slots.Keys + created, all);
    assert e.slots.Keys !! NewAccounts(e.slots, cs) && slots.Keys !! created;
    assert |slots.Keys + created| == |slots.Keys| + |created| && |all| == |e.slots.Keys| + |NewAccounts(e.slots, cs)|;
  }

  // With every account registered by its turn, room in the dedupe window and the batch admitted,
  // each single submission is admitted too, and together they do what the batch does.
  lemma RegisteredBatchIsSerial(cfg: Config, e: Engine, cs: seq<Command>)
    requires cfg.window > 0 && Good(cfg.window, e) && Admitted(cfg, e, cs)
    requires |e.order| + |cs| <= cfg.window && forall k: nat | k < |cs| :: !Loose(e, cs, k)
    ensures Batch(cfg.window, e, cs) == Serial(cfg.window, e, cs)
    ensures forall k: nat | k < |cs| :: Admitted(cfg, Serial(cfg.window, e, cs[..k]).engine, [cs[k]])
  {
    RoomMeansRemembered(cfg.window, e, cs);
    BatchEqualsSerial(cfg.window, e, cs);
    SteadyIff(cfg.window, e, cs);
    forall k: nat | k < |cs| ensures Admitted(cfg, Serial(cfg.window, e, cs[..k]).engine, [cs[k]]) {
      SteadyPrefix(cfg.window, e, cs, k);
      var serial := SerialAgrees(cfg.window, e, cs[..k]);
      PrefixSlots(cfg.window, e, cs, k);
      assert cs[k] in cs;
      StillAdmitted(cfg, e, serial.engine.slots, cs, cs[k]);
    }
  }

  lemma PrefixSlots(window: nat, e: Engine, cs: seq<Command>, k: nat)
    requires k <= |cs| && forall j: nat | j < |cs| :: !Loose(e, cs, j)
    ensures var slots := ApplyAll(window, e, StageAll(e, cs[..k]).records).slots;
            e.slots.Keys <= slots.Keys <= e.slots.Keys + NewAccounts(e.slots, cs)
  {
    var slots := ApplyAll(window, e, StageAll(e, cs[..k]).records).slots;
    forall id | id in e.slots ensures id in slots { SlotsIff(window, e, cs[..k], id); }
    forall id | id in slots && id !in e.slots ensures id in NewAccounts(e.slots, cs) {
      SlotsIff(window, e, cs[..k], id);
      SamePrefix(e, cs, k, id);
      var j: nat :| j < k && FreshAt(e, cs, j) && cs[j].account == id;
      assert !Loose(e, cs, j);
      var m: nat :| m < j + 1 && FreshAt(e, cs, m) && cs[m].kind == CREATE && cs[m].account == id;
      assert cs[m] in cs;
    }
  }

  lemma {:induction false} FreshIdsHold(e: Engine, cs: seq<Command>)
    ensures |FreshIds(e, cs)| <= |cs| && forall j | 0 <= j < |cs| ::
              cs[j].id in e.results || cs[j].id in FreshIds(e, cs)
  {
    if cs != [] {
      FreshIdsHold(e, cs[..|cs| - 1]);
      assert forall j | 0 <= j < |cs| - 1 :: cs[..|cs| - 1][j] == cs[j];
    }
  }

  lemma RoomMeansRemembered(window: nat, e: Engine, cs: seq<Command>)
    requires Remembers(window, e) && |e.order| + |cs| <= window
    ensures NothingForgotten(window, e, cs)
  {
    forall k: nat | k < |cs| && !FreshAt(e, cs, k) ensures cs[k].id in LastN(window, e.order + FreshIds(e, cs[..k])) {
      FreshIdsHold(e, cs[..k]);
      assert forall j | 0 <= j < k :: cs[..k][j] == cs[j];
    }
  }

  // Two deposits to an account nobody created: in one batch each is its account's first turn, one
  // at a time the second is the second turn.
  lemma LooseExample(window: nat, x: Bytes, y: Bytes)
    requires window > 1 && x != [] && y != [] && x != y
    ensures var cs := [Command(x, DEPOSIT, 2, 0, 5), Command(y, DEPOSIT, 2, 0, 5)];
            var batch, serial := Batch(window, EMPTY, cs).replies, Serial(window, EMPTY, cs).replies;
            |batch| == |serial| == 2 && batch[1].turns == 1 && serial[1].turns == 2
  {
    LooseInBatch(x, y);
    LooseOneAtATime(window, x, y);
  }

  lemma LooseInBatch(x: Bytes, y: Bytes)
    requires x != y
    ensures var st := StageAll(EMPTY, [Command(x, DEPOSIT, 2, 0, 5), Command(y, DEPOSIT, 2, 0, 5)]);
            |st.replies| == 2 && st.replies[1].turns == 1
  {
    var c, d := Command(x, DEPOSIT, 2, 0, 5), Command(y, DEPOSIT, 2, 0, 5);
    assert [c, d][..1] == [c] && [c][..0] == [];
    var first := StageAll(EMPTY, [c]);
    assert first == Stage(EMPTY, StageAll(EMPTY, []), c);
    assert StageAll(EMPTY, [c, d]) == Stage(EMPTY, first, d);
  }

  lemma LooseOneAtATime(window: nat, x: Bytes, y: Bytes)
    requires window > 1 && x != [] && y != [] && x != y
    ensures var serial := Serial(window, EMPTY, [Command(x, DEPOSIT, 2, 0, 5), Command(y, DEPOSIT, 2, 0, 5)]).replies;
            |serial| == 2 && serial[1].turns == 2
  {
    var c, d := Command(x, DEPOSIT, 2, 0, 5), Command(y, DEPOSIT, 2, 0, 5);
    assert [c, d][..1] == [c] && [c][..0] == [];
    var one := SingleBatch(window, EMPTY, c);
    SerialOneMore(window, EMPTY, [c], Serial(window, EMPTY, []), one);
    assert one.engine.slots[2].agent.turns == 1 && y !in one.engine.results;
    var two := SingleBatch(window, one.engine, d);
    assert two.replies[0].turns == 2;
    SerialOneMore(window, EMPTY, [c, d], Outcome(one.engine, [] + one.replies), two);
  }

  // ------------------------------------------------------------------ the account bound

  function FreshAccounts(e: Engine, cs: seq<Command>): set<AccountID>
  {
    set k: nat | k < |cs| && FreshAt(e, cs, k) :: cs[k].account
  }

  // A batch registers the account of every fresh command, created or not.
  lemma AccountsAfter(window: nat, e: Engine, cs: seq<Command>)
    requires window > 0 && Good(window, e) && forall c <- cs :: ValidCommand(c)
    ensures Batch(window, e, cs).engine.slots.Keys == e.slots.Keys + FreshAccounts(e, cs)
  {
    BatchGood(window, e, cs);
    BatchIsItsReplay(window, e, cs);
    forall id: AccountID ensures id in Batch(window, e, cs).engine.slots <==>
          id in e.slots || id in FreshAccounts(e, cs) {
      SlotsIff(window, e, cs, id);
    }
  }

  // Admission counts only the accounts that Creates register. The bound it checks is kept exactly
  // when the accounts of the other fresh commands fit as well - as they do if all are registered.
  lemma BoundKept(cfg: Config, e: Engine, cs: seq<Command>)
    requires cfg.window > 0 && Good(cfg.window, e) && Admitted(cfg, e, cs)
    ensures |Batch(cfg.window, e, cs).engine.slots| <= cfg.maxAccounts <==>
              |e.slots.Keys + FreshAccounts(e, cs)| <= cfg.maxAccounts
    ensures (forall k: nat | k < |cs| :: !Loose(e, cs, k)) ==>
              |Batch(cfg.window, e, cs).engine.slots| <= cfg.maxAccounts
  {
    var slots := Batch(cfg.window, e, cs).engine.slots;
    AccountsAfter(cfg.window, e, cs);
    assert |slots| == |slots.Keys|;
    if forall k: nat | k < |cs| :: !Loose(e, cs, k) {
      PrefixSlots(cfg.window, e, cs, |cs|);
      assert cs[..|cs|] == cs;
      BatchGood(cfg.window, e, cs);
      BatchIsItsReplay(cfg.window, e, cs);
      SubsetSize(slots.Keys, e.slots.Keys + NewAccounts(e.slots, cs));
    }
  }

  lemma ColdStart(cfg: Config, x: Bytes) returns (one: Outcome)
    requires cfg.window > 1 && cfg.maxAccounts == 1 && cfg.batchMax > 0 && x != []
    ensures one == Batch(cfg.window, EMPTY, [Command(x, CREATE, 1, 0, 5)])
            && Admitted(cfg, EMPTY, [Command(x, CREATE, 1, 0, 5)])
    ensures EngineOk(one.engine) && one.engine.slots.Keys == {1} && one.engine.results.Keys == {x}
  {
    var c := Command(x, CREATE, 1, 0, 5);
    one := SingleBatch(cfg.window, EMPTY, c);
    assert NewAccounts(EMPTY.slots, [c]) == {1};
  }

  lemma SecondAccount(cfg: Config, e: Engine, y: Bytes)
    requires cfg.window > 1 && cfg.maxAccounts == 1 && cfg.batchMax > 0 && y != []
    requires EngineOk(e) && e.slots.Keys == {1} && y !in e.results
    ensures Admitted(cfg, e, [Command(y, DEPOSIT, 2, 0, 5)])
    ensures |Batch(cfg.window, e, [Command(y, DEPOSIT, 2, 0, 5)]).engine.slots| == 2
  {
    var d := Command(y, DEPOSIT, 2, 0, 5);
    assert |e.slots| == |e.slots.Keys| == 1;
    assert NewAccounts(e.slots, [d]) == {};
    var two := SingleBatch(cfg.window, e, d);
    assert two.engine.slots.Keys == {1, 2};
    assert |two.engine.slots| == |two.engine.slots.Keys| == 2;
  }

  // With room for one account, creating it and depositing to another are both admitted.
  lemma BoundExample(cfg: Config, x: Bytes, y: Bytes)
    requires cfg.window > 1 && cfg.maxAccounts == 1 && cfg.batchMax > 0 && x != [] && y != [] && x != y
    ensures var c, d := Command(x, CREATE, 1, 0, 5), Command(y, DEPOSIT, 2, 0, 5);
            var e := Batch(cfg.window, EMPTY, [c]).engine;
            && Admitted(cfg, EMPTY, [c]) && Admitted(cfg, e, [d])
            && |Batch(cfg.window, e, [d]).engine.slots| == 2 > cfg.maxAccounts
  {
    var one := ColdStart(cfg, x);
    SecondAccount(cfg, one.engine, y);
  }

  // ------------------------------------------------------- what a failed batch leaves

  lemma {:induction false} TurnsGrow(e: Engine, cs: seq<Command>, id: AccountID)
    requires id in e.slots
    ensures id in StageAll(e, cs).slots
    ensures StageAll(e, cs).slots[id].agent.turns >= e.slots[id].agent.turns + if TouchedBy(e, cs, |cs|, id) then 1
            else 0
  {
    if cs != [] {
      var n := |cs| - 1;
      TurnsGrow(e, cs[..n], id);
      KnownAtTurn(e, cs, n);
      SamePrefix(e, cs, n, id);
      OneMoreCommand(e, cs, n, id);
    }
  }

  lemma {:induction false} UntouchedSlots(e: Engine, cs: seq<Command>)
    requires forall k: nat | k < |cs| && FreshAt(e, cs, k) :: cs[k].account !in e.slots && cs[k].kind != CREATE
    ensures StageAll(e, cs).slots == e.slots
  {
    if cs != [] {
      var n := |cs| - 1;
      forall k: nat | k < n && FreshAt(e, cs[..n], k) ensures cs[..n][k].account !in e.slots
          && cs[..n][k].kind != CREATE {
        FreshInPrefix(e, cs, n, k);
      }
      UntouchedSlots(e, cs[..n]);
      KnownAtTurn(e, cs, n);
    }
  }

  // A batch that could not be made durable leaves its agents and registrations behind. They are
  // those of the last durable state - so that a snapshot taken then would still be right - exactly
  // when no fresh command creates an account or is about a registered one.
  lemma FailedBatchLeavesNothingIff(e: Engine, cs: seq<Command>)
    ensures e.(slots := StageAll(e, cs).slots) == e <==>
            forall k: nat | k < |cs| && FreshAt(e, cs, k) :: cs[k].account !in e.slots && cs[k].kind != CREATE
  {
    if forall k: nat | k < |cs| && FreshAt(e, cs, k) :: cs[k].account !in e.slots && cs[k].kind != CREATE {
      UntouchedSlots(e, cs);
    } else {
      var k: nat :| k < |cs| && FreshAt(e, cs, k) && (cs[k].account in e.slots || cs[k].kind == CREATE);
      var id := cs[k].account;
      if id in e.slots {
        TurnsGrow(e, cs, id);
        assert TouchedBy(e, cs, |cs|, id);
      } else {
        SlotsIff(1, e, cs, id);
        assert CreatedBy(e, cs, |cs|, id);
      }
    }
  }
}
