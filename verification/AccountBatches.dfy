/**
 A batch against its own log and against its commands submitted one at a time. The overlay a
 batch decides on shows, account by account, what replaying its records so far would give.
 */
module AccountBatches {
  import opened Bytes
  import opened Accounts
  import opened AccountEngine

  // ------------------------------------------------------- the overlay shows the replay

  ghost predicate ShowsAt(slots: Slots, overlay: map<AccountID, Account>, replayed: Slots, id: AccountID)
  {
    && id != 0 && id in slots && id in replayed
    && AccountFor(slots, overlay, id) == replayed[id].account
    && Exists(slots, overlay, id) == replayed[id].present
  }

  predicate Blank(s: Slot, id: AccountID)
  {
    s.account == NewSlot(id).account && !s.present
  }

  ghost predicate Shows(slots: Slots, overlay: map<AccountID, Account>, replayed: Slots)
  {
    && (forall id <- slots :: ShowsAt(slots, overlay, replayed, id))
    && (forall id <- overlay :: id in slots)
    && (forall id <- replayed :: id != 0 && (id in slots || Blank(replayed[id], id)))
  }

  // A record's effect names accounts that exist where it was decided.
  predicate Backed(slots: Slots, overlay: map<AccountID, Account>, r: Record)
  {
    r.accepted ==>
      && (r.effect == 1 ==> r.a in slots)
      && (2 <= r.effect <= 4 ==> Exists(slots, overlay, r.a))
      && (r.effect == 3 ==> Exists(slots, overlay, r.b) && r.a != r.b)
  }

  lemma DecidedBacked(e: Engine, st: Staging, c: Command)
    requires ValidCommand(c)
    ensures Backed(Registered(st.slots, c), st.overlay, Decided(e, st, c))
  {}

  lemma RegisterShows(slots: Slots, overlay: map<AccountID, Account>, replayed: Slots, c: Command)
    requires Shows(slots, overlay, replayed) && c.account != 0
    ensures Shows(Registered(slots, c), overlay, Register(replayed, c.account))
  {
    var slots', replayed' := Registered(slots, c), Register(replayed, c.account);
    forall id <- slots' ensures ShowsAt(slots', overlay, replayed', id) {
      if id in slots { assert ShowsAt(slots, overlay, replayed, id); }
    }
  }

  lemma EffectShows(slots: Slots, overlay: map<AccountID, Account>, replayed: Slots, r: Record)
    requires Shows(slots, overlay, replayed) && Backed(slots, overlay, r) && r.a in replayed
    ensures Shows(slots, StageEffect(slots, overlay, r), if r.accepted then Effect(replayed, r) else replayed)
  {
    if r.accepted && 1 <= r.effect <= 4 {
      var overlay', replayed' := StageEffect(slots, overlay, r), Effect(replayed, r);
      assert ShowsAt(slots, overlay, replayed, r.a);
      if r.effect == 3 { assert ShowsAt(slots, overlay, replayed, r.b); }
      forall id <- slots ensures ShowsAt(slots, overlay', replayed', id) {
        assert ShowsAt(slots, overlay, replayed, id);
      }
    }
  }

  lemma AgentShows(slots: Slots, overlay: map<AccountID, Account>, replayed: Slots, id: AccountID, agent: Agent)
    requires Shows(slots, overlay, replayed) && id in replayed
    ensures Shows(if id in slots then SetAgent(slots, id, agent) else slots, overlay, SetAgent(replayed, id, agent))
  {
    var slots', replayed' := if id in slots then SetAgent(slots, id, agent) else slots, SetAgent(replayed, id, agent);
    forall other <- slots' ensures ShowsAt(slots', overlay, replayed', other) {
      assert ShowsAt(slots, overlay, replayed, other);
    }
  }

  // ------------------------------------------------------------ a batch and its replay

  // `now` is the engine that replaying the records so far gives.
  ghost predicate Tracks(e: Engine, st: Staging, now: Engine)
  {
    && Shows(st.slots, st.overlay, now.slots)
    && (forall id <- st.slots :: id in now.slots && st.slots[id].agent == now.slots[id].agent)
    && now.sequence == e.sequence + |st.records|
    && (forall id <- st.seen :: st.seen[id] < |st.replies|)
    && (forall id <- now.results :: Known(e, st, id))
  }

  lemma FreshReplays(e: Engine, st: Staging, now: Engine, c: Command)
    requires Tracks(e, st, now) && ValidCommand(c) && !Known(e, st, c.id)
    ensures Replays(now, Decided(e, st, c))
  {
    var slots := Registered(st.slots, c);
    assert c.account in st.slots ==> ShowsAt(st.slots, st.overlay, now.slots, c.account);
    assert c.other in st.slots ==> ShowsAt(st.slots, st.overlay, now.slots, c.other);
  }

  lemma FreshShows(e: Engine, st: Staging, now: Engine, c: Command)
    requires Shows(st.slots, st.overlay, now.slots) && ValidCommand(c)
    ensures Shows(StageFresh(e, st, c).slots, StageFresh(e, st, c).overlay, ApplySlots(now.slots, Decided(e, st, c)))
  {
    var slots, r, replayed := Registered(st.slots, c), Decided(e, st, c), Register(now.slots, c.account);
    RegisterShows(st.slots, st.overlay, now.slots, c);
    DecidedBacked(e, st, c);
    EffectShows(slots, st.overlay, replayed, r);
    AgentShows(slots, StageEffect(slots, st.overlay, r), if r.accepted then Effect(replayed, r)
        else replayed, r.a, Agent(r.pending, r.turns));
  }

  // Effects and registrations leave the agents of other accounts alone.
  lemma ApplyAgents(slots: Slots, r: Record)
    ensures ApplySlots(slots, r).Keys == slots.Keys + {r.a}
    ensures forall id <- slots | id != r.a :: ApplySlots(slots, r)[id].agent == slots[id].agent
    ensures ApplySlots(slots, r)[r.a].agent == Agent(r.pending, r.turns)
  {}

  lemma FreshTracks(window: nat, e: Engine, st: Staging, now: Engine, c: Command)
    requires Tracks(e, st, now) && ValidCommand(c) && !Known(e, st, c.id)
    ensures Tracks(e, StageFresh(e, st, c), Apply(window, now, Decided(e, st, c)))
  {
    var st', r := StageFresh(e, st, c), Decided(e, st, c);
    FreshShows(e, st, now, c);
    FreshAgents(e, st, now, c);
    assert forall id <- now.results :: Known(e, st, id) && Known(e, st', id);
  }

  lemma FreshAgents(e: Engine, st: Staging, now: Engine, c: Command)
    requires forall id <- st.slots :: id in now.slots && st.slots[id].agent == now.slots[id].agent
    ensures var slots, replayed := StageFresh(e, st, c).slots, ApplySlots(now.slots, Decided(e, st, c));
            forall id <- slots :: id in replayed && slots[id].agent == replayed[id].agent
  {
    ApplyAgents(now.slots, Decided(e, st, c));
  }

  lemma KnownTracks(e: Engine, st: Staging, now: Engine, c: Command)
    requires Tracks(e, st, now) && Known(e, st, c.id)
    ensures Tracks(e, Stage(e, st, c), now)
  {
    assert forall id <- now.results :: Known(e, st, id) && Known(e, Stage(e, st, c), id);
  }

  ghost predicate EngineOk(e: Engine)
  {
    0 !in e.slots
  }

  lemma BeginTracks(e: Engine)
    requires EngineOk(e)
    ensures Tracks(e, Begin(e), e)
  {
    forall id <- e.slots ensures ShowsAt(e.slots, map[], e.slots, id) {}
  }

  // Replaying a batch's records from the state it started in passes every check, and gives what
  // the batch's overlay shows.
  lemma {:induction false} BatchReplays(window: nat, e: Engine, cs: seq<Command>)
    requires EngineOk(e) && forall c <- cs :: ValidCommand(c)
    ensures Replay(window, e, StageAll(e, cs).records) == Some(ApplyAll(window, e, StageAll(e, cs).records))
    ensures Tracks(e, StageAll(e, cs), ApplyAll(window, e, StageAll(e, cs).records))
  {
    if cs == [] {
      BeginTracks(e);
    } else {
      var front, c := cs[..|cs| - 1], cs[|cs| - 1];
      BatchReplays(window, e, front);
      var st := StageAll(e, front);
      var now := ApplyAll(window, e, st.records);
      assert ValidCommand(c) by { assert c in cs; }
      if Known(e, st, c.id) {
        KnownTracks(e, st, now, c);
      } else {
        FreshReplays(e, st, now, c);
        FreshTracks(window, e, st, now, c);
        var r := Decided(e, st, c);
        assert (st.records + [r])[..|st.records|] == st.records;
      }
    }
  }

  // -------------------------------------------------- staging early or replaying later

  function SlotsAfter(slots: Slots, rs: seq<Record>): Slots
  {
    if rs == [] then slots else ApplySlots(SlotsAfter(slots, rs[..|rs| - 1]), rs[|rs| - 1])
  }

  lemma {:induction false} ApplyAllParts(window: nat, e: Engine, slots: Slots, rs: seq<Record>)
    ensures ApplyAll(window, e.(slots := slots), rs) == ApplyAll(window, e, rs).(slots := SlotsAfter(slots, rs))
  {
    if rs != [] { ApplyAllParts(window, e, slots, rs[..|rs| - 1]); }
  }

  lemma ApplyAllSlots(window: nat, e: Engine, rs: seq<Record>)
    ensures ApplyAll(window, e, rs).slots == SlotsAfter(e.slots, rs)
  {
    ApplyAllParts(window, e, e.slots, rs);
    assert e.(slots := e.slots) == e;
  }

  function Primaries(rs: seq<Record>): set<AccountID>
  {
    set r | r in rs :: r.a
  }

  // Every transfer's destination is registered when its record is applied.
  predicate Supported(slots: Slots, rs: seq<Record>)
  {
    rs == [] || (Supported(slots, rs[..|rs| - 1]) && SupportedAt(SlotsAfter(slots, rs[..|rs| - 1]), rs[|rs| - 1]))
  }

  predicate SupportedAt(slots: Slots, r: Record)
  {
    r.accepted && r.effect == 3 ==> r.b in slots
  }

  lemma FreshSupported(e: Engine, st: Staging, now: Engine, c: Command)
    requires Tracks(e, st, now) && ValidCommand(c)
    ensures SupportedAt(now.slots, Decided(e, st, c))
  {
    DecidedBacked(e, st, c);
    assert c.other in st.slots ==> ShowsAt(st.slots, st.overlay, now.slots, c.other);
  }

  // What staging has done to the registered accounts: it registers and moves agents, of the
  // accounts its records are about, and changes no account.
  ghost predicate Ahead(staged: Slots, start: Slots, touched: set<AccountID>)
  {
    && (forall id <- start ::
         id in staged && staged[id].account == start[id].account && staged[id].present == start[id].present)
    && (forall id <- staged :: id in start || Blank(staged[id], id))
    && (forall id <- staged | id !in touched :: id in start && staged[id] == start[id])
  }

  lemma FreshAhead(e: Engine, st: Staging, c: Command, touched: set<AccountID>)
    requires Ahead(st.slots, e.slots, touched)
    ensures Ahead(StageFresh(e, st, c).slots, e.slots, touched + {c.account})
  {
    var slots, staged := Registered(st.slots, c), StageFresh(e, st, c).slots;
    assert staged.Keys == slots.Keys;
    assert forall id <- slots | id != c.account ::
          staged[id] == slots[id] && id in st.slots && slots[id] == st.slots[id];
  }

  lemma {:induction false} StagedAhead(window: nat, e: Engine, cs: seq<Command>)
    requires EngineOk(e) && forall c <- cs :: ValidCommand(c)
    ensures Ahead(StageAll(e, cs).slots, e.slots, Primaries(StageAll(e, cs).records))
    ensures Supported(e.slots, StageAll(e, cs).records)
  {
    if cs != [] {
      var front, c := cs[..|cs| - 1], cs[|cs| - 1];
      StagedAhead(window, e, front);
      BatchReplays(window, e, front);
      var st := StageAll(e, front);
      assert ValidCommand(c) by { assert c in cs; }
      if !Known(e, st, c.id) {
        FreshSupported(e, st, ApplyAll(window, e, st.records), c);
        ApplyAllSlots(window, e, st.records);
        PrimariesSnoc(st.records, Decided(e, st, c));
        FreshAhead(e, st, c, Primaries(st.records));
        SupportedSnoc(e.slots, st.records, Decided(e, st, c));
      }
    }
  }

  lemma SupportedSnoc(slots: Slots, rs: seq<Record>, r: Record)
    requires Supported(slots, rs) && SupportedAt(SlotsAfter(slots, rs), r)
    ensures Supported(slots, rs + [r])
  {
    assert (rs + [r])[..|rs|] == rs;
  }

  lemma PrimariesSnoc(rs: seq<Record>, r: Record)
    ensures Primaries(rs + [r]) == Primaries(rs) + {r.a} && (rs + [r])[..|rs|] == rs
  {
    assert forall x <- rs + [r] :: x in rs || x == r;
    assert r in rs + [r] && forall x <- rs :: x in rs + [r];
  }

  function AccountAt(slots: Slots, id: AccountID): (Account, bool)
  {
    if id in slots then (slots[id].account, slots[id].present) else (NewSlot(id).account, false)
  }

  // `x` and `y` after the same records, of which `touched` are the primary accounts: once an
  // account has been touched, nothing of the difference is left.
  ghost predicate Settled(x0: Slots, y0: Slots, x: Slots, y: Slots, touched: set<AccountID>, id: AccountID)
  {
    && AccountAt(x, id) == AccountAt(y, id)
    && (id in y ==> id in x)
    && (id in touched ==> id in y && x[id].agent == y[id].agent)
    && (id !in touched ==> (id in x <==> id in x0) && (id in y <==> id in y0))
    && (id !in touched && id in x ==> x[id].agent == x0[id].agent)
    && (id !in touched && id in y ==> y[id].agent == y0[id].agent)
  }

  lemma ApplyAccounts(x: Slots, y: Slots, r: Record, id: AccountID)
    requires AccountAt(x, id) == AccountAt(y, id) && AccountAt(x, r.a) == AccountAt(y, r.a)
             && AccountAt(x, r.b) == AccountAt(y, r.b)
    requires r.accepted && r.effect == 3 ==> r.b in x && r.b in y
    ensures AccountAt(ApplySlots(x, r), id) == AccountAt(ApplySlots(y, r), id)
  {
    var x', y' := Register(x, r.a), Register(y, r.a);
    assert AccountAt(x', id) == AccountAt(x, id) && AccountAt(x', r.b) == AccountAt(x, r.b);
    assert AccountAt(y', id) == AccountAt(y, id) && AccountAt(y', r.b) == AccountAt(y, r.b);
    if r.accepted { EffectAccounts(x', y', r, id); }
  }

  lemma EffectAccounts(x: Slots, y: Slots, r: Record, id: AccountID)
    requires r.a in x && r.a in y && (r.effect == 3 ==> r.b in x && r.b in y)
    requires AccountAt(x, id) == AccountAt(y, id) && AccountAt(x, r.a) == AccountAt(y, r.a)
             && AccountAt(x, r.b) == AccountAt(y, r.b)
    ensures AccountAt(Effect(x, r), id) == AccountAt(Effect(y, r), id)
  {}

  lemma ApplySettles(x0: Slots, y0: Slots, x: Slots, y: Slots, touched: set<AccountID>, r: Record, id: AccountID)
    requires Settled(x0, y0, x, y, touched, id) && Settled(x0, y0, x, y, touched, r.a)
             && Settled(x0, y0, x, y, touched, r.b)
    requires SupportedAt(y, r)
    ensures Settled(x0, y0, ApplySlots(x, r), ApplySlots(y, r), touched + {r.a}, id)
  {
    ApplyAccounts(x, y, r, id);
    ApplyAgents(x, r);
    ApplyAgents(y, r);
  }

  lemma {:induction false} ReplaySettles(x0: Slots, y0: Slots, rs: seq<Record>, id: AccountID)
    requires Supported(y0, rs) && forall other: AccountID :: Settled(x0, y0, x0, y0, {}, other)
    ensures Settled(x0, y0, SlotsAfter(x0, rs), SlotsAfter(y0, rs), Primaries(rs), id)
  {
    if rs == [] {
      assert Settled(x0, y0, x0, y0, {}, id);
      assert Primaries(rs) == {};
    } else {
      var front, r := rs[..|rs| - 1], rs[|rs| - 1];
      ReplaySettles(x0, y0, front, id);
      ReplaySettles(x0, y0, front, r.a);
      ReplaySettles(x0, y0, front, r.b);
      ApplySettles(x0, y0, SlotsAfter(x0, front), SlotsAfter(y0, front), Primaries(front), r, id);
      assert front + [r] == rs;
      PrimariesSnoc(front, r);
    }
  }

  lemma AheadSettles(x0: Slots, y0: Slots, rs: seq<Record>)
    requires Ahead(x0, y0, Primaries(rs)) && Supported(y0, rs)
    ensures SlotsAfter(x0, rs) == SlotsAfter(y0, rs)
  {
    AheadStarts(x0, y0, Primaries(rs));
    var x, y := SlotsAfter(x0, rs), SlotsAfter(y0, rs);
    forall id: AccountID ensures (id in x <==> id in y) && (id in x ==> x[id] == y[id]) {
      ReplaySettles(x0, y0, rs, id);
    }
  }

  lemma AheadStarts(x0: Slots, y0: Slots, touched: set<AccountID>)
    requires Ahead(x0, y0, touched)
    ensures forall id: AccountID :: Settled(x0, y0, x0, y0, {}, id)
  {}

  // Registering accounts and moving agents while deciding, before anything is durable, makes no
  // difference in the end: a batch leaves the engine that replaying its records gives.
  lemma BatchIsItsReplay(window: nat, e: Engine, cs: seq<Command>)
    requires EngineOk(e) && forall c <- cs :: ValidCommand(c)
    ensures Batch(window, e, cs).engine == ApplyAll(window, e, StageAll(e, cs).records)
    ensures Replay(window, e, StageAll(e, cs).records) == Some(Batch(window, e, cs).engine)
  {
    var st := StageAll(e, cs);
    StagedAhead(window, e, cs);
    BatchReplays(window, e, cs);
    AheadSettles(st.slots, e.slots, st.records);
    ApplyAllParts(window, e, st.slots, st.records);
    ApplyAllSlots(window, e, st.records);
  }
}
