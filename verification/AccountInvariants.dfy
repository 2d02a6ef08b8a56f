/** What every reachable account engine satisfies. */
module AccountInvariants {
  import opened Bytes
  import opened Accounts
  import opened AccountEngine
  import opened AccountDedupe
  import opened AccountBatches

  predicate SlotOk(id: AccountID, s: Slot)
  {
    && id != 0 && s.account.id == id && s.account.balance >= 0 && s.agent.turns >= 0
    && (!s.present ==> Blank(s, id))
    && (s.present ==> s.account.version > 0 && (s.account.status == STATUS_OPEN || s.account.status == STATUS_FROZEN))
  }

  ghost predicate SlotsOk(slots: Slots)
  {
    forall id <- slots :: SlotOk(id, slots[id])
  }

  // The ledger lists effects in the order of their sequence numbers.
  ghost predicate LedgerOk(e: Engine)
  {
    && (forall entry <- e.ledger :: 0 < entry.sequence <= e.sequence && entry.commandID != [])
    && forall i, j | 0 <= i < j < |e.ledger| :: e.ledger[i].sequence < e.ledger[j].sequence
  }

  ghost predicate Good(window: nat, e: Engine)
  {
    Remembers(window, e) && Grows(e.results, e.order) && SlotsOk(e.slots) && LedgerOk(e)
  }

  // Accepted effects leave non-negative balances and a known status.
  lemma DecisionSound(c: Command, a: Account, aok: bool, b: Account, bok: bool, pending: Pending)
    requires a.balance >= 0 && b.balance >= 0
    ensures var d := Decide(c, a, aok, b, bok, pending);
            && d.balanceA >= 0 && d.balanceB >= 0
            && (d.effect == 1 ==> d.accepted && c.kind == CREATE && !aok)
            && (d.effect == 4 ==> d.status == STATUS_OPEN || d.status == STATUS_FROZEN)
            && (d.effect == 3 ==> d.balanceA + d.balanceB == a.balance + b.balance)
  {}

  lemma EffectOk(slots: Slots, r: Record)
    requires SlotsOk(slots) && r.a in slots && r.newBalanceA >= 0 && r.newBalanceB >= 0
    requires r.effect == 4 ==> r.newStatus == STATUS_OPEN || r.newStatus == STATUS_FROZEN
    requires 2 <= r.effect <= 4 ==> slots[r.a].present
    requires r.effect == 3 ==> r.b in slots && slots[r.b].present
    ensures SlotsOk(Effect(slots, r))
  {
    var slots' := Effect(slots, r);
    forall id <- slots' ensures SlotOk(id, slots'[id]) {
      assert SlotOk(id, slots[id]) && SlotOk(r.a, slots[r.a]);
    }
  }

  lemma FreshSlotsOk(e: Engine, st: Staging, now: Engine, c: Command)
    requires Tracks(e, st, now) && ValidCommand(c) && SlotsOk(now.slots)
    ensures SlotsOk(ApplySlots(now.slots, Decided(e, st, c))) && Decided(e, st, c).turns > 0
  {
    var slots, r := Registered(st.slots, c), Decided(e, st, c);
    var replayed := Register(now.slots, c.account);
    RegisterShows(st.slots, st.overlay, now.slots, c);
    DecidedBacked(e, st, c);
    assert SlotsOk(replayed);
    ShownBalance(slots, st.overlay, replayed, c.account);
    ShownBalance(slots, st.overlay, replayed, c.other);
    AgentTurns(st.slots, now.slots, c);
    DecisionSound(c, AccountFor(slots, st.overlay, c.account), Exists(slots, st.overlay, c.account),
                  AccountFor(slots, st.overlay, c.other), Exists(slots, st.overlay, c.other),
                      AgentFor(slots, c.account).pending);
    if r.accepted { EffectOk(replayed, r); }
  }

  lemma ShownBalance(slots: Slots, overlay: map<AccountID, Account>, replayed: Slots, id: AccountID)
    requires Shows(slots, overlay, replayed) && SlotsOk(replayed)
    ensures AccountFor(slots, overlay, id).balance >= 0
    ensures Exists(slots, overlay, id) ==> id in replayed && replayed[id].present
  {
    if id in slots {
      assert ShowsAt(slots, overlay, replayed, id);
      assert SlotOk(id, replayed[id]);
    }
  }

  lemma AgentTurns(slots: Slots, replayed: Slots, c: Command)
    requires SlotsOk(replayed) && forall id <- slots :: id in replayed && slots[id].agent == replayed[id].agent
    ensures AgentFor(Registered(slots, c), c.account).turns >= 0
  {
    if c.account in slots { assert SlotOk(c.account, replayed[c.account]); }
  }

  lemma FreshGood(window: nat, e: Engine, st: Staging, now: Engine, c: Command)
    requires window > 0 && Tracks(e, st, now) && ValidCommand(c) && !Known(e, st, c.id) && Good(window, now)
    ensures Good(window, Apply(window, now, Decided(e, st, c)))
  {
    var r := Decided(e, st, c);
    FreshReplays(e, st, now, c);
    assert c.id !in now.results;
    ApplyRemembers(window, now, r);
    ApplyGrows(window, now, r);
    FreshSlotsOk(e, st, now, c);
  }

  lemma NoAccountZero(slots: Slots)
    requires SlotsOk(slots)
    ensures 0 !in slots
  {
    assert 0 in slots ==> SlotOk(0, slots[0]);
  }

  // Batches keep the invariant, record by record.
  lemma {:induction false} BatchGood(window: nat, e: Engine, cs: seq<Command>)
    requires window > 0 && Good(window, e) && forall c <- cs :: ValidCommand(c)
    ensures EngineOk(e) && Good(window, ApplyAll(window, e, StageAll(e, cs).records))
  {
    NoAccountZero(e.slots);
    if cs != [] {
      var front, c := cs[..|cs| - 1], cs[|cs| - 1];
      BatchGood(window, e, front);
      BatchReplays(window, e, front);
      var st := StageAll(e, front);
      assert ValidCommand(c) by { assert c in cs; }
      if !Known(e, st, c.id) {
        var r := Decided(e, st, c);
        FreshGood(window, e, st, ApplyAll(window, e, st.records), c);
        assert (st.records + [r])[..|st.records|] == st.records;
      }
    }
  }
}
