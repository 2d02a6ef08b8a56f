/**
 Replay by slot number against replay by account: exactly which logs the two read alike. A transfer whose
 destination has no slot yet is given slot zero, and so moves money to whatever account is there.
 */
module AccountDestination {
  import opened Bytes
  import opened Accounts
  import opened AccountEngine
  import opened AccountBatches
  import opened AccountCore

  // The destination has a slot when the record is applied, and its number is found.
  predicate FindsDestination(slots: Slots, r: Record, first: AccountID)
  {
    r.accepted && r.effect == 3 ==> r.b in Register(slots, r.a) && (r.b != 0 || first == 0)
  }

  // Slot zero's account is charged, and so is the source, where replay by account would change neither.
  lemma MisdirectedVersion(slots: Slots, r: Record, first: AccountID)
    requires first in Register(slots, r.a) && r.accepted && r.effect == 3 && r.b !in Register(slots, r.a)
    ensures VersionOf(ApplySlotsOn(slots, r, first), r.a) == VersionOf(ApplySlots(slots, r), r.a) + 1
  {}

  lemma MisdirectedZero(slots: Slots, r: Record, first: AccountID)
    requires first in Register(slots, r.a) && r.accepted && r.effect == 3 && r.b in Register(slots, r.a)
    requires r.b == 0 && first != 0
    ensures VersionOf(ApplySlotsOn(slots, r, first), 0) != VersionOf(ApplySlots(slots, r), 0)
            || VersionOf(ApplySlotsOn(slots, r, first), first) != VersionOf(ApplySlots(slots, r), first)
  {}

  /** One record is applied alike by slot number and by account exactly if it finds its destination. */
  lemma ApplyOnIff(window: nat, e: Engine, r: Record, first: AccountID)
    requires first in Register(e.slots, r.a)
    ensures ApplyOn(window, e, r, first) == Apply(window, e, r) <==> FindsDestination(e.slots, r, first)
  {
    if r.accepted && r.effect == 3 {
      if r.b !in Register(e.slots, r.a) {
        MisdirectedVersion(e.slots, r, first);
      } else if r.b == 0 && first != 0 {
        MisdirectedZero(e.slots, r, first);
      }
    }
  }

  /** A logged transfer without a registered destination, which no batch writes, passes the version check
      with 0 and gives the balance meant for it to whatever account is in the first slot. */
  lemma MissingDestination(window: nat, e: Engine, r: Record, first: AccountID)
    requires r.accepted && r.effect == 3 && r.expectedB == 0 && r.b !in Register(e.slots, r.a)
             && first in Register(e.slots, r.a)
    requires r.commandID !in e.results && r.expectedA == VersionOf(e.slots, r.a)
    ensures Matches(e, r) && ApplyOn(window, e, r, first) != Apply(window, e, r)
    ensures var was, now := Register(e.slots, r.a)[first].account, ApplyOn(window, e, r, first).slots[first].account;
            now == was.(balance := r.newBalanceB, version := was.version + 1)
  {
    ApplyOnIff(window, e, r, first);
  }

  // ------------------------------------------------------------------------- whole logs

  function Sources(rs: seq<Record>): set<AccountID>
  {
    set r <- rs :: r.a
  }

  // Record k, if a transfer, goes to an account of the snapshot or one that the log has named.
  predicate FindsAt(e: Engine, rs: seq<Record>, k: nat)
    requires k < |rs|
  {
    rs[k].accepted && rs[k].effect == 3 ==> rs[k].b in e.slots || rs[k].b in Sources(rs[..k + 1])
  }

  predicate FindsAll(e: Engine, rs: seq<Record>)
  {
    forall k: nat | k < |rs| :: FindsAt(e, rs, k)
  }

  // Zero stands for no account.
  predicate NoZero(e: Engine, rs: seq<Record>)
  {
    0 !in e.slots && forall r <- rs :: r.a != 0
  }

  predicate FirstSlot(e: Engine, rs: seq<Record>, first: AccountID)
  {
    first in e.slots || (e.slots == map[] && (rs != [] ==> first == rs[0].a))
  }

  lemma SourcesSnoc(rs: seq<Record>, n: nat)
    requires |rs| == n + 1
    ensures Sources(rs) == Sources(rs[..n]) + {rs[n].a}
  {
    assert rs == rs[..n] + [rs[n]];
  }

  lemma FindsSnoc(e: Engine, rs: seq<Record>, n: nat)
    requires |rs| == n + 1
    ensures FindsAll(e, rs) <==> FindsAll(e, rs[..n]) && FindsAt(e, rs, n)
  {
    forall k: nat | k < n ensures FindsAt(e, rs[..n], k) <==> FindsAt(e, rs, k) {
      assert rs[..n][..k + 1] == rs[..k + 1];
    }
  }

  // Replay gives a slot to every account the log names as a source.
  lemma {:induction false} Slotted(window: nat, e: Engine, rs: seq<Record>)
    requires Replay(window, e, rs).Some?
    ensures Replay(window, e, rs).value.slots.Keys == e.slots.Keys + Sources(rs)
  {
    if rs != [] {
      var n := |rs| - 1;
      Slotted(window, e, rs[..n]);
      SourcesSnoc(rs, n);
      ApplyAgents(Replay(window, e, rs[..n]).value.slots, rs[n]);
    }
  }

  // Replay by slot number has made more changes to some account.
  ghost predicate Ahead(on: Engine, e: Engine)
  {
    exists x | x in e.slots && x in on.slots && x != 0 :: on.slots[x].account.version > e.slots[x].account.version
  }

  lemma VersionKept(slots: Slots, r: Record, x: AccountID)
    requires x in slots && x != r.a && x != r.b
    ensures x in ApplySlots(slots, r) && ApplySlots(slots, r)[x].account.version == slots[x].account.version
  {}

  lemma VersionGrows(slots: Slots, r: Record, first: AccountID, x: AccountID)
    requires x in slots && x != r.a
    ensures x in ApplySlotsOn(slots, r, first)
            && ApplySlotsOn(slots, r, first)[x].account.version >= slots[x].account.version
  {}

  // Two replays that have parted do not meet again: a record that would close the gap fits only one.
  lemma StaysAhead(window: nat, on: Engine, e: Engine, r: Record, first: AccountID)
    requires Ahead(on, e) && Matches(on, r) && Replays(e, r)
    ensures Ahead(ApplyOn(window, on, r, first), Apply(window, e, r))
  {
    var x :| x in e.slots && x in on.slots && x != 0 && on.slots[x].account.version > e.slots[x].account.version;
    assert x != r.a && x != r.b;
    VersionKept(e.slots, r, x);
    VersionGrows(on.slots, r, first, x);
  }

  // While both accept a log that misses no destination, they agree; once it has missed one they differ.
  lemma {:induction false} Parted(window: nat, e: Engine, rs: seq<Record>, first: AccountID)
    requires NoZero(e, rs) && FirstSlot(e, rs, first)
    ensures var on, plain := ReplayOn(window, e, rs, first), Replay(window, e, rs);
            && (FindsAll(e, rs) ==> on == plain)
            && (!FindsAll(e, rs) && on.Some? && plain.Some? ==> Ahead(on.value, plain.value))
    decreases |rs|
  {
    if rs != [] {
      var n := |rs| - 1;
      var front, r := rs[..n], rs[n];
      Parted(window, e, front, first);
      FindsSnoc(e, rs, n);
      var on, plain := ReplayOn(window, e, front, first), Replay(window, e, front);
      if on.Some? && plain.Some? && Matches(on.value, r) && Replays(plain.value, r) {
        PartedStep(window, e, rs, n, first, on.value, plain.value);
      }
    }
  }

  lemma PartedStep(window: nat, e: Engine, rs: seq<Record>, n: nat, first: AccountID, on: Engine, plain: Engine)
    requires NoZero(e, rs) && FirstSlot(e, rs, first) && |rs| == n + 1
    requires Replay(window, e, rs[..n]) == Some(plain) && Matches(on, rs[n]) && Replays(plain, rs[n])
    requires if FindsAll(e, rs[..n]) then on == plain else Ahead(on, plain)
    ensures if FindsAll(e, rs) then ApplyOn(window, on, rs[n], first) == Apply(window, plain, rs[n])
            else Ahead(ApplyOn(window, on, rs[n], first), Apply(window, plain, rs[n]))
  {
    var r := rs[n];
    FindsSnoc(e, rs, n);
    assert rs[..n + 1] == rs;
    if FindsAll(e, rs[..n]) {
      Slotted(window, e, rs[..n]);
      SourcesSnoc(rs, n);
      assert r in rs && first in Register(plain.slots, r.a);
      ApplyOnIff(window, plain, r, first);
      if !FindsAll(e, rs) {
        MisdirectedVersion(plain.slots, r, first);
        assert r.a in ApplySlots(plain.slots, r);
      }
    } else {
      StaysAhead(window, on, plain, r, first);
    }
  }

  /** Replay by slot number and replay by account give the same engine for a log exactly if every transfer
      in it goes to an account of the snapshot or one that the log names before. Such a log is read alike
      even when it is refused; any other that either replay accepts is read differently. */
  lemma ReplayOnIff(window: nat, e: Engine, rs: seq<Record>, first: AccountID)
    requires NoZero(e, rs) && FirstSlot(e, rs, first)
    ensures FindsAll(e, rs) ==> ReplayOn(window, e, rs, first) == Replay(window, e, rs)
    ensures ReplayOn(window, e, rs, first).Some? || Replay(window, e, rs).Some? ==>
              (ReplayOn(window, e, rs, first) == Replay(window, e, rs) <==> FindsAll(e, rs))
  {
    Parted(window, e, rs, first);
  }

  // ----------------------------------------------------------------------------- an example

  function Opened(id: AccountID, balance: int): Slot
  {
    Slot(Account(id, balance, STATUS_OPEN, 1), true, NO_AGENT)
  }

  // Two accounts, the first of them in slot zero.
  const TWO_ACCOUNTS := Engine(map[7 := Opened(7, 100), 9 := Opened(9, 50)], [], map[], [], 2)

  // A transfer of 20 from account 9 to account 12, of which nothing is known.
  const TO_NOWHERE := Record(3, [120], TRANSFER, 9, 12, 20, true, APPLIED, 3, 0, 30, 20, STATUS_OPEN, 1, 0, NO_PENDING)

  /** A log of one transfer to an unknown account: opening the store takes 80 from an account that has
      nothing to do with it. Replay by account would change no balance. */
  lemma WrongAccountExample(window: nat)
    ensures var on, plain := ReplayOn(window, TWO_ACCOUNTS, [TO_NOWHERE], 7),
            Replay(window, TWO_ACCOUNTS, [TO_NOWHERE]);
            && on.Some? && plain.Some? && on.value.slots.Keys == plain.value.slots.Keys == {7, 9}
            && on.value.slots[7].account == Account(7, 20, STATUS_OPEN, 2)
            && on.value.slots[9].account == Account(9, 30, STATUS_OPEN, 2)
            && plain.value.slots[7] == Opened(7, 100) && plain.value.slots[9].account == Account(9, 50, STATUS_OPEN, 1)
  {
    assert [TO_NOWHERE][..0] == [];
    assert ReplayOn(window, TWO_ACCOUNTS, [], 7) == Some(TWO_ACCOUNTS) == Replay(window, TWO_ACCOUNTS, []);
    assert Replays(TWO_ACCOUNTS, TO_NOWHERE) && Matches(TWO_ACCOUNTS, TO_NOWHERE);
  }
}
