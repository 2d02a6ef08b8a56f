/**
 The account engine as the source writes it: dense slices indexed by slot, an epoch-stamped scratch
 overlay, a compacting dedupe ring, and one log frame per batch. Every method is proved to do what
 the specification of the other account modules says.
 */
module AccountCore {
  import opened Bytes
  import opened Accounts
  import opened AccountEngine
  import opened AccountBatches
  import opened AccountInvariants
  import opened AccountSlab
  import opened AccountLog
  import opened AccountWal
  import opened AccountImages
  import Snap = AccountSnapshot

  datatype Failure = Closed | Poisoned | InvalidCommand | CapacityExceeded | DurabilityWriteFailed

  lemma RememberParts(window: nat, e: Engine, id: Bytes, result: Result)
    ensures var r := AccountEngine.Remember(window, Engine(map[], [], e.results, e.order, 0), id, result);
            AccountEngine.Remember(window, e, id, result) == e.(results := r.results, order := r.order)
  {}

  class Core {
    const cfg: Config
    const wal: WalFile
    var ids: Ids
    var accounts: seq<Account>
    var present: seq<bool>
    var agents: seq<Agent>
    var ledger: seq<LedgerEntry>
    var scratch: seq<Account>
    var marks: seq<nat>
    var epoch: nat
    var results: map<Bytes, Result>
    var order: seq<Bytes>
    var orderHead: nat
    var sequence: nat
    var closed: bool
    var poisoned: bool

    ghost predicate SlabOk()
      reads this
    {
      && Dense(ids, accounts) && |present| == |agents| == |scratch| == |marks| == |accounts|
      && epoch <= MAX_EPOCH && (forall i | 0 <= i < |marks| :: marks[i] <= epoch)
    }

    // The ring holds at most twice its window, less one.
    ghost predicate RingOk()
      reads this
    {
      orderHead <= |order| && |order| - orderHead <= cfg.window && orderHead < cfg.window
          && |order| <= 2 * cfg.window - 1
    }

    ghost predicate Valid()
      reads this
    {
      SlabOk() && RingOk()
    }

    ghost function Slots(): AccountEngine.Slots
      reads this
      requires SlabOk()
    {
      View(ids, accounts, present, agents)
    }

    ghost function Overlay(): map<AccountID, Account>
      reads this
      requires SlabOk()
    {
      Overlaid(ids, accounts, scratch, marks, epoch)
    }

    // The engine these fields stand for; scratch, stamps and the front of the ring do not show.
    ghost function Abs(): Engine
      reads this
      requires Valid()
    {
      Engine(Slots(), ledger, results, order[orderHead..], sequence)
    }

    constructor (cfg: Config, wal: WalFile)
      requires cfg.window > 0
      ensures this.cfg == cfg && this.wal == wal && Valid() && Abs() == EMPTY && !closed && !poisoned
    {
      this.cfg, this.wal := cfg, wal;
      ids, accounts, present, agents, ledger := map[], [], [], [], [];
      scratch, marks, epoch := [], [], 0;
      results, order, orderHead, sequence, closed, poisoned := map[], [], 0, 0, false, false;
      new;
      assert Slots() == map[];
    }

    // ---------------------------------------------------------------- slots and overlay

    method SlotFor(id: AccountID, create: bool) returns (slot: nat, ok: bool)
      requires SlabOk()
      modifies this`ids, this`accounts, this`present, this`agents, this`scratch, this`marks
      ensures SlabOk() && ok == (id in ids) && (ok ==> slot == ids[id]) && (create ==> ok)
      ensures (forall known <- old(ids) :: known in ids && ids[known] == old(ids)[known])
              && (!create ==> unchanged(this))
      ensures Slots() == (if create then Register(old(Slots()), id) else old(Slots())) && Overlay() == old(Overlay())
      ensures FirstOf(accounts, id) == FirstOf(old(accounts), id)
    {
      if id in ids {
        return ids[id], true;
      }
      if !create {
        return 0, false;
      }
      ViewRegister(ids, accounts, present, agents, id);
      OverlaidRegister(ids, accounts, scratch, marks, epoch, id);
      slot := |accounts|;
      ids := ids[id := slot];
      accounts, present, agents := accounts + [Account(id, 0, 0, 0)], present + [false], agents + [NO_AGENT];
      scratch, marks := scratch + [NO_ACCOUNT], marks + [0];
      ok := true;
    }

    method AccountAt(slot: nat, ok: bool) returns (a: Account)
      requires SlabOk() && (ok ==> slot < |accounts|)
      ensures !ok ==> a == NO_ACCOUNT
      ensures ok ==> var id := accounts[slot].id;
                id in Slots() && a == if id in Overlay() then Overlay()[id] else Slots()[id].account
    {
      if !ok {
        return NO_ACCOUNT;
      }
      assert accounts[slot].id in ids;
      if epoch != 0 && marks[slot] == epoch {
        return scratch[slot];
      }
      return accounts[slot];
    }

    method Stamp(slot: nat, a: Account)
      requires SlabOk() && slot < |accounts| && epoch > 0
      modifies this`scratch, this`marks
      ensures SlabOk() && Slots() == old(Slots()) && Overlay() == old(Overlay())[accounts[slot].id := a]
    {
      OverlaidSet(ids, accounts, scratch, marks, epoch, accounts[slot].id, a);
      scratch, marks := scratch[slot := a], marks[slot := epoch];
    }

    // Hides a decided effect in the overlay.
    method StageEffect(aSlot: nat, bSlot: nat, r: Record)
      requires SlabOk() && epoch > 0 && r.accepted
      requires r.a != 0 && (1 <= r.effect <= 4 ==> r.a in ids && ids[r.a] == aSlot)
      requires r.effect == 3 ==> r.b != 0 && r.b in ids && ids[r.b] == bSlot && r.a != r.b
      modifies this`scratch, this`marks
      ensures SlabOk() && Slots() == old(Slots())
              && Overlay() == AccountEngine.StageEffect(old(Slots()), old(Overlay()), r)
    {
      if r.effect == 1 {
        Stamp(aSlot, Account(r.a, r.newBalanceA, STATUS_OPEN, 1));
      } else if r.effect == 2 {
        var a := AccountAt(aSlot, true);
        Stamp(aSlot, a.(balance := r.newBalanceA, version := a.version + 1));
      } else if r.effect == 3 {
        StageTransfer(aSlot, bSlot, r);
      } else if r.effect == 4 {
        var a := AccountAt(aSlot, true);
        Stamp(aSlot, a.(status := r.newStatus, version := a.version + 1));
      }
    }

    method StageTransfer(aSlot: nat, bSlot: nat, r: Record)
      requires SlabOk() && epoch > 0 && r.a in ids && ids[r.a] == aSlot && r.b in ids && ids[r.b] == bSlot && r.a != 0
               && r.b != 0
      modifies this`scratch, this`marks
      ensures var a, b := AccountFor(old(Slots()), old(Overlay()), r.a), AccountFor(old(Slots()), old(Overlay()), r.b);
              && SlabOk() && Slots() == old(Slots())
              && Overlay() == old(Overlay())[r.a := a.(balance := r.newBalanceA, version := a.version + 1)]
                                            [r.b := b.(balance := r.newBalanceB, version := b.version + 1)]
    {
      var a := AccountAt(aSlot, true);
      var b := AccountAt(bSlot, true);
      Stamp(aSlot, a.(balance := r.newBalanceA, version := a.version + 1));
      Stamp(bSlot, b.(balance := r.newBalanceB, version := b.version + 1));
    }

    method StartEpoch()
      requires SlabOk()
      modifies this`marks, this`epoch
      ensures SlabOk() && epoch > 0 && Slots() == old(Slots()) && Overlay() == map[]
    {
      if epoch == MAX_EPOCH {
        marks := seq(|marks|, _ => 0);
        epoch := 1;
      } else {
        epoch := epoch + 1;
      }
      OverlaidFresh(ids, accounts, scratch, marks, epoch);
    }

    // ------------------------------------------------------------------- dedupe ring

    // Remembers one result; compaction changes nothing that shows.
    method Remember(id: Bytes, result: Result)
      requires RingOk() && cfg.window > 0
      modifies this`results, this`order, this`orderHead
      ensures RingOk()
      ensures var was := Engine(map[], [], old(results), old(order[orderHead..]), 0);
              Engine(map[], [], results, order[orderHead..], 0) == AccountEngine.Remember(cfg.window, was, id, result)
    {
      results := results[id := result];
      order := order + [id];
      if |order| - orderHead > cfg.window {
        results := results - {order[orderHead]};
        orderHead := orderHead + 1;
      }
      if orderHead >= cfg.window && orderHead * 2 >= |order| {
        order := order[orderHead..];
        orderHead := 0;
      }
    }

    // ------------------------------------------------------------------- applying

    method ApplyTransfer(aSlot: nat, bSlot: nat, r: Record)
      requires SlabOk() && r.a in ids && ids[r.a] == aSlot && bSlot < |accounts|
      modifies this`accounts
      ensures SlabOk() && Slots() == Moved(old(Slots()), r, old(accounts[bSlot].id))
    {
      var a, b := accounts[aSlot], accounts[bSlot];
      a := a.(balance := r.newBalanceA, version := a.version + 1);
      b := b.(balance := r.newBalanceB, version := b.version + 1);
      ViewAccount(ids, accounts, present, agents, r.a, a);
      ViewAccount(ids, accounts[aSlot := a], present, agents, b.id, b);
      accounts := accounts[aSlot := a][bSlot := b];
    }

    method ApplyCreate(aSlot: nat, r: Record)
      requires SlabOk() && r.a in ids && ids[r.a] == aSlot
      modifies this`accounts, this`present
      ensures SlabOk()
      ensures Slots()
              == old(Slots())[r.a :=
              old(Slots())[r.a].(account := Account(r.a, r.newBalanceA, STATUS_OPEN, 1), present := true)]
    {
      var a := Account(r.a, r.newBalanceA, STATUS_OPEN, 1);
      ViewAccount(ids, accounts, present, agents, r.a, a);
      ViewPresent(ids, accounts[aSlot := a], present, agents, r.a);
      accounts, present := accounts[aSlot := a], present[aSlot := true];
    }

    method ApplyEffect(aSlot: nat, bSlot: nat, r: Record)
      requires SlabOk() && r.a in ids && ids[r.a] == aSlot && bSlot < |accounts|
      modifies this`accounts, this`present
      ensures SlabOk() && Slots() == EffectOn(old(Slots()), r, old(accounts[bSlot].id))
    {
      if r.effect == 1 {
        ApplyCreate(aSlot, r);
      } else if r.effect == 3 {
        ApplyTransfer(aSlot, bSlot, r);
      } else if r.effect == 2 || r.effect == 4 {
        var a := accounts[aSlot];
        a := if r.effect == 2 then a.(balance := r.newBalanceA, version := a.version + 1)
            else a.(status := r.newStatus, version := a.version + 1);
        ViewAccount(ids, accounts, present, agents, r.a, a);
        accounts := accounts[aSlot := a];
      }
    }

    method DestinationSlot(id: AccountID) returns (slot: nat)
      requires SlabOk() && accounts != []
      ensures slot < |accounts| && accounts[slot].id == if id != 0 && id in Slots() then id else accounts[0].id
    {
      slot := 0;
      if id != 0 && id in ids {
        slot := ids[id];
      }
    }

    // A destination that is not registered leaves its slot number at zero, and so stands for
    // whatever account is in the first slot.
    method ApplySlot(r: Record)
      requires SlabOk()
      modifies this`ids, this`accounts, this`present, this`agents, this`scratch, this`marks
      ensures SlabOk() && Slots() == ApplySlotsOn(old(Slots()), r, FirstOf(old(accounts), r.a))
      ensures FirstOf(accounts, 0) == FirstOf(old(accounts), r.a) && accounts != []
    {
      var aSlot, aok := SlotFor(r.a, true);
      ghost var was := accounts;
      var bSlot := DestinationSlot(r.b);
      if r.accepted {
        ApplyEffect(aSlot, bSlot, r);
      }
      DenseFirst(ids, was, accounts);
      ViewAgent(ids, accounts, present, agents, r.a, Agent(r.pending, r.turns));
      agents := agents[aSlot := Agent(r.pending, r.turns)];
    }

    method RecordResult(r: Record)
      requires RingOk() && cfg.window > 0
      modifies this`ledger, this`results, this`order, this`orderHead, this`sequence
      ensures RingOk() && ledger == old(ledger) + LedgerOf(r) && sequence == r.sequence
      ensures var was := Engine(map[], [], old(results), old(order[orderHead..]), 0);
              Engine(map[], [], results, order[orderHead..], 0)
                  == AccountEngine.Remember(cfg.window, was, r.commandID, ResultOf(r))
    {
      if r.accepted && 1 <= r.effect <= 4 {
        ledger := ledger + [LedgerEntry(r.sequence, r.commandID, r.a, r.b, r.amount, r.effect)];
      }
      Remember(r.commandID, Result(r.sequence, r.commandID, r.accepted, r.reason, r.effect, r.turns, false));
      sequence := r.sequence;
    }

    method ApplyDurable(r: Record)
      requires Valid() && cfg.window > 0
      modifies this`ids, this`accounts, this`present, this`agents, this`scratch, this`marks, this`ledger, this`results,
          this`order,
               this`orderHead, this`sequence
      ensures Valid() && Abs() == ApplyOn(cfg.window, old(Abs()), r, FirstOf(old(accounts), r.a))
      ensures FirstOf(accounts, 0) == FirstOf(old(accounts), r.a) && accounts != []
    {
      RememberParts(cfg.window, Abs(), r.commandID, ResultOf(r));
      ApplySlot(r);
      RecordResult(r);
    }

    // ------------------------------------------------------------------- recovery

    // Checks a logged record against the versions the accounts have; a created account is registered.
    method VersionsMatch(r: Record) returns (ok: bool)
      requires SlabOk() && epoch == 0
      modifies this`ids, this`accounts, this`present, this`agents, this`scratch, this`marks
      ensures SlabOk() && Slots() == if r.accepted && r.effect == 1 then Register(old(Slots()), r.a) else old(Slots())
      ensures FirstOf(accounts, r.a) == FirstOf(old(accounts), r.a)
      ensures var slots := old(Slots());
              ok <==> r.expectedA == VersionOf(slots, r.a) && r.expectedB == if r.b == 0 then 0
                  else VersionOf(slots, r.b)
    {
      var aSlot, aok := SlotFor(r.a, r.accepted && r.effect == 1);
      var bSlot, bok := 0, false;
      if r.b != 0 {
        bSlot, bok := SlotFor(r.b, false);
      }
      var a := AccountAt(aSlot, aok);
      var b := AccountAt(bSlot, bok);
      assert Overlay() == map[];
      return a.version == r.expectedA && b.version == r.expectedB;
    }

    // Applies one logged record after checking it against what is remembered and the versions the
    // accounts have.
    method ApplyRecovered(r: Record) returns (ok: bool)
      requires Valid() && cfg.window > 0 && epoch == 0
      modifies this`ids, this`accounts, this`present, this`agents, this`scratch, this`marks, this`ledger, this`results,
          this`order,
               this`orderHead, this`sequence
      ensures Valid() && ok == Matches(old(Abs()), r)
      ensures ok ==> Abs() == ApplyOn(cfg.window, old(Abs()), r, FirstOf(old(accounts), r.a))
      ensures ok ==> FirstOf(accounts, 0) == FirstOf(old(accounts), r.a) && accounts != []
    {
      ghost var start := Abs();
      if r.commandID in results && results[r.commandID].sequence != r.sequence {
        return false;
      }
      ok := VersionsMatch(r);
      if ok {
        ApplyOnSame(cfg.window, start, Slots(), r, FirstOf(old(accounts), r.a));
        ApplyDurable(r);
      }
    }

    // Replays the records found in the log.
    method Recover(records: seq<Record>) returns (ok: bool)
      requires Valid() && cfg.window > 0 && epoch == 0
      modifies this`ids, this`accounts, this`present, this`agents, this`scratch, this`marks, this`ledger, this`results,
          this`order,
               this`orderHead, this`sequence
      ensures Valid()
      ensures ReplayOn(cfg.window, old(Abs()), records,
              FirstOf(old(accounts), if records == [] then 0 else records[0].a))
           == if ok then Some(Abs()) else None
    {
      ghost var first := FirstOf(accounts, if records == [] then 0 else records[0].a);
      for k := 0 to |records|
        invariant Valid() && ReplayOn(cfg.window, old(Abs()), records[..k], first) == Some(Abs())
        invariant FirstOf(accounts, if k < |records| then records[k].a else 0) == first || (records == [] && k == 0)
        invariant k > 0 ==> accounts != []
      {
        ReplayOnStep(cfg.window, old(Abs()), records, k, first, Abs());
        if records[k].sequence != sequence + 1 {
          ReplayOnStops(cfg.window, old(Abs()), records, k + 1, first);
          return false;
        }
        var applied := ApplyRecovered(records[k]);
        if !applied {
          ReplayOnStops(cfg.window, old(Abs()), records, k + 1, first);
          return false;
        }
      }
      assert records[..|records|] == records;
      return true;
    }

    // ------------------------------------------------------------------- batches

    // What a command finds of an account: its slot, if it has one, the account behind the overlay,
    // whether it exists, and its agent.
    method Look(id: AccountID, create: bool) returns (slot: nat, ok: bool, a: Account, there: bool, agent: Agent)
      requires SlabOk() && epoch > 0 && id != 0
      modifies this`ids, this`accounts, this`present, this`agents, this`scratch, this`marks
      ensures SlabOk() && ok == (id in ids) && (ok ==> slot == ids[id])
      ensures (forall known <- old(ids) :: known in ids && ids[known] == old(ids)[known])
              && (!create ==> unchanged(this))
      ensures Slots() == (if create then Register(old(Slots()), id) else old(Slots())) && Overlay() == old(Overlay())
      ensures a == AccountFor(Slots(), Overlay(), id) && there == Exists(Slots(), Overlay(), id)
              && agent == AgentFor(Slots(), id)
    {
      slot, ok := SlotFor(id, create);
      a := AccountAt(slot, ok);
      there := ok && (present[slot] || (epoch != 0 && marks[slot] == epoch));
      agent := if ok then agents[slot] else NO_AGENT;
    }

    method LookOther(id: AccountID) returns (slot: nat, b: Account, there: bool)
      requires SlabOk() && epoch > 0
      ensures b == AccountFor(Slots(), Overlay(), id) && there == Exists(Slots(), Overlay(), id)
      ensures id in ids && id != 0 ==> slot == ids[id]
    {
      slot, b, there := 0, NO_ACCOUNT, false;
      if id != 0 && id in ids {
        slot := ids[id];
        b := AccountAt(slot, true);
        there := present[slot] || marks[slot] == epoch;
      }
    }

    // Decides a command that has not been seen before, against the accounts behind the overlay.
    method DecideCommand(c: Command, number: nat, ghost e: Engine, ghost st: Staging)
        returns (aSlot: nat, aok: bool, bSlot: nat, r: Record)
      requires SlabOk() && epoch > 0 && ValidCommand(c) && Slots() == st.slots && Overlay() == st.overlay
      requires number == e.sequence + |st.records| + 1
      modifies this`ids, this`accounts, this`present, this`agents, this`scratch, this`marks
      ensures SlabOk() && Slots() == Registered(st.slots, c) && Overlay() == st.overlay && r == Decided(e, st, c)
      ensures aok == (c.account in ids) && (aok ==> ids[c.account] == aSlot)
              && (c.other in ids && c.other != 0 ==> ids[c.other] == bSlot)
    {
      var a, aExists, agent;
      aSlot, aok, a, aExists, agent := Look(c.account, c.kind == CREATE);
      var b, bExists;
      bSlot, b, bExists := LookOther(c.other);
      r := RecordOf(c, number, a, aExists, b, bExists, agent);
    }

    method StageFresh(c: Command, number: nat, ghost e: Engine, ghost st: Staging) returns (r: Record)
      requires SlabOk() && epoch > 0 && ValidCommand(c) && Slots() == st.slots && Overlay() == st.overlay
      requires number == e.sequence + |st.records| + 1
      modifies this`ids, this`accounts, this`present, this`agents, this`scratch, this`marks
      ensures var st' := AccountEngine.StageFresh(e, st, c);
              SlabOk() && Slots() == st'.slots && Overlay() == st'.overlay && r == Decided(e, st, c)
    {
      var aSlot, aok, bSlot;
      aSlot, aok, bSlot, r := DecideCommand(c, number, e, st);
      DecidedBacked(e, st, c);
      if r.accepted {
        StageEffect(aSlot, bSlot, r);
      }
      if aok {
        ViewAgent(ids, accounts, present, agents, c.account, Agent(r.pending, r.turns));
        agents := agents[aSlot := Agent(r.pending, r.turns)];
      }
    }

    // One command of a batch: answered from memory, or decided, recorded and hidden in the overlay.
    method StageCommand(c: Command, records: seq<Record>, replies: seq<Result>, seen: map<Bytes, nat>, ghost e: Engine,
        ghost st: Staging)
        returns (records': seq<Record>, replies': seq<Result>, seen': map<Bytes, nat>)
      requires SlabOk() && epoch > 0 && ValidCommand(c) && Staging(Slots(), Overlay(), records, replies, seen) == st
      requires results == e.results && sequence == e.sequence && forall id <- seen :: seen[id] < |replies|
      modifies this`ids, this`accounts, this`present, this`agents, this`scratch, this`marks
      ensures SlabOk() && Staging(Slots(), Overlay(), records', replies', seen') == Stage(e, st, c)
      ensures forall id <- seen' :: seen'[id] < |replies'|
    {
      if c.id in results {
        return records, replies + [results[c.id].(duplicate := true)], seen;
      }
      if c.id in seen {
        return records, replies + [replies[seen[c.id]].(duplicate := true)], seen;
      }
      var r := StageFresh(c, sequence + |records| + 1, e, st);
      return records + [r], replies + [ResultOf(r)], seen[c.id := |replies|];
    }

    method StageBatch(commands: seq<Command>) returns (records: seq<Record>, replies: seq<Result>)
      requires Valid() && epoch > 0 && Overlay() == map[] && forall c <- commands :: ValidCommand(c)
      modifies this`ids, this`accounts, this`present, this`agents, this`scratch, this`marks
      ensures var st := StageAll(old(Abs()), commands);
              Valid() && records == st.records && replies == st.replies && Abs() == old(Abs()).(slots := st.slots)
    {
      ghost var e := Abs();
      var seen: map<Bytes, nat> := map[];
      records, replies := [], [];
      for i := 0 to |commands|
        invariant SlabOk() && epoch == old(epoch)
                  && Staging(Slots(), Overlay(), records, replies, seen) == StageAll(e, commands[..i])
        invariant forall id <- seen :: seen[id] < |replies|
      {
        assert commands[..i + 1][..i] == commands[..i];
        records, replies, seen := StageCommand(commands[i], records, replies, seen, e, StageAll(e, commands[..i]));
      }
      assert commands[..|commands|] == commands;
    }

    // Applies a batch's records once its frame is durable.
    method ApplyBatch(records: seq<Record>)
      requires Valid() && cfg.window > 0
      requires forall r <- records :: r.accepted && r.effect == 3 ==> r.b != 0 && r.b in ids
      modifies this`ids, this`accounts, this`present, this`agents, this`scratch, this`marks, this`ledger, this`results,
          this`order,
               this`orderHead, this`sequence
      ensures Valid() && Abs() == ApplyAll(cfg.window, old(Abs()), records)
    {
      for k := 0 to |records|
        invariant Valid() && Abs() == ApplyAll(cfg.window, old(Abs()), records[..k]) && old(ids).Keys <= ids.Keys
      {
        assert records[..k + 1][..k] == records[..k];
        assert records[k] in records;
        ghost var was := Abs();
        ApplyOnIs(cfg.window, was, records[k], FirstOf(accounts, records[k].a));
        ApplyDurable(records[k]);
        ApplyAgents(was.slots, records[k]);
        assert ids.Keys == Abs().slots.Keys && was.slots.Keys <= ids.Keys;
      }
      assert records[..|records|] == records;
    }

    method Admit(commands: seq<Command>) returns (failure: Option<Failure>)
      requires SlabOk()
      ensures failure == None <==> Admitted(cfg, Engine(Slots(), [], map[], [], 0), commands)
      ensures failure.Some? ==> failure.value == InvalidCommand || failure.value == CapacityExceeded
    {
      if |commands| > cfg.batchMax {
        return Some(CapacityExceeded);
      }
      var created: set<AccountID> := {};
      for i := 0 to |commands|
        invariant created == NewAccounts(Slots(), commands[..i]) && forall j | 0 <= j < i :: ValidCommand(commands[j])
      {
        var c := commands[i];
        assert commands[..i + 1] == commands[..i] + [c];
        if !ValidCommand(c) {
          assert c in commands;
          return Some(InvalidCommand);
        }
        if c.kind == CREATE && c.account !in ids {
          created := created + {c.account};
        }
      }
      assert commands[..|commands|] == commands;
      DenseSize(ids, accounts);
      assert |Slots()| == |ids| by { assert Slots().Keys == ids.Keys; }
      if |accounts| + |created| > cfg.maxAccounts {
        return Some(CapacityExceeded);
      }
      return None;
    }

    // Decides a batch against a new overlay.
    method PrepareBatch(commands: seq<Command>) returns (records: seq<Record>, replies: seq<Result>)
      requires Valid() && forall c <- commands :: ValidCommand(c)
      modifies this`ids, this`accounts, this`present, this`agents, this`scratch, this`marks, this`epoch
      ensures var st := StageAll(old(Abs()), commands);
              Valid() && records == st.records && replies == st.replies && Abs() == old(Abs()).(slots := st.slots)
      ensures forall r <- records :: r.accepted && r.effect == 3 ==> r.b != 0 && r.b in ids
    {
      ghost var e := Abs();
      StagedTargets(e, commands);
      StartEpoch();
      assert Abs() == e;
      records, replies := StageBatch(commands);
    }

    // Decides an admitted batch in order, writes its records as one frame, syncs, and applies them.
    // If the frame cannot be made durable, no account, ledger entry or result has changed, and the
    // engine refuses all further work.
    method CommitBatch(commands: seq<Command>, storage: Storage) returns (replies: seq<Result>, ok: bool)
      requires Valid() && cfg.window > 0 && !poisoned && Admitted(cfg, Abs(), commands)
      modifies this, wal
      ensures Valid() && closed == old(closed) && poisoned == !ok
      ensures ok ==> Outcome(Abs(), replies) == Batch(cfg.window, old(Abs()), commands)
      ensures ok && !wal.memoryOnly && StageAll(old(Abs()), commands).records != [] ==>
                wal.file == old(wal.file) + Frame(wal.sum, StageAll(old(Abs()), commands).records)
                    && wal.synced == |wal.file|
      ensures !ok ==> Abs() == old(Abs()).(slots := StageAll(old(Abs()), commands).slots)
    {
      ghost var e := Abs();
      var records;
      records, replies := PrepareBatch(commands);
      ghost var staged := Abs();
      if records == [] {
        BatchParts(cfg.window, e, commands, StageAll(e, commands), staged);
        return replies, true;
      }
      ok := wal.AppendBatch(records, storage);
      if !ok {
        poisoned := true;
        assert Abs() == staged;
        return [], false;
      }
      ApplyBatch(records);
      BatchParts(cfg.window, e, commands, StageAll(e, commands), staged);
    }

    method SubmitBatch(commands: seq<Command>, storage: Storage)
        returns (replies: seq<Result>, failure: Option<Failure>)
      requires Valid() && cfg.window > 0
      modifies this, wal
      ensures Valid() && closed == old(closed)
      ensures old(closed) ==> failure == Some(Closed)
      ensures !old(closed) && old(poisoned) ==> failure == Some(Poisoned)
      ensures old(closed) || old(poisoned) || |commands| == 0 || !Admitted(cfg, old(Abs()), commands) ==>
                Abs() == old(Abs()) && poisoned == old(poisoned) && wal.file == old(wal.file) && replies == []
      ensures !old(closed) && !old(poisoned) && |commands| > 0 ==>
                (failure.Some? && failure.value != DurabilityWriteFailed <==> !Admitted(cfg, old(Abs()), commands))
      ensures !old(closed) && !old(poisoned) && |commands| > 0 && Admitted(cfg, old(Abs()), commands) ==>
                && poisoned == failure.Some?
                && (failure.None? ==> Outcome(Abs(), replies) == Batch(cfg.window, old(Abs()), commands))
    {
      replies := [];
      if closed { return [], Some(Closed); }
      if poisoned { return [], Some(Poisoned); }
      if |commands| == 0 { return [], None; }
      failure := Admit(commands);
      AdmittedSlots(cfg, Abs(), commands);
      if failure.Some? { return [], failure; }
      var ok;
      replies, ok := CommitBatch(commands, storage);
      failure := if ok then None else Some(DurabilityWriteFailed);
    }

    // ------------------------------------------------------------------- snapshots

    method EncodeRows() returns (b: Bytes)
      requires Valid()
      ensures b == Snap.Rows(RowsOf(accounts, present, agents))
    {
      b := [];
      ghost var rows := RowsOf(accounts, present, agents);
      for i := 0 to |accounts|
        invariant b == Snap.Rows(rows[..i])
      {
        RowsSnoc(rows[..i], rows[i]);
        assert rows[..i + 1] == rows[..i] + [rows[i]];
        b := b + Snap.RowBytes(Slot(accounts[i], present[i], agents[i]));
      }
      assert rows[..|rows|] == rows;
    }

    method EncodeLedger() returns (b: Bytes)
      ensures b == Snap.Entries(ledger)
    {
      b := [];
      for i := 0 to |ledger|
        invariant b == Snap.Entries(ledger[..i])
      {
        EntriesSnoc(ledger[..i], ledger[i]);
        assert ledger[..i + 1] == ledger[..i] + [ledger[i]];
        b := b + Snap.EntryBytes(ledger[i]);
      }
      assert ledger[..|ledger|] == ledger;
    }

    method EncodeResults() returns (b: Bytes)
      requires orderHead <= |order| && forall id <- order[orderHead..] :: id in results
      ensures b == Snap.Results(KeptResults(results, order[orderHead..]))
    {
      b := [];
      var active := order[orderHead..];
      ghost var kept := KeptResults(results, active);
      for i := 0 to |active|
        invariant b == Snap.Results(kept[..i])
      {
        ResultsSnoc(kept[..i], kept[i]);
        assert kept[..i + 1] == kept[..i] + [kept[i]];
        b := b + Snap.ResultBytes(results[active[i]]);
      }
      assert kept[..|kept|] == kept;
    }

    // The snapshot of the engine as it stands: its image with the slots in their own order.
    method EncodeSnapshot(digest: Snap.Digest) returns (b: Bytes)
      requires Valid() && forall id <- order[orderHead..] :: id in results
      ensures Numbers(Numbering(accounts), Abs().slots)
      ensures b == Snap.Encode(digest, ImageOf(cfg.window, Abs(), Numbering(accounts)))
    {
      var rows := EncodeRows();
      var entries := EncodeLedger();
      var kept := EncodeResults();
      var body := LittleEndian(8, sequence) + LittleEndian(4, |accounts|) + rows + LittleEndian(8, |ledger|) + entries
        + LittleEndian(4, cfg.window) + LittleEndian(4, |order| - orderHead) + kept;
      b := Snap.SNAPSHOT_MAGIC + LittleEndian(4, 1) + LittleEndian(8, |body|) + digest(body) + body;
      SlabNumbers(ids, accounts, present, agents);
      ImageParts(cfg.window, Abs(), accounts, present, agents, ids);
    }
  }

  // The account IDs in the order of their slots.
  ghost function Numbering(accounts: seq<Account>): seq<AccountID>
  {
    seq(|accounts|, i requires 0 <= i < |accounts| => accounts[i].id)
  }

  ghost function RowsOf(accounts: seq<Account>, present: seq<bool>, agents: seq<Agent>): seq<Slot>
    requires |accounts| == |present| == |agents|
  {
    seq(|accounts|, i requires 0 <= i < |accounts| => Slot(accounts[i], present[i], agents[i]))
  }

  ghost function KeptResults(results: map<Bytes, Result>, active: seq<Bytes>): seq<Result>
    requires forall id <- active :: id in results
  {
    seq(|active|, i requires 0 <= i < |active| => results[active[i]])
  }

  lemma SlabNumbers(ids: Ids, accounts: seq<Account>, present: seq<bool>, agents: seq<Agent>)
    requires Dense(ids, accounts) && |present| == |agents| == |accounts|
    ensures Numbers(Numbering(accounts), View(ids, accounts, present, agents))
  {
    var numbers := Numbering(accounts);
    forall id <- ids ensures id in numbers { assert numbers[ids[id]] == id; }
  }

  lemma ImageParts(window: nat, e: Engine, accounts: seq<Account>, present: seq<bool>, agents: seq<Agent>, ids: Ids)
    requires Dense(ids, accounts) && |present| == |agents| == |accounts|
             && e.slots == View(ids, accounts, present, agents)
    requires forall id <- e.order :: id in e.results
    requires forall id <- Numbering(accounts) :: id in e.slots
    ensures ImageOf(window, e, Numbering(accounts))
         == Snap.Image(e.sequence, RowsOf(accounts, present, agents), e.ledger, window, KeptResults(e.results, e.order))
  {
    assert ImageOf(window, e, Numbering(accounts)).rows == RowsOf(accounts, present, agents);
  }

  lemma {:induction false} RowsSnoc(rows: seq<Slot>, s: Slot)
    ensures Snap.Rows(rows + [s]) == Snap.Rows(rows) + Snap.RowBytes(s)
    decreases |rows|
  {
    if rows == [] {
      assert Snap.Rows([s]) == Snap.RowBytes(s) + Snap.Rows([]);
    } else {
      assert (rows + [s])[1..] == rows[1..] + [s];
      RowsSnoc(rows[1..], s);
      ConcatAssoc(Snap.RowBytes(rows[0]), Snap.Rows(rows[1..]), Snap.RowBytes(s));
    }
  }

  lemma {:induction false} EntriesSnoc(ledger: seq<LedgerEntry>, l: LedgerEntry)
    ensures Snap.Entries(ledger + [l]) == Snap.Entries(ledger) + Snap.EntryBytes(l)
    decreases |ledger|
  {
    if ledger == [] {
      assert Snap.Entries([l]) == Snap.EntryBytes(l) + Snap.Entries([]);
    } else {
      assert (ledger + [l])[1..] == ledger[1..] + [l];
      EntriesSnoc(ledger[1..], l);
      ConcatAssoc(Snap.EntryBytes(ledger[0]), Snap.Entries(ledger[1..]), Snap.EntryBytes(l));
    }
  }

  lemma {:induction false} ResultsSnoc(results: seq<Result>, r: Result)
    ensures Snap.Results(results + [r]) == Snap.Results(results) + Snap.ResultBytes(r)
    decreases |results|
  {
    if results == [] {
      assert Snap.Results([r]) == Snap.ResultBytes(r) + Snap.Results([]);
    } else {
      assert (results + [r])[1..] == results[1..] + [r];
      ResultsSnoc(results[1..], r);
      ConcatAssoc(Snap.ResultBytes(results[0]), Snap.Results(results[1..]), Snap.ResultBytes(r));
    }
  }

  lemma BatchParts(window: nat, e: Engine, cs: seq<Command>, st: Staging, staged: Engine)
    requires st == StageAll(e, cs) && staged == e.(slots := st.slots)
    ensures Batch(window, e, cs) == Outcome(ApplyAll(window, staged, st.records), st.replies)
    ensures st.records == [] ==> Batch(window, e, cs) == Outcome(staged, st.replies)
  {}

  // Admission looks at the registered accounts only.
  lemma AdmittedSlots(cfg: Config, e: Engine, cs: seq<Command>)
    ensures Admitted(cfg, e, cs) == Admitted(cfg, Engine(e.slots, [], map[], [], 0), cs)
  {}

  // The records of a batch name real accounts, and a transfer's destination is registered.
  lemma {:induction false} StagedTargets(e: Engine, cs: seq<Command>)
    requires forall c <- cs :: ValidCommand(c)
    ensures forall r <- StageAll(e, cs).records ::
              r.a != 0 && (r.accepted && r.effect == 3 ==> r.b != 0 && r.b in StageAll(e, cs).slots)
  {
    if cs != [] {
      var c, st := cs[|cs| - 1], StageAll(e, cs[..|cs| - 1]);
      StagedTargets(e, cs[..|cs| - 1]);
      assert ValidCommand(c) by { assert c in cs; }
      DecidedBacked(e, st, c);
      assert st.slots.Keys <= StageAll(e, cs).slots.Keys;
    }
  }

  lemma {:induction false} DenseSize(ids: Ids, accounts: seq<Account>)
    requires Dense(ids, accounts)
    ensures |ids| == |accounts|
    decreases |accounts|
  {
    if accounts == [] {
      assert ids == map[];
    } else {
      var n := |accounts| - 1;
      var last := accounts[n].id;
      assert Dense(ids - {last}, accounts[..n]);
      DenseSize(ids - {last}, accounts[..n]);
    }
  }

  // ------------------------------------------------- records whose destination is missing

  ghost function FirstOf(accounts: seq<Account>, id: AccountID): AccountID
  {
    if accounts == [] then id else accounts[0].id
  }

  lemma DenseFirst(ids: Ids, a: seq<Account>, b: seq<Account>)
    requires Dense(ids, a) && Dense(ids, b) && a != []
    ensures b != [] && a[0].id == b[0].id
  {
    assert a[0].id in ids && ids[a[0].id] == 0;
  }

  ghost function Moved(slots: AccountEngine.Slots, r: Record, dest: AccountID): AccountEngine.Slots
    requires r.a in slots && dest in slots
  {
    var a, b := slots[r.a].account, slots[dest].account;
    SetAccount(SetAccount(slots, r.a, a.(balance := r.newBalanceA, version := a.version + 1)),
               dest, b.(balance := r.newBalanceB, version := b.version + 1))
  }

  ghost function EffectOn(slots: AccountEngine.Slots, r: Record, dest: AccountID): AccountEngine.Slots
    requires r.a in slots && dest in slots
  {
    if r.effect == 3 then Moved(slots, r, dest) else Effect(slots, r)
  }

  // What applying a record does, `first` being the account in the first slot.
  ghost function ApplySlotsOn(slots: AccountEngine.Slots, r: Record, first: AccountID): AccountEngine.Slots
  {
    var registered := Register(slots, r.a);
    var dest := if r.b != 0 && r.b in registered then r.b else first;
    SetAgent(if r.accepted && dest in registered then EffectOn(registered, r, dest)
        else registered, r.a, Agent(r.pending, r.turns))
  }

  ghost function ApplyOn(window: nat, e: Engine, r: Record, first: AccountID): Engine
  {
    Apply(window, e, r).(slots := ApplySlotsOn(e.slots, r, first))
  }

  ghost predicate Matches(e: Engine, r: Record)
  {
    && (r.commandID in e.results ==> e.results[r.commandID].sequence == r.sequence)
    && r.expectedA == VersionOf(e.slots, r.a) && r.expectedB == if r.b == 0 then 0 else VersionOf(e.slots, r.b)
  }

  ghost function ReplayOn(window: nat, e: Engine, rs: seq<Record>, first: AccountID): Option<Engine>
  {
    if rs == [] then Some(e)
    else
      var front, r := ReplayOn(window, e, rs[..|rs| - 1], first), rs[|rs| - 1];
      if front.Some? && r.sequence == front.value.sequence + 1 && Matches(front.value, r)
      then Some(ApplyOn(window, front.value, r, first)) else None
  }

  lemma ReplayOnStep(window: nat, e: Engine, rs: seq<Record>, k: nat, first: AccountID, now: Engine)
    requires k < |rs| && ReplayOn(window, e, rs[..k], first) == Some(now)
    ensures ReplayOn(window, e, rs[..k + 1], first) ==
            if rs[k].sequence == now.sequence + 1 && Matches(now, rs[k]) then Some(ApplyOn(window, now, rs[k], first))
                else None
  {
    assert rs[..k + 1][..k] == rs[..k];
  }

  lemma ApplyOnSame(window: nat, e: Engine, slots: AccountEngine.Slots, r: Record, first: AccountID)
    requires slots == e.slots || slots == Register(e.slots, r.a)
    ensures ApplyOn(window, e.(slots := slots), r, first) == ApplyOn(window, e, r, first)
  {}

  // A record whose destination is registered has the effect that its batch decided.
  lemma ApplyOnIs(window: nat, e: Engine, r: Record, first: AccountID)
    requires first in Register(e.slots, r.a)
             && (r.accepted && r.effect == 3 ==> r.b != 0 && r.b in Register(e.slots, r.a))
    ensures ApplyOn(window, e, r, first) == Apply(window, e, r)
  {}

  lemma FreshVersions(e: Engine, st: Staging, now: Engine, c: Command)
    requires Tracks(e, st, now) && ValidCommand(c) && SlotsOk(now.slots)
    ensures var r := Decided(e, st, c); r.accepted && r.effect == 3 ==> r.b != 0 && r.expectedB > 0
  {
    var slots, replayed := Registered(st.slots, c), Register(now.slots, c.account);
    RegisterShows(st.slots, st.overlay, now.slots, c);
    assert SlotsOk(replayed);
    ShownBalance(slots, st.overlay, replayed, c.other);
    if Exists(slots, st.overlay, c.other) {
      assert ShowsAt(slots, st.overlay, replayed, c.other);
      assert SlotOk(c.other, replayed[c.other]);
    }
  }

  // A batch writes transfers only to accounts that exist.
  lemma {:induction false} StagedVersions(window: nat, e: Engine, cs: seq<Command>)
    requires window > 0 && Good(window, e) && forall c <- cs :: ValidCommand(c)
    ensures forall r <- StageAll(e, cs).records :: r.accepted && r.effect == 3 ==> r.b != 0 && r.expectedB > 0
  {
    if cs != [] {
      var front, c := cs[..|cs| - 1], cs[|cs| - 1];
      StagedVersions(window, e, front);
      BatchGood(window, e, front);
      BatchReplays(window, e, front);
      var st := StageAll(e, front);
      assert ValidCommand(c) by { assert c in cs; }
      if !Known(e, st, c.id) { FreshVersions(e, st, ApplyAll(window, e, st.records), c); }
    }
  }

  /** Replay by slot number is replay by account for every log whose transfers name a destination that
      had been created when they were decided, as those of every batch do. */
  lemma {:induction false} ReplayOnIsReplay(window: nat, e: Engine, rs: seq<Record>, first: AccountID)
    requires first in e.slots || (e.slots == map[] && rs != [] && first == rs[0].a)
    requires forall r <- rs :: r.accepted && r.effect == 3 ==> r.b != 0 && r.expectedB > 0
    ensures ReplayOn(window, e, rs, first) == Replay(window, e, rs)
    ensures Replay(window, e, rs).Some? && rs != [] ==> first in Replay(window, e, rs).value.slots
    decreases |rs|
  {
    if rs != [] {
      var n := |rs| - 1;
      var front, r := rs[..n], rs[n];
      if n > 0 {
        ReplayOnIsReplay(window, e, front, first);
      } else {
        assert front == [];
      }
      var was := Replay(window, e, front);
      if was.Some? && Replays(was.value, r) {
        ApplyOnIs(window, was.value, r, first);
        ApplyAgents(was.value.slots, r);
      }
    }
  }

  lemma {:induction false} ReplayOnStops(window: nat, e: Engine, rs: seq<Record>, k: nat, first: AccountID)
    requires k <= |rs| && ReplayOn(window, e, rs[..k], first) == None
    ensures ReplayOn(window, e, rs, first) == None
    decreases |rs|
  {
    if k == |rs| {
      assert rs[..k] == rs;
    } else {
      assert rs[..|rs| - 1][..k] == rs[..k];
      ReplayOnStops(window, e, rs[..|rs| - 1], k, first);
    }
  }
}
