/**
 Dense storage of accounts: a map from account IDs to slot numbers, parallel arrays over the slots,
 and an overlay kept as a scratch array with epoch stamps. What the arrays mean as maps, and what
 each in-place update means.
 */
module AccountSlab {
  import opened Bytes
  import opened Accounts
  import opened AccountEngine

  type Ids = map<AccountID, nat>

  const MAX_EPOCH: nat := 0xFFFF_FFFF

  // Slot numbers and account IDs determine each other.
  ghost predicate Dense(ids: Ids, accounts: seq<Account>)
  {
    && (forall id <- ids :: ids[id] < |accounts| && accounts[ids[id]].id == id)
    && (forall i | 0 <= i < |accounts| :: accounts[i].id in ids && ids[accounts[i].id] == i)
  }

  // The slots, account by account.
  ghost function View(ids: Ids, accounts: seq<Account>, present: seq<bool>, agents: seq<Agent>): Slots
    requires Dense(ids, accounts) && |present| == |agents| == |accounts|
  {
    map id <- ids :: Slot(accounts[ids[id]], present[ids[id]], agents[ids[id]])
  }

  // The overlay: the scratch entries stamped with the current epoch.
  ghost function Overlaid(ids: Ids, accounts: seq<Account>, scratch: seq<Account>, marks: seq<nat>,
      epoch: nat): map<AccountID, Account>
    requires Dense(ids, accounts) && |scratch| == |marks| == |accounts|
  {
    map id <- ids | epoch != 0 && marks[ids[id]] == epoch :: scratch[ids[id]]
  }

  lemma ViewRegister(ids: Ids, accounts: seq<Account>, present: seq<bool>, agents: seq<Agent>, id: AccountID)
    requires Dense(ids, accounts) && |present| == |agents| == |accounts| && id !in ids
    ensures var ids', accounts' := ids[id := |accounts|], accounts + [Account(id, 0, 0, 0)];
            && Dense(ids', accounts')
            && View(ids', accounts', present + [false], agents + [NO_AGENT])
               == Register(View(ids, accounts, present, agents), id)
  {
    var ids', accounts' := ids[id := |accounts|], accounts + [Account(id, 0, 0, 0)];
    assert Dense(ids', accounts');
  }

  lemma OverlaidRegister(ids: Ids, accounts: seq<Account>, scratch: seq<Account>, marks: seq<nat>, epoch: nat,
      id: AccountID)
    requires Dense(ids, accounts) && |scratch| == |marks| == |accounts| && id !in ids
    requires Dense(ids[id := |accounts|], accounts + [Account(id, 0, 0, 0)])
    ensures Overlaid(ids[id := |accounts|], accounts + [Account(id, 0, 0, 0)], scratch + [NO_ACCOUNT], marks + [0],
            epoch)
         == Overlaid(ids, accounts, scratch, marks, epoch)
  {}

  lemma ViewAccount(ids: Ids, accounts: seq<Account>, present: seq<bool>, agents: seq<Agent>, id: AccountID, a: Account)
    requires Dense(ids, accounts) && |present| == |agents| == |accounts| && id in ids && a.id == id
    ensures var accounts' := accounts[ids[id] := a];
            Dense(ids, accounts')
                && View(ids, accounts', present, agents) == SetAccount(View(ids, accounts, present, agents), id, a)
  {
    var accounts' := accounts[ids[id] := a];
    assert Dense(ids, accounts');
  }

  lemma ViewPresent(ids: Ids, accounts: seq<Account>, present: seq<bool>, agents: seq<Agent>, id: AccountID)
    requires Dense(ids, accounts) && |present| == |agents| == |accounts| && id in ids
    ensures var slots := View(ids, accounts, present, agents);
            View(ids, accounts, present[ids[id] := true], agents) == slots[id := slots[id].(present := true)]
  {}

  lemma ViewAgent(ids: Ids, accounts: seq<Account>, present: seq<bool>, agents: seq<Agent>, id: AccountID, agent: Agent)
    requires Dense(ids, accounts) && |present| == |agents| == |accounts| && id in ids
    ensures View(ids, accounts, present, agents[ids[id] := agent])
            == SetAgent(View(ids, accounts, present, agents), id, agent)
  {}

  lemma OverlaidSet(ids: Ids, accounts: seq<Account>, scratch: seq<Account>, marks: seq<nat>, epoch: nat, id: AccountID,
      a: Account)
    requires Dense(ids, accounts) && |scratch| == |marks| == |accounts| && id in ids && epoch > 0
    ensures Overlaid(ids, accounts, scratch[ids[id] := a], marks[ids[id] := epoch], epoch)
         == Overlaid(ids, accounts, scratch, marks, epoch)[id := a]
  {}

  // A new epoch starts with an empty overlay - also when the counter wraps and the stamps are
  // cleared.
  lemma OverlaidFresh(ids: Ids, accounts: seq<Account>, scratch: seq<Account>, marks: seq<nat>, epoch: nat)
    requires Dense(ids, accounts) && |scratch| == |marks| == |accounts| && forall i | 0 <= i < |marks| ::
               marks[i] < epoch
    ensures Overlaid(ids, accounts, scratch, marks, epoch) == map[]
  {}
}
