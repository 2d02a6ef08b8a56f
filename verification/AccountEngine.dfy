/**
 What the account engine means, account by account: applying records, remembering results, and
 deciding a batch against an overlay that hides its own effects until they are durable.
 */
module AccountEngine {
  import opened Bytes
  import opened Accounts

  datatype Agent = Agent(pending: Pending, turns: int)

  const NO_AGENT := Agent(NO_PENDING, 0)

  datatype Slot = Slot(account: Account, present: bool, agent: Agent)

  function NewSlot(id: AccountID): Slot
  {
    Slot(Account(id, 0, 0, 0), false, NO_AGENT)
  }

  datatype Result = Result(sequence: nat, commandID: Bytes, accepted: bool, reason: int, effect: int, turns: int,
      duplicate: bool)

  datatype LedgerEntry = LedgerEntry(sequence: nat, commandID: Bytes, from: AccountID, to: AccountID, amount: int,
      effect: int)

  datatype Record = Record(sequence: nat, commandID: Bytes, kind: int, a: AccountID, b: AccountID, amount: int,
                           accepted: bool, reason: int, effect: int, turns: int, newBalanceA: int, newBalanceB: int,
                           newStatus: int, expectedA: nat, expectedB: nat, pending: Pending)

  type Slots = map<AccountID, Slot>

  datatype Engine = Engine(slots: Slots, ledger: seq<LedgerEntry>, results: map<Bytes, Result>, order: seq<Bytes>,
      sequence: nat)

  const EMPTY := Engine(map[], [], map[], [], 0)

  datatype Config = Config(window: nat, maxAccounts: nat, batchMax: nat)

  // --------------------------------------------------------------- applying records

  function Register(slots: Slots, id: AccountID): Slots
  {
    if id in slots then slots else slots[id := NewSlot(id)]
  }

  function SetAccount(slots: Slots, id: AccountID, account: Account): Slots
    requires id in slots
  {
    slots[id := slots[id].(account := account)]
  }

  function Effect(slots: Slots, r: Record): Slots
    requires r.a in slots
  {
    var a := slots[r.a].account;
    if r.effect == 1
        then slots[r.a := slots[r.a].(account := Account(r.a, r.newBalanceA, STATUS_OPEN, 1), present := true)]
    else if r.effect == 2 then SetAccount(slots, r.a, a.(balance := r.newBalanceA, version := a.version + 1))
    else if r.effect == 3 && r.b in slots then
      var b := slots[r.b].account;
      SetAccount(SetAccount(slots, r.a, a.(balance := r.newBalanceA, version := a.version + 1)),
                 r.b, b.(balance := r.newBalanceB, version := b.version + 1))
    else if r.effect == 4 then SetAccount(slots, r.a, a.(status := r.newStatus, version := a.version + 1))
    else slots
  }

  function SetAgent(slots: Slots, id: AccountID, agent: Agent): Slots
    requires id in slots
  {
    slots[id := slots[id].(agent := agent)]
  }

  function ApplySlots(slots: Slots, r: Record): Slots
  {
    var registered := Register(slots, r.a);
    SetAgent(if r.accepted then Effect(registered, r) else registered, r.a, Agent(r.pending, r.turns))
  }

  function ResultOf(r: Record): Result
  {
    Result(r.sequence, r.commandID, r.accepted, r.reason, r.effect, r.turns, false)
  }

  function LedgerOf(r: Record): seq<LedgerEntry>
  {
    if r.accepted && 1 <= r.effect <= 4 then [LedgerEntry(r.sequence, r.commandID, r.a, r.b, r.amount, r.effect)]
        else []
  }

  // Results are remembered for the last `window` commands.
  function Remember(window: nat, e: Engine, id: Bytes, result: Result): Engine
  {
    var results, order := e.results[id := result], e.order + [id];
    if |order| > window then e.(results := results - {order[0]}, order := order[1..])
    else e.(results := results, order := order)
  }

  function Apply(window: nat, e: Engine, r: Record): Engine
  {
    Remember(window, e, r.commandID, ResultOf(r))
      .(slots := ApplySlots(e.slots, r), ledger := e.ledger + LedgerOf(r), sequence := r.sequence)
  }

  function ApplyAll(window: nat, e: Engine, rs: seq<Record>): Engine
  {
    if rs == [] then e else Apply(window, ApplyAll(window, e, rs[..|rs| - 1]), rs[|rs| - 1])
  }

  // ------------------------------------------------------------------ recovery checks

  function VersionOf(slots: Slots, id: AccountID): nat
  {
    if id in slots then slots[id].account.version else 0
  }

  // Replay accepts a record if it is the next one, is not a command already remembered, and was
  // decided against the versions the accounts have.
  predicate Replays(e: Engine, r: Record)
  {
    && r.sequence == e.sequence + 1
    && (r.commandID in e.results ==> e.results[r.commandID].sequence == r.sequence)
    && r.expectedA == VersionOf(e.slots, r.a)
    && r.expectedB == (if r.b == 0 then 0 else VersionOf(e.slots, r.b))
  }

  function Replay(window: nat, e: Engine, rs: seq<Record>): Option<Engine>
  {
    if rs == [] then Some(e)
    else
      var front := Replay(window, e, rs[..|rs| - 1]);
      if front.Some? && Replays(front.value, rs[|rs| - 1]) then Some(Apply(window, front.value, rs[|rs| - 1])) else None
  }

  // ----------------------------------------------------------------- deciding a batch

  // What a batch has decided so far: the registered accounts with their agents, the accounts its
  // own effects hide, the records to be written, the answers, and where each command was answered.
  datatype Staging = Staging(slots: Slots, overlay: map<AccountID, Account>, records: seq<Record>, replies: seq<Result>,
                             seen: map<Bytes, nat>)

  function Begin(e: Engine): Staging
  {
    Staging(e.slots, map[], [], [], map[])
  }

  function AccountFor(slots: Slots, overlay: map<AccountID, Account>, id: AccountID): Account
  {
    if id == 0 || id !in slots then NO_ACCOUNT else if id in overlay then overlay[id] else slots[id].account
  }

  predicate Exists(slots: Slots, overlay: map<AccountID, Account>, id: AccountID)
  {
    id != 0 && id in slots && (slots[id].present || id in overlay)
  }

  function AgentFor(slots: Slots, id: AccountID): Agent
  {
    if id in slots then slots[id].agent else NO_AGENT
  }

  function RecordOf(c: Command, sequence: nat, a: Account, aok: bool, b: Account, bok: bool, agent: Agent): Record
  {
    var d := Decide(c, a, aok, b, bok, agent.pending);
    Record(sequence, c.id, c.kind, c.account, c.other, c.amount, d.accepted, d.reason, d.effect, agent.turns + 1,
           d.balanceA, d.balanceB, d.status, a.version, b.version, NextPending(c, d, agent.pending))
  }

  function StageEffect(slots: Slots, overlay: map<AccountID, Account>, r: Record): map<AccountID, Account>
  {
    var a, b := AccountFor(slots, overlay, r.a), AccountFor(slots, overlay, r.b);
    if !r.accepted then overlay
    else if r.effect == 1 then overlay[r.a := Account(r.a, r.newBalanceA, STATUS_OPEN, 1)]
    else if r.effect == 2 then overlay[r.a := a.(balance := r.newBalanceA, version := a.version + 1)]
    else if r.effect == 3 then
      overlay[r.a := a.(balance := r.newBalanceA, version := a.version + 1)][r.b :=
          b.(balance := r.newBalanceB, version := b.version + 1)]
    else if r.effect == 4 then overlay[r.a := a.(status := r.newStatus, version := a.version + 1)]
    else overlay
  }

  function Registered(slots: Slots, c: Command): Slots
  {
    if c.kind == CREATE then Register(slots, c.account) else slots
  }

  // The record of a command that has not been seen before.
  function Decided(e: Engine, st: Staging, c: Command): Record
  {
    var slots := Registered(st.slots, c);
    RecordOf(c, e.sequence + |st.records| + 1,
             AccountFor(slots, st.overlay, c.account), Exists(slots, st.overlay, c.account),
             AccountFor(slots, st.overlay, c.other), Exists(slots, st.overlay, c.other), AgentFor(slots, c.account))
  }

  function StageFresh(e: Engine, st: Staging, c: Command): Staging
  {
    var slots, r := Registered(st.slots, c), Decided(e, st, c);
    Staging(if c.account in slots then SetAgent(slots, c.account, Agent(r.pending, r.turns)) else slots,
            StageEffect(slots, st.overlay, r), st.records + [r], st.replies + [ResultOf(r)],
                st.seen[c.id := |st.replies|])
  }

  predicate Known(e: Engine, st: Staging, id: Bytes)
  {
    id in e.results || (id in st.seen && st.seen[id] < |st.replies|)
  }

  function Recall(e: Engine, st: Staging, id: Bytes): Result
    requires Known(e, st, id)
  {
    if id in e.results then e.results[id].(duplicate := true) else st.replies[st.seen[id]].(duplicate := true)
  }

  function Stage(e: Engine, st: Staging, c: Command): Staging
  {
    if Known(e, st, c.id) then st.(replies := st.replies + [Recall(e, st, c.id)]) else StageFresh(e, st, c)
  }

  function StageAll(e: Engine, cs: seq<Command>): Staging
  {
    if cs == [] then Begin(e) else Stage(e, StageAll(e, cs[..|cs| - 1]), cs[|cs| - 1])
  }

  // -------------------------------------------------------------------- admission

  function NewAccounts(slots: Slots, cs: seq<Command>): set<AccountID>
  {
    set c | c in cs && c.kind == CREATE && c.account !in slots :: c.account
  }

  predicate Admitted(cfg: Config, e: Engine, cs: seq<Command>)
  {
    && |cs| <= cfg.batchMax && (forall c <- cs :: ValidCommand(c))
    && |e.slots| + |NewAccounts(e.slots, cs)| <= cfg.maxAccounts
  }

  datatype Outcome = Outcome(engine: Engine, replies: seq<Result>)

  // A batch whose frame became durable: the staged agents and registrations, then every record.
  function Batch(window: nat, e: Engine, cs: seq<Command>): Outcome
  {
    var st := StageAll(e, cs);
    Outcome(ApplyAll(window, e.(slots := st.slots), st.records), st.replies)
  }

  // The same commands, one batch each.
  function Serial(window: nat, e: Engine, cs: seq<Command>): Outcome
  {
    if cs == [] then Outcome(e, [])
    else
      var front := Serial(window, e, cs[..|cs| - 1]);
      var last := Batch(window, front.engine, [cs[|cs| - 1]]);
      Outcome(last.engine, front.replies + last.replies)
  }
}
