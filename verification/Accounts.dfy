/** Accounts, commands and the decision rule of the account engine. */
module Accounts {
  import opened Bytes

  type AccountID = nat

  const STATUS_OPEN := 1
  const STATUS_FROZEN := 2

  datatype Account = Account(id: AccountID, balance: int, status: int, version: nat)

  // What a lookup of an unknown account gives.
  const NO_ACCOUNT := Account(0, 0, 0, 0)

  const CREATE := 0
  const DEPOSIT := 1
  const WITHDRAW := 2
  const TRANSFER := 3
  const FREEZE := 4
  const UNFREEZE := 5
  const BEGIN_TRANSFER := 6
  const CONFIRM := 7
  const CANCEL := 8

  datatype Command = Command(id: Bytes, kind: int, account: AccountID, other: AccountID, amount: int)

  datatype Pending = Pending(active: bool, target: AccountID, amount: int)

  const NO_PENDING := Pending(false, 0, 0)

  datatype Decision = Decision(accepted: bool, reason: int, effect: int, balanceA: int, balanceB: int, status: int)

  const APPLIED := 0
  const PREPARED := 1
  const CANCELLED := 2
  const INVALID_AMOUNT := 3
  const MISSING := 4
  const EXISTS := 5
  const FROZEN := 6
  const INSUFFICIENT := 7
  const INVALID_WORKFLOW := 8

  predicate ValidCommand(c: Command)
  {
    && c.id != [] && c.account != 0
    && (c.kind == TRANSFER || c.kind == BEGIN_TRANSFER || c.kind == CONFIRM ==> c.other != 0 && c.other != c.account)
  }

  function Refuse(a: Account, b: Account, reason: int): Decision
  {
    Decision(false, reason, 0, a.balance, b.balance, a.status)
  }

  function DecideMove(c: Command, a: Account, aok: bool, b: Account, bok: bool): Decision
  {
    if c.amount <= 0 then Refuse(a, b, INVALID_AMOUNT)
    else if !aok || !bok then Refuse(a, b, MISSING)
    else if a.status == STATUS_FROZEN then Refuse(a, b, FROZEN)
    else if a.balance < c.amount then Refuse(a, b, INSUFFICIENT)
    else Decision(true, APPLIED, 3, a.balance - c.amount, b.balance + c.amount, a.status)
  }

  function Decide(c: Command, a: Account, aok: bool, b: Account, bok: bool, pending: Pending): Decision
  {
    if c.kind == CREATE then
      if aok then Refuse(a, b, EXISTS)
      else if c.amount < 0 then Refuse(a, b, INVALID_AMOUNT)
      else Decision(true, APPLIED, 1, c.amount, b.balance, STATUS_OPEN)
    else if c.kind == DEPOSIT then
      if c.amount <= 0 then Refuse(a, b, INVALID_AMOUNT)
      else if !aok then Refuse(a, b, MISSING)
      else Decision(true, APPLIED, 2, a.balance + c.amount, b.balance, a.status)
    else if c.kind == WITHDRAW then
      if c.amount <= 0 then Refuse(a, b, INVALID_AMOUNT)
      else if !aok then Refuse(a, b, MISSING)
      else if a.status == STATUS_FROZEN then Refuse(a, b, FROZEN)
      else if a.balance < c.amount then Refuse(a, b, INSUFFICIENT)
      else Decision(true, APPLIED, 2, a.balance - c.amount, b.balance, a.status)
    else if c.kind == TRANSFER then DecideMove(c, a, aok, b, bok)
    else if c.kind == CONFIRM then
      if !pending.active || pending.target != c.other || pending.amount != c.amount then Refuse(a, b, INVALID_WORKFLOW)
      else DecideMove(c, a, aok, b, bok)
    else if c.kind == FREEZE then
      if !aok then Refuse(a, b, MISSING) else Decision(true, APPLIED, 4, a.balance, b.balance, STATUS_FROZEN)
    else if c.kind == UNFREEZE then
      if !aok then Refuse(a, b, MISSING) else Decision(true, APPLIED, 4, a.balance, b.balance, STATUS_OPEN)
    else if c.kind == BEGIN_TRANSFER then
      if c.amount <= 0 then Refuse(a, b, INVALID_AMOUNT)
      else Decision(true, PREPARED, 0, a.balance, b.balance, a.status)
    else if c.kind == CANCEL then Decision(true, CANCELLED, 0, a.balance, b.balance, a.status)
    else Refuse(a, b, INVALID_WORKFLOW)
  }

  // The pending transfer an account's agent holds after a command has been decided.
  function NextPending(c: Command, d: Decision, pending: Pending): Pending
  {
    if c.kind == BEGIN_TRANSFER && d.accepted then Pending(true, c.other, c.amount)
    else if c.kind == CONFIRM || c.kind == CANCEL then NO_PENDING
    else pending
  }
}
