/**
 The generated account agent: a resumable program counter over a board, whose decision is the
 best-scored of two dozen guarded candidates. It decides what the plain switch of the account
 engine decides, command after command.
 */
module AccountFlow {
  import opened Bytes
  import opened Accounts
  import opened Utility
  import Engine = AccountEngine

  // What the host tells the agent about a command and the accounts it names.
  datatype Context = Context(kind: int, accountA: int, accountB: int, amount: int, existsA: bool, existsB: bool,
                             balanceA: int, balanceB: int, statusA: int, versionA: int, versionB: int)

  datatype Board = Board(transitionCount: int, pending: bool, wasPending: bool, pendingTarget: int, pendingAmount: int)

  datatype Transition = Transition(accepted: bool, reason: int, effect: int, accountA: int, accountB: int, amount: int,
                                   newBalanceA: int, newBalanceB: int, newStatus: int, expectedA: int, expectedB: int,
                                       turns: int)

  // A command together with the pending transfer the board held before it.
  datatype Query = Query(c: Context, was: bool, target: int, amount: int)

  // ------------------------------------------------------- the guards, block by block

  const REGISTERS := 120

  // A program counter and the boolean temporaries by their numbers.
  datatype Regs = Regs(pc: nat, t: seq<bool>)

  predicate RegsOk(r: Regs) { |r.t| == REGISTERS && r.pc <= 48 }

  function Branch(condition: bool, yes: nat, no: nat): nat { if condition then yes else no }

  predicate Moves(c: Context) { c.kind == TRANSFER || c.kind == CONFIRM }

  function BlockA(c: Context, r: Regs): (n: Regs)
    requires RegsOk(r) && r.pc <= 15
    ensures RegsOk(n)
  {
    var t := r.t;
    match r.pc
    case 0 => Regs(Branch(c.kind == CREATE, 1, 2), t[2 := false])
    case 1 => Regs(2, t[2 := c.existsA])
    case 2 => Regs(Branch(c.kind == CREATE, 3, 4), t[6 := false])
    case 3 => Regs(4, t[6 := c.amount < 0])
    case 4 => Regs(Branch(c.kind == DEPOSIT, 5, 6), t[10 := c.kind == CREATE][13 := false])
    case 5 => Regs(6, t[13 := c.amount <= 0])
    case 6 => Regs(Branch(c.kind == DEPOSIT, 7, 8), t[18 := false])
    case 7 => Regs(8, t[18 := !c.existsA])
    case 8 => Regs(Branch(c.kind == WITHDRAW, 9, 10), t[22 := c.kind == DEPOSIT][25 := false])
    case 9 => Regs(10, t[25 := c.amount <= 0])
    case 10 => Regs(Branch(c.kind == WITHDRAW, 11, 12), t[30 := false])
    case 11 => Regs(12, t[30 := !c.existsA])
    case 12 => Regs(Branch(c.kind == WITHDRAW, 13, 14), t[35 := false])
    case 13 => Regs(14, t[35 := c.statusA == STATUS_FROZEN])
    case 14 => Regs(Branch(c.kind == WITHDRAW, 15, 16), t[40 := false])
    case _ => Regs(16, t[40 := c.balanceA < c.amount])
  }

  function BlockB(q: Query, r: Regs): (n: Regs)
    requires RegsOk(r) && 16 <= r.pc <= 32
    ensures RegsOk(n)
  {
    var c, t := q.c, r.t;
    match r.pc
    case 16 => Regs(Branch(c.kind == CONFIRM, 17, 18), t[45 := c.kind == WITHDRAW][48 := false])
    case 17 => Regs(Branch(!q.was, 20, 19), t[50 := true])
    case 18 => Regs(Branch(c.kind == TRANSFER, 24, 23), t[58 := true])
    case 19 => Regs(20, t[50 := q.target != c.accountB])
    case 20 => Regs(Branch(t[50], 22, 21), t[53 := true])
    case 21 => Regs(22, t[53 := q.amount != c.amount])
    case 22 => Regs(18, t[48 := t[53]])
    case 23 => Regs(24, t[58 := c.kind == CONFIRM])
    case 24 => Regs(Branch(t[58], 25, 26), t[61 := false])
    case 25 => Regs(26, t[61 := c.amount <= 0])
    case 26 => Regs(Branch(c.kind == TRANSFER, 28, 27), t[66 := true])
    case 27 => Regs(28, t[66 := c.kind == CONFIRM])
    case 28 => Regs(Branch(t[66], 29, 30), t[69 := false])
    case 29 => Regs(Branch(!c.existsA, 32, 31), t[72 := true])
    case 30 => Regs(Branch(c.kind == TRANSFER, 34, 33), t[77 := true])
    case 31 => Regs(32, t[72 := !c.existsB])
    case _ => Regs(30, t[69 := t[72]])
  }

  function BlockC(c: Context, r: Regs): (n: Regs)
    requires RegsOk(r) && 33 <= r.pc < 48
    ensures RegsOk(n)
  {
    var t := r.t;
    match r.pc
    case 33 => Regs(34, t[77 := c.kind == CONFIRM])
    case 34 => Regs(Branch(t[77], 35, 36), t[80 := false])
    case 35 => Regs(36, t[80 := c.statusA == STATUS_FROZEN])
    case 36 => Regs(Branch(c.kind == TRANSFER, 38, 37), t[85 := true])
    case 37 => Regs(38, t[85 := c.kind == CONFIRM])
    case 38 => Regs(Branch(t[85], 39, 40), t[88 := false])
    case 39 => Regs(40, t[88 := c.balanceA < c.amount])
    case 40 => Regs(Branch(c.kind == TRANSFER, 42, 41), t[94 := true])
    case 41 => Regs(42, t[94 := c.kind == CONFIRM])
    case 42 => Regs(Branch(c.kind == FREEZE, 43, 44), t[99 := false])
    case 43 => Regs(44, t[99 := !c.existsA])
    case 44 => Regs(Branch(c.kind == UNFREEZE, 45, 46), t[103 := c.kind == FREEZE][106 := false])
    case 45 => Regs(46, t[106 := !c.existsA])
    case 46 => Regs(Branch(c.kind == BEGIN_TRANSFER, 47, 48), t[110 := c.kind == UNFREEZE][113 := false])
    case _ => Regs(48, t[113 := c.amount <= 0])
  }

  // How far a block is from the end; block 18 comes after the blocks 19 to 22 that it waits for,
  // and block 30 after 31 and 32.
  function Rank(pc: nat): nat
  {
    if pc <= 17 then pc else if pc == 18 then 23 else if pc <= 22 then pc - 1 else if pc <= 29 then pc + 1
    else if pc == 30 then 33 else if pc <= 32 then pc else pc + 1
  }

  function Block(q: Query, r: Regs): (n: Regs)
    requires RegsOk(r) && r.pc < 48
    ensures RegsOk(n) && Rank(r.pc) < Rank(n.pc) <= 49
  {
    if r.pc <= 15 then BlockA(q.c, r) else if r.pc <= 32 then BlockB(q, r) else BlockC(q.c, r)
  }

  // Running the blocks to the last one.
  function Finish(q: Query, r: Regs): (end: Regs)
    requires RegsOk(r)
    ensures RegsOk(end) && end.pc == 48
    decreases 49 - Rank(r.pc)
  {
    if r.pc == 48 then r else Finish(q, Block(q, r))
  }

  // The blocks as the generated loop runs them.
  method RunBlocks(q: Query) returns (t: seq<bool>)
    ensures t == Finish(q, Regs(0, ZEROS)).t
  {
    var r := Regs(0, ZEROS);
    while r.pc != 48
      invariant RegsOk(r) && Finish(q, r) == Finish(q, Regs(0, ZEROS))
      decreases 49 - Rank(r.pc)
    {
      r := Block(q, r);
    }
    return r.t;
  }

  function Cleared(n: nat): (t: seq<bool>)
    ensures |t| == n
  {
    if n == 0 then [] else Cleared(n - 1) + [false]
  }

  const ZEROS: seq<bool> := Cleared(REGISTERS)

  // ----------------------------------------------------- what the blocks compute

  lemma OneBlock(q: Query, p: nat, t: seq<bool>)
    requires |t| == REGISTERS && p < 48
    ensures Finish(q, Regs(p, t)) == Finish(q, Block(q, Regs(p, t)))
  {}

  // Registers below `low` are left alone.
  predicate Kept(t: seq<bool>, t': seq<bool>, low: nat)
  {
    |t| == |t'| == REGISTERS && forall i | 0 <= i < low && i < REGISTERS :: t'[i] == t[i]
  }

  predicate Mismatch(q: Query)
  {
    !q.was || q.target != q.c.accountB || q.amount != q.c.amount
  }

  lemma Exists1(q: Query, t: seq<bool>) returns (t': seq<bool>)
    requires |t| == REGISTERS
    ensures Kept(t, t', 2) && Finish(q, Regs(0, t)) == Finish(q, Regs(2, t'))
    ensures t'[2] == (q.c.kind == CREATE && q.c.existsA)
  {
    OneBlock(q, 0, t);
    t' := t[2 := false];
    if q.c.kind == CREATE {
      OneBlock(q, 1, t');
      t' := t'[2 := q.c.existsA];
    }
  }

  lemma Negative2(q: Query, t: seq<bool>) returns (t': seq<bool>)
    requires |t| == REGISTERS
    ensures Kept(t, t', 6) && Finish(q, Regs(2, t)) == Finish(q, Regs(4, t'))
    ensures t'[6] == (q.c.kind == CREATE && q.c.amount < 0)
  {
    OneBlock(q, 2, t);
    t' := t[6 := false];
    if q.c.kind == CREATE {
      OneBlock(q, 3, t');
      t' := t'[6 := q.c.amount < 0];
    }
  }

  lemma Deposit4(q: Query, t: seq<bool>) returns (t': seq<bool>)
    requires |t| == REGISTERS
    ensures Kept(t, t', 10) && Finish(q, Regs(4, t)) == Finish(q, Regs(6, t'))
    ensures t'[10] == (q.c.kind == CREATE) && t'[13] == (q.c.kind == DEPOSIT && q.c.amount <= 0)
  {
    OneBlock(q, 4, t);
    t' := t[10 := q.c.kind == CREATE][13 := false];
    if q.c.kind == DEPOSIT {
      OneBlock(q, 5, t');
      t' := t'[13 := q.c.amount <= 0];
    }
  }

  lemma Deposit5(q: Query, t: seq<bool>) returns (t': seq<bool>)
    requires |t| == REGISTERS
    ensures Kept(t, t', 18) && Finish(q, Regs(6, t)) == Finish(q, Regs(8, t'))
    ensures t'[18] == (q.c.kind == DEPOSIT && !q.c.existsA)
  {
    OneBlock(q, 6, t);
    t' := t[18 := false];
    if q.c.kind == DEPOSIT {
      OneBlock(q, 7, t');
      t' := t'[18 := !q.c.existsA];
    }
  }

  lemma Withdraw7(q: Query, t: seq<bool>) returns (t': seq<bool>)
    requires |t| == REGISTERS
    ensures Kept(t, t', 22) && Finish(q, Regs(8, t)) == Finish(q, Regs(10, t'))
    ensures t'[22] == (q.c.kind == DEPOSIT) && t'[25] == (q.c.kind == WITHDRAW && q.c.amount <= 0)
  {
    OneBlock(q, 8, t);
    t' := t[22 := q.c.kind == DEPOSIT][25 := false];
    if q.c.kind == WITHDRAW {
      OneBlock(q, 9, t');
      t' := t'[25 := q.c.amount <= 0];
    }
  }

  lemma Withdraw8(q: Query, t: seq<bool>) returns (t': seq<bool>)
    requires |t| == REGISTERS
    ensures Kept(t, t', 30) && Finish(q, Regs(10, t)) == Finish(q, Regs(12, t'))
    ensures t'[30] == (q.c.kind == WITHDRAW && !q.c.existsA)
  {
    OneBlock(q, 10, t);
    t' := t[30 := false];
    if q.c.kind == WITHDRAW {
      OneBlock(q, 11, t');
      t' := t'[30 := !q.c.existsA];
    }
  }

  lemma Withdraw9(q: Query, t: seq<bool>) returns (t': seq<bool>)
    requires |t| == REGISTERS
    ensures Kept(t, t', 35) && Finish(q, Regs(12, t)) == Finish(q, Regs(14, t'))
    ensures t'[35] == (q.c.kind == WITHDRAW && q.c.statusA == STATUS_FROZEN)
  {
    OneBlock(q, 12, t);
    t' := t[35 := false];
    if q.c.kind == WITHDRAW {
      OneBlock(q, 13, t');
      t' := t'[35 := q.c.statusA == STATUS_FROZEN];
    }
  }

  lemma Withdraw10(q: Query, t: seq<bool>) returns (t': seq<bool>)
    requires |t| == REGISTERS
    ensures Kept(t, t', 40) && Finish(q, Regs(14, t)) == Finish(q, Regs(16, t'))
    ensures t'[40] == (q.c.kind == WITHDRAW && q.c.balanceA < q.c.amount)
  {
    OneBlock(q, 14, t);
    t' := t[40 := false];
    if q.c.kind == WITHDRAW {
      OneBlock(q, 15, t');
      t' := t'[40 := q.c.balanceA < q.c.amount];
    }
  }

  lemma Confirm12(q: Query, t: seq<bool>) returns (t': seq<bool>)
    requires |t| == REGISTERS
    ensures Kept(t, t', 45) && Finish(q, Regs(16, t)) == Finish(q, Regs(18, t'))
    ensures t'[45] == (q.c.kind == WITHDRAW) && t'[48] == (q.c.kind == CONFIRM && Mismatch(q))
  {
    OneBlock(q, 16, t);
    t' := t[45 := q.c.kind == WITHDRAW][48 := false];
    if q.c.kind == CONFIRM {
      OneBlock(q, 17, t');
      t' := t'[50 := true];
      if q.was {
        OneBlock(q, 19, t');
        t' := t'[50 := q.target != q.c.accountB];
      }
      OneBlock(q, 20, t');
      var mismatch := t'[50];
      t' := t'[53 := true];
      if !mismatch {
        OneBlock(q, 21, t');
        t' := t'[53 := q.amount != q.c.amount];
      }
      OneBlock(q, 22, t');
      t' := t'[48 := t'[53]];
    }
  }

  lemma Move13(q: Query, t: seq<bool>) returns (t': seq<bool>)
    requires |t| == REGISTERS
    ensures Kept(t, t', 58) && Finish(q, Regs(18, t)) == Finish(q, Regs(26, t'))
    ensures t'[61] == (Moves(q.c) && q.c.amount <= 0)
  {
    OneBlock(q, 18, t);
    t' := t[58 := true];
    if q.c.kind != TRANSFER {
      OneBlock(q, 23, t');
      t' := t'[58 := q.c.kind == CONFIRM];
    }
    OneBlock(q, 24, t');
    t' := t'[61 := false];
    if Moves(q.c) {
      OneBlock(q, 25, t');
      t' := t'[61 := q.c.amount <= 0];
    }
  }

  lemma Move14(q: Query, t: seq<bool>) returns (t': seq<bool>)
    requires |t| == REGISTERS
    ensures Kept(t, t', 66) && Finish(q, Regs(26, t)) == Finish(q, Regs(30, t'))
    ensures t'[69] == (Moves(q.c) && (!q.c.existsA || !q.c.existsB))
  {
    OneBlock(q, 26, t);
    t' := t[66 := true];
    if q.c.kind != TRANSFER {
      OneBlock(q, 27, t');
      t' := t'[66 := q.c.kind == CONFIRM];
    }
    OneBlock(q, 28, t');
    t' := t'[69 := false];
    if Moves(q.c) { t' := BothSides(q, t'); }
  }

  lemma BothSides(q: Query, t: seq<bool>) returns (t': seq<bool>)
    requires |t| == REGISTERS
    ensures Kept(t, t', 69) && Finish(q, Regs(29, t)) == Finish(q, Regs(30, t'))
            && t'[69] == (!q.c.existsA || !q.c.existsB)
  {
    OneBlock(q, 29, t);
    t' := t[72 := true];
    if q.c.existsA {
      OneBlock(q, 31, t');
      t' := t'[72 := !q.c.existsB];
    }
    OneBlock(q, 32, t');
    t' := t'[69 := t'[72]];
  }

  lemma Move15(q: Query, t: seq<bool>) returns (t': seq<bool>)
    requires |t| == REGISTERS
    ensures Kept(t, t', 77) && Finish(q, Regs(30, t)) == Finish(q, Regs(36, t'))
    ensures t'[80] == (Moves(q.c) && q.c.statusA == STATUS_FROZEN)
  {
    OneBlock(q, 30, t);
    t' := t[77 := true];
    if q.c.kind != TRANSFER {
      OneBlock(q, 33, t');
      t' := t'[77 := q.c.kind == CONFIRM];
    }
    OneBlock(q, 34, t');
    t' := t'[80 := false];
    if Moves(q.c) {
      OneBlock(q, 35, t');
      t' := t'[80 := q.c.statusA == STATUS_FROZEN];
    }
  }

  lemma Move16(q: Query, t: seq<bool>) returns (t': seq<bool>)
    requires |t| == REGISTERS
    ensures Kept(t, t', 85) && Finish(q, Regs(36, t)) == Finish(q, Regs(40, t'))
    ensures t'[88] == (Moves(q.c) && q.c.balanceA < q.c.amount)
  {
    OneBlock(q, 36, t);
    t' := t[85 := true];
    if q.c.kind != TRANSFER {
      OneBlock(q, 37, t');
      t' := t'[85 := q.c.kind == CONFIRM];
    }
    OneBlock(q, 38, t');
    t' := t'[88 := false];
    if Moves(q.c) {
      OneBlock(q, 39, t');
      t' := t'[88 := q.c.balanceA < q.c.amount];
    }
  }

  lemma Move17(q: Query, t: seq<bool>) returns (t': seq<bool>)
    requires |t| == REGISTERS
    ensures Kept(t, t', 94) && Finish(q, Regs(40, t)) == Finish(q, Regs(42, t'))
    ensures t'[94] == Moves(q.c)
  {
    OneBlock(q, 40, t);
    t' := t[94 := true];
    if q.c.kind != TRANSFER {
      OneBlock(q, 41, t');
      t' := t'[94 := q.c.kind == CONFIRM];
    }
  }

  lemma Freeze18(q: Query, t: seq<bool>) returns (t': seq<bool>)
    requires |t| == REGISTERS
    ensures Kept(t, t', 99) && Finish(q, Regs(42, t)) == Finish(q, Regs(44, t'))
    ensures t'[99] == (q.c.kind == FREEZE && !q.c.existsA)
  {
    OneBlock(q, 42, t);
    t' := t[99 := false];
    if q.c.kind == FREEZE {
      OneBlock(q, 43, t');
      t' := t'[99 := !q.c.existsA];
    }
  }

  lemma Unfreeze20(q: Query, t: seq<bool>) returns (t': seq<bool>)
    requires |t| == REGISTERS
    ensures Kept(t, t', 103) && Finish(q, Regs(44, t)) == Finish(q, Regs(46, t'))
    ensures t'[103] == (q.c.kind == FREEZE) && t'[106] == (q.c.kind == UNFREEZE && !q.c.existsA)
  {
    OneBlock(q, 44, t);
    t' := t[103 := q.c.kind == FREEZE][106 := false];
    if q.c.kind == UNFREEZE {
      OneBlock(q, 45, t');
      t' := t'[106 := !q.c.existsA];
    }
  }

  lemma Begin22(q: Query, t: seq<bool>) returns (t': seq<bool>)
    requires |t| == REGISTERS
    ensures Kept(t, t', 110) && Finish(q, Regs(46, t)) == Finish(q, Regs(48, t'))
    ensures t'[110] == (q.c.kind == UNFREEZE) && t'[113] == (q.c.kind == BEGIN_TRANSFER && q.c.amount <= 0)
  {
    OneBlock(q, 46, t);
    t' := t[110 := q.c.kind == UNFREEZE][113 := false];
    if q.c.kind == BEGIN_TRANSFER {
      OneBlock(q, 47, t');
      t' := t'[113 := q.c.amount <= 0];
    }
  }

  predicate FlagsA(c: Context, t: seq<bool>)
    requires |t| == REGISTERS
  {
    && t[2] == (c.kind == CREATE && c.existsA) && t[6] == (c.kind == CREATE && c.amount < 0)
       && t[10] == (c.kind == CREATE)
    && t[13] == (c.kind == DEPOSIT && c.amount <= 0) && t[18] == (c.kind == DEPOSIT && !c.existsA)
       && t[22] == (c.kind == DEPOSIT)
    && t[25] == (c.kind == WITHDRAW && c.amount <= 0) && t[30] == (c.kind == WITHDRAW && !c.existsA)
    && t[35] == (c.kind == WITHDRAW && c.statusA == STATUS_FROZEN)
       && t[40] == (c.kind == WITHDRAW && c.balanceA < c.amount)
  }

  predicate FlagsB(q: Query, t: seq<bool>)
    requires |t| == REGISTERS
  {
    var c := q.c;
    && t[45] == (c.kind == WITHDRAW) && t[48] == (c.kind == CONFIRM && Mismatch(q))
       && t[61] == (Moves(c) && c.amount <= 0)
    && t[69] == (Moves(c) && (!c.existsA || !c.existsB)) && t[80] == (Moves(c) && c.statusA == STATUS_FROZEN)
    && t[88] == (Moves(c) && c.balanceA < c.amount) && t[94] == Moves(c)
  }

  predicate FlagsC(c: Context, t: seq<bool>)
    requires |t| == REGISTERS
  {
    && t[99] == (c.kind == FREEZE && !c.existsA) && t[103] == (c.kind == FREEZE)
    && t[106] == (c.kind == UNFREEZE && !c.existsA) && t[110] == (c.kind == UNFREEZE)
    && t[113] == (c.kind == BEGIN_TRANSFER && c.amount <= 0)
  }

  lemma FirstThird(q: Query) returns (t: seq<bool>)
    ensures |t| == REGISTERS && Finish(q, Regs(0, ZEROS)) == Finish(q, Regs(16, t)) && FlagsA(q.c, t)
  {
    t := Exists1(q, ZEROS);
    t := Negative2(q, t);
    t := Deposit4(q, t);
    t := Deposit5(q, t);
    t := Withdraw7(q, t);
    t := Withdraw8(q, t);
    t := Withdraw9(q, t);
    t := Withdraw10(q, t);
  }

  lemma SecondThird(q: Query, start: seq<bool>) returns (t: seq<bool>)
    requires |start| == REGISTERS
    ensures Kept(start, t, 45) && Finish(q, Regs(16, start)) == Finish(q, Regs(42, t)) && FlagsB(q, t)
  {
    t := Confirm12(q, start);
    t := Move13(q, t);
    t := Move14(q, t);
    t := Move15(q, t);
    t := Move16(q, t);
    t := Move17(q, t);
  }

  lemma LastThird(q: Query, start: seq<bool>) returns (t: seq<bool>)
    requires |start| == REGISTERS
    ensures Kept(start, t, 99) && Finish(q, Regs(42, start)) == Regs(48, t) && FlagsC(q.c, t)
  {
    t := Freeze18(q, start);
    t := Unfreeze20(q, t);
    t := Begin22(q, t);
  }

  // At the end every temporary that guards a candidate holds its condition.
  lemma BlocksComputeGuards(q: Query)
    ensures var t := Finish(q, Regs(0, ZEROS)).t; FlagsA(q.c, t) && FlagsB(q, t) && FlagsC(q.c, t)
  {
    var t := FirstThird(q);
    var t' := SecondThird(q, t);
    var t'' := LastThird(q, t');
  }

  // ------------------------------------------------------------ candidates and codes

  function Candidates(q: Query, t: seq<bool>): seq<Candidate<int>>
    requires |t| == REGISTERS
  {
    [Candidate(t[2], 1, 100), Candidate(t[6], 2, 90), Candidate(t[10], 3, 10),
     Candidate(t[13], 4, 100), Candidate(t[18], 5, 90), Candidate(t[22], 6, 10),
     Candidate(t[25], 7, 100), Candidate(t[30], 8, 90), Candidate(t[35], 9, 80), Candidate(t[40], 10, 70),
         Candidate(t[45], 11, 10),
     Candidate(t[48], 12, 110), Candidate(t[61], 13, 100), Candidate(t[69], 14, 90), Candidate(t[80], 15, 80),
     Candidate(t[88], 16, 70), Candidate(t[94], 17, 10),
     Candidate(t[99], 18, 100), Candidate(t[103], 19, 10), Candidate(t[106], 20, 100), Candidate(t[110], 21, 10),
     Candidate(t[113], 22, 100), Candidate(q.c.kind == BEGIN_TRANSFER, 23, 10), Candidate(q.c.kind == CANCEL, 24, 10)]
  }

  // The code of the best candidate, chosen afresh for every command.
  function Code(q: Query): int
  {
    Best(Candidates(q, Finish(q, Regs(0, ZEROS)).t), 0).value
  }

  method DecideCode(q: Query) returns (code: int)
    ensures code == Code(q)
  {
    var t := RunBlocks(q);
    var site;
    code, site := SelectAny(Unset, 0, 0, Candidates(q, t), 0);
  }

  // The same codes as a plain switch: the first condition that applies.
  function PlainCode(q: Query): int
  {
    var c := q.c;
    if c.kind == CREATE then if c.existsA then 1 else if c.amount < 0 then 2 else 3
    else if c.kind == DEPOSIT then if c.amount <= 0 then 4 else if !c.existsA then 5 else 6
    else if c.kind == WITHDRAW then
      if c.amount <= 0 then 7 else if !c.existsA then 8 else if c.statusA == STATUS_FROZEN then 9
      else if c.balanceA < c.amount then 10 else 11
    else if c.kind == CONFIRM && Mismatch(q) then 12
    else if Moves(c) then
      if c.amount <= 0 then 13 else if !c.existsA || !c.existsB then 14 else if c.statusA == STATUS_FROZEN then 15
      else if c.balanceA < c.amount then 16 else 17
    else if c.kind == FREEZE then if !c.existsA then 18 else 19
    else if c.kind == UNFREEZE then if !c.existsA then 20 else 21
    else if c.kind == BEGIN_TRANSFER then if c.amount <= 0 then 22 else 23
    else if c.kind == CANCEL then 24
    else 0
  }

  // The scores order the conditions of every kind as the switch does.
  lemma BestForCreate(q: Query, t: seq<bool>)
    requires |t| == REGISTERS && FlagsA(q.c, t) && FlagsB(q, t) && FlagsC(q.c, t) && q.c.kind == CREATE
    ensures IsFirstBest(Candidates(q, t), PlainCode(q) - 1)
  {}

  lemma BestForDeposit(q: Query, t: seq<bool>)
    requires |t| == REGISTERS && FlagsA(q.c, t) && FlagsB(q, t) && FlagsC(q.c, t) && q.c.kind == DEPOSIT
    ensures IsFirstBest(Candidates(q, t), PlainCode(q) - 1)
  {}

  lemma BestForWithdraw(q: Query, t: seq<bool>)
    requires |t| == REGISTERS && FlagsA(q.c, t) && FlagsB(q, t) && FlagsC(q.c, t) && q.c.kind == WITHDRAW
    ensures IsFirstBest(Candidates(q, t), PlainCode(q) - 1)
  {}

  lemma BestForMove(q: Query, t: seq<bool>)
    requires |t| == REGISTERS && FlagsA(q.c, t) && FlagsB(q, t) && FlagsC(q.c, t) && Moves(q.c)
    ensures IsFirstBest(Candidates(q, t), PlainCode(q) - 1)
  {}

  lemma BestForStatus(q: Query, t: seq<bool>)
    requires |t| == REGISTERS && FlagsA(q.c, t) && FlagsB(q, t) && FlagsC(q.c, t)
             && (q.c.kind == FREEZE || q.c.kind == UNFREEZE)
    ensures IsFirstBest(Candidates(q, t), PlainCode(q) - 1)
  {}

  lemma BestForWorkflow(q: Query, t: seq<bool>)
    requires |t| == REGISTERS && FlagsA(q.c, t) && FlagsB(q, t) && FlagsC(q.c, t)
             && (q.c.kind == BEGIN_TRANSFER || q.c.kind == CANCEL)
    ensures IsFirstBest(Candidates(q, t), PlainCode(q) - 1)
  {}

  lemma BestIsPlain(q: Query, t: seq<bool>)
    requires |t| == REGISTERS && FlagsA(q.c, t) && FlagsB(q, t) && FlagsC(q.c, t) && PlainCode(q) > 0
    ensures IsFirstBest(Candidates(q, t), PlainCode(q) - 1)
  {
    if q.c.kind == CREATE { BestForCreate(q, t); }
    else if q.c.kind == DEPOSIT { BestForDeposit(q, t); }
    else if q.c.kind == WITHDRAW { BestForWithdraw(q, t); }
    else if Moves(q.c) { BestForMove(q, t); }
    else if q.c.kind == FREEZE || q.c.kind == UNFREEZE { BestForStatus(q, t); }
    else { BestForWorkflow(q, t); }
  }

  lemma NoneForUnknown(q: Query, t: seq<bool>)
    requires |t| == REGISTERS && FlagsA(q.c, t) && FlagsB(q, t) && FlagsC(q.c, t) && PlainCode(q) == 0
    ensures forall c <- Candidates(q, t) :: !c.valid
  {}

  lemma CandidateAt(q: Query, t: seq<bool>, i: nat)
    requires |t| == REGISTERS && i < 24
    ensures Candidates(q, t)[i].value == i + 1
  {}

  lemma CodeIsPlain(q: Query)
    ensures Code(q) == PlainCode(q)
  {
    BlocksComputeGuards(q);
    var t := Finish(q, Regs(0, ZEROS)).t;
    var cs := Candidates(q, t);
    if PlainCode(q) > 0 {
      BestIsPlain(q, t);
      TopOf(cs, PlainCode(q) - 1);
      CandidateAt(q, t, PlainCode(q) - 1);
    } else {
      NoneForUnknown(q, t);
      TopOfNone(cs);
    }
  }

  // ------------------------------------------------------------------- transitions

  function TransitionOf(c: Context, accepted: bool, reason: int, effect: int, balanceA: int, balanceB: int, status: int,
      turns: int): Transition
  {
    Transition(accepted, reason, effect, c.accountA, c.accountB, c.amount, balanceA, balanceB, status, c.versionA,
        c.versionB, turns)
  }

  function Refusal(c: Context, reason: int, turns: int): Transition
  {
    TransitionOf(c, false, reason, 0, c.balanceA, c.balanceB, c.statusA, turns)
  }

  // What the agent yields for a code.
  function ForCode(c: Context, code: int, turns: int): Transition
  {
    match code
    case 1 => Refusal(c, EXISTS, turns)
    case 2 => Refusal(c, INVALID_AMOUNT, turns)
    case 3 => TransitionOf(c, true, APPLIED, 1, c.amount, c.balanceB, STATUS_OPEN, turns)
    case 4 => Refusal(c, INVALID_AMOUNT, turns)
    case 5 => Refusal(c, MISSING, turns)
    case 6 => TransitionOf(c, true, APPLIED, 2, c.balanceA + c.amount, c.balanceB, c.statusA, turns)
    case 7 => Refusal(c, INVALID_AMOUNT, turns)
    case 8 => Refusal(c, MISSING, turns)
    case 9 => Refusal(c, FROZEN, turns)
    case 10 => Refusal(c, INSUFFICIENT, turns)
    case 11 => TransitionOf(c, true, APPLIED, 2, c.balanceA - c.amount, c.balanceB, c.statusA, turns)
    case 12 => Refusal(c, INVALID_WORKFLOW, turns)
    case 13 => Refusal(c, INVALID_AMOUNT, turns)
    case 14 => Refusal(c, MISSING, turns)
    case 15 => Refusal(c, FROZEN, turns)
    case 16 => Refusal(c, INSUFFICIENT, turns)
    case 17 => TransitionOf(c, true, APPLIED, 3, c.balanceA - c.amount, c.balanceB + c.amount, c.statusA, turns)
    case 18 => Refusal(c, MISSING, turns)
    case 19 => TransitionOf(c, true, APPLIED, 4, c.balanceA, c.balanceB, STATUS_FROZEN, turns)
    case 20 => Refusal(c, MISSING, turns)
    case 21 => TransitionOf(c, true, APPLIED, 4, c.balanceA, c.balanceB, STATUS_OPEN, turns)
    case 22 => Refusal(c, INVALID_AMOUNT, turns)
    case 23 => TransitionOf(c, true, PREPARED, 0, c.balanceA, c.balanceB, c.statusA, turns)
    case 24 => TransitionOf(c, true, CANCELLED, 0, c.balanceA, c.balanceB, c.statusA, turns)
    case _ => Refusal(c, INVALID_WORKFLOW, turns)
  }

  // ------------------------------------------------------------------------ the agent

  // The board after a turn, and what the turn yields.
  function BoardAfter(b: Board, c: Context): Board
  {
    var begins := c.kind == BEGIN_TRANSFER && c.amount > 0;
    var pending := if begins then true else b.pending;
    Board(b.transitionCount + 1, if c.kind == CONFIRM || c.kind == CANCEL then false else pending, b.pending,
          if begins then c.accountB else b.pendingTarget, if begins then c.amount else b.pendingAmount)
  }

  function Yields(b: Board, c: Context): Transition
  {
    var after := BoardAfter(b, c);
    ForCode(c, Code(Query(c, after.wasPending, after.pendingTarget, after.pendingAmount)), after.transitionCount)
  }

  // What one instruction before the yield does to the board.
  function Instruction(k: nat, b: Board, c: Context): Board
  {
    match k
    case 0 => b.(transitionCount := b.transitionCount + 1)
    case 1 => b.(wasPending := b.pending)
    case 2 =>
      if c.kind == BEGIN_TRANSFER && c.amount > 0
          then b.(pending := true, pendingTarget := c.accountB, pendingAmount := c.amount) else b
    case _ => if c.kind == CONFIRM || c.kind == CANCEL then b.(pending := false) else b
  }

  // The board that a machine resumed at instruction k decides on; behind the yield it starts again.
  function BoardFrom(k: nat, b: Board, c: Context): Board
    decreases if k == 5 then 6 else if k < 5 then 4 - k else 0
  {
    if k == 5 then BoardFrom(0, b, c) else if k >= 4 then b else BoardFrom(k + 1, Instruction(k, b, c), c)
  }

  // What the machine yields on the board it decides on.
  function Decides(b: Board, c: Context): Transition
  {
    ForCode(c, Code(Query(c, b.wasPending, b.pendingTarget, b.pendingAmount)), b.transitionCount)
  }

  lemma BoardFromStart(b: Board, c: Context)
    ensures BoardFrom(0, b, c) == BoardAfter(b, c) && Decides(BoardAfter(b, c), c) == Yields(b, c)
  {
    var b1 := Instruction(0, b, c);
    var b2 := Instruction(1, b1, c);
    var b3 := Instruction(2, b2, c);
    assert BoardFrom(0, b, c) == BoardFrom(1, b1, c) == BoardFrom(2, b2, c) == BoardFrom(3, b3, c);
    assert BoardFrom(3, b3, c) == BoardFrom(4, Instruction(3, b3, c), c) == Instruction(3, b3, c);
  }

  // The resumable machine. It sleeps before its first instruction, or just behind the one that
  // yields; one restored from a checkpoint may stand at any instruction, and even behind the last.
  class AccountAgent {
    const owner: int
    var started: bool
    var instruction: nat
    var board: Board
    var lastYield: Transition
    var hasYield: bool

    ghost predicate Suspended()
      reads this
    {
      (!started && instruction == 0) || (started && instruction == 5)
    }

    constructor (owner: int)
      ensures this.owner == owner && Suspended() && !started && board == Board(0, false, false, 0, 0) && !hasYield
    {
      this.owner := owner;
      started, instruction, board := false, 0, Board(0, false, false, 0, 0);
      lastYield, hasYield := Transition(false, 0, 0, 0, 0, 0, 0, 0, 0, 0, 0, 0), false;
    }

    constructor Restored(owner: int, instruction: nat, board: Board, lastYield: Transition)
      ensures this.owner == owner && started && this.instruction == instruction && this.board == board
      ensures this.lastYield == lastYield && hasYield
    {
      this.owner, this.started, this.instruction, this.board := owner, true, instruction, board;
      this.lastYield, this.hasYield := lastYield, true;
    }

    // One turn: the loop over instructions runs until the machine yields, and is suspended there. A
    // machine behind its last instruction fails instead.
    method Step(input: Context) returns (ok: bool)
      requires started || instruction == 0
      modifies this
      ensures ok == (old(instruction) <= 5) && started && hasYield == ok
      ensures ok ==> Suspended() && board == BoardFrom(old(instruction), old(board), input)
      ensures ok ==> lastYield == Decides(board, input)
      ensures !ok ==> board == old(board) && instruction == old(instruction)
      ensures old(Suspended()) ==> board == BoardAfter(old(board), input) && lastYield == Yields(old(board), input)
    {
      hasYield := false;
      if !started {
        started, instruction := true, 0;
      }
      while true
        invariant started && !hasYield && (instruction <= 5 <==> old(instruction) <= 5)
        invariant BoardFrom(instruction, board, input) == BoardFrom(old(instruction), old(board), input)
        invariant instruction > 5 ==> board == old(board) && instruction == old(instruction)
        decreases if instruction == 5 then 6 else if instruction < 5 then 5 - instruction else 0
      {
        match instruction {
          case 0 =>
            board := board.(transitionCount := board.transitionCount + 1);
            instruction := 1;
          case 1 =>
            board := board.(wasPending := board.pending);
            instruction := 2;
          case 2 =>
            if input.kind == BEGIN_TRANSFER && input.amount > 0 {
              board := board.(pending := true, pendingTarget := input.accountB, pendingAmount := input.amount);
            }
            instruction := 3;
          case 3 =>
            if input.kind == CONFIRM || input.kind == CANCEL {
              board := board.(pending := false);
            }
            instruction := 4;
          case 4 =>
            var code := DecideCode(Query(input, board.wasPending, board.pendingTarget, board.pendingAmount));
            lastYield := ForCode(input, code, board.transitionCount);
            hasYield := true;
            instruction := 5;
            BoardFromStart(old(board), input);
            return true;
          case 5 =>
            instruction := 0;
          case _ =>
            return false;
        }
      }
    }
  }

  // ------------------------------------------------------- the agent and the plain switch

  function ContextOf(c: Command, a: Account, aok: bool, b: Account, bok: bool): Context
  {
    Context(c.kind, c.account, c.other, c.amount, aok, bok, a.balance, b.balance, a.status, a.version, b.version)
  }

  // The board says what the engine's agent record says.
  predicate Mirrors(board: Board, agent: Engine.Agent)
  {
    && board.transitionCount == agent.turns && board.pending == agent.pending.active
    && (agent.pending.active ==>
         board.pendingTarget == agent.pending.target && board.pendingAmount == agent.pending.amount)
  }

  predicate Same(t: Transition, d: Decision)
  {
    t.accepted == d.accepted && t.reason == d.reason && t.effect == d.effect
    && t.newBalanceA == d.balanceA && t.newBalanceB == d.balanceB && t.newStatus == d.status
  }

  lemma SwitchAgrees(c: Command, a: Account, aok: bool, b: Account, bok: bool, pending: Pending, q: Query, turns: int)
    requires q.c == ContextOf(c, a, aok, b, bok) && (c.kind == CONFIRM ==> q.was == pending.active)
    requires c.kind == CONFIRM && q.was ==> q.target == pending.target && q.amount == pending.amount
    ensures Same(ForCode(q.c, PlainCode(q), turns), Decide(c, a, aok, b, bok, pending))
  {}

  lemma BoardMirrors(board: Board, agent: Engine.Agent, c: Command, ctx: Context, d: Decision)
    requires Mirrors(board, agent) && ctx.kind == c.kind && ctx.accountB == c.other && ctx.amount == c.amount
    requires c.kind == BEGIN_TRANSFER ==> d.accepted == (c.amount > 0)
    ensures Mirrors(BoardAfter(board, ctx), Engine.Agent(NextPending(c, d, agent.pending), agent.turns + 1))
  {}

  lemma ForCodeTurns(c: Context, code: int, turns: int)
    ensures var t := ForCode(c, code, turns); t.turns == turns && t.expectedA == c.versionA && t.expectedB == c.versionB
  {}

  // One turn of the machine decides what the plain switch decides, counts the same turn, and leaves
  // a board that again mirrors the agent record.
  lemma TurnAgrees(board: Board, agent: Engine.Agent, c: Command, a: Account, aok: bool, b: Account, bok: bool)
    requires Mirrors(board, agent)
    ensures var t, d := Yields(board, ContextOf(c, a, aok, b, bok)), Decide(c, a, aok, b, bok, agent.pending);
            && Same(t, d) && t.turns == agent.turns + 1 && t.expectedA == a.version && t.expectedB == b.version
            && Mirrors(BoardAfter(board, ContextOf(c, a, aok, b, bok)),
               Engine.Agent(NextPending(c, d, agent.pending), agent.turns + 1))
  {
    var ctx := ContextOf(c, a, aok, b, bok);
    var after := BoardAfter(board, ctx);
    var q := Query(ctx, after.wasPending, after.pendingTarget, after.pendingAmount);
    CodeIsPlain(q);
    SwitchAgrees(c, a, aok, b, bok, agent.pending, q, after.transitionCount);
    ForCodeTurns(ctx, Code(q), after.transitionCount);
    BoardMirrors(board, agent, c, ctx, Decide(c, a, aok, b, bok, agent.pending));
  }

  // A command with the accounts it finds.
  datatype Turn = Turn(c: Command, a: Account, aok: bool, b: Account, bok: bool)

  function BoardRun(board: Board, turns: seq<Turn>): (Board, seq<Transition>)
  {
    if turns == [] then (board, [])
    else
      var (mid, ys) := BoardRun(board, turns[..|turns| - 1]);
      var last := turns[|turns| - 1];
      var ctx := ContextOf(last.c, last.a, last.aok, last.b, last.bok);
      (BoardAfter(mid, ctx), ys + [Yields(mid, ctx)])
  }

  function SwitchRun(agent: Engine.Agent, turns: seq<Turn>): (Engine.Agent, seq<Decision>)
  {
    if turns == [] then (agent, [])
    else
      var (mid, ds) := SwitchRun(agent, turns[..|turns| - 1]);
      var last := turns[|turns| - 1];
      var d := Decide(last.c, last.a, last.aok, last.b, last.bok, mid.pending);
      (Engine.Agent(NextPending(last.c, d, mid.pending), mid.turns + 1), ds + [d])
  }

  // Over every sequence of commands the generated machine and the plain switch agree, turn by turn.
  lemma {:induction false} RunsAgree(turns: seq<Turn>)
    ensures var (board, ys) := BoardRun(Board(0, false, false, 0, 0), turns);
            var (agent, ds) := SwitchRun(Engine.NO_AGENT, turns);
            && Mirrors(board, agent) && agent.turns == |turns| == |ys| == |ds|
            && forall i | 0 <= i < |turns| :: Same(ys[i], ds[i]) && ys[i].turns == i + 1
  {
    if turns != [] {
      var front, last := turns[..|turns| - 1], turns[|turns| - 1];
      RunsAgree(front);
      TurnAgrees(BoardRun(Board(0, false, false, 0, 0), front).0, SwitchRun(Engine.NO_AGENT, front).0, last.c, last.a,
          last.aok, last.b, last.bok);
    }
  }
}
