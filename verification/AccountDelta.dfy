/**
 Deltas between checkpoints of the account agent: which fields changed, and their new values. A
 delta applied to the checkpoint it was exported from gives the next checkpoint, and it is refused
 anywhere else.
 */
module AccountDelta {
  import opened Bytes
  import opened Accounts
  import opened AccountFlow
  import opened AccountLog
  import opened Varint

  // What a checkpoint holds of a machine, besides the schema it was generated from. `active` is
  // whether it names the state Active; before the first turn it names none.
  datatype Payload = Payload(active: bool, instruction: int, owner: int, board: Board, lastYield: Transition,
      hasYield: bool)

  const NO_YIELD := Transition(false, 0, 0, 0, 0, 0, 0, 0, 0, 0, 0, 0)

  function InitialPayload(owner: int): Payload
  {
    Payload(false, 0, owner, Board(0, false, false, 0, 0), NO_YIELD, false)
  }

  // The digest of a checkpoint's bytes.
  type Identity = Payload -> Bytes

  const NO_IDENTITY: Bytes := Zeros(32)

  predicate ShapeOk(t: Transition)
  {
    0 <= t.reason <= INVALID_WORKFLOW && 0 <= t.effect <= 4 && 0 <= t.newStatus <= STATUS_FROZEN
  }

  // A checkpoint that a machine can be restored from.
  predicate Checked(p: Payload)
  {
    p.hasYield && p.active && 0 <= p.instruction <= 6 && ShapeOk(p.lastYield)
  }

  // Every number fits the 64 bits it is written with.
  predicate Fits(p: Payload)
  {
    var b, y := p.board, p.lastYield;
    && InI64(b.transitionCount) && InI64(b.pendingTarget) && InI64(b.pendingAmount)
    && InI64(y.accountA) && InI64(y.accountB) && InI64(y.amount) && InI64(y.newBalanceA) && InI64(y.newBalanceB)
    && InI64(y.expectedA) && InI64(y.expectedB) && InI64(y.turns)
  }

  // ------------------------------------------------------------------------- writing

  function PutBool(v: bool): Bytes { [if v then 1 else 0] }

  function PutInt(v: int): Bytes { PutUvarint(ZigZag(v)) }

  function PutInts(vs: seq<int>): Bytes
  {
    if vs == [] then [] else PutInt(vs[0]) + PutInts(vs[1..])
  }

  function YieldInts(t: Transition): seq<int>
  {
    [t.reason, t.effect, t.accountA, t.accountB, t.amount, t.newBalanceA, t.newBalanceB, t.newStatus, t.expectedA,
        t.expectedB, t.turns]
  }

  function PutYield(t: Transition): Bytes { PutBool(t.accepted) + PutInts(YieldInts(t)) }

  function Changed(prev: Payload, cur: Payload): seq<bool>
  {
    var a, b := prev.board, cur.board;
    [prev.active != cur.active, prev.instruction != cur.instruction, a.transitionCount != b.transitionCount,
        a.pending != b.pending,
     a.wasPending != b.wasPending, a.pendingTarget != b.pendingTarget, a.pendingAmount != b.pendingAmount,
     prev.lastYield != cur.lastYield, prev.hasYield != cur.hasYield]
  }

  function If(flag: bool, b: Bytes): Bytes { if flag then b else [] }

  function PutFields(flags: seq<bool>, cur: Payload): Bytes
    requires |flags| == 9 && cur.instruction >= 0
  {
    If(flags[0], [0]) + (If(flags[1], PutUvarint(cur.instruction)) + (If(flags[2], PutInt(cur.board.transitionCount))
    + (If(flags[3], PutBool(cur.board.pending))
        + (If(flags[4], PutBool(cur.board.wasPending)) + (If(flags[5], PutInt(cur.board.pendingTarget))
    + (If(flags[6], PutInt(cur.board.pendingAmount))
        + (If(flags[7], PutYield(cur.lastYield)) + If(flags[8], PutBool(cur.hasYield)))))))))
  }

  // "OFD1", the format version and the field layout.
  const HEADER: Bytes := [79, 70, 68, 49, 1, 1]

  lemma FlagsFit(flags: seq<bool>)
    requires |flags| == 9
    ensures Pack(flags) < 512
  {
    PackRoundTrip(flags);
    assert Pow2(9) == 512;
  }

  function ExportPayload(prev: Payload, cur: Payload, from: Bytes): Option<Bytes>
  {
    var flags := Changed(prev, cur);
    if prev.owner != cur.owner || (flags[0] && !cur.active) || cur.instruction < 0 then None
    else
      FlagsFit(flags);
      Some(HEADER + from + BigEndian(2, Pack(flags)) + PutFields(flags, cur))
  }

  // A delta between two checkpoints, the first of which may be the machine's initial frontier.
  function Export(id: Identity, prev: Option<Payload>, cur: Payload): Option<Bytes>
  {
    if !Checked(cur) then None
    else
      match prev
      case None => ExportPayload(InitialPayload(cur.owner), cur, NO_IDENTITY)
      case Some(p) => if Checked(p) then ExportPayload(p, cur, id(p)) else None
  }

  // ------------------------------------------------------------------------- reading

  // A payload being rebuilt and the bytes still to be read.
  datatype Partial = Partial(p: Payload, rest: Bytes) | Spoilt

  datatype ReadInt = ReadInt(value: int, rest: Bytes) | NoInt

  function TakeInt(b: Bytes): ReadInt
  {
    match ReadUvarint(b, 0)
    case NotANumber => NoInt
    case Number(v, size) => ReadInt(UnZigZag(v), b[size..])
  }

  datatype ReadInts = ReadInts(values: seq<int>, rest: Bytes) | NoInts

  function TakeInts(b: Bytes, n: nat): (r: ReadInts)
    ensures r.ReadInts? ==> |r.values| == n
    decreases n
  {
    if n == 0 then ReadInts([], b)
    else
      match TakeInt(b)
      case NoInt => NoInts
      case ReadInt(v, rest) =>
        match TakeInts(rest, n - 1)
        case NoInts => NoInts
        case ReadInts(vs, last) => ReadInts([v] + vs, last)
  }

  predicate IsBool(b: Bytes) { b != [] && b[0] <= 1 }

  function YieldOf(accepted: bool, vs: seq<int>): Transition
    requires |vs| == 11
  {
    Transition(accepted, vs[0], vs[1], vs[2], vs[3], vs[4], vs[5], vs[6], vs[7], vs[8], vs[9], vs[10])
  }

  function TakeState(flag: bool, x: Partial): Partial
  {
    if x.Spoilt? || !flag then x else if x.rest == [] || x.rest[0] != 0 then Spoilt
        else Partial(x.p.(active := true), x.rest[1..])
  }

  function TakeInstruction(flag: bool, x: Partial): Partial
  {
    if x.Spoilt? || !flag then x
    else
      match ReadUvarint(x.rest, 0)
      case NotANumber => Spoilt
      case Number(v, size) => Partial(x.p.(instruction := Signed(v)), x.rest[size..])
  }

  function TakeCount(flag: bool, x: Partial): Partial
  {
    if x.Spoilt? || !flag then x
    else
      match TakeInt(x.rest)
      case NoInt => Spoilt
      case ReadInt(v, rest) => Partial(x.p.(board := x.p.board.(transitionCount := v)), rest)
  }

  function TakePending(flag: bool, x: Partial): Partial
  {
    if x.Spoilt? || !flag then x
    else if !IsBool(x.rest) then Spoilt else Partial(x.p.(board := x.p.board.(pending := x.rest[0] == 1)), x.rest[1..])
  }

  function TakeWasPending(flag: bool, x: Partial): Partial
  {
    if x.Spoilt? || !flag then x
    else if !IsBool(x.rest) then Spoilt
        else Partial(x.p.(board := x.p.board.(wasPending := x.rest[0] == 1)), x.rest[1..])
  }

  function TakeTarget(flag: bool, x: Partial): Partial
  {
    if x.Spoilt? || !flag then x
    else
      match TakeInt(x.rest)
      case NoInt => Spoilt
      case ReadInt(v, rest) => Partial(x.p.(board := x.p.board.(pendingTarget := v)), rest)
  }

  function TakeAmount(flag: bool, x: Partial): Partial
  {
    if x.Spoilt? || !flag then x
    else
      match TakeInt(x.rest)
      case NoInt => Spoilt
      case ReadInt(v, rest) => Partial(x.p.(board := x.p.board.(pendingAmount := v)), rest)
  }

  function TakeYield(flag: bool, x: Partial): Partial
  {
    if x.Spoilt? || !flag then x
    else if !IsBool(x.rest) then Spoilt
    else
      match TakeInts(x.rest[1..], 11)
      case NoInts => Spoilt
      case ReadInts(vs, rest) =>
        var y := YieldOf(x.rest[0] == 1, vs);
        if ShapeOk(y) then Partial(x.p.(lastYield := y), rest) else Spoilt
  }

  function TakeHasYield(flag: bool, x: Partial): Partial
  {
    if x.Spoilt? || !flag then x
    else if !IsBool(x.rest) then Spoilt else Partial(x.p.(hasYield := x.rest[0] == 1), x.rest[1..])
  }

  function TakeFields(flags: seq<bool>, x: Partial): Partial
    requires |flags| == 9
  {
    TakeHasYield(flags[8], TakeYield(flags[7], TakeAmount(flags[6], TakeTarget(flags[5], TakeWasPending(flags[4],
      TakePending(flags[3], TakeCount(flags[2], TakeInstruction(flags[1], TakeState(flags[0], x)))))))))
  }

  // The field mask of a delta, a big-endian 16-bit word.
  function FlagWord(delta: Bytes): nat
    requires |delta| >= 40
  {
    FromBigEndian(delta[38..40])
  }

  // The checkpoint a delta is for must be the one it was exported from.
  predicate Predecessor(id: Identity, prev: Option<Payload>, owner: int, want: Bytes)
  {
    match prev
    case None => want == NO_IDENTITY
    case Some(p) => Checked(p) && id(p) == want && p.owner == owner
  }

  function Apply(id: Identity, prev: Option<Payload>, owner: int, delta: Bytes): Option<Payload>
  {
    if |delta| < 40 || delta[..6] != HEADER || FlagWord(delta) >= 512 then None
    else if !Predecessor(id, prev, owner, delta[6..38]) then None
    else
      var start := if prev.Some? then prev.value else InitialPayload(owner);
      match TakeFields(Unpack(FlagWord(delta), 9), Partial(start, delta[40..]))
      case Spoilt => None
      case Partial(p, rest) => if rest == [] && Checked(p) then Some(p) else None
  }

  // ----------------------------------------------------------------------- round trip

  lemma IntReads(v: int, rest: Bytes)
    requires InI64(v)
    ensures TakeInt(PutInt(v) + rest) == ReadInt(v, rest)
  {
    ZigZagRoundTrip(v);
    UvarintRoundTrip(ZigZag(v), rest);
    assert (PutInt(v) + rest)[|PutInt(v)|..] == rest;
  }

  lemma {:induction false} IntsRead(vs: seq<int>, rest: Bytes)
    requires forall i | 0 <= i < |vs| :: InI64(vs[i])
    ensures TakeInts(PutInts(vs) + rest, |vs|) == ReadInts(vs, rest)
    decreases |vs|
  {
    if vs == [] {
      assert PutInts(vs) + rest == rest;
    } else {
      ConcatAssoc(PutInt(vs[0]), PutInts(vs[1..]), rest);
      IntReads(vs[0], PutInts(vs[1..]) + rest);
      IntsRead(vs[1..], rest);
      assert [vs[0]] + vs[1..] == vs;
    }
  }

  lemma StateReads(p: Payload, cur: Payload, rest: Bytes)
    requires p.active != cur.active ==> cur.active
    ensures var flag := p.active != cur.active;
              TakeState(flag, Partial(p, If(flag, [0]) + rest)) == Partial(p.(active := cur.active), rest)
  {
    var flag := p.active != cur.active;
    if flag { assert ([0] + rest)[1..] == rest; } else { assert [] + rest == rest; }
  }

  lemma InstructionReads(p: Payload, cur: Payload, rest: Bytes)
    requires 0 <= cur.instruction < I64_LIMIT
    ensures var flag := p.instruction != cur.instruction;
            TakeInstruction(flag, Partial(p, If(flag, PutUvarint(cur.instruction)) + rest))
                == Partial(p.(instruction := cur.instruction), rest)
  {
    var flag, b := p.instruction != cur.instruction, PutUvarint(cur.instruction);
    if flag {
      UvarintRoundTrip(cur.instruction, rest);
      assert (b + rest)[|b|..] == rest;
    } else {
      assert [] + rest == rest;
    }
  }

  lemma CountReads(p: Payload, v: int, rest: Bytes)
    requires InI64(v)
    ensures var flag := p.board.transitionCount != v;
            TakeCount(flag, Partial(p, If(flag, PutInt(v)) + rest))
                == Partial(p.(board := p.board.(transitionCount := v)), rest)
  {
    IntReads(v, rest);
    assert [] + rest == rest;
  }

  lemma PendingReads(p: Payload, v: bool, rest: Bytes)
    ensures var flag := p.board.pending != v;
            TakePending(flag, Partial(p, If(flag, PutBool(v)) + rest))
                == Partial(p.(board := p.board.(pending := v)), rest)
  {
    assert (PutBool(v) + rest)[1..] == rest && [] + rest == rest;
  }

  lemma WasPendingReads(p: Payload, v: bool, rest: Bytes)
    ensures var flag := p.board.wasPending != v;
            TakeWasPending(flag, Partial(p, If(flag, PutBool(v)) + rest))
                == Partial(p.(board := p.board.(wasPending := v)), rest)
  {
    assert (PutBool(v) + rest)[1..] == rest && [] + rest == rest;
  }

  lemma TargetReads(p: Payload, v: int, rest: Bytes)
    requires InI64(v)
    ensures var flag := p.board.pendingTarget != v;
            TakeTarget(flag, Partial(p, If(flag, PutInt(v)) + rest))
                == Partial(p.(board := p.board.(pendingTarget := v)), rest)
  {
    IntReads(v, rest);
    assert [] + rest == rest;
  }

  lemma AmountReads(p: Payload, v: int, rest: Bytes)
    requires InI64(v)
    ensures var flag := p.board.pendingAmount != v;
            TakeAmount(flag, Partial(p, If(flag, PutInt(v)) + rest))
                == Partial(p.(board := p.board.(pendingAmount := v)), rest)
  {
    IntReads(v, rest);
    assert [] + rest == rest;
  }

  lemma YieldIntsFit(cur: Payload)
    requires Fits(cur) && ShapeOk(cur.lastYield)
    ensures forall i | 0 <= i < 11 :: InI64(YieldInts(cur.lastYield)[i])
  {}

  lemma YieldReads(p: Payload, cur: Payload, rest: Bytes)
    requires Fits(cur) && ShapeOk(cur.lastYield)
    ensures var flag := p.lastYield != cur.lastYield;
            TakeYield(flag, Partial(p, If(flag, PutYield(cur.lastYield)) + rest))
                == Partial(p.(lastYield := cur.lastYield), rest)
  {
    var y := cur.lastYield;
    if p.lastYield != y {
      var b := PutYield(y) + rest;
      ConcatAssoc(PutBool(y.accepted), PutInts(YieldInts(y)), rest);
      assert b[1..] == PutInts(YieldInts(y)) + rest;
      YieldIntsFit(cur);
      IntsRead(YieldInts(y), rest);
    } else {
      assert [] + rest == rest;
    }
  }

  lemma HasYieldReads(p: Payload, v: bool)
    ensures var flag := p.hasYield != v;
              TakeHasYield(flag, Partial(p, If(flag, PutBool(v)))) == Partial(p.(hasYield := v), [])
  {}

  // Reading the fields of a delta from its predecessor gives the current payload.
  lemma FieldsRead(prev: Payload, cur: Payload)
    requires prev.owner == cur.owner && Checked(cur) && Fits(cur)
    ensures TakeFields(Changed(prev, cur), Partial(prev, PutFields(Changed(prev, cur), cur))) == Partial(cur, [])
  {
    var f, b := Changed(prev, cur), cur.board;
    var r8 := If(f[8], PutBool(cur.hasYield));
    var r7 := If(f[7], PutYield(cur.lastYield)) + r8;
    var r6 := If(f[6], PutInt(b.pendingAmount)) + r7;
    var r5 := If(f[5], PutInt(b.pendingTarget)) + r6;
    var r4 := If(f[4], PutBool(b.wasPending)) + r5;
    var r3 := If(f[3], PutBool(b.pending)) + r4;
    var r2 := If(f[2], PutInt(b.transitionCount)) + r3;
    var r1 := If(f[1], PutUvarint(cur.instruction)) + r2;
    StateReads(prev, cur, r1);
    var p1 := prev.(active := cur.active);
    InstructionReads(p1, cur, r2);
    var p2 := p1.(instruction := cur.instruction);
    CountReads(p2, b.transitionCount, r3);
    var p3 := p2.(board := p2.board.(transitionCount := b.transitionCount));
    PendingReads(p3, b.pending, r4);
    var p4 := p3.(board := p3.board.(pending := b.pending));
    WasPendingReads(p4, b.wasPending, r5);
    var p5 := p4.(board := p4.board.(wasPending := b.wasPending));
    TargetReads(p5, b.pendingTarget, r6);
    var p6 := p5.(board := p5.board.(pendingTarget := b.pendingTarget));
    AmountReads(p6, b.pendingAmount, r7);
    var p7 := p6.(board := p6.board.(pendingAmount := b.pendingAmount));
    YieldReads(p7, cur, r8);
    HasYieldReads(p7.(lastYield := cur.lastYield), cur.hasYield);
  }

  // The header of an exported delta, as it is read back.
  lemma HeaderReads(from: Bytes, n: nat, fields: Bytes)
    requires |from| == 32 && n < 512
    ensures var d := HEADER + from + BigEndian(2, n) + fields;
            && |d| == 40 + |fields| && d[..6] == HEADER && d[6..38] == from && FlagWord(d) == n && d[40..] == fields
  {
    var d := HEADER + from + BigEndian(2, n) + fields;
    assert d[..6] == HEADER && d[6..38] == from && d[38..40] == BigEndian(2, n) && d[40..] == fields;
    assert Pow256(2) == 65536;
    BigEndianRoundTrip(2, n);
  }

  lemma ExportReads(prev: Payload, cur: Payload, from: Bytes) returns (d: Bytes)
    requires prev.owner == cur.owner && Checked(cur) && Fits(cur) && |from| == 32
    ensures ExportPayload(prev, cur, from) == Some(d) && |d| >= 40 && d[..6] == HEADER && d[6..38] == from
            && FlagWord(d) < 512
    ensures TakeFields(Unpack(FlagWord(d), 9), Partial(prev, d[40..])) == Partial(cur, [])
  {
    var flags := Changed(prev, cur);
    FlagsFit(flags);
    d := HEADER + from + BigEndian(2, Pack(flags)) + PutFields(flags, cur);
    HeaderReads(from, Pack(flags), PutFields(flags, cur));
    PackRoundTrip(flags);
    FieldsRead(prev, cur);
  }

  // Applying the delta between two checkpoints of the same owner to the first gives the second.
  lemma DeltaRoundTrip(id: Identity, prev: Option<Payload>, cur: Payload) returns (d: Bytes)
    requires Checked(cur) && Fits(cur) && (forall p :: |id(p)| == 32)
    requires prev.Some? ==> Checked(prev.value) && prev.value.owner == cur.owner
    ensures Export(id, prev, cur) == Some(d) && Apply(id, prev, cur.owner, d) == Some(cur)
  {
    if prev.Some? {
      d := ExportReads(prev.value, cur, id(prev.value));
    } else {
      d := ExportReads(InitialPayload(cur.owner), cur, NO_IDENTITY);
    }
  }

  function IdentityOf(id: Identity, prev: Option<Payload>): Bytes
  {
    if prev.Some? then id(prev.value) else NO_IDENTITY
  }

  // A delta is refused on any predecessor with another identity than the one it was exported from.
  lemma RefusedElsewhere(id: Identity, prev: Option<Payload>, cur: Payload, other: Option<Payload>, owner: int)
    requires Checked(cur) && Fits(cur) && (forall p :: |id(p)| == 32)
    requires prev.Some? ==> Checked(prev.value) && prev.value.owner == cur.owner
    requires IdentityOf(id, other) != IdentityOf(id, prev)
    ensures Apply(id, other, owner, Export(id, prev, cur).value) == None
  {
    var d: Bytes;
    if prev.Some? {
      d := ExportReads(prev.value, cur, id(prev.value));
    } else {
      d := ExportReads(InitialPayload(cur.owner), cur, NO_IDENTITY);
    }
  }

  // ----------------------------------------------------------------------- whole runs

  // The checkpoint of a machine after its turns; before the first there is only the initial
  // frontier.
  function Frontier(owner: int, turns: seq<Context>): Payload
  {
    if turns == [] then InitialPayload(owner)
    else
      var board, last := Frontier(owner, turns[..|turns| - 1]).board, turns[|turns| - 1];
      Payload(true, 5, owner, BoardAfter(board, last), Yields(board, last), true)
  }

  function Checkpoint(owner: int, turns: seq<Context>): Option<Payload>
  {
    if turns == [] then None else Some(Frontier(owner, turns))
  }

  // The deltas a run exports, one a turn.
  function Deltas(id: Identity, owner: int, turns: seq<Context>): seq<Option<Bytes>>
  {
    if turns == [] then []
    else
      Deltas(id, owner, turns[..|turns| - 1])
      + [Export(id, Checkpoint(owner, turns[..|turns| - 1]), Frontier(owner, turns))]
  }

  datatype Folded = Folded(checkpoint: Option<Payload>) | Stuck

  function Fold(id: Identity, owner: int, ds: seq<Option<Bytes>>): Folded
  {
    if ds == [] then Folded(None)
    else
      match Fold(id, owner, ds[..|ds| - 1])
      case Stuck => Stuck
      case Folded(prev) =>
        var last := ds[|ds| - 1];
        if last.None? then Stuck
        else
          var next := Apply(id, prev, owner, last.value);
          if next.None? then Stuck else Folded(next)
  }

  predicate RunFits(owner: int, turns: seq<Context>)
  {
    forall k | 0 < k <= |turns| :: Fits(Frontier(owner, turns[..k])) && 0 <= turns[k - 1].statusA <= STATUS_FROZEN
  }

  lemma YieldShape(b: Board, c: Context)
    requires 0 <= c.statusA <= STATUS_FROZEN
    ensures ShapeOk(Yields(b, c))
  {}

  lemma FrontierChecked(owner: int, turns: seq<Context>)
    requires turns != [] && 0 <= turns[|turns| - 1].statusA <= STATUS_FROZEN
    ensures Checked(Frontier(owner, turns)) && Frontier(owner, turns).owner == owner
  {
    YieldShape(Frontier(owner, turns[..|turns| - 1]).board, turns[|turns| - 1]);
  }

  lemma RunFitsPrefix(owner: int, turns: seq<Context>)
    requires turns != [] && RunFits(owner, turns)
    ensures RunFits(owner, turns[..|turns| - 1]) && Fits(Frontier(owner, turns))
            && 0 <= turns[|turns| - 1].statusA <= STATUS_FROZEN
  {
    var front := turns[..|turns| - 1];
    assert turns[..|turns|] == turns;
    forall k | 0 < k <= |front| ensures Fits(Frontier(owner, front[..k]))
        && 0 <= front[k - 1].statusA <= STATUS_FROZEN {
      assert front[..k] == turns[..k];
    }
  }

  lemma TurnDelta(id: Identity, owner: int, turns: seq<Context>) returns (d: Bytes)
    requires (forall p :: |id(p)| == 32) && turns != [] && RunFits(owner, turns)
    ensures Export(id, Checkpoint(owner, turns[..|turns| - 1]), Frontier(owner, turns)) == Some(d)
    ensures Apply(id, Checkpoint(owner, turns[..|turns| - 1]), owner, d) == Some(Frontier(owner, turns))
  {
    var front := turns[..|turns| - 1];
    RunFitsPrefix(owner, turns);
    FrontierChecked(owner, turns);
    if front != [] {
      RunFitsPrefix(owner, front);
      FrontierChecked(owner, front);
    }
    d := DeltaRoundTrip(id, Checkpoint(owner, front), Frontier(owner, turns));
  }

  lemma FoldOneMore(id: Identity, owner: int, ds: seq<Option<Bytes>>, prev: Option<Payload>, d: Bytes, next: Payload)
    requires Fold(id, owner, ds) == Folded(prev) && Apply(id, prev, owner, d) == Some(next)
    ensures Fold(id, owner, ds + [Some(d)]) == Folded(Some(next))
  {
    assert (ds + [Some(d)])[..|ds|] == ds;
  }

  // Folding the deltas of a whole run from the initial frontier gives the machine's last checkpoint.
  lemma {:induction false} FoldGivesLast(id: Identity, owner: int, turns: seq<Context>)
    requires (forall p :: |id(p)| == 32) && RunFits(owner, turns)
    ensures Fold(id, owner, Deltas(id, owner, turns)) == Folded(Checkpoint(owner, turns))
  {
    if turns != [] {
      var front := turns[..|turns| - 1];
      RunFitsPrefix(owner, turns);
      FoldGivesLast(id, owner, front);
      var d := TurnDelta(id, owner, turns);
      FoldOneMore(id, owner, Deltas(id, owner, front), Checkpoint(owner, front), d, Frontier(owner, turns));
    }
  }

  // ------------------------------------------------------------------- restored machines

  // A checkpoint that restoring accepts; the decision it holds is looked at elsewhere.
  predicate Restorable(p: Payload)
  {
    p.hasYield && p.active && 0 <= p.instruction <= 6
  }

  method Restore(p: Payload) returns (machine: Option<AccountAgent>)
    ensures machine.Some? <==> Restorable(p)
    ensures machine.Some? ==> fresh(machine.value) && StateOf(machine.value) == p
  {
    if !p.hasYield || !p.active || !(0 <= p.instruction <= 6) {
      return None;
    }
    var m := new AccountAgent.Restored(p.owner, p.instruction, p.board, p.lastYield);
    return Some(m);
  }

  function StateOf(m: AccountAgent): Payload
    reads m
  {
    Payload(m.started, m.instruction, m.owner, m.board, m.lastYield, m.hasYield)
  }

  // The durable facade is restored only with a well-shaped decision.
  method RestoreDurable(id: Identity, p: Payload) returns (agent: Option<DurableAgent>)
    ensures agent.Some? <==> Checked(p)
    ensures agent.Some? ==> fresh(agent.value) && fresh(agent.value.machine) && agent.value.id == id
    ensures agent.Some? ==> forall turns | turns != [] && p == Frontier(p.owner, turns) :: agent.value.Follows(turns)
  {
    if !Restorable(p) || !ShapeOk(p.lastYield) {
      return None;
    }
    var a := new DurableAgent.Restored(id, p);
    return Some(a);
  }

  // What a machine with this state holds after one more turn, if that does not fail.
  function Resumed(p: Payload, c: Context): Option<Payload>
    requires p.instruction >= 0
  {
    if p.instruction > 5 then None
    else
      var board := BoardFrom(p.instruction, p.board, c);
      Some(Payload(true, 5, p.owner, board, Decides(board, c), true))
  }

  function ResumedAll(p: Payload, cs: seq<Context>): (q: Option<Payload>)
    requires p.instruction >= 0
    ensures q.Some? ==> q.value.instruction >= 0
  {
    if cs == [] then Some(p)
    else
      var front := ResumedAll(p, cs[..|cs| - 1]);
      if front.None? then None else Resumed(front.value, cs[|cs| - 1])
  }

  // Restoring a checkpoint and stepping gives the resumed state.
  method RestoreAndStep(p: Payload, c: Context) returns (next: Option<Payload>)
    requires Restorable(p)
    ensures next == Resumed(p, c)
  {
    var restored := Restore(p);
    var m := restored.value;
    var ok := m.Step(c);
    return if ok then Some(StateOf(m)) else None;
  }

  lemma {:induction false} CountOnlyAtStart(k: nat, b: Board, c: Context)
    requires 1 <= k
    ensures k != 5 ==> BoardFrom(k, b, c).transitionCount == b.transitionCount
    decreases if k <= 4 then 4 - k else 0
  {
    if k < 4 { CountOnlyAtStart(k + 1, Instruction(k, b, c), c); }
  }

  /** A restored machine takes its next turn as one that has yielded with that board does, exactly if it
      stands at the first instruction or behind the yield. Restoring accepts five other continuations: from
      four of them a turn is lost from the count, and from the last every turn fails. */
  lemma ResumesIff(p: Payload, c: Context)
    requires Restorable(p)
    ensures Resumed(p, c) == Some(Payload(true, 5, p.owner, BoardAfter(p.board, c), Yields(p.board, c), true)) <==>
              p.instruction == 0 || p.instruction == 5
    ensures Resumed(p, c) == None <==> p.instruction == 6
  {
    BoardFromStart(p.board, c);
    if p.instruction != 0 { CountOnlyAtStart(p.instruction, p.board, c); }
  }

  lemma FrontierResumes(owner: int, turns: seq<Context>, c: Context)
    requires turns != []
    ensures Resumed(Frontier(owner, turns), c) == Some(Frontier(owner, turns + [c]))
  {
    assert (turns + [c])[..|turns|] == turns;
    BoardFromStart(Frontier(owner, turns).board, c);
  }

  lemma ResumedSnoc(p: Payload, cs: seq<Context>, c: Context, mid: Payload)
    requires p.instruction >= 0 && ResumedAll(p, cs) == Some(mid)
    ensures ResumedAll(p, cs + [c]) == Resumed(mid, c)
  {
    assert (cs + [c])[..|cs|] == cs;
  }

  lemma OneMoreResumed(owner: int, turns: seq<Context>, more: seq<Context>, front: seq<Context>, c: Context)
    requires turns != [] && more == front + [c]
    requires ResumedAll(Frontier(owner, turns), front) == Some(Frontier(owner, turns + front))
    ensures ResumedAll(Frontier(owner, turns), more) == Some(Frontier(owner, turns + more))
  {
    FrontierResumes(owner, turns + front, c);
    ResumedSnoc(Frontier(owner, turns), front, c, Frontier(owner, turns + front));
    ConcatAssoc(turns, front, [c]);
  }

  /** A machine restored from its checkpoint goes on as the original does: after any further turns it holds
      what the original holds, its last decision included. */
  lemma {:induction false} RestoredContinues(owner: int, turns: seq<Context>, more: seq<Context>)
    requires turns != []
    ensures ResumedAll(Frontier(owner, turns), more) == Some(Frontier(owner, turns + more))
    decreases |more|
  {
    if more == [] {
      assert turns + more == turns;
    } else {
      var n := |more| - 1;
      RestoredContinues(owner, turns, more[..n]);
      OneMoreResumed(owner, turns, more, more[..n], more[n]);
    }
  }

  // The deltas of a run give a checkpoint from which the run goes on.
  lemma FoldedContinues(id: Identity, owner: int, turns: seq<Context>, more: seq<Context>)
    requires (forall p :: |id(p)| == 32) && RunFits(owner, turns) && turns != []
    ensures var folded := Fold(id, owner, Deltas(id, owner, turns));
            && folded.Folded? && folded.checkpoint.Some? && Restorable(folded.checkpoint.value)
            && ResumedAll(folded.checkpoint.value, more) == Some(Frontier(owner, turns + more))
  {
    FoldGivesLast(id, owner, turns);
    RestoredContinues(owner, turns, more);
  }

  // ------------------------------------------------------------------ the durable facade

  function PayloadOf(prev: Option<Payload>, owner: int): Payload
  {
    if prev.Some? then prev.value else InitialPayload(owner)
  }

  predicate Precedes(prev: Option<Payload>, cur: Payload)
  {
    Checked(cur) && Fits(cur) && (prev.Some? ==> Checked(prev.value) && prev.value.owner == cur.owner)
  }

  // A delta that names `from` as its predecessor applies to the checkpoint it was computed from
  // exactly if that checkpoint has this identity.
  lemma NamedDelta(id: Identity, prev: Option<Payload>, cur: Payload, from: Bytes) returns (d: Bytes)
    requires Precedes(prev, cur) && |from| == 32
    ensures ExportPayload(PayloadOf(prev, cur.owner), cur, from) == Some(d)
    ensures Apply(id, prev, cur.owner, d) == if IdentityOf(id, prev) == from then Some(cur) else None
  {
    d := ExportReads(PayloadOf(prev, cur.owner), cur, from);
  }

  // The durable facade: it remembers the last committed frontier and exports against it.
  class DurableAgent {
    const id: Identity
    const machine: AccountAgent
    var committed: Payload
    var committedHash: Bytes

    function Current(): Payload
      reads machine
    {
      StateOf(machine)
    }

    // The machine has taken these turns, and the last of them is committed.
    ghost predicate Follows(turns: seq<Context>)
      reads this, machine
    {
      && machine.Suspended() && machine.board == Frontier(machine.owner, turns).board
      && (turns != [] ==> Current() == Frontier(machine.owner, turns))
      && committed == Frontier(machine.owner, turns)
         && committedHash == IdentityOf(id, Checkpoint(machine.owner, turns))
    }

    constructor (id: Identity, machine: AccountAgent)
      requires machine.Suspended() && !machine.started && machine.board == Board(0, false, false, 0, 0)
      ensures this.id == id && this.machine == machine && Follows([])
    {
      this.id, this.machine := id, machine;
      committed, committedHash := InitialPayload(machine.owner), NO_IDENTITY;
    }

    // Restored from a checkpoint, it goes on from there, and exports against it.
    constructor Restored(id: Identity, p: Payload)
      requires Restorable(p)
      ensures this.id == id && fresh(machine) && Current() == p && committed == p && committedHash == id(p)
      ensures forall turns | turns != [] && p == Frontier(p.owner, turns) :: Follows(turns)
    {
      this.id := id;
      machine := new AccountAgent.Restored(p.owner, p.instruction, p.board, p.lastYield);
      committed, committedHash := p, id(p);
    }

    // A host that holds the committed checkpoint gets the current one by applying the delta to it;
    // the delta is refused there if the hash recorded for that checkpoint is another one's.
    method ExportDelta() returns (d: Option<Bytes>)
      ensures !machine.hasYield ==> d == None
      ensures forall prev | machine.hasYield && Precedes(prev, Current()) && committed == PayloadOf(prev, machine.owner)
              && |committedHash| == 32 ::
                && d.Some?
                && Apply(id, prev, machine.owner, d.value) == if IdentityOf(id, prev) == committedHash
                   then Some(Current()) else None
    {
      if !machine.hasYield {
        return None;
      }
      forall prev | Precedes(prev, Current()) && committed == PayloadOf(prev, machine.owner) && |committedHash| == 32
        ensures ExportPayload(committed, Current(), committedHash).Some?
        ensures Apply(id, prev, machine.owner, ExportPayload(committed, Current(), committedHash).value)
             == if IdentityOf(id, prev) == committedHash then Some(Current()) else None
      {
        var _ := NamedDelta(id, prev, Current(), committedHash);
      }
      return ExportPayload(committed, Current(), committedHash);
    }

    // Called once the delta is durable, with the checkpoint it leads to. The frontier moves to the
    // machine's own payload; the hash is that of the argument, whether or not it is the same.
    method AcceptCommitted(checkpoint: Payload) returns (ok: bool)
      modifies this`committed, this`committedHash
      ensures ok == machine.hasYield
      ensures ok ==> committed == Current() && committedHash == id(checkpoint)
      ensures !ok ==> committed == old(committed) && committedHash == old(committedHash)
    {
      if !machine.hasYield {
        return false;
      }
      committed, committedHash := Current(), id(checkpoint);
      return true;
    }

    // A turn as a host takes it: step, export the delta, make it durable, and accept the machine's
    // checkpoint. The deltas of all turns, folded from the beginning, give the last checkpoint.
    method Turn(input: Context, ghost turns: seq<Context>, ghost ds: seq<Option<Bytes>>) returns (d: Option<Bytes>)
      requires Follows(turns) && RunFits(machine.owner, turns + [input]) && forall p :: |id(p)| == 32
      requires Fold(id, machine.owner, ds) == Folded(Checkpoint(machine.owner, turns))
      modifies this, machine
      ensures Follows(turns + [input])
      ensures Fold(id, machine.owner, ds + [d]) == Folded(Some(Current()))
    {
      ghost var owner, prev := machine.owner, Checkpoint(machine.owner, turns);
      var _ := machine.Step(input);
      OneTurnOn(owner, turns, input, Current());
      d := ExportDelta();
      FoldOneMore(id, owner, ds, prev, d.value, Current());
      var _ := AcceptCommitted(Current());
    }
  }

  // What a machine holds after one more turn is the next frontier, and follows the one before.
  lemma OneTurnOn(owner: int, turns: seq<Context>, input: Context, cur: Payload)
    requires RunFits(owner, turns + [input])
    requires var board := Frontier(owner, turns).board;
             cur == Payload(true, 5, owner, BoardAfter(board, input), Yields(board, input), true)
    ensures cur == Frontier(owner, turns + [input]) && Precedes(Checkpoint(owner, turns), cur)
    ensures Frontier(owner, turns) == PayloadOf(Checkpoint(owner, turns), owner)
  {
    var now := turns + [input];
    assert now[..|turns|] == turns;
    RunFitsPrefix(owner, now);
    FrontierChecked(owner, now);
    if turns != [] {
      RunFitsPrefix(owner, turns);
      FrontierChecked(owner, turns);
    }
  }
}
