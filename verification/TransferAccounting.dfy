/**
 The money of the transfer protocol: nothing is created or lost, reservations are exactly the
 open outgoing transfers, nothing goes negative, and each transfer is debited and credited at
 most once.
 */
module TransferAccounting {
  import opened TransferMessages
  import opened TransferProtocol
  import opened FiniteSums

  function Local(s: BsoState): int
  {
    s.balance + s.reserved
  }

  // Debited at the sender and not yet credited at the receiver.
  function InTransit(s: Phase, r: Phase, amount: int): int
  {
    if Debited(s) && r != At(Committed) then amount else 0
  }

  function Held(t: Transfer): int
  {
    if Open(t) then t.amount else 0
  }

  function HeldByTransfer(s: BsoState): map<Id, int>
  {
    map t | t in s.outgoing :: Held(s.outgoing[t])
  }

  function Debits(audit: seq<AuditEntry>, t: Id): nat
  {
    if audit == [] then 0
    else Debits(audit[..|audit| - 1], t) + if audit[|audit| - 1].transferID == t && audit[|audit| - 1].delta < 0 then 1
        else 0
  }

  function Credits(audit: seq<AuditEntry>, t: Id): nat
  {
    if audit == [] then 0
    else Credits(audit[..|audit| - 1], t) + if audit[|audit| - 1].transferID == t && audit[|audit| - 1].delta > 0 then 1
        else 0
  }

  predicate AuditOk(s: BsoState, t: Id)
  {
    && Debits(s.audit, t) == (if t in s.outgoing && s.outgoing[t].debitApplied then 1 else 0)
    && Credits(s.audit, t) == (if t in s.incoming && s.incoming[t].creditApplied then 1 else 0)
  }

  // One participant's books.
  ghost predicate BooksOk(s: BsoState)
  {
    && s.balance >= 0
    && s.reserved == Sum(HeldByTransfer(s))
    && forall t: Id :: AuditOk(s, t)
  }

  ghost predicate AllBooksOk(w: World)
  {
    forall id <- w.nodes :: BooksOk(w.nodes[id].state)
  }

  function Locals(w: World): map<Id, int>
  {
    map id | id in w.nodes :: Local(w.nodes[id].state)
  }

  function Transit(work: Workload, w: World): map<Id, int>
  {
    map t | t in work :: InTransit(SenderPhase(w, work[t]), ReceiverPhase(w, work[t]), work[t].amount)
  }

  ghost function Accounted(work: Workload, w: World): int
  {
    Sum(Locals(w)) + Sum(Transit(work, w))
  }

  // What a step may do to one participant's money while its transfer stands at the given phases.
  ghost predicate MoneyKept(s: BsoState, s': BsoState, before: int, after: int)
  {
    BooksOk(s') && Local(s') + after == Local(s) + before
  }

  lemma HeldAfterWrite(s: BsoState, s': BsoState, t: Id)
    requires t in s'.outgoing && s'.outgoing == s.outgoing[t := s'.outgoing[t]]
    ensures Sum(HeldByTransfer(s')) ==
            Sum(HeldByTransfer(s)) - (if t in s.outgoing then Held(s.outgoing[t]) else 0) + Held(s'.outgoing[t])
  {
    SumSet(HeldByTransfer(s), t, Held(s'.outgoing[t]));
    assert HeldByTransfer(s') == HeldByTransfer(s)[t := Held(s'.outgoing[t])];
  }

  lemma AuditAppend(audit: seq<AuditEntry>, entry: AuditEntry, t: Id)
    ensures Debits(audit + [entry], t) == Debits(audit, t) + if entry.transferID == t && entry.delta < 0 then 1 else 0
    ensures Credits(audit + [entry], t) == Credits(audit, t) + if entry.transferID == t && entry.delta > 0 then 1 else 0
  {
    assert (audit + [entry])[..|audit|] == audit;
  }

  // ------------------------------------------------------------------- handlers

  lemma AcceptBooks(s: BsoState, s': BsoState, t: Id, entry: AuditEntry)
    requires BooksOk(s) && t in s.outgoing && Open(s.outgoing[t]) && !s.outgoing[t].debitApplied
    requires t in s'.outgoing && s'.outgoing == s.outgoing[t := s'.outgoing[t]] && !Open(s'.outgoing[t])
             && s'.outgoing[t].debitApplied
    requires s'.balance == s.balance && s'.reserved == s.reserved - s.outgoing[t].amount && s'.incoming == s.incoming
    requires s'.audit == s.audit + [entry] && entry.transferID == t && entry.delta < 0
    ensures BooksOk(s')
  {
    HeldAfterWrite(s, s', t);
    forall u: Id ensures AuditOk(s', u) {
      assert AuditOk(s, u);
      AuditAppend(s.audit, entry, u);
    }
  }

  lemma AcceptMoney(work: Workload, s: BsoState, e: Envelope, r: Phase)
    requires AtSender(work, s, e, r) && e.kind == Accept && BooksOk(s)
    ensures var s' := ReceiveAccept(s, e).state; var t, amount := e.transferID, e.amount;
            MoneyKept(s, s', InTransit(OutPhase(s, t), r, amount), InTransit(OutPhase(s', t), r, amount))
  {
    var s', t := ReceiveAccept(s, e).state, e.transferID;
    if Open(s.outgoing[t]) {
      AcceptBooks(s, s', t, AuditEntry(t, Committed, -e.amount));
    }
  }

  lemma CommitMoney(work: Workload, s: BsoState, e: Envelope, p: Phase)
    requires AtReceiver(work, s, e, p) && e.kind == Commit && BooksOk(s)
    ensures var s' := ReceiveCommit(s, e).state; var t, amount := e.transferID, e.amount;
            MoneyKept(s, s', InTransit(p, InPhase(s, t), amount), InTransit(p, InPhase(s', t), amount))
  {
    var s', t := ReceiveCommit(s, e).state, e.transferID;
    if s.incoming[t].state == Accepted {
      assert HeldByTransfer(s') == HeldByTransfer(s);
      forall u: Id ensures AuditOk(s', u) {
        assert AuditOk(s, u);
        AuditAppend(s.audit, AuditEntry(t, Committed, e.amount), u);
      }
    }
  }

  lemma AckMoney(work: Workload, s: BsoState, e: Envelope, r: Phase)
    requires AtSender(work, s, e, r) && e.kind == Ack && BooksOk(s)
    ensures var s' := ReceiveAck(s, e).state; var t, amount := e.transferID, e.amount;
            MoneyKept(s, s', InTransit(OutPhase(s, t), r, amount), InTransit(OutPhase(s', t), r, amount))
  {
    var s', t := ReceiveAck(s, e).state, e.transferID;
    if s.outgoing[t].state == Committed {
      HeldAfterWrite(s, s', t);
      forall u: Id ensures AuditOk(s', u) { assert AuditOk(s, u); }
    }
  }

  // Offers and reconciliations write only an incoming entry that is not credited.
  lemma QuietReceiver(s: BsoState, s': BsoState, t: Id)
    requires BooksOk(s) && s'.outgoing == s.outgoing && s'.audit == s.audit && s'.balance == s.balance
             && s'.reserved == s.reserved
    requires s'.incoming == s.incoming ||
             (t in s'.incoming && s'.incoming == s.incoming[t := s'.incoming[t]] && !s'.incoming[t].creditApplied
              && (t in s.incoming ==> !s.incoming[t].creditApplied))
    ensures BooksOk(s')
  {
    assert HeldByTransfer(s') == HeldByTransfer(s);
    forall u: Id ensures AuditOk(s', u) { assert AuditOk(s, u); }
  }

  lemma OfferMoney(work: Workload, s: BsoState, e: Envelope, p: Phase)
    requires AtReceiver(work, s, e, p) && e.kind == Offer && BooksOk(s)
    ensures var s' := ReceiveOffer(s, e).state; var t, amount := e.transferID, e.amount;
            MoneyKept(s, s', InTransit(p, InPhase(s, t), amount), InTransit(p, InPhase(s', t), amount))
  {
    QuietReceiver(s, ReceiveOffer(s, e).state, e.transferID);
  }

  lemma ReconcileMoney(work: Workload, s: BsoState, e: Envelope, p: Phase)
    requires AtReceiver(work, s, e, p) && e.kind == Reconcile && BooksOk(s)
    ensures var s' := ReceiveReconcile(s, e).state; var t, amount := e.transferID, e.amount;
            MoneyKept(s, s', InTransit(p, InPhase(s, t), amount), InTransit(p, InPhase(s', t), amount))
  {
    QuietReceiver(s, ReceiveReconcile(s, e).state, e.transferID);
  }

  function Seen(s: BsoState, e: Envelope): BsoState
  {
    s.(seenMessages := s.seenMessages + {e.Identity()})
  }

  lemma SeenBooks(s: BsoState, e: Envelope)
    requires BooksOk(s)
    ensures BooksOk(Seen(s, e))
  {
    assert HeldByTransfer(Seen(s, e)) == HeldByTransfer(s);
    forall u: Id ensures AuditOk(Seen(s, e), u) { assert AuditOk(s, u); }
  }

  lemma SenderMoney(work: Workload, s: BsoState, e: Envelope, r: Phase)
    requires AtSender(work, s, e, r) && BooksOk(s)
    ensures var s' := Receive(s, e).state; var t, amount := e.transferID, e.amount;
            MoneyKept(s, s', InTransit(OutPhase(s, t), r, amount), InTransit(OutPhase(s', t), r, amount))
  {
    SeenBooks(s, e);
    match e.kind
    case Accept => AcceptMoney(work, Seen(s, e), e, r);
    case Ack => AckMoney(work, Seen(s, e), e, r);
    case _ =>
  }

  lemma ReceiverMoney(work: Workload, s: BsoState, e: Envelope, p: Phase)
    requires AtReceiver(work, s, e, p) && BooksOk(s)
    ensures var s' := Receive(s, e).state; var t, amount := e.transferID, e.amount;
            MoneyKept(s, s', InTransit(p, InPhase(s, t), amount), InTransit(p, InPhase(s', t), amount))
  {
    SeenBooks(s, e);
    match e.kind
    case Offer => OfferMoney(work, Seen(s, e), e, p);
    case Commit => CommitMoney(work, Seen(s, e), e, p);
    case Reconcile => ReconcileMoney(work, Seen(s, e), e, p);
    case _ =>
  }

  // ---------------------------------------------------------------- whole system

  function TransitOf(work: Workload, w: World, t: Id): int
    requires t in work
  {
    InTransit(SenderPhase(w, work[t]), ReceiverPhase(w, work[t]), work[t].amount)
  }

  ghost predicate MoneyOk(work: Workload, w: World, w': World)
  {
    AllBooksOk(w') && Accounted(work, w') == Accounted(work, w)
  }

  lemma OneChange<K>(m: map<K, int>, m': map<K, int>, k: K)
    requires k in m && m'.Keys == m.Keys && forall other <- m | other != k :: m'[other] == m[other]
    ensures Sum(m') == Sum(m) - m[k] + m'[k]
  {
    SumSet(m, k, m'[k]);
    assert m' == m[k := m'[k]];
  }

  lemma LocalsMoved(w: World, w': World, id: Id)
    requires id in w.nodes && w'.nodes.Keys == w.nodes.Keys && forall other <- w.nodes | other != id ::
               w'.nodes[other] == w.nodes[other]
    ensures Sum(Locals(w')) == Sum(Locals(w)) - Local(w.nodes[id].state) + Local(w'.nodes[id].state)
  {
    OneChange(Locals(w), Locals(w'), id);
  }

  lemma TransitMoved(work: Workload, w: World, w': World, id: Id, t: Id)
    requires Moved(work, w, w', id, t)
    ensures Sum(Transit(work, w')) == Sum(Transit(work, w)) - TransitOf(work, w, t) + TransitOf(work, w', t)
  {
    forall other <- work | other != t ensures Transit(work, w')[other] == Transit(work, w)[other] {
      OtherPhasesKept(work, w, w', id, t, other);
    }
    OneChange(Transit(work, w), Transit(work, w'), t);
  }

  lemma MovedMoney(work: Workload, w: World, w': World, id: Id, t: Id)
    requires Moved(work, w, w', id, t) && AllBooksOk(w)
    requires MoneyKept(w.nodes[id].state, w'.nodes[id].state, TransitOf(work, w, t), TransitOf(work, w', t))
    ensures MoneyOk(work, w, w')
  {
    LocalsMoved(w, w', id);
    TransitMoved(work, w, w', id, t);
    forall other <- w'.nodes ensures BooksOk(w'.nodes[other].state) {
      assert other != id ==> w'.nodes[other] == w.nodes[other];
    }
  }

  lemma PhasesUnmoved(w: World, w': World, a: Attempt)
    requires w'.nodes.Keys == w.nodes.Keys && forall id <- w.nodes :: w'.nodes[id].state == w.nodes[id].state
    ensures SenderPhase(w', a) == SenderPhase(w, a) && ReceiverPhase(w', a) == ReceiverPhase(w, a)
  {}

  lemma UnmovedMoney(work: Workload, w: World, w': World)
    requires AllBooksOk(w) && w'.nodes.Keys == w.nodes.Keys
    requires forall id <- w.nodes :: w'.nodes[id].state == w.nodes[id].state
    ensures MoneyOk(work, w, w')
  {
    assert Locals(w') == Locals(w);
    assert Transit(work, w') == Transit(work, w) by {
      forall t <- work ensures Transit(work, w')[t] == Transit(work, w)[t] { PhasesUnmoved(w, w', work[t]); }
    }
  }

  lemma DeliveredMoney(work: Workload, w: World, e: Envelope, h: Handled, w': World)
    requires Invariant(work, w) && AllBooksOk(w) && EnvelopeOk(work, w, e) && Rewritten(w, w', e.to)
    requires h == Receive(w.nodes[e.to].state, e) && w'.nodes[e.to].state == h.state
    requires var a := work[e.transferID];
             if e.to == a.from then SenderMoved(work, w.nodes[e.to].state, h, e, ReceiverPhase(w, a))
             else ReceiverMoved(work, w.nodes[e.to].state, h, e, SenderPhase(w, a))
    ensures MoneyOk(work, w, w')
  {
    var a, s := work[e.transferID], w.nodes[e.to].state;
    assert NodeOk(work, e.to, s);
    if e.to == a.from {
      SenderMovedInWorld(work, w, w', e, h);
      SenderMoney(work, s, e, ReceiverPhase(w, a));
    } else {
      ReceiverMovedInWorld(work, w, w', e, h);
      ReceiverMoney(work, s, e, SenderPhase(w, a));
    }
    MovedMoney(work, w, w', e.to, e.transferID);
  }

  lemma RedeliveredMoney(work: Workload, w: World, e: Envelope)
    requires AllBooksOk(w) && e in w.net && e.to in w.nodes && MessageCommand(e.Identity()) in w.nodes[e.to].decided
    ensures MoneyOk(work, w, Deliver(w, e))
  {
    UnmovedMoney(work, w, Deliver(w, e));
  }

  lemma FirstDelivery(w: World, e: Envelope, h: Handled) returns (w': World)
    requires e in w.net && e.to in w.nodes && ValidEnvelope(e, e.to)
             && MessageCommand(e.Identity()) !in w.nodes[e.to].decided
    requires h == Receive(w.nodes[e.to].state, e)
    ensures w' == Deliver(w, e) && Rewritten(w, w', e.to) && w'.nodes[e.to].state == h.state
  {
    w' := Deliver(w, e);
  }

  lemma DeliverMoney(work: Workload, w: World, e: Envelope)
    requires Invariant(work, w) && AllBooksOk(w)
    ensures MoneyOk(work, w, Deliver(w, e))
  {
    if e in w.net && e.to in w.nodes && ValidEnvelope(e, e.to) {
      if MessageCommand(e.Identity()) in w.nodes[e.to].decided {
        RedeliveredMoney(work, w, e);
      } else {
        assert EnvelopeOk(work, w, e);
        var h := HandlerStaysInBounds(work, w, e);
        var w' := FirstDelivery(w, e, h);
        DeliveredMoney(work, w, e, h, w');
      }
    }
  }

  lemma CommandMoney(work: Workload, w: World, w': World, t: Id, h: Handled)
    requires AllBooksOk(w) && t in work && Rewritten(w, w', work[t].from)
    requires w'.nodes[work[t].from].state == h.state
    requires var s := w.nodes[work[t].from].state;
             && NodeOk(work, work[t].from, s) && SenderWrote(work, s, h.state, t)
                && SenderMay(OutPhase(s, t), OutPhase(h.state, t))
             && MoneyKept(s, h.state, 0, 0) && !Debited(OutPhase(s, t)) && !Debited(OutPhase(h.state, t))
    ensures MoneyOk(work, w, w')
  {
    CommandMovedInWorld(work, w, w', t, h);
    MovedMoney(work, w, w', work[t].from, t);
  }

  lemma ReserveBooks(s: BsoState, a: Attempt, round: int)
    requires BooksOk(s) && a.id !in s.outgoing
    ensures MoneyKept(s, Reserve(s, a, round).state, 0, 0)
  {
    var s' := Reserve(s, a, round).state;
    HeldAfterWrite(s, s', a.id);
    forall u: Id ensures AuditOk(s', u) { assert AuditOk(s, u); }
  }

  lemma ReserveMoney(work: Workload, w: World, t: Id, round: int)
    requires Invariant(work, w) && AllBooksOk(w) && t in work
    ensures MoneyOk(work, w, ReserveAt(w, work[t], round))
  {
    var a := work[t];
    var w' := ReserveAt(w, a, round);
    if a.from !in w.nodes || ReserveCommand(t) in w.nodes[a.from].decided || t in w.nodes[a.from].state.outgoing {
      UnmovedMoney(work, w, w');
    } else {
      var s := w.nodes[a.from].state;
      assert NodeOk(work, a.from, s) && Agree(SenderPhase(w, a), ReceiverPhase(w, a));
      ReserveInBounds(work, s, t, round, ReceiverPhase(w, a));
      ReserveBooks(s, a, round);
      CommandMoney(work, w, w', t, Reserve(s, a, round));
    }
  }

  lemma ExpireBooks(work: Workload, s: BsoState, t: Id)
    requires BooksOk(s) && t in s.outgoing && Open(s.outgoing[t]) && OutgoingOk(work, s.id, t, s.outgoing[t])
    ensures MoneyKept(s, Expire(s, t).state, 0, 0)
  {
    var s' := Expire(s, t).state;
    HeldAfterWrite(s, s', t);
    forall u: Id ensures AuditOk(s', u) { assert AuditOk(s, u); }
  }

  lemma ExpireMoney(work: Workload, w: World, t: Id)
    requires Invariant(work, w) && AllBooksOk(w) && t in work
    ensures MoneyOk(work, w, ExpireAt(w, work[t]))
  {
    var a := work[t];
    var w' := ExpireAt(w, a);
    if a.from in w.nodes && t in w.nodes[a.from].state.outgoing && Open(w.nodes[a.from].state.outgoing[t]) {
      var s := w.nodes[a.from].state;
      assert NodeOk(work, a.from, s) && OutgoingOk(work, a.from, t, s.outgoing[t]);
      OpenIsNotYetExpired(work, w, t);
      ExpireInBounds(work, s, t, ReceiverPhase(w, a));
      ExpireBooks(work, s, t);
      CommandMoney(work, w, w', t, Expire(s, t));
    }
  }

  lemma NextMoney(work: Workload, w: World, step: Step)
    requires Invariant(work, w) && AllBooksOk(w)
    ensures MoneyOk(work, w, Next(work, w, step))
  {
    match step
    case ReserveStep(t, round) => if t in work { ReserveMoney(work, w, t, round); }
    case DeliverStep(e) => DeliverMoney(work, w, e);
    case ExpireStep(t) => if t in work { ExpireMoney(work, w, t); }
    case RetryOutgoing(id, t) => UnmovedMoney(work, w, RetryAt(w, id, t));
    case RetryIncoming(id, t) => UnmovedMoney(work, w, RetryIncomingAt(w, id, t));
    case ForgetStep(id, c) => UnmovedMoney(work, w, ForgetAt(w, id, c));
  }

  lemma {:induction false} RunMoney(work: Workload, w: World, steps: seq<Step>)
    requires Invariant(work, w) && AllBooksOk(w)
    ensures MoneyOk(work, w, Execute(work, w, steps))
    decreases |steps|
  {
    if steps != [] {
      NextMoney(work, w, steps[0]);
      NextKeepsInvariant(work, w, steps[0]);
      RunMoney(work, Next(work, w, steps[0]), steps[1..]);
    }
  }

  lemma InitialMoney(work: Workload, balances: map<Id, nat>)
    ensures AllBooksOk(Initial(balances)) && Accounted(work, Initial(balances)) == Sum(balances)
  {
    var w := Initial(balances);
    forall id <- w.nodes ensures BooksOk(w.nodes[id].state) {
      assert HeldByTransfer(w.nodes[id].state) == map[];
    }
    assert Locals(w) == balances;
    SumZero(Transit(work, w));
  }

  // ------------------------------------------------------- the run-time accounting check

  // In-transit amounts as the check adds them up: over every sender's outgoing transfers.
  function OutgoingTransit(w: World, id: Id): map<Id, int>
    requires id in w.nodes
  {
    map t | t in w.nodes[id].state.outgoing :: TransitOfEntry(w, w.nodes[id].state.outgoing[t])
  }

  function TransitOfEntry(w: World, t: Transfer): int
  {
    if t.debitApplied
        && !(t.to in w.nodes && t.id in w.nodes[t.to].state.incoming
        && w.nodes[t.to].state.incoming[t.id].creditApplied)
    then t.amount else 0
  }

  // Transfers sent by the given participants.
  function SentBy(work: Workload, w: World, ids: set<Id>): map<Id, int>
  {
    map t | t in work && work[t].from in ids :: TransitOf(work, w, t)
  }

  lemma OneSender(work: Workload, w: World, id: Id)
    requires Invariant(work, w) && id in w.nodes
    ensures Sum(OutgoingTransit(w, id)) == Sum(SentBy(work, w, {id}))
  {
    var s := w.nodes[id].state;
    assert NodeOk(work, id, s);
    forall t <- s.outgoing ensures TransitOfEntry(w, s.outgoing[t]) == TransitOf(work, w, t) {
      assert OutgoingOk(work, id, t, s.outgoing[t]);
      if work[t].to in w.nodes { assert NodeOk(work, work[t].to, w.nodes[work[t].to].state); }
    }
    SumOverSuperset(OutgoingTransit(w, id), SentBy(work, w, {id}));
  }

  ghost function SenderTransit(w: World, ids: set<Id>): map<Id, int>
    requires ids <= w.nodes.Keys
  {
    map id | id in ids :: Sum(OutgoingTransit(w, id))
  }

  lemma OneMoreSender(w: World, ids: set<Id>, id: Id)
    requires ids <= w.nodes.Keys && id in w.nodes && id !in ids
    ensures Sum(SenderTransit(w, ids + {id})) == Sum(SenderTransit(w, ids)) + Sum(OutgoingTransit(w, id))
  {
    var less := SenderTransit(w, ids);
    SumSet(less, id, Sum(OutgoingTransit(w, id)));
    assert SenderTransit(w, ids + {id}) == less[id := Sum(OutgoingTransit(w, id))];
  }

  lemma SentByOneMore(work: Workload, w: World, ids: set<Id>, id: Id)
    requires id !in ids
    ensures Sum(SentBy(work, w, ids + {id})) == Sum(SentBy(work, w, ids)) + Sum(SentBy(work, w, {id}))
  {
    SumMerge(SentBy(work, w, ids), SentBy(work, w, {id}));
    assert SentBy(work, w, ids + {id}) == SentBy(work, w, ids) + SentBy(work, w, {id});
  }

  lemma AddSender(work: Workload, w: World, ids: set<Id>, id: Id)
    requires ids <= w.nodes.Keys && id in w.nodes && id !in ids
    requires Sum(SenderTransit(w, ids)) == Sum(SentBy(work, w, ids))
             && Sum(OutgoingTransit(w, id)) == Sum(SentBy(work, w, {id}))
    ensures Sum(SenderTransit(w, ids + {id})) == Sum(SentBy(work, w, ids + {id}))
  {
    OneMoreSender(w, ids, id);
    SentByOneMore(work, w, ids, id);
  }

  lemma {:induction false} AllSenders(work: Workload, w: World, ids: set<Id>)
    requires Invariant(work, w) && ids <= w.nodes.Keys
    ensures Sum(SenderTransit(w, ids)) == Sum(SentBy(work, w, ids))
  {
    if ids == {} {
      assert SentBy(work, w, ids) == map[] && SenderTransit(w, ids) == map[];
    } else {
      var id :| id in ids;
      AllSenders(work, w, ids - {id});
      OneSender(work, w, id);
      AddSender(work, w, ids - {id}, id);
      assert ids - {id} + {id} == ids;
    }
  }

  // What the check adds up: balances, reserves, and debits no receiver has credited.
  ghost function NetworkTotal(w: World): int
  {
    Sum(Locals(w)) + Sum(SenderTransit(w, w.nodes.Keys))
  }

  lemma NetworkTotalIsAccounted(work: Workload, w: World)
    requires Invariant(work, w)
    ensures NetworkTotal(w) == Accounted(work, w)
  {
    AllSenders(work, w, w.nodes.Keys);
    SumOverSuperset(SentBy(work, w, w.nodes.Keys), Transit(work, w));
  }

  ghost predicate NoNegatives(w: World)
  {
    forall id <- w.nodes :: w.nodes[id].state.balance >= 0 && w.nodes[id].state.reserved >= 0
  }

  predicate Lists(ids: seq<Id>, all: set<Id>)
  {
    (forall i, j | 0 <= i < j < |ids| :: ids[i] != ids[j]) && (set id | id in ids) == all
  }

  ghost function LocalsOf(w: World, ids: seq<Id>): map<Id, int>
    requires forall id <- ids :: id in w.nodes
  {
    map id | id in ids :: Local(w.nodes[id].state)
  }

  // One sender's share of the second loop.
  method SumOutgoing(w: World, id: Id) returns (total: int)
    requires id in w.nodes
    ensures total == Sum(OutgoingTransit(w, id))
  {
    var all := w.nodes[id].state.outgoing;
    var left: set<Id> := all.Keys;
    total := 0;
    assert OutgoingTransit(w, id) - left == map[];
    while left != {}
      invariant left <= all.Keys
      invariant total == Sum(OutgoingTransit(w, id) - left)
    {
      var t :| t in left;
      assert OutgoingTransit(w, id) - (left - {t}) == (OutgoingTransit(w, id) - left)[t := TransitOfEntry(w, all[t])];
      SumSet(OutgoingTransit(w, id) - left, t, TransitOfEntry(w, all[t]));
      total := total + TransitOfEntry(w, all[t]);
      left := left - {t};
    }
    assert OutgoingTransit(w, id) - {} == OutgoingTransit(w, id);
  }

  lemma OneMoreLocal(w: World, ids: seq<Id>, i: nat)
    requires i < |ids| && (forall id <- ids :: id in w.nodes) && forall i, j | 0 <= i < j < |ids| :: ids[i] != ids[j]
    ensures Sum(LocalsOf(w, ids[..i + 1])) == Sum(LocalsOf(w, ids[..i])) + Local(w.nodes[ids[i]].state)
  {
    var s := w.nodes[ids[i]].state;
    assert LocalsOf(w, ids[..i + 1]) == LocalsOf(w, ids[..i])[ids[i] := Local(s)];
    SumSet(LocalsOf(w, ids[..i]), ids[i], Local(s));
  }

  // The first loop: no negative balance or reserve, and their total.
  method SumLocals(w: World, orderedIDs: seq<Id>) returns (ok: bool, total: int)
    requires Lists(orderedIDs, w.nodes.Keys)
    ensures ok <==> NoNegatives(w)
    ensures ok ==> total == Sum(Locals(w))
  {
    assert forall id <- orderedIDs :: id in w.nodes;
    total := 0;
    for i := 0 to |orderedIDs|
      invariant total == Sum(LocalsOf(w, orderedIDs[..i]))
      invariant forall k | 0 <= k < i ::
                  w.nodes[orderedIDs[k]].state.balance >= 0 && w.nodes[orderedIDs[k]].state.reserved >= 0
    {
      var s := w.nodes[orderedIDs[i]].state;
      if s.balance < 0 || s.reserved < 0 {
        return false, total;
      }
      OneMoreLocal(w, orderedIDs, i);
      total := total + s.balance + s.reserved;
    }
    assert orderedIDs[..|orderedIDs|] == orderedIDs;
    assert LocalsOf(w, orderedIDs) == Locals(w);
    ok := true;
  }

  // The check run after every round.
  method CheckAccountingInvariant(w: World, orderedIDs: seq<Id>, want: int) returns (ok: bool)
    requires Lists(orderedIDs, w.nodes.Keys)
    ensures ok <==> NoNegatives(w) && NetworkTotal(w) == want
  {
    var fine, total := SumLocals(w, orderedIDs);
    if !fine {
      return false;
    }
    var senders := SumSenders(w, orderedIDs);
    return total + senders == want;
  }

  method SumSenders(w: World, orderedIDs: seq<Id>) returns (total: int)
    requires Lists(orderedIDs, w.nodes.Keys)
    ensures total == Sum(SenderTransit(w, w.nodes.Keys))
  {
    total := 0;
    ghost var done: set<Id> := {};
    for i := 0 to |orderedIDs|
      invariant done == (set id | id in orderedIDs[..i]) && done <= w.nodes.Keys
      invariant total == Sum(SenderTransit(w, done))
    {
      var id := orderedIDs[i];
      var more := SumOutgoing(w, id);
      OneMoreSender(w, done, id);
      total := total + more;
      done := done + {id};
    }
    assert orderedIDs[..|orderedIDs|] == orderedIDs;
  }

  // ------------------------------------------------------------------- theorems

  lemma ReachableBooks(work: Workload, balances: map<Id, nat>, steps: seq<Step>) returns (w: World)
    ensures w == Execute(work, Initial(balances), steps)
    ensures Invariant(work, w) && AllBooksOk(w) && Accounted(work, w) == Sum(balances)
  {
    w := Execute(work, Initial(balances), steps);
    InitialInvariant(work, balances);
    InitialMoney(work, balances);
    RunKeepsInvariant(work, Initial(balances), steps);
    RunMoney(work, Initial(balances), steps);
  }

  // In every reachable state the money adds up, nothing is negative, and what a participant
  // holds in reserve is exactly its open outgoing transfers: the accounting check never fails.
  lemma MoneyIsConserved(work: Workload, balances: map<Id, nat>, steps: seq<Step>)
    ensures var w := Execute(work, Initial(balances), steps);
            && NetworkTotal(w) == Sum(balances) && NoNegatives(w)
            && forall id <- w.nodes :: w.nodes[id].state.reserved == Sum(HeldByTransfer(w.nodes[id].state))
  {
    var w := ReachableBooks(work, balances, steps);
    NetworkTotalIsAccounted(work, w);
    forall id <- w.nodes ensures w.nodes[id].state.balance >= 0 && w.nodes[id].state.reserved >= 0 {
      var s := w.nodes[id].state;
      assert BooksOk(s) && NodeOk(work, id, s);
      forall t <- s.outgoing ensures HeldByTransfer(s)[t] >= 0 { assert OutgoingOk(work, id, t, s.outgoing[t]); }
      SumNonNegative(HeldByTransfer(s));
    }
  }

  // No transfer is ever debited or credited twice, anywhere.
  lemma EachTransferSettlesOnce(work: Workload, balances: map<Id, nat>, steps: seq<Step>, id: Id, t: Id)
    requires id in balances
    ensures var w := Execute(work, Initial(balances), steps);
            && id in w.nodes
            && Debits(w.nodes[id].state.audit, t) <= (if t in work && work[t].from == id then 1 else 0)
            && Credits(w.nodes[id].state.audit, t) <= (if t in work && work[t].to == id then 1 else 0)
  {
    var w := ReachableBooks(work, balances, steps);
    RunKeepsNodes(work, Initial(balances), steps);
    var s := w.nodes[id].state;
    assert NodeOk(work, id, s) && BooksOk(s) && AuditOk(s, t);
    if t in s.outgoing { assert OutgoingOk(work, id, t, s.outgoing[t]); }
    if t in s.incoming { assert IncomingOk(work, id, t, s.incoming[t]); }
  }

  lemma {:induction false} RunKeepsNodes(work: Workload, w: World, steps: seq<Step>)
    ensures Execute(work, w, steps).nodes.Keys == w.nodes.Keys
    decreases |steps|
  {
    if steps != [] {
      NextKeepsNodes(work, w, steps[0]);
      RunKeepsNodes(work, Next(work, w, steps[0]), steps[1..]);
    }
  }

  lemma NextKeepsNodes(work: Workload, w: World, step: Step)
    ensures Next(work, w, step).nodes.Keys == w.nodes.Keys
  {}
}
