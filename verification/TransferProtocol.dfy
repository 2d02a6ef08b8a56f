/**
 The transfer protocol as a step machine over all participants and the network.

 The network is the set of envelopes ever sent. Dropping an envelope is never delivering it;
 duplicating or delaying one is delivering it again or later; a restart changes nothing because
 every participant's state is durable. Each participant's database replays the recorded
 outcome of a command it has already decided, until that decision leaves the dedupe horizon.
 */
module TransferProtocol {
  import opened TransferMessages

  datatype CommandId =
    | ReserveCommand(transferID: Id)
    | MessageCommand(message: MessageId)
    | ExpireCommand(transferID: Id)

  datatype Node = Node(state: BsoState, decided: map<CommandId, Outcome>)

  datatype World = World(nodes: map<Id, Node>, net: set<Envelope>)

  // Attempts by transfer identity: the workload gives each transfer its own identity.
  type Workload = work: map<Id, Attempt> | forall t <- work :: work[t].id == t

  datatype Step =
    | ReserveStep(transferID: Id, round: int)
    | DeliverStep(envelope: Envelope)
    | ExpireStep(transferID: Id)
    | RetryOutgoing(node: Id, transferID: Id)
    | RetryIncoming(node: Id, transferID: Id)
    | ForgetStep(node: Id, command: CommandId)

  function Mutate(n: Node, command: CommandId, h: Handled): Node
  {
    if command in n.decided then n else Node(h.state, n.decided[command := h.outcome])
  }

  function Decided(n: Node, command: CommandId, h: Handled): Outcome
  {
    if command in n.decided then n.decided[command] else h.outcome
  }

  function Reply(e: Envelope, o: Outcome): set<Envelope>
  {
    if o.Silent? then {} else {Envelope(e.transferID, e.to, e.from, o.kind, e.amount, o.state)}
  }

  function FromSender(t: Transfer, kind: MessageKind, state: TransferState): Envelope
  {
    Envelope(t.id, t.from, t.to, kind, t.amount, state)
  }

  function FromReceiver(t: Transfer, kind: MessageKind, state: TransferState): Envelope
  {
    Envelope(t.id, t.to, t.from, kind, t.amount, state)
  }

  function OfferOf(a: Attempt, o: Outcome): set<Envelope>
  {
    if o.Silent? then {} else {Envelope(a.id, a.from, a.to, Offer, a.amount, o.state)}
  }

  // What a reconciliation pass resends for one outgoing transfer that it does not expire.
  function Resend(t: Transfer): set<Envelope>
  {
    match t.state
    case Reserved => {FromSender(t, Offer, Reserved)}
    case Accepted => {FromSender(t, Offer, Accepted)}
    case Committed => {FromSender(t, Commit, Committed)}
    case Expired => {FromSender(t, Reconcile, Expired)}
    case _ => {}
  }

  function ResendIncoming(t: Transfer): set<Envelope>
  {
    match t.state
    case Accepted => {FromReceiver(t, Accept, Accepted)}
    case Committed => {FromReceiver(t, Ack, Committed)}
    case _ => {}
  }

  function ReserveAt(w: World, a: Attempt, round: int): World
  {
    if a.from !in w.nodes then w
    else
      var n := w.nodes[a.from];
      var h := Reserve(n.state, a, round);
      World(w.nodes[a.from := Mutate(n, ReserveCommand(a.id), h)],
          w.net + OfferOf(a, Decided(n, ReserveCommand(a.id), h)))
  }

  function Deliver(w: World, e: Envelope): World
  {
    if e !in w.net || e.to !in w.nodes || !ValidEnvelope(e, e.to) then w
    else
      var n := w.nodes[e.to];
      var h := Receive(n.state, e);
      World(w.nodes[e.to := Mutate(n, MessageCommand(e.Identity()), h)],
            w.net + Reply(e, Decided(n, MessageCommand(e.Identity()), h)))
  }

  function ExpireAt(w: World, a: Attempt): World
  {
    if a.from !in w.nodes || a.id !in w.nodes[a.from].state.outgoing || !Open(w.nodes[a.from].state.outgoing[a.id])
        then w
    else
      var n := w.nodes[a.from];
      var h := Expire(n.state, a.id);
      var o := Decided(n, ExpireCommand(a.id), h);
      World(w.nodes[a.from := Mutate(n, ExpireCommand(a.id), h)],
            w.net + if o.Silent? then {} else {FromSender(n.state.outgoing[a.id], o.kind, o.state)})
  }

  function RetryAt(w: World, id: Id, t: Id): World
  {
    if id !in w.nodes || t !in w.nodes[id].state.outgoing then w
    else w.(net := w.net + Resend(w.nodes[id].state.outgoing[t]))
  }

  function RetryIncomingAt(w: World, id: Id, t: Id): World
  {
    if id !in w.nodes || t !in w.nodes[id].state.incoming then w
    else w.(net := w.net + ResendIncoming(w.nodes[id].state.incoming[t]))
  }

  // The dedupe horizon passes a decided command.
  function ForgetAt(w: World, id: Id, command: CommandId): World
  {
    if id !in w.nodes then w
    else w.(nodes := w.nodes[id := w.nodes[id].(decided := w.nodes[id].decided - {command})])
  }

  // One step; a step that is not enabled leaves the world as it is.
  function Next(work: Workload, w: World, step: Step): World
  {
    match step
    case ReserveStep(t, round) => if t in work then ReserveAt(w, work[t], round) else w
    case DeliverStep(e) => Deliver(w, e)
    case ExpireStep(t) => if t in work then ExpireAt(w, work[t]) else w
    case RetryOutgoing(id, t) => RetryAt(w, id, t)
    case RetryIncoming(id, t) => RetryIncomingAt(w, id, t)
    case ForgetStep(id, command) => ForgetAt(w, id, command)
  }

  function Initial(balances: map<Id, nat>): World
  {
    World(map id | id in balances :: Node(BsoState(id, balances[id], 0, map[], map[], {}, []), map[]), {})
  }

  function Execute(work: Workload, w: World, steps: seq<Step>): World
    decreases |steps|
  {
    if steps == [] then w else Execute(work, Next(work, w, steps[0]), steps[1..])
  }

  // ---------------------------------------------------------------- agreement

  datatype Phase = Absent | At(state: TransferState)

  function SenderPhase(w: World, a: Attempt): Phase
  {
    if a.from in w.nodes && a.id in w.nodes[a.from].state.outgoing then At(w.nodes[a.from].state.outgoing[a.id].state)
        else Absent
  }

  function ReceiverPhase(w: World, a: Attempt): Phase
  {
    if a.to in w.nodes && a.id in w.nodes[a.to].state.incoming then At(w.nodes[a.to].state.incoming[a.id].state)
        else Absent
  }

  predicate Debited(p: Phase) { p == At(Committed) || p == At(Acknowledged) }

  // How the two ends of one transfer may stand to each other.
  predicate Agree(s: Phase, r: Phase)
  {
    && s != At(Accepted)
    && (r == Absent || r == At(Accepted) || r == At(Committed) || r == At(Expired))
    && (r.At? ==> s.At? && s != At(Rejected))
    && (r == At(Committed) ==> Debited(s))
    && (r == At(Expired) ==> s == At(Expired))
    && (s == At(Committed) ==> r == At(Accepted) || r == At(Committed))
    && (s == At(Acknowledged) ==> r == At(Committed))
  }

  // What a sent envelope proves about the two ends, for good.
  predicate Justified(a: Attempt, e: Envelope, s: Phase, r: Phase)
  {
    && e.amount == a.amount && a.amount > 0 && a.from != a.to
    && s.At? && s != At(Rejected)
    && (e.kind == Offer || e.kind == Commit || e.kind == Reconcile ==> e.from == a.from && e.to == a.to)
    && (e.kind == Accept || e.kind == Ack ==> e.from == a.to && e.to == a.from)
    && (e.kind == Accept ==> r.At?)
    && (e.kind == Reject ==> if e.from == a.to then e.to == a.from && r == At(Expired)
                             else e.from == a.from && e.to == a.to && s == At(Expired))
    && (e.kind == Commit ==> Debited(s))
    && (e.kind == Ack ==> r == At(Committed))
    && (e.kind == Reconcile ==> e.state == Expired && s == At(Expired))
  }

  predicate SenderMay(p: Phase, q: Phase)
  {
    || p == q || p == Absent
    || (p == At(Reserved) && (q == At(Committed) || q == At(Expired)))
    || (p == At(Committed) && q == At(Acknowledged))
  }

  predicate ReceiverMay(p: Phase, q: Phase)
  {
    p == q || p == Absent || (p == At(Accepted) && (q == At(Committed) || q == At(Expired)))
  }

  predicate Matches(a: Attempt, t: Transfer)
  {
    t.id == a.id && t.from == a.from && t.to == a.to && t.amount == a.amount
  }

  // Entries sit only at their own two participants and carry the attempt's terms.
  predicate OutgoingOk(work: Workload, id: Id, t: Id, x: Transfer)
  {
    && t in work && work[t].from == id && Matches(work[t], x)
    && x.debitApplied == Debited(At(x.state))
    && (x.state != Rejected ==> x.amount > 0 && x.from != x.to)
  }

  predicate IncomingOk(work: Workload, id: Id, t: Id, x: Transfer)
  {
    t in work && work[t].to == id && Matches(work[t], x) && x.creditApplied == (x.state == Committed)
  }

  predicate NodeOk(work: Workload, id: Id, s: BsoState)
  {
    && s.id == id
    && (forall t <- s.outgoing :: OutgoingOk(work, id, t, s.outgoing[t]))
    && (forall t <- s.incoming :: IncomingOk(work, id, t, s.incoming[t]))
  }

  predicate NodesOk(work: Workload, w: World)
  {
    forall id <- w.nodes :: NodeOk(work, id, w.nodes[id].state)
  }

  predicate EndsAgree(work: Workload, w: World)
  {
    forall t <- work :: Agree(SenderPhase(w, work[t]), ReceiverPhase(w, work[t]))
  }

  predicate EnvelopeOk(work: Workload, w: World, e: Envelope)
  {
    e.transferID in work
    && Justified(work[e.transferID], e, SenderPhase(w, work[e.transferID]), ReceiverPhase(w, work[e.transferID]))
  }

  predicate NetOk(work: Workload, w: World)
  {
    forall e <- w.net :: EnvelopeOk(work, w, e)
  }

  // A recorded outcome that asks for a reply has already put that reply on the network,
  // and a decided Commit, Ack or expiry has had its effect.
  predicate RepliesSent(work: Workload, w: World, n: Node, c: CommandId)
    requires c in n.decided
  {
    var o := n.decided[c];
    match c
    case ReserveCommand(t) => t in work && OfferOf(work[t], o) <= w.net
    case MessageCommand(m) =>
      && m.transferID in work
      && (o.Send? ==> Envelope(m.transferID, n.state.id, m.from, o.kind, work[m.transferID].amount, o.state) in w.net)
      && (m.kind == Commit ==> ReceiverPhase(w, work[m.transferID]) == At(Committed))
      && (m.kind == Ack ==> SenderPhase(w, work[m.transferID]) == At(Acknowledged))
    case ExpireCommand(t) =>
      t in work && o == Send(Reconcile, Expired) && SenderPhase(w, work[t]) == At(Expired)
  }

  predicate DecisionsOk(work: Workload, w: World)
  {
    forall id <- w.nodes, c <- w.nodes[id].decided :: RepliesSent(work, w, w.nodes[id], c)
  }

  predicate Invariant(work: Workload, w: World)
  {
    NodesOk(work, w) && EndsAgree(work, w) && NetOk(work, w) && DecisionsOk(work, w)
  }

  // Every end of every transfer only moves forward.
  predicate Advanced(work: Workload, w: World, w': World)
  {
    forall t <- work :: SenderMay(SenderPhase(w, work[t]), SenderPhase(w', work[t]))
                     && ReceiverMay(ReceiverPhase(w, work[t]), ReceiverPhase(w', work[t]))
  }

  predicate Preserved(work: Workload, w: World, w': World)
  {
    Invariant(work, w') && Advanced(work, w, w')
  }

  lemma JustifiedForGood(a: Attempt, e: Envelope, s: Phase, r: Phase, s': Phase, r': Phase)
    requires Justified(a, e, s, r) && SenderMay(s, s') && ReceiverMay(r, r')
    ensures Justified(a, e, s', r')
  {}

  // Only the entries of one transfer differ.
  predicate OnlyAt(s: BsoState, s': BsoState, t: Id)
  {
    && s'.id == s.id
    && s'.outgoing - {t} == s.outgoing - {t}
    && s'.incoming - {t} == s.incoming - {t}
  }

  // A world in which one participant moved on for one transfer, and replies were sent.
  predicate Moved(work: Workload, w: World, w': World, id: Id, t: Id)
  {
    && id in w.nodes && t in work
    && w'.nodes.Keys == w.nodes.Keys
    && (forall other <- w.nodes | other != id :: w'.nodes[other] == w.nodes[other])
    && OnlyAt(w.nodes[id].state, w'.nodes[id].state, t)
    && w.net <= w'.net
    && SenderMay(SenderPhase(w, work[t]), SenderPhase(w', work[t]))
    && ReceiverMay(ReceiverPhase(w, work[t]), ReceiverPhase(w', work[t]))
  }

  lemma OtherPhasesKept(work: Workload, w: World, w': World, id: Id, t: Id, other: Id)
    requires Moved(work, w, w', id, t) && other in work && other != t
    ensures SenderPhase(w', work[other]) == SenderPhase(w, work[other])
    ensures ReceiverPhase(w', work[other]) == ReceiverPhase(w, work[other])
  {
    var s, s' := w.nodes[id].state, w'.nodes[id].state;
    assert other in s.outgoing <==> other in s.outgoing - {t};
    assert other in s'.outgoing <==> other in s'.outgoing - {t};
    assert other in s.incoming <==> other in s.incoming - {t};
    assert other in s'.incoming <==> other in s'.incoming - {t};
    assert other in s.outgoing ==> (s.outgoing - {t})[other] == (s'.outgoing - {t})[other];
    assert other in s.incoming ==> (s.incoming - {t})[other] == (s'.incoming - {t})[other];
  }

  lemma MovedEnvelope(work: Workload, w: World, w': World, id: Id, t: Id, e: Envelope)
    requires Moved(work, w, w', id, t) && EnvelopeOk(work, w, e)
    ensures EnvelopeOk(work, w', e)
  {
    var a := work[e.transferID];
    if e.transferID != t { OtherPhasesKept(work, w, w', id, t, e.transferID); }
    JustifiedForGood(a, e, SenderPhase(w, a), ReceiverPhase(w, a), SenderPhase(w', a), ReceiverPhase(w', a));
  }

  lemma MovedDecision(work: Workload, w: World, w': World, id: Id, t: Id, node: Id, c: CommandId)
    requires Moved(work, w, w', id, t) && node in w.nodes && c in w.nodes[node].decided
             && RepliesSent(work, w, w.nodes[node], c)
    requires c in w'.nodes[node].decided && w'.nodes[node].decided[c] == w.nodes[node].decided[c]
    ensures RepliesSent(work, w', w'.nodes[node], c)
  {
    var of := if c.MessageCommand? then c.message.transferID else c.transferID;
    if of != t { OtherPhasesKept(work, w, w', id, t, of); }
  }

  lemma MovedKeepsInvariant(work: Workload, w: World, w': World, id: Id, t: Id)
    requires Invariant(work, w) && Moved(work, w, w', id, t)
    requires NodeOk(work, id, w'.nodes[id].state)
    requires Agree(SenderPhase(w', work[t]), ReceiverPhase(w', work[t]))
    requires forall e <- w'.net - w.net :: EnvelopeOk(work, w', e)
    requires forall c <- w'.nodes[id].decided | c !in w.nodes[id].decided
             || w'.nodes[id].decided[c] != w.nodes[id].decided[c] ::
               RepliesSent(work, w', w'.nodes[id], c)
    ensures Preserved(work, w, w')
  {
    forall other <- work | other != t { OtherPhasesKept(work, w, w', id, t, other); }
    forall e <- w'.net ensures EnvelopeOk(work, w', e) {
      if e in w.net { MovedEnvelope(work, w, w', id, t, e); }
    }
    forall node <- w'.nodes, c <- w'.nodes[node].decided ensures RepliesSent(work, w', w'.nodes[node], c) {
      if c in w.nodes[node].decided && w'.nodes[node].decided[c] == w.nodes[node].decided[c] {
        MovedDecision(work, w, w', id, t, node, c);
      }
    }
  }

  // ------------------------------------------------- one message at its destination

  function OutPhase(s: BsoState, t: Id): Phase
  {
    if t in s.outgoing then At(s.outgoing[t].state) else Absent
  }

  function InPhase(s: BsoState, t: Id): Phase
  {
    if t in s.incoming then At(s.incoming[t].state) else Absent
  }

  // At most the entry of transfer `t` was written, and it was written consistently.
  predicate SenderWrote(work: Workload, s: BsoState, s': BsoState, t: Id)
  {
    && s'.id == s.id && s'.incoming == s.incoming
    && (s'.outgoing == s.outgoing
        || (t in s'.outgoing && s'.outgoing == s.outgoing[t := s'.outgoing[t]]
           && OutgoingOk(work, s.id, t, s'.outgoing[t])))
  }

  predicate ReceiverWrote(work: Workload, s: BsoState, s': BsoState, t: Id)
  {
    && s'.id == s.id && s'.outgoing == s.outgoing
    && (s'.incoming == s.incoming
        || (t in s'.incoming && s'.incoming == s.incoming[t := s'.incoming[t]]
           && IncomingOk(work, s.id, t, s'.incoming[t])))
  }

  lemma WritesStayLocal(work: Workload, s: BsoState, s': BsoState, t: Id)
    requires NodeOk(work, s.id, s) && (SenderWrote(work, s, s', t) || ReceiverWrote(work, s, s', t))
    ensures NodeOk(work, s.id, s') && OnlyAt(s, s', t)
  {}

  predicate ReplyJustified(a: Attempt, e: Envelope, o: Outcome, s: Phase, r: Phase)
  {
    o.Silent? || Justified(a, Envelope(e.transferID, e.to, e.from, o.kind, e.amount, o.state), s, r)
  }

  // A handler's effect on the sender's side of one transfer, whose receiver stands at `r`.
  predicate SenderMoved(work: Workload, s: BsoState, h: Handled, e: Envelope, r: Phase)
    requires e.transferID in work
  {
    var p, p' := OutPhase(s, e.transferID), OutPhase(h.state, e.transferID);
    && SenderWrote(work, s, h.state, e.transferID)
    && SenderMay(p, p') && Agree(p', r) && ReplyJustified(work[e.transferID], e, h.outcome, p', r)
    && (e.kind == Ack ==> p' == At(Acknowledged)) && e.kind != Commit
  }

  predicate ReceiverMoved(work: Workload, s: BsoState, h: Handled, e: Envelope, p: Phase)
    requires e.transferID in work
  {
    var r, r' := InPhase(s, e.transferID), InPhase(h.state, e.transferID);
    && ReceiverWrote(work, s, h.state, e.transferID)
    && ReceiverMay(r, r') && Agree(p, r') && ReplyJustified(work[e.transferID], e, h.outcome, p, r')
    && (e.kind == Commit ==> r' == At(Committed)) && e.kind != Ack
  }

  predicate AtSender(work: Workload, s: BsoState, e: Envelope, r: Phase)
  {
    && e.transferID in work && e.to == s.id == work[e.transferID].from
    && (e.transferID in s.outgoing ==> OutgoingOk(work, s.id, e.transferID, s.outgoing[e.transferID]))
    && Agree(OutPhase(s, e.transferID), r) && Justified(work[e.transferID], e, OutPhase(s, e.transferID), r)
  }

  predicate AtReceiver(work: Workload, s: BsoState, e: Envelope, p: Phase)
  {
    && e.transferID in work && e.to == s.id == work[e.transferID].to
    && (e.transferID in s.incoming ==> IncomingOk(work, s.id, e.transferID, s.incoming[e.transferID]))
    && (e.transferID !in s.outgoing)
    && Agree(p, InPhase(s, e.transferID)) && Justified(work[e.transferID], e, p, InPhase(s, e.transferID))
  }

  lemma AcceptAtSender(work: Workload, s: BsoState, e: Envelope, r: Phase)
    requires AtSender(work, s, e, r) && e.kind == Accept
    ensures SenderMoved(work, s, ReceiveAccept(s, e), e, r)
  {}

  lemma OfferAtReceiver(work: Workload, s: BsoState, e: Envelope, p: Phase)
    requires AtReceiver(work, s, e, p) && e.kind == Offer
    ensures ReceiverMoved(work, s, ReceiveOffer(s, e), e, p)
  {}

  lemma CommitAtReceiver(work: Workload, s: BsoState, e: Envelope, p: Phase)
    requires AtReceiver(work, s, e, p) && e.kind == Commit
    ensures ReceiverMoved(work, s, ReceiveCommit(s, e), e, p)
  {}

  lemma ReconcileAtReceiver(work: Workload, s: BsoState, e: Envelope, p: Phase)
    requires AtReceiver(work, s, e, p) && e.kind == Reconcile
    ensures ReceiverMoved(work, s, ReceiveReconcile(s, e), e, p)
  {}

  lemma SenderReceives(work: Workload, s: BsoState, e: Envelope, r: Phase)
    requires AtSender(work, s, e, r)
    ensures SenderMoved(work, s, Receive(s, e), e, r)
  {
    var seen := s.(seenMessages := s.seenMessages + {e.Identity()});
    if e.kind == Accept { AcceptAtSender(work, seen, e, r); }
  }

  lemma ReceiverReceives(work: Workload, s: BsoState, e: Envelope, p: Phase)
    requires AtReceiver(work, s, e, p)
    ensures ReceiverMoved(work, s, Receive(s, e), e, p)
  {
    var seen := s.(seenMessages := s.seenMessages + {e.Identity()});
    match e.kind
    case Offer => OfferAtReceiver(work, seen, e, p);
    case Commit => CommitAtReceiver(work, seen, e, p);
    case Reconcile => ReconcileAtReceiver(work, seen, e, p);
    case _ =>
  }

  predicate Rewritten(w: World, w': World, id: Id)
  {
    && id in w.nodes && w.net <= w'.net
    && id in w'.nodes && w'.nodes == w.nodes[id := w'.nodes[id]]
  }

  lemma SenderMovedInWorld(work: Workload, w: World, w': World, e: Envelope, h: Handled)
    requires e.transferID in work && e.to == work[e.transferID].from && e.to != work[e.transferID].to
             && Rewritten(w, w', e.to)
    requires w'.nodes[e.to].state == h.state && NodeOk(work, e.to, w.nodes[e.to].state)
    requires SenderMoved(work, w.nodes[e.to].state, h, e, ReceiverPhase(w, work[e.transferID]))
    ensures Moved(work, w, w', e.to, e.transferID) && NodeOk(work, e.to, h.state)
    ensures SenderPhase(w', work[e.transferID]) == OutPhase(h.state, e.transferID)
    ensures ReceiverPhase(w', work[e.transferID]) == ReceiverPhase(w, work[e.transferID])
  {
    WritesStayLocal(work, w.nodes[e.to].state, h.state, e.transferID);
  }

  lemma ReceiverMovedInWorld(work: Workload, w: World, w': World, e: Envelope, h: Handled)
    requires e.transferID in work && e.to == work[e.transferID].to && e.to != work[e.transferID].from
             && Rewritten(w, w', e.to)
    requires w'.nodes[e.to].state == h.state && NodeOk(work, e.to, w.nodes[e.to].state)
    requires ReceiverMoved(work, w.nodes[e.to].state, h, e, SenderPhase(w, work[e.transferID]))
    ensures Moved(work, w, w', e.to, e.transferID) && NodeOk(work, e.to, h.state)
    ensures ReceiverPhase(w', work[e.transferID]) == InPhase(h.state, e.transferID)
    ensures SenderPhase(w', work[e.transferID]) == SenderPhase(w, work[e.transferID])
  {
    WritesStayLocal(work, w.nodes[e.to].state, h.state, e.transferID);
  }

  predicate Handles(w: World, e: Envelope, h: Handled, w': World)
  {
    && e.to in w.nodes && w'.net == w.net + Reply(e, h.outcome)
    && w'.nodes == w.nodes[e.to := Node(h.state, w.nodes[e.to].decided[MessageCommand(e.Identity()) := h.outcome])]
  }

  // What handling an envelope leaves at its destination and on the network.
  predicate HandledOk(work: Workload, w: World, e: Envelope, h: Handled, w': World)
    requires e.transferID in work && Handles(w, e, h, w')
  {
    && Moved(work, w, w', e.to, e.transferID) && NodeOk(work, e.to, h.state)
    && Agree(SenderPhase(w', work[e.transferID]), ReceiverPhase(w', work[e.transferID]))
    && (forall x <- Reply(e, h.outcome) :: EnvelopeOk(work, w', x))
    && RepliesSent(work, w', w'.nodes[e.to], MessageCommand(e.Identity()))
  }

  lemma SenderHandled(work: Workload, w: World, e: Envelope, h: Handled, w': World)
    requires EnvelopeOk(work, w, e) && Handles(w, e, h, w') && NodeOk(work, e.to, w.nodes[e.to].state)
    requires e.to == work[e.transferID].from
             && SenderMoved(work, w.nodes[e.to].state, h, e, ReceiverPhase(w, work[e.transferID]))
    ensures HandledOk(work, w, e, h, w')
  {
    SenderMovedInWorld(work, w, w', e, h);
  }

  lemma ReceiverHandled(work: Workload, w: World, e: Envelope, h: Handled, w': World)
    requires EnvelopeOk(work, w, e) && Handles(w, e, h, w') && NodeOk(work, e.to, w.nodes[e.to].state)
    requires e.to != work[e.transferID].from
             && ReceiverMoved(work, w.nodes[e.to].state, h, e, SenderPhase(w, work[e.transferID]))
    ensures HandledOk(work, w, e, h, w')
  {
    ReceiverMovedInWorld(work, w, w', e, h);
  }

  // Whatever a handler does within those bounds keeps the invariant of the whole system.
  lemma HandledKeepsInvariant(work: Workload, w: World, e: Envelope, h: Handled, w': World)
    requires Invariant(work, w) && EnvelopeOk(work, w, e) && Handles(w, e, h, w')
    requires var a := work[e.transferID];
             if e.to == a.from then SenderMoved(work, w.nodes[e.to].state, h, e, ReceiverPhase(w, a))
             else ReceiverMoved(work, w.nodes[e.to].state, h, e, SenderPhase(w, a))
    ensures Preserved(work, w, w')
  {
    assert NodeOk(work, e.to, w.nodes[e.to].state);
    if e.to == work[e.transferID].from {
      SenderHandled(work, w, e, h, w');
    } else {
      ReceiverHandled(work, w, e, h, w');
    }
    MovedKeepsInvariant(work, w, w', e.to, e.transferID);
  }

  lemma HandlerStaysInBounds(work: Workload, w: World, e: Envelope) returns (h: Handled)
    requires NodesOk(work, w) && EndsAgree(work, w) && EnvelopeOk(work, w, e) && e.to in w.nodes
    ensures h == Receive(w.nodes[e.to].state, e)
    ensures var a := work[e.transferID];
            if e.to == a.from then SenderMoved(work, w.nodes[e.to].state, h, e, ReceiverPhase(w, a))
            else ReceiverMoved(work, w.nodes[e.to].state, h, e, SenderPhase(w, a))
  {
    var a, n := work[e.transferID], w.nodes[e.to];
    assert NodeOk(work, e.to, n.state);
    h := Receive(n.state, e);
    if e.to == a.from {
      SenderReceives(work, n.state, e, ReceiverPhase(w, a));
    } else {
      ReceiverReceives(work, n.state, e, SenderPhase(w, a));
    }
  }

  // Delivering an envelope a second time changes nothing while its decision is retained.
  lemma RedeliveryIsSilent(work: Workload, w: World, e: Envelope)
    requires e in w.net && e.to in w.nodes && MessageCommand(e.Identity()) in w.nodes[e.to].decided
    requires EnvelopeOk(work, w, e) && w.nodes[e.to].state.id == e.to
    requires RepliesSent(work, w, w.nodes[e.to], MessageCommand(e.Identity()))
    ensures Deliver(w, e) == w
  {
    var n, m := w.nodes[e.to], MessageCommand(e.Identity());
    assert w.nodes[e.to := n] == w.nodes;
    assert w.net + Reply(e, n.decided[m]) == w.net;
  }

  lemma DeliverKeepsInvariant(work: Workload, w: World, e: Envelope)
    requires Invariant(work, w)
    ensures Preserved(work, w, Deliver(w, e))
  {
    if e in w.net && e.to in w.nodes && ValidEnvelope(e, e.to) {
      assert EnvelopeOk(work, w, e);
      if MessageCommand(e.Identity()) in w.nodes[e.to].decided {
        assert NodeOk(work, e.to, w.nodes[e.to].state);
        RedeliveryIsSilent(work, w, e);
      } else {
        var h := HandlerStaysInBounds(work, w, e);
        HandledKeepsInvariant(work, w, e, h, Deliver(w, e));
      }
    }
  }

  // -------------------------------------------------------------- the other steps

  lemma CommandMovedInWorld(work: Workload, w: World, w': World, t: Id, h: Handled)
    requires t in work && Rewritten(w, w', work[t].from) && w'.nodes[work[t].from].state == h.state
    requires var s := w.nodes[work[t].from].state;
             && NodeOk(work, work[t].from, s) && SenderWrote(work, s, h.state, t)
                && SenderMay(OutPhase(s, t), OutPhase(h.state, t))
    ensures Moved(work, w, w', work[t].from, t) && NodeOk(work, work[t].from, h.state)
    ensures SenderPhase(w', work[t]) == OutPhase(h.state, t)
    ensures ReceiverPhase(w', work[t]) == ReceiverPhase(w, work[t])
  {
    WritesStayLocal(work, w.nodes[work[t].from].state, h.state, t);
  }

  // A sender-side step on one transfer, run as one durable command.
  lemma CommandKeepsInvariant(work: Workload, w: World, w': World, t: Id, c: CommandId, h: Handled)
    requires Invariant(work, w) && t in work && work[t].from in w.nodes
    requires var id := work[t].from; var n := w.nodes[id];
             && w'.nodes == w.nodes[id := Node(h.state, n.decided[c := h.outcome])] && w.net <= w'.net
             && SenderWrote(work, n.state, h.state, t)
             && SenderMay(OutPhase(n.state, t), OutPhase(h.state, t))
             && Agree(OutPhase(h.state, t), ReceiverPhase(w, work[t]))
             && RepliesSent(work, w', w'.nodes[id], c)
    requires forall e <- w'.net - w.net :: EnvelopeOk(work, w', e)
    ensures Preserved(work, w, w')
  {
    var id := work[t].from;
    assert NodeOk(work, id, w.nodes[id].state);
    CommandMovedInWorld(work, w, w', t, h);
    MovedKeepsInvariant(work, w, w', id, t);
  }

  lemma ReserveInBounds(work: Workload, s: BsoState, t: Id, round: int, r: Phase)
    requires t in work && work[t].from == s.id && Agree(OutPhase(s, t), r)
    requires t in s.outgoing ==> OutgoingOk(work, s.id, t, s.outgoing[t])
    ensures var h := Reserve(s, work[t], round);
            && SenderWrote(work, s, h.state, t)
            && SenderMay(OutPhase(s, t), OutPhase(h.state, t)) && Agree(OutPhase(h.state, t), r)
            && (h.outcome == Silent || h.outcome == Send(Offer, Reserved))
            && (h.outcome.Send? ==>
                  Justified(work[t], Envelope(t, s.id, work[t].to, Offer, work[t].amount, Reserved),
                      OutPhase(h.state, t), r))
  {}

  lemma ReserveAgainIsSilent(work: Workload, w: World, t: Id, round: int)
    requires t in work && work[t].from in w.nodes && ReserveCommand(t) in w.nodes[work[t].from].decided
    requires RepliesSent(work, w, w.nodes[work[t].from], ReserveCommand(t))
    ensures ReserveAt(w, work[t], round) == w
  {
    var a, n := work[t], w.nodes[work[t].from];
    assert w.nodes[a.from := n] == w.nodes && w.net + OfferOf(a, n.decided[ReserveCommand(t)]) == w.net;
  }

  lemma FirstReserve(work: Workload, w: World, t: Id, round: int, h: Handled, w': World)
    requires t in work && work[t].from in w.nodes && NodeOk(work, work[t].from, w.nodes[work[t].from].state)
    requires Agree(SenderPhase(w, work[t]), ReceiverPhase(w, work[t]))
             && ReserveCommand(t) !in w.nodes[work[t].from].decided
    requires h == Reserve(w.nodes[work[t].from].state, work[t], round) && w' == ReserveAt(w, work[t], round)
    ensures var id := work[t].from; var n := w.nodes[id];
            && w'.nodes == w.nodes[id := Node(h.state, n.decided[ReserveCommand(t) := h.outcome])] && w.net <= w'.net
            && SenderWrote(work, n.state, h.state, t)
            && SenderMay(OutPhase(n.state, t), OutPhase(h.state, t))
            && Agree(OutPhase(h.state, t), ReceiverPhase(w, work[t]))
            && RepliesSent(work, w', w'.nodes[id], ReserveCommand(t))
    ensures forall e <- w'.net - w.net :: EnvelopeOk(work, w', e)
  {
    var a := work[t];
    ReserveInBounds(work, w.nodes[a.from].state, t, round, ReceiverPhase(w, a));
    assert SenderPhase(w', a) == OutPhase(h.state, t) && ReceiverPhase(w', a) == ReceiverPhase(w, a);
  }

  lemma ReserveKeepsInvariant(work: Workload, w: World, t: Id, round: int)
    requires Invariant(work, w) && t in work
    ensures Preserved(work, w, ReserveAt(w, work[t], round))
  {
    var a := work[t];
    if a.from in w.nodes {
      var n, c, w' := w.nodes[a.from], ReserveCommand(t), ReserveAt(w, a, round);
      if c in n.decided {
        assert RepliesSent(work, w, n, c);
        ReserveAgainIsSilent(work, w, t, round);
      } else {
        assert NodeOk(work, a.from, n.state);
        var h := Reserve(n.state, a, round);
        FirstReserve(work, w, t, round, h, w');
        CommandKeepsInvariant(work, w, w', t, c, h);
      }
    }
  }

  lemma ExpireInBounds(work: Workload, s: BsoState, t: Id, r: Phase)
    requires t in s.outgoing && OutgoingOk(work, s.id, t, s.outgoing[t]) && Open(s.outgoing[t])
             && Agree(OutPhase(s, t), r)
    ensures var h := Expire(s, t);
            && SenderWrote(work, s, h.state, t) && h.outcome == Send(Reconcile, Expired)
            && SenderMay(OutPhase(s, t), OutPhase(h.state, t)) && OutPhase(h.state, t) == At(Expired)
               && Agree(At(Expired), r)
            && Justified(work[t], FromSender(s.outgoing[t], Reconcile, Expired), At(Expired), r)
  {}

  lemma OpenIsNotYetExpired(work: Workload, w: World, t: Id)
    requires DecisionsOk(work, w) && t in work && work[t].from in w.nodes
    requires t in w.nodes[work[t].from].state.outgoing && Open(w.nodes[work[t].from].state.outgoing[t])
    ensures ExpireCommand(t) !in w.nodes[work[t].from].decided
  {}

  lemma ExpiryKeepsInvariant(work: Workload, w: World, w': World, t: Id, h: Handled)
    requires Invariant(work, w) && t in work && work[t].from in w.nodes
    requires t in w.nodes[work[t].from].state.outgoing && Open(w.nodes[work[t].from].state.outgoing[t])
    requires var n := w.nodes[work[t].from];
             && h == Expire(n.state, t)
             && w' == World(w.nodes[work[t].from := Node(h.state, n.decided[ExpireCommand(t) := h.outcome])],
                            w.net + {FromSender(n.state.outgoing[t], Reconcile, Expired)})
    ensures Preserved(work, w, w')
  {
    var a, n := work[t], w.nodes[work[t].from];
    assert NodeOk(work, a.from, n.state);
    ExpireInBounds(work, n.state, t, ReceiverPhase(w, a));
    assert SenderPhase(w', a) == OutPhase(h.state, t) && ReceiverPhase(w', a) == ReceiverPhase(w, a);
    CommandKeepsInvariant(work, w, w', t, ExpireCommand(t), h);
  }

  lemma ExpireKeepsInvariant(work: Workload, w: World, t: Id)
    requires Invariant(work, w) && t in work
    ensures Preserved(work, w, ExpireAt(w, work[t]))
  {
    var a := work[t];
    if a.from in w.nodes && t in w.nodes[a.from].state.outgoing && Open(w.nodes[a.from].state.outgoing[t]) {
      OpenIsNotYetExpired(work, w, t);
      ExpiryKeepsInvariant(work, w, ExpireAt(w, a), t, Expire(w.nodes[a.from].state, t));
    }
  }

  lemma SameNodesSamePhases(w: World, w': World, a: Attempt)
    requires w'.nodes == w.nodes
    ensures SenderPhase(w', a) == SenderPhase(w, a) && ReceiverPhase(w', a) == ReceiverPhase(w, a)
  {}

  lemma ResendingDecision(work: Workload, w: World, w': World, n: Node, c: CommandId)
    requires w'.nodes == w.nodes && w.net <= w'.net && c in n.decided && RepliesSent(work, w, n, c)
    ensures RepliesSent(work, w', n, c)
  {}

  // Resending says again only what the participant's own durable state justifies.
  lemma ResendingKeepsInvariant(work: Workload, w: World, w': World, more: set<Envelope>)
    requires Invariant(work, w) && w' == w.(net := w.net + more) && forall e <- more :: EnvelopeOk(work, w, e)
    ensures Preserved(work, w, w')
  {
    forall e <- w'.net ensures EnvelopeOk(work, w', e) {
      assert EnvelopeOk(work, w, e);
      SameNodesSamePhases(w, w', work[e.transferID]);
    }
    forall t <- work { SameNodesSamePhases(w, w', work[t]); }
    forall id <- w'.nodes, c <- w'.nodes[id].decided ensures RepliesSent(work, w', w'.nodes[id], c) {
      ResendingDecision(work, w, w', w.nodes[id], c);
    }
  }

  lemma ResendJustified(work: Workload, id: Id, t: Id, x: Transfer, r: Phase)
    requires OutgoingOk(work, id, t, x) && Agree(At(x.state), r)
    ensures forall e <- Resend(x) :: e.transferID == t && Justified(work[t], e, At(x.state), r)
  {}

  lemma ResendIncomingJustified(work: Workload, id: Id, t: Id, x: Transfer, p: Phase)
    requires IncomingOk(work, id, t, x) && Agree(p, At(x.state)) && work[t].amount > 0 && work[t].from != work[t].to
    ensures forall e <- ResendIncoming(x) :: e.transferID == t && Justified(work[t], e, p, At(x.state))
  {}

  lemma RetryKeepsInvariant(work: Workload, w: World, id: Id, t: Id)
    requires Invariant(work, w)
    ensures Preserved(work, w, RetryAt(w, id, t))
  {
    if id in w.nodes && t in w.nodes[id].state.outgoing {
      var x := w.nodes[id].state.outgoing[t];
      assert NodeOk(work, id, w.nodes[id].state) && OutgoingOk(work, id, t, x);
      ResendJustified(work, id, t, x, ReceiverPhase(w, work[t]));
      ResendingKeepsInvariant(work, w, RetryAt(w, id, t), Resend(x));
    }
  }

  lemma RetryIncomingKeepsInvariant(work: Workload, w: World, id: Id, t: Id)
    requires Invariant(work, w)
    ensures Preserved(work, w, RetryIncomingAt(w, id, t))
  {
    if id in w.nodes && t in w.nodes[id].state.incoming {
      var x, from := w.nodes[id].state.incoming[t], work[t].from;
      assert NodeOk(work, id, w.nodes[id].state) && IncomingOk(work, id, t, x);
      assert Agree(SenderPhase(w, work[t]), ReceiverPhase(w, work[t]));
      assert NodeOk(work, from, w.nodes[from].state) && OutgoingOk(work, from, t, w.nodes[from].state.outgoing[t]);
      ResendIncomingJustified(work, id, t, x, SenderPhase(w, work[t]));
      ResendingKeepsInvariant(work, w, RetryIncomingAt(w, id, t), ResendIncoming(x));
    }
  }

  lemma ForgetKeepsPhases(work: Workload, w: World, id: Id, c: CommandId, t: Id)
    requires t in work
    ensures SenderPhase(ForgetAt(w, id, c), work[t]) == SenderPhase(w, work[t])
    ensures ReceiverPhase(ForgetAt(w, id, c), work[t]) == ReceiverPhase(w, work[t])
  {}

  lemma ForgetKeepsDecision(work: Workload, w: World, id: Id, c: CommandId, node: Id, d: CommandId)
    requires id in w.nodes && node in w.nodes && d in w.nodes[node].decided && RepliesSent(work, w, w.nodes[node], d)
    ensures var w' := ForgetAt(w, id, c);
            d in w'.nodes[node].decided ==> RepliesSent(work, w', w'.nodes[node], d)
  {
    ForgetKeepsPhases(work, w, id, c, if d.MessageCommand? then d.message.transferID else d.transferID);
  }

  lemma ForgetKeepsInvariant(work: Workload, w: World, id: Id, c: CommandId)
    requires Invariant(work, w)
    ensures Preserved(work, w, ForgetAt(w, id, c))
  {
    if id in w.nodes {
      var w' := ForgetAt(w, id, c);
      forall t <- work { ForgetKeepsPhases(work, w, id, c, t); }
      forall node <- w'.nodes, d <- w'.nodes[node].decided ensures RepliesSent(work, w', w'.nodes[node], d) {
        ForgetKeepsDecision(work, w, id, c, node, d);
      }
    }
  }

  lemma NextKeepsInvariant(work: Workload, w: World, step: Step)
    requires Invariant(work, w)
    ensures Preserved(work, w, Next(work, w, step))
  {
    match step
    case ReserveStep(t, round) => if t in work { ReserveKeepsInvariant(work, w, t, round); }
    case DeliverStep(e) => DeliverKeepsInvariant(work, w, e);
    case ExpireStep(t) => if t in work { ExpireKeepsInvariant(work, w, t); }
    case RetryOutgoing(id, t) => RetryKeepsInvariant(work, w, id, t);
    case RetryIncoming(id, t) => RetryIncomingKeepsInvariant(work, w, id, t);
    case ForgetStep(id, c) => ForgetKeepsInvariant(work, w, id, c);
  }

  lemma InitialInvariant(work: Workload, balances: map<Id, nat>)
    ensures Invariant(work, Initial(balances))
  {}

  lemma {:induction false} RunKeepsInvariant(work: Workload, w: World, steps: seq<Step>)
    requires Invariant(work, w)
    ensures Invariant(work, Execute(work, w, steps))
    decreases |steps|
  {
    if steps != [] {
      NextKeepsInvariant(work, w, steps[0]);
      RunKeepsInvariant(work, Next(work, w, steps[0]), steps[1..]);
    }
  }

  // ------------------------------------------------------------------- theorems

  // In every reachable state, under any loss, duplication, reordering, restart and expiry of
  // recorded decisions, the two ends of every transfer agree.
  lemma EndsAgreeInEveryRun(work: Workload, balances: map<Id, nat>, steps: seq<Step>, t: Id)
    requires t in work
    ensures var w := Execute(work, Initial(balances), steps);
            var s, r := SenderPhase(w, work[t]), ReceiverPhase(w, work[t]);
            && (r == At(Committed) ==> s == At(Committed) || s == At(Acknowledged))
            && (s == At(Acknowledged) ==> r == At(Committed))
            && (s == At(Committed) ==> r == At(Accepted) || r == At(Committed))
            && (s == At(Expired) || s == At(Rejected) || s == At(Reserved) || s == Absent ==> r != At(Committed))
  {
    InitialInvariant(work, balances);
    RunKeepsInvariant(work, Initial(balances), steps);
    var w := Execute(work, Initial(balances), steps);
    assert Agree(SenderPhase(w, work[t]), ReceiverPhase(w, work[t]));
  }

  lemma {:induction false} ClosedTransferStaysClosed(work: Workload, w: World, steps: seq<Step>, t: Id)
    requires Invariant(work, w) && t in work
    requires SenderPhase(w, work[t]) == At(Expired) || SenderPhase(w, work[t]) == At(Rejected)
    ensures var w' := Execute(work, w, steps);
            SenderPhase(w', work[t]) == SenderPhase(w, work[t]) && ReceiverPhase(w', work[t]) != At(Committed)
    decreases |steps|
  {
    if steps == [] {
      assert Agree(SenderPhase(w, work[t]), ReceiverPhase(w, work[t]));
    } else {
      var w1 := Next(work, w, steps[0]);
      NextKeepsInvariant(work, w, steps[0]);
      assert SenderMay(SenderPhase(w, work[t]), SenderPhase(w1, work[t]));
      ClosedTransferStaysClosed(work, w1, steps[1..], t);
    }
  }

  // Once the sender has given a transfer up, no continuation ever credits the receiver.
  lemma GivenUpMeansNeverCredited(work: Workload, balances: map<Id, nat>, steps: seq<Step>, more: seq<Step>, t: Id)
    requires t in work
    requires var s := SenderPhase(Execute(work, Initial(balances), steps), work[t]);
               s == At(Expired) || s == At(Rejected)
    ensures ReceiverPhase(Execute(work, Execute(work, Initial(balances), steps), more), work[t]) != At(Committed)
  {
    InitialInvariant(work, balances);
    RunKeepsInvariant(work, Initial(balances), steps);
    ClosedTransferStaysClosed(work, Execute(work, Initial(balances), steps), more, t);
  }

  // A rejection never reaches a sender whose funds are still reserved, so the refund in the
  // rejection handler is never taken: only expiry returns reserved funds.
  lemma RejectionNeverFindsOpenReservation(work: Workload, balances: map<Id, nat>, steps: seq<Step>, e: Envelope)
    requires var w := Execute(work, Initial(balances), steps);
             e in w.net && e.kind == Reject && e.to in w.nodes && e.transferID in w.nodes[e.to].state.outgoing
    ensures !Open(Execute(work, Initial(balances), steps).nodes[e.to].state.outgoing[e.transferID])
  {
    InitialInvariant(work, balances);
    RunKeepsInvariant(work, Initial(balances), steps);
    var w := Execute(work, Initial(balances), steps);
    assert EnvelopeOk(work, w, e) && NodeOk(work, e.to, w.nodes[e.to].state);
    assert OutgoingOk(work, e.to, e.transferID, w.nodes[e.to].state.outgoing[e.transferID]);
    assert Agree(SenderPhase(w, work[e.transferID]), ReceiverPhase(w, work[e.transferID]));
  }

  lemma CommitDeliverySuffices(work: Workload, w: World, t: Id, e: Envelope)
    requires Invariant(work, w) && t in work && work[t].to in w.nodes
    requires e in w.net && e.kind == Commit && e.transferID == t && ValidEnvelope(e, work[t].to)
    ensures ReceiverPhase(Deliver(w, e), work[t]) == At(Committed)
  {
    DeliverKeepsInvariant(work, w, e);
    var w' := Deliver(w, e);
    assert MessageCommand(e.Identity()) in w'.nodes[e.to].decided;
    assert RepliesSent(work, w', w'.nodes[e.to], MessageCommand(e.Identity()));
  }

  lemma AckDeliverySuffices(work: Workload, w: World, t: Id, e: Envelope)
    requires Invariant(work, w) && t in work && work[t].from in w.nodes
    requires e in w.net && e.kind == Ack && e.transferID == t && ValidEnvelope(e, work[t].from)
    ensures SenderPhase(Deliver(w, e), work[t]) == At(Acknowledged)
  {
    DeliverKeepsInvariant(work, w, e);
    var w' := Deliver(w, e);
    assert MessageCommand(e.Identity()) in w'.nodes[e.to].decided;
    assert RepliesSent(work, w', w'.nodes[e.to], MessageCommand(e.Identity()));
  }

  lemma CommitRound(work: Workload, w: World, t: Id)
    requires Invariant(work, w) && t in work && t != "" && work[t].from != "" && work[t].to != ""
    requires SenderPhase(w, work[t]) == At(Committed)
    ensures var a := work[t];
            var w' := Deliver(RetryAt(w, a.from, t), Envelope(t, a.from, a.to, Commit, a.amount, Committed));
            Invariant(work, w') && ReceiverPhase(w', a) == At(Committed)
  {
    var a := work[t];
    var commit, w1 := Envelope(t, a.from, a.to, Commit, a.amount, Committed), RetryAt(w, a.from, t);
    assert Agree(SenderPhase(w, a), ReceiverPhase(w, a)) && NodeOk(work, a.from, w.nodes[a.from].state);
    assert OutgoingOk(work, a.from, t, w.nodes[a.from].state.outgoing[t]);
    assert commit in w1.net;
    RetryKeepsInvariant(work, w, a.from, t);
    DeliverKeepsInvariant(work, w1, commit);
    CommitDeliverySuffices(work, w1, t, commit);
  }

  lemma AckRound(work: Workload, w: World, t: Id)
    requires Invariant(work, w) && t in work && t != "" && work[t].from != "" && work[t].to != ""
    requires ReceiverPhase(w, work[t]) == At(Committed)
    ensures var a := work[t];
            var w' := Deliver(RetryIncomingAt(w, a.to, t), Envelope(t, a.to, a.from, Ack, a.amount, Committed));
            SenderPhase(w', a) == At(Acknowledged) && ReceiverPhase(w', a) == At(Committed)
  {
    var a := work[t];
    var ack, w1 := Envelope(t, a.to, a.from, Ack, a.amount, Committed), RetryIncomingAt(w, a.to, t);
    assert Agree(SenderPhase(w, a), ReceiverPhase(w, a)) && NodeOk(work, a.to, w.nodes[a.to].state);
    assert IncomingOk(work, a.to, t, w.nodes[a.to].state.incoming[t]);
    assert NodeOk(work, a.from, w.nodes[a.from].state)
        && OutgoingOk(work, a.from, t, w.nodes[a.from].state.outgoing[t]);
    assert ack in w1.net;
    RetryIncomingKeepsInvariant(work, w, a.to, t);
    DeliverKeepsInvariant(work, w1, ack);
    AckDeliverySuffices(work, w1, t, ack);
  }

  lemma FourSteps(work: Workload, w: World, s1: Step, s2: Step, s3: Step, s4: Step)
    ensures Execute(work, w, [s1, s2, s3, s4]) == Next(work, Next(work, Next(work, Next(work, w, s1), s2), s3), s4)
  {
    var w1 := Next(work, w, s1);
    var w2 := Next(work, w1, s2);
    var w3 := Next(work, w2, s3);
    assert [s1, s2, s3, s4][1..] == [s2, s3, s4] && [s2, s3, s4][1..] == [s3, s4] && [s3, s4][1..] == [s4]
        && [s4][1..] == [];
    calc {
      Execute(work, w, [s1, s2, s3, s4]);
      Execute(work, w1, [s2, s3, s4]);
      Execute(work, w2, [s3, s4]);
      Execute(work, w3, [s4]);
      Execute(work, Next(work, w3, s4), []);
    }
  }

  // The reconciliation steps and deliveries that finish a committed transfer.
  function FinishingSteps(a: Attempt): seq<Step>
  {
    [RetryOutgoing(a.from, a.id), DeliverStep(Envelope(a.id, a.from, a.to, Commit, a.amount, Committed)),
     RetryIncoming(a.to, a.id), DeliverStep(Envelope(a.id, a.to, a.from, Ack, a.amount, Committed))]
  }

  lemma FinishingRun(work: Workload, w: World, a: Attempt)
    ensures var w2 := Deliver(RetryAt(w, a.from, a.id), Envelope(a.id, a.from, a.to, Commit, a.amount, Committed));
            Execute(work, w, FinishingSteps(a)) ==
            Deliver(RetryIncomingAt(w2, a.to, a.id), Envelope(a.id, a.to, a.from, Ack, a.amount, Committed))
  {
    var q := FinishingSteps(a);
    assert q == [q[0], q[1], q[2], q[3]];
    FourSteps(work, w, q[0], q[1], q[2], q[3]);
  }

  lemma FinishFrom(work: Workload, w: World, t: Id) returns (w': World)
    requires Invariant(work, w) && t in work && t != "" && work[t].from != "" && work[t].to != ""
    requires SenderPhase(w, work[t]) == At(Committed)
    ensures w' == Execute(work, w, FinishingSteps(work[t]))
    ensures SenderPhase(w', work[t]) == At(Acknowledged) && ReceiverPhase(w', work[t]) == At(Committed)
  {
    var a := work[t];
    var w2 := Deliver(RetryAt(w, a.from, t), Envelope(t, a.from, a.to, Commit, a.amount, Committed));
    w' := Deliver(RetryIncomingAt(w2, a.to, t), Envelope(t, a.to, a.from, Ack, a.amount, Committed));
    CommitRound(work, w, t);
    AckRound(work, w2, t);
    FinishingRun(work, w, a);
  }

  // From any reachable state in which the sender has committed, resending and delivering one
  // Commit and one Ack finishes the transfer at both ends.
  lemma OneCommitAndOneAckFinish(work: Workload, balances: map<Id, nat>, steps: seq<Step>, t: Id)
    requires t in work && t != "" && work[t].from != "" && work[t].to != ""
    requires SenderPhase(Execute(work, Initial(balances), steps), work[t]) == At(Committed)
    ensures var w' := Execute(work, Execute(work, Initial(balances), steps), FinishingSteps(work[t]));
            SenderPhase(w', work[t]) == At(Acknowledged) && ReceiverPhase(w', work[t]) == At(Committed)
  {
    InitialInvariant(work, balances);
    RunKeepsInvariant(work, Initial(balances), steps);
    var _ := FinishFrom(work, Execute(work, Initial(balances), steps), t);
  }
}
