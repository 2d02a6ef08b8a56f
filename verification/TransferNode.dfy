/**
 One participant as the source writes it: handlers that update the fields of its state in place.
 Each method is proved to have exactly the effect the protocol's step machine gives it.
 */
module TransferNode {
  import opened Bytes
  import opened TransferMessages
  import Protocol = TransferProtocol

  class DurableBso {
    const id: Id
    var balance: int
    var reserved: int
    var outgoing: map<Id, Transfer>
    var incoming: map<Id, Transfer>
    var seenMessages: set<MessageId>
    var audit: seq<AuditEntry>
    var decided: map<Protocol.CommandId, Outcome>

    function State(): BsoState
      reads this
    {
      BsoState(id, balance, reserved, outgoing, incoming, seenMessages, audit)
    }

    function Node(): Protocol.Node
      reads this
    {
      Protocol.Node(State(), decided)
    }

    constructor (id: Id, balance: int)
      ensures Node() == Protocol.Node(BsoState(id, balance, 0, map[], map[], {}, []), map[])
    {
      this.id, this.balance, reserved := id, balance, 0;
      outgoing, incoming, seenMessages, audit, decided := map[], map[], {}, [], map[];
    }

    method DecideReserve(attempt: Attempt, round: int) returns (outcome: Outcome)
      modifies this
      ensures Handled(State(), outcome) == Reserve(old(State()), attempt, round) && decided == old(decided)
    {
      if attempt.id in outgoing {
        var existing := outgoing[attempt.id];
        return if existing.state == Reserved then Send(Offer, existing.state) else Silent;
      }
      var transfer := Transfer(attempt.id, attempt.from, attempt.to, attempt.amount, Reserved, false, false, round);
      if attempt.from != id || attempt.to == id || attempt.amount <= 0 || balance < attempt.amount {
        outgoing := outgoing[attempt.id := transfer.(state := Rejected)];
        return Silent;
      }
      balance := balance - attempt.amount;
      reserved := reserved + attempt.amount;
      outgoing := outgoing[attempt.id := transfer];
      return Send(Offer, Reserved);
    }

    // One attempt: the database replays the decision of a reservation it has already decided,
    // otherwise it is decided and recorded with the new state; the offer goes out either way.
    method ReserveFunds(attempt: Attempt, round: int) returns (offer: Option<Envelope>)
      modifies this
      ensures var m, h := Protocol.ReserveCommand(attempt.id), Reserve(old(State()), attempt, round);
              && Node() == Protocol.Mutate(old(Node()), m, h)
              && (if offer.None? then {} else {offer.value})
                 == Protocol.OfferOf(attempt, Protocol.Decided(old(Node()), m, h))
    {
      var m := Protocol.ReserveCommand(attempt.id);
      var outcome: Outcome;
      if m in decided {
        outcome := decided[m];
      } else {
        outcome := DecideReserve(attempt, round);
        decided := decided[m := outcome];
      }
      if outcome.Silent? {
        return None;
      }
      return Some(Envelope(attempt.id, attempt.from, attempt.to, Offer, attempt.amount, outcome.state));
    }

    method HandleOffer(e: Envelope) returns (outcome: Outcome)
      modifies this
      ensures Handled(State(), outcome) == ReceiveOffer(old(State()), e) && decided == old(decided)
    {
      if e.to != id || e.from == id || e.amount <= 0 {
        return Silent;
      }
      if e.transferID in incoming {
        var prior := incoming[e.transferID];
        if prior.from != e.from || prior.to != e.to || prior.amount != e.amount {
          return Silent;
        }
      } else {
        incoming := incoming[e.transferID := Transfer(e.transferID, e.from, e.to, e.amount, Accepted, false, false, 0)];
      }
      var transfer := incoming[e.transferID];
      if transfer.state == Accepted {
        return Send(Accept, Accepted);
      } else if transfer.state == Committed {
        return Send(Ack, Committed);
      }
      return Send(Reject, transfer.state);
    }

    method HandleAccept(e: Envelope) returns (outcome: Outcome)
      modifies this
      ensures Handled(State(), outcome) == ReceiveAccept(old(State()), e) && decided == old(decided)
    {
      if e.transferID !in outgoing {
        return Silent;
      }
      var transfer := outgoing[e.transferID];
      if transfer.from != id || transfer.to != e.from || transfer.amount != e.amount {
        return Silent;
      }
      if Open(transfer) {
        transfer := transfer.(state := Committed);
        if !transfer.debitApplied {
          transfer := transfer.(debitApplied := true);
          reserved := reserved - transfer.amount;
          audit := audit + [AuditEntry(transfer.id, Committed, -transfer.amount)];
        }
        outgoing := outgoing[e.transferID := transfer];
      }
      if transfer.state == Committed || transfer.state == Acknowledged {
        return Send(Commit, transfer.state);
      }
      return Send(Reject, transfer.state);
    }

    method HandleReject(e: Envelope) returns (outcome: Outcome)
      modifies this
      ensures Handled(State(), outcome) == ReceiveReject(old(State()), e) && decided == old(decided)
    {
      if e.transferID in outgoing {
        var transfer := outgoing[e.transferID];
        if transfer.to == e.from && transfer.amount == e.amount && Open(transfer) {
          balance := balance + transfer.amount;
          reserved := reserved - transfer.amount;
          outgoing := outgoing[e.transferID := transfer.(state := Rejected)];
        }
      }
      return Silent;
    }

    method HandleCommit(e: Envelope) returns (outcome: Outcome)
      modifies this
      ensures Handled(State(), outcome) == ReceiveCommit(old(State()), e) && decided == old(decided)
    {
      if e.transferID !in incoming {
        return Silent;
      }
      var transfer := incoming[e.transferID];
      if transfer.from != e.from || transfer.to != id || transfer.amount != e.amount {
        return Silent;
      }
      if transfer.state == Accepted {
        transfer := transfer.(state := Committed);
        if !transfer.creditApplied {
          transfer := transfer.(creditApplied := true);
          balance := balance + transfer.amount;
          audit := audit + [AuditEntry(transfer.id, Committed, transfer.amount)];
        }
        incoming := incoming[e.transferID := transfer];
      }
      if transfer.state == Committed {
        return Send(Ack, Committed);
      }
      return Send(Reject, transfer.state);
    }

    method HandleAck(e: Envelope) returns (outcome: Outcome)
      modifies this
      ensures Handled(State(), outcome) == ReceiveAck(old(State()), e) && decided == old(decided)
    {
      if e.transferID in outgoing {
        var transfer := outgoing[e.transferID];
        if transfer.to == e.from && transfer.amount == e.amount && transfer.state == Committed {
          outgoing := outgoing[e.transferID := transfer.(state := Acknowledged)];
        }
      }
      return Silent;
    }

    method HandleReconcile(e: Envelope) returns (outcome: Outcome)
      modifies this
      ensures Handled(State(), outcome) == ReceiveReconcile(old(State()), e) && decided == old(decided)
    {
      if e.transferID !in incoming {
        return Silent;
      }
      var transfer := incoming[e.transferID];
      if transfer.from != e.from || transfer.amount != e.amount {
        return Silent;
      }
      if e.state == Expired && transfer.state == Accepted {
        incoming := incoming[e.transferID := transfer.(state := Expired)];
        return Send(Reject, Expired);
      }
      if transfer.state == Committed {
        return Send(Ack, Committed);
      }
      if transfer.state == Accepted {
        return Send(Accept, Accepted);
      }
      return Send(Reject, transfer.state);
    }

    // One delivery: the database replays a decided command, otherwise the handler runs once
    // and its outcome is recorded with the new state.
    method Handle(e: Envelope) returns (reply: Option<Envelope>)
      modifies this
      ensures !ValidEnvelope(e, id) ==> Node() == old(Node()) && reply == None
      ensures ValidEnvelope(e, id) ==>
                var m, h := Protocol.MessageCommand(e.Identity()), Receive(old(State()), e);
                && Node() == Protocol.Mutate(old(Node()), m, h)
                && (if reply.None? then {} else {reply.value}) == Protocol.Reply(e, Protocol.Decided(old(Node()), m, h))
    {
      if !ValidEnvelope(e, id) {
        return None;
      }
      var m := Protocol.MessageCommand(e.Identity());
      var outcome: Outcome;
      if m in decided {
        outcome := decided[m];
      } else {
        seenMessages := seenMessages + {e.Identity()};
        match e.kind {
          case Offer => outcome := HandleOffer(e);
          case Accept => outcome := HandleAccept(e);
          case Reject => outcome := HandleReject(e);
          case Commit => outcome := HandleCommit(e);
          case Ack => outcome := HandleAck(e);
          case Reconcile => outcome := HandleReconcile(e);
        }
        decided := decided[m := outcome];
      }
      if outcome.Silent? {
        return None;
      }
      return Some(Envelope(e.transferID, id, e.from, outcome.kind, e.amount, outcome.state));
    }

    // The expiry of one reservation, as the reconciliation pass runs it.
    method ExpireReservation(transferID: Id) returns (outcome: Outcome)
      modifies this
      ensures Node()
              == Protocol.Mutate(old(Node()), Protocol.ExpireCommand(transferID), Expire(old(State()), transferID))
      ensures outcome
              == Protocol.Decided(old(Node()), Protocol.ExpireCommand(transferID), Expire(old(State()), transferID))
    {
      var command := Protocol.ExpireCommand(transferID);
      if command in decided {
        return decided[command];
      }
      outcome := Silent;
      if transferID in outgoing && Open(outgoing[transferID]) {
        var transfer := outgoing[transferID];
        balance := balance + transfer.amount;
        reserved := reserved - transfer.amount;
        outgoing := outgoing[transferID := transfer.(state := Expired)];
        outcome := Send(Reconcile, Expired);
      }
      decided := decided[command := outcome];
    }
  }
}
