/**
 Values of the bilateral transfer protocol: transfers, envelopes, one participant's
 durable state, and what each message handler does to that state.
 */
module TransferMessages {

  type Id = string

  datatype TransferState = Reserved | Accepted | Committed | Acknowledged | Rejected | Expired

  datatype MessageKind = Offer | Accept | Reject | Commit | Ack | Reconcile

  datatype Transfer = Transfer(id: Id, from: Id, to: Id, amount: int, state: TransferState,
                               debitApplied: bool, creditApplied: bool, createdRound: int)

  datatype AuditEntry = AuditEntry(transferID: Id, state: TransferState, delta: int)

  // "transfer/kind/from": two envelopes with one identity are retries of one message.
  datatype MessageId = MessageId(transferID: Id, kind: MessageKind, from: Id)

  datatype Envelope = Envelope(transferID: Id, from: Id, to: Id, kind: MessageKind, amount: int, state: TransferState)
  {
    function Identity(): MessageId { MessageId(transferID, kind, from) }
  }

  datatype Attempt = Attempt(id: Id, from: Id, to: Id, amount: int)

  datatype BsoState = BsoState(id: Id, balance: int, reserved: int,
                               outgoing: map<Id, Transfer>, incoming: map<Id, Transfer>,
                               seenMessages: set<MessageId>, audit: seq<AuditEntry>)

  datatype Outcome = Silent | Send(kind: MessageKind, state: TransferState)

  // A handler's new durable state and the reply it asks for.
  datatype Handled = Handled(state: BsoState, outcome: Outcome)

  predicate Open(t: Transfer)
  {
    t.state == Reserved || t.state == Accepted
  }

  function Reserve(s: BsoState, a: Attempt, round: int): Handled
  {
    var entry := Transfer(a.id, a.from, a.to, a.amount, Reserved, false, false, round);
    if a.id in s.outgoing then
      Handled(s, if s.outgoing[a.id].state == Reserved then Send(Offer, Reserved) else Silent)
    else if a.from != s.id || a.to == s.id || a.amount <= 0 || s.balance < a.amount then
      Handled(s.(outgoing := s.outgoing[a.id := entry.(state := Rejected)]), Silent)
    else
      Handled(s.(balance := s.balance - a.amount, reserved := s.reserved + a.amount,
                 outgoing := s.outgoing[a.id := entry]), Send(Offer, Reserved))
  }

  function ReceiveOffer(s: BsoState, e: Envelope): Handled
  {
    if e.to != s.id || e.from == s.id || e.amount <= 0 then Handled(s, Silent)
    else if e.transferID !in s.incoming then
      Handled(s.(incoming := s.incoming[e.transferID :=
                   Transfer(e.transferID, e.from, e.to, e.amount, Accepted, false, false, 0)]), Send(Accept, Accepted))
    else
      var t := s.incoming[e.transferID];
      Handled(s, if t.from != e.from || t.to != e.to || t.amount != e.amount then Silent
                 else match t.state
                      case Accepted => Send(Accept, Accepted)
                      case Committed => Send(Ack, Committed)
                      case other => Send(Reject, other))
  }

  function ReceiveAccept(s: BsoState, e: Envelope): Handled
  {
    if e.transferID !in s.outgoing then Handled(s, Silent)
    else
      var t := s.outgoing[e.transferID];
      if t.from != s.id || t.to != e.from || t.amount != e.amount then Handled(s, Silent)
      else if Open(t) then
        Handled(s.(outgoing := s.outgoing[e.transferID := t.(state := Committed, debitApplied := true)],
                   reserved := if t.debitApplied then s.reserved else s.reserved - t.amount,
                   audit := if t.debitApplied then s.audit else s.audit + [AuditEntry(t.id, Committed, -t.amount)]),
                Send(Commit, Committed))
      else if t.state == Committed || t.state == Acknowledged then Handled(s, Send(Commit, t.state))
      else Handled(s, Send(Reject, t.state))
  }

  function ReceiveReject(s: BsoState, e: Envelope): Handled
  {
    if e.transferID !in s.outgoing then Handled(s, Silent)
    else
      var t := s.outgoing[e.transferID];
      if t.to == e.from && t.amount == e.amount && Open(t) then
        Handled(s.(balance := s.balance + t.amount, reserved := s.reserved - t.amount,
                   outgoing := s.outgoing[e.transferID := t.(state := Rejected)]), Silent)
      else Handled(s, Silent)
  }

  function ReceiveCommit(s: BsoState, e: Envelope): Handled
  {
    if e.transferID !in s.incoming then Handled(s, Silent)
    else
      var t := s.incoming[e.transferID];
      if t.from != e.from || t.to != s.id || t.amount != e.amount then Handled(s, Silent)
      else if t.state == Accepted then
        Handled(s.(incoming := s.incoming[e.transferID := t.(state := Committed, creditApplied := true)],
                   balance := if t.creditApplied then s.balance else s.balance + t.amount,
                   audit := if t.creditApplied then s.audit else s.audit + [AuditEntry(t.id, Committed, t.amount)]),
                Send(Ack, Committed))
      else if t.state == Committed then Handled(s, Send(Ack, Committed))
      else Handled(s, Send(Reject, t.state))
  }

  function ReceiveAck(s: BsoState, e: Envelope): Handled
  {
    if e.transferID in s.outgoing && s.outgoing[e.transferID].to == e.from
       && s.outgoing[e.transferID].amount == e.amount && s.outgoing[e.transferID].state == Committed then
      Handled(s.(outgoing := s.outgoing[e.transferID := s.outgoing[e.transferID].(state := Acknowledged)]), Silent)
    else Handled(s, Silent)
  }

  function ReceiveReconcile(s: BsoState, e: Envelope): Handled
  {
    if e.transferID !in s.incoming then Handled(s, Silent)
    else
      var t := s.incoming[e.transferID];
      if t.from != e.from || t.amount != e.amount then Handled(s, Silent)
      else if e.state == Expired && t.state == Accepted then
        Handled(s.(incoming := s.incoming[e.transferID := t.(state := Expired)]), Send(Reject, Expired))
      else if t.state == Committed then Handled(s, Send(Ack, Committed))
      else if t.state == Accepted then Handled(s, Send(Accept, Accepted))
      else Handled(s, Send(Reject, t.state))
  }

  // The sender gives up on a reservation that is still open.
  function Expire(s: BsoState, transferID: Id): Handled
  {
    if transferID in s.outgoing && Open(s.outgoing[transferID]) then
      var t := s.outgoing[transferID];
      Handled(s.(balance := s.balance + t.amount, reserved := s.reserved - t.amount,
                 outgoing := s.outgoing[transferID := t.(state := Expired)]), Send(Reconcile, Expired))
    else Handled(s, Silent)
  }

  function Receive(s: BsoState, e: Envelope): Handled
  {
    var s := s.(seenMessages := s.seenMessages + {e.Identity()});
    match e.kind
    case Offer => ReceiveOffer(s, e)
    case Accept => ReceiveAccept(s, e)
    case Reject => ReceiveReject(s, e)
    case Commit => ReceiveCommit(s, e)
    case Ack => ReceiveAck(s, e)
    case Reconcile => ReceiveReconcile(s, e)
  }

  // Routing and shape; the authentication tag is not modelled because nothing is forged.
  predicate ValidEnvelope(e: Envelope, routedTo: Id)
  {
    e.to == routedTo && e.from != "" && e.to != "" && e.from != e.to && e.transferID != "" && e.amount > 0
  }
}
