/**
 * `TicketSystem`: the ticket issuer. It owns the list of issued tickets and the counter of
 * simulated ticket ids, and issues a ticket either in memory (simulated mode, any mode name
 * other than "zendesk") or through the Zendesk API (mode "zendesk").
 *
 * The HTTP exchange with Zendesk is an oracle `send` from the request payload to the reply; the
 * clock is the `now` parameter; the JSON snapshot written after every change is not modelled.
 */
module Tickets {
  import opened Optional
  import opened Text
  import opened Categories

  const ZendeskMode := "zendesk"
  const DefaultMode := "simulated"
  const FirstId := 1000

  datatype Ticket = Ticket(
    id: int,
    description: string,
    category: Category,
    urgent: bool,
    status: string,
    assignedTo: string,
    createdAt: string,
    source: string)

  /** Who handles a ticket: a human agent for urgent tickets, the automatic system otherwise. */
  function AssignedTo(urgent: bool): (who: string)
    ensures who == "Agente Humano" <==> urgent
    ensures who == "Sistema Automático" <==> !urgent
  {
    if urgent then "Agente Humano" else "Sistema Automático"
  }

  /** What `create_ticket` returns: the ticket, or the `{"error": ...}` value. */
  datatype Outcome = Issued(ticket: Ticket) | Failed(error: string)

  /** The body posted to Zendesk's ticket endpoint. */
  datatype ZendeskRequest = ZendeskRequest(
    subject: string,
    comment: string,
    priority: string,
    tags: seq<string>,
    kind: string)

  /** The payload `_create_zendesk_ticket` builds before posting. */
  function ZendeskPayload(description: string, category: Category, urgent: bool): (req: ZendeskRequest)
    ensures req.priority == "urgent" <==> urgent
    ensures req.comment == description && req.kind == "problem"
    ensures req.tags == ["auto_classified", Name(category)]
    ensures req.subject == "[" + Name(category) + "] " + (if urgent then "[URGENTE] " else "") + "Ticket Automático"
  {
    ZendeskRequest(
      "[" + Name(category) + "] " + (if urgent then "[URGENTE] " else "") + "Ticket Automático",
      description,
      if urgent then "urgent" else "normal",
      ["auto_classified", Name(category)],
      "problem")
  }

  /** The fields of the `"ticket"` object of Zendesk's JSON answer (all absent when the key is missing). */
  datatype TicketFields = TicketFields(id: Option<int>, status: Option<string>, createdAt: Option<string>)

  /** The body of the HTTP answer, as `response.json()` sees it. */
  datatype JsonBody = Unparseable(reason: string) | Parsed(ticket: TicketFields)

  /** The outcome of the POST: an exception raised by the transport, or an HTTP answer. */
  datatype ZendeskReply =
    | TransportFailure(reason: string)
    | HttpReply(statusCode: int, text: string, json: JsonBody)

  /** The reply is a 201 whose JSON carries a ticket id. */
  predicate Accepted(reply: ZendeskReply)
  {
    reply.HttpReply? && reply.statusCode == 201 && reply.json.Parsed? && reply.json.ticket.id.Some?
  }

  /** How `_create_zendesk_ticket` turns Zendesk's reply into a ticket or an error value. */
  function ZendeskOutcome(description: string, category: Category, urgent: bool, now: string, reply: ZendeskReply)
    : (o: Outcome)
    ensures o.Issued? <==> Accepted(reply)
    ensures o.Issued? ==> o.ticket.id == reply.json.ticket.id.value && o.ticket.source == "Zendesk"
                          && o.ticket.description == description && o.ticket.category == category
                          && o.ticket.urgent == urgent && o.ticket.assignedTo == AssignedTo(urgent)
                          && o.ticket.status == reply.json.ticket.status.GetOr("open")
                          && o.ticket.createdAt == reply.json.ticket.createdAt.GetOr(now)
    ensures reply.HttpReply? && reply.statusCode != 201 ==>
              o == Failed("Error " + IntToString(reply.statusCode) + ": " + reply.text)
    ensures reply.TransportFailure? ==> o == Failed(reply.reason)
  {
    match reply
    case TransportFailure(reason) => Failed(reason)
    case HttpReply(code, text, json) =>
      if code != 201 then Failed("Error " + IntToString(code) + ": " + text)
      else
        match json
        case Unparseable(reason) => Failed(reason)
        case Parsed(fields) =>
          if fields.id.None? then Failed("'id'")   // the KeyError raised by ticket_data["id"]
          else Issued(Ticket(fields.id.value, description, category, urgent, fields.status.GetOr("open"),
                             AssignedTo(urgent), fields.createdAt.GetOr(now), "Zendesk"))
  }

  class TicketSystem {
    const mode: string
    var tickets: seq<Ticket>
    var nextId: int

    /** Every ticket is assigned by its urgency. A simulated issuer has issued the ids
        1000, 1001, ... in order, with no gap, and `nextId` is the next one; a Zendesk issuer
        never moves `nextId` off 1000 and holds only tickets Zendesk accepted. */
    ghost predicate Valid()
      reads this
    {
      && (forall i :: 0 <= i < |tickets| ==> tickets[i].assignedTo == AssignedTo(tickets[i].urgent))
      && (mode == ZendeskMode ==>
            nextId == FirstId && forall i :: 0 <= i < |tickets| ==> tickets[i].source == "Zendesk")
      && (mode != ZendeskMode ==>
            && nextId == FirstId + |tickets|
            && forall i :: 0 <= i < |tickets| ==>
                 tickets[i].id == FirstId + i && tickets[i].source == "Simulado" && tickets[i].status == "open")
    }

    /** `TicketSystem()`, the mode being the value of `TICKET_API_MODE` or "simulated" when unset. */
    constructor (modeSetting: Option<string>)
      ensures mode == modeSetting.GetOr(DefaultMode)
      ensures tickets == [] && nextId == FirstId
      ensures Valid()
    {
      mode := modeSetting.GetOr(DefaultMode);
      tickets := [];
      nextId := FirstId;
    }

    /** `limpiar_historial`: forget every ticket and restart the ids at 1000, from any state. */
    method LimpiarHistorial() returns (ok: bool)
      modifies this
      ensures tickets == [] && nextId == FirstId
      ensures ok
      ensures Valid()
    {
      tickets := [];
      nextId := FirstId;
      ok := true;
    }

    /** `create_ticket`: dispatch on the mode fixed at construction. */
    method CreateTicket(description: string, category: Category, urgent: bool, now: string,
                        send: ZendeskRequest -> ZendeskReply) returns (o: Outcome)
      requires Valid()
      modifies this
      ensures Valid()
      ensures mode != ZendeskMode ==>
                && o == Issued(Ticket(old(nextId), description, category, urgent, "open", AssignedTo(urgent), now, "Simulado"))
                && nextId == old(nextId) + 1
                && tickets == old(tickets) + [o.ticket]
      ensures mode == ZendeskMode ==>
                && o == ZendeskOutcome(description, category, urgent, now, send(ZendeskPayload(description, category, urgent)))
                && nextId == old(nextId)
                && tickets == (if o.Issued? then old(tickets) + [o.ticket] else old(tickets))
    {
      if mode == ZendeskMode {
        o := CreateZendeskTicket(description, category, urgent, now, send);
      } else {
        var t := CreateSimulatedTicket(description, category, urgent, now);
        o := Issued(t);
      }
    }

    /** `_create_simulated_ticket`: take the next id, record an open ticket, count on. */
    method CreateSimulatedTicket(description: string, category: Category, urgent: bool, now: string)
      returns (t: Ticket)
      requires Valid() && mode != ZendeskMode
      modifies this
      ensures Valid()
      ensures t == Ticket(old(nextId), description, category, urgent, "open", AssignedTo(urgent), now, "Simulado")
      ensures nextId == old(nextId) + 1
      ensures tickets == old(tickets) + [t]
    {
      t := Ticket(nextId, description, category, urgent, "open", AssignedTo(urgent), now, "Simulado");
      tickets := tickets + [t];
      nextId := nextId + 1;
    }

    /** `_create_zendesk_ticket`: post the payload; record the ticket only when Zendesk accepted it. */
    method CreateZendeskTicket(description: string, category: Category, urgent: bool, now: string,
                               send: ZendeskRequest -> ZendeskReply) returns (o: Outcome)
      requires Valid() && mode == ZendeskMode
      modifies this
      ensures Valid()
      ensures o == ZendeskOutcome(description, category, urgent, now, send(ZendeskPayload(description, category, urgent)))
      ensures nextId == old(nextId)
      ensures tickets == (if o.Issued? then old(tickets) + [o.ticket] else old(tickets))
    {
      var reply := send(ZendeskPayload(description, category, urgent));
      o := ZendeskOutcome(description, category, urgent, now, reply);
      if o.Issued? {
        tickets := tickets + [o.ticket];
      }
    }

    /** `get_tickets`: the tickets in the order they were issued. */
    method GetTickets() returns (r: seq<Ticket>)
      requires Valid()
      ensures r == tickets
      ensures mode != ZendeskMode ==> |r| == nextId - FirstId
      ensures mode != ZendeskMode ==> forall i, j :: 0 <= i < j < |r| ==> r[i].id < r[j].id
    {
      r := tickets;
    }
  }

  /** A simulated issuer's ids are distinct and increase with the order of issue. */
  lemma SimulatedIdsIncrease(ts: TicketSystem, i: int, j: int)
    requires ts.Valid() && ts.mode != ZendeskMode
    requires 0 <= i < j < |ts.tickets|
    ensures FirstId <= ts.tickets[i].id < ts.tickets[j].id < ts.nextId
  {
  }

  /** After a reset a simulated issuer hands out 1000 to an urgent ticket, assigned to a human agent. */
  method SimulatedTicketAfterReset(now: string) returns (o: Outcome, count: nat)
    ensures o.Issued? && o.ticket.id == FirstId
    ensures o.ticket.category == Logistica && o.ticket.urgent && o.ticket.status == "open"
    ensures o.ticket.assignedTo == "Agente Humano" && o.ticket.source == "Simulado"
    ensures count >= 1
  {
    var ts := new TicketSystem(None);
    var _ := ts.LimpiarHistorial();
    o := ts.CreateTicket("Prueba de ticket", Logistica, true, now, _ => TransportFailure("unused"));
    var all := ts.GetTickets();
    count := |all|;
  }

  /** Reset, two tickets, reset again: two tickets with ids 1000 and 1001, then none. */
  method ResetCreateTwiceReset(now: string) returns (first: int, second: int, afterTwo: nat, afterReset: nat, next: int)
    ensures first == 1000 && second == 1001
    ensures afterTwo == 2 && afterReset == 0 && next == 1000
  {
    var ts := new TicketSystem(None);
    var _ := ts.LimpiarHistorial();
    var a := ts.CreateTicket("Prueba integral", Pagos, true, now, _ => TransportFailure("unused"));
    var b := ts.CreateTicket("Otro ticket", Logistica, false, now, _ => TransportFailure("unused"));
    first, second := a.ticket.id, b.ticket.id;
    var all := ts.GetTickets();
    afterTwo := |all|;
    var _ := ts.LimpiarHistorial();
    all := ts.GetTickets();
    afterReset := |all|;
    next := ts.nextId;
  }

  /** In Zendesk mode a refused post yields the error text and leaves the list empty. */
  method ZendeskRefused(now: string) returns (refused: Outcome, count: nat, next: int)
    ensures refused == Failed("Error 500: boom")
    ensures count == 0 && next == 1000
  {
    var ts := new TicketSystem(Some(ZendeskMode));
    refused := ts.CreateTicket("Sin servicio", Cuenta, false, now,
                               _ => HttpReply(500, "boom", Unparseable("not JSON")));
    DecimalSpelling();
    var all := ts.GetTickets();
    count := |all|;
    next := ts.nextId;
  }

  /** In Zendesk mode an accepted post appends the ticket under Zendesk's id, open and stamped
      with the local time when Zendesk sends neither; the simulated counter never moves. */
  method ZendeskAccepted(now: string) returns (accepted: Outcome, count: nat, next: int)
    ensures accepted.Issued? && accepted.ticket.id == 77 && accepted.ticket.status == "open"
    ensures accepted.ticket.source == "Zendesk" && accepted.ticket.createdAt == now
    ensures count == 1 && next == 1000
  {
    var ts := new TicketSystem(Some(ZendeskMode));
    accepted := ts.CreateTicket("Con servicio", Cuenta, false, now,
                                _ => HttpReply(201, "", Parsed(TicketFields(Some(77), None, None))));
    var all := ts.GetTickets();
    count := |all|;
    next := ts.nextId;
  }
}
