/**
 * `procesar_ticket_individual`: the single-ticket path of the web form. A blank text is answered
 * with three empty fields and issues nothing; any other text is classified, checked for urgency,
 * issued as a ticket through the shared ticket issuer, and answered with the category label,
 * "SÍ"/"NO" and a status line.
 *
 * The shared module-level issuer is the parameter `ts`; the clock and the Zendesk exchange are
 * the parameters `now` and `send`, as in `Tickets`.
 */
module Individual {
  import opened Text
  import opened Categories
  import opened Urgency
  import opened Hybrid
  import opened Tickets

  const UrgentStatus := "\U{1F534} URGENTE - Asignado a Agente Humano"
  const AutomaticStatus := "\U{1F7E2} Enviado a Sistema Automático"

  /** The status line shown for a ticket: the red line for an urgent one, the green one otherwise. */
  function Status(urgent: bool): (line: string)
    ensures line == UrgentStatus <==> urgent
    ensures line == AutomaticStatus <==> !urgent
  {
    if urgent then UrgentStatus else AutomaticStatus
  }

  /** How the urgency is shown: "SÍ" or "NO". */
  function YesNo(urgent: bool): (answer: string)
    ensures answer == "SÍ" <==> urgent
    ensures answer == "NO" <==> !urgent
  {
    if urgent then "SÍ" else "NO"
  }

  /** The status line shown agrees with the assignment recorded in the ticket: the red line
      exactly when the ticket goes to a human agent. */
  lemma StatusAgreesWithAssignment(urgent: bool)
    ensures Status(urgent) == UrgentStatus <==> AssignedTo(urgent) == "Agente Humano"
  {
  }

  /** `procesar_ticket_individual`. The ticket is issued whatever the issuer answers: an error
      from Zendesk does not change the status line. */
  method ProcesarTicketIndividual(ts: TicketSystem, model: Classifier, text: string, now: string,
                                  send: ZendeskRequest -> ZendeskReply)
    returns (categoria: string, urgente: string, status: string)
    requires ts.Valid()
    modifies ts
    ensures ts.Valid()
    ensures Strip(text) == [] ==>
              && categoria == "" && urgente == "" && status == ""
              && ts.tickets == old(ts.tickets) && ts.nextId == old(ts.nextId)
    ensures Strip(text) != [] ==>
              && categoria == Name(ClasificarTexto(model, text))
              && urgente == YesNo(EsUrgente(text))
              && status == Status(EsUrgente(text))
    ensures Strip(text) != [] && ts.mode != ZendeskMode ==>
              && ts.tickets == old(ts.tickets) + [Ticket(old(ts.nextId), text, ClasificarTexto(model, text),
                                                         EsUrgente(text), "open", AssignedTo(EsUrgente(text)),
                                                         now, "Simulado")]
              && ts.nextId == old(ts.nextId) + 1
    ensures Strip(text) != [] && ts.mode == ZendeskMode ==>
              var o := ZendeskOutcome(text, ClasificarTexto(model, text), EsUrgente(text), now,
                                      send(ZendeskPayload(text, ClasificarTexto(model, text), EsUrgente(text))));
              && ts.tickets == (if o.Issued? then old(ts.tickets) + [o.ticket] else old(ts.tickets))
              && ts.nextId == old(ts.nextId)
  {
    if Strip(text) == [] {
      return "", "", "";
    }
    var c := ClasificarTexto(model, text);
    var u := EsUrgente(text);
    var _ := ts.CreateTicket(text, c, u, now, send);
    categoria := Name(c);
    urgente := YesNo(u);
    status := Status(u);
  }
}
