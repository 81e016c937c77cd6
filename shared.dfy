/**
 * `BotState`, the one record the mailbox watcher and the chat controller
 * share: the address and subject of the last new mail, and the two flags of
 * the chat's modes (waiting for a dictated reply, waiting for a ticket
 * confirmation).
 */
module Shared {
  import opened Wrappers

  /** A value copy of the shared record. */
  datatype Context = Context(
    lastSender: Option<string>,   // `ultimo_remitente`
    lastSubject: Option<string>,  // `ultimo_asunto`
    replyMode: bool,              // `modo_respuesta`
    ticketMode: bool)             // `modo_ticket`

  /** The chat waits for at most one thing at a time. */
  predicate Exclusive(c: Context) {
    !(c.replyMode && c.ticketMode)
  }

  /** Python's truth value of an optional string: present and not empty. */
  predicate Truthy(o: Option<string>) {
    o.Some? && o.value != ""
  }

  class BotState {
    var lastSender: Option<string>
    var lastSubject: Option<string>
    var replyMode: bool
    var ticketMode: bool

    /** The class defaults: nothing pending, both modes off. */
    constructor ()
      ensures Snapshot() == Context(None, None, false, false)
    {
      lastSender := None;
      lastSubject := None;
      replyMode := false;
      ticketMode := false;
    }

    function Snapshot(): Context
      reads this
    {
      Context(lastSender, lastSubject, replyMode, ticketMode)
    }
  }
}
