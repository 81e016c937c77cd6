/**
 * The chat controller, `responder_chat`: one operator line per turn, read
 * against the shared record. A pending ticket confirmation is handled first,
 * then a pending dictation, and otherwise the line is matched against the
 * affirmative and the dismissal keywords. The language model's text and the
 * outcome of the SMTP send are the turn's two inputs from outside.
 */
module Chat {
  import opened Wrappers
  import opened Text
  import opened Shared

  /** Confirmations accepted while a ticket offer is open. */
  const TicketYes: seq<string> := ["si", "sí", "claro", "por favor", "hazlo", "simon"]
  /** Requests to reply to the last mail. */
  const ReplyYes: seq<string> := ["si", "sí", "claro", "responder", "ok", "simon"]
  /** Dismissals. */
  const Dismiss: seq<string> := ["no", "nel", "nop", "luego", "gracias"]
  /** Words of a drafted body that make the bot offer a ticket. */
  const IncidentWords: seq<string> := ["ticket", "incidencia", "soporte", "falla"]

  /** The messages the bot posts in the chat. */
  datatype Reply =
    | TicketCreated             // the mock ticket card
    | NoTicket                  // "no ticket was created"
    | Drafting                  // "drafting your mail"
    | Sent(copy: string)        // the send succeeded; a copy of the body
    | TicketOffer               // proactive offer to simulate a ticket
    | SmtpError                 // the send failed
    | AskDictation(to: string)  // "what do we answer to ...?"
    | NothingPending            // no recent mail in memory
    | Acknowledged              // "understood, standing by"
    | Persona(text: string)     // the language model's answer to a free line

  /** The mail handed to the SMTP server. */
  datatype Email = Email(to: Option<string>, subject: string, body: string)

  /** Python's `f"{x}"` of an optional string. */
  function Show(o: Option<string>): string {
    match o
    case Some(s) => s
    case None => "None"
  }

  /**
   * `enviar_correo_respuesta`'s message: to the given address, the subject
   * "Re: " followed by the original one, and the drafted body.
   */
  function ComposeReply(to: Option<string>, subject: Option<string>, body: string): (e: Email)
    ensures e.to == to && e.body == body
    ensures |e.subject| == |Show(subject)| + 4 && e.subject[..4] == "Re: " && e.subject[4..] == Show(subject)
  {
    Email(to, "Re: " + Show(subject), body)
  }

  /** What one turn leaves behind. */
  datatype TurnResult = TurnResult(next: Context, replies: seq<Reply>, email: Option<Email>)

  /** The transition `responder_chat` makes on the line `text`. */
  function Turn(c: Context, text: string, llm: string, sendOk: bool): TurnResult
  {
    var input := Lower(text);
    if c.ticketMode then
      TurnResult(c.(ticketMode := false), [if ContainsAny(input, TicketYes) then TicketCreated else NoTicket], None)
    else if c.replyMode then
      var mail := Some(ComposeReply(c.lastSender, c.lastSubject, llm));
      if !sendOk then TurnResult(c.(replyMode := false), [Drafting, SmtpError], mail)
      else if ContainsAny(Lower(llm), IncidentWords) then
        TurnResult(c.(replyMode := false, ticketMode := true), [Drafting, Sent(llm), TicketOffer], mail)
      else TurnResult(c.(replyMode := false), [Drafting, Sent(llm)], mail)
    else if ContainsAny(input, ReplyYes) then
      if Truthy(c.lastSender) then TurnResult(c.(replyMode := true), [AskDictation(c.lastSender.value)], None)
      else TurnResult(c, [NothingPending], None)
    else if ContainsAny(input, Dismiss) then TurnResult(c, [Acknowledged], None)
    else TurnResult(c, [Persona(llm)], None)
  }

  /**
   * `responder_chat` on the shared record: `text` is the operator's line,
   * `llm` what the language model returns for this turn's prompt (the drafted
   * body, or the free answer), `sendOk` whether the SMTP send succeeds.
   */
  method Respond(state: BotState, text: string, llm: string, sendOk: bool) returns (replies: seq<Reply>, email: Option<Email>)
    modifies state
    ensures var t := Turn(old(state.Snapshot()), text, llm, sendOk);
      state.Snapshot() == t.next && replies == t.replies && email == t.email
  {
    var input := Lower(text);
    email := None;
    if state.ticketMode {
      if ContainsAny(input, TicketYes) {
        replies := [TicketCreated];
      } else {
        replies := [NoTicket];
      }
      state.ticketMode := false;
      return;
    }
    if state.replyMode {
      replies := [Drafting];
      var body := llm;
      email := Some(ComposeReply(state.lastSender, state.lastSubject, body));
      if sendOk {
        replies := replies + [Sent(body)];
        if ContainsAny(Lower(body), IncidentWords) {
          replies := replies + [TicketOffer];
          state.ticketMode := true;
        }
      } else {
        replies := replies + [SmtpError];
      }
      state.replyMode := false;
      return;
    }
    if ContainsAny(input, ReplyYes) {
      if Truthy(state.lastSender) {
        state.replyMode := true;
        replies := [AskDictation(state.lastSender.value)];
      } else {
        replies := [NothingPending];
      }
    } else if ContainsAny(input, Dismiss) {
      replies := [Acknowledged];
    } else {
      replies := [Persona(llm)];
    }
  }

  // ----- properties of the transition --------------------------------------

  /** A turn never sets both modes: the record stays exclusive. */
  lemma TurnKeepsExclusive(c: Context, text: string, llm: string, sendOk: bool)
    requires Exclusive(c)
    ensures Exclusive(Turn(c, text, llm, sendOk).next)
  {
  }

  /** The controller reads the pending sender and subject but never changes them. */
  lemma TurnKeepsPending(c: Context, text: string, llm: string, sendOk: bool)
    ensures Turn(c, text, llm, sendOk).next.lastSender == c.lastSender
    ensures Turn(c, text, llm, sendOk).next.lastSubject == c.lastSubject
  {
  }

  /**
   * An open ticket offer is closed by the next line whatever it says; a
   * confirmation keyword anywhere in it creates the mock ticket.
   */
  lemma TicketTurn(c: Context, text: string, llm: string, sendOk: bool)
    requires c.ticketMode
    ensures var t := Turn(c, text, llm, sendOk);
      && t.next == c.(ticketMode := false)
      && t.email == None
      && (t.replies == [TicketCreated] <==> exists k :: 0 <= k < |TicketYes| && Contains(Lower(text), TicketYes[k]))
      && (t.replies == [NoTicket] <==> !exists k :: 0 <= k < |TicketYes| && Contains(Lower(text), TicketYes[k]))
  {
  }

  /**
   * A pending dictation is consumed by the next line: the drafted body goes to
   * the pending sender as "Re: " + the pending subject, reply mode ends, and a
   * ticket offer opens exactly when the send succeeded and the lower-cased
   * body names an incident keyword.
   */
  lemma ReplyTurn(c: Context, text: string, llm: string, sendOk: bool)
    requires !c.ticketMode && c.replyMode
    ensures var t := Turn(c, text, llm, sendOk);
      && !t.next.replyMode
      && t.email == Some(Email(c.lastSender, "Re: " + Show(c.lastSubject), llm))
      && (t.next.ticketMode <==> sendOk && exists k :: 0 <= k < |IncidentWords| && Contains(Lower(llm), IncidentWords[k]))
      && (Sent(llm) in t.replies <==> sendOk)
      && (SmtpError in t.replies <==> !sendOk)
  {
  }

  /**
   * From idle, reply mode starts exactly when the line holds an affirmative
   * keyword and a non-empty sender is pending; the affirmative test comes
   * before the dismissal one; nothing is mailed and no ticket offer opens.
   */
  lemma IdleTurn(c: Context, text: string, llm: string, sendOk: bool)
    requires !c.ticketMode && !c.replyMode
    ensures var t := Turn(c, text, llm, sendOk);
      var affirm := exists k :: 0 <= k < |ReplyYes| && Contains(Lower(text), ReplyYes[k]);
      var dismiss := exists k :: 0 <= k < |Dismiss| && Contains(Lower(text), Dismiss[k]);
      && t.email == None
      && !t.next.ticketMode
      && (t.next.replyMode <==> affirm && Truthy(c.lastSender))
      && (t.next.replyMode ==> t.replies == [AskDictation(c.lastSender.value)])
      && (t.replies == [NothingPending] <==> affirm && !Truthy(c.lastSender))
      && (t.replies == [Acknowledged] <==> !affirm && dismiss)
      && (t.replies == [Persona(llm)] <==> !affirm && !dismiss)
  {
  }

  /**
   * Neither waiting mode survives the turn after the one that entered it: a
   * mode is only ever entered from the state before it (reply mode from idle,
   * ticket mode from a successful reply).
   */
  lemma ModesLastOneTurn(c: Context, text: string, llm: string, sendOk: bool)
    requires Exclusive(c)
    ensures var n := Turn(c, text, llm, sendOk).next;
      && (c.replyMode ==> !n.replyMode)
      && (c.ticketMode ==> !n.ticketMode)
      && (n.replyMode ==> !c.replyMode && !c.ticketMode)
      && (n.ticketMode ==> c.replyMode && sendOk)
  {
  }

  /**
   * Lower-cased, "No, lo siento" holds the dismissal "no" and, inside
   * "siento", the affirmative "si". The line is a parameter fixed by the
   * precondition rather than a literal in the conclusion: a literal argument
   * makes the verifier evaluate `Lower` on the whole string.
   */
  lemma NoLoSientoKeywords(line: string)
    requires line == "No, lo siento"
    ensures Contains(Lower(line), "si") && Contains(Lower(line), "no")
  {
    var input := Lower(line);
    assert input[7..9] == "si";
    ContainsAt(input, "si", 7);
    assert input[0..2] == "no";
    ContainsAt(input, "no", 0);
  }

  /**
   * The affirmative test runs before the dismissal one, and both are
   * substring tests: "No, lo siento" holds "no" but also "si" (in "siento"),
   * and so starts a reply from idle when a sender is pending. (The line is a
   * parameter for the reason given at `NoLoSientoKeywords`.)
   */
  lemma AffirmativeWinsOverDismissal(c: Context, line: string, llm: string, sendOk: bool)
    requires line == "No, lo siento"
    requires !c.ticketMode && !c.replyMode && Truthy(c.lastSender)
    ensures Contains(Lower(line), "no")
    ensures Turn(c, line, llm, sendOk).next.replyMode
  {
    NoLoSientoKeywords(line);
    assert ReplyYes[0] == "si";
    IdleTurn(c, line, llm, sendOk);
  }

  /**
   * The scenario of a full reply: from idle with a sender pending, "Sí" asks
   * for the dictation, and the next line, whatever it is, mails the drafted
   * body to that sender as a reply to the pending subject and leaves reply
   * mode.
   */
  lemma ReplyRoundTrip(c: Context, sender: string, firstLlm: string, dictation: string, draft: string, sendOk: bool)
    requires !c.ticketMode && !c.replyMode && c.lastSender == Some(sender) && sender != ""
    ensures var t1 := Turn(c, "Sí", firstLlm, false);
      var t2 := Turn(t1.next, dictation, draft, sendOk);
      && t1.next.replyMode && t1.replies == [AskDictation(sender)] && t1.email == None
      && t2.email == Some(Email(Some(sender), "Re: " + Show(c.lastSubject), draft))
      && !t2.next.replyMode
      && (t2.next.ticketMode ==> sendOk)
  {
    var input := Lower("Sí");
    assert input == "sí";
    assert Contains(input, ReplyYes[1]);
  }
}
