# JoulIAna assistant core in Dafny

A model of the three pieces of sequential logic in `main.py` of the JoulIAna IT
support assistant, with proofs about them:

- **The UIDL listing reader** (`obtener_lista_uids_con_mapa`). It turns the
  `"<number> <uid>"` lines a POP3 server sends in reply to `UIDL` (section 7 of
  RFC 1939) into a set of UIDs and a UID to message-number map. The model
  includes Python's `str.split(' ')` and `int()` on the number field.
- **The mailbox watcher cycle** (the body of the `while True` loop in
  `ciclo_correos`). The first listing is the baseline. Later listings are diffed
  against the known UIDs. Each new message is retrieved, and its cleaned sender
  and its subject go into the shared record. A notification is pushed, and
  finally the known set is replaced by the listing.
- **The chat controller** (`responder_chat`). It is a three-mode state machine
  over the shared `BotState` record: a ticket offer is open, a dictated reply is
  awaited, or the bot is idle.

Modules: `Wrappers` (Option), `Text` (the Python string operations used),
`Uidl` (the listing reader), `Shared` (the `BotState` class and its value copy
`Context`), `Chat` (the controller) and `Mailbox` (the watcher).

Each imperative part is a method proved against a function. `Uidl.ReadListing`
is proved against `Uidl.Numbers`. `Mailbox.Watcher.Cycle` is proved against
`Mailbox.CycleSpec`. `Chat.Respond` is proved against `Chat.Turn`. The
properties are lemmas about those functions.

Inputs from outside are parameters:
- A cycle gets a `Poll` (connection, login and `UIDL` failed, or the listing
  lines).
- It gets the messages `RETR` returns, by number. Any other number raises.
- It gets the set of UIDs whose Telegram notification raises.
- It gets whether `quit()` succeeds.
- A chat turn gets the operator's line, the language model's text for this
  turn's prompt, and whether the SMTP send succeeded.

Python's iteration order over the set of new UIDs is some enumeration, chosen by
`Mailbox.Enumerate` and returned by `Cycle`.

Five behaviours of the code that the model keeps as they are:
- There is no per-message isolation. Any exception in the loop over new
  messages ends the whole cycle before the known set is updated. The messages
  already notified stay unknown (`Mailbox.AbortedCycleForgetsAlerts`). A later
  cycle in which nothing raises and which lists such a UID with a non-zero
  number notifies it again (`Mailbox.AbortedAlertRepeats`).
- The shared record is written before the notification is pushed. A failed
  push aborts the cycle with the record naming a mail the operator was never
  told about (`Mailbox.PendingNamesUnalertedMail`).
- The known set is replaced by the listing (not a union), and only when the
  cycle saw new UIDs. A cycle without new UIDs keeps UIDs that were deleted from
  the server (`Mailbox.KnownUpdate`).
- The controller never consumes or clears the pending sender and subject
  (`Chat.TurnKeepsPending`).
- A failing `quit()` comes after every update. The cycle reports an error, but
  its changes stay.

## Model

| member | source | states |
|---|---|---|
| `Uidl.ClassifySplit` | main.py:157-162 | `Classify`, the loop body for one line: a line is skipped exactly when `split(' ')` gives fewer than two parts; otherwise reading raises exactly when `int()` rejects the first part, and the entry keys the second part to that number |
| `Uidl.ReadListing` | main.py:148-163 | the loop's UID set equals the key set of its map, the map is the fold of the lines, and the result is an error exactly when the fold raises |
| `Uidl.ListingFails` | main.py:156-160 | reading raises exactly when some line has two fields and a non-numeric first one |
| `Uidl.ListingKeys` | main.py:156-162 | the UIDs read are exactly those of the lines with at least two fields |
| `Uidl.ListingLastWins` | main.py:156-162 | a repeated UID maps to the number of its last well-formed line |
| `Text.Split` | main.py:157 | `split` on one character: at least one field, one field exactly when the separator is absent, no field holds it, and joining gives back the string |
| `Text.SplitJoin` | main.py:157 | splitting a join of separator-free fields gives back the fields |
| `Text.ParseIntDecimal` | main.py:159 | `int()` reads back every decimal numeral, signed or not |
| `Text.ParseIntDigits` | main.py:159 | `int()` of a run of ASCII digits is its decimal value |
| `Text.ParseIntNegated` | main.py:159 | `int()` of a minus sign followed by ASCII digits is the negated value |
| `Text.ParseIntRejectsSeparator` | main.py:159 | `int()` does not skip the ASCII separator U+001C, so a number field starting with it raises |
| `Text.Contains` | main.py:217 | the `in` test on strings holds exactly when the needle occurs at some index |
| `Text.ContainsAny` | main.py:290 | `any(x in s for x in words)` holds exactly when some keyword occurs |
| `Text.Lower` | main.py:212 | `lower()` keeps the length, lower-cases each character in place, leaves no character to lower, and fixes lower-case text |
| `Text.EraseConcat` | main.py:353 | `replace(">", "")` on a concatenation is the concatenation of the two results |
| `Text.Erase` | main.py:353 | `replace(">", "")` leaves no `>`, changes nothing without one, and keeps only characters of its input |
| `Mailbox.CleanSender` | main.py:352-355 | with a `<`, the clean address holds neither `<` nor `>`; without one, the sender is kept as it is |
| `Mailbox.CleanSenderSegment` | main.py:353 | the clean address is the text between the first `<` and the next `<` or the end, with every `>` removed |
| `Mailbox.CleanSenderDisplayForm` | main.py:352-353 | `name <addr>` is cleaned to `addr` |
| `Mailbox.CleanSenderExample` | main.py:352-355 | `Jane Doe <jane@x.com>` gives `jane@x.com`, and `jane@x.com` is unchanged |
| `Mailbox.Enumerate` | main.py:340 | the iteration order lists every new UID exactly once |
| `Mailbox.DeliverAll` | main.py:340-379 | the loop over new UIDs leaves the notifications, the shared sender and subject, and the abort flag of the reference fold `Deliveries` |
| `Mailbox.Watcher.constructor` | main.py:319-320 | the known set starts empty, and the watcher starts in its first round |
| `Mailbox.Watcher.Cycle` | main.py:322-387 | one cycle's new memory, shared sender and subject, notifications and completion are those of `CycleSpec`; the two chat flags are untouched |
| `Mailbox.FailedCycle` | main.py:323-329 | a cycle whose connection or listing fails changes nothing and notifies no one |
| `Mailbox.ReadFails` | main.py:325-329 | the listing step fails exactly when the connection fails or a line's number field does not parse |
| `Mailbox.InitialSync` | main.py:331-334 | the first listing becomes the known set and ends the first round, with no notification and the pending context untouched |
| `Mailbox.AlertsAreNew` | main.py:336-344 | no cycle, even one that aborts, notifies about a UID that was already known |
| `Mailbox.AlertsExactlyNew` | main.py:336-379 | with no exception, one notification per listed, unknown UID with a non-zero number, carrying that message's headers, and no two for one UID |
| `Mailbox.KnownUpdate` | main.py:336-381 | with no new UID the memory is unchanged; with new UIDs the known set becomes the listing exactly when no new message raised |
| `Mailbox.PendingIsLastProcessed` | main.py:352-359 | after a cycle without exceptions, the shared record holds the cleaned sender and the subject of the last retrieved new message |
| `Mailbox.DeliveriesSendFails` | main.py:340-379 | when the first failure of a pass is a notification push, the pass aborts with the shared record naming that mail, after sending the notifications of the UIDs before it |
| `Mailbox.PendingNamesUnalertedMail` | main.py:352-384 | a cycle whose push fails ends with the shared record naming the mail that was not notified, that UID absent from the notifications, and the known set unchanged |
| `Mailbox.DeliveriesRetrFails` | main.py:344-359 | when the first failure of a pass is a `RETR` that returns no message, the pass aborts there with exactly the result of the pass over the UIDs before it |
| `Mailbox.PendingAfterRetrFails` | main.py:336-384 | a cycle whose `RETR` fails ends with the shared record naming the last live mail retrieved before the failure, and the known set unchanged |
| `Mailbox.PendingKeptAfterRetrFails` | main.py:336-384 | a cycle whose `RETR` fails before any live mail was retrieved notifies no one and leaves the shared record and the known set as they were |
| `Mailbox.QuietCycleKeepsPending` | main.py:336-381 | a cycle in which no new UID has a non-zero number notifies no one and leaves the shared record as it was |
| `Mailbox.DeliveriesAbort` | main.py:340-384 | the loop ends early exactly when a live new UID cannot be retrieved or its notification fails |
| `Mailbox.NoRepeatAfterCleanCycle` | main.py:336-381 | after a cycle with no exception, the next cycle never notifies again about a UID already notified |
| `Mailbox.AbortedCycleForgetsAlerts` | main.py:340-385 | a cycle that raises keeps the old memory, so the UIDs it notified about are still unknown |
| `Mailbox.AbortedAlertRepeats` | main.py:336-385 | a UID notified by a cycle that raised is notified again by the next cycle, when that cycle raises nothing and lists the UID with a non-zero number |
| `Shared.BotState.constructor` | main.py:82-88 | the record starts with nothing pending and both modes off |
| `Chat.ComposeReply` | main.py:182-185 | the reply goes to the pending sender with subject `Re: ` plus the original subject, and the drafted body |
| `Chat.Respond` | main.py:204-306 | one turn on the shared record makes exactly the transition, replies and mail of `Turn` |
| `Chat.TurnKeepsExclusive` | main.py:216-306 | when the two modes are not both on before a turn, they are not both on after it |
| `Chat.TurnKeepsPending` | main.py:204-306 | a turn never changes the pending sender or subject |
| `Chat.TicketTurn` | main.py:216-234 | an open ticket offer closes after one turn whatever the input; reply mode and the pending fields are kept; a confirmation keyword gives the ticket card, anything else gives "no ticket" |
| `Chat.ReplyTurn` | main.py:237-287 | a dictation turn mails the draft to the pending sender with subject `Re: ` plus the pending subject and ends reply mode; a ticket offer opens exactly when the send succeeded and the lower-cased body names an incident keyword |
| `Chat.IdleTurn` | main.py:290-306 | from idle, reply mode starts exactly on an affirmative keyword with a non-empty pending sender; the affirmative test comes before the dismissal one; every other line gets the acknowledgement or the language model's answer |
| `Chat.ModesLastOneTurn` | main.py:216-292 | neither waiting mode outlives the next turn; reply mode is entered only from idle, and ticket mode only after a successful send |
| `Chat.AffirmativeWinsOverDismissal` | main.py:290-297 | "No, lo siento" holds "no" but also "si", and so starts a reply |
| `Chat.ReplyRoundTrip` | main.py:237-293 | from idle with a sender pending, "Sí" asks for the dictation, and the next line mails the draft as a reply to that sender and ends reply mode |

## Left out

- Telegram, Vertex AI, SMTP and the POP3 socket are not modelled. They are network calls; their results are parameters.
- The language model's summary text is not modelled. A notification carries only the UID, the raw sender and the subject.
- The prompt texts, the text of the replies and notifications, and the 1500-character body truncation are not modelled. They are template content.
- The daemon thread and the unsynchronised sharing of `BotState` between the two loops are not modelled. The watcher cycle and the chat turn are separate sequential methods on one shared object.
- `time.sleep`, the rotating logger, and the environment checks and `sys.exit` at start-up are not modelled. They are timing, I/O and bootstrap.
- `decodificar_texto`, `obtener_asunto_y_remitente` and `obtener_cuerpo` are not modelled. They depend on Python's codecs and the `email` package. A retrieved message is given by its decoded subject and its raw `From` header.
- The message body is not modelled. It only feeds the summary prompt.
- `item.decode()` on a listing line is not modelled, so listing lines are given as already decoded strings. An undecodable line would raise and abort the cycle as well.
- Text.ParseInt: the white space it skips is CPython's (ASCII space and `\t` to `\r`, plus the non-ASCII characters `str.isspace()` accepts). Python's `int()` also accepts non-ASCII Unicode decimal digits, and it rejects numerals longer than its digit limit (4300 by default). Only ASCII digits are modelled, and there is no length limit.
- Text.Lower: only ASCII and the Latin-1 capitals U+00C0 to U+00DE are lower-cased. Other Unicode case mappings of `str.lower()` are not modelled.
- Chat.Respond: an exception from the chat transport inside a turn is not modelled. For example, a failing `reply_to` after the mail was sent would leave reply mode on. The model assumes every chat message of a turn is delivered.
- The `From` header of the reply (the configured account) is not modelled.
