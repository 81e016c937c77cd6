/**
 * The mailbox watcher, one pass of the loop in `ciclo_correos`: connect, read
 * the `UIDL` listing, and either take the first listing as the baseline or
 * notify the operator of every UID not seen before, recording the sender and
 * subject of each new mail in the shared record.
 */
module Mailbox {
  import opened Wrappers
  import opened Text
  import opened Uidl
  import opened Shared

  /** What connecting, logging in and asking for `UIDL` gives: a failure, or the listing lines. */
  datatype Poll = Unreachable | Listing(lines: seq<string>)

  /** The subject and the raw `From` header of a retrieved message. */
  datatype Mail = Mail(subject: string, sender: string)

  /** A push notification: which UID, with its raw sender and its subject. */
  datatype Alert = Alert(uid: string, sender: string, subject: string)

  // ----- sender clean-up ---------------------------------------------------

  /**
   * The address kept for replying: with a `<`, the field after the first `<`
   * (up to the next `<`) without any `>`; without one, the sender as it is.
   */
  function CleanSender(sender: string): (clean: string)
    ensures '<' in sender ==> '<' !in clean && '>' !in clean
    ensures '<' !in sender ==> clean == sender
  {
    if '<' in sender then
      var parts := Split(sender, '<');
      assert '<' !in parts[1];
      Erase(parts[1], '>')
    else sender
  }

  /** The cleaned address is the text between the first `<` and the next `<` or the end, with `>` removed. */
  lemma CleanSenderSegment(sender: string)
    requires '<' in sender
    ensures CleanSender(sender) == Erase(Before(sender[IndexOf(sender, '<') + 1..], '<'), '>')
  {
    SplitFields(sender, '<');
  }

  /** A sender with exactly one `<` is cleaned to what follows it, without `>`. */
  lemma CleanSenderSingle(sender: string, i: nat)
    requires i < |sender| && sender[i] == '<' && '<' !in sender[..i] && '<' !in sender[i + 1..]
    ensures CleanSender(sender) == Erase(sender[i + 1..], '>')
  {
    IndexOfUnique(sender, '<', i);
    CleanSenderSegment(sender);
  }

  /** Erasing `>` from an address followed by the closing `>` gives the address back. */
  lemma EraseClosing(addr: string)
    requires '>' !in addr
    ensures Erase(addr + ">", '>') == addr
  {
    EraseConcat(addr, ">", '>');
    assert ">"[1..] == [];
  }

  /**
   * A sender of the form `name <addr>` is cleaned to `addr`, when neither
   * part holds a `<` and the address holds no `>`.
   */
  lemma CleanSenderDisplayForm(name: string, addr: string)
    requires '<' !in name && '<' !in addr && '>' !in addr
    ensures CleanSender(name + "<" + addr + ">") == addr
  {
    var s := name + "<" + addr + ">";
    var i := |name|;
    assert s[i] == '<' && s[..i] == name;
    assert s[i + 1..] == addr + ">";
    assert '<' !in s[i + 1..];
    CleanSenderSingle(s, i);
    EraseClosing(addr);
  }

  /**
   * "Jane Doe " + "<jane@x.com>" gives "jane@x.com", and "jane@x.com" stays as
   * it is. The two parts are parameters fixed by the precondition so that the
   * verifier reasons about `CleanSender` through the lemmas above instead of
   * evaluating it on a literal.
   */
  lemma CleanSenderExample(name: string, addr: string)
    requires name == "Jane Doe " && addr == "jane@x.com"
    ensures CleanSender(name + "<" + addr + ">") == addr
    ensures CleanSender(addr) == addr
  {
    CleanSenderDisplayForm(name, addr);
  }

  // ----- one new message ---------------------------------------------------

  /** The sender and subject the watcher last wrote into the shared record. */
  datatype Pending = Pending(sender: Option<string>, subject: Option<string>)

  /** The state of one pass over the new UIDs. */
  datatype Progress = Progress(alerts: seq<Alert>, pending: Pending, aborted: bool)

  /** A UID whose listed number is non-zero (`if msg_num:`) is retrieved; one numbered 0 is skipped. */
  predicate Live(uid: string, numbers: map<string, int>) {
    uid in numbers && numbers[uid] != 0
  }

  /** Retrieving the message raises, or pushing its notification raises. */
  predicate Fails(uid: string, numbers: map<string, int>, mailbox: map<int, Mail>, unsent: set<string>) {
    Live(uid, numbers) && (numbers[uid] !in mailbox || uid in unsent)
  }

  /**
   * One iteration of `for uid in nuevos`. `mailbox` holds the messages that
   * `RETR` returns, by number (any other number raises); `unsent` the UIDs
   * whose notification the chat transport fails to send (it raises after the
   * shared record was written).
   */
  function Deliver(p: Progress, uid: string, numbers: map<string, int>, mailbox: map<int, Mail>, unsent: set<string>): Progress
  {
    if !Live(uid, numbers) then p
    else if numbers[uid] !in mailbox then p.(aborted := true)
    else
      var mail := mailbox[numbers[uid]];
      var p' := p.(pending := Pending(Some(CleanSender(mail.sender)), Some(mail.subject)));
      if uid in unsent then p'.(aborted := true)
      else p'.(alerts := p.alerts + [Alert(uid, mail.sender, mail.subject)])
  }

  /** The loop over the new UIDs in iteration order; the first exception ends it. */
  function Deliveries(order: seq<string>, p: Progress, numbers: map<string, int>, mailbox: map<int, Mail>, unsent: set<string>): Progress
  {
    if order == [] || p.aborted then p
    else Deliveries(order[1..], Deliver(p, order[0], numbers, mailbox, unsent), numbers, mailbox, unsent)
  }

  /** The notification one iteration adds when nothing raises, as a sequence of zero or one alerts. */
  function Step(uid: string, numbers: map<string, int>, mailbox: map<int, Mail>): seq<Alert>
  {
    if Live(uid, numbers) && numbers[uid] in mailbox
    then [Alert(uid, mailbox[numbers[uid]].sender, mailbox[numbers[uid]].subject)] else []
  }

  /** Reference: the notifications of a pass in which nothing raises, one per retrievable live UID, in order. */
  function Expected(order: seq<string>, numbers: map<string, int>, mailbox: map<int, Mail>): seq<Alert>
  {
    if order == [] then [] else Step(order[0], numbers, mailbox) + Expected(order[1..], numbers, mailbox)
  }

  /** The UIDs that a sequence of notifications is about. */
  function AlertUids(alerts: seq<Alert>): set<string> {
    set a | a in alerts :: a.uid
  }

  /** No two notifications are about the same UID. */
  ghost predicate DistinctUids(alerts: seq<Alert>) {
    forall j, k :: 0 <= j < k < |alerts| ==> alerts[j].uid != alerts[k].uid
  }

  /** `order` lists every element of `s` once and nothing else. */
  ghost predicate Enumerates(order: seq<string>, s: set<string>) {
    && (forall j, k :: 0 <= j < k < |order| ==> order[j] != order[k])
    && (forall u :: u in order <==> u in s)
  }

  /** The reference notifications are one per live retrievable UID of the order, with its headers. */
  lemma {:induction false} ExpectedAbout(order: seq<string>, numbers: map<string, int>, mailbox: map<int, Mail>)
    ensures forall u :: u in AlertUids(Expected(order, numbers, mailbox)) <==>
      u in order && Live(u, numbers) && numbers[u] in mailbox
    ensures forall a :: a in Expected(order, numbers, mailbox) ==>
      Live(a.uid, numbers) && numbers[a.uid] in mailbox &&
      a == Alert(a.uid, mailbox[numbers[a.uid]].sender, mailbox[numbers[a.uid]].subject)
  {
    if order != [] {
      ExpectedAbout(order[1..], numbers, mailbox);
      assert forall u :: u in order <==> u == order[0] || u in order[1..];
    }
  }

  /** Without repeats in the order there are no repeated notifications. */
  lemma {:induction false} ExpectedDistinct(order: seq<string>, numbers: map<string, int>, mailbox: map<int, Mail>)
    requires forall j, k :: 0 <= j < k < |order| ==> order[j] != order[k]
    ensures DistinctUids(Expected(order, numbers, mailbox))
  {
    if order != [] {
      ExpectedDistinct(order[1..], numbers, mailbox);
      ExpectedAbout(order[1..], numbers, mailbox);
      assert order[0] !in order[1..];
      var rest := Expected(order[1..], numbers, mailbox);
      assert forall a :: a in rest ==> a.uid != order[0];
    }
  }

  /** The pass aborts exactly when some live UID of the order fails. */
  lemma {:induction false} DeliveriesAbort(order: seq<string>, p: Progress, numbers: map<string, int>, mailbox: map<int, Mail>, unsent: set<string>)
    requires !p.aborted
    ensures Deliveries(order, p, numbers, mailbox, unsent).aborted <==>
      exists i :: 0 <= i < |order| && Fails(order[i], numbers, mailbox, unsent)
  {
    if order != [] {
      var p' := Deliver(p, order[0], numbers, mailbox, unsent);
      if !p'.aborted {
        DeliveriesAbort(order[1..], p', numbers, mailbox, unsent);
        assert forall i :: 1 <= i < |order| ==> order[i] == order[1..][i - 1];
      }
    }
  }

  /** An iteration that does not raise adds the reference step and does not abort. */
  lemma DeliverClean(p: Progress, uid: string, numbers: map<string, int>, mailbox: map<int, Mail>, unsent: set<string>)
    requires !p.aborted && !Fails(uid, numbers, mailbox, unsent)
    ensures var p' := Deliver(p, uid, numbers, mailbox, unsent);
      !p'.aborted && p'.alerts == p.alerts + Step(uid, numbers, mailbox)
  {
  }

  /** When nothing fails, the pass sends exactly the reference notifications. */
  lemma {:induction false} DeliveriesClean(order: seq<string>, p: Progress, numbers: map<string, int>, mailbox: map<int, Mail>, unsent: set<string>)
    requires !p.aborted
    requires forall i :: 0 <= i < |order| ==> !Fails(order[i], numbers, mailbox, unsent)
    ensures Deliveries(order, p, numbers, mailbox, unsent).alerts == p.alerts + Expected(order, numbers, mailbox)
  {
    if order != [] {
      var p' := Deliver(p, order[0], numbers, mailbox, unsent);
      DeliverClean(p, order[0], numbers, mailbox, unsent);
      var tail := order[1..];
      forall i | 0 <= i < |tail|
        ensures !Fails(tail[i], numbers, mailbox, unsent)
      {
        assert tail[i] == order[i + 1];
      }
      DeliveriesClean(tail, p', numbers, mailbox, unsent);
      var step := Step(order[0], numbers, mailbox);
      assert Deliveries(order, p, numbers, mailbox, unsent) == Deliveries(tail, p', numbers, mailbox, unsent);
      assert Expected(order, numbers, mailbox) == step + Expected(tail, numbers, mailbox);
      assert (p.alerts + step) + Expected(tail, numbers, mailbox) == p.alerts + (step + Expected(tail, numbers, mailbox));
    }
  }

  /** One iteration adds at most one notification, about its own UID when that UID is live. */
  lemma DeliverGrows(p: Progress, uid: string, numbers: map<string, int>, mailbox: map<int, Mail>, unsent: set<string>)
    ensures var p' := Deliver(p, uid, numbers, mailbox, unsent);
      && (p'.alerts == p.alerts || (p'.alerts == p.alerts + [p'.alerts[|p.alerts|]] && p'.alerts[|p.alerts|].uid == uid && Live(uid, numbers)))
  {
  }

  /** Whatever fails, every notification added is about a live UID of the order. */
  lemma {:induction false} DeliveriesFromOrder(order: seq<string>, p: Progress, numbers: map<string, int>, mailbox: map<int, Mail>, unsent: set<string>)
    ensures var q := Deliveries(order, p, numbers, mailbox, unsent);
      && |p.alerts| <= |q.alerts| && q.alerts[..|p.alerts|] == p.alerts
      && forall k :: |p.alerts| <= k < |q.alerts| ==> q.alerts[k].uid in order && Live(q.alerts[k].uid, numbers)
  {
    if order != [] && !p.aborted {
      var p' := Deliver(p, order[0], numbers, mailbox, unsent);
      DeliverGrows(p, order[0], numbers, mailbox, unsent);
      DeliveriesFromOrder(order[1..], p', numbers, mailbox, unsent);
      var q := Deliveries(order[1..], p', numbers, mailbox, unsent);
      assert q == Deliveries(order, p, numbers, mailbox, unsent);
      assert q.alerts[..|p'.alerts|][..|p.alerts|] == q.alerts[..|p.alerts|];
      forall k | |p.alerts| <= k < |q.alerts|
        ensures q.alerts[k].uid in order && Live(q.alerts[k].uid, numbers)
      {
        if k >= |p'.alerts| {
          assert q.alerts[k].uid in order[1..];
        } else {
          assert q.alerts[k] == p'.alerts[k];
        }
      }
    }
  }

  /** A pass that does not abort leaves in the shared record the last live UID's cleaned sender and subject. */
  lemma {:induction false} DeliveriesPendingLast(order: seq<string>, p: Progress, numbers: map<string, int>, mailbox: map<int, Mail>, unsent: set<string>, k: nat)
    requires k < |order| && Live(order[k], numbers)
    requires forall j :: k < j < |order| ==> !Live(order[j], numbers)
    requires !Deliveries(order, p, numbers, mailbox, unsent).aborted
    ensures numbers[order[k]] in mailbox
    ensures var mail := mailbox[numbers[order[k]]];
      Deliveries(order, p, numbers, mailbox, unsent).pending == Pending(Some(CleanSender(mail.sender)), Some(mail.subject))
  {
    var p' := Deliver(p, order[0], numbers, mailbox, unsent);
    if k == 0 {
      DeliveriesQuiet(order[1..], p', numbers, mailbox, unsent);
    } else {
      DeliveriesPendingLast(order[1..], p', numbers, mailbox, unsent, k - 1);
    }
  }

  /** A pass over UIDs none of which is live changes nothing. */
  lemma {:induction false} DeliveriesQuiet(order: seq<string>, p: Progress, numbers: map<string, int>, mailbox: map<int, Mail>, unsent: set<string>)
    requires forall j :: 0 <= j < |order| ==> !Live(order[j], numbers)
    ensures Deliveries(order, p, numbers, mailbox, unsent) == p
  {
    if order != [] && !p.aborted {
      assert !Live(order[0], numbers);
      DeliveriesQuiet(order[1..], p, numbers, mailbox, unsent);
    }
  }
  /**
   * A pass whose first failure is a notification that cannot be sent aborts
   * there with the shared record naming that mail, having sent the reference
   * notifications of the UIDs before it.
   */
  lemma {:induction false} DeliveriesSendFails(order: seq<string>, p: Progress, numbers: map<string, int>, mailbox: map<int, Mail>, unsent: set<string>, f: nat)
    requires !p.aborted
    requires f < |order| && Live(order[f], numbers) && numbers[order[f]] in mailbox && order[f] in unsent
    requires forall j :: 0 <= j < f ==> !Fails(order[j], numbers, mailbox, unsent)
    ensures var q := Deliveries(order, p, numbers, mailbox, unsent);
      var mail := mailbox[numbers[order[f]]];
      && q.aborted
      && q.pending == Pending(Some(CleanSender(mail.sender)), Some(mail.subject))
      && q.alerts == p.alerts + Expected(order[..f], numbers, mailbox)
  {
    var p' := Deliver(p, order[0], numbers, mailbox, unsent);
    if f == 0 {
      assert order[..0] == [];
      assert p'.alerts == p.alerts;
    } else {
      DeliverClean(p, order[0], numbers, mailbox, unsent);
      var tail := order[1..];
      forall j | 0 <= j < f - 1
        ensures !Fails(tail[j], numbers, mailbox, unsent)
      {
        assert tail[j] == order[j + 1];
      }
      DeliveriesSendFails(tail, p', numbers, mailbox, unsent, f - 1);
      var step := Step(order[0], numbers, mailbox);
      assert order[..f][0] == order[0] && order[..f][1..] == tail[..f - 1];
      assert Expected(order[..f], numbers, mailbox) == step + Expected(tail[..f - 1], numbers, mailbox);
      assert (p.alerts + step) + Expected(tail[..f - 1], numbers, mailbox)
        == p.alerts + (step + Expected(tail[..f - 1], numbers, mailbox));
    }
  }
  /**
   * A pass whose first failure is a message that `RETR` cannot return aborts
   * there, before the shared record is written: it ends as the pass over the
   * UIDs before it, flagged as aborted.
   */
  lemma {:induction false} DeliveriesRetrFails(order: seq<string>, p: Progress, numbers: map<string, int>, mailbox: map<int, Mail>, unsent: set<string>, f: nat)
    requires !p.aborted
    requires f < |order| && Live(order[f], numbers) && numbers[order[f]] !in mailbox
    requires forall j :: 0 <= j < f ==> !Fails(order[j], numbers, mailbox, unsent)
    ensures Deliveries(order, p, numbers, mailbox, unsent) == Deliveries(order[..f], p, numbers, mailbox, unsent).(aborted := true)
  {
    var p' := Deliver(p, order[0], numbers, mailbox, unsent);
    if f == 0 {
      assert order[..0] == [];
    } else {
      DeliverClean(p, order[0], numbers, mailbox, unsent);
      var tail := order[1..];
      forall j | 0 <= j < f - 1
        ensures !Fails(tail[j], numbers, mailbox, unsent)
      {
        assert tail[j] == order[j + 1];
      }
      DeliveriesRetrFails(tail, p', numbers, mailbox, unsent, f - 1);
      assert order[..f][0] == order[0] && order[..f][1..] == tail[..f - 1];
    }
  }



  // ----- one cycle -----------------------------------------------------------

  /** The watcher's own memory: `uids_conocidos` and `primera_vuelta`. */
  datatype Memory = Memory(known: set<string>, firstRound: bool)

  /** What a cycle leaves behind; `completed` is false when an exception reached the loop's handler. */
  datatype CycleResult = CycleResult(memory: Memory, pending: Pending, alerts: seq<Alert>, completed: bool)

  /** The UID to number map a poll yields, or `None` when connecting, listing or reading the listing raises. */
  function Read(poll: Poll): Option<map<string, int>> {
    if poll.Unreachable? then None else Numbers(poll.lines)
  }

  /** The UIDs the cycle iterates over: those listed now and not known, outside the first round. */
  function NewUids(m: Memory, read: Option<map<string, int>>): set<string> {
    if read.None? || m.firstRound then {} else read.value.Keys - m.known
  }

  /**
   * One pass of the `while True` body, given what reading the listing gave
   * (see `Read`). A failure to connect, log in, list or read the listing
   * aborts before anything changes. The first listing
   * becomes the known set without notifications. Later, the new UIDs are
   * processed in `order`, and the known set is replaced by the listing only
   * when there were new UIDs and none of them raised. `quitOk` is whether
   * closing the session succeeds; it fails after all updates.
   */
  function CycleSpec(m: Memory, pending: Pending, read: Option<map<string, int>>, order: seq<string>,
                     mailbox: map<int, Mail>, unsent: set<string>, quitOk: bool): CycleResult
  {
      match read
      case None => CycleResult(m, pending, [], false)
      case Some(numbers) =>
        if m.firstRound then CycleResult(Memory(numbers.Keys, false), pending, [], quitOk)
        else if numbers.Keys - m.known == {} then CycleResult(m, pending, [], quitOk)
        else
          var q := Deliveries(order, Progress([], pending, false), numbers, mailbox, unsent);
          if q.aborted then CycleResult(m, q.pending, q.alerts, false)
          else CycleResult(Memory(numbers.Keys, false), q.pending, q.alerts, quitOk)
  }

  /** A cycle that cannot connect or read the listing changes nothing and notifies no one. */
  lemma FailedCycle(m: Memory, pending: Pending, order: seq<string>, mailbox: map<int, Mail>, unsent: set<string>, quitOk: bool)
    ensures CycleSpec(m, pending, None, order, mailbox, unsent, quitOk) == CycleResult(m, pending, [], false)
  {
  }

  /** Reading fails when the connection fails or a listing line has a non-numeric number field. */
  lemma ReadFails(poll: Poll)
    ensures Read(poll).None? <==>
      poll.Unreachable? || exists i :: 0 <= i < |poll.lines| && Classify(poll.lines[i]).BadNumber?
  {
    if poll.Listing? {
      ListingFails(poll.lines);
    }
  }

  /** The first successful listing becomes the known set, silently; the shared record is left alone. */
  lemma InitialSync(m: Memory, pending: Pending, numbers: map<string, int>, order: seq<string>, mailbox: map<int, Mail>, unsent: set<string>, quitOk: bool)
    requires m.firstRound
    ensures var r := CycleSpec(m, pending, Some(numbers), order, mailbox, unsent, quitOk);
      && r.memory == Memory(numbers.Keys, false)
      && r.alerts == [] && r.pending == pending && r.completed == quitOk
  {
  }

  /** No cycle ever notifies about a UID it already knew, even one that aborts. */
  lemma AlertsAreNew(m: Memory, pending: Pending, read: Option<map<string, int>>, order: seq<string>, mailbox: map<int, Mail>, unsent: set<string>, quitOk: bool)
    requires Enumerates(order, NewUids(m, read))
    ensures forall a :: a in CycleSpec(m, pending, read, order, mailbox, unsent, quitOk).alerts ==> a.uid !in m.known
  {
    if read.Some? && !m.firstRound {
      var start := Progress([], pending, false);
      DeliveriesFromOrder(order, start, read.value, mailbox, unsent);
      var q := Deliveries(order, start, read.value, mailbox, unsent);
      assert forall a :: a in q.alerts ==> a.uid in order;
    }
  }

  /**
   * When no new message raises, a later cycle notifies once for each UID in
   * the listing that is not known and whose number is non-zero, with that
   * message's headers, and for nothing else.
   */
  lemma AlertsExactlyNew(m: Memory, pending: Pending, numbers: map<string, int>, order: seq<string>, mailbox: map<int, Mail>, unsent: set<string>, quitOk: bool)
    requires !m.firstRound
    requires Enumerates(order, NewUids(m, Some(numbers)))
    requires forall i :: 0 <= i < |order| ==> !Fails(order[i], numbers, mailbox, unsent)
    ensures var r := CycleSpec(m, pending, Some(numbers), order, mailbox, unsent, quitOk);
      && DistinctUids(r.alerts)
      && (forall u :: u in AlertUids(r.alerts) <==> u in numbers && u !in m.known && numbers[u] != 0)
      && (forall a :: a in r.alerts ==>
            (numbers[a.uid] in mailbox &&
             a == Alert(a.uid, mailbox[numbers[a.uid]].sender, mailbox[numbers[a.uid]].subject)))
  {
    var start := Progress([], pending, false);
    DeliveriesAbort(order, start, numbers, mailbox, unsent);
    DeliveriesClean(order, start, numbers, mailbox, unsent);
    ExpectedAbout(order, numbers, mailbox);
    ExpectedDistinct(order, numbers, mailbox);
    var e := Expected(order, numbers, mailbox);
    assert [] + e == e;
    forall u | u in order && Live(u, numbers) ensures numbers[u] in mailbox {
      var i :| 0 <= i < |order| && order[i] == u;
      assert !Fails(order[i], numbers, mailbox, unsent);
    }
  }

  /**
   * The known set after a later cycle: with no new UID it is unchanged (so a
   * UID deleted from the server stays known); with new UIDs it becomes the
   * listing exactly when none of them raised.
   */
  lemma KnownUpdate(m: Memory, pending: Pending, numbers: map<string, int>, order: seq<string>, mailbox: map<int, Mail>, unsent: set<string>, quitOk: bool)
    requires !m.firstRound
    ensures var r := CycleSpec(m, pending, Some(numbers), order, mailbox, unsent, quitOk);
      && (numbers.Keys <= m.known ==> r.memory == m && r.alerts == [] && r.completed == quitOk)
      && (!(numbers.Keys <= m.known) ==>
            (r.memory == Memory(numbers.Keys, false) <==>
               forall i :: 0 <= i < |order| ==> !Fails(order[i], numbers, mailbox, unsent)))
  {
    DeliveriesAbort(order, Progress([], pending, false), numbers, mailbox, unsent);
    if !(numbers.Keys <= m.known) {
      var u :| u in numbers.Keys && u !in m.known;
      assert u in numbers.Keys - m.known;
      assert numbers.Keys != m.known;
    }
  }

  /**
   * After a cycle in which no new message raised, the shared record holds the
   * cleaned sender and the subject of the last live UID processed.
   */
  lemma PendingIsLastProcessed(m: Memory, pending: Pending, numbers: map<string, int>, order: seq<string>, mailbox: map<int, Mail>, unsent: set<string>, quitOk: bool, k: nat)
    requires !m.firstRound
    requires Enumerates(order, NewUids(m, Some(numbers)))
    requires forall i :: 0 <= i < |order| ==> !Fails(order[i], numbers, mailbox, unsent)
    requires k < |order| && Live(order[k], numbers)
    requires forall j :: k < j < |order| ==> !Live(order[j], numbers)
    ensures numbers[order[k]] in mailbox
    ensures CycleSpec(m, pending, Some(numbers), order, mailbox, unsent, quitOk).pending ==
      Pending(Some(CleanSender(mailbox[numbers[order[k]]].sender)), Some(mailbox[numbers[order[k]]].subject))
  {
    var start := Progress([], pending, false);
    DeliveriesAbort(order, start, numbers, mailbox, unsent);
    DeliveriesPendingLast(order, start, numbers, mailbox, unsent, k);
    assert order[k] in NewUids(m, Some(numbers));
  }
  /**
   * The record is written before the notification is pushed: when pushing
   * fails, the cycle aborts with the shared record naming a mail the operator
   * was never notified about, and the known set stays as it was.
   */
  lemma PendingNamesUnalertedMail(m: Memory, pending: Pending, numbers: map<string, int>, order: seq<string>, mailbox: map<int, Mail>, unsent: set<string>, quitOk: bool, f: nat)
    requires !m.firstRound
    requires Enumerates(order, NewUids(m, Some(numbers)))
    requires f < |order| && Live(order[f], numbers) && numbers[order[f]] in mailbox && order[f] in unsent
    requires forall j :: 0 <= j < f ==> !Fails(order[j], numbers, mailbox, unsent)
    ensures var r := CycleSpec(m, pending, Some(numbers), order, mailbox, unsent, quitOk);
      var mail := mailbox[numbers[order[f]]];
      && r.pending == Pending(Some(CleanSender(mail.sender)), Some(mail.subject))
      && order[f] !in AlertUids(r.alerts)
      && !r.completed && r.memory == m
  {
    var start := Progress([], pending, false);
    assert order[f] in NewUids(m, Some(numbers));
    DeliveriesSendFails(order, start, numbers, mailbox, unsent, f);
    var prefix := order[..f];
    ExpectedAbout(prefix, numbers, mailbox);
    assert [] + Expected(prefix, numbers, mailbox) == Expected(prefix, numbers, mailbox);
    assert order[f] !in prefix;
  }

  /** A cycle in which no new UID is live notifies no one and leaves the shared record as it was. */
  lemma QuietCycleKeepsPending(m: Memory, pending: Pending, numbers: map<string, int>, order: seq<string>, mailbox: map<int, Mail>, unsent: set<string>, quitOk: bool)
    requires !m.firstRound
    requires forall j :: 0 <= j < |order| ==> !Live(order[j], numbers)
    ensures var r := CycleSpec(m, pending, Some(numbers), order, mailbox, unsent, quitOk);
      r.pending == pending && r.alerts == [] && r.completed == quitOk
  {
    DeliveriesQuiet(order, Progress([], pending, false), numbers, mailbox, unsent);
  }
  /**
   * `RETR` raises before the shared record is written: when it fails, the
   * cycle aborts with the record naming the last live UID retrieved before
   * the failure, and the known set stays as it was.
   */
  lemma PendingAfterRetrFails(m: Memory, pending: Pending, numbers: map<string, int>, order: seq<string>, mailbox: map<int, Mail>, unsent: set<string>, quitOk: bool, f: nat, k: nat)
    requires !m.firstRound
    requires Enumerates(order, NewUids(m, Some(numbers)))
    requires f < |order| && Live(order[f], numbers) && numbers[order[f]] !in mailbox
    requires forall j :: 0 <= j < f ==> !Fails(order[j], numbers, mailbox, unsent)
    requires k < f && Live(order[k], numbers) && forall j :: k < j < f ==> !Live(order[j], numbers)
    ensures numbers[order[k]] in mailbox
    ensures var r := CycleSpec(m, pending, Some(numbers), order, mailbox, unsent, quitOk);
      var mail := mailbox[numbers[order[k]]];
      && r.pending == Pending(Some(CleanSender(mail.sender)), Some(mail.subject))
      && !r.completed && r.memory == m
  {
    var start := Progress([], pending, false);
    assert order[f] in NewUids(m, Some(numbers));
    DeliveriesRetrFails(order, start, numbers, mailbox, unsent, f);
    var prefix := order[..f];
    DeliveriesAbort(prefix, start, numbers, mailbox, unsent);
    DeliveriesPendingLast(prefix, start, numbers, mailbox, unsent, k);
  }

  /** When `RETR` fails before any live UID was retrieved, the aborted cycle leaves the shared record as it was. */
  lemma PendingKeptAfterRetrFails(m: Memory, pending: Pending, numbers: map<string, int>, order: seq<string>, mailbox: map<int, Mail>, unsent: set<string>, quitOk: bool, f: nat)
    requires !m.firstRound
    requires Enumerates(order, NewUids(m, Some(numbers)))
    requires f < |order| && Live(order[f], numbers) && numbers[order[f]] !in mailbox
    requires forall j :: 0 <= j < f ==> !Live(order[j], numbers)
    ensures var r := CycleSpec(m, pending, Some(numbers), order, mailbox, unsent, quitOk);
      r.pending == pending && r.alerts == [] && !r.completed && r.memory == m
  {
    var start := Progress([], pending, false);
    assert order[f] in NewUids(m, Some(numbers));
    DeliveriesRetrFails(order, start, numbers, mailbox, unsent, f);
    DeliveriesQuiet(order[..f], start, numbers, mailbox, unsent);
  }



  /**
   * Across two cycles: when the first raised nothing, the second never
   * notifies again about a UID the first notified about.
   */
  lemma NoRepeatAfterCleanCycle(m: Memory, pending: Pending, read: Option<map<string, int>>, order: seq<string>, mailbox: map<int, Mail>, unsent: set<string>, quitOk: bool,
                                read2: Option<map<string, int>>, order2: seq<string>, mailbox2: map<int, Mail>, unsent2: set<string>, quitOk2: bool)
    requires Enumerates(order, NewUids(m, read))
    requires read.Some? ==> forall i :: 0 <= i < |order| ==> !Fails(order[i], read.value, mailbox, unsent)
    requires Enumerates(order2, NewUids(CycleSpec(m, pending, read, order, mailbox, unsent, quitOk).memory, read2))
    ensures var r := CycleSpec(m, pending, read, order, mailbox, unsent, quitOk);
      var r2 := CycleSpec(r.memory, r.pending, read2, order2, mailbox2, unsent2, quitOk2);
      AlertUids(r.alerts) !! AlertUids(r2.alerts)
  {
    var r := CycleSpec(m, pending, read, order, mailbox, unsent, quitOk);
    AlertsAreNew(r.memory, r.pending, read2, order2, mailbox2, unsent2, quitOk2);
    if read.Some? && !m.firstRound && !(read.value.Keys <= m.known) {
      var numbers := read.value;
      var start := Progress([], pending, false);
      DeliveriesAbort(order, start, numbers, mailbox, unsent);
      DeliveriesFromOrder(order, start, numbers, mailbox, unsent);
      assert forall a :: a in r.alerts ==> a.uid in order && a.uid in numbers;
      assert forall a :: a in r.alerts ==> a.uid in r.memory.known;
    }
  }

  /**
   * There is no isolation between messages: a cycle that raises keeps the old
   * known set, so each UID it already notified about is still unknown.
   */
  lemma AbortedCycleForgetsAlerts(m: Memory, pending: Pending, numbers: map<string, int>, order: seq<string>, mailbox: map<int, Mail>, unsent: set<string>, quitOk: bool)
    requires !m.firstRound
    requires Enumerates(order, NewUids(m, Some(numbers)))
    requires exists i :: 0 <= i < |order| && Fails(order[i], numbers, mailbox, unsent)
    ensures var r := CycleSpec(m, pending, Some(numbers), order, mailbox, unsent, quitOk);
      && r.memory == m && !r.completed
      && forall a :: a in r.alerts ==> a.uid !in r.memory.known
  {
    var i :| 0 <= i < |order| && Fails(order[i], numbers, mailbox, unsent);
    assert order[i] in numbers.Keys - m.known;
    DeliveriesAbort(order, Progress([], pending, false), numbers, mailbox, unsent);
    AlertsAreNew(m, pending, Some(numbers), order, mailbox, unsent, quitOk);
  }
  /**
   * The consequence: a UID notified by a cycle that raised is notified again
   * by the next cycle when that cycle raises nothing and still lists the UID
   * with a non-zero number.
   */
  lemma AbortedAlertRepeats(m: Memory, pending: Pending, numbers: map<string, int>, order: seq<string>, mailbox: map<int, Mail>, unsent: set<string>, quitOk: bool,
                            numbers2: map<string, int>, order2: seq<string>, mailbox2: map<int, Mail>, unsent2: set<string>, quitOk2: bool, uid: string)
    requires !m.firstRound
    requires Enumerates(order, NewUids(m, Some(numbers)))
    requires exists i :: 0 <= i < |order| && Fails(order[i], numbers, mailbox, unsent)
    requires var r := CycleSpec(m, pending, Some(numbers), order, mailbox, unsent, quitOk);
      && uid in AlertUids(r.alerts)
      && Enumerates(order2, NewUids(r.memory, Some(numbers2)))
      && (forall i :: 0 <= i < |order2| ==> !Fails(order2[i], numbers2, mailbox2, unsent2))
    requires uid in numbers2 && numbers2[uid] != 0
    ensures var r := CycleSpec(m, pending, Some(numbers), order, mailbox, unsent, quitOk);
      uid in AlertUids(CycleSpec(r.memory, r.pending, Some(numbers2), order2, mailbox2, unsent2, quitOk2).alerts)
  {
    var r := CycleSpec(m, pending, Some(numbers), order, mailbox, unsent, quitOk);
    AbortedCycleForgetsAlerts(m, pending, numbers, order, mailbox, unsent, quitOk);
    var a :| a in r.alerts && a.uid == uid;
    assert uid !in r.memory.known;
    AlertsExactlyNew(r.memory, r.pending, numbers2, order2, mailbox2, unsent2, quitOk2);
  }


  // ----- the imperative watcher ---------------------------------------------

  /** Python's `for x in s` over a set: some order in which every element comes once. */
  method Enumerate(s: set<string>) returns (order: seq<string>)
    ensures Enumerates(order, s)
  {
    order := [];
    var rest := s;
    while rest != {}
      invariant rest <= s
      invariant forall u :: u in order <==> u in s && u !in rest
      invariant forall j, k :: 0 <= j < k < |order| ==> order[j] != order[k]
      decreases |rest|
    {
      var u :| u in rest;
      order := order + [u];
      rest := rest - {u};
    }
  }

  /**
   * The `for uid in nuevos` loop: retrieve each live UID's message, write its
   * cleaned sender and subject into the shared record, push its notification;
   * the first exception ends the loop.
   */
  method DeliverAll(state: BotState, order: seq<string>, numbers: map<string, int>, mailbox: map<int, Mail>, unsent: set<string>)
    returns (alerts: seq<Alert>, aborted: bool)
    modifies state
    ensures Progress(alerts, Pending(state.lastSender, state.lastSubject), aborted) ==
      Deliveries(order, Progress([], old(Pending(state.lastSender, state.lastSubject)), false), numbers, mailbox, unsent)
    ensures state.replyMode == old(state.replyMode) && state.ticketMode == old(state.ticketMode)
  {
    ghost var start := Progress([], Pending(state.lastSender, state.lastSubject), false);
    alerts, aborted := [], false;
    var i := 0;
    while i < |order| && !aborted
      invariant 0 <= i <= |order|
      invariant state.replyMode == old(state.replyMode) && state.ticketMode == old(state.ticketMode)
      invariant Deliveries(order[i..], Progress(alerts, Pending(state.lastSender, state.lastSubject), aborted), numbers, mailbox, unsent)
                == Deliveries(order, start, numbers, mailbox, unsent)
    {
      var uid := order[i];
      if uid in numbers && numbers[uid] != 0 {
        var num := numbers[uid];
        if num !in mailbox {
          aborted := true;
        } else {
          var mail := mailbox[num];
          state.lastSender := Some(CleanSender(mail.sender));
          state.lastSubject := Some(mail.subject);
          if uid in unsent {
            aborted := true;
          } else {
            alerts := alerts + [Alert(uid, mail.sender, mail.subject)];
          }
        }
      }
      assert order[i..][1..] == order[i + 1..];
      i := i + 1;
    }
  }

  /** The locals of `ciclo_correos` that live across cycles. */
  class Watcher {
    var known: set<string>
    var firstRound: bool

    constructor ()
      ensures known == {} && firstRound
    {
      known := {};
      firstRound := true;
    }

    function Snapshot(): Memory
      reads this
    {
      Memory(known, firstRound)
    }

    /**
     * One cycle: returns the notifications pushed, whether it ran to the end
     * without an exception, and the order in which it visited the new UIDs.
     * The two chat flags of the shared record are not touched.
     */
    method Cycle(state: BotState, poll: Poll, mailbox: map<int, Mail>, unsent: set<string>, quitOk: bool)
      returns (alerts: seq<Alert>, completed: bool, order: seq<string>)
      modifies this, state
      ensures Enumerates(order, NewUids(old(Snapshot()), Read(poll)))
      ensures var r := CycleSpec(old(Snapshot()), old(Pending(state.lastSender, state.lastSubject)), Read(poll), order, mailbox, unsent, quitOk);
        && Snapshot() == r.memory
        && Pending(state.lastSender, state.lastSubject) == r.pending
        && alerts == r.alerts && completed == r.completed
      ensures state.replyMode == old(state.replyMode) && state.ticketMode == old(state.ticketMode)
    {
      alerts, completed, order := [], false, [];
      if poll.Unreachable? {
        return;
      }
      var listing := ReadListing(poll.lines);
      if listing.None? {
        return;
      }
      var current, numbers := listing.value.uids, listing.value.numbers;
      if firstRound {
        known := current;
        firstRound := false;
      } else {
        var incoming := current - known;
        if incoming != {} {
          order := Enumerate(incoming);
          var aborted;
          alerts, aborted := DeliverAll(state, order, numbers, mailbox, unsent);
          if aborted {
            return;
          }
          known := current;
        }
      }
      completed := quitOk;
    }
  }
}
