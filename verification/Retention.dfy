/** When a lost lead may be deleted: `assess_lead` against its meaning. */
module Retention {
  import opened Text
  import opened Months

  datatype Outcome = Open | Won | Lost

  /** An e-mail address, up to upper and lower case. */
  type Address = nat

  datatype Lead = Lead(
    brand: Option<nat>, email: Address, created: Stamp, updated: Stamp,
    convertedAt: bool, convertedClient: bool, convertedContact: bool, outcome: Option<Outcome>)

  /** `sending` stands for an outbound message that is still queued or being sent. */
  datatype Message = Message(ticket: nat, addresses: seq<Address>, sent: Stamp, created: Stamp, sending: bool)

  /** `client` stands for a client, contact or vendor of the ticket, `timed` for time entries or running timers,
      `closed` for closed, resolved or spam, `sales` for a contact form or a sales classification. */
  datatype Ticket = Ticket(
    brand: nat, client: bool, timed: bool, closed: bool, sales: bool,
    created: Stamp, updated: Stamp, lastMessage: Option<Stamp>, lastNote: Option<Stamp>)

  datatype World = World(leads: map<nat, Lead>, clients: set<Address>, messages: seq<Message>, tickets: map<nat, Ticket>)

  const RETENTION_MONTHS := 36

  // What an assessment means

  predicate Sibling(w: World, id: nat, lead: Lead, s: nat) {
    s in w.leads && s != id && w.leads[s].brand == lead.brand && w.leads[s].email == lead.email
  }

  predicate HasSibling(w: World, id: nat, lead: Lead) {
    exists s :: s in w.leads && Sibling(w, id, lead, s)
  }

  /** The message belongs to the brand of the lead and has its address among the participants. */
  predicate Concerns(w: World, lead: Lead, m: Message) {
    m.ticket in w.tickets && lead.brand == Some(w.tickets[m.ticket].brand) && lead.email in m.addresses
  }

  function Conversations(w: World, lead: Lead): set<nat> {
    set k | 0 <= k < |w.messages| && Concerns(w, lead, w.messages[k]) :: w.messages[k].ticket
  }

  predicate LeadIsOpen(lead: Lead) {
    lead.brand.None? || lead.convertedAt || lead.convertedClient || lead.convertedContact || lead.outcome != Some(Lost)
  }

  predicate SiblingIsOpen(lead: Lead) {
    lead.outcome != Some(Lost) || lead.convertedAt
  }

  predicate TicketIsKept(t: Ticket) {
    t.client || t.timed || !t.closed || !t.sales
  }

  /** Something protects the lead, whatever its age. */
  predicate Protected(w: World, id: nat, lead: Lead) {
    || LeadIsOpen(lead)
    || lead.email in w.clients
    || (exists s :: s in w.leads && Sibling(w, id, lead, s) && SiblingIsOpen(w.leads[s]))
    || (exists k :: 0 <= k < |w.messages| && Concerns(w, lead, w.messages[k]) && w.messages[k].sending)
    || (exists t :: t in Conversations(w, lead) && t in w.tickets && TicketIsKept(w.tickets[t]))
  }

  /** The times at which the lead, a sibling or a conversation was active. */
  ghost predicate Active(w: World, id: nat, lead: Lead, at: Stamp) {
    || at == lead.created || at == lead.updated
    || (exists s :: s in w.leads && Sibling(w, id, lead, s) && at == w.leads[s].updated)
    || (exists k :: 0 <= k < |w.messages| && Concerns(w, lead, w.messages[k])
                    && (at == w.messages[k].sent || at == w.messages[k].created))
    || (exists t :: t in Conversations(w, lead) && t in w.tickets && TicketActive(w.tickets[t], at))
  }

  ghost predicate TicketActive(t: Ticket, at: Stamp) {
    || at == t.updated
    || at == (if t.lastMessage.Some? then t.lastMessage.value else t.created)
    || Some(at) == t.lastNote
  }

  ghost predicate LastActivity(w: World, id: nat, lead: Lead, at: Stamp) {
    Active(w, id, lead, at) && forall other: Stamp :: Active(w, id, lead, other) ==> Rank(other) <= Rank(at)
  }

  predicate DueBy(at: Stamp, now: Stamp) {
    var due := AddMonths(at, RETENTION_MONTHS);
    due.Some? && Rank(due.value) <= Rank(now)
  }

  /** Nothing protects the lead and its last activity is three years old. */
  ghost predicate Eligible(w: World, id: nat, lead: Lead, now: Stamp) {
    !Protected(w, id, lead) && exists at: Stamp :: LastActivity(w, id, lead, at) && DueBy(at, now)
  }

  /** What goes with the lead: nothing while a sibling remains. */
  function Linked(w: World, id: nat, lead: Lead): set<nat> {
    if HasSibling(w, id, lead) then {} else Conversations(w, lead)
  }

  // The assessment as the code makes it

  datatype Assessment = Assessment(last: Stamp, tickets: set<nat>, eligible: bool)

  function Later(a: Stamp, b: Stamp): Stamp {
    if Rank(b) > Rank(a) then b else a
  }

  ghost predicate Covers(at: Stamp, other: Stamp) {
    Rank(other) <= Rank(at)
  }

  lemma LaterCovers(a: Stamp, b: Stamp)
    ensures Covers(Later(a, b), a) && Covers(Later(a, b), b)
  {
  }

  /** The latest of the siblings' updates, none without siblings. Fails on one that is still open. */
  method AssessSiblings(w: World, id: nat, lead: Lead, start: Stamp) returns (open: bool, last: Stamp)
    requires Active(w, id, lead, start)
    ensures open <==> exists s :: s in w.leads && Sibling(w, id, lead, s) && SiblingIsOpen(w.leads[s])
    ensures Active(w, id, lead, last) && Covers(last, start)
    ensures CoversSiblings(w, id, lead, last)
  {
    hide Rank, Conversations, Concerns, SiblingIsOpen, Sibling;
    open, last := false, start;
    var todo := w.leads.Keys;
    while todo != {}
      invariant todo <= w.leads.Keys
      invariant open <==> exists s :: s in w.leads && s !in todo && Sibling(w, id, lead, s) && SiblingIsOpen(w.leads[s])
      invariant Active(w, id, lead, last) && Covers(last, start)
      invariant forall s :: s in w.leads && s !in todo && Sibling(w, id, lead, s) ==> Covers(last, w.leads[s].updated)
    {
      var s :| s in todo;
      todo := todo - {s};
      if Sibling(w, id, lead, s) {
        open := open || SiblingIsOpen(w.leads[s]);
        last := Later(last, w.leads[s].updated);
      }
    }
  }

  /** The conversations of the messages before `n`. */
  function ConversationsOf(w: World, lead: Lead, n: nat): set<nat>
    requires n <= |w.messages|
  {
    set k | 0 <= k < n && Concerns(w, lead, w.messages[k]) :: w.messages[k].ticket
  }

  /** The loop over the messages; it stops at one that is still being sent. */
  method AssessMessages(w: World, id: nat, lead: Lead, start: Stamp)
    returns (sending: bool, tickets: set<nat>, last: Stamp)
    requires Active(w, id, lead, start)
    ensures sending <==> exists k :: 0 <= k < |w.messages| && Concerns(w, lead, w.messages[k]) && w.messages[k].sending
    ensures !sending ==> tickets == Conversations(w, lead)
    ensures !sending ==> Active(w, id, lead, last) && Covers(last, start)
    ensures !sending ==> CoversMessages(w, lead, last)
  {
    hide Concerns, Rank, ConversationsOf, Active;
    NoConversations(w, lead);
    tickets, last := {}, start;
    for n := 0 to |w.messages|
      invariant forall k :: 0 <= k < n && Concerns(w, lead, w.messages[k]) ==> !w.messages[k].sending
      invariant tickets == ConversationsOf(w, lead, n)
      invariant Active(w, id, lead, last) && Covers(last, start)
      invariant forall k :: 0 <= k < n && Concerns(w, lead, w.messages[k]) ==>
                  Covers(last, w.messages[k].sent) && Covers(last, w.messages[k].created)
    {
      hide Conversations;
      var m := w.messages[n];
      OneMoreConversation(w, lead, n);
      if Concerns(w, lead, m) {
        tickets := tickets + {m.ticket};
        last := Later(Later(last, m.sent), m.created);
        MessageIsActive(w, id, lead, n);
        if m.sending {
          return true, tickets, last;
        }
      }
    }
    sending := false;
    AllConversations(w, lead);
  }

  lemma NoConversations(w: World, lead: Lead)
    ensures ConversationsOf(w, lead, 0) == {}
  {
  }

  lemma AllConversations(w: World, lead: Lead)
    ensures ConversationsOf(w, lead, |w.messages|) == Conversations(w, lead)
  {
    hide Concerns;
  }

  lemma OneMoreConversation(w: World, lead: Lead, n: nat)
    requires n < |w.messages|
    ensures ConversationsOf(w, lead, n + 1) ==
            ConversationsOf(w, lead, n) + if Concerns(w, lead, w.messages[n]) then {w.messages[n].ticket} else {}
  {
    hide Concerns;
  }

  lemma MessageIsActive(w: World, id: nat, lead: Lead, n: nat)
    requires n < |w.messages| && Concerns(w, lead, w.messages[n])
    ensures Active(w, id, lead, w.messages[n].sent) && Active(w, id, lead, w.messages[n].created)
  {
  }

  /** The last activity of one conversation. */
  function TicketLast(t: Ticket): Stamp {
    var last := Later(t.updated, if t.lastMessage.Some? then t.lastMessage.value else t.created);
    if t.lastNote.Some? then Later(last, t.lastNote.value) else last
  }

  lemma TicketLastIsLast(t: Ticket)
    ensures TicketActive(t, TicketLast(t))
    ensures forall at :: TicketActive(t, at) ==> Covers(TicketLast(t), at)
  {
    hide Rank;
  }

  /** The loop over the conversations; it stops at one that must be kept. */
  method AssessTickets(w: World, id: nat, lead: Lead, tickets: set<nat>, start: Stamp)
    returns (kept: bool, last: Stamp)
    requires tickets == Conversations(w, lead) && Active(w, id, lead, start)
    ensures kept <==> exists t :: t in tickets && t in w.tickets && TicketIsKept(w.tickets[t])
    ensures !kept ==> Active(w, id, lead, last) && Covers(last, start)
    ensures !kept ==> CoversTickets(w, lead, last)
  {
    hide Rank, TicketLast, TicketIsKept, Concerns, Conversations, TicketActive;
    last := start;
    var todo := tickets;
    while todo != {}
      invariant todo <= tickets
      invariant forall t :: t in tickets && t !in todo && t in w.tickets ==> !TicketIsKept(w.tickets[t])
      invariant Active(w, id, lead, last) && Covers(last, start)
      invariant forall t :: t in tickets && t !in todo && t in w.tickets ==> Covers(last, TicketLast(w.tickets[t]))
    {
      var t :| t in todo;
      todo := todo - {t};
      if t in w.tickets {
        if TicketIsKept(w.tickets[t]) {
          return true, last;
        }
        TicketLastIsLast(w.tickets[t]);
        assert Active(w, id, lead, TicketLast(w.tickets[t]));
        last := Later(last, TicketLast(w.tickets[t]));
      }
    }
    kept := false;
  }

  ghost predicate CoversSiblings(w: World, id: nat, lead: Lead, last: Stamp) {
    forall s :: s in w.leads && Sibling(w, id, lead, s) ==> Covers(last, w.leads[s].updated)
  }

  ghost predicate CoversMessages(w: World, lead: Lead, last: Stamp) {
    forall k :: 0 <= k < |w.messages| && Concerns(w, lead, w.messages[k]) ==>
      Covers(last, w.messages[k].sent) && Covers(last, w.messages[k].created)
  }

  ghost predicate CoversTickets(w: World, lead: Lead, last: Stamp) {
    forall t :: t in Conversations(w, lead) && t in w.tickets ==> Covers(last, TicketLast(w.tickets[t]))
  }

  lemma CoveringLater(w: World, id: nat, lead: Lead, early: Stamp, late: Stamp)
    requires Covers(late, early)
    ensures CoversSiblings(w, id, lead, early) ==> CoversSiblings(w, id, lead, late)
    ensures CoversMessages(w, lead, early) ==> CoversMessages(w, lead, late)
  {
    hide Conversations, Concerns, Sibling, Rank;
  }

  lemma EndIsLast(w: World, id: nat, lead: Lead, end: Stamp)
    requires Active(w, id, lead, end) && Covers(end, lead.created) && Covers(end, lead.updated)
    requires CoversSiblings(w, id, lead, end) && CoversMessages(w, lead, end) && CoversTickets(w, lead, end)
    ensures LastActivity(w, id, lead, end)
  {
    hide Conversations, Concerns, Sibling, Rank, TicketLast, TicketActive;
    forall at: Stamp | Active(w, id, lead, at)
      ensures Covers(end, at)
    {
      if t :| t in Conversations(w, lead) && t in w.tickets && TicketActive(w.tickets[t], at) {
        TicketLastIsLast(w.tickets[t]);
      }
    }
  }

  lemma ProtectedIsNotEligible(w: World, id: nat, lead: Lead, now: Stamp)
    ensures Protected(w, id, lead) ==> !Eligible(w, id, lead, now)
  {
  }

  /** The last activity is unique, so it decides. */
  lemma LastDecides(w: World, id: nat, lead: Lead, end: Stamp, now: Stamp)
    requires LastActivity(w, id, lead, end)
    ensures Eligible(w, id, lead, now) <==> !Protected(w, id, lead) && DueBy(end, now)
  {
    hide Active, Protected, Rank, DueBy;
    forall at: Stamp | LastActivity(w, id, lead, at)
      ensures at == end
    {
      RankIsInjective(at, end);
    }
  }

  /** `assess_lead`. It finds a lead eligible exactly if it is, and then names its last activity and what goes
      with it. */
  method AssessLead(w: World, id: nat, lead: Lead, now: Stamp) returns (a: Assessment)
    ensures a.eligible <==> Eligible(w, id, lead, now)
    ensures a.eligible ==> LastActivity(w, id, lead, a.last) && a.tickets == Linked(w, id, lead)
    ensures !Protected(w, id, lead) ==> a.tickets == Linked(w, id, lead)
  {
    hide Conversations, Concerns, TicketIsKept, SiblingIsOpen, DueBy, Sibling, TicketActive, Rank, Eligible;
    LaterCovers(lead.created, lead.updated);
    ProtectedIsNotEligible(w, id, lead, now);
    var last := Later(lead.created, lead.updated);
    a := Assessment(last, {}, false);
    if LeadIsOpen(lead) {
      return;
    }
    if lead.email in w.clients {
      return;
    }
    var open, activity := AssessSiblings(w, id, lead, last);
    if open {
      return;
    }
    var sending, tickets, sent := AssessMessages(w, id, lead, activity);
    if sending {
      return;
    }
    var kept, end := AssessTickets(w, id, lead, tickets, sent);
    if kept {
      return;
    }
    CoveringLater(w, id, lead, activity, sent);
    CoveringLater(w, id, lead, sent, end);
    a := Assessment(end, if HasSibling(w, id, lead) then {} else tickets, DueBy(end, now));
    EndIsLast(w, id, lead, end);
    LastDecides(w, id, lead, end, now);
  }
}
