/** Retention told by the fields of the records: which leads are eligible, what a refresh makes of each review, and
    when a decision goes through. */
module RetentionLaws {
  import opened Text
  import opened Months
  import opened Retention
  import opened RetentionReviews
  import D = RetentionDesk

  /** A lead of the same brand and address. */
  predicate Twin(w: World, id: nat, lead: Lead, s: nat) {
    s in w.leads && s != id && w.leads[s].brand == lead.brand && w.leads[s].email == lead.email
  }

  /** A message between the brand of the lead and its address. */
  predicate Mail(w: World, lead: Lead, k: nat) {
    && k < |w.messages| && w.messages[k].ticket in w.tickets
    && Some(w.tickets[w.messages[k].ticket].brand) == lead.brand && lead.email in w.messages[k].addresses
  }

  /** Nothing speaks against deletion but perhaps time: the lead was lost and never converted, nobody of that address is
      a client, the leads of that address are lost too, and every conversation is a finished sales contact without
      client or booked time, with nothing still being sent. */
  predicate Free(w: World, id: nat, lead: Lead) {
    && lead.brand.Some? && lead.outcome == Some(Lost)
    && !lead.convertedAt && !lead.convertedClient && !lead.convertedContact
    && lead.email !in w.clients
    && (forall s: nat :: s in w.leads && Twin(w, id, lead, s) ==>
          w.leads[s].outcome == Some(Lost) && !w.leads[s].convertedAt)
    && (forall k: nat :: k < |w.messages| && Mail(w, lead, k) ==>
          && !w.messages[k].sending
          && var t := w.tickets[w.messages[k].ticket]; !t.client && !t.timed && t.closed && t.sales)
  }

  /** When something happened: to the lead, to a lead of that address, in the mail, or in a conversation. */
  ghost predicate Happened(w: World, id: nat, lead: Lead, at: Stamp) {
    || at == lead.created || at == lead.updated
    || (exists s: nat :: s in w.leads && Twin(w, id, lead, s) && at == w.leads[s].updated)
    || (exists k: nat :: k < |w.messages| && Mail(w, lead, k) && MailHappened(w, k, at))
  }

  ghost predicate MailHappened(w: World, k: nat, at: Stamp)
    requires k < |w.messages| && w.messages[k].ticket in w.tickets
  {
    var m := w.messages[k];
    var t := w.tickets[m.ticket];
    || at == m.sent || at == m.created || at == t.updated || Some(at) == t.lastNote
    || (if t.lastMessage.Some? then at == t.lastMessage.value else at == t.created)
  }

  ghost predicate LastHappened(w: World, id: nat, lead: Lead, at: Stamp) {
    Happened(w, id, lead, at) && forall other: Stamp :: Happened(w, id, lead, other) ==> Rank(other) <= Rank(at)
  }

  // These are the notions of the assessment

  lemma MailConcerns(w: World, lead: Lead, k: nat)
    requires k < |w.messages|
    ensures Mail(w, lead, k) <==> Concerns(w, lead, w.messages[k])
  {
  }

  lemma ConversationOfMail(w: World, lead: Lead, t: nat)
    ensures t in Conversations(w, lead) <==>
            exists k: nat :: k < |w.messages| && Mail(w, lead, k) && w.messages[k].ticket == t
  {
    forall k: nat | k < |w.messages|
      ensures Mail(w, lead, k) <==> Concerns(w, lead, w.messages[k])
    {
      MailConcerns(w, lead, k);
    }
    hide Mail, Concerns;
  }

  lemma FreeIsUnprotected(w: World, id: nat, lead: Lead)
    ensures Free(w, id, lead) <==> !Protected(w, id, lead)
  {
    forall k: nat | k < |w.messages|
      ensures Mail(w, lead, k) <==> Concerns(w, lead, w.messages[k])
    {
      MailConcerns(w, lead, k);
    }
    forall t: nat
      ensures t in Conversations(w, lead) <==>
              exists k: nat :: k < |w.messages| && Mail(w, lead, k) && w.messages[k].ticket == t
    {
      ConversationOfMail(w, lead, t);
    }
    MailTicketsExist(w, lead);
    hide Conversations, Concerns, Mail;
    if Free(w, id, lead) {
      FreeTickets(w, id, lead);
    } else {
    }
  }

  lemma MailTicketsExist(w: World, lead: Lead)
    ensures forall k: nat :: k < |w.messages| && Mail(w, lead, k) ==> w.messages[k].ticket in w.tickets
  {
  }

  lemma FreeTickets(w: World, id: nat, lead: Lead)
    requires Free(w, id, lead)
    ensures forall t :: t in Conversations(w, lead) && t in w.tickets ==> !TicketIsKept(w.tickets[t])
  {
    forall t | t in Conversations(w, lead) && t in w.tickets
      ensures !TicketIsKept(w.tickets[t])
    {
      ConversationOfMail(w, lead, t);
    }
  }

  lemma HappenedIsActive(w: World, id: nat, lead: Lead, at: Stamp)
    ensures Happened(w, id, lead, at) <==> Active(w, id, lead, at)
  {
    if exists k: nat :: k < |w.messages| && Mail(w, lead, k) && MailHappened(w, k, at) {
      var k: nat :| k < |w.messages| && Mail(w, lead, k) && MailHappened(w, k, at);
      MailConcerns(w, lead, k);
      ConversationOfMail(w, lead, w.messages[k].ticket);
    }
    if exists t :: t in Conversations(w, lead) && t in w.tickets && TicketActive(w.tickets[t], at) {
      var t :| t in Conversations(w, lead) && t in w.tickets && TicketActive(w.tickets[t], at);
      ConversationOfMail(w, lead, t);
      var k: nat :| k < |w.messages| && Mail(w, lead, k) && w.messages[k].ticket == t;
      assert MailHappened(w, k, at);
    }
    if exists k :: 0 <= k < |w.messages| && Concerns(w, lead, w.messages[k])
                   && (at == w.messages[k].sent || at == w.messages[k].created) {
      var k :| 0 <= k < |w.messages| && Concerns(w, lead, w.messages[k])
               && (at == w.messages[k].sent || at == w.messages[k].created);
      MailConcerns(w, lead, k);
      assert MailHappened(w, k, at);
    }
  }

  /** A lead is eligible exactly if it is free and 36 months have passed since the last thing that happened. */
  lemma EligibleExactly(w: World, id: nat, lead: Lead, now: Stamp)
    ensures Eligible(w, id, lead, now) <==>
              && Free(w, id, lead)
              && exists at: Stamp ::
                   && LastHappened(w, id, lead, at) && AddMonths(at, 36).Some?
                   && Rank(AddMonths(at, 36).value) <= Rank(now)
  {
    FreeIsUnprotected(w, id, lead);
    forall at: Stamp
      ensures Happened(w, id, lead, at) <==> Active(w, id, lead, at)
    {
      HappenedIsActive(w, id, lead, at);
    }
    hide Free, Protected, Happened, Active, Rank, AddMonths;
    forall at: Stamp
      ensures LastHappened(w, id, lead, at) <==> LastActivity(w, id, lead, at)
    {
    }
    hide LastHappened, LastActivity;
  }

  /** What goes with a lead: its conversations, and nothing as long as there is another lead of that address. */
  lemma GoesExactly(w: World, id: nat, lead: Lead, t: nat)
    ensures t in Linked(w, id, lead) <==>
              && (forall s: nat :: s in w.leads ==> !Twin(w, id, lead, s))
              && exists k: nat :: k < |w.messages| && Mail(w, lead, k) && w.messages[k].ticket == t
  {
    ConversationOfMail(w, lead, t);
    hide Mail, Conversations;
    if HasSibling(w, id, lead) {
      var s :| s in w.leads && Sibling(w, id, lead, s);
      assert Twin(w, id, lead, s);
    } else {
      forall s: nat | s in w.leads
        ensures !Twin(w, id, lead, s)
      {
        assert !Sibling(w, id, lead, s);
      }
    }
  }

  // The scan

  /** The lost and unconverted, untouched for 36 months by a cutoff that may clip the day. */
  predicate Old(lead: Lead, now: Stamp) {
    && lead.outcome == Some(Lost) && !lead.convertedAt && !lead.convertedClient
    && AddMonths(now, -36).Some? && Rank(lead.updated) <= Rank(AddMonths(now, -36).value)
  }

  /** The first loop looks at exactly these leads, as they were when the query ran. */
  lemma ScansReadExactly(s: State, h: nat, l: nat, now: Stamp)
    ensures Step(s, Read(h, l, now)) ==
            if l in s.world.leads && Old(s.world.leads[l], now) then
              s.(held := s.held[h := Considering(l, s.world.leads[l], now)])
            else s
  {
    hide Rank, AddMonths;
  }

  /** What a refresh makes of a review. A deleted one stays so. A pending one stays pending exactly while its lead is
      there and eligible. A cancelled one comes back if the scan finds its lead eligible again, and so does a deferred
      one, not before its date. */
  lemma RefreshedStatus(w: World, r: Review, now: Stamp)
    ensures var after := D.Rechecked(w, D.Listed(w, r, now), now);
            var eligible := r.lead.Some? && r.lead.value in w.leads
                            && Eligible(w, r.lead.value, w.leads[r.lead.value], now);
            var back := eligible && Old(w.leads[r.lead.value], now);
            && after.lead == r.lead && after.reviewAfter == r.reviewAfter
            && after.status == (
                 match r.status
                 case Pending => if eligible then Pending else Cancelled
                 case Cancelled => if back then Pending else Cancelled
                 case Deferred =>
                   if back && r.reviewAfter.Some? && Rank(r.reviewAfter.value) <= Rank(now) then Pending else Deferred
                 case Deleted => Deleted)
            && (after.status == Pending && r.status != Pending ==>
                  && LastActivity(w, r.lead.value, w.leads[r.lead.value], after.last)
                  && (AddMonths(after.last, 36).Some? ==> after.due == AddMonths(after.last, 36).value))
            && (r.status == Pending || after.status != Pending ==> after.last == r.last && after.due == r.due)
  {
    hide Eligible, LastActivity, Rank, AddMonths;
    if r.lead.Some? && D.Wanted(w, r.lead.value, now) {
      HasLast(w, r.lead.value, w.leads[r.lead.value], now);
    }
  }

  lemma HasLast(w: World, l: nat, lead: Lead, now: Stamp)
    requires Eligible(w, l, lead, now)
    ensures exists at: Stamp :: LastActivity(w, l, lead, at)
  {
  }

  // The steps of a scan

  /** The three steps of the first loop for one lead, with nothing in between, do to its review what the loop does. */
  lemma ScanStepsList(s: State, h: nat, l: nat, id: nat, now: Stamp)
    requires h !in s.held && D.OneReviewEach(s.reviews) && l in s.world.leads
    requires id in s.reviews && s.reviews[id].lead == Some(l)
    ensures Step(Step(Step(s, Read(h, l, now)), Consider(h)), Reopen(h)) ==
            s.(reviews := s.reviews[id := D.Listed(s.world, s.reviews[id], now)])
  {
    hide Eligible, LastActivity, Candidate, AddMonths, Rank;
    var read := Step(s, Read(h, l, now));
    if Candidate(s.world.leads[l], now) {
      assert read == s.(held := s.held[h := Considering(l, s.world.leads[l], now)]);
      ConsidersOne(read, h, l, id, now);
      assert s.held[h := Considering(l, s.world.leads[l], now)] - {h} == s.held;
    }
    assert s.reviews[id := s.reviews[id]] == s.reviews;
  }

  lemma ConsidersOne(s: State, h: nat, l: nat, id: nat, now: Stamp)
    requires h in s.held && l in s.world.leads && s.held[h] == Considering(l, s.world.leads[l], now)
    requires D.OneReviewEach(s.reviews) && id in s.reviews && s.reviews[id].lead == Some(l)
    requires Candidate(s.world.leads[l], now)
    ensures Step(Step(s, Consider(h)), Reopen(h)) ==
            s.(held := s.held - {h}, reviews := s.reviews[id := D.Listed(s.world, s.reviews[id], now)])
  {
    hide LastActivity, Candidate, AddMonths, Rank;
    assert ReviewOf(s.reviews, id, l);
    forall other | ReviewOf(s.reviews, other, l)
      ensures other == id
    {
    }
    if Eligible(s.world, l, s.world.leads[l], now) {
      HasLast(s.world, l, s.world.leads[l], now);
    }
    hide Eligible;
    assert s.reviews[id := s.reviews[id]] == s.reviews;
  }

  /** And so do the two steps of the second loop for one review. */
  lemma CheckStepsRecheck(s: State, h: nat, id: nat, now: Stamp)
    requires h !in s.held && id in s.reviews
    ensures Step(Step(s, Pick(h, id)), Cancel(h, now)) ==
            s.(reviews := s.reviews[id := D.Rechecked(s.world, s.reviews[id], now)])
  {
    hide Eligible;
    var l := s.reviews[id].lead;
    var row := if l.Some? && l.value in s.world.leads then Some((l.value, s.world.leads[l.value])) else None;
    assert s.held[h := Checking(id, s.reviews[id], row)] - {h} == s.held;
    assert s.reviews[id := s.reviews[id]] == s.reviews;
  }
}
