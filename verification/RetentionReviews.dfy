/** Retention reviews: scans, approvals, deferrals and outside edits, step by step. A scan works on what it read
    before; an approval and a deferral lock the review. */
module RetentionReviews {
  import opened Text
  import opened Months
  import opened Retention

  datatype Status = Pending | Deferred | Cancelled | Deleted

  datatype Review = Review(lead: Option<nat>, status: Status, last: Moment, due: Moment, reviewAfter: Option<Moment>)

  /** What a scan has read: a lead to look at, a review that it will put back on the list, or one to check again. */
  datatype Held =
    | Considering(l: nat, row: Lead, now: Stamp)
    | Reopening(id: nat, review: Review, last: Moment, due: Moment, now: Stamp)
    | Checking(id: nat, review: Review, lead: Option<(nat, Lead)>)

  datatype State = State(world: World, reviews: map<nat, Review>, nextReview: nat, held: map<nat, Held>)

  datatype Event =
    | Edit(after: World)
    | Read(h: nat, lead: nat, now: Stamp)
    | Consider(h: nat)
    | Reopen(h: nat)
    | Pick(h: nat, id: nat)
    | Cancel(h: nat, now: Stamp)
    | Approve(id: nat, permitted: bool, mayDeleteTickets: bool, now: Stamp, meanwhile: World, later: Stamp)
    | Defer(id: nat, permitted: bool, reasonGiven: bool, months: int, now: Stamp)

  /** Other code may change and add anything, but deletes neither leads nor conversations. */
  predicate Outside(w: World, after: World) {
    w.leads.Keys <= after.leads.Keys && w.tickets.Keys <= after.tickets.Keys
  }

  // The scan

  /** The prefilter of the scan. */
  predicate Candidate(lead: Lead, now: Moment) {
    && lead.outcome == Some(Lost) && !lead.convertedAt && !lead.convertedClient
    && var cutoff := AddMonths(now, -RETENTION_MONTHS); cutoff.Some? && Rank(lead.updated) <= Rank(cutoff.value)
  }

  predicate ReviewOf(reviews: map<nat, Review>, id: nat, lead: nat) {
    id in reviews && reviews[id].lead == Some(lead)
  }

  predicate Reopenable(r: Review, now: Moment) {
    r.status == Cancelled
    || (r.status == Deferred && r.reviewAfter.Some? && Rank(r.reviewAfter.value) <= Rank(now))
  }

  ghost function LastOf(w: World, id: nat, lead: Lead): (at: Stamp)
    requires exists at: Stamp :: LastActivity(w, id, lead, at)
    ensures LastActivity(w, id, lead, at)
  {
    var at: Stamp :| LastActivity(w, id, lead, at);
    at
  }

  function DueOf(last: Moment): Moment {
    var due := AddMonths(last, RETENTION_MONTHS);
    if due.Some? then due.value else last
  }

  /** One row of the query before the first loop. */
  function ReadLead(s: State, h: nat, l: nat, now: Stamp): State {
    if l !in s.world.leads || !Candidate(s.world.leads[l], now) then s
    else s.(held := s.held[h := Considering(l, s.world.leads[l], now)])
  }

  /** One turn of the first loop, up to the point where it has the review in hand: the lead as it was read, against
      the records as they are. A review of a lead that is gone cannot be made. */
  ghost function ConsiderLead(s: State, h: nat): State {
    if h !in s.held || !s.held[h].Considering? then s
    else
      var Considering(l, row, now) := s.held[h];
      var done := s.(held := s.held - {h});
      if !Eligible(s.world, l, row, now) then done
      else
        var last := LastOf(s.world, l, row);
        if exists id :: ReviewOf(s.reviews, id, l) then
          var id :| ReviewOf(s.reviews, id, l);
          if Reopenable(s.reviews[id], now) then
            s.(held := s.held[h := Reopening(id, s.reviews[id], last, DueOf(last), now)])
          else done
        else if l !in s.world.leads then done
        else
          done.(reviews := s.reviews[s.nextReview := Review(Some(l), Pending, last, DueOf(last), None)],
                nextReview := s.nextReview + 1)
  }

  function SaveReopened(s: State, h: nat): State {
    if h !in s.held || !s.held[h].Reopening? || s.held[h].id !in s.reviews then s
    else
      var held := s.held[h];
      var saved := s.reviews[held.id].(status := Pending, last := held.last, due := held.due);
      s.(reviews := s.reviews[held.id := saved], held := s.held - {h})
  }

  /** One review of the query before the second loop, with its lead. */
  function PickReview(s: State, h: nat, id: nat): State {
    if id !in s.reviews || s.reviews[id].status != Pending then s
    else
      var l := s.reviews[id].lead;
      var row := if l.Some? && l.value in s.world.leads then Some((l.value, s.world.leads[l.value])) else None;
      s.(held := s.held[h := Checking(id, s.reviews[id], row)])
  }

  /** One turn of the second loop: the lead as it was read, against the records as they are. */
  ghost function CheckReview(s: State, h: nat, now: Stamp): State {
    if h !in s.held || !s.held[h].Checking? || s.held[h].id !in s.reviews then s
    else
      var held := s.held[h];
      if held.lead.Some? && Eligible(s.world, held.lead.value.0, held.lead.value.1, now) then s.(held := s.held - {h})
      else s.(reviews := s.reviews[held.id := s.reviews[held.id].(status := Cancelled)], held := s.held - {h})
  }

  // Decisions

  /** The lead is deleted, with conversations and their messages; reviews lose the reference. */
  function Forget(w: World, l: nat, tickets: set<nat>): World {
    World(w.leads - {l}, w.clients, Without(w.messages, tickets), w.tickets - tickets)
  }

  function Without(messages: seq<Message>, tickets: set<nat>): seq<Message> {
    if messages == [] then []
    else
      var n := |messages| - 1;
      Without(messages[..n], tickets) + if messages[n].ticket in tickets then [] else [messages[n]]
  }

  function Unreferenced(reviews: map<nat, Review>, l: nat): map<nat, Review> {
    map id | id in reviews :: if reviews[id].lead == Some(l) then reviews[id].(lead := None) else reviews[id]
  }

  /** What the approval locks does not change before it reads it again. */
  predicate Locked(w: World, after: World, l: nat, tickets: set<nat>) {
    && l in w.leads && l in after.leads && after.leads[l] == w.leads[l]
    && forall t :: t in tickets && t in w.tickets ==> t in after.tickets && after.tickets[t] == w.tickets[t]
  }

  ghost predicate Approvable(s: State, e: Event) {
    && e.Approve? && e.permitted && e.id in s.reviews
    && s.reviews[e.id].status == Pending && s.reviews[e.id].lead.Some?
    && var l := s.reviews[e.id].lead.value;
    && l in s.world.leads
    && Eligible(s.world, l, s.world.leads[l], e.now)
    && (Linked(s.world, l, s.world.leads[l]) != {} ==> e.mayDeleteTickets)
  }

  /** The second look, at what happened meanwhile. */
  ghost predicate Confirmed(s: State, e: Event)
    requires Approvable(s, e)
  {
    var l := s.reviews[e.id].lead.value;
    var lead := s.world.leads[l];
    && Outside(s.world, e.meanwhile) && Locked(s.world, e.meanwhile, l, Linked(s.world, l, lead))
    && Eligible(e.meanwhile, l, lead, e.later) && Linked(e.meanwhile, l, lead) == Linked(s.world, l, lead)
  }

  /** `approve_retention_review`: any refusal rolls back. */
  ghost function ApproveReview(s: State, e: Event): State
    requires e.Approve?
  {
    if !Approvable(s, e) || !Confirmed(s, e) then s
    else
      var l := s.reviews[e.id].lead.value;
      s.(world := Forget(e.meanwhile, l, Linked(s.world, l, s.world.leads[l])),
         reviews := Unreferenced(s.reviews[e.id := s.reviews[e.id].(status := Deleted)], l))
  }

  /** `defer_retention_review`. */
  function DeferReview(s: State, id: nat, permitted: bool, reasonGiven: bool, months: int, now: Stamp): State {
    if !permitted || !reasonGiven || months !in {3, 6, 12} then s
    else if id !in s.reviews || s.reviews[id].status != Pending || s.reviews[id].lead.None? then s
    else if AddMonths(now, months).None? then s
    else
      s.(reviews := s.reviews[id := s.reviews[id].(status := Deferred, reviewAfter := AddMonths(now, months))])
  }

  ghost function Step(s: State, e: Event): State {
    match e
    case Edit(after) => if Outside(s.world, after) then s.(world := after) else s
    case Read(h, lead, now) => ReadLead(s, h, lead, now)
    case Consider(h) => ConsiderLead(s, h)
    case Reopen(h) => SaveReopened(s, h)
    case Pick(h, id) => PickReview(s, h, id)
    case Cancel(h, now) => CheckReview(s, h, now)
    case Approve(_, _, _, _, _, _) => ApproveReview(s, e)
    case Defer(id, permitted, reasonGiven, months, now) => DeferReview(s, id, permitted, reasonGiven, months, now)
  }

  ghost function Run(s: State, es: seq<Event>): State {
    if es == [] then s else Step(Run(s, es[..|es| - 1]), es[|es| - 1])
  }

  // What gets deleted, and how

  ghost predicate ApprovesLead(s: State, e: Event, l: nat) {
    && Approvable(s, e) && Confirmed(s, e) && s.reviews[e.id].lead == Some(l)
  }

  /** In one step, a lead is deleted only by the approval of its pending review while it is eligible, and then
      only those conversations go that would be left without a lead of that brand and address. */
  lemma StepDeletes(s: State, e: Event)
    ensures forall l :: l in s.world.leads && l !in Step(s, e).world.leads ==> ApprovesLead(s, e, l)
    ensures forall t :: t in s.world.tickets && t !in Step(s, e).world.tickets ==>
              && e.Approve? && Approvable(s, e) && Confirmed(s, e)
              && var l := s.reviews[e.id].lead.value;
              && !HasSibling(e.meanwhile, l, s.world.leads[l]) && t in Conversations(e.meanwhile, s.world.leads[l])
  {
    hide Eligible, Conversations, HasSibling, Without;
    hide ReadLead, ConsiderLead, SaveReopened, PickReview, CheckReview, DeferReview;
    match e {
      case Read(h, l, now) => ReadKeepsWorld(s, h, l, now);
      case Consider(h) => ConsiderKeepsWorld(s, h);
      case Reopen(h) => ScanKeepsWorld(s, h, 0);
      case Pick(h, id) => ScanKeepsWorld(s, h, id);
      case Cancel(h, now) => CheckKeepsWorld(s, h, now);
      case Defer(id, permitted, reasonGiven, months, now) => DeferKeepsWorld(s, id, permitted, reasonGiven, months, now);
      case _ =>
    }
  }

  lemma ReadKeepsWorld(s: State, h: nat, l: nat, now: Stamp)
    ensures ReadLead(s, h, l, now).world == s.world
  {
    hide Candidate;
  }

  lemma ConsiderKeepsWorld(s: State, h: nat)
    ensures ConsiderLead(s, h).world == s.world
  {
    hide Eligible, LastActivity;
  }

  lemma ScanKeepsWorld(s: State, h: nat, id: nat)
    ensures SaveReopened(s, h).world == s.world && PickReview(s, h, id).world == s.world
  {
  }

  lemma CheckKeepsWorld(s: State, h: nat, now: Stamp)
    ensures CheckReview(s, h, now).world == s.world
  {
    hide Eligible;
  }

  lemma DeferKeepsWorld(s: State, id: nat, permitted: bool, reasonGiven: bool, months: int, now: Stamp)
    ensures DeferReview(s, id, permitted, reasonGiven, months, now).world == s.world
  {
  }

  /** In every run, whatever scans read before and whatever happens outside. */
  lemma {:induction false} LeadsGoByApproval(s: State, es: seq<Event>, l: nat)
    requires l in s.world.leads && l !in Run(s, es).world.leads
    ensures exists k :: 0 <= k < |es| && ApprovesLead(Run(s, es[..k]), es[k], l)
  {
    hide Step, ApprovesLead;
    var n := |es| - 1;
    if l in Run(s, es[..n]).world.leads {
      StepDeletes(Run(s, es[..n]), es[n]);
      assert ApprovesLead(Run(s, es[..n]), es[n], l);
    } else {
      LeadsGoByApproval(s, es[..n], l);
      var k :| 0 <= k < n && ApprovesLead(Run(s, es[..n][..k]), es[..n][k], l);
      assert es[..n][..k] == es[..k];
      assert ApprovesLead(Run(s, es[..k]), es[k], l);
    }
  }

  ghost predicate TakesConversation(s: State, e: Event, t: nat) {
    && Approvable(s, e) && Confirmed(s, e)
    && var l := s.reviews[e.id].lead.value;
    && t in Conversations(e.meanwhile, s.world.leads[l])
    && forall other :: other in Step(s, e).world.leads ==>
         !(Step(s, e).world.leads[other].brand == s.world.leads[l].brand
           && Step(s, e).world.leads[other].email == s.world.leads[l].email)
  }

  lemma ConversationsGoLast(s: State, e: Event, t: nat)
    requires t in s.world.tickets && t !in Step(s, e).world.tickets
    ensures TakesConversation(s, e, t)
  {
    StepDeletes(s, e);
    hide Eligible, Conversations, Without;
  }

  /** In every run, a conversation is deleted only with the last lead of its brand and address. */
  lemma {:induction false} ConversationsGoWithTheLastLead(s: State, es: seq<Event>, t: nat)
    requires t in s.world.tickets && t !in Run(s, es).world.tickets
    ensures exists k :: 0 <= k < |es| && TakesConversation(Run(s, es[..k]), es[k], t)
  {
    hide Step, TakesConversation;
    var n := |es| - 1;
    if t in Run(s, es[..n]).world.tickets {
      ConversationsGoLast(Run(s, es[..n]), es[n], t);
      assert TakesConversation(Run(s, es[..n]), es[n], t);
    } else {
      ConversationsGoWithTheLastLead(s, es[..n], t);
      var k :| 0 <= k < n && TakesConversation(Run(s, es[..n][..k]), es[..n][k], t);
      assert es[..n][..k] == es[..k];
      assert TakesConversation(Run(s, es[..k]), es[k], t);
    }
  }

  // Conversations of several leads

  /** The lead took part in the conversation. */
  predicate TookPart(w: World, lead: Lead, t: nat) {
    t in Conversations(w, lead)
  }

  /** The records on which a step works: an approval that goes through deletes from what its second look found. */
  ghost function Before(s: State, e: Event): World {
    if Approvable(s, e) && Confirmed(s, e) then e.meanwhile else s.world
  }

  ghost predicate Remains(s: State, e: Event, o: nat, t: nat) {
    o in Step(s, e).world.leads && o in Before(s, e).leads && TookPart(Before(s, e), Before(s, e).leads[o], t)
  }

  ghost predicate Goes(s: State, e: Event, t: nat) {
    t in Before(s, e).tickets && t !in Step(s, e).world.tickets
  }

  /** The conversation is deleted while a lead that took part in it, whatever its address, stays. */
  ghost predicate TakesShared(s: State, e: Event, t: nat) {
    Goes(s, e, t) && exists o :: Remains(s, e, o, t)
  }

  ghost predicate AlsoTookPart(e: Event, l: nat, o: nat, t: nat)
    requires e.Approve?
  {
    o in e.meanwhile.leads && o != l && TookPart(e.meanwhile, e.meanwhile.leads[o], t)
  }

  /** An approval that goes through, of a lead without siblings that took part in the conversation as another lead,
      of another address, did too. */
  ghost predicate Shares(s: State, e: Event, t: nat) {
    && Approvable(s, e) && Confirmed(s, e)
    && var l := s.reviews[e.id].lead.value;
    && !HasSibling(e.meanwhile, l, s.world.leads[l]) && TookPart(e.meanwhile, s.world.leads[l], t)
    && exists o :: AlsoTookPart(e, l, o, t)
  }

  lemma ConversationsAreTickets(w: World, lead: Lead)
    ensures forall t :: t in Conversations(w, lead) ==> t in w.tickets
  {
  }

  lemma ApprovalTakes(s: State, e: Event, t: nat)
    requires Approvable(s, e) && Confirmed(s, e)
    ensures var l := s.reviews[e.id].lead.value;
            && Step(s, e).world.leads == e.meanwhile.leads - {l}
            && (Goes(s, e, t) <==> t in e.meanwhile.tickets && t in Linked(e.meanwhile, l, s.world.leads[l]))
  {
    ApprovalForgets(s, e);
    OfApproval(s, e);
    hide Step, ApproveReview, Approvable, Eligible, Linked, Outside, Locked;
  }

  lemma ApprovalTakesShared(s: State, e: Event, t: nat)
    requires Approvable(s, e) && Confirmed(s, e)
    ensures TakesShared(s, e, t) <==> Shares(s, e, t)
  {
    var l := s.reviews[e.id].lead.value;
    ApprovalTakes(s, e, t);
    ConversationsAreTickets(e.meanwhile, s.world.leads[l]);
    hide Step, Conversations, HasSibling, Goes, Approvable, Confirmed;
    assert forall o :: Remains(s, e, o, t) <==> AlsoTookPart(e, l, o, t);
  }

  lemma OfApproval(s: State, e: Event)
    requires e.Approve?
    ensures Step(s, e) == ApproveReview(s, e)
  {
  }

  lemma OthersTakeNothing(s: State, e: Event, t: nat)
    requires !(Approvable(s, e) && Confirmed(s, e))
    ensures !TakesShared(s, e, t)
  {
    StepDeletes(s, e);
    hide Step, Approvable, Confirmed;
  }

  /** In one step, a conversation goes although a lead that took part in it stays, exactly if the step is such an
      approval. */
  lemma SharedGoesExactly(s: State, e: Event, t: nat)
    ensures TakesShared(s, e, t) <==> Shares(s, e, t)
  {
    hide TakesShared;
    if Approvable(s, e) && Confirmed(s, e) {
      ApprovalTakesShared(s, e, t);
    } else {
      OthersTakeNothing(s, e, t);
    }
  }

  /** Whenever the conversation goes, no lead that took part in it remains. */
  ghost predicate GoesWithTheLast(s: State, es: seq<Event>, t: nat) {
    forall k, o :: 0 <= k < |es| && Goes(Run(s, es[..k]), es[k], t) ==> !Remains(Run(s, es[..k]), es[k], o, t)
  }

  /** Over a whole run, a conversation goes only with the last lead that took part in it, exactly if no approval is of
      a lead without siblings that shares it with a lead of another address. */
  lemma SharedConversationsStayExactly(s: State, es: seq<Event>, t: nat)
    ensures GoesWithTheLast(s, es, t) <==> forall k :: 0 <= k < |es| ==> !Shares(Run(s, es[..k]), es[k], t)
  {
    hide Run, Step, Shares, Remains;
    forall k | 0 <= k < |es|
      ensures Shares(Run(s, es[..k]), es[k], t) <==>
                Goes(Run(s, es[..k]), es[k], t) && exists o :: Remains(Run(s, es[..k]), es[k], o, t)
    {
      SharedGoesExactly(Run(s, es[..k]), es[k], t);
    }
  }

  lemma {:induction false} NoneLeftOf(messages: seq<Message>, tickets: set<nat>)
    ensures forall k :: 0 <= k < |Without(messages, tickets)| ==>
              Without(messages, tickets)[k].ticket !in tickets && Without(messages, tickets)[k] in messages
    ensures forall m :: m in messages && m.ticket !in tickets ==> m in Without(messages, tickets)
  {
    if messages != [] {
      var n := |messages| - 1;
      NoneLeftOf(messages[..n], tickets);
      assert messages == messages[..n] + [messages[n]];
    }
  }

  /** A confirmed approval forgets the lead and what is linked to it, to the last message, and nothing else; its
      review stays, deleted and without the reference. */
  lemma ApprovalForgets(s: State, e: Event)
    requires Approvable(s, e) && Confirmed(s, e)
    ensures var l := s.reviews[e.id].lead.value;
            var gone := Linked(s.world, l, s.world.leads[l]);
            var t := ApproveReview(s, e);
            && t.world.leads == e.meanwhile.leads - {l}
            && t.world.tickets == e.meanwhile.tickets - gone
            && t.world.clients == e.meanwhile.clients
            && (forall m :: m in t.world.messages <==> m in e.meanwhile.messages && m.ticket !in gone)
            && e.id in t.reviews && t.reviews[e.id].status == Deleted && t.reviews[e.id].lead.None?
            && (forall id :: id in t.reviews ==> t.reviews[id].lead != Some(l))
  {
    hide Eligible, Linked, Without, Outside, Locked;
    var l := s.reviews[e.id].lead.value;
    NoneLeftOf(e.meanwhile.messages, Linked(s.world, l, s.world.leads[l]));
  }

  /** A deferral sets a date at least three months ahead, so no scan reopens it before. */
  lemma DeferralIsAhead(s: State, id: nat, permitted: bool, reasonGiven: bool, months: int, now: Stamp)
    requires DeferReview(s, id, permitted, reasonGiven, months, now) != s
    ensures var r := DeferReview(s, id, permitted, reasonGiven, months, now).reviews;
            && months in {3, 6, 12} && permitted && reasonGiven
            && id in r && r[id].status == Deferred && r[id].reviewAfter.Some?
            && Index(r[id].reviewAfter.value) == Index(now) + months
            && Rank(r[id].reviewAfter.value) > Rank(now)
            && !Reopenable(r[id], now)
  {
    AddMonthsIsValid(now, months);
    RankOrder(AddMonths(now, months).value, now);
    DayRankOrder(AddMonths(now, months).value, now);
    hide Rank, DayRank, Index, DaysIn, AddMonths;
  }

  // How long a decision lasts

  predicate PutsBack(s: State, e: Event, id: nat) {
    e.Reopen? && e.h in s.held && s.held[e.h].Reopening? && s.held[e.h].id == id
  }

  /** The second loop checked the review and takes it off the list. */
  ghost predicate TakesOff(s: State, e: Event, id: nat) {
    && e.Cancel? && e.h in s.held && s.held[e.h].Checking? && s.held[e.h].id == id
    && !(s.held[e.h].lead.Some? && Eligible(s.world, s.held[e.h].lead.value.0, s.held[e.h].lead.value.1, e.now))
  }

  /** A scan saves this review: to put it back on the list, or to take it off. */
  ghost predicate Overwrites(s: State, e: Event, id: nat) {
    PutsBack(s, e, id) || TakesOff(s, e, id)
  }

  predicate IdsAreOld(s: State) {
    forall id :: id in s.reviews ==> id < s.nextReview
  }

  /** Status and date of a review. */
  predicate Has(s: State, id: nat, status: Status, date: Option<Moment>) {
    id in s.reviews && s.reviews[id].status == status && s.reviews[id].reviewAfter == date
  }

  /** A decided review keeps its decision, or a scan saves it. */
  ghost predicate Decided(s: State, e: Event, t: State, id: nat) {
    && IdsAreOld(t) && id in s.reviews && id in t.reviews
    && (s.reviews[id].status in {Deleted, Deferred} ==>
          && (t.reviews[id].status != s.reviews[id].status <==> Overwrites(s, e, id))
          && t.reviews[id].reviewAfter == s.reviews[id].reviewAfter)
  }

  lemma ConsiderDecides(s: State, e: Event, id: nat)
    requires IdsAreOld(s) && id in s.reviews && e.Consider?
    ensures Decided(s, e, ConsiderLead(s, e.h), id)
  {
    hide Eligible, LastActivity, DueOf;
  }

  lemma ReadDecides(s: State, e: Event, id: nat)
    requires IdsAreOld(s) && id in s.reviews && e.Read?
    ensures Decided(s, e, ReadLead(s, e.h, e.lead, e.now), id)
  {
    hide Candidate;
  }

  lemma SavesDecide(s: State, e: Event, id: nat)
    requires IdsAreOld(s) && id in s.reviews
    ensures e.Reopen? ==> Decided(s, e, SaveReopened(s, e.h), id)
    ensures e.Cancel? ==> Decided(s, e, CheckReview(s, e.h, e.now), id)
  {
    hide Eligible;
  }

  lemma PickDecides(s: State, e: Event, id: nat)
    requires IdsAreOld(s) && id in s.reviews && e.Pick?
    ensures Decided(s, e, PickReview(s, e.h, e.id), id)
  {
  }

  lemma DecisionsDecide(s: State, e: Event, id: nat)
    requires IdsAreOld(s) && id in s.reviews
    ensures e.Approve? ==> Decided(s, e, ApproveReview(s, e), id)
    ensures e.Defer? ==> Decided(s, e, DeferReview(s, e.id, e.permitted, e.reasonGiven, e.months, e.now), id)
  {
    hide Eligible, Confirmed, Forget, Linked;
  }

  lemma StepDecides(s: State, e: Event, id: nat)
    requires IdsAreOld(s) && id in s.reviews
    ensures Decided(s, e, Step(s, e), id)
  {
    hide ReadLead, ConsiderLead, SaveReopened, PickReview, CheckReview, ApproveReview, DeferReview, Eligible;
    match e {
      case Read(_, _, _) => ReadDecides(s, e, id);
      case Consider(_) => ConsiderDecides(s, e, id);
      case Reopen(_) => SavesDecide(s, e, id);
      case Cancel(_, _) => SavesDecide(s, e, id);
      case Pick(_, _) => PickDecides(s, e, id);
      case Edit(_) =>
      case _ => DecisionsDecide(s, e, id);
    }
  }

  /** In one step a deleted or deferred review changes its status exactly if a scan saves it. */
  lemma DecisionEndsExactly(s: State, e: Event, id: nat)
    requires IdsAreOld(s) && id in s.reviews && s.reviews[id].status in {Deleted, Deferred}
    ensures id in Step(s, e).reviews
    ensures Step(s, e).reviews[id].status != s.reviews[id].status <==> Overwrites(s, e, id)
    ensures Step(s, e).reviews[id].reviewAfter == s.reviews[id].reviewAfter
  {
    hide Step, Overwrites;
    StepDecides(s, e, id);
  }

  ghost predicate NoneOverwrites(s: State, es: seq<Event>, id: nat) {
    forall k :: 0 <= k < |es| ==> !Overwrites(Run(s, es[..k]), es[k], id)
  }

  lemma NoneOverwritesFront(s: State, es: seq<Event>, id: nat)
    requires es != []
    ensures var n := |es| - 1;
            NoneOverwrites(s, es, id) <==> NoneOverwrites(s, es[..n], id) && !Overwrites(Run(s, es[..n]), es[n], id)
  {
    hide Overwrites, Run;
    var n := |es| - 1;
    assert forall k :: 0 <= k < n ==> es[..n][..k] == es[..k] && es[..n][k] == es[k];
  }

  lemma {:induction false} RunKeepsReviews(s: State, es: seq<Event>, id: nat)
    requires IdsAreOld(s) && id in s.reviews
    ensures IdsAreOld(Run(s, es)) && id in Run(s, es).reviews
  {
    hide Step, Overwrites;
    if es != [] {
      RunKeepsReviews(s, es[..|es| - 1], id);
      StepDecides(Run(s, es[..|es| - 1]), es[|es| - 1], id);
    }
  }

  lemma {:induction false} DecisionLasts(s: State, es: seq<Event>, id: nat, status: Status, date: Option<Moment>)
    requires IdsAreOld(s) && status in {Deleted, Deferred} && Has(s, id, status, date) && NoneOverwrites(s, es, id)
    ensures Has(Run(s, es), id, status, date)
  {
    hide Step, Overwrites, NoneOverwrites;
    if es != [] {
      var n := |es| - 1;
      NoneOverwritesFront(s, es, id);
      DecisionLasts(s, es[..n], id, status, date);
      RunKeepsReviews(s, es[..n], id);
      DecisionEndsExactly(Run(s, es[..n]), es[n], id);
    }
  }

  /** At every point of the run the review has this status and date. */
  ghost predicate HasThroughout(s: State, es: seq<Event>, id: nat, status: Status, date: Option<Moment>) {
    forall n: nat :: n <= |es| ==> Has(Run(s, es[..n]), id, status, date)
  }

  lemma OverwriteEndsDecision(s: State, es: seq<Event>, id: nat, status: Status, date: Option<Moment>, k: nat)
    requires IdsAreOld(s) && status in {Deleted, Deferred} && Has(s, id, status, date)
    requires HasThroughout(s, es, id, status, date) && k < |es|
    ensures !Overwrites(Run(s, es[..k]), es[k], id)
  {
    hide Step, Overwrites;
    RunKeepsReviews(s, es[..k], id);
    assert es[..k + 1][..k] == es[..k];
    assert Has(Run(s, es[..k]), id, status, date) && Has(Run(s, es[..k + 1]), id, status, date);
    DecisionEndsExactly(Run(s, es[..k]), es[k], id);
  }

  lemma LastsExactly(s: State, es: seq<Event>, id: nat, status: Status, date: Option<Moment>)
    requires IdsAreOld(s) && status in {Deleted, Deferred} && Has(s, id, status, date)
    ensures HasThroughout(s, es, id, status, date) <==> NoneOverwrites(s, es, id)
  {
    hide Run, Has, Overwrites;
    if HasThroughout(s, es, id, status, date) {
      forall k | 0 <= k < |es|
        ensures !Overwrites(Run(s, es[..k]), es[k], id)
      {
        OverwriteEndsDecision(s, es, id, status, date, k);
      }
    }
    if NoneOverwrites(s, es, id) {
      forall n: nat | n <= |es|
        ensures Has(Run(s, es[..n]), id, status, date)
      {
        NoneOverwritesUpTo(s, es, id, n);
        DecisionLasts(s, es[..n], id, status, date);
      }
    }
  }

  lemma NoneOverwritesUpTo(s: State, es: seq<Event>, id: nat, n: nat)
    requires NoneOverwrites(s, es, id) && n <= |es|
    ensures NoneOverwrites(s, es[..n], id)
  {
    hide Overwrites, Run;
    assert forall k :: 0 <= k < n ==> es[..n][..k] == es[..k] && es[..n][k] == es[k];
  }

  /** A deleted review stays deleted over a whole run exactly if no scan saves it in that run. */
  lemma DeletedStays(s: State, es: seq<Event>, id: nat)
    requires IdsAreOld(s) && id in s.reviews && s.reviews[id].status == Deleted
    ensures HasThroughout(s, es, id, Deleted, s.reviews[id].reviewAfter) <==> NoneOverwrites(s, es, id)
  {
    LastsExactly(s, es, id, Deleted, s.reviews[id].reviewAfter);
  }

  /** A scan that looked at the review on or after the date puts it back on the list. */
  predicate ReopensAfter(s: State, e: Event, id: nat, date: Moment) {
    PutsBack(s, e, id) && Rank(date) <= Rank(s.held[e.h].now)
  }

  /** The first scan that saves the review, if any does, puts it back on the list on or after the date. */
  ghost predicate FirstSaveIsInTime(s: State, es: seq<Event>, id: nat, date: Moment) {
    forall k :: 0 <= k < |es| && NoneOverwrites(s, es[..k], id) && Overwrites(Run(s, es[..k]), es[k], id) ==>
      ReopensAfter(Run(s, es[..k]), es[k], id, date)
  }

  /** The deferral holds up to its date: while it has not been reopened in time, the review is deferred. */
  ghost predicate DeferralHolds(s: State, es: seq<Event>, id: nat, date: Moment) {
    forall n: nat :: n <= |es| ==>
      Has(Run(s, es[..n]), id, Deferred, Some(date)) || ReopenedInTime(s, es[..n], id, date)
  }

  ghost predicate ReopenedInTime(s: State, es: seq<Event>, id: nat, date: Moment) {
    exists k :: 0 <= k < |es| && NoneOverwrites(s, es[..k], id) && ReopensAfter(Run(s, es[..k]), es[k], id, date)
  }

  lemma {:induction false} FirstOverwrite(s: State, es: seq<Event>, id: nat) returns (k: nat)
    requires !NoneOverwrites(s, es, id)
    ensures k < |es| && NoneOverwrites(s, es[..k], id) && Overwrites(Run(s, es[..k]), es[k], id)
  {
    hide Overwrites, Run, NoneOverwrites;
    if es == [] {
      NothingOverwrites(s, id);
      assert false;
    } else {
      var n := |es| - 1;
      NoneOverwritesFront(s, es, id);
      if NoneOverwrites(s, es[..n], id) {
        k := n;
      } else {
        k := FirstOverwrite(s, es[..n], id);
        assert es[..n][..k] == es[..k];
      }
    }
  }

  lemma NothingOverwrites(s: State, id: nat)
    ensures NoneOverwrites(s, [], id)
  {
  }

  lemma QuietBefore(s: State, es: seq<Event>, id: nat, j: nat, k: nat)
    requires j < k <= |es| && NoneOverwrites(s, es[..k], id)
    ensures !Overwrites(Run(s, es[..j]), es[j], id)
  {
    hide Overwrites, Run;
    assert es[..k][..j] == es[..j] && es[..k][j] == es[j];
  }

  lemma OneFirstOverwrite(s: State, es: seq<Event>, id: nat, j: nat, k: nat)
    requires j < |es| && k < |es|
    requires NoneOverwrites(s, es[..j], id) && Overwrites(Run(s, es[..j]), es[j], id)
    requires NoneOverwrites(s, es[..k], id) && Overwrites(Run(s, es[..k]), es[k], id)
    ensures j == k
  {
    hide Overwrites, Run, NoneOverwrites;
    if j < k {
      QuietBefore(s, es, id, j, k);
    } else if k < j {
      QuietBefore(s, es, id, k, j);
    }
  }

  lemma ReopeningOverwrites(s: State, e: Event, id: nat, date: Moment)
    requires ReopensAfter(s, e, id, date)
    ensures Overwrites(s, e, id)
  {
  }

  lemma HeldDeferral(s: State, es: seq<Event>, id: nat, date: Moment, n: nat)
    requires IdsAreOld(s) && Has(s, id, Deferred, Some(date)) && n <= |es| && FirstSaveIsInTime(s, es, id, date)
    ensures Has(Run(s, es[..n]), id, Deferred, Some(date)) || ReopenedInTime(s, es[..n], id, date)
  {
    hide Run, Has, Overwrites, NoneOverwrites, ReopensAfter;
    if NoneOverwrites(s, es[..n], id) {
      DecisionLasts(s, es[..n], id, Deferred, Some(date));
    } else {
      var k := FirstOverwrite(s, es[..n], id);
      assert es[..n][..k] == es[..k] && es[..n][k] == es[k];
    }
  }

  lemma EarlySaveUndoes(s: State, es: seq<Event>, id: nat, date: Moment, k: nat)
    requires IdsAreOld(s) && Has(s, id, Deferred, Some(date)) && k < |es|
    requires NoneOverwrites(s, es[..k], id) && Overwrites(Run(s, es[..k]), es[k], id)
    requires !ReopensAfter(Run(s, es[..k]), es[k], id, date)
    ensures !Has(Run(s, es[..k + 1]), id, Deferred, Some(date)) && !ReopenedInTime(s, es[..k + 1], id, date)
  {
    hide Step, Overwrites, NoneOverwrites, ReopensAfter;
    var now := es[..k + 1];
    assert now[..k] == es[..k];
    RunKeepsReviews(s, es[..k], id);
    DecisionLasts(s, es[..k], id, Deferred, Some(date));
    DecisionEndsExactly(Run(s, es[..k]), es[k], id);
    forall j: nat | j < |now| && NoneOverwrites(s, now[..j], id)
      ensures !ReopensAfter(Run(s, now[..j]), now[j], id, date)
    {
      if ReopensAfter(Run(s, now[..j]), now[j], id, date) {
        ReopeningOverwrites(Run(s, now[..j]), now[j], id, date);
        OneFirstOverwrite(s, now, id, j, k);
      }
    }
  }

  /** A deferral holds up to its date exactly if the first scan that saves the review, if one does, puts it back
      on the list and looked at it on or after the date. */
  lemma DeferralLasts(s: State, es: seq<Event>, id: nat, date: Moment)
    requires IdsAreOld(s) && Has(s, id, Deferred, Some(date))
    ensures DeferralHolds(s, es, id, date) <==> FirstSaveIsInTime(s, es, id, date)
  {
    hide Run, Has, Overwrites, NoneOverwrites, ReopensAfter, ReopenedInTime;
    if FirstSaveIsInTime(s, es, id, date) {
      forall n: nat | n <= |es|
        ensures Has(Run(s, es[..n]), id, Deferred, Some(date)) || ReopenedInTime(s, es[..n], id, date)
      {
        HeldDeferral(s, es, id, date, n);
      }
    } else {
      var k: nat :| k < |es| && NoneOverwrites(s, es[..k], id) && Overwrites(Run(s, es[..k]), es[k], id)
                    && !ReopensAfter(Run(s, es[..k]), es[k], id, date);
      EarlySaveUndoes(s, es, id, date, k);
    }
  }

  // Why a scan saves a decided review

  predicate HeldIsSound(held: Held) {
    match held
    case Considering(_, row, now) => Candidate(row, now)
    case Reopening(_, review, _, _, now) => Reopenable(review, now)
    case Checking(_, review, _) => review.status == Pending
  }

  predicate AllSound(s: State) {
    forall h :: h in s.held ==> HeldIsSound(s.held[h])
  }

  lemma StepIsSound(s: State, e: Event)
    requires AllSound(s)
    ensures AllSound(Step(s, e))
  {
    hide Eligible, LastActivity, Candidate, DueOf, Approvable, Confirmed, DeferReview, Reopenable;
    if e.Defer? {
      DeferKeepsHeld(s, e.id, e.permitted, e.reasonGiven, e.months, e.now);
    }
  }

  lemma DeferKeepsHeld(s: State, id: nat, permitted: bool, reasonGiven: bool, months: int, now: Stamp)
    ensures DeferReview(s, id, permitted, reasonGiven, months, now).held == s.held
  {
  }

  lemma {:induction false} RunIsSound(s: State, es: seq<Event>)
    requires AllSound(s)
    ensures AllSound(Run(s, es))
  {
    hide Step;
    if es != [] {
      RunIsSound(s, es[..|es| - 1]);
      StepIsSound(Run(s, es[..|es| - 1]), es[|es| - 1]);
    }
  }

  /** What the scan read of the review is no longer so. */
  predicate Stale(s: State, e: Event, id: nat)
    requires (e.Reopen? || e.Cancel?) && e.h in s.held && !s.held[e.h].Considering? && id in s.reviews
  {
    || s.held[e.h].review.status != s.reviews[id].status
    || s.held[e.h].review.reviewAfter != s.reviews[id].reviewAfter
  }

  /** In every run, a scan that saves a deleted review, or a deferred one other than to reopen it in time, read it
      before it was decided. */
  lemma OverwritesAreStale(s: State, es: seq<Event>, e: Event, id: nat)
    requires AllSound(s)
    requires var u := Run(s, es);
             Overwrites(u, e, id) && id in u.reviews
             && (u.reviews[id].status == Deleted
                 || (u.reviews[id].status == Deferred && u.reviews[id].reviewAfter.Some?
                     && !ReopensAfter(u, e, id, u.reviews[id].reviewAfter.value)))
    ensures Stale(Run(s, es), e, id)
  {
    RunIsSound(s, es);
    hide Run, Eligible, Rank;
  }
}
