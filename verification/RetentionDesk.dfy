/** The review list as the code updates it. */
module RetentionDesk {
  import opened Text
  import opened Months
  import opened Retention
  import opened RetentionReviews

  /** The scan wants this lead on the list. */
  ghost predicate Wanted(w: World, l: nat, now: Stamp) {
    l in w.leads && Candidate(w.leads[l], now) && Eligible(w, l, w.leads[l], now)
  }

  /** What the first loop makes of a review. */
  ghost function Listed(w: World, r: Review, now: Stamp): Review {
    if r.lead.Some? && Wanted(w, r.lead.value, now) && Reopenable(r, now) then
      var last := LastOf(w, r.lead.value, w.leads[r.lead.value]);
      r.(status := Pending, last := last, due := DueOf(last))
    else r
  }

  ghost predicate StillEligible(w: World, lead: Option<nat>, now: Stamp) {
    lead.Some? && lead.value in w.leads && Eligible(w, lead.value, w.leads[lead.value], now)
  }

  /** What the second loop makes of it. */
  ghost function Rechecked(w: World, r: Review, now: Stamp): Review {
    if r.status == Pending && !StillEligible(w, r.lead, now) then r.(status := Cancelled) else r
  }

  /** At most one review per lead. */
  predicate OneReviewEach(reviews: map<nat, Review>) {
    forall i, j :: i in reviews && j in reviews && i != j && reviews[i].lead.Some? ==> reviews[i].lead != reviews[j].lead
  }

  predicate HasReview(reviews: map<nat, Review>, l: nat) {
    exists id :: id in reviews && ReviewOf(reviews, id, l)
  }

  lemma LastIsLastOf(w: World, l: nat, lead: Lead, at: Stamp)
    requires LastActivity(w, l, lead, at)
    ensures LastOf(w, l, lead) == at
  {
    hide Active, Rank;
    RankIsInjective(LastOf(w, l, lead), at);
  }

  /** A review while the leads of `todo` have not been looked at. */
  ghost function ListedSoFar(w: World, todo: set<nat>, r: Review, now: Stamp): Review {
    if r.lead.Some? && r.lead.value in w.leads && r.lead.value !in todo then Listed(w, r, now) else r
  }

  class ReviewDesk {
    var world: World
    var reviews: map<nat, Review>
    var nextReview: nat

    ghost function View(): State
      reads this
    {
      State(world, reviews, nextReview, map[])
    }

    predicate Valid()
      reads this
    {
      OneReviewEach(reviews) && forall id :: id in reviews ==> id < nextReview
    }

    /** One lead of the first loop: `get_or_create`, then perhaps back on the list. */
    method ScanLead(l: nat, now: Stamp)
      requires Valid() && l in world.leads
      modifies this`reviews, this`nextReview
      ensures Valid()
      ensures forall id :: id in old(reviews) ==>
                id in reviews
                && reviews[id] == if old(reviews)[id].lead == Some(l) then Listed(world, old(reviews)[id], now)
                                  else old(reviews)[id]
      ensures forall id :: id in reviews && id !in old(reviews) ==>
                reviews[id].lead == Some(l) && reviews[id].status == Pending && Wanted(world, l, now)
      ensures forall id :: id in reviews && id !in old(reviews) ==> !HasReview(old(reviews), l)
      ensures Wanted(world, l, now) ==> HasReview(reviews, l)
    {
      hide Eligible, LastActivity, Candidate, Linked, DueOf;
      var lead := world.leads[l];
      if !Candidate(lead, now) {
        return;
      }
      var a := AssessLead(world, l, lead, now);
      if !a.eligible {
        return;
      }
      LastIsLastOf(world, l, lead, a.last);
      if id :| id in reviews && ReviewOf(reviews, id, l) {
        if Reopenable(reviews[id], now) {
          reviews := reviews[id := reviews[id].(status := Pending, last := a.last, due := DueOf(a.last))];
          assert ReviewOf(reviews, id, l);
        }
      } else {
        reviews := reviews[nextReview := Review(Some(l), Pending, a.last, DueOf(a.last), None)];
        assert ReviewOf(reviews, nextReview, l);
        nextReview := nextReview + 1;
      }
    }

    /** The first loop of `refresh_retention_reviews`. */
    method ListLeads(now: Stamp)
      requires Valid()
      modifies this`reviews, this`nextReview
      ensures Valid()
      ensures forall id :: id in old(reviews) ==> id in reviews && reviews[id] == Listed(world, old(reviews)[id], now)
      ensures forall id :: id in reviews && id !in old(reviews) ==>
                reviews[id].status == Pending && reviews[id].lead.Some? && Wanted(world, reviews[id].lead.value, now)
      ensures forall l :: Wanted(world, l, now) ==> HasReview(reviews, l)
    {
      hide Eligible, LastActivity, Candidate, Listed, Wanted, HasReview, OneReviewEach;
      var todo := world.leads.Keys;
      while todo != {}
        invariant todo <= world.leads.Keys && Valid()
        invariant forall id :: id in old(reviews) ==>
                    id in reviews && reviews[id].lead == old(reviews)[id].lead
                    && reviews[id] == ListedSoFar(world, todo, old(reviews)[id], now)
        invariant forall id :: id in reviews && id !in old(reviews) ==>
                    reviews[id].status == Pending && reviews[id].lead.Some? && reviews[id].lead.value in world.leads
                    && reviews[id].lead.value !in todo && Wanted(world, reviews[id].lead.value, now)
        invariant forall l :: l in world.leads && l !in todo && Wanted(world, l, now) ==> HasReview(reviews, l)
      {
        var l :| l in todo;
        todo := todo - {l};
        ghost var before := reviews;
        ScanLead(l, now);
        ListedKeepsLead(world, now);
        KeepsReviews(before, reviews);
      }
      ListedElsewhere(world, now);
    }

    /** The second loop: what is on the list and no longer eligible is taken off. */
    method CheckPending(now: Stamp)
      requires Valid()
      modifies this`reviews
      ensures Valid() && reviews.Keys == old(reviews.Keys)
      ensures forall id :: id in reviews ==> reviews[id] == Rechecked(world, old(reviews)[id], now)
    {
      hide Eligible, LastActivity, Linked;
      var todo := reviews.Keys;
      while todo != {}
        invariant todo <= reviews.Keys && reviews.Keys == old(reviews.Keys)
        invariant forall id :: id in reviews ==>
                    reviews[id] == if id in todo then old(reviews)[id] else Rechecked(world, old(reviews)[id], now)
      {
        var id :| id in todo;
        todo := todo - {id};
        var r := reviews[id];
        if r.status == Pending {
          var keep := false;
          if r.lead.Some? && r.lead.value in world.leads {
            var a := AssessLead(world, r.lead.value, world.leads[r.lead.value], now);
            keep := a.eligible;
          }
          if !keep {
            reviews := reviews[id := r.(status := Cancelled)];
          }
        }
      }
    }

    /** `refresh_retention_reviews`, when nothing happens meanwhile: every review goes through both loops, every
        lead that is wanted has one, and what is pending afterwards is eligible. */
    method RefreshReviews(now: Stamp)
      requires Valid()
      modifies this`reviews, this`nextReview
      ensures Valid()
      ensures forall id :: id in old(reviews) ==>
                id in reviews && reviews[id] == Rechecked(world, Listed(world, old(reviews)[id], now), now)
      ensures forall l :: Wanted(world, l, now) ==> HasReview(reviews, l)
      ensures forall id :: id in reviews && reviews[id].status == Pending ==> StillEligible(world, reviews[id].lead, now)
    {
      ListLeads(now);
      hide Listed, Wanted, StillEligible;
      ghost var listed := reviews;
      CheckPending(now);
      KeepsReviews(listed, reviews);
    }

    /** `approve_retention_review`, when nothing happens between the two looks. */
    method ApproveReview(id: nat, permitted: bool, mayDeleteTickets: bool, now: Stamp) returns (approved: bool)
      modifies this`world, this`reviews
      ensures View() == RetentionReviews.ApproveReview(
                old(View()), Approve(id, permitted, mayDeleteTickets, now, old(world), now))
      ensures approved <==>
                && permitted && id in old(reviews) && old(reviews)[id].status == Pending && old(reviews)[id].lead.Some?
                && var l := old(reviews)[id].lead.value;
                && l in old(world).leads && Eligible(old(world), l, old(world).leads[l], now)
                && (mayDeleteTickets || Linked(old(world), l, old(world).leads[l]) == {})
      ensures approved ==>
                var l := old(reviews)[id].lead.value;
                && world.leads == old(world).leads - {l}
                && world.tickets == old(world).tickets - Linked(old(world), l, old(world).leads[l])
                && reviews.Keys == old(reviews.Keys) && reviews[id].status == Deleted
                && (forall other :: other in reviews ==> reviews[other].lead != Some(l))
      ensures !approved ==> world == old(world) && reviews == old(reviews)
    {
      hide Eligible, Linked, Without, LastActivity;
      if !permitted || id !in reviews || reviews[id].status != Pending || reviews[id].lead.None? {
        return false;
      }
      var l := reviews[id].lead.value;
      if l !in world.leads {
        return false;
      }
      var lead := world.leads[l];
      var a := AssessLead(world, l, lead, now);
      if !a.eligible || (a.tickets != {} && !mayDeleteTickets) {
        return false;
      }
      var current := AssessLead(world, l, lead, now);
      if !current.eligible || current.tickets != a.tickets {
        return false;
      }
      reviews := Unreferenced(reviews[id := reviews[id].(status := Deleted)], l);
      world := Forget(world, l, a.tickets);
      return true;
    }

    /** `defer_retention_review`. */
    method DeferReview(id: nat, permitted: bool, reasonGiven: bool, months: int, now: Stamp) returns (deferred: bool)
      modifies this`reviews
      ensures View() == RetentionReviews.DeferReview(old(View()), id, permitted, reasonGiven, months, now)
      ensures deferred <==>
                && permitted && reasonGiven && (months == 3 || months == 6 || months == 12)
                && id in old(reviews) && old(reviews)[id].status == Pending && old(reviews)[id].lead.Some?
                && AddMonths(now, months).Some?
      ensures reviews == if deferred then
                           var after := AddMonths(now, months);
                           old(reviews)[id := old(reviews)[id].(status := Deferred, reviewAfter := after)]
                         else old(reviews)
    {
      if !permitted || !reasonGiven || months !in {3, 6, 12} {
        return false;
      }
      if id !in reviews || reviews[id].status != Pending || reviews[id].lead.None? {
        return false;
      }
      var after := AddMonths(now, months);
      if after.None? {
        return false;
      }
      reviews := reviews[id := reviews[id].(status := Deferred, reviewAfter := after)];
      return true;
    }
  }

  lemma ListedKeepsLead(w: World, now: Stamp)
    ensures forall r: Review :: Listed(w, r, now).lead == r.lead
  {
    hide Wanted, Candidate, DueOf;
  }

  lemma ListedElsewhere(w: World, now: Stamp)
    ensures forall r: Review :: r.lead.None? || r.lead.value !in w.leads ==> Listed(w, r, now) == r
    ensures forall l :: Wanted(w, l, now) ==> l in w.leads
  {
    hide Candidate, Eligible, DueOf;
  }

  lemma KeepsReviews(before: map<nat, Review>, after: map<nat, Review>)
    requires forall id :: id in before ==> id in after && after[id].lead == before[id].lead
    ensures forall l :: HasReview(before, l) ==> HasReview(after, l)
  {
    forall l | HasReview(before, l)
      ensures HasReview(after, l)
    {
      var id :| id in before && ReviewOf(before, id, l);
      assert ReviewOf(after, id, l);
    }
  }
}
