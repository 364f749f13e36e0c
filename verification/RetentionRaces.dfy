/** Runs that show what retention does not promise. */
module RetentionRaces {
  import opened Text
  import opened Months
  import opened Retention
  import opened RetentionReviews

  const OLD: Stamp := Moment(2020, 5, 10, 0)
  const NOW: Stamp := Moment(2024, 5, 10, 0)
  const LEAD := Lead(Some(1), 7, OLD, OLD, false, false, false, Some(Lost))
  const WORLD := World(map[1 := LEAD], {}, [], map[])
  const REVIEW := Review(Some(1), Pending, OLD, Moment(2023, 5, 10, 0), None)
  const START := State(WORLD, map[1 := REVIEW], 2, map[])

  lemma OldIsDue()
    ensures DueBy(OLD, NOW)
  {
    ThreeYears(OLD, 36);
  }

  lemma LeadIsEligible()
    ensures Eligible(WORLD, 1, LEAD, NOW)
  {
    OldIsDue();
    hide DueBy;
    assert Conversations(WORLD, LEAD) == {};
    assert LastActivity(WORLD, 1, LEAD, OLD);
  }

  lemma ClientIsProtected(w: World)
    requires 7 in w.clients
    ensures !Eligible(w, 1, LEAD, NOW)
  {
  }

  predicate StatusIs(s: State, id: nat, status: Status) {
    id in s.reviews && s.reviews[id].status == status
  }

  lemma FourSteps(s: State, a: Event, b: Event, c: Event, d: Event)
    ensures Run(s, [a, b]) == Step(Step(s, a), b)
    ensures Run(s, [a, b, c, d]) == Step(Step(Step(Step(s, a), b), c), d)
  {
    hide Step;
    assert [a][..0] == [] && [a, b][..1] == [a];
    assert [a, b, c][..2] == [a, b] && [a, b, c, d][..3] == [a, b, c];
    assert Run(s, []) == s;
    assert Run(s, [a]) == Step(s, a);
  }

  const PICKED := START.(held := map[0 := Checking(1, REVIEW, Some((1, LEAD)))])

  lemma PickStep()
    ensures Step(START, Pick(0, 1)) == PICKED
  {
  }

  const GAINED := World(map[1 := LEAD], {7}, [], map[])

  /** A deferral between the query of a scan and its save is undone the same day. */
  lemma ScanUndoesDeferral()
    ensures var es := [Pick(0, 1), Defer(1, true, true, 3, NOW), Edit(GAINED), Cancel(0, NOW)];
            && AllSound(START) && IdsAreOld(START)
            && StatusIs(Run(START, es[..2]), 1, Deferred)
            && Run(START, es[..2]).reviews[1].reviewAfter == Some(Moment(2024, 8, 10, 0))
            && StatusIs(Run(START, es), 1, Cancelled)
  {
    hide Eligible;
    var es := [Pick(0, 1), Defer(1, true, true, 3, NOW), Edit(GAINED), Cancel(0, NOW)];
    assert es[..2] == [Pick(0, 1), Defer(1, true, true, 3, NOW)];
    FourSteps(START, es[0], es[1], es[2], es[3]);
    PickStep();
    assert AddMonths(NOW, 3) == Some(Moment(2024, 8, 10, 0));
    ClientIsProtected(GAINED);
  }

  const LOST_WORLD := World(map[], {7}, [], map[])

  /** An approval in between is undone as well: the lead is gone and its review reads "no longer eligible". */
  lemma ScanUndoesDeletion()
    ensures var es := [Pick(0, 1), Approve(1, true, true, NOW, WORLD, NOW), Edit(LOST_WORLD), Cancel(0, NOW)];
            && AllSound(START) && IdsAreOld(START)
            && StatusIs(Run(START, es[..2]), 1, Deleted) && 1 !in Run(START, es[..2]).world.leads
            && StatusIs(Run(START, es), 1, Cancelled)
  {
    hide Eligible, Linked;
    var es := [Pick(0, 1), Approve(1, true, true, NOW, WORLD, NOW), Edit(LOST_WORLD), Cancel(0, NOW)];
    assert es[..2] == [Pick(0, 1), Approve(1, true, true, NOW, WORLD, NOW)];
    FourSteps(START, es[0], es[1], es[2], es[3]);
    PickStep();
    LeadIsEligible();
    NothingLinked();
    assert Approvable(PICKED, es[1]) && Confirmed(PICKED, es[1]);
    ClientIsProtected(LOST_WORLD);
  }

  lemma NothingLinked()
    ensures Linked(WORLD, 1, LEAD) == {}
  {
    assert Conversations(WORLD, LEAD) == {};
  }

  // A conversation of two leads with different addresses

  const OTHER := LEAD.(email := 8)
  const TALK := Ticket(1, false, false, true, true, OLD, OLD, Some(OLD), None)
  const MAIL := Message(5, [7, 8], OLD, OLD, false)
  const SHARED := World(map[1 := LEAD, 2 := OTHER], {}, [MAIL], map[5 := TALK])
  const SHARING := State(SHARED, map[1 := REVIEW], 2, map[])

  lemma SharedConversation()
    ensures Concerns(SHARED, LEAD, MAIL) && Concerns(SHARED, OTHER, MAIL)
    ensures Conversations(SHARED, LEAD) == {5} == Conversations(SHARED, OTHER) && !HasSibling(SHARED, 1, LEAD)
  {
    assert 7 in MAIL.addresses && 8 in MAIL.addresses;
    assert SHARED.messages[0] == MAIL;
    assert forall t :: t in Conversations(SHARED, LEAD) || t in Conversations(SHARED, OTHER) ==> t == 5;
  }

  lemma SharedIsEligible()
    ensures Eligible(SHARED, 1, LEAD, NOW)
  {
    OldIsDue();
    SharedConversation();
    hide DueBy, Conversations;
    assert !Protected(SHARED, 1, LEAD);
    assert LastActivity(SHARED, 1, LEAD, OLD);
  }

  /** A conversation goes with one lead although another lead, of another address, took part in it and stays:
      only leads of the same address count as sharing it. */
  lemma SharedConversationGoes()
    ensures var t := Step(SHARING, Approve(1, true, true, NOW, SHARED, NOW));
            && 5 in SHARED.tickets && Concerns(SHARED, OTHER, MAIL)
            && 2 in t.world.leads && t.world.leads[2] == OTHER
            && 5 !in t.world.tickets
            && TakesShared(SHARING, Approve(1, true, true, NOW, SHARED, NOW), 5)
  {
    SharedConversation();
    SharedIsEligible();
    hide Eligible, Conversations, Without;
    var e := Approve(1, true, true, NOW, SHARED, NOW);
    assert Approvable(SHARING, e) && Confirmed(SHARING, e);
    assert AlsoTookPart(e, 1, 2, 5) by {
      SharedConversation();
    }
    SharedGoesExactly(SHARING, e, 5);
  }
}
