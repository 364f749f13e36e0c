/** Whether a rejected caller who waits as long as it was told is let through. */
module RetryPromise {
  import opened Text
  import opened RateLimit

  /** The configured limits. */
  datatype Limit =
    | WebsiteContact
    | LoginIp
    | LoginAccount
    | Register
    | PasswordResetIp
    | PasswordResetEmail
    | TwoFactorVerify
    | EmailVerify
    | PasskeyDiscover
    | OauthRegister
    | OauthAuthorize
    | OauthToken
    | OauthIntrospectFailure
    | ApiGeneral

  /** `RATE_LIMITS`. */
  function ConfigOf(limit: Limit): Config {
    match limit
    case WebsiteContact => Config(5, 600, 600)
    case LoginIp => Config(5, 60, 300)
    case LoginAccount => Config(10, 900, 900)
    case Register => Config(3, 3600, 3600)
    case PasswordResetIp => Config(3, 3600, 0)
    case PasswordResetEmail => Config(3, 3600, 0)
    case TwoFactorVerify => Config(5, 300, 300)
    case EmailVerify => Config(5, 3600, 0)
    case PasskeyDiscover => Config(10, 60, 60)
    case OauthRegister => Config(10, 3600, 3600)
    case OauthAuthorize => Config(30, 60, 300)
    case OauthToken => Config(60, 60, 300)
    case OauthIntrospectFailure => Config(10, 60, 300)
    case ApiGeneral => Config(100, 60, 0)
  }

  /** A limit that can be met again: it has a request to give and, if it blocks at all, blocks for a window. */
  predicate Fair(c: Config) {
    c.requests >= 1 && c.blockDuration >= 0 && (c.blockDuration > 0 ==> c.blockDuration >= c.window)
  }

  lemma TableIsFair(limit: Limit)
    ensures Fair(ConfigOf(limit)) && ConfigOf(limit).window >= 1
  {
  }

  /** Checks, since the epoch. */
  ghost predicate OnlyChecks(calls: seq<Call>) {
    forall k :: 0 <= k < |calls| ==> calls[k].Check? && calls[k].at >= 0.0
  }

  /** The limiter after more calls. */
  function Continue(l: Limiter, c: Config, calls: seq<Call>): Limiter {
    if calls == [] then l else Step(Continue(l, c, calls[..|calls| - 1]), c, calls[|calls| - 1])
  }

  /** What only checks keep up to the time `last` of the last one: the log holds no more than `requests`
      timestamps, and a block that is still on is younger than all of them. */
  ghost predicate Tidy(l: Limiter, c: Config, last: real) {
    && (l.log.Some? ==> |l.log.value.value| <= c.requests && UpTo(l.log.value.value, last))
    && (l.block.Some? ==>
          && c.blockDuration > 0 && l.block.value.value > 0.0 && l.block.value.expires == l.block.value.value
          && (l.log.Some? && last < l.block.value.value ==>
                UpTo(l.log.value.value, l.block.value.value - c.blockDuration as real)))
  }

  lemma {:induction false} RecentIsUpTo(ts: seq<real>, start: real, last: real)
    requires UpTo(ts, last)
    ensures UpTo(Recent(ts, start), last)
  {
    if ts != [] {
      RecentIsUpTo(ts[..|ts| - 1], start, last);
    }
  }

  lemma UpToLater(ts: seq<real>, early: real, late: real)
    requires UpTo(ts, early) && early <= late
    ensures UpTo(ts, late)
  {
  }

  lemma CheckIsTidy(l: Limiter, c: Config, last: real, now: real)
    requires c.requests >= 1 && Tidy(l, c, last) && last <= now && now >= 0.0
    ensures Tidy(Checked(l, c, now), c, now)
  {
    hide Recent;
    if l.log.Some? {
      UpToLater(l.log.value.value, last, now);
      RecentIsUpTo(l.log.value.value, now - c.window as real, now);
    }
    NoneRecent([], now - c.window as real);
    assert UpTo(Counted(l, c, now), now);
    BlockStaysYoung(l, c, last, now);
  }

  lemma BlockStaysYoung(l: Limiter, c: Config, last: real, now: real)
    requires c.requests >= 1 && Tidy(l, c, last) && last <= now && now >= 0.0
    ensures var t := Checked(l, c, now);
            t.block.Some? && t.log.Some? && now < t.block.value.value ==>
              UpTo(t.log.value.value, t.block.value.value - c.blockDuration as real)
  {
    hide Recent;
    if l.log.Some? {
      UpToLater(l.log.value.value, last, now);
    }
  }

  lemma {:induction false} ChecksAreTidy(c: Config, calls: seq<Call>, now: real)
    requires c.requests >= 1 && OnlyChecks(calls) && Ordered(calls + [Check(now)])
    ensures Tidy(Run(c, calls), c, now)
  {
    if calls != [] {
      var n := |calls| - 1;
      var front, call := calls[..n], calls[n];
      var all := calls + [Check(now)];
      assert front + [Check(call.at)] == calls;
      assert forall i :: 0 <= i < |calls| ==> calls[i] == all[i];
      assert all[n].at <= all[n + 1].at;
      ChecksAreTidy(c, front, call.at);
      hide Checked, Run;
      RunStep(c, calls);
      CheckIsTidy(Run(c, front), c, call.at, call.at);
      TidyLater(Run(c, calls), c, call.at, now);
    }
  }

  lemma RunStep(c: Config, calls: seq<Call>)
    requires calls != [] && calls[|calls| - 1].Check?
    ensures Run(c, calls) == Checked(Run(c, calls[..|calls| - 1]), c, calls[|calls| - 1].at)
  {
  }

  lemma TidyLater(l: Limiter, c: Config, early: real, late: real)
    requires Tidy(l, c, early) && early <= late
    ensures Tidy(l, c, late)
  {
  }

  // Rejections change nothing but the block

  predicate Rejects(l: Limiter, c: Config, now: real) {
    !Answer(l, c, now).allowed
  }

  lemma RejectionKeepsLog(l: Limiter, c: Config, now: real)
    requires Rejects(l, c, now)
    ensures Checked(l, c, now).log == l.log
    ensures Blocked(l, now) || c.blockDuration <= 0 ==> Checked(l, c, now) == l
  {
    hide Recent, Min;
  }

  ghost predicate AllRejected(l: Limiter, c: Config, calls: seq<Call>) {
    OnlyChecks(calls) && forall k :: 0 <= k < |calls| ==> Rejects(Continue(l, c, calls[..k]), c, calls[k].at)
  }

  lemma {:induction false} RejectionsAreIdle(l: Limiter, c: Config, calls: seq<Call>)
    requires c.blockDuration <= 0 && AllRejected(l, c, calls)
    ensures Continue(l, c, calls) == l
  {
    if calls != [] {
      var front := calls[..|calls| - 1];
      assert forall k :: 0 <= k < |front| ==> front[..k] == calls[..k] && front[k] == calls[k];
      RejectionsAreIdle(l, c, front);
      RejectionKeepsLog(l, c, calls[|calls| - 1].at);
    }
  }

  // Without a block

  lemma {:induction false} OldestDrops(ts: seq<real>, m: real, start: real)
    requires m in ts && m <= start
    ensures |Recent(ts, start)| < |ts|
  {
    var n := |ts| - 1;
    assert ts == ts[..n] + [ts[n]];
    if ts[n] > start {
      OldestDrops(ts[..n], m, start);
    }
  }

  /** Once the oldest timestamp that counted has left the window, there is room. */
  lemma RoomAfterOldest(l: Limiter, c: Config, now: real, later: real)
    requires c.requests >= 1 && Tidy(l, c, now) && l.block == None
    requires Rejects(l, c, now) && later >= now + Answer(l, c, now).retryAfter as real && c.blockDuration <= 0
    ensures !Rejects(l, c, later)
  {
    hide Recent, Min;
    var start, end := now - c.window as real, later - c.window as real;
    var counted := Counted(l, c, now);
    var m := Min(counted);
    assert m > start;
    assert m <= end;
    if Get(l.log, later).Some? {
      var ts := l.log.value.value;
      assert counted == Recent(ts, start);
      RecentTwice(ts, start, end);
      OldestDrops(counted, m, end);
    } else {
      NoneRecent([], end);
    }
  }

  // With a block

  /** Once a block is over, nothing counts any more. */
  lemma RoomAfterBlock(l: Limiter, c: Config, last: real, later: real)
    requires Fair(c) && Tidy(l, c, last) && l.block.Some? && last < l.block.value.value <= later
    ensures !Rejects(l, c, later)
  {
    hide Recent, Min;
    var end := later - c.window as real;
    if l.log.Some? {
      UpToLater(l.log.value.value, l.block.value.value - c.blockDuration as real, end);
      NoneRecent(l.log.value.value, end);
    }
    NoneRecent([], end);
  }

  ghost predicate ChecksBefore(calls: seq<Call>, until: real) {
    forall k :: 0 <= k < |calls| ==> calls[k].Check? && calls[k].at < until
  }

  predicate IsBlock(block: Option<Cached<real>>, until: real) {
    block == Some(Cached(until, until)) && until != 0.0
  }

  lemma {:induction false} BlockLasts(l: Limiter, c: Config, calls: seq<Call>, until: real)
    requires IsBlock(l.block, until) && ChecksBefore(calls, until)
    ensures Continue(l, c, calls) == l
  {
    hide Checked, IsBlock;
    if calls != [] {
      var n := |calls| - 1;
      BlockLasts(l, c, calls[..n], until);
      BlockedIsIdle(l, c, calls[n].at, until);
    }
  }

  /** Before it is over every check is rejected and changes nothing. */
  lemma BlockIsIdle(l: Limiter, c: Config, calls: seq<Call>, until: real)
    requires IsBlock(l.block, until) && ChecksBefore(calls, until) && OnlyChecks(calls)
    ensures AllRejected(l, c, calls) && Continue(l, c, calls) == l
  {
    hide Rejects, Continue, IsBlock;
    forall k | 0 <= k < |calls|
      ensures Rejects(Continue(l, c, calls[..k]), c, calls[k].at)
    {
      BlockLasts(l, c, calls[..k], until);
      BlockedIsIdle(l, c, calls[k].at, until);
    }
    BlockLasts(l, c, calls, until);
  }

  lemma BlockedIsIdle(l: Limiter, c: Config, now: real, until: real)
    requires IsBlock(l.block, until) && now < until
    ensures Rejects(l, c, now) && Checked(l, c, now) == l
  {
    hide Recent, Min;
  }

  // The promises

  /** A caller of a limit that does not block is let through after its `retry_after`, unless another call is let
      through before; the calls that are rejected before do not make it wait longer. */
  lemma RejectionKeepsItsPromise(c: Config, calls: seq<Call>, now: real, more: seq<Call>, later: real)
    requires c.requests >= 1 && c.blockDuration <= 0
    requires OnlyChecks(calls + [Check(now)]) && Ordered(calls + [Check(now)])
    requires Rejects(Run(c, calls), c, now) && AllRejected(Run(c, calls + [Check(now)]), c, more)
    requires later >= now + Answer(Run(c, calls), c, now).retryAfter as real
    ensures !Rejects(Continue(Run(c, calls + [Check(now)]), c, more), c, later)
  {
    hide Answer, Checked, Tidy, AllRejected;
    var l := Run(c, calls);
    OnlyChecksFront(calls, Check(now));
    ChecksAreTidy(c, calls, now);
    assert (calls + [Check(now)])[..|calls|] == calls;
    RunStep(c, calls + [Check(now)]);
    RejectionKeepsLog(l, c, now);
    RejectionsAreIdle(l, c, more);
    NeverBlocks(c, calls);
    RoomAfterOldest(l, c, now, later);
  }

  lemma OnlyChecksFront(calls: seq<Call>, last: Call)
    requires OnlyChecks(calls + [last])
    ensures OnlyChecks(calls) && last.Check? && last.at >= 0.0
  {
    var all := calls + [last];
    assert forall k :: 0 <= k < |calls| ==> all[k] == calls[k];
    assert all[|calls|] == last;
  }

  lemma {:induction false} NeverBlocks(c: Config, calls: seq<Call>)
    requires c.blockDuration <= 0
    ensures Run(c, calls).block == None
  {
    hide Recent;
    if calls != [] {
      NeverBlocks(c, calls[..|calls| - 1]);
    }
  }

  /** The timestamps that count still count for as long as the oldest of them does. */
  lemma StillCounted(l: Limiter, c: Config, history: seq<real>, now: real, later: real)
    requires LogIs(l, c, history) && UpTo(history, now) && now <= later
    requires Counted(l, c, now) != [] && Min(Counted(l, c, now)) > later - c.window as real
    ensures Counted(l, c, later) == Counted(l, c, now)
  {
    hide Recent, Min, LogIs, Counted;
    var start, end := now - c.window as real, later - c.window as real;
    UpToLater(history, now, later);
    CountedIsExact(l, c, history, now);
    CountedIsExact(l, c, history, later);
    RecentTwice(history, start, end);
    var counted := Counted(l, c, now);
    assert forall i :: 0 <= i < |counted| ==> counted[i] in counted;
    AllRecent(counted, end);
  }

  lemma RejectedAgain(l: Limiter, c: Config, history: seq<real>, now: real, later: real)
    requires LogIs(l, c, history) && UpTo(history, now) && c.blockDuration <= 0 && l.block == None
    requires Rejects(l, c, now) && now <= later && later < now + (Answer(l, c, now).retryAfter - 1) as real
    ensures Rejects(l, c, later)
  {
    var counted := Counted(l, c, now);
    assert counted != [] && !Blocked(l, now) && !Blocked(l, later);
    var left := c.window as real - (now - Min(counted));
    assert left > 0.0 && Answer(l, c, now).retryAfter == left.Floor + 1;
    hide Recent, Min, LogIs, Counted;
    StillCounted(l, c, history, now, later);
  }

  /** And the wait is needed: after a rejection without a block every check that comes more than a second too early is
      rejected as well, whatever was rejected in between. */
  lemma WaitIsNeeded(c: Config, calls: seq<Call>, now: real, more: seq<Call>, later: real)
    requires c.blockDuration <= 0 && Ordered(calls + [Check(now)])
    requires Rejects(Run(c, calls), c, now) && AllRejected(Run(c, calls + [Check(now)]), c, more)
    requires now <= later && later < now + (Answer(Run(c, calls), c, now).retryAfter - 1) as real
    ensures Rejects(Continue(Run(c, calls + [Check(now)]), c, more), c, later)
  {
    hide Answer, Checked, AllRejected, Rejects, LogIs;
    var all := calls + [Check(now)];
    assert all[..|calls|] == calls;
    RunStep(c, all);
    RejectionKeepsLog(Run(c, calls), c, now);
    RejectionsAreIdle(Run(c, all), c, more);
    NeverBlocks(c, calls);
    HistoryIsOld(c, calls, now);
    RejectedAgain(Run(c, calls), c, History(c, calls), now, later);
  }

  lemma HistoryIsOld(c: Config, calls: seq<Call>, now: real)
    requires Ordered(calls + [Check(now)])
    ensures LogIs(Run(c, calls), c, History(c, calls)) && UpTo(History(c, calls), now)
  {
    hide LogIs, Run, Logs;
    var all := calls + [Check(now)];
    assert forall i :: 0 <= i < |calls| ==> calls[i] == all[i];
    LogIsExact(c, calls);
    if calls != [] {
      assert all[|calls| - 1].at <= all[|calls|].at;
    }
  }

  lemma RejectsByCount(l: Limiter, c: Config, now: real)
    requires c.requests >= 1 && l.block == None
    ensures Rejects(l, c, now) <==> |Counted(l, c, now)| >= c.requests
  {
    hide Recent, Min, Timestamps;
  }

  /** A limit that does not block rejects exactly the checks that find as many logged calls in the window as it has
      requests to give. */
  lemma RejectsExactly(c: Config, calls: seq<Call>, now: real)
    requires c.requests >= 1 && c.blockDuration <= 0 && Ordered(calls + [Check(now)])
    ensures Rejects(Run(c, calls), c, now) <==>
              Between(History(c, calls), now - c.window as real, now) >= c.requests
  {
    hide Rejects, Recent, LogIs, Run, History, Between, Counted, Ordered, UpTo;
    NeverBlocks(c, calls);
    HistoryIsOld(c, calls, now);
    CountedIsExact(Run(c, calls), c, History(c, calls), now);
    RecentCounts(History(c, calls), now - c.window as real, now);
    RejectsByCount(Run(c, calls), c, now);
  }

  /** The rejection that sets a block of at least a window: every check before the block is over is rejected, and
      a check then is let through. */
  lemma BlockKeepsItsPromise(c: Config, calls: seq<Call>, now: real, more: seq<Call>, later: real)
    requires Fair(c) && c.blockDuration > 0
    requires OnlyChecks(calls + [Check(now)]) && Ordered(calls + [Check(now)])
    requires !Blocked(Run(c, calls), now) && Rejects(Run(c, calls), c, now)
    requires OnlyChecks(more) && ChecksBefore(more, now + Answer(Run(c, calls), c, now).retryAfter as real)
    requires later >= now + Answer(Run(c, calls), c, now).retryAfter as real
    ensures AllRejected(Run(c, calls + [Check(now)]), c, more)
    ensures !Rejects(Continue(Run(c, calls + [Check(now)]), c, more), c, later)
  {
    hide Tidy, AllRejected, Recent, Min, Run;
    var l := Run(c, calls);
    OnlyChecksFront(calls, Check(now));
    ChecksAreTidy(c, calls, now);
    assert (calls + [Check(now)])[..|calls|] == calls;
    RunStep(c, calls + [Check(now)]);
    var blocked := Checked(l, c, now);
    var until := now + c.blockDuration as real;
    assert IsBlock(blocked.block, until);
    CheckIsTidy(l, c, now, now);
    BlockIsIdle(blocked, c, more, until);
    RoomAfterBlock(blocked, c, now, later);
  }

  /** A rejection by a block that is already on rounds down: its promise holds exactly if a whole number of
      seconds is left. */
  lemma BlockedPromiseExactly(c: Config, calls: seq<Call>, now: real)
    requires Fair(c) && OnlyChecks(calls + [Check(now)]) && Ordered(calls + [Check(now)])
    requires Blocked(Run(c, calls), now)
    ensures var l := Run(c, calls);
            var left := l.block.value.value - now;
            !Rejects(l, c, now + Answer(l, c, now).retryAfter as real) <==> left == left.Floor as real
  {
    hide Recent, Min, Run;
    var l := Run(c, calls);
    OnlyChecksFront(calls, Check(now));
    ChecksAreTidy(c, calls, now);
    var until := l.block.value.value;
    var left := until - now;
    var later := now + Answer(l, c, now).retryAfter as real;
    assert later == now + left.Floor as real;
    if left == left.Floor as real {
      RoomAfterBlock(l, c, now, later);
    } else {
      assert later < until;
      assert Blocked(l, later);
    }
  }

  // A block shorter than the window

  /** `k` checks at once. */
  function Burst(t: real, k: nat): (calls: seq<Call>)
    ensures |calls| == k && forall i :: 0 <= i < k ==> calls[i] == Check(t)
  {
    if k == 0 then [] else Burst(t, k - 1) + [Check(t)]
  }

  lemma {:induction false} AllRecent(ts: seq<real>, start: real)
    requires forall i :: 0 <= i < |ts| ==> ts[i] > start
    ensures Recent(ts, start) == ts
  {
    if ts != [] {
      AllRecent(ts[..|ts| - 1], start);
    }
  }

  ghost predicate Full(l: Limiter, c: Config, t: real, k: nat) {
    && l.block == None
    && if k == 0 then l.log == None
       else l.log.Some? && l.log.value.expires == t + (c.window + 60) as real
            && |l.log.value.value| == k && forall i :: 0 <= i < k ==> l.log.value.value[i] == t
  }

  lemma FullCounts(l: Limiter, c: Config, t: real, k: nat, now: real)
    requires Full(l, c, t, k) && t <= now < t + c.window as real
    ensures |Counted(l, c, now)| == k && forall i :: 0 <= i < k ==> Counted(l, c, now)[i] == t
  {
    if k == 0 {
      NoneRecent([], now - c.window as real);
    } else {
      AllRecent(l.log.value.value, now - c.window as real);
    }
  }

  lemma {:induction false} BurstFills(c: Config, t: real, k: nat)
    requires c.window >= 1 && k <= c.requests
    ensures Full(Run(c, Burst(t, k)), c, t, k)
  {
    hide Recent;
    if k > 0 {
      var calls := Burst(t, k);
      assert calls[..k - 1] == Burst(t, k - 1);
      BurstFills(c, t, k - 1);
      FullCounts(Run(c, Burst(t, k - 1)), c, t, k - 1, t);
    }
  }

  /** Every block shorter than its window breaks its promise: after a burst, a caller that waits as told is
      rejected again. */
  lemma ShortBlockBreaksItsPromise(c: Config)
    requires c.requests >= 1 && 0 < c.blockDuration < c.window
    ensures exists calls, now ::
              && OnlyChecks(calls + [Check(now)]) && Ordered(calls + [Check(now)])
              && !Blocked(Run(c, calls), now) && Rejects(Run(c, calls), c, now)
              && Rejects(Run(c, calls + [Check(now)]), c, now + Answer(Run(c, calls), c, now).retryAfter as real)
  {
    hide Recent, Min, Burst, Run;
    var t := 1.0;
    var calls := Burst(t, c.requests);
    var l := Run(c, calls);
    BurstFills(c, t, c.requests);
    FullCounts(l, c, t, c.requests, t);
    assert !Blocked(l, t) && Rejects(l, c, t) && Answer(l, c, t).retryAfter == c.blockDuration;
    var all := calls + [Check(t)];
    assert all[..|calls|] == calls;
    RunStep(c, all);
    var later := t + c.blockDuration as real;
    var blocked := Run(c, all);
    FullCounts(l, c, t, c.requests, later);
    assert blocked.log == l.log && !Blocked(blocked, later);
    assert Counted(blocked, c, later) == Counted(l, c, later);
    assert Rejects(blocked, c, later);
    assert forall i :: 0 <= i < |all| ==> all[i] == Check(t);
    assert OnlyChecks(all) && Ordered(all);
  }
}
