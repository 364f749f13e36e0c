/** The sliding-window rate limiter for one key: a log of timestamps and a block, both in a cache that forgets.
    A call takes no time; floating-point rounding is not modelled. */
module RateLimit {
  import opened Text

  datatype Config = Config(requests: int, window: int, blockDuration: int)

  /** A cache entry; it is found before `expires`. */
  datatype Cached<+T> = Cached(value: T, expires: real)

  datatype Limiter = Limiter(log: Option<Cached<seq<real>>>, block: Option<Cached<real>>)

  const EMPTY := Limiter(None, None)

  datatype Decision = Decision(allowed: bool, remaining: int, retryAfter: int)

  function Put<T>(value: T, now: real, timeout: int): Option<Cached<T>> {
    Some(Cached(value, now + timeout as real))
  }

  function Get<T>(entry: Option<Cached<T>>, now: real): Option<T> {
    if entry.Some? && now < entry.value.expires then Some(entry.value.value) else None
  }

  function Timestamps(l: Limiter, now: real): seq<real> {
    if Get(l.log, now).Some? then Get(l.log, now).value else []
  }

  /** The timestamps after `start`. */
  function Recent(ts: seq<real>, start: real): (r: seq<real>)
    ensures |r| <= |ts|
    ensures forall t :: t in r <==> t in ts && t > start
  {
    if ts == [] then []
    else
      var n := |ts| - 1;
      Recent(ts[..n], start) + if ts[n] > start then [ts[n]] else []
  }

  function Min(ts: seq<real>): (m: real)
    requires ts != []
    ensures m in ts && forall t :: t in ts ==> m <= t
  {
    if |ts| == 1 then ts[0]
    else
      assert ts == ts[..|ts| - 1] + [ts[|ts| - 1]];
      var m := Min(ts[..|ts| - 1]);
      if ts[|ts| - 1] < m then ts[|ts| - 1] else m
  }

  /** Python's `int`, towards zero. */
  function Whole(x: real): int {
    if x >= 0.0 then x.Floor else -(-x).Floor
  }

  predicate Blocked(l: Limiter, now: real) {
    var until := Get(l.block, now);
    until.Some? && until.value != 0.0 && now < until.value
  }

  /** The timestamps that count at `now`. */
  function Counted(l: Limiter, c: Config, now: real): seq<real> {
    Recent(Timestamps(l, now), now - c.window as real)
  }

  function Noted(l: Limiter, c: Config, now: real): Limiter {
    l.(log := Put(Counted(l, c, now) + [now], now, c.window + 60))
  }

  /** What `check_rate_limit` leaves. An empty log that is already too long makes `min` raise, which lets the
      call through unnoted. */
  function Checked(l: Limiter, c: Config, now: real): Limiter {
    var counted := Counted(l, c, now);
    if Blocked(l, now) then l
    else if |counted| >= c.requests then
      if counted != [] && c.blockDuration > 0 then
        l.(block := Put(now + c.blockDuration as real, now, c.blockDuration))
      else l
    else Noted(l, c, now)
  }

  /** What it answers. */
  function Answer(l: Limiter, c: Config, now: real): Decision {
    var counted := Counted(l, c, now);
    if Blocked(l, now) then Decision(false, 0, Whole(Get(l.block, now).value - now))
    else if |counted| >= c.requests then
      if counted == [] then Decision(true, 0, 0)
      else if c.blockDuration > 0 then Decision(false, 0, c.blockDuration)
      else Decision(false, 0, Whole(c.window as real - (now - Min(counted))) + 1)
    else Decision(true, c.requests - (|counted| + 1), 0)
  }

  /** One key of the limiter. */
  class RateLimiter {
    var log: Option<Cached<seq<real>>>
    var block: Option<Cached<real>>

    function View(): Limiter
      reads this
    {
      Limiter(log, block)
    }

    constructor ()
      ensures View() == EMPTY
    {
      log, block := None, None;
    }

    method FilterRecent(ts: seq<real>, start: real) returns (r: seq<real>)
      ensures r == Recent(ts, start)
    {
      r := [];
      for k := 0 to |ts|
        invariant r == Recent(ts[..k], start)
      {
        assert ts[..k + 1][..k] == ts[..k];
        if ts[k] > start {
          r := r + [ts[k]];
        }
      }
      assert ts[..|ts|] == ts;
    }

    method Oldest(ts: seq<real>) returns (m: real)
      requires ts != []
      ensures m == Min(ts)
    {
      m := ts[0];
      for k := 1 to |ts|
        invariant m == Min(ts[..k])
      {
        assert ts[..k + 1][..k] == ts[..k];
        if ts[k] < m {
          m := ts[k];
        }
      }
      assert ts[..|ts|] == ts;
    }

    method CheckRateLimit(c: Config, now: real) returns (d: Decision)
      modifies this
      ensures View() == Checked(old(View()), c, now) && d == Answer(old(View()), c, now)
    {
      hide Recent, Min, Timestamps, Whole, Put;
      var until := Get(block, now);
      if until.Some? && until.value != 0.0 && now < until.value {
        return Decision(false, 0, Whole(until.value - now));
      }
      var timestamps := FilterRecent(Timestamps(View(), now), now - c.window as real);
      if |timestamps| >= c.requests {
        if timestamps == [] {
          return Decision(true, 0, 0);
        }
        var oldest := Oldest(timestamps);
        var retryAfter := Whole(c.window as real - (now - oldest)) + 1;
        if c.blockDuration > 0 {
          block := Put(now + c.blockDuration as real, now, c.blockDuration);
          retryAfter := c.blockDuration;
        }
        return Decision(false, 0, retryAfter);
      }
      timestamps := timestamps + [now];
      log := Put(timestamps, now, c.window + 60);
      return Decision(true, c.requests - |timestamps|, 0);
    }

    method RecordFailedAttempt(c: Config, now: real)
      modifies this
      ensures View() == Noted(old(View()), c, now)
    {
      var timestamps := FilterRecent(Timestamps(View(), now), now - c.window as real);
      log := Put(timestamps + [now], now, c.window + 60);
    }

    method Reset()
      modifies this
      ensures View() == EMPTY
    {
      log, block := None, None;
    }
  }

  /** A check at the moment of an allowed one finds it in the log. */
  lemma JustNoted(l: Limiter, c: Config, now: real)
    requires c.window >= 1
    ensures Counted(Noted(l, c, now), c, now) == Counted(l, c, now) + [now]
  {
    hide Recent;
    var start := now - c.window as real;
    var counted := Counted(l, c, now);
    RecentJoin(counted, [now], start);
    RecentTwice(Timestamps(l, now), start, start);
    NowIsRecent(now, start);
  }

  lemma NowIsRecent(now: real, start: real)
    requires start < now
    ensures Recent([now], start) == [now]
  {
    assert [now][..0] == [];
  }

  /** What an allowed check says remains is how many more are allowed at once: the next one is allowed exactly if
      something remains, and then one less remains. */
  lemma RemainingCountsDown(l: Limiter, c: Config, now: real)
    requires c.window >= 1 && c.requests >= 1 && Answer(l, c, now).allowed
    ensures var next := Answer(Checked(l, c, now), c, now);
            && Answer(l, c, now).remaining >= 0
            && (next.allowed <==> Answer(l, c, now).remaining > 0)
            && (next.allowed ==> next.remaining == Answer(l, c, now).remaining - 1)
  {
    hide Recent, Min;
    JustNoted(l, c, now);
  }

  // Runs between two resets

  datatype Call = Check(at: real) | RecordFailure(at: real)

  function Step(l: Limiter, c: Config, call: Call): Limiter {
    if call.Check? then Checked(l, c, call.at) else Noted(l, c, call.at)
  }

  function Run(c: Config, calls: seq<Call>): Limiter {
    if calls == [] then EMPTY else Step(Run(c, calls[..|calls| - 1]), c, calls[|calls| - 1])
  }

  ghost predicate Ordered(calls: seq<Call>) {
    forall i, j :: 0 <= i <= j < |calls| ==> calls[i].at <= calls[j].at
  }

  predicate Allowed(l: Limiter, c: Config, call: Call) {
    call.Check? && Answer(l, c, call.at).allowed
  }

  /** The call puts a timestamp into the log. */
  predicate Logs(l: Limiter, c: Config, call: Call) {
    call.RecordFailure? || (!Blocked(l, call.at) && |Counted(l, c, call.at)| < c.requests)
  }

  /** The times of all the calls that were logged, in a log that nothing ever leaves. */
  function History(c: Config, calls: seq<Call>): seq<real> {
    if calls == [] then []
    else
      var front, call := calls[..|calls| - 1], calls[|calls| - 1];
      History(c, front) + if Logs(Run(c, front), c, call) then [call.at] else []
  }

  /** The times of the allowed calls. */
  function AllowedTimes(c: Config, calls: seq<Call>): seq<real> {
    if calls == [] then []
    else
      var front, call := calls[..|calls| - 1], calls[|calls| - 1];
      AllowedTimes(c, front) + if Allowed(Run(c, front), c, call) then [call.at] else []
  }

  lemma {:induction false} RecentJoin(a: seq<real>, b: seq<real>, start: real)
    ensures Recent(a + b, start) == Recent(a, start) + Recent(b, start)
  {
    if b == [] {
      assert a + b == a;
    } else {
      var n := |b| - 1;
      assert (a + b)[..|a + b| - 1] == a + b[..n];
      RecentJoin(a, b[..n], start);
    }
  }

  lemma {:induction false} RecentTwice(ts: seq<real>, early: real, late: real)
    requires early <= late
    ensures Recent(Recent(ts, early), late) == Recent(ts, late)
  {
    if ts != [] {
      var n := |ts| - 1;
      RecentTwice(ts[..n], early, late);
      RecentJoin(Recent(ts[..n], early), if ts[n] > early then [ts[n]] else [], late);
    }
  }

  ghost predicate UpTo(ts: seq<real>, now: real) {
    forall k :: 0 <= k < |ts| ==> ts[k] <= now
  }

  lemma {:induction false} NoneRecent(ts: seq<real>, start: real)
    requires UpTo(ts, start)
    ensures Recent(ts, start) == []
  {
    if ts != [] {
      NoneRecent(ts[..|ts| - 1], start);
    }
  }

  /** The log holds the last logged time and what was recent then; it expires a minute after it stops to count. */
  ghost predicate LogIs(l: Limiter, c: Config, history: seq<real>) {
    if history == [] then l.log == None
    else
      var n := |history| - 1;
      && l.log == Put(Recent(history[..n], history[n] - c.window as real) + [history[n]], history[n], c.window + 60)
      && UpTo(history, history[n])
  }

  /** Neither pruning nor expiry forgets a timestamp that still counts. */
  lemma CountedIsExact(l: Limiter, c: Config, history: seq<real>, now: real)
    requires LogIs(l, c, history) && UpTo(history, now)
    ensures Counted(l, c, now) == Recent(history, now - c.window as real)
  {
    hide Recent;
    var start := now - c.window as real;
    if history == [] {
    } else {
      var n := |history| - 1;
      var early := history[n] - c.window as real;
      assert history == history[..n] + [history[n]];
      if Get(l.log, now).Some? {
        assert early <= start;
        RecentJoin(Recent(history[..n], early), [history[n]], start);
        RecentTwice(history[..n], early, start);
        RecentJoin(history[..n], [history[n]], start);
      } else {
        assert history[n] <= start;
        NoneRecent(history, start);
        NoneRecent([], start);
      }
    }
  }

  /** At any time the calls up to then are counted exactly if they were logged within the window. */
  lemma {:induction false} LogIsExact(c: Config, calls: seq<Call>)
    requires Ordered(calls)
    ensures LogIs(Run(c, calls), c, History(c, calls))
    ensures calls != [] ==> UpTo(History(c, calls), calls[|calls| - 1].at)
  {
    hide LogIs, Recent, Answer;
    if calls == [] {
      EmptyLogIs(c);
    } else {
      var n := |calls| - 1;
      var front, call := calls[..n], calls[n];
      LogIsExact(c, front);
      if n > 0 {
        assert front[n - 1] == calls[n - 1];
        assert calls[n - 1].at <= call.at;
      }
      StepLogs(Run(c, front), c, History(c, front), call);
    }
  }

  lemma EmptyLogIs(c: Config)
    ensures LogIs(EMPTY, c, [])
  {
  }

  lemma StepLogs(l: Limiter, c: Config, history: seq<real>, call: Call)
    requires LogIs(l, c, history) && UpTo(history, call.at)
    ensures LogIs(Step(l, c, call), c, history + if Logs(l, c, call) then [call.at] else [])
    ensures UpTo(history + if Logs(l, c, call) then [call.at] else [], call.at)
  {
    hide Recent;
    CountedIsExact(l, c, history, call.at);
    if Logs(l, c, call) {
      var more := history + [call.at];
      assert more[..|more| - 1] == history;
    } else {
      assert history + [] == history;
    }
  }

  // The window bound

  /** The number of times after `from`, up to `to`. */
  function Between(ts: seq<real>, from: real, to: real): nat {
    if ts == [] then 0
    else
      var n := |ts| - 1;
      Between(ts[..n], from, to) + if from < ts[n] <= to then 1 else 0
  }

  /** The number of times from `from` on, before `to`. */
  function BetweenFrom(ts: seq<real>, from: real, to: real): nat {
    if ts == [] then 0
    else
      var n := |ts| - 1;
      BetweenFrom(ts[..n], from, to) + if from <= ts[n] < to then 1 else 0
  }

  lemma UpToFront(ts: seq<real>, now: real)
    requires ts != [] && UpTo(ts, now)
    ensures UpTo(ts[..|ts| - 1], now) && ts[|ts| - 1] <= now
  {
  }

  lemma BetweenMore(ts: seq<real>, t: real, from: real, to: real)
    ensures Between(ts + [t], from, to) == Between(ts, from, to) + if from < t <= to then 1 else 0
    ensures BetweenFrom(ts + [t], from, to) == BetweenFrom(ts, from, to) + if from <= t < to then 1 else 0
  {
    assert (ts + [t])[..|ts|] == ts;
  }

  lemma {:induction false} RecentCounts(ts: seq<real>, start: real, to: real)
    requires UpTo(ts, to)
    ensures |Recent(ts, start)| == Between(ts, start, to)
  {
    if ts != [] {
      UpToFront(ts, to);
      RecentCounts(ts[..|ts| - 1], start, to);
    }
  }

  lemma AllowedLogs(l: Limiter, c: Config, call: Call)
    requires c.requests >= 1
    ensures Allowed(l, c, call) ==> Logs(l, c, call)
  {
    hide Recent, Blocked;
  }

  /** What was allowed was logged. */
  lemma {:induction false} AllowedAreLogged(c: Config, calls: seq<Call>, from: real, to: real)
    requires c.requests >= 1
    ensures Between(AllowedTimes(c, calls), from, to) <= Between(History(c, calls), from, to)
    ensures BetweenFrom(AllowedTimes(c, calls), from, to) <= BetweenFrom(History(c, calls), from, to)
  {
    if calls == [] {
    } else {
      hide Run, Allowed, Logs, Between, BetweenFrom;
      var front, call := calls[..|calls| - 1], calls[|calls| - 1];
      AllowedAreLogged(c, front, from, to);
      AllowedLogs(Run(c, front), c, call);
      var a, h := AllowedTimes(c, front), History(c, front);
      BetweenMore(a, call.at, from, to);
      BetweenMore(h, call.at, from, to);
      assert a + [] == a && h + [] == h;
    }
  }

  lemma OrderedFront(calls: seq<Call>)
    requires Ordered(calls) && calls != []
    ensures Ordered(calls[..|calls| - 1])
  {
  }

  lemma {:induction false} TimesAreOld(c: Config, calls: seq<Call>, now: real)
    requires forall k :: 0 <= k < |calls| ==> calls[k].at <= now
    ensures UpTo(AllowedTimes(c, calls), now)
  {
    hide Run, Allowed;
    if calls != [] {
      TimesAreOld(c, calls[..|calls| - 1], now);
    }
  }

  /** A call that is allowed finds fewer than `requests` others in the window before it. */
  lemma AllowedFindsRoom(c: Config, front: seq<Call>, call: Call)
    requires c.requests >= 1 && Ordered(front + [call]) && Allowed(Run(c, front), c, call)
    ensures Between(AllowedTimes(c, front), call.at - c.window as real, call.at) < c.requests
  {
    hide Run, Recent, AllowedTimes, History, Between, Ordered;
    LogOfFront(c, front, call);
    CountedIsExact(Run(c, front), c, History(c, front), call.at);
    RecentCounts(History(c, front), call.at - c.window as real, call.at);
    AllowedAreLogged(c, front, call.at - c.window as real, call.at);
  }

  lemma LogOfFront(c: Config, front: seq<Call>, call: Call)
    requires Ordered(front + [call])
    ensures LogIs(Run(c, front), c, History(c, front)) && UpTo(History(c, front), call.at)
  {
    hide LogIs, Run, History;
    var calls := front + [call];
    assert calls[..|front|] == front;
    assert forall i :: 0 <= i < |front| ==> front[i] == calls[i];
    LogIsExact(c, front);
    if front == [] {
      NoHistory(c);
    } else {
      assert calls[|front| - 1].at <= calls[|front|].at;
    }
  }

  lemma NoHistory(c: Config)
    ensures History(c, []) == []
  {
  }

  /** Between two resets, at most `requests` calls are allowed in any `window` seconds, with the end included and
      the start left out. */
  lemma {:induction false} WindowBound(c: Config, calls: seq<Call>, from: real)
    requires c.requests >= 1 && Ordered(calls)
    ensures Between(AllowedTimes(c, calls), from, from + c.window as real) <= c.requests
  {
    hide Run, Allowed, Recent;
    if calls != [] {
      var front, call := calls[..|calls| - 1], calls[|calls| - 1];
      var a := AllowedTimes(c, front);
      OrderedFront(calls);
      WindowBound(c, front, from);
      if Allowed(Run(c, front), c, call) {
        assert front + [call] == calls;
        AllowedFindsRoom(c, front, call);
        assert (a + [call.at])[..|a|] == a;
        TimesAreOld(c, front, call.at);
        if from < call.at <= from + c.window as real {
          BetweenWithin(a, from, from + c.window as real, call.at - c.window as real, call.at);
        }
      } else {
        assert a + [] == a;
      }
    }
  }

  /** Times up to `to'` that lie in one interval lie in another that starts no later. */
  lemma {:induction false} BetweenWithin(ts: seq<real>, from: real, to: real, from': real, to': real)
    requires from' <= from && UpTo(ts, to')
    ensures Between(ts, from, to) <= Between(ts, from', to')
  {
    if ts != [] {
      UpToFront(ts, to');
      BetweenWithin(ts[..|ts| - 1], from, to, from', to');
    }
  }

  /** The same with the start included and the end left out. */
  lemma {:induction false} WindowBoundFrom(c: Config, calls: seq<Call>, from: real)
    requires c.requests >= 1 && Ordered(calls)
    ensures BetweenFrom(AllowedTimes(c, calls), from, from + c.window as real) <= c.requests
  {
    hide Run, Allowed, Recent;
    if calls != [] {
      var front, call := calls[..|calls| - 1], calls[|calls| - 1];
      var a := AllowedTimes(c, front);
      OrderedFront(calls);
      WindowBoundFrom(c, front, from);
      if Allowed(Run(c, front), c, call) {
        assert front + [call] == calls;
        AllowedFindsRoom(c, front, call);
        assert (a + [call.at])[..|a|] == a;
        TimesAreOld(c, front, call.at);
        if from <= call.at < from + c.window as real {
          BetweenFromWithin(a, from, from + c.window as real, call.at - c.window as real, call.at);
        }
      } else {
        assert a + [] == a;
      }
    }
  }

  lemma {:induction false} BetweenFromWithin(ts: seq<real>, from: real, to: real, from': real, to': real)
    requires from' < from && UpTo(ts, to')
    ensures BetweenFrom(ts, from, to) <= Between(ts, from', to')
  {
    if ts != [] {
      UpToFront(ts, to');
      BetweenFromWithin(ts[..|ts| - 1], from, to, from', to');
    }
  }

  /** With no requests to give, the first call of a key is allowed all the same. */
  lemma NoRequestsStillAllow(c: Config, at: real)
    requires c.requests <= 0
    ensures AllowedTimes(c, [Check(at)]) == [at]
  {
    var calls := [Check(at)];
    assert calls[..0] == [];
    assert Run(c, []) == EMPTY;
  }

  ghost predicate BoundedAt(c: Config, calls: seq<Call>, from: real) {
    Ordered(calls) ==> Between(AllowedTimes(c, calls), from, from + c.window as real) <= c.requests
  }

  ghost predicate Bounded(c: Config) {
    forall calls, from :: BoundedAt(c, calls, from)
  }

  /** The bound holds of a configuration with a window exactly if it has a request to give. */
  lemma BoundedExactly(c: Config)
    requires c.window >= 1
    ensures Bounded(c) <==> c.requests >= 1
  {
    hide Ordered, AllowedTimes, Between;
    if c.requests >= 1 {
      forall calls, from
        ensures BoundedAt(c, calls, from)
      {
        if Ordered(calls) {
          WindowBound(c, calls, from);
        }
      }
    } else {
      var calls, from := [Check(0.0)], -0.5;
      OneIsOrdered(0.0);
      NoRequestsStillAllow(c, 0.0);
      OneIsBetween(0.0, from, from + c.window as real);
      assert !BoundedAt(c, calls, from);
    }
  }

  lemma OneIsOrdered(at: real)
    ensures Ordered([Check(at)])
  {
  }

  lemma OneIsBetween(t: real, from: real, to: real)
    requires from < t <= to
    ensures Between([t], from, to) == 1
  {
    assert [t][..0] == [];
  }
}
