/** Any number of workers inside `google_request` on one connection, next to the token refresh task,
    reauthorisation and disconnection. Each locked transaction is one event; the provider answers between them. */
module GoogleWorkers {
  import opened Text
  import opened GoogleReplies
  import opened GoogleTokens

  /** Where a worker is in `google_request`, with the token it holds. */
  datatype Worker =
    | Idle
    | HasToken(token: string)
    | SawRejected(token: string)
    | HasRenewed(token: string)
    | SawRenewedRejected(token: string)

  datatype System = System(conn: Conn, now: Time, workers: map<nat, Worker>)

  /** `First` and `Second` are the calls of `access_token` in `google_request`, `Verdict` is the reply to the
      authorised request, `FinalCheck` the transaction after a renewed token was rejected. */
  datatype Event =
    | Tick(elapsed: nat)
    | First(w: nat, reply: Reply, jitter: Jitter)
    | Verdict(w: nat, rejected: bool)
    | Second(w: nat, reply: Reply, jitter: Jitter)
    | FinalCheck(w: nat)
    | Background(margin: Time, reply: Reply, jitter: Jitter)
    | Reauthorise(reply: Reply, userinfo: Outcome<Identity>)
    | Revoke(revoked: Option<int>)

  /** A call of `access_token`. */
  datatype Attempt = Attempt(margin: Time, rejected: Option<string>, reply: Reply, jitter: Jitter)

  function WorkerOf(s: System, w: nat): Worker {
    if w in s.workers then s.workers[w] else Idle
  }

  function Put(s: System, w: nat, worker: Worker): System {
    s.(workers := s.workers[w := worker])
  }

  function AttemptOf(s: System, e: Event): Option<Attempt> {
    match e
    case First(w, reply, jitter) =>
      if WorkerOf(s, w).Idle? then Some(Attempt(Seconds(90), None, reply, jitter)) else None
    case Second(w, reply, jitter) =>
      if WorkerOf(s, w).SawRejected? then Some(Attempt(Seconds(90), Some(WorkerOf(s, w).token), reply, jitter))
      else None
    case Background(margin, reply, jitter) => Some(Attempt(margin, None, reply, jitter))
    case _ => None
  }

  function Try(s: System, a: Attempt): Done<string> {
    TokenAccess(s.conn, s.now, a.margin, a.rejected, a.reply, a.jitter)
  }

  /** What the caller does with the outcome. */
  function Hand(s: System, e: Event, outcome: Outcome<string>): System {
    match e
    case First(w, _, _) => Put(s, w, if outcome.Got? then HasToken(outcome.value) else Idle)
    case Second(w, _, _) => Put(s, w, if outcome.Got? then HasRenewed(outcome.value) else Idle)
    case _ => s
  }

  function Step(s: System, e: Event): System {
    if AttemptOf(s, e).Some? then
      var done := Try(s, AttemptOf(s, e).value);
      Hand(s.(conn := done.conn), e, done.outcome)
    else
      match e
      case Tick(elapsed) => s.(now := s.now + elapsed)
      case Verdict(w, rejected) =>
        (match WorkerOf(s, w)
         case HasToken(token) => Put(s, w, if rejected then SawRejected(token) else Idle)
         case HasRenewed(token) => Put(s, w, if rejected then SawRenewedRejected(token) else Idle)
         case _ => s)
      case FinalCheck(w) =>
        (match WorkerOf(s, w)
         case SawRenewedRejected(token) => Put(s.(conn := Condemned(s.conn, token)), w, Idle)
         case _ => s)
      case Reauthorise(reply, userinfo) =>
        var r := OauthCallback(Some(s.conn), s.now, reply, userinfo);
        if r.Got? then s.(conn := r.value) else s
      case Revoke(revoked) => s.(conn := Disconnection(s.conn, revoked).conn)
      case _ => s
  }

  function Run(s: System, es: seq<Event>): System {
    if es == [] then s else Step(Run(s, es[..|es| - 1]), es[|es| - 1])
  }

  /** What a request was answered, and how long the answer took. */
  datatype Answered = Answered(error: Option<ProviderError>, took: nat)

  predicate Unauthorised(a: Answered) {
    a.error.Some? && a.error.value.code == CredentialsRevoked
  }

  /** The events of one request by a worker that nobody interrupts. */
  function LoneRequest(s: System, w: nat, first: (Reply, Jitter), answer: Answered,
                       second: (Reply, Jitter), again: Answered): System {
    var held := Step(s, First(w, first.0, first.1));
    var answered := Step(Step(held, Tick(answer.took)), Verdict(w, Unauthorised(answer)));
    var renewed := Step(answered, Second(w, second.0, second.1));
    Step(Step(renewed, Verdict(w, Unauthorised(again))), FinalCheck(w))
  }

  /** What the caller gets from a token call that failed. */
  function Passed<T>(o: Outcome<T>): Outcome<()> {
    match o
    case Got(_) => Got(())
    case Failed(e) => Failed(e)
    case Crashed => Crashed
  }

  /** What becomes of a request whose token was rejected. */
  function RetriedOutcome(c: Conn, now: Time, rejected: string, second: (Reply, Jitter), again: Answered): Outcome<()> {
    var renewed := TokenAccess(c, now, Seconds(90), Some(rejected), second.0, second.1);
    if !renewed.outcome.Got? then Passed(renewed.outcome)
    else if again.error.None? then Got(())
    else if !Unauthorised(again) then Failed(again.error.value)
    else RejectionMarked(renewed.conn, renewed.outcome.value, again.error.value).outcome
  }

  /** What its caller gets: success exactly if a request with the stored token or with a renewed one was answered. */
  function RequestOutcome(c: Conn, now: Time, first: (Reply, Jitter), answer: Answered,
                          second: (Reply, Jitter), again: Answered): (outcome: Outcome<()>)
    ensures outcome == Got(()) <==>
              var held := TokenAccess(c, now, Seconds(90), None, first.0, first.1);
              && held.outcome.Got?
              && (|| answer.error.None?
                  || (Unauthorised(answer) && again.error.None?
                      && TokenAccess(held.conn, now + answer.took, Seconds(90), Some(held.outcome.value),
                                     second.0, second.1).outcome.Got?))
  {
    hide TokenAccess, Seconds;
    var held := TokenAccess(c, now, Seconds(90), None, first.0, first.1);
    if !held.outcome.Got? then Passed(held.outcome)
    else if answer.error.None? then Got(())
    else if !Unauthorised(answer) then Failed(answer.error.value)
    else RetriedOutcome(held.conn, now + answer.took, held.outcome.value, second, again)
  }

  /** `google_request`. It leaves the row that its events leave. */
  method GoogleRequest(c: GoogleConnection, now: Time, first: (Reply, Jitter), answer: Answered,
                       second: (Reply, Jitter), again: Answered)
    returns (outcome: Outcome<()>)
    modifies c
    ensures c.View() == LoneRequest(System(old(c.View()), now, map[]), 0, first, answer, second, again).conn
    ensures outcome == RequestOutcome(old(c.View()), now, first, answer, second, again)
  {
    hide TokenAccess, Seconds, Condemned;
    var token := c.AccessToken(now, Seconds(90), None, first.0, first.1);
    if !token.Got? {
      return if token.Crashed? then Crashed else Failed(token.error);
    }
    if answer.error.None? {
      return Got(());
    }
    if answer.error.value.code != CredentialsRevoked {
      return Failed(answer.error.value);
    }
    var renewed := c.AccessToken(now + answer.took, Seconds(90), Some(token.value), second.0, second.1);
    if !renewed.Got? {
      return if renewed.Crashed? then Crashed else Failed(renewed.error);
    }
    if again.error.None? {
      return Got(());
    }
    if again.error.value.code == CredentialsRevoked {
      outcome := c.MarkRejected(renewed.value, again.error.value);
      return;
    }
    return Failed(again.error.value);
  }

  // When the provider is asked for a token

  predicate Asks(s: System, e: Event) {
    AttemptOf(s, e).Some?
    && Exchanges(s.conn, s.now, AttemptOf(s, e).value.margin, AttemptOf(s, e).value.rejected)
  }

  predicate Succeeds(s: System, e: Event) {
    Asks(s, e) && Try(s, AttemptOf(s, e).value).outcome.Got?
  }

  predicate Fails(s: System, e: Event) {
    Asks(s, e) && Try(s, AttemptOf(s, e).value).outcome.Failed?
  }

  predicate Restores(s: System, e: Event) {
    e.Reauthorise? && OauthCallback(Some(s.conn), s.now, e.reply, e.userinfo).Got?
  }

  const DENIED := Answer(400, NoReason, false, None, Empty)

  /** The provider's reply can make a difference to `access_token` exactly if the connection is connected, its
      retry gate open, a refresh token stored, and the stored token missing, within the caller's margin of its
      expiry, or the very one that the caller saw rejected. */
  lemma ExchangeIsJustified(c: Conn, now: Time, margin: Time, rejected: Option<string>)
    ensures (exists r, r', j, j' ::
               TokenAccess(c, now, margin, rejected, r, j) != TokenAccess(c, now, margin, rejected, r', j'))
            <==> && c.status == Connected
                 && (c.retryAt.None? || c.retryAt.value <= now)
                 && c.refresh != ""
                 && (|| c.access == ""
                     || c.expiresAt.None?
                     || c.expiresAt.value <= now + margin
                     || Some(c.access) == rejected)
  {
    hide Seconds, Wait;
    if Exchanges(c, now, margin, rejected) {
      var j: Jitter := 0;
      assert TokenAccess(c, now, margin, rejected, DENIED, j) != TokenAccess(c, now, margin, rejected, NoAnswer, j);
    } else {
      forall r, r', j, j'
        ensures TokenAccess(c, now, margin, rejected, r, j) == TokenAccess(c, now, margin, rejected, r', j')
      {
      }
    }
  }

  // One successful exchange per rejected token

  /** The event stores a token other than `t`, or none. */
  ghost predicate Distinct(s: System, e: Event, t: string) {
    Succeeds(s, e) || Restores(s, e) ==> Step(s, e).conn.access != t
  }

  /** A replacement of `t` is good for every worker. */
  ghost predicate ReplacementLives(s: System, t: string) {
    s.conn.status == Connected && s.conn.access != t ==> Usable(s.conn, s.now, Seconds(90), None)
  }

  ghost predicate Replaces(s: System, es: seq<Event>, t: string) {
    && (forall k :: 0 <= k < |es| ==> Distinct(Run(s, es[..k]), es[k], t))
    && (forall k :: 0 <= k < |es| ==> ReplacementLives(Run(s, es[..k]), t))
  }

  /** A successful exchange by a worker that saw `t` rejected. */
  predicate ReplacesToken(s: System, e: Event, t: string) {
    Succeeds(s, e) && AttemptOf(s, e).value.rejected == Some(t)
  }

  function Replacements(s: System, es: seq<Event>, t: string): nat {
    if es == [] then 0
    else
      var front := es[..|es| - 1];
      Replacements(s, front, t) + if ReplacesToken(Run(s, front), es[|es| - 1], t) then 1 else 0
  }

  lemma StoredTokenChanges(s: System, e: Event)
    ensures Step(s, e).conn.access == s.conn.access || Step(s, e).conn.access == "" || Succeeds(s, e) || Restores(s, e)
  {
    hide Refreshed, Seconds, OauthCallback, Wait;
  }

  lemma LiveReplacementIsKept(s: System, e: Event, t: string)
    requires ReplacesToken(s, e, t) && ReplacementLives(s, t)
    ensures s.conn.access == t
  {
    hide Refreshed, Seconds;
  }

  lemma {:induction false} ReplacedOnce(s: System, es: seq<Event>, t: string)
    requires t != "" && Replaces(s, es, t)
    ensures Replacements(s, es, t) <= 1
    ensures Replacements(s, es, t) == 1 ==> Run(s, es).conn.access != t
    ensures s.conn.access != t ==> Replacements(s, es, t) == 0 && Run(s, es).conn.access != t
  {
    hide Step, Succeeds, Restores, AttemptOf;
    if es != [] {
      var n := |es| - 1;
      var front, u, e := es[..n], Run(s, es[..n]), es[n];
      assert forall k :: 0 <= k < n ==> front[..k] == es[..k];
      forall k | 0 <= k < n
        ensures Distinct(Run(s, front[..k]), front[k], t) && ReplacementLives(Run(s, front[..k]), t)
      {
        assert front[k] == es[k];
      }
      ReplacedOnce(s, front, t);
      StoredTokenChanges(u, e);
      assert Distinct(u, e, t) && ReplacementLives(u, t);
      if ReplacesToken(u, e, t) {
        LiveReplacementIsKept(u, e, t);
      }
    }
  }

  /** As long as replacements differ from a rejected token and stay live, all the workers that saw it rejected
      cause at most one successful exchange, and none once it is replaced. */
  lemma OneExchangePerRejectedToken(s: System, es: seq<Event>, t: string)
    requires t != "" && Replaces(s, es, t)
    ensures Replacements(s, es, t) <= if s.conn.access == t then 1 else 0
  {
    ReplacedOnce(s, es, t);
  }

  // Status

  predicate EndsGrant(s: System, e: Event) {
    && AttemptOf(s, e).Some?
    && s.conn.status == Connected
    && !Usable(s.conn, s.now, AttemptOf(s, e).value.margin, AttemptOf(s, e).value.rejected)
    && !GateClosed(s.conn, s.now)
    && (s.conn.refresh == ""
        || (Refreshed(AttemptOf(s, e).value.reply).Failed? && !Refreshed(AttemptOf(s, e).value.reply).error.retryable))
  }

  predicate CondemnsStoredToken(s: System, e: Event) {
    e.FinalCheck? && WorkerOf(s, e.w) == SawRenewedRejected(s.conn.access)
  }

  /** Each way in and out of "connected". */
  lemma StatusMoves(s: System, e: Event)
    ensures s.conn.status == Connected ==>
              (Step(s, e).conn.status == Reconnect <==> EndsGrant(s, e) || CondemnsStoredToken(s, e))
    ensures s.conn.status != Connected ==> (Step(s, e).conn.status == Connected <==> Restores(s, e))
    ensures s.conn.status != Disconnected && Step(s, e).conn.status == Disconnected ==> e.Revoke?
  {
    hide Refreshed, Seconds, OauthCallback, Wait;
    if e.Reauthorise? {
      CallbackConnects(Some(s.conn), s.now, e.reply, e.userinfo);
    }
  }

  lemma CallbackConnects(existing: Option<Conn>, now: Time, reply: Reply, userinfo: Outcome<Identity>)
    ensures var r := OauthCallback(existing, now, reply, userinfo);
            r.Got? ==>
              && Healthy(r.value) && r.value.status == Connected && r.value.failures == 0
              && TokenRequest(reply).Got?
              && r.value.refresh == OfflineToken(existing, TokenRequest(reply).value)
  {
    hide TokenRequest, Seconds, Lifetime, OfflineToken, Mismatch;
  }

  predicate Holds(w: Worker, token: string) {
    w == HasToken(token) || w == HasRenewed(token)
  }

  /** Outside "connected" no token is exchanged and no worker is handed one. */
  lemma NothingIssuedOutsideConnected(s: System, e: Event, w: nat, token: string)
    requires s.conn.status != Connected
    ensures !Asks(s, e)
    ensures Holds(WorkerOf(Step(s, e), w), token) ==> Holds(WorkerOf(s, w), token)
  {
    hide OauthCallback, Seconds;
  }

  predicate NoneRestores(s: System, es: seq<Event>) {
    forall k :: 0 <= k < |es| ==> !Restores(Run(s, es[..k]), es[k])
  }

  lemma NoneRestoresFront(s: System, es: seq<Event>)
    requires es != [] && NoneRestores(s, es)
    ensures NoneRestores(s, es[..|es| - 1]) && !Restores(Run(s, es[..|es| - 1]), es[|es| - 1])
  {
    hide Restores, Run;
    var front := es[..|es| - 1];
    assert forall k :: 0 <= k < |front| ==> front[..k] == es[..k] && front[k] == es[k];
  }

  /** Over any run, only reauthorisation brings a connection back. */
  lemma {:induction false} OnlyReauthorisationRestores(s: System, es: seq<Event>)
    requires s.conn.status != Connected && NoneRestores(s, es)
    ensures Run(s, es).conn.status != Connected
  {
    hide Step, Restores, Asks, AttemptOf;
    if es != [] {
      NoneRestoresFront(s, es);
      OnlyReauthorisationRestores(s, es[..|es| - 1]);
      StatusMoves(Run(s, es[..|es| - 1]), es[|es| - 1]);
    }
  }

  /** No refresh, whatever its outcome, drops a stored refresh token: it keeps it or stores the one that came
      with the new token. Only a disconnection clears it. */
  lemma RefreshTokenIsKept(s: System, e: Event)
    requires s.conn.refresh != ""
    ensures Step(s, e).conn.refresh == "" ==> e.Revoke? && Step(s, e).conn.status == Disconnected
    ensures AttemptOf(s, e).Some? && Step(s, e).conn.refresh != s.conn.refresh ==>
              Succeeds(s, e) && Refreshed(AttemptOf(s, e).value.reply).value.refresh == Step(s, e).conn.refresh
  {
    hide Refreshed, Seconds, OauthCallback, Wait;
    if e.Reauthorise? {
      CallbackConnects(Some(s.conn), s.now, e.reply, e.userinfo);
    }
  }

  // What every reachable row keeps

  /** A connected row holds both tokens and an expiry, and has failures exactly when it has an error code and
      a retry time. */
  predicate Healthy(c: Conn) {
    && c.failures <= 10
    && (c.status == Connected ==>
          && c.access != "" && c.refresh != "" && c.expiresAt.Some?
          && (c.failures > 0 <==> c.code != NoCode)
          && (c.failures > 0 <==> c.retryAt.Some?))
    && (c.status == Disconnected ==> c.access == "" && c.refresh == "")
  }

  lemma StepIsHealthy(s: System, e: Event)
    requires Healthy(s.conn)
    ensures Healthy(Step(s, e).conn)
  {
    hide Refreshed, Seconds, OauthCallback, Wait;
    if e.Reauthorise? {
      CallbackConnects(Some(s.conn), s.now, e.reply, e.userinfo);
    }
    if AttemptOf(s, e).Some? {
      RefusalsAreCoded(AttemptOf(s, e).value.reply);
    }
  }

  /** Over any run of a connection that a callback created: every stored row is healthy, so the branch of
      `access_token` for a connection without a refresh token is never taken. */
  lemma {:induction false} RunIsHealthy(s: System, es: seq<Event>)
    requires Healthy(s.conn)
    ensures Healthy(Run(s, es).conn)
    ensures Run(s, es).conn.status == Connected ==> Run(s, es).conn.refresh != ""
  {
    hide Step;
    if es != [] {
      RunIsHealthy(s, es[..|es| - 1]);
      StepIsHealthy(Run(s, es[..|es| - 1]), es[|es| - 1]);
    }
  }

  // Waiting after failures

  /** The number of refresh failures since the last success or reauthorisation. */
  function Streak(s: System, es: seq<Event>): nat {
    if es == [] then 0
    else
      var front, e := es[..|es| - 1], es[|es| - 1];
      if Fails(Run(s, front), e) then Streak(s, front) + 1
      else if Succeeds(Run(s, front), e) || Restores(Run(s, front), e) then 0
      else Streak(s, front)
  }

  lemma FailuresCount(s: System, e: Event)
    requires Healthy(s.conn)
    ensures Fails(s, e) ==> Step(s, e).conn.failures == Capped(s.conn.failures + 1)
    ensures Succeeds(s, e) || Restores(s, e) ==> Step(s, e).conn.failures == 0
    ensures !Fails(s, e) && !Succeeds(s, e) && !Restores(s, e) ==> Step(s, e).conn.failures == s.conn.failures
  {
    hide Refreshed, Seconds, OauthCallback, Wait;
    if e.Reauthorise? {
      CallbackConnects(Some(s.conn), s.now, e.reply, e.userinfo);
    }
  }

  /** The failure counter is the length of the streak, up to ten. */
  lemma {:induction false} FailuresAreStreak(s: System, es: seq<Event>)
    requires Healthy(s.conn) && s.conn.failures == 0
    ensures Run(s, es).conn.failures == Capped(Streak(s, es))
  {
    hide Step, Fails, Succeeds, Restores, Healthy;
    if es != [] {
      var front := es[..|es| - 1];
      FailuresAreStreak(s, front);
      RunIsHealthy(s, front);
      FailuresCount(Run(s, front), es[|es| - 1]);
    }
  }

  lemma WaitIsBounded(k: nat, e: ProviderError, jitter: Jitter)
    requires 1 <= k && e.retryAfter <= DAY
    ensures Backoff(k) <= Wait(k, e, jitter) <= DAY + 29
  {
  }

  lemma FailureClosesGate(s: System, e: Event)
    requires Fails(s, e) && Step(s, e).conn.status == Connected
    ensures var u := Step(s, e);
            && u.now == s.now && 1 <= u.conn.failures && u.conn.retryAt.Some?
            && s.now + Seconds(Backoff(u.conn.failures)) <= u.conn.retryAt.value <= s.now + Seconds(86429)
  {
    hide Refreshed, OauthCallback, Wait, Backoff;
    var a := AttemptOf(s, e).value;
    RefusalsAreCoded(a.reply);
    WaitIsBounded(Capped(s.conn.failures + 1), Refreshed(a.reply).error, a.jitter);
  }

  lemma StepKeepsGate(s: System, e: Event)
    ensures s.now <= Step(s, e).now
    ensures !Asks(s, e) && !Restores(s, e) && Healthy(s.conn) && Step(s, e).conn.status == Connected ==>
              s.conn.status == Connected && Step(s, e).conn.retryAt == s.conn.retryAt
  {
    hide Refreshed, Seconds, OauthCallback, Wait;
  }

  lemma ClosedGateStopsAll(s: System, e: Event)
    requires s.conn.status == Connected ==> GateClosed(s.conn, s.now)
    ensures !Asks(s, e)
  {
    hide Refreshed, Seconds, OauthCallback, Wait, TokenAccess;
  }

  /** While the retry time lies ahead and nobody reauthorises, it does not move. */
  lemma {:induction false} GateStays(s: System, es: seq<Event>, at: Time)
    requires Healthy(s.conn) && NoneRestores(s, es)
    requires s.conn.status == Connected ==> s.conn.retryAt == Some(at)
    requires Run(s, es).now < at
    ensures Run(s, es).conn.status == Connected ==> Run(s, es).conn.retryAt == Some(at)
  {
    hide Step, Restores, Asks, Healthy, AttemptOf;
    if es != [] {
      var front, e := es[..|es| - 1], es[|es| - 1];
      var u := Run(s, front);
      NoneRestoresFront(s, es);
      StepKeepsGate(u, e);
      GateStays(s, front, at);
      RunIsHealthy(s, front);
      ClosedGateStopsAll(u, e);
    }
  }

  predicate NoneAsks(s: System, es: seq<Event>) {
    forall k :: 0 <= k < |es| ==> !Asks(Run(s, es[..k]), es[k])
  }

  lemma {:induction false} GateStaysUnasked(s: System, es: seq<Event>, at: Time)
    requires Healthy(s.conn) && NoneRestores(s, es) && NoneAsks(s, es)
    requires s.conn.status == Connected ==> s.conn.retryAt == Some(at)
    ensures Run(s, es).conn.status == Connected ==> Run(s, es).conn.retryAt == Some(at)
  {
    hide Step, Restores, Asks, Healthy, AttemptOf;
    if es != [] {
      var front, e := es[..|es| - 1], es[|es| - 1];
      assert forall k :: 0 <= k < |front| ==> front[..k] == es[..k] && front[k] == es[k];
      NoneRestoresFront(s, es);
      StepKeepsGate(Run(s, front), e);
      GateStaysUnasked(s, front, at);
      RunIsHealthy(s, front);
    }
  }

  predicate JustFailed(s: System, es: seq<Event>) {
    es != [] && Fails(Run(s, es[..|es| - 1]), es[|es| - 1])
  }

  /** After the `k`-th consecutive failure no worker asks the provider before the backoff for `k`, at most 10,
      is over, whatever happens short of reauthorisation; and the gate does not outlast 86429 seconds unless
      someone asks again. */
  lemma FailuresBackOff(s: System, es: seq<Event>, later: seq<Event>, e: Event)
    requires Healthy(s.conn) && s.conn.failures == 0 && JustFailed(s, es)
    requires Run(s, es).conn.status == Connected && NoneRestores(Run(s, es), later)
    ensures var failed, u := Run(s, es), Run(Run(s, es), later);
            && Streak(s, es) >= 1
            && (u.now < failed.now + Seconds(Backoff(Capped(Streak(s, es)))) ==> !Asks(u, e))
            && (NoneAsks(failed, later) && u.now >= failed.now + Seconds(86429) && u.conn.status == Connected ==>
                  !GateClosed(u.conn, u.now))
  {
    hide Step, Fails, Succeeds, Restores, Asks, Healthy, Backoff, Seconds, AttemptOf;
    var front := es[..|es| - 1];
    var failed, u := Run(s, es), Run(Run(s, es), later);
    FailureClosesGate(Run(s, front), es[|es| - 1]);
    FailuresAreStreak(s, es);
    RunIsHealthy(s, es);
    var at := failed.conn.retryAt.value;
    if u.now < failed.now + Seconds(Backoff(Capped(Streak(s, es)))) {
      GateStays(failed, later, at);
      ClosedGateStopsAll(u, e);
    }
    if NoneAsks(failed, later) {
      GateStaysUnasked(failed, later, at);
    }
  }

  // The background task

  /** `int(total_seconds())`, towards zero. */
  function Whole(t: Time): int {
    if t >= 0 then t / 1_000_000 else -(-t / 1_000_000)
  }

  /** When `refresh_google_token` is run again after a failure that left a retry time. */
  function Countdown(retryAt: Time, now: Time): int {
    var d := Whole(retryAt - now) + 1;
    if d > 60 then d else 60
  }

  /** `enqueue_token_refreshes` picks these. */
  predicate Due(c: Conn, now: Time) {
    && c.status == Connected
    && (c.expiresAt.None? || c.expiresAt.value <= now + Seconds(600))
    && (c.retryAt.None? || c.retryAt.value <= now)
  }

  /** In every run, the scheduled refresh starts exactly the tasks that will ask the provider. */
  lemma DueConnectionsAsk(s: System, es: seq<Event>, reply: Reply, jitter: Jitter)
    requires Healthy(s.conn)
    ensures var u := Run(s, es); Due(u.conn, u.now) <==> Asks(u, Background(600_000_000, reply, jitter))
  {
    RunIsHealthy(s, es);
    hide Run;
  }

  /** A refresh task that is run again after its countdown does not meet the gate that its failure closed. */
  lemma RetriesMeetOpenGate(c: Conn, now: Time, later: Time)
    requires c.retryAt.Some? && later >= now + Seconds(Countdown(c.retryAt.value, now))
    ensures !GateClosed(c, later)
  {
  }

  // A revoked grant

  lemma RevokedStays(s: System, e: Event)
    requires KnownRevoked(s.conn) || (s.conn.status == Disconnected && s.conn.refresh == "")
    requires !Restores(s, e)
    ensures KnownRevoked(Step(s, e).conn) || (Step(s, e).conn.status == Disconnected && Step(s, e).conn.refresh == "")
  {
    hide Refreshed, Seconds, OauthCallback, Wait;
  }

  lemma {:induction false} RevokedUntilRestored(s: System, es: seq<Event>)
    requires KnownRevoked(s.conn) && NoneRestores(s, es)
    ensures var c := Run(s, es).conn; KnownRevoked(c) || (c.status == Disconnected && c.refresh == "")
  {
    hide Step, Restores;
    if es != [] {
      NoneRestoresFront(s, es);
      RevokedUntilRestored(s, es[..|es| - 1]);
      RevokedStays(Run(s, es[..|es| - 1]), es[|es| - 1]);
    }
  }

  /** Once a grant is known to be revoked, the connection comes back only with a refresh token that the
      provider sends in that very callback. */
  lemma RevokedGrantIsReplaced(s: System, es: seq<Event>, e: Event)
    requires KnownRevoked(s.conn) && NoneRestores(s, es) && Restores(Run(s, es), e)
    ensures TokenRequest(e.reply).Got?
    ensures Truthy(TokenRequest(e.reply).value.refresh)
    ensures Step(Run(s, es), e).conn.refresh == Shown(TokenRequest(e.reply).value.refresh)
  {
    var u := Run(s, es);
    RevokedUntilRestored(s, es);
    CallbackConnects(Some(u.conn), u.now, e.reply, e.userinfo);
    hide Run, OauthCallback, TokenRequest, Truthy;
  }
}
