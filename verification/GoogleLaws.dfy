/** The Google connection told by replies, times and stored fields: what each reply means, when the provider is asked,
    what an exchange leaves in the row, and who may take the connection over. */
module GoogleLaws {
  import opened Text
  import opened GoogleReplies
  import opened GoogleTokens
  import opened GoogleWorkers

  // Replies

  predicate Says(r: Reply, reason: string) {
    r.Answer? && r.status in {400, 401} && r.reason == Reason(reason)
  }

  /** A reply with the fields of a JSON object in it. */
  predicate HasFields(r: Reply) {
    r.Answer? && r.status < 400 && r.status != 204 && r.body.Fields?
  }

  lemma ReasonsDiffer()
    ensures "invalid_grant" != "temporarily_unavailable" && "invalid_grant" != "server_error"
    ensures "access_denied" != "temporarily_unavailable" && "access_denied" != "server_error"
    ensures "invalid_client" != "temporarily_unavailable" && "invalid_client" != "server_error"
    ensures "unauthorized_client" != "temporarily_unavailable" && "unauthorized_client" != "server_error"
    ensures "invalid_grant" != "invalid_client" && "invalid_grant" != "unauthorized_client"
    ensures "access_denied" != "invalid_client" && "access_denied" != "unauthorized_client"
  {
    assert "invalid_grant"[8] == 'g' && "invalid_client"[8] == 'c';
    assert "access_denied"[0] == 'a' && "unauthorized_client"[0] == 'u' && "invalid_client"[0] == 'i';
    assert "temporarily_unavailable"[0] == 't' && "server_error"[0] == 's' && "invalid_grant"[0] == 'i';
  }

  /** The code of a refused refresh, by the reply. */
  lemma RefusalCodes(r: Reply)
    requires Refreshed(r).Failed?
    ensures var code := Refreshed(r).error.code;
            && (code == CredentialsRevoked <==> Says(r, "invalid_grant") || Says(r, "access_denied"))
            && (code == OauthClientConfiguration <==> Says(r, "invalid_client") || Says(r, "unauthorized_client"))
            && (code == GoogleUnavailable <==>
                  || r.NoAnswer? || Says(r, "temporarily_unavailable") || Says(r, "server_error")
                  || (r.status >= 400 && r.status !in {400, 401, 403, 429}))
            && (code == QuotaExceeded <==> r.Answer? && (r.status == 429 || (r.status == 403 && r.quotaReason)))
            && (code == GooglePermissionDenied <==> r.Answer? && r.status == 403 && !r.quotaReason)
            && (code == InvalidProviderResponse <==> r.Answer? && r.status < 400)
  {
    ReasonsDiffer();
    hide Clamp, Lifetime;
  }

  /** The error of an authorised request, by its answer. Only a 401 counts as a rejected token. */
  lemma AnswersAreCoded(r: Reply)
    requires Decode(r).Failed?
    ensures var e := Decode(r).error;
            && (e.code == CredentialsRevoked <==> r.Answer? && r.status == 401)
            && (e.code == QuotaExceeded <==> r.Answer? && (r.status == 429 || (r.status == 403 && r.quotaReason)))
            && (e.code == GooglePermissionDenied <==> r.Answer? && r.status == 403 && !r.quotaReason)
            && (e.code == InvalidGoogleRequest <==> r.Answer? && r.status == 400)
            && (e.code == InvalidProviderResponse <==> r.Answer? && r.status < 400)
            && (e.retryable <==>
                  || r.NoAnswer? || r.status >= 500 || r.status in {408, 425, 429}
                  || (r.status == 403 && r.quotaReason) || (r.status < 400 && r.body == NotJson))
  {
    hide Clamp;
  }

  /** The wait a refusal asks for is its header, at least 0 and at most a day, and none on a 400 or 401. */
  lemma RefusalWaits(r: Reply)
    requires Refreshed(r).Failed?
    ensures Refreshed(r).error.retryAfter ==
            if r.Answer? && r.status >= 400 && r.status !in {400, 401} && r.retryAfter.Some? then
              (if r.retryAfter.value < 0 then 0 else if r.retryAfter.value > 86400 then 86400 else r.retryAfter.value)
            else 0
  {
    hide Lifetime;
  }

  /** How long the token of a reply lives: an hour where the reply does not say. */
  predicate Lives(fields: TokenFields, seconds: nat) {
    && seconds > 0
    && (if fields.expiresIn.Absent? then seconds == 3600
        else !fields.expiresIn.Null? && fields.expiresIn.asInt == Some(seconds))
  }

  /** A reply grants a token exactly if it carries one with a lifetime and nothing odd for a refresh token. */
  lemma GrantsExactly(r: Reply)
    ensures Refreshed(r).Got? <==>
              && HasFields(r) && r.body.fields.access.Text? && r.body.fields.access.text != ""
              && !r.body.fields.refresh.Other?
              && exists n: nat :: Lives(r.body.fields, n)
    ensures Refreshed(r).Got? ==>
              var fields, g := r.body.fields, Refreshed(r).value;
              && g.access == fields.access.text && Lives(fields, g.lifetime)
              && g.refresh == if fields.refresh.Text? then fields.refresh.text else ""
    ensures Refreshed(r).Crashed? <==> r.Answer? && r.status in {400, 401} && r.reason.Unhashable?
  {
    hide Clamp;
    if HasFields(r) && Lifetime(r.body.fields).Some? {
      assert Lives(r.body.fields, Lifetime(r.body.fields).value);
    }
  }

  // When the provider is asked

  /** The stored token lasts for another `margin` microseconds and is not the one that was rejected. */
  predicate Lasts(c: Conn, now: int, margin: int, rejected: Option<string>) {
    c.access != "" && Some(c.access) != rejected && c.expiresAt.Some? && c.expiresAt.value > now + margin
  }

  /** A request asks when its worker has no token yet, or saw the one it has rejected; 90 seconds ahead of the
      expiry. */
  lemma RequestsAskExactly(s: System, w: nat, reply: Reply, jitter: Jitter)
    ensures Asks(s, First(w, reply, jitter)) <==>
              && (w in s.workers ==> s.workers[w] == Idle)
              && s.conn.status == Connected && s.conn.refresh != ""
              && !Lasts(s.conn, s.now, 90_000_000, None)
              && (s.conn.retryAt.Some? ==> s.conn.retryAt.value <= s.now)
    ensures Asks(s, Second(w, reply, jitter)) <==>
              && w in s.workers && s.workers[w].SawRejected?
              && s.conn.status == Connected && s.conn.refresh != ""
              && !Lasts(s.conn, s.now, 90_000_000, Some(s.workers[w].token))
              && (s.conn.retryAt.Some? ==> s.conn.retryAt.value <= s.now)
  {
    assert Seconds(90) == 90_000_000;
  }

  lemma RefreshesAskExactly(s: System, margin: Time, reply: Reply, jitter: Jitter)
    ensures Asks(s, Background(margin, reply, jitter)) <==>
              && s.conn.status == Connected && s.conn.refresh != "" && !Lasts(s.conn, s.now, margin, None)
              && (s.conn.retryAt.Some? ==> s.conn.retryAt.value <= s.now)
  {
  }

  /** What a call that does not ask is answered: the stored token if it lasts, behind a closed gate even if only for
      90 seconds more, and else an error that says what is missing. The row stays as it is. */
  lemma AnswersWithoutAsking(c: Conn, now: Time, margin: Time, rejected: Option<string>, reply: Reply, jitter: Jitter)
    requires c.status != Connected || Lasts(c, now, margin, rejected) || (c.retryAt.Some? && c.retryAt.value > now)
    ensures TokenAccess(c, now, margin, rejected, reply, jitter) ==
            Done(c,
                 if c.status != Connected then Failed(ProviderError(ReconnectionRequired, false, 0))
                 else if Lasts(c, now, margin, rejected) || Lasts(c, now, 90_000_000, rejected) then Got(c.access)
                 else Failed(ProviderError(TokenRefreshBackoff, true, 0)))
  {
    assert Seconds(90) == 90_000_000;
    hide Refreshed, Refused, Renewed;
  }

  /** A call that raises something else than a provider error leaves the row. It does so on a reason that cannot be
      looked up, and on an expiry past the end of time. */
  lemma CrashesChangeNothing(c: Conn, now: Time, margin: Time, rejected: Option<string>, reply: Reply, jitter: Jitter)
    ensures var done := TokenAccess(c, now, margin, rejected, reply, jitter);
            && (done.outcome.Crashed? ==> done.conn == c)
            && (done.outcome.Crashed? <==>
                  && Exchanges(c, now, margin, rejected)
                  && (|| (reply.Answer? && reply.status in {400, 401} && reply.reason.Unhashable?)
                      || (Refreshed(reply).Got? && now + 1_000_000 * Refreshed(reply).value.lifetime > LATEST)))
  {
    GrantsExactly(reply);
    hide Refreshed, Refused, Renewed, Lives;
  }

  /** What the caller of a request is told when it fails: the error of the first token call, an answer that is no
      rejection, the error of the second call, or the answer to the retry. Where the retry is rejected as well but
      another worker stored a newer token, it is told to try again. */
  lemma RequestsTell(c: Conn, now: Time, first: (Reply, Jitter), answer: Answered, second: (Reply, Jitter),
                     again: Answered)
    ensures var outcome := RequestOutcome(c, now, first, answer, second, again);
            var held := TokenAccess(c, now, 90_000_000, None, first.0, first.1);
            if !held.outcome.Got? then
              (held.outcome.Crashed? ==> outcome.Crashed?)
              && (held.outcome.Failed? ==> outcome == Failed(held.outcome.error))
            else if answer.error.None? then outcome == Got(())
            else if answer.error.value.code != CredentialsRevoked then outcome == Failed(answer.error.value)
            else
              var renewed := TokenAccess(held.conn, now + answer.took, 90_000_000, Some(held.outcome.value),
                                         second.0, second.1);
              if !renewed.outcome.Got? then
                (renewed.outcome.Crashed? ==> outcome.Crashed?)
                && (renewed.outcome.Failed? ==> outcome == Failed(renewed.outcome.error))
              else if again.error.None? then outcome == Got(())
              else if again.error.value.code == CredentialsRevoked && renewed.conn.status == Connected
                      && renewed.conn.access != renewed.outcome.value then
                outcome == Failed(ProviderError(GoogleUnavailable, true, 0))
              else outcome == Failed(again.error.value)
  {
    hide TokenAccess;
    assert Seconds(90) == 90_000_000;
  }

  // What an exchange leaves

  /** The least wait after failures in a row, in seconds. */
  const WAITS: seq<nat> := [60, 120, 240, 480, 960, 1920, 3600]

  function LeastWait(failures: nat): nat
    requires failures >= 1
  {
    if failures <= 7 then WAITS[failures - 1] else 3600
  }

  lemma BackoffIsTable(k: nat)
    requires k >= 1
    ensures Backoff(k) == LeastWait(k)
  {
    if k <= 7 {
      assert Pow2(0) == 1 && Pow2(1) == 2 && Pow2(2) == 4 && Pow2(3) == 8;
      assert Pow2(4) == 16 && Pow2(5) == 32 && Pow2(6) == 64;
    } else {
      PowersGrow(k - 1);
    }
  }

  lemma {:induction false} PowersGrow(n: nat)
    requires n >= 6
    ensures Pow2(n) >= 64
  {
    if n == 6 {
      assert Pow2(3) == 8 && Pow2(4) == 16 && Pow2(5) == 32;
    } else {
      PowersGrow(n - 1);
    }
  }

  /** A failed exchange is counted, up to ten, and leaves its code. One that is worth another try sets the retry time:
      the wait of the table or the one the reply asked for, whichever is longer, and the jitter. Any other ends the
      connection. Tokens and owner stay. */
  lemma FailureIsRecorded(s: System, e: Event)
    requires Fails(s, e)
    ensures var c, after, a := s.conn, Step(s, e).conn, AttemptOf(s, e).value;
            var error := Refreshed(a.reply).error;
            var k := if c.failures < 10 then c.failures + 1 else 10;
            && Refreshed(a.reply).Failed?
            && after.code == error.code && after.failures == k
            && after.status == (if error.retryable then Connected else Reconnect)
            && after.retryAt == (
                 if !error.retryable then None
                 else if error.retryAfter > LeastWait(k) then Some(s.now + 1_000_000 * (error.retryAfter + a.jitter))
                 else Some(s.now + 1_000_000 * (LeastWait(k) + a.jitter)))
            && after.access == c.access && after.refresh == c.refresh && after.expiresAt == c.expiresAt
            && after.email == c.email && after.subject == c.subject
  {
    hide Refreshed, LeastWait, Backoff, WAITS;
    BackoffIsTable(Capped(s.conn.failures + 1));
  }

  /** A successful exchange stores the token of the reply with its expiry, and its refresh token if there is one; the
      record of failures is gone. */
  lemma SuccessIsStored(s: System, e: Event)
    requires Succeeds(s, e)
    ensures var c, after, r := s.conn, Step(s, e).conn, AttemptOf(s, e).value.reply;
            && HasFields(r) && r.body.fields.access.Text?
            && after.access == r.body.fields.access.text
            && after.refresh == (if r.body.fields.refresh.Text? && r.body.fields.refresh.text != "" then
                                   r.body.fields.refresh.text
                                 else c.refresh)
            && (exists n: nat :: Lives(r.body.fields, n) && after.expiresAt == Some(s.now + 1_000_000 * n))
            && after.failures == 0 && after.retryAt == None && after.code == NoCode && after.status == Connected
            && after.email == c.email && after.subject == c.subject
    ensures e.First? ==> WorkerOf(Step(s, e), e.w) == HasToken(Step(s, e).conn.access)
    ensures e.Second? ==> WorkerOf(Step(s, e), e.w) == HasRenewed(Step(s, e).conn.access)
  {
    var r := AttemptOf(s, e).value.reply;
    GrantsExactly(r);
    hide Refreshed, Lives;
    assert Lives(r.body.fields, Refreshed(r).value.lifetime);
  }

  // Waiting

  /** Nobody asks before the retry time that a failure left, short of reauthorisation. */
  lemma NobodyAsksBefore(s: System, es: seq<Event>, later: seq<Event>, e: Event)
    requires Healthy(s.conn) && JustFailed(s, es) && Run(s, es).conn.status == Connected
    requires NoneRestores(Run(s, es), later)
    ensures var failed, u := Run(s, es), Run(Run(s, es), later);
            failed.conn.retryAt.Some? && (u.now < failed.conn.retryAt.value ==> !Asks(u, e))
  {
    hide Step, Succeeds, Restores, Asks, Healthy, AttemptOf, Fails;
    var front := es[..|es| - 1];
    var failed, u := Run(s, es), Run(Run(s, es), later);
    FailureClosesGate(Run(s, front), es[|es| - 1]);
    RunIsHealthy(s, es);
    var at := failed.conn.retryAt.value;
    if u.now < at {
      GateStays(failed, later, at);
      ClosedGateStopsAll(u, e);
    }
  }

  /** The reply of the failure that ends the run. */
  function LastReply(s: System, es: seq<Event>): Reply
    requires JustFailed(s, es)
  {
    AttemptOf(Run(s, es[..|es| - 1]), es[|es| - 1]).value.reply
  }

  /** A Retry-After is obeyed: after a refusal that may be tried again and names one, of at most a day, no worker asks
      until it has passed, whatever happens short of reauthorisation. */
  lemma RetryAfterIsObeyed(s: System, es: seq<Event>, later: seq<Event>, e: Event)
    requires Healthy(s.conn) && JustFailed(s, es) && NoneRestores(Run(s, es), later)
    requires var r := LastReply(s, es);
             && r.Answer? && r.retryAfter.Some? && r.retryAfter.value >= 0
             && (r.status >= 500 || r.status in {408, 425, 429} || (r.status == 403 && r.quotaReason))
    ensures var failed, u := Run(s, es), Run(Run(s, es), later);
            var h := LastReply(s, es).retryAfter.value;
            u.now < failed.now + 1_000_000 * (if h > 86400 then 86400 else h) ==> !Asks(u, e)
  {
    var before, last := Run(s, es[..|es| - 1]), es[|es| - 1];
    FailureIsRecorded(before, last);
    RefusalWaits(LastReply(s, es));
    FailureTakesNoTime(before, last);
    PermanentRefusals(LastReply(s, es));
    hide Refreshed, Step, Succeeds, Restores, Asks, Healthy, AttemptOf, Fails, NoneRestores, LeastWait;
    NobodyAsksBefore(s, es, later, e);
  }

  lemma FailureTakesNoTime(s: System, e: Event)
    requires Fails(s, e)
    ensures Step(s, e).now == s.now
  {
    hide Refreshed, Refused, Renewed;
  }

  /** After the `k`-th failure in a row no worker asks for the time of the table, up to the hour that the seventh and
      every later one costs. */
  lemma WaitsGrow(s: System, es: seq<Event>, later: seq<Event>, e: Event)
    requires Healthy(s.conn) && s.conn.failures == 0 && JustFailed(s, es) && Run(s, es).conn.status == Connected
    requires NoneRestores(Run(s, es), later)
    ensures var failed, u := Run(s, es), Run(Run(s, es), later);
            && Streak(s, es) >= 1
            && failed.conn.failures == (if Streak(s, es) < 10 then Streak(s, es) else 10)
            && (u.now < failed.now + 1_000_000 * LeastWait(Streak(s, es)) ==> !Asks(u, e))
  {
    FailuresAreStreak(s, es);
    FailuresBackOff(s, es, later, e);
    BackoffIsTable(Capped(Streak(s, es)));
    hide Backoff, Step, Succeeds, Restores, Asks, Healthy, AttemptOf, Fails, NoneRestores, WAITS;
  }

  /** A refresh task that is run again waits no longer than it must: a minute, or to the second after the gate opens. */
  lemma CountdownIsTight(retryAt: Time, now: Time)
    ensures Countdown(retryAt, now) >= 60
    ensures Countdown(retryAt, now) > 60 ==> now + 1_000_000 * (Countdown(retryAt, now) - 1) <= retryAt
  {
  }

  // Revoked grants

  /** An invalid grant leaves a connection that is known to be revoked. */
  lemma InvalidGrantIsKnown(s: System, e: Event)
    requires Asks(s, e)
    requires var r := AttemptOf(s, e).value.reply; Says(r, "invalid_grant") || Says(r, "access_denied")
    ensures Step(s, e).conn.status == Reconnect && Step(s, e).conn.code == CredentialsRevoked
    ensures Step(s, e).conn.refresh == s.conn.refresh
  {
    hide Clamp, Backoff, Wait, Lifetime;
  }

  /** From then on only a callback whose own reply carries a refresh token brings the connection back, and it is that
      one which is stored. */
  lemma InvalidGrantNeedsANewToken(s: System, es: seq<Event>, e: Event)
    requires s.conn.status == Reconnect && s.conn.code == CredentialsRevoked
    requires NoneRestores(s, es) && Run(s, es).conn.status != Connected && Step(Run(s, es), e).conn.status == Connected
    ensures e.Reauthorise? && HasFields(e.reply)
    ensures var sent := e.reply.body.fields.refresh;
            || (sent.Text? && sent.text != "" && Step(Run(s, es), e).conn.refresh == sent.text)
            || (sent.Other? && sent.truthy && Step(Run(s, es), e).conn.refresh == sent.shown)
  {
    StatusMoves(Run(s, es), e);
    RevokedGrantIsReplaced(s, es, e);
    FieldsOf(e.reply);
    hide TokenRequest, Step, Run, NoneRestores, Restores;
  }

  /** What a reply of the token endpoint that is no refusal carries. */
  lemma FieldsOf(r: Reply)
    requires TokenRequest(r).Got?
    ensures if HasFields(r) then TokenRequest(r).value == r.body.fields
            else TokenRequest(r).value == TokenFields(Absent, Absent, Absent)
  {
    hide Clamp;
  }

  // Whose connection it is

  /** Whom a connection belongs to: the subject, or the address where no subject was stored. */
  predicate Belongs(c: Conn, who: Identity) {
    if c.subject != "" then c.subject == who.subject else c.email == "" || c.email == who.email
  }

  /** A callback succeeds exactly if Google granted a token that lives, said who granted it, that is the owner, and
      there is a refresh token: the one in the reply, or the stored one unless it is known to be revoked. */
  lemma CallbackExactly(c: Conn, now: Time, reply: Reply, userinfo: Outcome<Identity>)
    ensures OauthCallback(Some(c), now, reply, userinfo).Got? <==>
              && HasFields(reply)
              && (reply.body.fields.access.Other? ==> reply.body.fields.access.truthy)
              && (reply.body.fields.access.Text? ==> reply.body.fields.access.text != "")
              && reply.body.fields.access != Absent && reply.body.fields.access != Null
              && userinfo.Got? && userinfo.value.subject != "" && userinfo.value.email != ""
              && Belongs(c, userinfo.value)
              && (|| (reply.body.fields.refresh.Text? && reply.body.fields.refresh.text != "")
                  || (reply.body.fields.refresh.Other? && reply.body.fields.refresh.truthy)
                  || (c.refresh != "" && !(c.status == Reconnect && c.code == CredentialsRevoked)))
              && exists n: nat :: Lives(reply.body.fields, n) && now + 1_000_000 * n <= LATEST
  {
    CallbackFields(c, now, reply, userinfo);
    if HasFields(reply) {
      LifetimeLives(reply.body.fields);
      hide TokenRequest, Lifetime, Lives;
    }
  }

  lemma LifetimeLives(fields: TokenFields)
    ensures forall n: nat :: Lives(fields, n) <==> Lifetime(fields) == Some(n)
  {
  }

  lemma CallbackFields(c: Conn, now: Time, reply: Reply, userinfo: Outcome<Identity>)
    ensures HasFields(reply) ==> TokenRequest(reply) == Got(reply.body.fields)
    ensures !HasFields(reply) ==> !OauthCallback(Some(c), now, reply, userinfo).Got?
  {
    if TokenRequest(reply).Got? {
      FieldsOf(reply);
    }
    hide Clamp, Lifetime;
  }

  /** No callback hands a connection to another account. */
  lemma OwnerIsKept(s: System, e: Event)
    ensures s.conn.subject != "" ==> Step(s, e).conn.subject == s.conn.subject
    ensures s.conn.email != "" && s.conn.subject == "" ==> Step(s, e).conn.email == s.conn.email
    ensures !e.Reauthorise? ==> Step(s, e).conn.subject == s.conn.subject && Step(s, e).conn.email == s.conn.email
  {
    hide Refreshed, TokenRequest, Lifetime, Wait, OfflineToken;
  }

  /** A known subject is never replaced, in any run. */
  lemma {:induction false} SubjectIsNeverReplaced(s: System, es: seq<Event>)
    requires s.conn.subject != ""
    ensures Run(s, es).conn.subject == s.conn.subject
  {
    hide Step;
    if es != [] {
      SubjectIsNeverReplaced(s, es[..|es| - 1]);
      OwnerIsKept(Run(s, es[..|es| - 1]), es[|es| - 1]);
    }
  }

  /** A callback by anyone else is answered with the mismatch, once Google said who that is. */
  lemma MismatchIsTold(c: Conn, now: Time, reply: Reply, who: Identity)
    requires HasFields(reply) && reply.body.fields.access.Text? && reply.body.fields.access.text != ""
    requires who.subject != "" && who.email != ""
    ensures OauthCallback(Some(c), now, reply, Got(who)) == Failed(ProviderError(GoogleAccountMismatch, false, 0)) <==>
              !Belongs(c, who)
  {
    CallbackFields(c, now, reply, Got(who));
    hide TokenRequest, Lifetime, OfflineToken;
  }

  // The other ways out

  /** A token that was renewed and rejected ends the connection only while it is still the stored one. */
  lemma FinalCheckCondemns(s: System, w: nat, renewed: string)
    requires w in s.workers && s.workers[w] == SawRenewedRejected(renewed)
    ensures Step(s, FinalCheck(w)).conn ==
            if s.conn.status == Connected && s.conn.access == renewed then
              s.conn.(status := Reconnect, code := CredentialsRevoked)
            else s.conn
  {
  }

  /** A disconnection takes the tokens, the retry time and the code, and keeps whose connection it was. */
  lemma DisconnectionLeaves(c: Conn, revoked: Option<int>)
    requires c.status != Disconnected && revoked in {Some(200), Some(400)}
    ensures var after := Disconnection(c, revoked).conn;
            && after.status == Disconnected && after.access == "" && after.refresh == ""
            && after.retryAt == None && after.code == NoCode
            && after.email == c.email && after.subject == c.subject
            && after.expiresAt == c.expiresAt && after.failures == c.failures
  {
  }
}
