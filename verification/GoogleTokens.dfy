/** One Google connection: its locked row and its secrets, as `access_token`, `oauth_callback`, `disconnect`
    and the last transaction of `google_request` change them. Refreshing follows section 6 of RFC 6749. */
module GoogleTokens {
  import opened Text
  import opened GoogleReplies

  /** Microseconds, the resolution of Python's `datetime`. */
  type Time = int

  /** `datetime.max`, from the start of year 1. */
  const LATEST: Time := 3_652_059 * 86_400_000_000 - 1

  /** `timedelta(seconds=n)`. */
  function Seconds(n: int): Time {
    1_000_000 * n
  }

  /** `secrets.randbelow(30)`. */
  type Jitter = n: nat | n < 30

  datatype Status = Connected | Reconnect | Disconnected

  /** The row and its secrets; "" stands for a secret the store does not hold, as storing drops empty ones. */
  datatype Conn = Conn(
    status: Status,
    code: Code,
    failures: nat,
    retryAt: Option<Time>,
    expiresAt: Option<Time>,
    access: string,
    refresh: string,
    email: string,
    subject: string)

  /** What a step of a connection leaves and what its caller gets. */
  datatype Done<+T> = Done(conn: Conn, outcome: Outcome<T>)

  // access_token

  /** The stored token is good for the caller. */
  predicate Usable(c: Conn, now: Time, margin: Time, rejected: Option<string>) {
    && c.expiresAt.Some? && c.expiresAt.value > now + margin
    && c.access != "" && Some(c.access) != rejected
  }

  predicate GateClosed(c: Conn, now: Time) {
    c.retryAt.Some? && c.retryAt.value > now
  }

  /** The call reaches the part that sends the refresh token to the provider. */
  predicate Exchanges(c: Conn, now: Time, margin: Time, rejected: Option<string>) {
    c.status == Connected && !Usable(c, now, margin, rejected) && !GateClosed(c, now) && c.refresh != ""
  }

  function Pow2(n: nat): (p: nat)
    ensures p >= 1
  {
    if n == 0 then 1 else 2 * Pow2(n - 1)
  }

  /** The least number of seconds to wait after the `k`-th failure. */
  function Backoff(k: nat): nat
    requires k >= 1
  {
    if 60 * Pow2(k - 1) < 3600 then 60 * Pow2(k - 1) else 3600
  }

  function Wait(k: nat, e: ProviderError, jitter: Jitter): nat
    requires k >= 1
  {
    (if Backoff(k) > e.retryAfter then Backoff(k) else e.retryAfter) + jitter
  }

  function Capped(n: nat): nat {
    if n > 10 then 10 else n
  }

  /** The failure branch of `access_token`. */
  function Refused(c: Conn, now: Time, e: ProviderError, jitter: Jitter): Conn {
    var k := Capped(c.failures + 1);
    c.(code := e.code,
       failures := k,
       retryAt := if e.retryable then Some(now + Seconds(Wait(k, e, jitter))) else None,
       status := if e.retryable then c.status else Reconnect)
  }

  /** The success branch. */
  function Renewed(c: Conn, now: Time, g: Grant): Conn {
    c.(access := g.access,
       refresh := if g.refresh != "" then g.refresh else c.refresh,
       expiresAt := Some(now + Seconds(g.lifetime)),
       failures := 0, retryAt := None, code := NoCode)
  }

  /** `access_token`. A crash rolls the transaction back. */
  function TokenAccess(c: Conn, now: Time, margin: Time, rejected: Option<string>, reply: Reply, jitter: Jitter)
    : Done<string>
  {
    if c.status != Connected then Done(c, Failed(Error(ReconnectionRequired)))
    else if Usable(c, now, margin, rejected) then Done(c, Got(c.access))
    else if GateClosed(c, now) then
      if Usable(c, now, Seconds(90), rejected) then Done(c, Got(c.access))
      else Done(c, Failed(Retryable(TokenRefreshBackoff)))
    else
      match if c.refresh == "" then Failed(Error(CredentialsRevoked)) else Refreshed(reply)
      case Failed(e) => Done(Refused(c, now, e, jitter), Failed(e))
      case Crashed => Done(c, Crashed)
      case Got(g) =>
        if now + Seconds(g.lifetime) > LATEST then Done(c, Crashed) else Done(Renewed(c, now, g), Got(g.access))
  }

  // google_request: the transaction after a renewed token was rejected

  function Condemned(c: Conn, renewed: string): Conn {
    if c.status == Connected && c.access == renewed then c.(status := Reconnect, code := CredentialsRevoked) else c
  }

  /** The request ends with its rejection as it was answered, or, where another worker stored a newer token, with an
      error that can be retried. */
  function RejectionMarked(c: Conn, renewed: string, rejection: ProviderError): Done<()> {
    Done(Condemned(c, renewed),
         Failed(if c.status == Connected && c.access != renewed then Retryable(GoogleUnavailable) else rejection))
  }

  // oauth_callback

  datatype Identity = Identity(subject: string, email: string)

  predicate Mismatch(c: Conn, who: Identity) {
    || (c.subject != "" && c.subject != who.subject)
    || (c.subject == "" && c.email != "" && c.email != who.email)
  }

  predicate KnownRevoked(c: Conn) {
    c.status == Reconnect && c.code == CredentialsRevoked
  }

  /** The refresh token that a callback would store. */
  function OfflineToken(existing: Option<Conn>, fields: TokenFields): string {
    if Truthy(fields.refresh) then Shown(fields.refresh)
    else if existing.Some? && !KnownRevoked(existing.value) then existing.value.refresh
    else ""
  }

  /** The part of `oauth_callback` that knows who granted access. */
  function Restored(existing: Option<Conn>, now: Time, fields: TokenFields, who: Identity): Outcome<Conn>
    requires Truthy(fields.access)
  {
    if who.subject == "" || who.email == "" then Failed(Error(GoogleIdentityUnverified))
    else if existing.Some? && Mismatch(existing.value, who) then Failed(Error(GoogleAccountMismatch))
    else if OfflineToken(existing, fields) == "" then Failed(Error(OfflineAccessRequired))
    else if Lifetime(fields).None? then Failed(Retryable(InvalidProviderResponse))
    else if now + Seconds(Lifetime(fields).value) > LATEST then Crashed
    else Got(Conn(Connected, NoCode, 0, None, Some(now + Seconds(Lifetime(fields).value)),
                  Shown(fields.access), OfflineToken(existing, fields), who.email, who.subject))
  }

  /** `oauth_callback` once the OAuth state is consumed. Every failure rolls the transaction back, so only a
      success yields a row. */
  function OauthCallback(existing: Option<Conn>, now: Time, reply: Reply, userinfo: Outcome<Identity>): Outcome<Conn> {
    match TokenRequest(reply)
    case Failed(e) => Failed(e)
    case Crashed => Crashed
    case Got(fields) =>
      if !Truthy(fields.access) then Failed(Error(GoogleAccessNotGranted))
      else
        match userinfo
        case Failed(e) => Failed(e)
        case Crashed => Crashed
        case Got(who) => Restored(existing, now, fields, who)
  }

  /** The row becomes what the callback yields, or stays as it was. */
  function Settled(before: Conn, r: Outcome<Conn>): Done<()> {
    match r
    case Got(c) => Done(c, Got(()))
    case Failed(e) => Done(before, Failed(e))
    case Crashed => Done(before, Crashed)
  }

  // disconnect

  /** `disconnect`; `revoked` is the status of the revocation call, none when it got no answer. */
  function Disconnection(c: Conn, revoked: Option<int>): Done<()> {
    if c.status == Disconnected then Done(c, Got(()))
    else if revoked.None? || revoked.value !in {200, 400} then Done(c, Failed(Retryable(RevocationUnavailable)))
    else Done(c.(access := "", refresh := "", status := Disconnected, retryAt := None, code := NoCode), Got(()))
  }

  /** A disconnection is confirmed or changes nothing: afterwards the row is disconnected and holds no secret, and
      it can be disconnected again without asking anyone. */
  lemma DisconnectionIsConfirmed(c: Conn, revoked: Option<int>, again: Option<int>)
    requires c.status == Disconnected ==> c.access == "" && c.refresh == ""
    ensures var done := Disconnection(c, revoked);
            && (done.outcome == Got(()) <==> done.conn.status == Disconnected)
            && (done.outcome == Got(()) ==> done.conn.access == "" && done.conn.refresh == "")
            && (done.outcome != Got(()) ==> done.conn == c)
            && (done.conn != c ==> revoked in {Some(200), Some(400)})
            && Disconnection(done.conn, again).conn ==
                 if done.outcome == Got(()) then done.conn else Disconnection(c, again).conn
  {
  }

  /** The locked row as the code updates it, field by field. */
  class GoogleConnection {
    var status: Status
    var code: Code
    var failures: nat
    var retryAt: Option<Time>
    var expiresAt: Option<Time>
    var access: string
    var refresh: string
    var email: string
    var subject: string

    function View(): Conn
      reads this
    {
      Conn(status, code, failures, retryAt, expiresAt, access, refresh, email, subject)
    }

    constructor (c: Conn)
      ensures View() == c
    {
      status, code, failures, retryAt, expiresAt := c.status, c.code, c.failures, c.retryAt, c.expiresAt;
      access, refresh, email, subject := c.access, c.refresh, c.email, c.subject;
    }

    /** The provider call of `access_token` with the checks around it. */
    method Exchange(reply: Reply) returns (r: Outcome<Grant>)
      ensures r == if refresh == "" then Failed(Error(CredentialsRevoked)) else Refreshed(reply)
    {
      if refresh == "" {
        return Failed(Error(CredentialsRevoked));
      }
      var fields := TokenRequest(reply);
      if !fields.Got? {
        return if fields.Crashed? then Crashed else Failed(fields.error);
      }
      var tokens := fields.value;
      if !tokens.access.Text? || tokens.access.text == "" {
        return Failed(Retryable(InvalidProviderResponse));
      }
      var lifetime := Lifetime(tokens);
      if lifetime.None? || tokens.refresh.Other? {
        return Failed(Retryable(InvalidProviderResponse));
      }
      r := Got(Grant(tokens.access.text, if tokens.refresh.Text? then tokens.refresh.text else "", lifetime.value));
    }

    method NoteFailure(now: Time, e: ProviderError, jitter: Jitter)
      modifies this
      ensures View() == Refused(old(View()), now, e, jitter)
    {
      code := e.code;
      failures := Capped(failures + 1);
      retryAt := if e.retryable then Some(now + Seconds(Wait(failures, e, jitter))) else None;
      if !e.retryable {
        status := Reconnect;
      }
    }

    method StoreGrant(now: Time, g: Grant)
      modifies this
      ensures View() == Renewed(old(View()), now, g) && access == g.access
    {
      access := g.access;
      if g.refresh != "" {
        refresh := g.refresh;
      }
      expiresAt := Some(now + Seconds(g.lifetime));
      failures, retryAt, code := 0, None, NoCode;
    }

    method AccessToken(now: Time, margin: Time, rejected: Option<string>, reply: Reply, jitter: Jitter)
      returns (token: Outcome<string>)
      modifies this
      ensures Done(View(), token) == TokenAccess(old(View()), now, margin, rejected, reply, jitter)
    {
      hide Refreshed, Wait, Seconds, Refused, Renewed;
      if status != Connected {
        return Failed(Error(ReconnectionRequired));
      }
      if expiresAt.Some? && expiresAt.value > now + margin && access != "" && Some(access) != rejected {
        return Got(access);
      }
      if retryAt.Some? && retryAt.value > now {
        if expiresAt.Some? && expiresAt.value > now + Seconds(90) && access != "" && Some(access) != rejected {
          return Got(access);
        }
        return Failed(Retryable(TokenRefreshBackoff));
      }
      var refreshed := Exchange(reply);
      match refreshed {
        case Crashed =>
          return Crashed;
        case Failed(e) =>
          NoteFailure(now, e, jitter);
          return Failed(e);
        case Got(g) =>
          if now + Seconds(g.lifetime) > LATEST {
            return Crashed;
          }
          StoreGrant(now, g);
          return Got(access);
      }
    }

    method MarkRejected(renewed: string, rejection: ProviderError) returns (outcome: Outcome<()>)
      modifies this
      ensures Done(View(), outcome) == RejectionMarked(old(View()), renewed, rejection)
    {
      if status == Connected {
        if access != renewed {
          return Failed(Retryable(GoogleUnavailable));
        }
        status, code := Reconnect, CredentialsRevoked;
      }
      return Failed(rejection);
    }

    method Restore(now: Time, tokens: TokenFields, who: Identity) returns (outcome: Outcome<()>)
      requires Truthy(tokens.access)
      modifies this
      ensures Done(View(), outcome) == Settled(old(View()), Restored(Some(old(View())), now, tokens, who))
    {
      hide Seconds, Lifetime;
      if who.subject == "" || who.email == "" {
        return Failed(Error(GoogleIdentityUnverified));
      }
      if (subject != "" && subject != who.subject) || (subject == "" && email != "" && email != who.email) {
        return Failed(Error(GoogleAccountMismatch));
      }
      var offline := refresh;
      if Truthy(tokens.refresh) {
        offline := Shown(tokens.refresh);
      } else if status == Reconnect && code == CredentialsRevoked {
        offline := "";
      }
      if offline == "" {
        return Failed(Error(OfflineAccessRequired));
      }
      var lifetime := Lifetime(tokens);
      if lifetime.None? {
        return Failed(Retryable(InvalidProviderResponse));
      }
      if now + Seconds(lifetime.value) > LATEST {
        return Crashed;
      }
      access, refresh := Shown(tokens.access), offline;
      expiresAt := Some(now + Seconds(lifetime.value));
      email, subject := who.email, who.subject;
      status, code, failures, retryAt := Connected, NoCode, 0, None;
      return Got(());
    }

    method Reauthorise(now: Time, reply: Reply, userinfo: Outcome<Identity>) returns (outcome: Outcome<()>)
      modifies this
      ensures Done(View(), outcome) == Settled(old(View()), OauthCallback(Some(old(View())), now, reply, userinfo))
      ensures var r := OauthCallback(Some(old(View())), now, reply, userinfo);
              && View() == (if r.Got? then r.value else old(View()))
              && (outcome.Got? <==> r.Got?) && (outcome.Failed? ==> r == Failed(outcome.error))
    {
      hide TokenRequest, Restored, Truthy;
      var answer := TokenRequest(reply);
      if !answer.Got? {
        return if answer.Crashed? then Crashed else Failed(answer.error);
      }
      if !Truthy(answer.value.access) {
        return Failed(Error(GoogleAccessNotGranted));
      }
      if !userinfo.Got? {
        return if userinfo.Crashed? then Crashed else Failed(userinfo.error);
      }
      outcome := Restore(now, answer.value, userinfo.value);
    }

    method Disconnect(revoked: Option<int>) returns (outcome: Outcome<()>)
      modifies this
      ensures Done(View(), outcome) == Disconnection(old(View()), revoked)
    {
      if status == Disconnected {
        return Got(());
      }
      if revoked.None? || revoked.value !in {200, 400} {
        return Failed(Retryable(RevocationUnavailable));
      }
      access, refresh := "", "";
      status, retryAt, code := Disconnected, None, NoCode;
      return Got(());
    }
  }
}
