/** What a reply from Google means: the errors of `_json` and `token_request`, and the fields of a token. */
module GoogleReplies {
  import opened Text

  type Name = s: string | s != "" witness "0"

  /** A field of a decoded reply. `asInt` is what Python's `int()` makes of it. */
  datatype Json =
    | Absent
    | Null
    | Text(text: string, asInt: Option<int>)
    | Other(truthy: bool, shown: Name, asInt: Option<int>)

  datatype Code =
    | NoCode
    | QuotaExceeded
    | InvalidGoogleRequest
    | CredentialsRevoked
    | GooglePermissionDenied
    | GoogleUnavailable
    | InvalidProviderResponse
    | OauthClientConfiguration
    | OauthRequestRejected
    | ReconnectionRequired
    | TokenRefreshBackoff
    | GoogleAccessNotGranted
    | GoogleIdentityUnverified
    | GoogleAccountMismatch
    | OfflineAccessRequired
    | RevocationUnavailable

  /** A `ProviderError`; a `retryAfter` of 0 stands for none. */
  datatype ProviderError = ProviderError(code: Code, retryable: bool, retryAfter: nat)

  /** The `error` field of a 400 or 401 token reply; a list or an object there cannot be looked up in a set. */
  datatype Reason = NoReason | Reason(text: string) | Unhashable

  /** A token as the reply of the token endpoint carries it. */
  datatype TokenFields = TokenFields(access: Json, refresh: Json, expiresIn: Json)

  const NO_FIELDS := TokenFields(Absent, Absent, Absent)

  datatype Body = Empty | NotJson | NotObject | Fields(fields: TokenFields)

  /** `quotaReason` tells whether a 403 body names an exhausted quota, `retryAfter` is the header. */
  datatype Reply =
    | NoAnswer
    | Answer(status: int, reason: Reason, quotaReason: bool, retryAfter: Option<int>, body: Body)

  /** What a call on the token endpoint or the API comes to. */
  datatype Outcome<+T> = Got(value: T) | Failed(error: ProviderError) | Crashed

  function Error(code: Code): ProviderError {
    ProviderError(code, false, 0)
  }

  function Retryable(code: Code): ProviderError {
    ProviderError(code, true, 0)
  }

  function Truthy(j: Json): bool {
    match j
    case Absent => false
    case Null => false
    case Text(s, _) => s != ""
    case Other(truthy, _, _) => truthy
  }

  /** `str(value)` of a value that is truthy. */
  function Shown(j: Json): (s: Name)
    requires Truthy(j)
  {
    if j.Text? then j.text else j.shown
  }

  const DAY: nat := 86400

  function Clamp(retryAfter: Option<int>): (r: nat)
    ensures r <= DAY
  {
    if retryAfter.None? || retryAfter.value < 0 then 0
    else if retryAfter.value > DAY then DAY
    else retryAfter.value
  }

  /** `_json`. */
  function Decode(r: Reply): Outcome<TokenFields> {
    if r.NoAnswer? then Failed(Retryable(GoogleUnavailable))
    else if r.status >= 400 then
      var quota := r.status == 429 || (r.status == 403 && r.quotaReason);
      var code :=
        if quota then QuotaExceeded
        else if r.status == 400 then InvalidGoogleRequest
        else if r.status == 401 then CredentialsRevoked
        else if r.status == 403 then GooglePermissionDenied
        else GoogleUnavailable;
      Failed(ProviderError(code, quota || r.status >= 500 || r.status in {408, 425}, Clamp(r.retryAfter)))
    else if r.status == 204 || r.body == Empty then Got(NO_FIELDS)
    else
      match r.body
      case NotJson => Failed(Retryable(InvalidProviderResponse))
      case NotObject => Failed(Error(InvalidProviderResponse))
      case Fields(fields) => Got(fields)
      case Empty => Got(NO_FIELDS)
  }

  /** `token_request`. */
  function TokenRequest(r: Reply): Outcome<TokenFields> {
    if r.Answer? && r.status in {400, 401} then
      if r.reason.Unhashable? then Crashed
      else
        var reason := if r.reason.Reason? then r.reason.text else "";
        Failed(
          if reason in {"invalid_grant", "access_denied"} then Error(CredentialsRevoked)
          else if reason in {"temporarily_unavailable", "server_error"} then Retryable(GoogleUnavailable)
          else if reason in {"invalid_client", "unauthorized_client"} then Error(OauthClientConfiguration)
          else Error(OauthRequestRejected))
    else Decode(r)
  }

  /** `token_lifetime`; an absent field means an hour. */
  function Lifetime(fields: TokenFields): Option<nat> {
    var n := if fields.expiresIn.Absent? then Some(3600)
             else if fields.expiresIn.Null? then None
             else fields.expiresIn.asInt;
    if n.Some? && n.value > 0 then Some(n.value) else None
  }

  datatype Grant = Grant(access: Name, refresh: string, lifetime: nat)

  /** The checks `access_token` makes on a refreshed token; a `refresh` of "" means that none came. */
  function Refreshed(r: Reply): Outcome<Grant> {
    match TokenRequest(r)
    case Failed(e) => Failed(e)
    case Crashed => Crashed
    case Got(fields) =>
      if !fields.access.Text? || fields.access.text == "" then Failed(Retryable(InvalidProviderResponse))
      else if Lifetime(fields).None? then Failed(Retryable(InvalidProviderResponse))
      else if fields.refresh.Other? then Failed(Retryable(InvalidProviderResponse))
      else Got(Grant(fields.access.text, if fields.refresh.Text? then fields.refresh.text else "",
                     Lifetime(fields).value))
  }

  /** No refusal is without a code, and none asks to wait longer than a day. */
  lemma RefusalsAreCoded(r: Reply)
    ensures Refreshed(r).Failed? ==> Refreshed(r).error.code != NoCode && Refreshed(r).error.retryAfter <= DAY
  {
  }

  /** Exactly these replies to a refresh end the grant: every other failure is worth another try, every other
      reply a token. */
  lemma PermanentRefusals(r: Reply)
    ensures (Refreshed(r).Failed? && !Refreshed(r).error.retryable) <==>
            r.Answer? &&
            (if r.status in {400, 401} then
               !r.reason.Unhashable?
               && r.reason !in {Reason("temporarily_unavailable"), Reason("server_error")}
             else if r.status == 403 then !r.quotaReason
             else if 400 <= r.status < 500 then r.status !in {408, 425, 429}
             else r.status < 400 && r.status != 204 && r.body == NotObject)
  {
    if r.Answer? && r.reason.Reason? && r.reason.text in {"temporarily_unavailable", "server_error"} {
      assert r.reason in {Reason("temporarily_unavailable"), Reason("server_error")};
      assert "temporarily_unavailable"[0] != "invalid_grant"[0] && "temporarily_unavailable"[0] != "access_denied"[0];
      assert "server_error"[0] != "invalid_grant"[0] && "server_error"[0] != "access_denied"[0];
    }
  }
}
