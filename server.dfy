/**
 * The credential broker of server.js: the in-memory token cache loaded at
 * startup, its write-through persistence to the env file, the single-flight
 * refresh-token exchange (section 6 of RFC 6749), the authentication gate,
 * and the authorization-code callback (section 4.1 of RFC 6749) with its
 * CSRF `state` check (section 10.12 of RFC 6749).
 *
 * The clock, the token endpoint's replies and the outcome of the file write
 * are parameters; the promise used as a mutex becomes an explicit slot.
 */
module Server {
  import opened Wrappers
  import opened Decimal
  import opened EnvFile

  // ---------------------------------------------------------------------
  // Startup load
  // ---------------------------------------------------------------------

  /** `Number(v) || 0`: a missing value, a value that is not a number and 0 all give 0. */
  function ExpiryFromEnv(v: Option<string>): int
  {
    match v
    case None => 0
    case Some(s) => ParseInt(s).GetOr(0)
  }

  /** The startup triple from the three environment values, with defaults `''`, `''` and `0`. */
  function LoadCredential(access: Option<string>, refresh: Option<string>, expires: Option<string>): Credential
  {
    Credential(access.GetOr(""), refresh.GetOr(""), ExpiryFromEnv(expires))
  }

  /** With nothing persisted the process starts unauthorized: empty tokens, expiry 0. */
  lemma LoadDefaults()
    ensures LoadCredential(None, None, None) == Credential("", "", 0)
  {
  }

  /** Loading the three values that the env file holds for a triple gives that triple back. */
  lemma LoadWrittenValues(c: Credential)
    ensures LoadCredential(Some(ValueOf(c, AccessToken)), Some(ValueOf(c, RefreshToken)), Some(ValueOf(c, ExpiresAt))) == c
  {
    IntStringRoundTrip(c.expiresAt);
  }

  /** The value after `KEY=` on the last line that starts with `KEY=` (a later assignment wins). */
  function ReadKey(lines: seq<string>, k: TokenKey): (v: Option<string>)
    ensures v.Some? ==> exists i :: 0 <= i < |lines| && HasKey(lines[i], k) && v.value == lines[i][|KeyName(k)| + 1..]
    ensures v.None? ==> !Occurs(lines, k)
  {
    if lines == [] then None
    else
      var last := lines[|lines| - 1];
      if HasKey(last, k) then Some(last[|KeyName(k)| + 1..])
      else
        var v := ReadKey(lines[..|lines| - 1], k);
        assert forall i :: 0 <= i < |lines| - 1 ==> lines[..|lines| - 1][i] == lines[i];
        v
  }

  lemma ReadKeyOfRewritten(lines: seq<string>, c: Credential, k: TokenKey)
    requires Occurs(lines, k)
    requires forall i :: 0 <= i < |lines| && HasKey(lines[i], k) ==> lines[i][|KeyName(k)| + 1..] == ValueOf(c, k)
    ensures ReadKey(lines, k) == Some(ValueOf(c, k))
  {
    var v := ReadKey(lines, k);
    if v.Some? {
      var i :| 0 <= i < |lines| && HasKey(lines[i], k) && v.value == lines[i][|KeyName(k)| + 1..];
    }
  }

  /**
   * Round trip through the file: after the triple is written into any env
   * file, reading the three keys back and loading them gives the same triple.
   */
  lemma PersistThenReload(content: string, c: Credential)
    requires NoNewline(c.accessToken) && NoNewline(c.refreshToken)
    ensures LoadCredential(ReadKey(Split(UpdateEnvContent(content, c)), AccessToken),
                           ReadKey(Split(UpdateEnvContent(content, c)), RefreshToken),
                           ReadKey(Split(UpdateEnvContent(content, c)), ExpiresAt)) == c
  {
    var lines := Split(UpdateEnvContent(content, c));
    RewrittenFileHoldsValues(content, c);
    forall k ensures ReadKey(lines, k) == Some(ValueOf(c, k)) {
      ReadKeyOfRewritten(lines, c, k);
    }
    LoadWrittenValues(c);
  }

  // ---------------------------------------------------------------------
  // Token endpoint
  // ---------------------------------------------------------------------

  /** A form field of an `application/x-www-form-urlencoded` request body. */
  type FormPair = (string, string)

  /** The body of the refresh-token grant. */
  function RefreshGrantForm(refreshToken: string, clientId: string, clientSecret: string): seq<FormPair>
  {
    [("grant_type", "refresh_token"), ("refresh_token", refreshToken),
     ("client_id", clientId), ("client_secret", clientSecret), ("scope", "offline")]
  }

  /** The body of the authorization-code grant. */
  function AuthorizationCodeForm(code: string, redirectUri: string, clientId: string, clientSecret: string): seq<FormPair>
  {
    [("grant_type", "authorization_code"), ("code", code), ("redirect_uri", redirectUri),
     ("client_id", clientId), ("client_secret", clientSecret)]
  }

  /** What the token endpoint made of a request. */
  datatype TokenReply =
    | Granted(accessToken: string, refreshToken: string, expiresIn: Option<int>)
    | Rejected(status: int)  // a non-2xx response
    | Failed                 // the request or the parsing of its body threw

  const DefaultExpiresIn := 3600

  /** `data.expires_in || 3600`: an absent or zero lifetime means one hour. */
  function Lifetime(expiresIn: Option<int>): (s: int)
    ensures expiresIn.Some? && expiresIn.value != 0 ==> s == expiresIn.value
    ensures expiresIn.None? || expiresIn.value == 0 ==> s == DefaultExpiresIn
  {
    match expiresIn
    case Some(n) => if n != 0 then n else DefaultExpiresIn
    case None => DefaultExpiresIn
  }

  /** The triple a granted reply received at `now` installs. */
  function GrantedCredential(reply: TokenReply, now: int): Credential
    requires reply.Granted?
  {
    Credential(reply.accessToken, reply.refreshToken, now + Lifetime(reply.expiresIn))
  }

  /** The env file after an attempt to persist `c`: rewritten when it could be read and replaced, otherwise as it was. */
  function PersistedFile(file: Option<string>, c: Credential, replaced: bool): Option<string>
  {
    if file.Some? && replaced then Some(UpdateEnvContent(file.value, c)) else file
  }

  // ---------------------------------------------------------------------
  // Authentication gate
  // ---------------------------------------------------------------------

  /** Seconds before expiry from which an access token is no longer handed out. */
  const ExpiryBuffer := 60

  datatype AuthStep =
    | NotAuthorized  // no refresh token: false, no exchange
    | TokenFresh     // true, no exchange
    | RefreshNeeded  // the answer is the outcome of a refresh

  /** The decision of `isAuthenticated` at time `now` (unix seconds). */
  function AuthGate(c: Credential, now: int): AuthStep
  {
    if c.refreshToken == "" then NotAuthorized
    else if c.accessToken != "" && c.expiresAt > now + ExpiryBuffer then TokenFresh
    else RefreshNeeded
  }

  /** Without a refresh token the gate says no, whatever the access token. */
  lemma AuthGateWithoutRefreshToken(c: Credential, now: int)
    requires c.refreshToken == ""
    ensures AuthGate(c, now) == NotAuthorized
  {
  }

  /** A present access token valid for more than the buffer is used as it is, and only then. */
  lemma AuthGateFreshToken(c: Credential, now: int)
    requires c.refreshToken != ""
    ensures AuthGate(c, now) == TokenFresh <==> c.accessToken != "" && c.expiresAt > now + ExpiryBuffer
  {
  }

  /** A token that expires exactly at the end of the buffer is already refreshed. */
  lemma AuthGateAtBuffer(c: Credential, now: int)
    requires c.refreshToken != "" && c.expiresAt == now + ExpiryBuffer
    ensures AuthGate(c, now) == RefreshNeeded
  {
  }

  /** Staleness is permanent as time passes: once a refresh is needed, it is needed at every later time. */
  lemma AuthGateStaleLater(c: Credential, now: int, later: int)
    requires now <= later && AuthGate(c, now) == RefreshNeeded
    ensures AuthGate(c, later) == RefreshNeeded
  {
  }

  // ---------------------------------------------------------------------
  // OAuth callback
  // ---------------------------------------------------------------------

  /** The query of `/callback`; an absent parameter is the empty string (both are falsy). */
  datatype CallbackQuery = CallbackQuery(code: string, state: string, error: string)

  datatype CallbackCheck =
    | AccessDenied
    | InvalidState
    | MissingCode
    | ExchangeCode(code: string)

  /** The ordered checks of `/callback` before any exchange. */
  function CheckCallback(q: CallbackQuery, oauthState: string): CallbackCheck
  {
    if q.error != "" then AccessDenied
    else if q.state == "" || q.state != oauthState then InvalidState
    else if q.code == "" then MissingCode
    else ExchangeCode(q.code)
  }

  function RejectionTarget(check: CallbackCheck): string
  {
    match check
    case AccessDenied => "/?error=access_denied"
    case InvalidState => "/?error=invalid_state"
    case MissingCode => "/?error=auth_failed"
    case ExchangeCode(_) => "/"
  }

  /** Only a query without an error, with the pending non-empty state and a code, reaches the token endpoint. */
  lemma CallbackExchangesOnlyMatchingState(q: CallbackQuery, oauthState: string)
    ensures CheckCallback(q, oauthState).ExchangeCode? <==>
      q.error == "" && q.state != "" && q.state == oauthState && q.code != ""
  {
  }

  /** Once the state is cleared, every callback is refused: a used state cannot be replayed. */
  lemma ClearedStateRefusesAll(q: CallbackQuery)
    ensures !CheckCallback(q, "").ExchangeCode?
  {
  }

  /** A denial reported by the authorization server wins over every other check. */
  lemma CallbackErrorFirst(q: CallbackQuery, oauthState: string)
    requires q.error != ""
    ensures CheckCallback(q, oauthState) == AccessDenied
  {
  }

  // ---------------------------------------------------------------------
  // The module-level state of server.js
  // ---------------------------------------------------------------------

  class Broker {
    const clientId: string
    const clientSecret: string
    const redirectUri: string

    /** The cached triple. */
    var accessToken: string
    var refreshToken: string
    var tokenExpiresAt: int

    /** The env file's content; None when it cannot be read. */
    var envFile: Option<string>

    /** The refresh slot: an exchange is in flight. */
    var refreshInFlight: bool
    /** Number of callers waiting on the exchange in flight (its starter included). */
    var waiters: nat
    /** Number of refresh exchanges sent to the token endpoint so far. */
    var exchanges: nat

    /** The pending CSRF state of the authorization flow; empty when none. */
    var oauthState: string

    ghost predicate Valid()
      reads this
    {
      refreshInFlight <==> waiters > 0
    }

    /** `getTokens()`. */
    function Tokens(): Credential
      reads this
    {
      Credential(accessToken, refreshToken, tokenExpiresAt)
    }

    /** Process start: the triple is loaded from the environment with its defaults; no refresh is in flight. */
    constructor (clientId: string, clientSecret: string, redirectUri: string,
                 accessEnv: Option<string>, refreshEnv: Option<string>, expiresEnv: Option<string>,
                 envFile: Option<string>)
      ensures Valid()
      ensures Tokens() == LoadCredential(accessEnv, refreshEnv, expiresEnv)
      ensures this.clientId == clientId && this.clientSecret == clientSecret && this.redirectUri == redirectUri
      ensures this.envFile == envFile
      ensures !refreshInFlight && exchanges == 0 && oauthState == ""
    {
      this.clientId, this.clientSecret, this.redirectUri := clientId, clientSecret, redirectUri;
      var c := LoadCredential(accessEnv, refreshEnv, expiresEnv);
      accessToken, refreshToken, tokenExpiresAt := c.accessToken, c.refreshToken, c.expiresAt;
      this.envFile := envFile;
      refreshInFlight, waiters, exchanges := false, 0, 0;
      oauthState := "";
    }

    /**
     * `persistTokens`: the whole triple is set in memory first; the file is
     * then rewritten through `updateEnvTokens` if it can be read and
     * replaced (`replaced`), and left as it was otherwise.
     */
    method PersistTokens(newAccess: string, newRefresh: string, newExpiresAt: int, replaced: bool)
      requires Valid()
      modifies this`accessToken, this`refreshToken, this`tokenExpiresAt, this`envFile
      ensures Valid()
      ensures Tokens() == Credential(newAccess, newRefresh, newExpiresAt)
      ensures envFile == PersistedFile(old(envFile), Tokens(), replaced)
    {
      accessToken := newAccess;
      refreshToken := newRefresh;
      tokenExpiresAt := newExpiresAt;
      if envFile.Some? && replaced {
        var updated := UpdateEnvTokens(envFile.value, newAccess, newRefresh, newExpiresAt);
        envFile := Some(updated);
      }
    }

    /**
     * The start of `refreshAccessToken`: with the slot empty a new exchange
     * is sent (its form is returned) and the slot is taken; with the slot
     * taken the caller only joins the exchange in flight.
     */
    method BeginRefresh() returns (form: Option<seq<FormPair>>)
      requires Valid()
      modifies this`refreshInFlight, this`waiters, this`exchanges
      ensures Valid() && refreshInFlight
      ensures form.Some? <==> !old(refreshInFlight)
      ensures form.Some? ==> form.value == RefreshGrantForm(refreshToken, clientId, clientSecret)
      ensures waiters == old(waiters) + 1
      ensures exchanges == old(exchanges) + (if form.Some? then 1 else 0)
    {
      if refreshInFlight {
        form := None;
      } else {
        refreshInFlight := true;
        exchanges := exchanges + 1;
        form := Some(RefreshGrantForm(refreshToken, clientId, clientSecret));
      }
      waiters := waiters + 1;
    }

    /**
     * The end of the exchange in flight, reply received at `now`: a granted
     * reply installs and persists the new triple, any other leaves it as it
     * was; the slot is cleared on every path and all `sharedBy` waiters get
     * the same outcome `ok`.
     */
    method CompleteRefresh(reply: TokenReply, now: int, replaced: bool) returns (ok: bool, sharedBy: nat)
      requires Valid() && refreshInFlight
      modifies this`refreshInFlight, this`waiters, this`accessToken, this`refreshToken, this`tokenExpiresAt, this`envFile
      ensures Valid() && !refreshInFlight
      ensures ok <==> reply.Granted?
      ensures sharedBy == old(waiters) && sharedBy > 0
      ensures ok ==> Tokens() == GrantedCredential(reply, now) && envFile == PersistedFile(old(envFile), Tokens(), replaced)
      ensures !ok ==> Tokens() == old(Tokens()) && envFile == old(envFile)
    {
      match reply {
        case Granted(access, refresh, expiresIn) =>
          PersistTokens(access, refresh, now + Lifetime(expiresIn), replaced);
          ok := true;
        case Rejected(_) =>
          ok := false;
        case Failed =>
          ok := false;
      }
      // finally
      sharedBy := waiters;
      refreshInFlight, waiters := false, 0;
    }

    /**
     * `isAuthenticated` at time `now`: the gate's decision; only when a
     * refresh is needed does the caller enter the refresh slot, and the
     * answer is then the outcome of `CompleteRefresh`.
     */
    method IsAuthenticated(now: int) returns (step: AuthStep, form: Option<seq<FormPair>>)
      requires Valid()
      modifies this`refreshInFlight, this`waiters, this`exchanges
      ensures Valid()
      ensures step == AuthGate(Tokens(), now)
      ensures step != RefreshNeeded ==>
        form.None? && refreshInFlight == old(refreshInFlight) && waiters == old(waiters) && exchanges == old(exchanges)
      ensures step == RefreshNeeded ==>
        refreshInFlight && waiters == old(waiters) + 1
        && (form.Some? <==> !old(refreshInFlight))
        && (form.Some? ==> form.value == RefreshGrantForm(refreshToken, clientId, clientSecret))
        && exchanges == old(exchanges) + (if form.Some? then 1 else 0)
    {
      step := AuthGate(Tokens(), now);
      if step == RefreshNeeded {
        form := BeginRefresh();
      } else {
        form := None;
      }
    }

    /**
     * `/auth/whoop`: a fresh random `nonce` becomes the pending state. The
     * nonce is 16 random bytes in hex, so it is never empty and a pending
     * state always differs from a cleared one.
     */
    method BeginAuthorization(nonce: string) returns (query: seq<FormPair>)
      requires Valid() && nonce != ""
      modifies this`oauthState
      ensures Valid()
      ensures oauthState == nonce && oauthState != ""
      ensures query == [("client_id", clientId), ("redirect_uri", redirectUri), ("response_type", "code"),
        ("scope", "read:body_measurement read:recovery read:sleep read:cycles read:workout offline"),
        ("state", nonce)]
    {
      oauthState := nonce;
      query := [("client_id", clientId), ("redirect_uri", redirectUri), ("response_type", "code"),
        ("scope", "read:body_measurement read:recovery read:sleep read:cycles read:workout offline"),
        ("state", oauthState)];
    }

    /**
     * `/callback`: the ordered checks, then, for a code, the exchange (its
     * form is returned, its reply is `reply`, received at `now`). Only a
     * granted reply persists the triple and clears the pending state.
     */
    method HandleCallback(q: CallbackQuery, reply: TokenReply, now: int, replaced: bool)
      returns (redirect: string, form: Option<seq<FormPair>>)
      requires Valid()
      modifies this`accessToken, this`refreshToken, this`tokenExpiresAt, this`envFile, this`oauthState
      ensures Valid()
      ensures var check := CheckCallback(q, old(oauthState));
        && (form.Some? <==> check.ExchangeCode?)
        && (check.ExchangeCode? ==> form.value == AuthorizationCodeForm(check.code, redirectUri, clientId, clientSecret))
        && (check.ExchangeCode? && reply.Granted? ==>
              redirect == "/" && oauthState == ""
              && Tokens() == GrantedCredential(reply, now)
              && envFile == PersistedFile(old(envFile), Tokens(), replaced))
        && (check.ExchangeCode? && !reply.Granted? ==>
              redirect == "/?error=auth_failed"
              && oauthState == old(oauthState) && Tokens() == old(Tokens()) && envFile == old(envFile))
        && (!check.ExchangeCode? ==>
              redirect == RejectionTarget(check)
              && oauthState == old(oauthState) && Tokens() == old(Tokens()) && envFile == old(envFile))
    {
      var check := CheckCallback(q, oauthState);
      if !check.ExchangeCode? {
        return RejectionTarget(check), None;
      }
      form := Some(AuthorizationCodeForm(check.code, redirectUri, clientId, clientSecret));
      match reply
      case Granted(access, refresh, expiresIn) =>
        PersistTokens(access, refresh, now + Lifetime(expiresIn), replaced);
        oauthState := "";
        redirect := "/";
      case Rejected(_) =>
        redirect := "/?error=auth_failed";
      case Failed =>
        redirect := "/?error=auth_failed";
    }
  }

  /**
   * Single flight: `n` callers that find the token stale, one after the
   * other while the first exchange is still in flight, send exactly one
   * exchange, and all `n` of them receive its outcome.
   */
  method SingleFlight(n: nat, c: Credential, now: int, reply: TokenReply, replaced: bool)
    returns (sent: nat, sharedBy: nat, ok: bool)
    requires n > 0 && AuthGate(c, now) == RefreshNeeded
    ensures sent == 1 && sharedBy == n
    ensures ok <==> reply.Granted?
  {
    var b := new Broker("id", "secret", "uri", Some(c.accessToken), Some(c.refreshToken),
                        Some(IntToString(c.expiresAt)), None);
    IntStringRoundTrip(c.expiresAt);
    assert b.Tokens() == c;
    var i := 0;
    while i < n
      invariant 0 <= i <= n
      invariant b.Valid() && b.Tokens() == c
      invariant b.exchanges == (if i == 0 then 0 else 1)
      invariant b.waiters == i && (b.refreshInFlight <==> i > 0)
    {
      var step, form := b.IsAuthenticated(now);
      i := i + 1;
    }
    sent := b.exchanges;
    ok, sharedBy := b.CompleteRefresh(reply, now, replaced);
  }
}
