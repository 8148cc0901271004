/**
 * The session authentication and access-control engine (`SecurityManagerAI`).
 *
 * The manager keeps a map from session token to session and an append-only
 * audit log. Wall-clock time is an integer `now` supplied with each call;
 * the session token and the number behind a 2FA code are supplied by the
 * caller in place of the random source.
 */
module Security {
  import opened Wrappers
  import opened Strings

  const DefaultSessionTimeout: int := 3600
  const UserLevel: string := "user"
  const InvalidTokenReason: string := "Invalid session token"
  const ExpiredReason: string := "Session expired"
  const SecuredStatus: string := "secured"

  /** The `security_manager` section of the configuration; `None` is a missing key. */
  datatype SecurityConfig = SecurityConfig(
    enable2fa: Option<bool>,
    sessionTimeout: Option<int>,
    encryptionEnabled: Option<bool>,
    accessLevels: Option<seq<string>>)

  /** What the manager stores under a token. Times are seconds. */
  datatype Session = Session(username: string, createdAt: int, expiresAt: int, accessLevel: string)

  /**
   * The dictionary `authenticate_user` returns. The keys `requires_2fa` and
   * `2fa_verified` are present only when true; here they are booleans.
   */
  datatype AuthResult = AuthResult(
    username: string,
    authenticated: bool,
    sessionToken: Option<string>,
    accessLevel: Option<string>,
    requires2fa: bool,
    twoFaVerified: bool)

  /** The dictionary `secure_online_access` returns. */
  datatype AccessResult = AccessResult(
    resource: string,
    accessGranted: bool,
    reason: Option<string>,
    accessLevel: Option<string>,
    username: Option<string>)

  /** An audit entry: a copy of the result it records, stamped with the time it was logged. */
  datatype Attempt = AuthAttempt(auth: AuthResult) | AccessAttempt(access: AccessResult)
  datatype LogEntry = LogEntry(attempt: Attempt, loggedAt: int)

  datatype ResourceSecurity = ResourceSecurity(resource: string, status: string, encryption: bool, accessControl: bool)
  datatype SecureSetup = SecureSetup(
    resourcesSecured: nat,
    encryptionEnabled: bool,
    twoFaEnabled: bool,
    resources: seq<ResourceSecurity>)

  datatype SecurityStatus = SecurityStatus(
    activeSessions: nat,
    totalAccessLogs: nat,
    twoFaEnabled: bool,
    encryptionEnabled: bool,
    sessionTimeout: int)

  // ---------------------------------------------------------------------------
  // Verification codes
  // ---------------------------------------------------------------------------

  /**
   * `generate_2fa_code`: the number `n` drawn below 10^6, rendered in decimal
   * and zero-padded to six characters.
   */
  function GenerateTwoFaCode(n: nat): (code: string)
    requires n < 1000000
    ensures |code| == 6 && IsDigits(code)
    ensures DecimalValue(code) == n
  {
    DecimalLength(n, 6);
    DecimalRoundTrip(n);
    LeadingZerosValue(6 - |NatToDecimal(n)|, NatToDecimal(n));
    ZFill(NatToDecimal(n), 6)
  }

  /** Different numbers give different codes, so the code determines the number drawn. */
  lemma TwoFaCodeInjective(m: nat, n: nat)
    requires m < 1000000 && n < 1000000
    ensures m != n ==> GenerateTwoFaCode(m) != GenerateTwoFaCode(n)
  {
  }

  // ---------------------------------------------------------------------------
  // The audit trail
  // ---------------------------------------------------------------------------

  /** The token an entry hands out: that of a logged authentication that produced one. */
  function TokenIssuedBy(e: LogEntry): set<string> {
    if e.attempt.AuthAttempt? && e.attempt.auth.sessionToken.Some?
    then {e.attempt.auth.sessionToken.value}
    else {}
  }

  /** Every token handed out by an authentication recorded in `logs`. */
  function IssuedTokens(logs: seq<LogEntry>): set<string> {
    if logs == [] then {} else IssuedTokens(logs[..|logs| - 1]) + TokenIssuedBy(logs[|logs| - 1])
  }

  /** Each entry hands out at most one token, so there are no more tokens than entries. */
  lemma {:induction false} IssuedTokensBound(logs: seq<LogEntry>)
    ensures |IssuedTokens(logs)| <= |logs|
  {
    if logs != [] {
      IssuedTokensBound(logs[..|logs| - 1]);
    }
  }

  /** A token map whose tokens were all handed out in `logs` has no more entries than `logs`. */
  lemma SessionsBoundedByLog(sessions: map<string, Session>, logs: seq<LogEntry>)
    ensures sessions.Keys <= IssuedTokens(logs) ==> |sessions| <= |logs|
  {
    if sessions.Keys <= IssuedTokens(logs) {
      var issued := IssuedTokens(logs);
      assert issued == sessions.Keys + (issued - sessions.Keys);
      assert |issued| == |sessions.Keys| + |issued - sessions.Keys|;
      IssuedTokensBound(logs);
    }
  }

  lemma IssuedTokensAppend(logs: seq<LogEntry>, e: LogEntry)
    ensures IssuedTokens(logs + [e]) == IssuedTokens(logs) + TokenIssuedBy(e)
  {
    assert (logs + [e])[..|logs|] == logs;
  }

  // ---------------------------------------------------------------------------
  // Expiry
  // ---------------------------------------------------------------------------

  /**
   * A session is past expiry strictly after `expiresAt`: the last instant at
   * which it is still valid is `expiresAt` itself.
   */
  function IsExpired(s: Session, now: int): (expired: bool)
    ensures now <= s.expiresAt ==> !expired
    ensures now == s.expiresAt + 1 ==> expired
  {
    now > s.expiresAt
  }

  /** The tokens a sweep at `now` finds expired: exactly the stored tokens past expiry. */
  function ExpiredTokens(sessions: map<string, Session>, now: int): (expired: set<string>)
    ensures expired <= sessions.Keys
    ensures forall t :: t in sessions ==> (t in expired <==> IsExpired(sessions[t], now))
  {
    set t | t in sessions && IsExpired(sessions[t], now)
  }

  /**
   * The sessions a sweep at `now` leaves in place: exactly the stored
   * sessions not past expiry, each with unchanged contents.
   */
  function Unexpired(sessions: map<string, Session>, now: int): (kept: map<string, Session>)
    ensures kept.Keys <= sessions.Keys
    ensures forall t :: t in sessions ==> (t in kept <==> !IsExpired(sessions[t], now))
    ensures forall t :: t in kept ==> kept[t] == sessions[t]
  {
    sessions - ExpiredTokens(sessions, now)
  }

  /** The sessions removed and the sessions kept add up to the sessions there were. */
  lemma SweepPartition(sessions: map<string, Session>, now: int)
    ensures |ExpiredTokens(sessions, now)| + |Unexpired(sessions, now)| == |sessions|
  {
    var expired := ExpiredTokens(sessions, now);
    var kept := Unexpired(sessions, now);
    assert kept.Keys == sessions.Keys - expired;
    assert sessions.Keys == kept.Keys + expired;
    assert kept.Keys !! expired;
  }

  /** A second sweep at the same time finds nothing to remove. */
  lemma SweepIdempotent(sessions: map<string, Session>, now: int)
    ensures ExpiredTokens(Unexpired(sessions, now), now) == {}
    ensures Unexpired(Unexpired(sessions, now), now) == Unexpired(sessions, now)
  {
    var kept := Unexpired(sessions, now);
    assert forall t :: t in kept ==> !IsExpired(kept[t], now);
    assert ExpiredTokens(kept, now) == {};
  }

  /** A later sweep removes at least what an earlier one would have. */
  lemma SweepMonotone(sessions: map<string, Session>, earlier: int, later: int)
    requires earlier <= later
    ensures ExpiredTokens(sessions, earlier) <= ExpiredTokens(sessions, later)
    ensures Unexpired(sessions, later).Keys <= Unexpired(sessions, earlier).Keys
  {
  }

  /** Evicting one expired session on lookup and then sweeping is the same as sweeping. */
  lemma LazyEvictionAgreesWithSweep(sessions: map<string, Session>, token: string, now: int)
    requires token in sessions && IsExpired(sessions[token], now)
    ensures Unexpired(sessions - {token}, now) == Unexpired(sessions, now)
  {
    assert (sessions - {token}).Keys - ExpiredTokens(sessions - {token}, now)
        == sessions.Keys - ExpiredTokens(sessions, now);
  }

  // ---------------------------------------------------------------------------
  // The manager
  // ---------------------------------------------------------------------------

  class SecurityManager {
    const enable2fa: bool
    const sessionTimeout: int
    const encryptionEnabled: bool
    const accessLevels: seq<string>

    var activeSessions: map<string, Session>
    var accessLogs: seq<LogEntry>

    /**
     * Every live session was issued by `authenticate_user`: it expires
     * `sessionTimeout` seconds after it was created, carries the level
     * 'user', and its token was handed out by an authentication in the log.
     */
    ghost predicate Valid()
      reads this
    {
      && (forall t :: t in activeSessions ==> IssuedSession(activeSessions[t]))
      && activeSessions.Keys <= IssuedTokens(accessLogs)
    }

    ghost predicate IssuedSession(s: Session) {
      s.expiresAt == s.createdAt + sessionTimeout && s.accessLevel == UserLevel
    }

    /** `__init__`: each missing key takes its default; no sessions, empty log. */
    constructor (config: SecurityConfig)
      ensures enable2fa == config.enable2fa.GetOr(true)
      ensures sessionTimeout == config.sessionTimeout.GetOr(DefaultSessionTimeout)
      ensures encryptionEnabled == config.encryptionEnabled.GetOr(true)
      ensures accessLevels == config.accessLevels.GetOr(["admin", "user", "guest"])
      ensures activeSessions == map[] && accessLogs == []
      ensures Valid()
    {
      enable2fa := config.enable2fa.GetOr(true);
      sessionTimeout := config.sessionTimeout.GetOr(DefaultSessionTimeout);
      encryptionEnabled := config.encryptionEnabled.GetOr(true);
      accessLevels := config.accessLevels.GetOr(["admin", "user", "guest"]);
      activeSessions := map[];
      accessLogs := [];
    }

    /** Authentication stops at the 2FA gate: 2FA is on and no code came with the call. */
    predicate StopsAt2fa(twoFaCode: Option<string>) {
      enable2fa && twoFaCode.None?
    }

    /** `_log_access_attempt`: append a copy of the attempt, stamped `now`. */
    method LogAccessAttempt(attempt: Attempt, now: int)
      modifies this`accessLogs
      ensures accessLogs == old(accessLogs) + [LogEntry(attempt, now)]
    {
      accessLogs := accessLogs + [LogEntry(attempt, now)];
    }

    /**
     * `authenticate_user`. The password check always succeeds (the source
     * simulates it); any supplied code passes the 2FA step. `token` stands for
     * the fresh random session token.
     */
    method AuthenticateUser(username: string, password: string, twoFaCode: Option<string>, token: string, now: int)
      returns (r: AuthResult)
      requires Valid()
      modifies this
      ensures Valid()
      ensures r.username == username
      ensures StopsAt2fa(twoFaCode) ==>
        && r == AuthResult(username, false, None, None, true, false)
        && activeSessions == old(activeSessions)
        && accessLogs == old(accessLogs)
      ensures !StopsAt2fa(twoFaCode) ==>
        && r == AuthResult(username, true, Some(token), Some(UserLevel), false, enable2fa)
        && activeSessions == old(activeSessions)[token := Session(username, now, now + sessionTimeout, UserLevel)]
        && accessLogs == old(accessLogs) + [LogEntry(AuthAttempt(r), now)]
    {
      r := AuthResult(username, false, None, None, false, false);
      // The credential check is simulated and always accepts.
      r := r.(authenticated := true);
      if enable2fa {
        if twoFaCode.None? {
          r := r.(requires2fa := true, authenticated := false);
          return;
        } else {
          r := r.(twoFaVerified := true);
        }
      }
      if r.authenticated {
        r := r.(sessionToken := Some(token), accessLevel := Some(UserLevel));
        activeSessions := activeSessions[token := Session(username, now, now + sessionTimeout, UserLevel)];
      }
      IssuedTokensAppend(accessLogs, LogEntry(AuthAttempt(r), now));
      LogAccessAttempt(AuthAttempt(r), now);
    }

    /**
     * `secure_online_access`: an unknown token is refused; a known token past
     * its expiry is refused and evicted; otherwise access is granted and logged.
     */
    method SecureOnlineAccess(token: string, resource: string, now: int) returns (r: AccessResult)
      requires Valid()
      modifies this
      ensures Valid()
      ensures token !in old(activeSessions) ==>
        && r == AccessResult(resource, false, Some(InvalidTokenReason), None, None)
        && activeSessions == old(activeSessions)
        && accessLogs == old(accessLogs)
      ensures token in old(activeSessions) && IsExpired(old(activeSessions)[token], now) ==>
        && r == AccessResult(resource, false, Some(ExpiredReason), None, None)
        && activeSessions == old(activeSessions) - {token}
        && accessLogs == old(accessLogs)
      ensures token in old(activeSessions) && !IsExpired(old(activeSessions)[token], now) ==>
        && r == AccessResult(resource, true, None,
                             Some(old(activeSessions)[token].accessLevel),
                             Some(old(activeSessions)[token].username))
        && activeSessions == old(activeSessions)
        && accessLogs == old(accessLogs) + [LogEntry(AccessAttempt(r), now)]
      ensures r.accessGranted ==> r.accessLevel == Some(UserLevel)
    {
      r := AccessResult(resource, false, None, None, None);
      if token !in activeSessions {
        r := r.(reason := Some(InvalidTokenReason));
        return;
      }
      var session := activeSessions[token];
      if now > session.expiresAt {
        r := r.(reason := Some(ExpiredReason));
        activeSessions := activeSessions - {token};
        return;
      }
      r := r.(accessGranted := true, accessLevel := Some(session.accessLevel), username := Some(session.username));
      IssuedTokensAppend(accessLogs, LogEntry(AccessAttempt(r), now));
      LogAccessAttempt(AccessAttempt(r), now);
    }

    /**
     * `enable_secure_access`: one entry per resource, in the order given,
     * each echoing the encryption setting. Nothing is stored.
     */
    method EnableSecureAccess(resources: seq<string>) returns (r: SecureSetup)
      ensures r.resourcesSecured == |resources|
      ensures r.encryptionEnabled == encryptionEnabled && r.twoFaEnabled == enable2fa
      ensures |r.resources| == |resources|
      ensures forall i :: 0 <= i < |resources| ==>
        r.resources[i] == ResourceSecurity(resources[i], SecuredStatus, encryptionEnabled, true)
    {
      var entries: seq<ResourceSecurity> := [];
      for i := 0 to |resources|
        invariant |entries| == i
        invariant forall j :: 0 <= j < i ==>
          entries[j] == ResourceSecurity(resources[j], SecuredStatus, encryptionEnabled, true)
      {
        entries := entries + [ResourceSecurity(resources[i], SecuredStatus, encryptionEnabled, true)];
      }
      r := SecureSetup(|resources|, encryptionEnabled, enable2fa, entries);
    }

    /**
     * `get_security_status`. Since every live session's token was handed out
     * by a logged authentication, there are never more live sessions than log entries.
     */
    function GetSecurityStatus(): (r: SecurityStatus)
      reads this
      ensures r.activeSessions == |activeSessions| && r.totalAccessLogs == |accessLogs|
      ensures Valid() ==> r.activeSessions <= r.totalAccessLogs
      ensures r.twoFaEnabled == enable2fa && r.encryptionEnabled == encryptionEnabled
      ensures r.sessionTimeout == sessionTimeout
    {
      SessionsBoundedByLog(activeSessions, accessLogs);
      SecurityStatus(|activeSessions|, |accessLogs|, enable2fa, encryptionEnabled, sessionTimeout)
    }

    /**
     * `cleanup_expired_sessions`: collect the expired tokens, delete them,
     * and report how many there were.
     */
    method CleanupExpiredSessions(now: int) returns (removed: nat)
      requires Valid()
      modifies this
      ensures Valid()
      ensures activeSessions == Unexpired(old(activeSessions), now)
      ensures accessLogs == old(accessLogs)
      ensures removed == |ExpiredTokens(old(activeSessions), now)|
    {
      var expired: set<string> := {};
      var pending := activeSessions.Keys;
      while pending != {}
        invariant pending <= activeSessions.Keys
        invariant forall t :: t in expired <==>
          t in activeSessions && t !in pending && IsExpired(activeSessions[t], now)
        decreases |pending|
      {
        var t :| t in pending;
        if now > activeSessions[t].expiresAt {
          expired := expired + {t};
        }
        pending := pending - {t};
      }
      assert expired == ExpiredTokens(activeSessions, now);

      var toDelete := expired;
      while toDelete != {}
        invariant toDelete <= expired
        invariant activeSessions == old(activeSessions) - (expired - toDelete)
        invariant accessLogs == old(accessLogs)
        decreases |toDelete|
      {
        var t :| t in toDelete;
        activeSessions := activeSessions - {t};
        toDelete := toDelete - {t};
      }
      removed := |expired|;
    }
  }

  /**
   * The demonstration flow: authenticate with a code, then use the token at
   * the same instant. Access is granted exactly when the timeout is not
   * negative, and each successful step adds one audit entry.
   */
  method LoginThenAccess(sm: SecurityManager, username: string, password: string, code: string,
                         token: string, resource: string, now: int)
    returns (auth: AuthResult, access: AccessResult)
    requires sm.Valid()
    modifies sm
    ensures sm.Valid()
    ensures auth.authenticated && auth.sessionToken == Some(token)
    ensures access.accessGranted <==> sm.sessionTimeout >= 0
    ensures access.accessGranted ==> access.username == Some(username)
    ensures |sm.accessLogs| == |old(sm.accessLogs)| + (if sm.sessionTimeout >= 0 then 2 else 1)
  {
    auth := sm.AuthenticateUser(username, password, Some(code), token, now);
    access := sm.SecureOnlineAccess(token, resource, now);
  }
}
