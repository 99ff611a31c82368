/** What each step of a login, a refresh and a reset does, in terms of the rows, whatever
    state the other threads have left. */
module CredentialEffects {

  import opened Common
  import opened RefreshSessions
  import opened CredentialReset

  predicate NoActiveSession(sessions: Table, user: UserId, now: Instant) {
    forall token :: token in sessions && sessions[token].userId == user ==> !Active(sessions[token], now)
  }

  predicate OtherUsersKeep(before: Table, after: Table, user: UserId) {
    before.Keys == after.Keys && forall token :: token in before && before[token].userId != user ==> after[token] == before[token]
  }

  predicate OtherAccountsKeep(before: map<UserId, Account>, after: map<UserId, Account>, user: UserId) {
    before.Keys == after.Keys && forall other :: other in before && other != user ==> after[other] == before[other]
  }

  /** A check with the owner's password starts the login, which remembers the stored hash; any
      other password starts nothing. */
  lemma VerificationDecides(s: State, login: LoginId, user: UserId, password: Password)
    requires AccountsKnown(s.accounts, s.passwordOf, s.nextHash) && login !in s.logins
    ensures var next := Step(s, Verify(login, user, password));
      && (login in next.logins <==> user in s.accounts && password == s.accounts[user].chosen)
      && (login in next.logins ==>
            && next.logins[login].pc == Verified && next.logins[login].userId == user
            && next.logins[login].verified == next.logins[login].current == s.accounts[user].hash)
      && next.accounts == s.accounts && next.sessions == s.sessions
  {
  }

  lemma ClockMovesOn(s: State, seconds: nat)
    ensures Step(s, Tick(seconds)) == s.(now := s.now + seconds)
  {
  }

  /** An upgrade stores a hash never used before, exactly when the stored one is still the one
      that was verified; the owner's password stays. */
  lemma UpgradeReplacesHash(s: State, login: LoginId, acknowledged: bool)
    requires AccountsKnown(s.accounts, s.passwordOf, s.nextHash)
    requires LoginAt(s, login, Verified) && s.logins[login].userId in s.accounts
    ensures var next := Step(s, UpgradeHash(login, acknowledged));
      var user := s.logins[login].userId;
      var replaced := s.accounts[user].hash == s.logins[login].verified;
      && next.sessions == s.sessions && OtherAccountsKeep(s.accounts, next.accounts, user)
      && next.accounts[user].chosen == s.accounts[user].chosen
      && (replaced ==> next.accounts[user].hash !in s.passwordOf)
      && (!replaced ==> next.accounts == s.accounts)
  {
  }

  /** The login goes on with the hash it has to find at the recheck: the new one only if it knows
      that the upgrade went through. */
  lemma UpgradeMovesLogin(s: State, login: LoginId, acknowledged: bool)
    requires AccountsKnown(s.accounts, s.passwordOf, s.nextHash)
    requires LoginAt(s, login, Verified) && s.logins[login].userId in s.accounts
    ensures var next := Step(s, UpgradeHash(login, acknowledged));
      var user := s.logins[login].userId;
      var replaced := s.accounts[user].hash == s.logins[login].verified;
      && LoginAt(next, login, Prepared) && next.logins[login].userId == user && user in next.accounts
      && next.logins[login].current == (if replaced && acknowledged then next.accounts[user].hash
                                        else if replaced then s.logins[login].verified else s.logins[login].current)
  {
  }

  /** A new session of the login's user, active for its lifetime, unless the digest is taken. */
  lemma IssueOpensSession(s: State, login: LoginId, token: TokenHash, lifetime: nat)
    requires LoginAt(s, login, Prepared)
    ensures var next := Step(s, Issue(login, token, lifetime));
      && login in next.logins
      && (if token in s.sessions then
            next.logins[login].pc == Rejected && next.sessions == s.sessions
          else
            && next.logins[login].pc == Issued && next.logins[login].token == token
            && token in next.origin && next.origin[token] == login
            && token in next.sessions && next.sessions[token].userId == s.logins[login].userId
            && (Active(next.sessions[token], s.now) <==> 0 < lifetime)
            && OthersUnchanged(s.sessions, next.sessions, {token}))
  {
  }

  /** The login returns exactly when the account can be read and still has the expected hash. */
  lemma RecheckDecides(s: State, login: LoginId, readable: bool)
    requires Inv(s) && LoginAt(s, login, Issued)
    ensures var next := Step(s, Recheck(login, readable));
      && next.sessions == s.sessions && login in next.logins
      && next.logins[login].pc == (if readable && s.accounts[s.logins[login].userId].hash == s.logins[login].current
                                   then Returned else Withdrawing)
  {
  }

  /** A withdrawal that reaches the store leaves the user no active session. */
  lemma WithdrawalEndsSessions(s: State, login: LoginId, stored: bool, lag: nat)
    requires LoginAt(s, login, Withdrawing)
    ensures var next := Step(s, Withdraw(login, stored, lag));
      var user := s.logins[login].userId;
      && LoginAt(next, login, Rejected) && OtherUsersKeep(s.sessions, next.sessions, user)
      && (stored ==> NoActiveSession(next.sessions, user, s.now))
      && (!stored ==> next.sessions == s.sessions)
  {
    var user, reading := s.logins[login].userId, Earlier(s.now, lag);
    forall token | token in s.sessions
      ensures token in Apply(s.sessions, RevokeAll(user), reading)
      ensures s.sessions[token].userId == user ==> !Active(Apply(s.sessions, RevokeAll(user), reading)[token], s.now)
    {
      RevokeAllEnds(s.sessions, user, reading, s.now, token);
    }
  }

  /** Either revocation of a reset leaves the user no active session. */
  lemma ResetRevokes(s: State, reset: ResetId, before: ResetPc, after: ResetPc, lag: nat)
    requires ResetAt(s, reset, before)
    ensures var next := RevokeStep(s, reset, before, after, lag);
      var user := s.resets[reset].userId;
      && ResetAt(next, reset, after) && next.accounts == s.accounts
      && NoActiveSession(next.sessions, user, s.now) && OtherUsersKeep(s.sessions, next.sessions, user)
  {
    var user, reading := s.resets[reset].userId, Earlier(s.now, lag);
    forall token | token in s.sessions
      ensures token in Apply(s.sessions, RevokeAll(user), reading)
      ensures s.sessions[token].userId == user ==> !Active(Apply(s.sessions, RevokeAll(user), reading)[token], s.now)
    {
      RevokeAllEnds(s.sessions, user, reading, s.now, token);
    }
  }

  lemma FirstRevocation(s: State, reset: ResetId, lag: nat)
    requires ResetAt(s, reset, CodeConsumed)
    ensures var next := Step(s, RevokeFirst(reset, lag));
      ResetAt(next, reset, RevokedOnce) && NoActiveSession(next.sessions, s.resets[reset].userId, s.now)
      && OtherUsersKeep(s.sessions, next.sessions, s.resets[reset].userId)
  {
    ResetRevokes(s, reset, CodeConsumed, RevokedOnce, lag);
  }

  lemma SecondRevocation(s: State, reset: ResetId, lag: nat)
    requires ResetAt(s, reset, Installed)
    ensures var next := Step(s, RevokeAgain(reset, lag));
      ResetAt(next, reset, Succeeded) && NoActiveSession(next.sessions, s.resets[reset].userId, s.now)
      && OtherUsersKeep(s.sessions, next.sessions, s.resets[reset].userId)
  {
    ResetRevokes(s, reset, Installed, Succeeded, lag);
  }

  /** A reset installs the new password under a hash never used before, for its user alone. */
  lemma InstallationReplacesPassword(s: State, reset: ResetId, password: Password)
    requires Inv(s) && ResetAt(s, reset, RevokedOnce)
    ensures var next := Step(s, Install(reset, password));
      var user := s.resets[reset].userId;
      && ResetAt(next, reset, Installed) && OtherAccountsKeep(s.accounts, next.accounts, user)
      && next.accounts[user].chosen == password && next.accounts[user].hash !in s.passwordOf
      && next.resets[reset].hash == Some(next.accounts[user].hash) && next.sessions == s.sessions
  {
  }

  /** A reset begins for an existing user; it can be aborted until it has succeeded. */
  lemma ResetBeginsAndAborts(s: State, reset: ResetId, user: UserId)
    ensures reset !in s.resets ==> (ResetAt(Step(s, ConsumeCode(reset, user)), reset, CodeConsumed) <==> user in s.accounts)
    ensures reset !in s.resets && user in s.accounts ==> Step(s, ConsumeCode(reset, user)).resets[reset].userId == user
    ensures reset in s.resets ==>
      Step(s, Abort(reset)).resets == s.resets[reset := s.resets[reset].(pc := if s.resets[reset].pc == Succeeded then Succeeded else Aborted)]
  {
    if reset in s.resets && s.resets[reset].pc == Succeeded {
      assert s.resets[reset := s.resets[reset].(pc := Succeeded)] == s.resets;
    }
  }

  /** A login that needs no upgrade moves on with the hash it verified. */
  lemma KeptHash(s: State, login: LoginId)
    requires LoginAt(s, login, Verified)
    ensures var next := Step(s, KeepHash(login));
      LoginAt(next, login, Prepared) && next.logins[login] == s.logins[login].(pc := Prepared) && next.accounts == s.accounts
  {
  }

  /** A logout ends its token and no other. */
  lemma LogoutEnds(s: State, token: TokenHash, lag: nat)
    ensures var next := Step(s, Logout(token, lag));
      !ActiveIn(next.sessions, token, s.now) && OthersUnchanged(s.sessions, next.sessions, {token})
  {
    RevocationEnds(s.sessions, token, Earlier(s.now, lag), s.now);
  }

  /** A verified email opens a session of its own. */
  lemma VerifiedSessionOpens(s: State, user: UserId, token: TokenHash, lifetime: nat)
    requires token !in s.sessions
    ensures var next := Step(s, IssueVerified(user, token, lifetime));
      && token in next.sessions && next.sessions[token].userId == user
      && (Active(next.sessions[token], s.now) <==> 0 < lifetime)
      && OthersUnchanged(s.sessions, next.sessions, {token})
  {
    CreationOpens(s.sessions, token, user, s.now + lifetime, s.now, s.now);
  }

  /** A refresh goes on exactly when its token is active at its reading of the clock. */
  lemma CheckDecides(s: State, refresh: RefreshId)
    requires refresh in s.refreshes && s.refreshes[refresh].pc == Clocked
    ensures var next := Step(s, FindSession(refresh));
      var thread := s.refreshes[refresh];
      && next.sessions == s.sessions && refresh in next.refreshes
      && next.refreshes[refresh].token == thread.token && next.refreshes[refresh].reading == thread.reading
      && next.refreshes[refresh].pc == (if ActiveIn(s.sessions, thread.token, thread.reading)
                                        then Checked(s.sessions[thread.token].userId) else Over)
  {
  }

  /** A refresh reads the clock once and rotates at most once; the rotation goes through exactly
      when, by that reading, the token is still active and its owner's, and the digest is free. */
  lemma RotationDecides(s: State, refresh: RefreshId, replacement: TokenHash, lifetime: nat)
    requires refresh in s.refreshes && s.refreshes[refresh].pc.Checked?
    ensures var next := Step(s, RotateSession(refresh, replacement, lifetime));
      var thread, user := s.refreshes[refresh], s.refreshes[refresh].pc.userId;
      && refresh in next.refreshes && next.refreshes[refresh].pc == Over
      && if thread.token in s.sessions && Active(s.sessions[thread.token], thread.reading)
            && s.sessions[thread.token].userId == user && replacement !in s.sessions
         then
           && replacement in next.sessions && next.sessions[replacement].userId == user
           && (Active(next.sessions[replacement], s.now) <==> s.now < thread.reading + lifetime)
           && OthersUnchanged(s.sessions, next.sessions, {thread.token, replacement})
         else
           next.sessions == s.sessions && next.origin == s.origin
  {
  }

  lemma RefreshStarts(s: State, refresh: RefreshId, token: TokenHash)
    requires refresh !in s.refreshes
    ensures var next := Step(s, StartRefresh(refresh, token));
      && refresh in next.refreshes && next.refreshes[refresh].pc == Clocked
      && next.refreshes[refresh].token == token && next.refreshes[refresh].reading == s.now
  {
  }

  /** An undisturbed refresh of an active token hands it over to the replacement, which
      descends from the same login. */
  lemma UncontestedRefresh(s: State, refresh: RefreshId, token: TokenHash, replacement: TokenHash, lifetime: nat)
    requires refresh !in s.refreshes && ActiveIn(s.sessions, token, s.now) && replacement !in s.sessions && 0 < lifetime
    ensures var checked := Step(Step(s, StartRefresh(refresh, token)), FindSession(refresh));
      var next := Step(checked, RotateSession(refresh, replacement, lifetime));
      && ActiveIn(next.sessions, replacement, s.now)
      && next.sessions[replacement].userId == s.sessions[token].userId
      && next.sessions[replacement].expiresAt == s.now + lifetime
      && (token in s.origin ==> replacement in next.origin && next.origin[replacement] == s.origin[token])
      && (token !in s.origin ==> next.origin == s.origin)
  {
    var started := StartStep(s, refresh, token);
    assert started.refreshes[refresh] == Refreshing(token, s.now, Clocked);
    var checked := FindStep(started, refresh);
    assert checked.refreshes[refresh].pc == Checked(s.sessions[token].userId);
    assert Commits(checked, refresh, replacement);
  }

  /** The check and the upgrade, or its absence, of a login that nobody disturbs. */
  function Preparation(s: State, login: LoginId, user: UserId, password: Password, legacy: bool, acknowledged: bool): State {
    Step(Step(s, Verify(login, user, password)), if legacy then UpgradeHash(login, acknowledged) else KeepHash(login))
  }

  lemma UndisturbedPreparation(s: State, login: LoginId, user: UserId, password: Password, legacy: bool, acknowledged: bool)
    requires AccountsKnown(s.accounts, s.passwordOf, s.nextHash) && login !in s.logins
    ensures var next := Preparation(s, login, user, password, legacy, acknowledged);
      && next.sessions == s.sessions && next.now == s.now
      && if user in s.accounts && password == s.accounts[user].chosen then
           && LoginAt(next, login, Prepared) && next.logins[login].userId == user && user in next.accounts
           && (next.accounts[user].hash == next.logins[login].current <==> legacy ==> acknowledged)
         else
           login !in next.logins
  {
    VerificationDecides(s, login, user, password);
  }

  /** A login that nobody disturbs returns exactly with the owner's password, a fresh digest, a
      readable account, and, when the hash had to be upgraded, the acknowledgement of that; the
      token is then active for its lifetime. */
  lemma UndisturbedLogin(
    s: State, login: LoginId, user: UserId, password: Password, legacy: bool, acknowledged: bool, token: TokenHash, lifetime: nat,
    readable: bool)
    requires AccountsKnown(s.accounts, s.passwordOf, s.nextHash) && login !in s.logins
    ensures var issued := Step(Preparation(s, login, user, password, legacy, acknowledged), Issue(login, token, lifetime));
      var end := Step(issued, Recheck(login, readable));
      && (LoginAt(end, login, Returned) <==>
            && user in s.accounts && password == s.accounts[user].chosen && token !in s.sessions
            && readable && (legacy ==> acknowledged))
      && (LoginAt(end, login, Returned) ==>
            token in end.sessions && end.sessions[token].userId == user && (Active(end.sessions[token], end.now) <==> 0 < lifetime))
  {
    UndisturbedPreparation(s, login, user, password, legacy, acknowledged);
  }

  /** The login has a session, and its account still the hash that it expects. */
  predicate WouldPass(s: State, login: LoginId) {
    && LoginAt(s, login, Issued) && s.logins[login].userId in s.accounts
    && s.accounts[s.logins[login].userId].hash == s.logins[login].current
  }

  function SessionOpened(
    s: State, login: LoginId, user: UserId, password: Password, legacy: bool, acknowledged: bool, token: TokenHash, lifetime: nat): State
  {
    Step(Preparation(s, login, user, password, legacy, acknowledged), Issue(login, token, lifetime))
  }

  lemma WouldReturn(
    s: State, login: LoginId, user: UserId, password: Password, legacy: bool, acknowledged: bool, token: TokenHash, lifetime: nat)
    requires AccountsKnown(s.accounts, s.passwordOf, s.nextHash) && login !in s.logins
    ensures WouldPass(SessionOpened(s, login, user, password, legacy, acknowledged, token, lifetime), login) <==>
      user in s.accounts && password == s.accounts[user].chosen && token !in s.sessions && (legacy ==> acknowledged)
  {
    UndisturbedPreparation(s, login, user, password, legacy, acknowledged);
  }
}
