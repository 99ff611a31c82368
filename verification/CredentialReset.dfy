/** Logins, password-hash upgrades, refreshes and password resets as concurrent
    threads. Every store call of a thread is one atomic step, and so is every reading of the
    clock that a later call uses, so an event list is a schedule and a property of all event
    lists is a property of all interleavings. A reading may be older than the call that
    carries it: a refresh keeps one for two calls, and a revocation's `lag` says how old its is. */
module CredentialReset {

  import opened Common
  import opened RefreshSessions

  /** Installed hashes are numbered in the order of installation; salting makes each one new. */
  type Hash = nat
  type Password = string
  type LoginId = nat
  type ResetId = nat
  type RefreshId = nat

  datatype LoginPc =
    | Verified     // the password matched the hash that was read
    | Prepared     // the legacy-hash upgrade is over
    | Issued       // the refresh session is stored, its token not yet returned
    | Withdrawing  // the recheck failed, the revocation is still to come
    | Rejected
    | Returned     // the caller has the token

  /** `verified` is the hash the password was checked against, `current` is the
      hash the recheck will insist on. */
  datatype Login = Login(userId: UserId, verified: Hash, current: Hash, token: TokenHash, pc: LoginPc)

  datatype ResetPc = CodeConsumed | RevokedOnce | Installed | Succeeded | Aborted

  datatype Reset = Reset(userId: UserId, hash: Option<Hash>, pc: ResetPc)

  /** `chosen` records the password set by the last registration or reset. */
  datatype Account = Account(hash: Hash, chosen: Password)

  datatype RefreshPc =
    | Clocked                 // the clock has been read
    | Checked(userId: UserId) // the token was found active at that reading
    | Over

  /** One reading of the clock serves both the check of the token and its rotation. */
  datatype Refreshing = Refreshing(token: TokenHash, reading: Instant, pc: RefreshPc)

  datatype State = State(
    now: Instant,
    accounts: map<UserId, Account>,
    passwordOf: map<Hash, Password>,
    nextHash: Hash,
    sessions: Table,
    origin: map<TokenHash, LoginId>,
    logins: map<LoginId, Login>,
    resets: map<ResetId, Reset>,
    refreshes: map<RefreshId, Refreshing>)

  datatype Event =
    | Tick(seconds: nat)
    | Verify(login: LoginId, user: UserId, password: Password)
    | KeepHash(login: LoginId)                        // not a legacy hash, or the upgrade failed
    | UpgradeHash(login: LoginId, acknowledged: bool) // compare-and-set; its reply may be lost
    | Issue(login: LoginId, token: TokenHash, lifetime: nat)
    | Recheck(login: LoginId, readable: bool)
    | Withdraw(login: LoginId, stored: bool, lag: nat)
    | StartRefresh(refresh: RefreshId, token: TokenHash)
    | FindSession(refresh: RefreshId)
    | RotateSession(refresh: RefreshId, replacement: TokenHash, lifetime: nat)
    | Logout(token: TokenHash, lag: nat)
    | IssueVerified(user: UserId, token: TokenHash, lifetime: nat) // after an email verification
    | ConsumeCode(reset: ResetId, user: UserId)
    | RevokeFirst(reset: ResetId, lag: nat)
    | Install(reset: ResetId, password: Password)
    | RevokeAgain(reset: ResetId, lag: nat)
    | Abort(reset: ResetId)

  predicate LoginAt(s: State, login: LoginId, pc: LoginPc) {
    login in s.logins && s.logins[login].pc == pc
  }

  predicate ResetAt(s: State, reset: ResetId, pc: ResetPc) {
    reset in s.resets && s.resets[reset].pc == pc
  }

  /** A reading of the clock taken `lag` seconds ago. */
  function Earlier(now: Instant, lag: nat): Instant {
    if lag <= now then now - lag else 0
  }

  function VerifyStep(s: State, login: LoginId, user: UserId, password: Password): State {
    if login in s.logins || user !in s.accounts then s
    else
      var hash := s.accounts[user].hash;
      if hash in s.passwordOf && s.passwordOf[hash] == password
      then s.(logins := s.logins[login := Login(user, hash, hash, "", Verified)])
      else s
  }

  function UpgradeStep(s: State, login: LoginId, acknowledged: bool): State {
    if !LoginAt(s, login, Verified) then s
    else
      var thread := s.logins[login];
      if thread.userId in s.accounts && s.accounts[thread.userId].hash == thread.verified && thread.verified in s.passwordOf
      then
        var minted := s.nextHash;
        s.(nextHash := minted + 1,
           passwordOf := s.passwordOf[minted := s.passwordOf[thread.verified]],
           accounts := s.accounts[thread.userId := s.accounts[thread.userId].(hash := minted)],
           logins := s.logins[login := thread.(pc := Prepared, current := if acknowledged then minted else thread.verified)])
      else s.(logins := s.logins[login := thread.(pc := Prepared)])
  }

  function IssueStep(s: State, login: LoginId, token: TokenHash, lifetime: nat): State {
    if !LoginAt(s, login, Prepared) then s
    else
      var thread := s.logins[login];
      if token in s.sessions then s.(logins := s.logins[login := thread.(pc := Rejected)])
      else s.(sessions := Apply(s.sessions, Create(token, thread.userId, s.now + lifetime), s.now),
              origin := s.origin[token := login],
              logins := s.logins[login := thread.(pc := Issued, token := token)])
  }

  function RecheckStep(s: State, login: LoginId, readable: bool): State {
    if !LoginAt(s, login, Issued) then s
    else
      var thread := s.logins[login];
      var same := readable && thread.userId in s.accounts && s.accounts[thread.userId].hash == thread.current;
      s.(logins := s.logins[login := thread.(pc := if same then Returned else Withdrawing)])
  }

  function WithdrawStep(s: State, login: LoginId, stored: bool, lag: nat): State {
    if !LoginAt(s, login, Withdrawing) then s
    else
      var thread := s.logins[login];
      s.(sessions := if stored then Apply(s.sessions, RevokeAll(thread.userId), Earlier(s.now, lag)) else s.sessions,
         logins := s.logins[login := thread.(pc := Rejected)])
  }

  function StartStep(s: State, refresh: RefreshId, token: TokenHash): State {
    if refresh in s.refreshes then s else s.(refreshes := s.refreshes[refresh := Refreshing(token, s.now, Clocked)])
  }

  function FindStep(s: State, refresh: RefreshId): State {
    if refresh !in s.refreshes || !s.refreshes[refresh].pc.Clocked? then s
    else
      var thread := s.refreshes[refresh];
      var found := ActiveIn(s.sessions, thread.token, thread.reading);
      s.(refreshes := s.refreshes[refresh := thread.(pc := if found then Checked(s.sessions[thread.token].userId) else Over)])
  }

  /** The rotation's own check passes, by the old reading. */
  predicate Commits(s: State, refresh: RefreshId, replacement: TokenHash) {
    && refresh in s.refreshes && s.refreshes[refresh].pc.Checked?
    && CanRotate(s.sessions, s.refreshes[refresh].token, replacement, s.refreshes[refresh].pc.userId, s.refreshes[refresh].reading)
  }

  /** A replacement token descends from the login its predecessor descends from. */
  function RotateStep(s: State, refresh: RefreshId, replacement: TokenHash, lifetime: nat): State {
    if refresh !in s.refreshes || !s.refreshes[refresh].pc.Checked? then s
    else
      var thread := s.refreshes[refresh];
      var over := s.(refreshes := s.refreshes[refresh := thread.(pc := Over)]);
      if !Commits(s, refresh, replacement) then over
      else over.(
        sessions := Apply(s.sessions, Rotate(thread.token, replacement, thread.pc.userId, thread.reading + lifetime), thread.reading),
        origin := if thread.token in s.origin then s.origin[replacement := s.origin[thread.token]] else s.origin)
  }

  function InstallStep(s: State, reset: ResetId, password: Password): State {
    if !ResetAt(s, reset, RevokedOnce) || s.resets[reset].userId !in s.accounts then s
    else
      var minted := s.nextHash;
      s.(nextHash := minted + 1,
         passwordOf := s.passwordOf[minted := password],
         accounts := s.accounts[s.resets[reset].userId := Account(minted, password)],
         resets := s.resets[reset := s.resets[reset].(pc := Installed, hash := Some(minted))])
  }

  function RevokeStep(s: State, reset: ResetId, before: ResetPc, after: ResetPc, lag: nat): State {
    if !ResetAt(s, reset, before) then s
    else s.(sessions := Apply(s.sessions, RevokeAll(s.resets[reset].userId), Earlier(s.now, lag)),
            resets := s.resets[reset := s.resets[reset].(pc := after)])
  }

  /** A store call that no thread follows up. */
  function StoreStep(s: State, op: Operation, reading: Instant): State {
    s.(sessions := Apply(s.sessions, op, reading))
  }

  function Step(s: State, event: Event): State {
    match event
    case Tick(seconds) => s.(now := s.now + seconds)
    case Verify(login, user, password) => VerifyStep(s, login, user, password)
    case KeepHash(login) =>
      if LoginAt(s, login, Verified) then s.(logins := s.logins[login := s.logins[login].(pc := Prepared)]) else s
    case UpgradeHash(login, acknowledged) => UpgradeStep(s, login, acknowledged)
    case Issue(login, token, lifetime) => IssueStep(s, login, token, lifetime)
    case Recheck(login, readable) => RecheckStep(s, login, readable)
    case Withdraw(login, stored, lag) => WithdrawStep(s, login, stored, lag)
    case StartRefresh(refresh, token) => StartStep(s, refresh, token)
    case FindSession(refresh) => FindStep(s, refresh)
    case RotateSession(refresh, replacement, lifetime) => RotateStep(s, refresh, replacement, lifetime)
    case Logout(token, lag) => StoreStep(s, Revoke(token), Earlier(s.now, lag))
    case IssueVerified(user, token, lifetime) => StoreStep(s, Create(token, user, s.now + lifetime), s.now)
    case ConsumeCode(reset, user) =>
      if reset in s.resets || user !in s.accounts then s
      else s.(resets := s.resets[reset := Reset(user, None, CodeConsumed)])
    case RevokeFirst(reset, lag) => RevokeStep(s, reset, CodeConsumed, RevokedOnce, lag)
    case Install(reset, password) => InstallStep(s, reset, password)
    case RevokeAgain(reset, lag) => RevokeStep(s, reset, Installed, Succeeded, lag)
    case Abort(reset) =>
      if reset in s.resets && s.resets[reset].pc != Succeeded
      then s.(resets := s.resets[reset := s.resets[reset].(pc := Aborted)]) else s
  }

  function Run(s: State, events: seq<Event>): State
    decreases |events|
  {
    if events == [] then s else Run(Step(s, events[0]), events[1..])
  }

  /** Accounts exist with a hash of the password their owner chose; nothing else has happened. */
  predicate Initial(s: State) {
    && s.sessions == map[] && s.origin == map[] && s.logins == map[] && s.resets == map[] && s.refreshes == map[]
    && AccountsKnown(s.accounts, s.passwordOf, s.nextHash)
  }

  predicate AccountsKnown(accounts: map<UserId, Account>, passwordOf: map<Hash, Password>, nextHash: Hash) {
    && (forall hash :: hash in passwordOf ==> hash < nextHash)
    && (forall user :: user in accounts ==>
          accounts[user].hash in passwordOf && passwordOf[accounts[user].hash] == accounts[user].chosen)
  }

  predicate LoginsOrdered(logins: map<LoginId, Login>, accounts: map<UserId, Account>) {
    forall login :: login in logins ==>
      && logins[login].userId in accounts
      && logins[login].verified <= logins[login].current <= accounts[logins[login].userId].hash
  }

  predicate ResetsOrdered(resets: map<ResetId, Reset>, accounts: map<UserId, Account>) {
    forall reset :: reset in resets ==>
      && resets[reset].userId in accounts
      && (resets[reset].hash.Some? ==> resets[reset].hash.value <= accounts[resets[reset].userId].hash)
      && (resets[reset].pc in {Installed, Succeeded} ==> resets[reset].hash.Some?)
  }

  /** The login checked its password against a hash that this reset replaced. */
  predicate OlderThanReset(login: Login, reset: Reset) {
    login.userId == reset.userId && reset.hash.Some? && login.verified < reset.hash.value
  }

  /** No upgrade carries a login from before a reset to after it. */
  predicate NoUpgradeAcrossReset(logins: map<LoginId, Login>, resets: map<ResetId, Reset>) {
    forall login, reset :: login in logins && reset in resets && OlderThanReset(logins[login], resets[reset]) ==>
      logins[login].current < resets[reset].hash.value
  }

  predicate OriginsKnown(origin: map<TokenHash, LoginId>, sessions: Table, logins: map<LoginId, Login>) {
    && (forall token :: token in origin ==>
          && token in sessions && origin[token] in logins
          && sessions[token].userId == logins[origin[token]].userId
          && !logins[origin[token]].pc.Verified? && !logins[origin[token]].pc.Prepared?)
    && (forall login :: login in logins && logins[login].pc in {Issued, Returned} ==>
          logins[login].token in origin && origin[logins[login].token] == login)
  }

  /** Once the reset has succeeded, an active session of an outdated login has not been handed to anyone. */
  predicate SealedAgainst(login: Login, row: Row, reset: Reset, now: Instant) {
    reset.pc == Succeeded && OlderThanReset(login, reset) && Active(row, now) ==> login.pc != Returned
  }

  predicate Sealed(
    origin: map<TokenHash, LoginId>, sessions: Table, logins: map<LoginId, Login>, resets: map<ResetId, Reset>, now: Instant)
  {
    forall token, reset :: token in origin && token in sessions && origin[token] in logins && reset in resets ==>
      SealedAgainst(logins[origin[token]], sessions[token], resets[reset], now)
  }

  predicate ReadingsPast(refreshes: map<RefreshId, Refreshing>, now: Instant) {
    forall refresh :: refresh in refreshes ==> refreshes[refresh].reading <= now
  }

  /** What holds in every schedule. */
  predicate Inv(s: State) {
    && AccountsKnown(s.accounts, s.passwordOf, s.nextHash)
    && LoginsOrdered(s.logins, s.accounts)
    && ResetsOrdered(s.resets, s.accounts)
    && NoUpgradeAcrossReset(s.logins, s.resets)
    && OriginsKnown(s.origin, s.sessions, s.logins)
    && ReadingsPast(s.refreshes, s.now)
  }

  /** What holds as long as no rotation comes too late. */
  predicate Seal(s: State) {
    Sealed(s.origin, s.sessions, s.logins, s.resets, s.now)
  }

  lemma VerifyKeepsInv(s: State, login: LoginId, user: UserId, password: Password)
    requires Inv(s)
    ensures Inv(VerifyStep(s, login, user, password))
  {
  }

  /** A compare-and-set that succeeds proves that no reset came after the verified hash. */
  lemma UpgradeKeepsOrder(s: State, login: LoginId, acknowledged: bool)
    requires LoginsOrdered(s.logins, s.accounts) && ResetsOrdered(s.resets, s.accounts)
    requires AccountsKnown(s.accounts, s.passwordOf, s.nextHash) && NoUpgradeAcrossReset(s.logins, s.resets)
    ensures var next := UpgradeStep(s, login, acknowledged);
      && ResetsOrdered(next.resets, next.accounts)
      && NoUpgradeAcrossReset(next.logins, next.resets)
  {
    if LoginAt(s, login, Verified) && s.accounts[s.logins[login].userId].hash == s.logins[login].verified {
      assert forall reset :: reset in s.resets ==> !OlderThanReset(s.logins[login], s.resets[reset]);
    }
  }

  lemma MintedHashKeepsAccounts(
    accounts: map<UserId, Account>, passwordOf: map<Hash, Password>, minted: Hash, user: UserId, password: Password)
    requires AccountsKnown(accounts, passwordOf, minted)
    ensures AccountsKnown(accounts[user := Account(minted, password)], passwordOf[minted := password], minted + 1)
  {
  }

  lemma MintedHashKeepsLogins(
    logins: map<LoginId, Login>, accounts: map<UserId, Account>, minted: Hash, user: UserId, password: Password)
    requires LoginsOrdered(logins, accounts)
    requires user in accounts && accounts[user].hash <= minted
    ensures LoginsOrdered(logins, accounts[user := Account(minted, password)])
  {
  }

  lemma OneLoginKeepsOrder(
    logins: map<LoginId, Login>, accounts: map<UserId, Account>, login: LoginId, thread: Login)
    requires LoginsOrdered(logins, accounts)
    requires thread.userId in accounts && thread.verified <= thread.current <= accounts[thread.userId].hash
    ensures LoginsOrdered(logins[login := thread], accounts)
  {
  }

  /** A login that has not issued its session yet is the origin of no token. */
  lemma EarlyLoginKeepsOrigins(
    origin: map<TokenHash, LoginId>, sessions: Table, logins: map<LoginId, Login>, login: LoginId, thread: Login)
    requires OriginsKnown(origin, sessions, logins)
    requires login in logins && logins[login].pc in {Verified, Prepared} && thread.pc in {Prepared, Rejected}
    ensures OriginsKnown(origin, sessions, logins[login := thread])
  {
    assert forall token :: token in origin ==> origin[token] != login;
  }

  lemma UpgradeKeepsAccounts(s: State, login: LoginId, acknowledged: bool)
    requires AccountsKnown(s.accounts, s.passwordOf, s.nextHash) && LoginsOrdered(s.logins, s.accounts)
    requires LoginAt(s, login, Verified)
    ensures var next := UpgradeStep(s, login, acknowledged);
      AccountsKnown(next.accounts, next.passwordOf, next.nextHash) && LoginsOrdered(next.logins, next.accounts)
  {
    var thread := s.logins[login];
    if s.accounts[thread.userId].hash == thread.verified {
      UpgradedHashKeepsAccounts(s, thread.userId, s.accounts[thread.userId].chosen);
      OneLoginKeepsOrder(
        s.logins, s.accounts[thread.userId := Account(s.nextHash, s.accounts[thread.userId].chosen)], login,
        thread.(pc := Prepared, current := if acknowledged then s.nextHash else thread.verified));
    } else {
      OneLoginKeepsOrder(s.logins, s.accounts, login, thread.(pc := Prepared));
    }
  }

  lemma UpgradedHashKeepsAccounts(s: State, user: UserId, password: Password)
    requires AccountsKnown(s.accounts, s.passwordOf, s.nextHash) && LoginsOrdered(s.logins, s.accounts) && user in s.accounts
    ensures AccountsKnown(s.accounts[user := Account(s.nextHash, password)], s.passwordOf[s.nextHash := password], s.nextHash + 1)
    ensures LoginsOrdered(s.logins, s.accounts[user := Account(s.nextHash, password)])
  {
    MintedHashKeepsAccounts(s.accounts, s.passwordOf, s.nextHash, user, password);
    MintedHashKeepsLogins(s.logins, s.accounts, s.nextHash, user, password);
  }

  lemma UpgradeKeepsInv(s: State, login: LoginId, acknowledged: bool)
    requires Inv(s)
    ensures Inv(UpgradeStep(s, login, acknowledged))
  {
    if LoginAt(s, login, Verified) {
      UpgradeKeepsAccounts(s, login, acknowledged);
      UpgradeKeepsOrder(s, login, acknowledged);
      EarlyLoginKeepsOrigins(s.origin, s.sessions, s.logins, login, UpgradeStep(s, login, acknowledged).logins[login]);
    }
  }

  lemma KeepHashKeepsInv(s: State, login: LoginId)
    requires Inv(s)
    ensures Inv(Step(s, KeepHash(login)))
  {
    if LoginAt(s, login, Verified) {
      EarlyLoginKeepsOrigins(s.origin, s.sessions, s.logins, login, s.logins[login].(pc := Prepared));
    }
  }

  lemma IssueKeepsInv(s: State, login: LoginId, token: TokenHash, lifetime: nat)
    requires Inv(s)
    ensures Inv(IssueStep(s, login, token, lifetime))
  {
    if LoginAt(s, login, Prepared) && token in s.sessions {
      EarlyLoginKeepsOrigins(s.origin, s.sessions, s.logins, login, s.logins[login].(pc := Rejected));
    }
  }

  lemma RecheckKeepsInv(s: State, login: LoginId, readable: bool)
    requires Inv(s)
    ensures Inv(RecheckStep(s, login, readable))
  {
  }

  /** Rows change, but none is lost or changes hands. */
  lemma SessionsKeepOrigins(origin: map<TokenHash, LoginId>, sessions: Table, after: Table, logins: map<LoginId, Login>)
    requires OriginsKnown(origin, sessions, logins)
    requires forall token :: token in sessions ==> token in after && after[token].userId == sessions[token].userId
    ensures OriginsKnown(origin, after, logins)
  {
  }

  lemma WithdrawKeepsInv(s: State, login: LoginId, stored: bool, lag: nat)
    requires Inv(s)
    ensures Inv(WithdrawStep(s, login, stored, lag))
  {
    if LoginAt(s, login, Withdrawing) {
      SessionsKeepOrigins(s.origin, s.sessions, WithdrawStep(s, login, stored, lag).sessions, s.logins);
    }
  }

  lemma InstallKeepsInv(s: State, reset: ResetId, password: Password)
    requires Inv(s)
    ensures Inv(InstallStep(s, reset, password))
  {
  }

  lemma RevokeKeepsInv(s: State, reset: ResetId, before: ResetPc, after: ResetPc, lag: nat)
    requires Inv(s)
    requires (before == CodeConsumed && after == RevokedOnce) || (before == Installed && after == Succeeded)
    ensures Inv(RevokeStep(s, reset, before, after, lag))
  {
    if ResetAt(s, reset, before) {
      SessionsKeepOrigins(s.origin, s.sessions, RevokeStep(s, reset, before, after, lag).sessions, s.logins);
    }
  }

  lemma RotateKeepsInv(s: State, refresh: RefreshId, replacement: TokenHash, lifetime: nat)
    requires Inv(s)
    ensures Inv(RotateStep(s, refresh, replacement, lifetime))
  {
    if Commits(s, refresh, replacement) {
      var thread := s.refreshes[refresh];
      var rotated := s.sessions[thread.token := Rotated(s.sessions[thread.token], thread.reading)];
      SessionsKeepOrigins(s.origin, s.sessions, rotated, s.logins);
      ReplacementKeepsOrigins(s.origin, rotated, s.logins, thread.token, replacement, Fresh(thread.pc.userId, thread.reading + lifetime));
    }
  }

  lemma ReplacementKeepsOrigins(
    origin: map<TokenHash, LoginId>, sessions: Table, logins: map<LoginId, Login>, token: TokenHash, replacement: TokenHash, row: Row)
    requires OriginsKnown(origin, sessions, logins)
    requires token in sessions && replacement !in sessions && row.userId == sessions[token].userId
    ensures OriginsKnown(if token in origin then origin[replacement := origin[token]] else origin, sessions[replacement := row], logins)
  {
  }

  lemma RefreshMoveKeepsInv(s: State, refresh: RefreshId, thread: Refreshing)
    requires Inv(s) && thread.reading <= s.now
    ensures Inv(s.(refreshes := s.refreshes[refresh := thread]))
  {
  }

  lemma ResetBookkeepingKeepsInv(s: State, event: Event)
    requires Inv(s)
    requires event.ConsumeCode? || event.Abort?
    ensures Inv(Step(s, event))
  {
  }

  predicate OfLogin(event: Event) {
    event.Verify? || event.KeepHash? || event.UpgradeHash? || event.Issue? || event.Recheck? || event.Withdraw?
  }

  predicate OfReset(event: Event) {
    event.ConsumeCode? || event.RevokeFirst? || event.Install? || event.RevokeAgain? || event.Abort?
  }

  lemma LoginSteps(s: State, event: Event)
    ensures event.Verify? ==> Step(s, event) == VerifyStep(s, event.login, event.user, event.password)
    ensures event.UpgradeHash? ==> Step(s, event) == UpgradeStep(s, event.login, event.acknowledged)
    ensures event.Issue? ==> Step(s, event) == IssueStep(s, event.login, event.token, event.lifetime)
    ensures event.Recheck? ==> Step(s, event) == RecheckStep(s, event.login, event.readable)
    ensures event.Withdraw? ==> Step(s, event) == WithdrawStep(s, event.login, event.stored, event.lag)
  {
  }

  lemma ResetSteps(s: State, event: Event)
    ensures event.RevokeFirst? ==> Step(s, event) == RevokeStep(s, event.reset, CodeConsumed, RevokedOnce, event.lag)
    ensures event.Install? ==> Step(s, event) == InstallStep(s, event.reset, event.password)
    ensures event.RevokeAgain? ==> Step(s, event) == RevokeStep(s, event.reset, Installed, Succeeded, event.lag)
  {
  }

  lemma LoginEventKeepsInv(s: State, event: Event)
    requires Inv(s) && OfLogin(event)
    ensures Inv(Step(s, event))
  {
    LoginSteps(s, event);
    match event
    case Verify(login, user, password) => VerifyKeepsInv(s, login, user, password);
    case KeepHash(login) => KeepHashKeepsInv(s, login);
    case UpgradeHash(login, acknowledged) => UpgradeKeepsInv(s, login, acknowledged);
    case Issue(login, token, lifetime) => IssueKeepsInv(s, login, token, lifetime);
    case Recheck(login, readable) => RecheckKeepsInv(s, login, readable);
    case Withdraw(login, stored, lag) => WithdrawKeepsInv(s, login, stored, lag);
  }

  lemma ResetEventKeepsInv(s: State, event: Event)
    requires Inv(s) && OfReset(event)
    ensures Inv(Step(s, event))
  {
    ResetSteps(s, event);
    match event
    case RevokeFirst(reset, lag) => RevokeKeepsInv(s, reset, CodeConsumed, RevokedOnce, lag);
    case Install(reset, password) => InstallKeepsInv(s, reset, password);
    case RevokeAgain(reset, lag) => RevokeKeepsInv(s, reset, Installed, Succeeded, lag);
    case ConsumeCode(_, _) => ResetBookkeepingKeepsInv(s, event);
    case Abort(_) => ResetBookkeepingKeepsInv(s, event);
  }

  lemma FindKeepsInv(s: State, refresh: RefreshId)
    requires Inv(s)
    ensures Inv(FindStep(s, refresh))
  {
    if refresh in s.refreshes && s.refreshes[refresh].pc.Clocked? {
      RefreshMoveKeepsInv(s, refresh, FindStep(s, refresh).refreshes[refresh]);
    }
  }

  lemma NewRefreshKeepsInv(s: State, refresh: RefreshId, token: TokenHash)
    requires Inv(s) && refresh !in s.refreshes
    ensures Inv(StartStep(s, refresh, token))
  {
    RefreshMoveKeepsInv(s, refresh, StartStep(s, refresh, token).refreshes[refresh]);
  }

  lemma StartKeepsInv(s: State, refresh: RefreshId, token: TokenHash)
    requires Inv(s)
    ensures Inv(StartStep(s, refresh, token))
  {
    if refresh !in s.refreshes {
      NewRefreshKeepsInv(s, refresh, token);
    }
  }

  lemma SessionSteps(s: State, event: Event)
    ensures event.StartRefresh? ==> Step(s, event) == StartStep(s, event.refresh, event.token)
    ensures event.FindSession? ==> Step(s, event) == FindStep(s, event.refresh)
    ensures event.RotateSession? ==> Step(s, event) == RotateStep(s, event.refresh, event.replacement, event.lifetime)
  {
  }

  lemma RefreshEventKeepsInv(s: State, event: Event)
    requires Inv(s) && (event.StartRefresh? || event.FindSession? || event.RotateSession?)
    ensures Inv(Step(s, event))
  {
    SessionSteps(s, event);
    if event.StartRefresh? {
      StartKeepsInv(s, event.refresh, event.token);
    } else if event.FindSession? {
      FindKeepsInv(s, event.refresh);
    } else {
      RotateKeepsInv(s, event.refresh, event.replacement, event.lifetime);
    }
  }

  lemma StoreKeepsInv(s: State, op: Operation, reading: Instant)
    requires Inv(s)
    ensures Inv(StoreStep(s, op, reading))
  {
    SessionsKeepOrigins(s.origin, s.sessions, StoreStep(s, op, reading).sessions, s.logins);
  }

  lemma LogoutStores(s: State, token: TokenHash, lag: nat)
    ensures Step(s, Logout(token, lag)) == StoreStep(s, Revoke(token), Earlier(s.now, lag))
  {
  }

  lemma LogoutKeepsInv(s: State, token: TokenHash, lag: nat)
    requires Inv(s)
    ensures Inv(Step(s, Logout(token, lag)))
  {
    LogoutStores(s, token, lag);
    StoreKeepsInv(s, Revoke(token), Earlier(s.now, lag));
  }

  lemma IssueVerifiedStores(s: State, user: UserId, token: TokenHash, lifetime: nat)
    ensures Step(s, IssueVerified(user, token, lifetime)) == StoreStep(s, Create(token, user, s.now + lifetime), s.now)
  {
  }

  lemma IssueVerifiedKeepsInv(s: State, user: UserId, token: TokenHash, lifetime: nat)
    requires Inv(s)
    ensures Inv(Step(s, IssueVerified(user, token, lifetime)))
  {
    IssueVerifiedStores(s, user, token, lifetime);
    StoreKeepsInv(s, Create(token, user, s.now + lifetime), s.now);
  }

  lemma TickKeepsInv(s: State, seconds: nat)
    requires Inv(s)
    ensures Inv(Step(s, Tick(seconds)))
  {
  }

  lemma SessionEventKeepsInv(s: State, event: Event)
    requires Inv(s) && !OfLogin(event) && !OfReset(event)
    ensures Inv(Step(s, event))
  {
    match event
    case Tick(seconds) => TickKeepsInv(s, seconds);
    case StartRefresh(_, _) => RefreshEventKeepsInv(s, event);
    case FindSession(_) => RefreshEventKeepsInv(s, event);
    case RotateSession(_, _, _) => RefreshEventKeepsInv(s, event);
    case Logout(token, lag) => LogoutKeepsInv(s, token, lag);
    case IssueVerified(user, token, lifetime) => IssueVerifiedKeepsInv(s, user, token, lifetime);
  }

  lemma StepKeepsInv(s: State, event: Event)
    requires Inv(s)
    ensures Inv(Step(s, event))
  {
    if OfLogin(event) {
      LoginEventKeepsInv(s, event);
    } else if OfReset(event) {
      ResetEventKeepsInv(s, event);
    } else {
      SessionEventKeepsInv(s, event);
    }
  }

  lemma {:induction false} RunKeepsInv(s: State, events: seq<Event>)
    requires Inv(s)
    ensures Inv(Run(s, events))
    decreases |events|
  {
    if events != [] {
      StepKeepsInv(s, events[0]);
      RunKeepsInv(Step(s, events[0]), events[1..]);
    }
  }

  /** Later, and after any operation that adds no row of a known origin, no more sessions are
      active than before. */
  lemma AgingKeepsSeal(s: State, sessions: Table, now: Instant)
    requires OriginsKnown(s.origin, s.sessions, s.logins) && Seal(s)
    requires forall token :: token in s.sessions ==> token in sessions && (Active(sessions[token], now) ==> Active(s.sessions[token], s.now))
    ensures Sealed(s.origin, sessions, s.logins, s.resets, now)
  {
  }

  /** Whatever its reading, an operation leaves the sealed sessions sealed. */
  lemma OperationKeepsSeal(s: State, op: Operation, reading: Instant)
    requires OriginsKnown(s.origin, s.sessions, s.logins) && Seal(s) && reading <= s.now
    ensures Sealed(s.origin, Apply(s.sessions, op, reading), s.logins, s.resets, s.now)
  {
    forall token | token in s.sessions
      ensures token in Apply(s.sessions, op, reading)
      ensures Active(Apply(s.sessions, op, reading)[token], s.now) ==> Active(s.sessions[token], s.now)
    {
      RowEvolution(s.sessions, op, reading, token);
      if !Active(s.sessions[token], s.now) {
        NeverRevives(s.sessions, op, reading, s.now, token);
      }
    }
    AgingKeepsSeal(s, Apply(s.sessions, op, reading), s.now);
  }

  /** Only a login's return can break a seal, and not if no succeeded reset outdates it. */
  lemma LoginMoveKeepsSeal(s: State, login: LoginId, thread: Login)
    requires OriginsKnown(s.origin, s.sessions, s.logins) && Seal(s)
    requires login in s.logins ==> thread.userId == s.logins[login].userId && thread.verified == s.logins[login].verified
    requires thread.pc == Returned ==>
      login in s.logins && forall reset :: reset in s.resets ==> !OlderThanReset(thread, s.resets[reset])
    ensures Sealed(s.origin, s.sessions, s.logins[login := thread], s.resets, s.now)
  {
  }

  /** A login that passes its recheck is outdated by no reset. */
  lemma RecheckKeepsSeal(s: State, login: LoginId, readable: bool)
    requires Inv(s) && Seal(s)
    ensures Seal(RecheckStep(s, login, readable))
  {
    if LoginAt(s, login, Issued) {
      LoginMoveKeepsSeal(s, login, RecheckStep(s, login, readable).logins[login]);
    }
  }

  lemma IssueKeepsSeal(s: State, login: LoginId, token: TokenHash, lifetime: nat)
    requires Inv(s) && Seal(s)
    ensures Seal(IssueStep(s, login, token, lifetime))
  {
  }

  lemma WithdrawKeepsSeal(s: State, login: LoginId, stored: bool, lag: nat)
    requires Inv(s) && Seal(s)
    ensures Seal(WithdrawStep(s, login, stored, lag))
  {
    if LoginAt(s, login, Withdrawing) {
      var user := s.logins[login].userId;
      var revoked := s.(sessions := Apply(s.sessions, RevokeAll(user), Earlier(s.now, lag)));
      OperationKeepsSeal(s, RevokeAll(user), Earlier(s.now, lag));
      SessionsKeepOrigins(s.origin, s.sessions, revoked.sessions, s.logins);
      var thread := s.logins[login].(pc := Rejected);
      LoginMoveKeepsSeal(s, login, thread);
      LoginMoveKeepsSeal(revoked, login, thread);
    }
  }

  lemma VerifyKeepsSeal(s: State, login: LoginId, user: UserId, password: Password)
    requires Inv(s) && Seal(s)
    ensures Seal(VerifyStep(s, login, user, password))
  {
    var next := VerifyStep(s, login, user, password);
    if login !in s.logins && login in next.logins {
      LoginMoveKeepsSeal(s, login, next.logins[login]);
    }
  }

  lemma KeepHashKeepsSeal(s: State, login: LoginId)
    requires Inv(s) && Seal(s)
    ensures Seal(Step(s, KeepHash(login)))
  {
    if LoginAt(s, login, Verified) {
      LoginMoveKeepsSeal(s, login, s.logins[login].(pc := Prepared));
    }
  }

  lemma UpgradeKeepsSeal(s: State, login: LoginId, acknowledged: bool)
    requires Inv(s) && Seal(s)
    ensures Seal(UpgradeStep(s, login, acknowledged))
  {
    if LoginAt(s, login, Verified) {
      LoginMoveKeepsSeal(s, login, UpgradeStep(s, login, acknowledged).logins[login]);
    }
  }

  lemma LoginEventKeepsSeal(s: State, event: Event)
    requires Inv(s) && Seal(s) && OfLogin(event)
    ensures Seal(Step(s, event))
  {
    match event
    case Verify(login, user, password) => VerifyKeepsSeal(s, login, user, password);
    case KeepHash(login) => KeepHashKeepsSeal(s, login);
    case UpgradeHash(login, acknowledged) => UpgradeKeepsSeal(s, login, acknowledged);
    case Issue(login, token, lifetime) => IssueKeepsSeal(s, login, token, lifetime);
    case Recheck(login, readable) => RecheckKeepsSeal(s, login, readable);
    case Withdraw(login, stored, lag) => WithdrawKeepsSeal(s, login, stored, lag);
  }

  /** The second revocation seals the sessions of every login that the installed hash outdates. */
  lemma RevokeKeepsSeal(s: State, reset: ResetId, before: ResetPc, after: ResetPc, lag: nat)
    requires Inv(s) && Seal(s)
    ensures Seal(RevokeStep(s, reset, before, after, lag))
  {
    if ResetAt(s, reset, before) {
      var user, reading := s.resets[reset].userId, Earlier(s.now, lag);
      var next := RevokeStep(s, reset, before, after, lag);
      OperationKeepsSeal(s, RevokeAll(user), reading);
      forall token | token in s.sessions && s.sessions[token].userId == user
        ensures !Active(next.sessions[token], s.now)
      {
        RevokeAllEnds(s.sessions, user, reading, s.now, token);
      }
    }
  }

  /** A reset that has not succeeded seals nothing yet. */
  lemma ResetMoveKeepsSeal(s: State, reset: ResetId, row: Reset)
    requires Seal(s) && row.pc != Succeeded
    ensures Sealed(s.origin, s.sessions, s.logins, s.resets[reset := row], s.now)
  {
  }

  lemma InstallKeepsSeal(s: State, reset: ResetId, password: Password)
    requires Inv(s) && Seal(s)
    ensures Seal(InstallStep(s, reset, password))
  {
    if ResetAt(s, reset, RevokedOnce) {
      ResetMoveKeepsSeal(s, reset, InstallStep(s, reset, password).resets[reset]);
    }
  }

  lemma ResetEventKeepsSeal(s: State, event: Event)
    requires Inv(s) && Seal(s) && OfReset(event)
    ensures Seal(Step(s, event))
  {
    match event
    case RevokeFirst(reset, lag) => RevokeKeepsSeal(s, reset, CodeConsumed, RevokedOnce, lag);
    case RevokeAgain(reset, lag) => RevokeKeepsSeal(s, reset, Installed, Succeeded, lag);
    case Install(reset, password) => InstallKeepsSeal(s, reset, password);
    case ConsumeCode(reset, user) => ResetMoveKeepsSeal(s, reset, Reset(user, None, CodeConsumed));
    case Abort(reset) =>
      if reset in s.resets {
        ResetMoveKeepsSeal(s, reset, s.resets[reset].(pc := Aborted));
      }
  }

  /** The token was handed out by a login that a succeeded reset has outdated. */
  predicate Outdated(s: State, token: TokenHash) {
    && token in s.origin && LoginAt(s, s.origin[token], Returned)
    && exists reset :: reset in s.resets && ResetAt(s, reset, Succeeded) && OlderThanReset(s.logins[s.origin[token]], s.resets[reset])
  }

  /** A rotation that commits is harmless if its token is still active at that moment, if the
      replacement has expired by then, or if nothing outdates the token's login. */
  predicate Harmless(s: State, event: Event) {
    event.RotateSession? && Commits(s, event.refresh, event.replacement) ==>
      var thread := s.refreshes[event.refresh];
      || Active(s.sessions[thread.token], s.now)
      || thread.reading + event.lifetime <= s.now
      || !Outdated(s, thread.token)
  }

  /** The rows that were there stay sealed; all depends on the replacement. */
  lemma RotateKeepsSeal(s: State, refresh: RefreshId, replacement: TokenHash, lifetime: nat)
    requires Inv(s) && Seal(s) && Commits(s, refresh, replacement)
    ensures Seal(RotateStep(s, refresh, replacement, lifetime)) <==> Harmless(s, RotateSession(refresh, replacement, lifetime))
  {
    var thread := s.refreshes[refresh];
    var next := RotateStep(s, refresh, replacement, lifetime);
    var op := Rotate(thread.token, replacement, thread.pc.userId, thread.reading + lifetime);
    OperationKeepsSeal(s, op, thread.reading);
    assert next.sessions[replacement] == Fresh(thread.pc.userId, thread.reading + lifetime);
    if Outdated(s, thread.token) && s.now < thread.reading + lifetime {
      var reset :| reset in s.resets && ResetAt(s, reset, Succeeded) && OlderThanReset(s.logins[s.origin[thread.token]], s.resets[reset]);
      assert !SealedAgainst(next.logins[next.origin[replacement]], next.sessions[replacement], next.resets[reset], next.now);
      assert SealedAgainst(s.logins[s.origin[thread.token]], s.sessions[thread.token], s.resets[reset], s.now);
    }
  }

  lemma StepKeepsSealExactlyWhenHarmless(s: State, event: Event)
    requires Inv(s) && Seal(s)
    ensures Seal(Step(s, event)) <==> Harmless(s, event)
  {
    if OfLogin(event) {
      LoginEventKeepsSeal(s, event);
    } else if OfReset(event) {
      ResetEventKeepsSeal(s, event);
    } else {
      match event
      case Tick(seconds) => AgingKeepsSeal(s, s.sessions, s.now + seconds);
      case Logout(token, lag) => OperationKeepsSeal(s, Revoke(token), Earlier(s.now, lag));
      case IssueVerified(user, token, lifetime) => OperationKeepsSeal(s, Create(token, user, s.now + lifetime), s.now);
      case RotateSession(refresh, replacement, lifetime) =>
        if Commits(s, refresh, replacement) {
          RotateKeepsSeal(s, refresh, replacement, lifetime);
        }
      case _ =>
    }
  }

  /** The seal in this state and after every step of the run. */
  predicate SealThroughout(s: State, events: seq<Event>)
    decreases |events|
  {
    Seal(s) && (events != [] ==> SealThroughout(Step(s, events[0]), events[1..]))
  }

  predicate HarmlessRun(s: State, events: seq<Event>)
    decreases |events|
  {
    events != [] ==> Harmless(s, events[0]) && HarmlessRun(Step(s, events[0]), events[1..])
  }

  /** Older logins stay ended exactly as long as no rotation commits with a reading at which its
      token was active although the token, of an outdated login, no longer is. */
  lemma {:induction false} SealHoldsExactlyWhenHarmless(s: State, events: seq<Event>)
    requires Inv(s) && Seal(s)
    ensures SealThroughout(s, events) <==> HarmlessRun(s, events)
    decreases |events|
  {
    if events != [] {
      StepKeepsInv(s, events[0]);
      StepKeepsSealExactlyWhenHarmless(s, events[0]);
      if Harmless(s, events[0]) {
        SealHoldsExactlyWhenHarmless(Step(s, events[0]), events[1..]);
      }
    }
  }

  lemma {:induction false} SealAtTheEnd(s: State, events: seq<Event>)
    requires SealThroughout(s, events)
    ensures Seal(Run(s, events))
    decreases |events|
  {
    if events != [] {
      SealAtTheEnd(Step(s, events[0]), events[1..]);
    }
  }

  /** Every returned token is known to descend from its login, and no token that descends from
      a login that returned after checking an older hash is usable. */
  ghost predicate OlderLoginsEnded(s: State, reset: ResetId) {
    && reset in s.resets
    && (forall login :: LoginAt(s, login, Returned) ==>
          s.logins[login].token in s.origin && s.origin[s.logins[login].token] == login)
    && (forall token :: token in s.origin ==>
          && s.origin[token] in s.logins
          && (LoginAt(s, s.origin[token], Returned)
              && OlderThanReset(s.logins[s.origin[token]], s.resets[reset])
              ==> !ActiveIn(s.sessions, token, s.now)))
  }

  /** After a reset has succeeded, nothing that descends from a login that checked an older
      hash and returned its token is usable, in any interleaving without a harmful rotation. */
  lemma ResetEndsOlderLogins(s: State, events: seq<Event>, reset: ResetId)
    requires Initial(s) && HarmlessRun(s, events)
    requires ResetAt(Run(s, events), reset, Succeeded)
    ensures OlderLoginsEnded(Run(s, events), reset)
  {
    RunKeepsInv(s, events);
    SealHoldsExactlyWhenHarmless(s, events);
    SealAtTheEnd(s, events);
    var end := Run(s, events);
    forall token | token in end.origin
      ensures end.origin[token] in end.logins
      ensures SealedAgainst(end.logins[end.origin[token]], end.sessions[token], end.resets[reset], end.now)
    {
    }
  }

  /** No event along the run installs a password for the user. */
  predicate NoInstallFor(s: State, events: seq<Event>, user: UserId)
    decreases |events|
  {
    events == [] ||
    (&& (events[0].Install? && events[0].reset in s.resets ==> s.resets[events[0].reset].userId != user)
     && NoInstallFor(Step(s, events[0]), events[1..], user))
  }

  lemma StepKeepsChosen(s: State, event: Event, user: UserId)
    requires user in s.accounts
    requires event.Install? && event.reset in s.resets ==> s.resets[event.reset].userId != user
    ensures user in Step(s, event).accounts && Step(s, event).accounts[user].chosen == s.accounts[user].chosen
  {
    if event.UpgradeHash? {
      UpgradeKeepsChosen(s, event.login, event.acknowledged, user);
    } else if event.Install? {
      assert Step(s, event) == InstallStep(s, event.reset, event.password);
    } else {
      OtherEventKeepsAccounts(s, event);
    }
  }

  lemma UpgradeKeepsChosen(s: State, login: LoginId, acknowledged: bool, user: UserId)
    requires user in s.accounts
    ensures user in UpgradeStep(s, login, acknowledged).accounts
    ensures UpgradeStep(s, login, acknowledged).accounts[user].chosen == s.accounts[user].chosen
  {
  }

  /** Only an upgrade and a reset's installation write an account. */
  lemma OtherEventKeepsAccounts(s: State, event: Event)
    requires !event.UpgradeHash? && !event.Install?
    ensures Step(s, event).accounts == s.accounts
  {
    if OfLogin(event) {
      LoginEventKeepsAccounts(s, event);
    }
  }

  lemma LoginEventKeepsAccounts(s: State, event: Event)
    requires OfLogin(event) && !event.UpgradeHash?
    ensures Step(s, event).accounts == s.accounts
  {
  }

  lemma {:induction false} ChosenPasswordStays(s: State, events: seq<Event>, user: UserId)
    requires user in s.accounts && NoInstallFor(s, events, user)
    ensures user in Run(s, events).accounts && Run(s, events).accounts[user].chosen == s.accounts[user].chosen
    decreases |events|
  {
    if events != [] {
      StepKeepsChosen(s, events[0], user);
      ChosenPasswordStays(Step(s, events[0]), events[1..], user);
    }
  }

  /** A password check accepts exactly the password that the account's owner chose last. */
  lemma VerifyAcceptsChosen(s: State, login: LoginId, user: UserId, attempt: Password)
    requires AccountsKnown(s.accounts, s.passwordOf, s.nextHash) && user in s.accounts && login !in s.logins
    ensures LoginAt(VerifyStep(s, login, user, attempt), login, Verified) <==> attempt == s.accounts[user].chosen
  {
  }

  /** Concurrent upgrades never bring an old password back: until the next reset of this
      user, a password check accepts exactly the password that the reset installed. */
  lemma UpgradesNeverUndoReset(
    s: State, reset: ResetId, password: Password, events: seq<Event>, login: LoginId, attempt: Password)
    requires Inv(s) && ResetAt(s, reset, RevokedOnce)
    requires NoInstallFor(InstallStep(s, reset, password), events, s.resets[reset].userId)
    ensures var end := Run(InstallStep(s, reset, password), events);
      login !in end.logins ==>
        (LoginAt(VerifyStep(end, login, s.resets[reset].userId, attempt), login, Verified) <==> attempt == password)
  {
    var user := s.resets[reset].userId;
    var installed := InstallStep(s, reset, password);
    assert installed.accounts[user] == Account(s.nextHash, password);
    InstallKeepsInv(s, reset, password);
    RunKeepsInv(installed, events);
    ChosenPasswordStays(installed, events, user);
    if login !in Run(installed, events).logins {
      VerifyAcceptsChosen(Run(installed, events), login, user, attempt);
    }
  }

  /** A login that nobody interferes with returns an active token. */
  lemma UncontestedLoginReturns(s: State, login: LoginId, user: UserId, token: TokenHash, lifetime: nat)
    requires Inv(s)
    requires login !in s.logins && user in s.accounts && token !in s.sessions && 0 < lifetime
    ensures
      var verified := VerifyStep(s, login, user, s.accounts[user].chosen);
      var issued := IssueStep(UpgradeStep(verified, login, true), login, token, lifetime);
      var end := RecheckStep(issued, login, true);
      LoginAt(end, login, Returned) && ActiveIn(end.sessions, token, end.now)
  {
  }

  lemma {:induction false} RunConcat(s: State, first: seq<Event>, second: seq<Event>)
    ensures Run(s, first + second) == Run(Run(s, first), second)
    decreases |first|
  {
    if first == [] {
      assert first + second == second;
    } else {
      assert (first + second)[0] == first[0] && (first + second)[1..] == first[1..] + second;
      RunConcat(Step(s, first[0]), first[1..], second);
    }
  }

  lemma RunThenStep(s: State, events: seq<Event>, event: Event)
    ensures Run(s, events + [event]) == Step(Run(s, events), event)
  {
    RunConcat(s, events, [event]);
  }
}
