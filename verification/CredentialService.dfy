/** The authentication service: the statements of a login, a refresh or a reset in program
    order, with arbitrary steps of other threads between them. */
module CredentialService {

  import opened Common
  import opened RefreshSessions
  import opened CredentialReset
  import opened CredentialEffects

  predicate LeavesLogin(event: Event, login: LoginId) {
    match event
    case Verify(other, _, _) => other != login
    case KeepHash(other) => other != login
    case UpgradeHash(other, _) => other != login
    case Issue(other, _, _) => other != login
    case Recheck(other, _) => other != login
    case Withdraw(other, _, _) => other != login
    case _ => true
  }

  predicate LeavesReset(event: Event, reset: ResetId) {
    match event
    case ConsumeCode(other, _) => other != reset
    case RevokeFirst(other, _) => other != reset
    case Install(other, _) => other != reset
    case RevokeAgain(other, _) => other != reset
    case Abort(other) => other != reset
    case _ => true
  }

  predicate LeavesRefresh(event: Event, refresh: RefreshId) {
    match event
    case StartRefresh(other, _) => other != refresh
    case FindSession(other) => other != refresh
    case RotateSession(other, _, _) => other != refresh
    case _ => true
  }

  lemma StepLeavesRefresh(s: State, event: Event, refresh: RefreshId)
    requires LeavesRefresh(event, refresh) && refresh in s.refreshes
    ensures refresh in Step(s, event).refreshes && Step(s, event).refreshes[refresh] == s.refreshes[refresh]
  {
    match event
    case RotateSession(other, replacement, lifetime) => RotateLeavesRefresh(s, other, replacement, lifetime, refresh);
    case _ =>
  }

  lemma RotateLeavesRefresh(s: State, other: RefreshId, replacement: TokenHash, lifetime: nat, refresh: RefreshId)
    requires other != refresh && refresh in s.refreshes
    ensures refresh in RotateStep(s, other, replacement, lifetime).refreshes
    ensures RotateStep(s, other, replacement, lifetime).refreshes[refresh] == s.refreshes[refresh]
  {
  }

  lemma StepLeavesLogin(s: State, event: Event, login: LoginId)
    requires LeavesLogin(event, login)
    ensures login in Step(s, event).logins <==> login in s.logins
    ensures login in s.logins ==> Step(s, event).logins[login] == s.logins[login]
  {
    if OfLogin(event) {
      LoginEventLeavesLogin(s, event, login);
    } else {
      OtherEventLeavesLogins(s, event);
    }
  }

  predicate SameExcept(before: map<LoginId, Login>, after: map<LoginId, Login>, changed: LoginId) {
    after.Keys <= before.Keys + {changed} && before.Keys <= after.Keys
    && forall login :: login in before && login != changed ==> after[login] == before[login]
  }

  lemma VerifyIsLocal(s: State, login: LoginId, user: UserId, password: Password)
    ensures SameExcept(s.logins, VerifyStep(s, login, user, password).logins, login)
  {
  }

  lemma KeepHashIsLocal(s: State, login: LoginId)
    ensures SameExcept(s.logins, Step(s, KeepHash(login)).logins, login)
  {
  }

  lemma UpgradeIsLocal(s: State, login: LoginId, acknowledged: bool)
    ensures SameExcept(s.logins, UpgradeStep(s, login, acknowledged).logins, login)
  {
    if LoginAt(s, login, Verified) {
      var after := UpgradeStep(s, login, acknowledged).logins;
      assert after == s.logins[login := after[login]];
    }
  }

  lemma IssueIsLocal(s: State, login: LoginId, token: TokenHash, lifetime: nat)
    ensures SameExcept(s.logins, IssueStep(s, login, token, lifetime).logins, login)
  {
  }

  lemma RecheckIsLocal(s: State, login: LoginId, readable: bool)
    ensures SameExcept(s.logins, RecheckStep(s, login, readable).logins, login)
  {
  }

  lemma WithdrawIsLocal(s: State, login: LoginId, stored: bool, lag: nat)
    ensures SameExcept(s.logins, WithdrawStep(s, login, stored, lag).logins, login)
  {
  }

  lemma LoginEventLeavesLogin(s: State, event: Event, login: LoginId)
    requires OfLogin(event) && LeavesLogin(event, login)
    ensures login in Step(s, event).logins <==> login in s.logins
    ensures login in s.logins ==> Step(s, event).logins[login] == s.logins[login]
  {
    match event
    case Verify(other, user, password) => VerifyIsLocal(s, other, user, password);
    case KeepHash(other) => KeepHashIsLocal(s, other);
    case UpgradeHash(other, acknowledged) => UpgradeIsLocal(s, other, acknowledged);
    case Issue(other, token, lifetime) => IssueIsLocal(s, other, token, lifetime);
    case Recheck(other, readable) => RecheckIsLocal(s, other, readable);
    case Withdraw(other, stored, lag) => WithdrawIsLocal(s, other, stored, lag);
  }

  lemma OtherEventLeavesLogins(s: State, event: Event)
    requires !OfLogin(event)
    ensures Step(s, event).logins == s.logins
  {
    if OfReset(event) {
      ResetEventLeavesLogins(s, event);
    } else {
      OpenEventLeavesThreads(s, event);
    }
  }

  lemma ResetEventLeavesLogins(s: State, event: Event)
    requires OfReset(event)
    ensures Step(s, event).logins == s.logins
  {
  }

  lemma LoginEventLeavesResets(s: State, event: Event)
    requires OfLogin(event)
    ensures Step(s, event).resets == s.resets
  {
  }

  /** Refreshes, single store calls and the clock. */
  lemma OpenEventLeavesThreads(s: State, event: Event)
    requires !OfLogin(event) && !OfReset(event)
    ensures Step(s, event).logins == s.logins && Step(s, event).resets == s.resets
  {
  }

  lemma StepLeavesReset(s: State, event: Event, reset: ResetId)
    requires LeavesReset(event, reset)
    ensures reset in Step(s, event).resets <==> reset in s.resets
    ensures reset in s.resets ==> Step(s, event).resets[reset] == s.resets[reset]
  {
    if OfReset(event) {
      ResetEventLeavesReset(s, event, reset);
    } else {
      OtherEventLeavesResets(s, event);
    }
  }

  lemma ResetEventLeavesReset(s: State, event: Event, reset: ResetId)
    requires OfReset(event) && LeavesReset(event, reset)
    ensures reset in Step(s, event).resets <==> reset in s.resets
    ensures reset in s.resets ==> Step(s, event).resets[reset] == s.resets[reset]
  {
    match event
    case RevokeFirst(other, lag) => RevocationLeavesReset(s, other, CodeConsumed, RevokedOnce, lag, reset);
    case RevokeAgain(other, lag) => RevocationLeavesReset(s, other, Installed, Succeeded, lag, reset);
    case Install(other, password) => InstallationLeavesReset(s, other, password, reset);
    case ConsumeCode(_, _) =>
    case Abort(_) =>
  }

  lemma RevocationLeavesReset(s: State, other: ResetId, before: ResetPc, after: ResetPc, lag: nat, reset: ResetId)
    requires other != reset
    ensures var next := RevokeStep(s, other, before, after, lag);
      (reset in next.resets <==> reset in s.resets) && (reset in s.resets ==> next.resets[reset] == s.resets[reset])
  {
  }

  lemma InstallationLeavesReset(s: State, other: ResetId, password: Password, reset: ResetId)
    requires other != reset
    ensures var next := InstallStep(s, other, password);
      (reset in next.resets <==> reset in s.resets) && (reset in s.resets ==> next.resets[reset] == s.resets[reset])
  {
  }

  /** Without a verified login its next statements do nothing. */
  lemma AbsentLoginStays(s: State, login: LoginId, legacy: bool, acknowledged: bool, token: TokenHash, lifetime: nat)
    requires login !in s.logins
    ensures Step(Step(s, if legacy then UpgradeHash(login, acknowledged) else KeepHash(login)), Issue(login, token, lifetime)) == s
  {
  }

  lemma OtherEventLeavesResets(s: State, event: Event)
    requires !OfReset(event)
    ensures Step(s, event).resets == s.resets
  {
    if OfLogin(event) {
      LoginEventLeavesResets(s, event);
    } else {
      OpenEventLeavesThreads(s, event);
    }
  }

  lemma StepKeepsAccountSet(s: State, event: Event)
    ensures Step(s, event).accounts.Keys == s.accounts.Keys
  {
    if event.UpgradeHash? {
      UpgradeKeepsAccountSet(s, event.login, event.acknowledged);
    } else if event.Install? {
      InstallKeepsAccountSet(s, event.reset, event.password);
    } else {
      OtherEventKeepsAccounts(s, event);
    }
  }

  lemma UpgradeKeepsAccountSet(s: State, login: LoginId, acknowledged: bool)
    ensures UpgradeStep(s, login, acknowledged).accounts.Keys == s.accounts.Keys
  {
  }

  lemma InstallKeepsAccountSet(s: State, reset: ResetId, password: Password)
    ensures InstallStep(s, reset, password).accounts.Keys == s.accounts.Keys
  {
  }

  predicate HashIs(s: State, user: UserId, hash: Hash) {
    user in s.accounts && s.accounts[user].hash == hash
  }

  /** A login's statements up to the stored session. */
  function Opening(
    login: LoginId, user: UserId, password: Password, legacy: bool, acknowledged: bool, token: TokenHash, lifetime: nat): seq<Event>
  {
    [Verify(login, user, password), if legacy then UpgradeHash(login, acknowledged) else KeepHash(login),
     Issue(login, token, lifetime)]
  }

  /** A reset's statements when `reaches` of its store calls succeed; `lags` are the ages of the
      readings that its two revocations carry. */
  function ResetScript(reset: ResetId, user: UserId, password: Password, reaches: nat, lags: (nat, nat)): seq<Event> {
    if reaches == 0 then [ConsumeCode(reset, user), Abort(reset)]
    else [ConsumeCode(reset, user), RevokeFirst(reset, lags.0)] + ClosingScript(reset, password, reaches, lags.1)
  }

  function ClosingScript(reset: ResetId, password: Password, reaches: nat, lag: nat): seq<Event> {
    if reaches < 2 then [Abort(reset)]
    else [Install(reset, password), if reaches == 2 then Abort(reset) else RevokeAgain(reset, lag)]
  }

  lemma AccountsStayKnown(initial: State, history: seq<Event>)
    requires Initial(initial)
    ensures var s := Run(initial, history); AccountsKnown(s.accounts, s.passwordOf, s.nextHash)
  {
    RunKeepsInv(initial, history);
  }

  /** The service as its callers see it: one thread's statements in program order, with
      any number of other threads' steps between them. */
  class AuthService {
    var state: State
    ghost const initial: State
    ghost var history: seq<Event>

    /** Everything that ever happened is one run of the machine. */
    ghost predicate Valid()
      reads this
    {
      Initial(initial) && state == Run(initial, history)
    }

    constructor (initial: State)
      requires Initial(initial)
      ensures Valid() && state == initial
    {
      state := initial;
      this.initial := initial;
      history := [];
    }

    /** The login's own steps so far. */
    ghost function StepsOf(login: LoginId): seq<Event>
      reads this
    {
      Filter(history, event => !LeavesLogin(event, login))
    }

    ghost function ResetStepsOf(reset: ResetId): seq<Event>
      reads this
    {
      Filter(history, event => !LeavesReset(event, reset))
    }

    method Perform(event: Event)
      requires Valid()
      modifies this
      ensures Valid() && history == old(history) + [event]
      ensures state == Step(old(state), event)
      ensures forall login :: StepsOf(login) == old(StepsOf(login)) + if LeavesLogin(event, login) then [] else [event]
      ensures forall reset :: ResetStepsOf(reset) == old(ResetStepsOf(reset)) + if LeavesReset(event, reset) then [] else [event]
    {
      RunThenStep(initial, history, event);
      forall login {
        FilterOne(history, event, other => !LeavesLogin(other, login));
      }
      forall reset {
        FilterOne(history, event, other => !LeavesReset(other, reset));
      }
      state := Step(state, event);
      history := history + [event];
    }

    /** Steps of other threads, none of them a step of the given login or reset. */
    method Interfere(others: seq<Event>, login: LoginId, reset: ResetId)
      requires Valid()
      requires forall event :: event in others ==> LeavesLogin(event, login) && LeavesReset(event, reset)
      modifies this
      ensures Valid() && history == old(history) + others
      ensures StepsOf(login) == old(StepsOf(login)) && ResetStepsOf(reset) == old(ResetStepsOf(reset))
      ensures login in old(state).logins <==> login in state.logins
      ensures login in state.logins ==> state.logins[login] == old(state).logins[login]
      ensures reset in old(state).resets <==> reset in state.resets
      ensures reset in state.resets ==> state.resets[reset] == old(state).resets[reset]
      ensures old(state).accounts.Keys == state.accounts.Keys
      ensures others == [] ==> state == old(state)
    {
      for i := 0 to |others|
        invariant Valid() && history == old(history) + others[..i]
        invariant StepsOf(login) == old(StepsOf(login)) && ResetStepsOf(reset) == old(ResetStepsOf(reset))
        invariant login in old(state).logins <==> login in state.logins
        invariant login in state.logins ==> state.logins[login] == old(state).logins[login]
        invariant reset in old(state).resets <==> reset in state.resets
        invariant reset in state.resets ==> state.resets[reset] == old(state).resets[reset]
        invariant old(state).accounts.Keys == state.accounts.Keys
        invariant i == 0 ==> state == old(state)
      {
        assert others[i] in others;
        StepLeavesLogin(state, others[i], login);
        StepLeavesReset(state, others[i], reset);
        StepKeepsAccountSet(state, others[i]);
        Perform(others[i]);
      }
    }

    method CheckPassword(login: LoginId, user: UserId, password: Password)
      requires Valid() && login !in state.logins
      modifies this
      ensures Valid() && StepsOf(login) == old(StepsOf(login)) + [Verify(login, user, password)]
      ensures login in state.logins <==> user in old(state).accounts && old(state).accounts[user].hash in old(state).passwordOf
                                         && old(state).passwordOf[old(state).accounts[user].hash] == password
      ensures login in state.logins ==> state.logins[login].pc == Verified && state.logins[login].userId == user
      ensures state == Step(old(state), Verify(login, user, password))
    {
      Perform(Verify(login, user, password));
    }

    method SettleHash(login: LoginId, legacy: bool, acknowledged: bool)
      requires Valid() && LoginAt(state, login, Verified)
      modifies this
      ensures Valid()
      ensures StepsOf(login) == old(StepsOf(login)) + [if legacy then UpgradeHash(login, acknowledged) else KeepHash(login)]
      ensures LoginAt(state, login, Prepared) && state.logins[login].userId == old(state).logins[login].userId
      ensures state == Step(old(state), if legacy then UpgradeHash(login, acknowledged) else KeepHash(login))
    {
      if legacy {
        Perform(UpgradeHash(login, acknowledged));
      } else {
        Perform(KeepHash(login));
      }
    }

    method IssueSession(login: LoginId, token: TokenHash, lifetime: nat)
      requires Valid() && LoginAt(state, login, Prepared)
      modifies this
      ensures Valid() && StepsOf(login) == old(StepsOf(login)) + [Issue(login, token, lifetime)]
      ensures login in state.logins && state.logins[login].userId == old(state).logins[login].userId
      ensures if token in old(state).sessions then state.logins[login].pc == Rejected
              else state.logins[login].pc == Issued && state.logins[login].token == token
      ensures state == Step(old(state), Issue(login, token, lifetime))
    {
      Perform(Issue(login, token, lifetime));
    }

    method RecheckHash(login: LoginId, readable: bool) returns (passed: bool)
      requires Valid() && LoginAt(state, login, Issued)
      modifies this
      ensures Valid() && StepsOf(login) == old(StepsOf(login)) + [Recheck(login, readable)]
      ensures LoginAt(state, login, if passed then Returned else Withdrawing)
      ensures state.logins[login] == old(state).logins[login].(pc := state.logins[login].pc)
      ensures passed == (readable && HashIs(old(state), old(state).logins[login].userId, old(state).logins[login].current))
    {
      Perform(Recheck(login, readable));
      passed := state.logins[login].pc == Returned;
    }

    method WithdrawSessions(login: LoginId, stored: bool, lag: nat)
      requires Valid() && LoginAt(state, login, Withdrawing)
      modifies this
      ensures Valid() && StepsOf(login) == old(StepsOf(login)) + [Withdraw(login, stored, lag)]
      ensures LoginAt(state, login, Rejected)
      ensures stored ==> NoActiveSession(state.sessions, old(state).logins[login].userId, state.now)
    {
      WithdrawalEndsSessions(state, login, stored, lag);
      Perform(Withdraw(login, stored, lag));
    }

    /** The recheck and, when it fails, the withdrawal of everything the user has. */
    method EnsureCredentialsUnchanged(login: LoginId, readable: bool, stored: bool, lag: nat, others: seq<Event>, idle: ResetId)
      returns (passed: bool)
      requires Valid() && LoginAt(state, login, Issued)
      requires forall event :: event in others ==> LeavesLogin(event, login) && LeavesReset(event, idle)
      modifies this
      ensures Valid()
      ensures StepsOf(login) == old(StepsOf(login)) + [Recheck(login, readable)] + if passed then [] else [Withdraw(login, stored, lag)]
      ensures LoginAt(state, login, if passed then Returned else Rejected)
      ensures passed ==> state.logins[login] == old(state).logins[login].(pc := Returned)
      ensures passed == (readable && HashIs(old(state), old(state).logins[login].userId, old(state).logins[login].current))
      ensures !passed && stored ==> NoActiveSession(state.sessions, old(state).logins[login].userId, state.now)
    {
      passed := RecheckHash(login, readable);
      if !passed {
        Interfere(others, login, idle);
        WithdrawSessions(login, stored, lag);
      }
    }

    /** Everything up to the stored session; says whether there is one. */
    method OpenSession(
      login: LoginId, user: UserId, password: Password, legacy: bool, acknowledged: bool, token: TokenHash, lifetime: nat,
      others: seq<seq<Event>>, idle: ResetId)
      returns (issued: bool)
      requires Valid() && login !in state.logins && |others| == 4
      requires forall i, event :: 0 <= i < 4 && event in others[i] ==> LeavesLogin(event, login) && LeavesReset(event, idle)
      modifies this
      ensures Valid() && !LoginAt(state, login, Returned)
      ensures !issued ==> login !in state.logins || LoginAt(state, login, Rejected)
      ensures issued ==> LoginAt(state, login, Issued) && state.logins[login].userId == user && state.logins[login].token == token
      ensures StepsOf(login) == old(StepsOf(login)) + Opening(login, user, password, legacy, acknowledged, token, lifetime)
              || (!issued && StepsOf(login) == old(StepsOf(login)) + [Verify(login, user, password)])
      ensures issued == LoginAt(state, login, Issued)
      ensures others[0] == others[1] == [] ==>
        state == SessionOpened(old(state), login, user, password, legacy, acknowledged, token, lifetime)
    {
      CheckPassword(login, user, password);
      if login !in state.logins {
        AbsentLoginStays(state, login, legacy, acknowledged, token, lifetime);
        return false;
      }
      Interfere(others[0], login, idle);
      SettleHash(login, legacy, acknowledged);
      Interfere(others[1], login, idle);
      IssueSession(login, token, lifetime);
      issued := state.logins[login].pc == Issued;
    }

    /** `legacy` says whether the stored hash asks for an upgrade and `acknowledged` whether its
        reply arrives; `readable` and `stored` whether the recheck's read and its revocation
        reach the stores; `lag` is the age of the
        reading that this revocation carries. Whatever happens in between, the login takes its own steps in
        program order, and it returns the token exactly when the recheck is the last one. */
    method Execute(
      login: LoginId, user: UserId, password: Password, legacy: bool, acknowledged: bool, token: TokenHash, lifetime: nat,
      others: seq<seq<Event>>, idle: ResetId, readable: bool, stored: bool, lag: nat)
      returns (result: Result<TokenHash, SessionError>)
      requires Valid() && login !in state.logins && |others| == 4
      requires forall i, event :: 0 <= i < 4 && event in others[i] ==> LeavesLogin(event, login) && LeavesReset(event, idle)
      modifies this
      ensures Valid()
      ensures var opening := old(StepsOf(login)) + Opening(login, user, password, legacy, acknowledged, token, lifetime);
        if result.Ok? then StepsOf(login) == opening + [Recheck(login, readable)]
        else StepsOf(login) in {old(StepsOf(login)) + [Verify(login, user, password)], opening,
                                opening + [Recheck(login, readable), Withdraw(login, stored, lag)]}
      ensures result.Ok? <==> LoginAt(state, login, Returned)
      ensures result.Err? ==> login !in state.logins || LoginAt(state, login, Rejected)
      ensures result.Ok? ==> result.value == state.logins[login].token == token && state.logins[login].userId == user
      ensures others[0] == others[1] == others[2] == [] ==>
        (result.Ok? <==>
           && user in old(state).accounts && password == old(state).accounts[user].chosen && token !in old(state).sessions
           && readable && (legacy ==> acknowledged))
    {
      AccountsStayKnown(initial, history);
      WouldReturn(state, login, user, password, legacy, acknowledged, token, lifetime);
      var issued := OpenSession(login, user, password, legacy, acknowledged, token, lifetime, others, idle);
      if !issued {
        return Err(InvalidRefreshToken);
      }
      Interfere(others[2], login, idle);
      ghost var opening := StepsOf(login);
      var passed := EnsureCredentialsUnchanged(login, readable, stored, lag, others[3], idle);
      assert opening + [Recheck(login, readable)] + [Withdraw(login, stored, lag)] == opening + [Recheck(login, readable), Withdraw(login, stored, lag)];
      assert passed ==> StepsOf(login) == opening + [Recheck(login, readable)];
      result := if passed then Ok(token) else Err(InvalidRefreshToken);
    }

    method Begin(reset: ResetId, user: UserId)
      requires Valid() && user in state.accounts && reset !in state.resets
      modifies this
      ensures Valid() && ResetStepsOf(reset) == old(ResetStepsOf(reset)) + [ConsumeCode(reset, user)]
      ensures ResetAt(state, reset, CodeConsumed) && state.resets[reset].userId == user
      ensures old(state).accounts.Keys == state.accounts.Keys
    {
      Perform(ConsumeCode(reset, user));
    }

    /** One step of a reset thread; a step whose store call fails aborts the reset. */
    method Advance(reset: ResetId, event: Event, before: ResetPc, after: ResetPc, works: bool)
      requires Valid() && ResetAt(state, reset, before) && state.resets[reset].userId in state.accounts
      requires !LeavesReset(event, reset)
      requires (before == CodeConsumed && after == RevokedOnce && event.RevokeFirst?)
               || (before == RevokedOnce && after == Installed && event.Install?)
               || (before == Installed && after == Succeeded && event.RevokeAgain?)
      modifies this
      ensures Valid() && ResetStepsOf(reset) == old(ResetStepsOf(reset)) + [if works then event else Abort(reset)]
      ensures ResetAt(state, reset, if works then after else Aborted)
      ensures state.resets[reset].userId == old(state).resets[reset].userId
      ensures old(state).accounts.Keys == state.accounts.Keys
    {
      if works {
        Perform(event);
      } else {
        Perform(Abort(reset));
      }
    }

    /** The code is consumed and everything is revoked once. */
    method OpenReset(reset: ResetId, user: UserId, others: seq<Event>, idle: LoginId, works: bool, lag: nat)
      requires Valid() && user in state.accounts && reset !in state.resets
      requires forall event :: event in others ==> LeavesLogin(event, idle) && LeavesReset(event, reset)
      modifies this
      ensures Valid()
      ensures ResetStepsOf(reset) == old(ResetStepsOf(reset))
              + [ConsumeCode(reset, user), if works then RevokeFirst(reset, lag) else Abort(reset)]
      ensures ResetAt(state, reset, if works then RevokedOnce else Aborted) && state.resets[reset].userId == user
      ensures old(state).accounts.Keys == state.accounts.Keys
    {
      Begin(reset, user);
      Interfere(others, idle, reset);
      Advance(reset, RevokeFirst(reset, lag), CodeConsumed, RevokedOnce, works);
    }

    /** The password is updated and everything is revoked again. */
    method CloseReset(reset: ResetId, password: Password, others: seq<Event>, idle: LoginId, reaches: nat, lag: nat)
      requires Valid() && ResetAt(state, reset, RevokedOnce) && state.resets[reset].userId in state.accounts
      requires forall event :: event in others ==> LeavesLogin(event, idle) && LeavesReset(event, reset)
      modifies this
      ensures Valid()
      ensures ResetStepsOf(reset) == old(ResetStepsOf(reset)) + ClosingScript(reset, password, reaches, lag)
      ensures ResetAt(state, reset, if 3 <= reaches then Succeeded else Aborted)
    {
      Advance(reset, Install(reset, password), RevokedOnce, Installed, 2 <= reaches);
      if reaches < 2 {
        return;
      }
      Interfere(others, idle, reset);
      Advance(reset, RevokeAgain(reset, lag), Installed, Succeeded, 3 <= reaches);
    }

    /** `reaches` is the number of store calls that succeed before one fails. */
    method RunReset(
      reset: ResetId, user: UserId, password: Password, others: seq<seq<Event>>, idle: LoginId, reaches: nat, lags: (nat, nat))
      returns (succeeded: bool)
      requires Valid() && user in state.accounts && reset !in state.resets && |others| == 3
      requires forall i, event :: 0 <= i < 3 && event in others[i] ==> LeavesLogin(event, idle) && LeavesReset(event, reset)
      modifies this
      ensures Valid() && (succeeded <==> 3 <= reaches)
      ensures ResetStepsOf(reset) == old(ResetStepsOf(reset)) + ResetScript(reset, user, password, reaches, lags)
      ensures succeeded <==> ResetAt(state, reset, Succeeded)
    {
      OpenReset(reset, user, others[0], idle, 1 <= reaches, lags.0);
      if reaches < 1 {
        return false;
      }
      Interfere(others[1], idle, reset);
      CloseReset(reset, password, others[2], idle, reaches, lags.1);
      succeeded := 3 <= reaches;
    }

    /** Whatever happens in between, a reset that succeeds has revoked, updated and revoked
        again, in this order, and without a harmful rotation it has ended what older logins had
        opened. */
    method ResetPassword(
      reset: ResetId, user: UserId, password: Password, others: seq<seq<Event>>, idle: LoginId, reaches: nat, lags: (nat, nat))
      returns (succeeded: bool)
      requires Valid() && user in state.accounts && reset !in state.resets && |others| == 3
      requires forall i, event :: 0 <= i < 3 && event in others[i] ==> LeavesLogin(event, idle) && LeavesReset(event, reset)
      modifies this
      ensures Valid() && (succeeded <==> 3 <= reaches)
      ensures ResetStepsOf(reset) == old(ResetStepsOf(reset)) + ResetScript(reset, user, password, reaches, lags)
      ensures succeeded && HarmlessRun(initial, history) ==> OlderLoginsEnded(state, reset)
    {
      succeeded := RunReset(reset, user, password, others, idle, reaches, lags);
      if succeeded && HarmlessRun(initial, history) {
        ResetEndsOlderLogins(initial, history, reset);
      }
    }

    /** The refresh's own steps so far. */
    ghost function RefreshStepsOf(refresh: RefreshId): seq<Event>
      reads this
    {
      Filter(history, event => !LeavesRefresh(event, refresh))
    }

    method PerformRefresh(event: Event, refresh: RefreshId)
      requires Valid()
      modifies this
      ensures Valid() && state == Step(old(state), event)
      ensures RefreshStepsOf(refresh) == old(RefreshStepsOf(refresh)) + if LeavesRefresh(event, refresh) then [] else [event]
    {
      FilterOne(history, event, other => !LeavesRefresh(other, refresh));
      Perform(event);
    }

    /** Steps of any other threads. */
    method InterfereRefresh(others: seq<Event>, refresh: RefreshId)
      requires Valid() && refresh in state.refreshes
      requires forall event :: event in others ==> LeavesRefresh(event, refresh)
      modifies this
      ensures Valid() && RefreshStepsOf(refresh) == old(RefreshStepsOf(refresh))
      ensures refresh in state.refreshes && state.refreshes[refresh] == old(state).refreshes[refresh]
      ensures others == [] ==> state == old(state)
    {
      for i := 0 to |others|
        invariant Valid() && RefreshStepsOf(refresh) == old(RefreshStepsOf(refresh))
        invariant refresh in state.refreshes && state.refreshes[refresh] == old(state).refreshes[refresh]
        invariant i == 0 ==> state == old(state)
      {
        assert others[i] in others;
        StepLeavesRefresh(state, others[i], refresh);
        PerformRefresh(others[i], refresh);
      }
    }

    /** Reads the clock and checks the token by that reading. */
    method Check(refresh: RefreshId, token: TokenHash, others: seq<Event>)
      requires Valid() && refresh !in state.refreshes
      requires forall event :: event in others ==> LeavesRefresh(event, refresh)
      modifies this
      ensures Valid() && RefreshStepsOf(refresh) == old(RefreshStepsOf(refresh)) + [StartRefresh(refresh, token), FindSession(refresh)]
      ensures refresh in state.refreshes && !state.refreshes[refresh].pc.Clocked?
      ensures state.refreshes[refresh] == Refreshing(token, old(state).now, state.refreshes[refresh].pc)
      ensures others == [] ==>
        && state.sessions == old(state).sessions
        && state.refreshes[refresh].pc == (if ActiveIn(old(state).sessions, token, old(state).now)
                                           then Checked(old(state).sessions[token].userId) else Over)
    {
      PerformRefresh(StartRefresh(refresh, token), refresh);
      InterfereRefresh(others, refresh);
      PerformRefresh(FindSession(refresh), refresh);
    }

    /** Rotates by the old reading. */
    method RotateChecked(refresh: RefreshId, replacement: TokenHash, lifetime: nat) returns (result: Result<TokenHash, SessionError>)
      requires Valid() && refresh in state.refreshes && state.refreshes[refresh].pc.Checked?
      modifies this
      ensures Valid() && RefreshStepsOf(refresh) == old(RefreshStepsOf(refresh)) + [RotateSession(refresh, replacement, lifetime)]
      ensures state == Step(old(state), RotateSession(refresh, replacement, lifetime))
      ensures refresh in state.refreshes && state.refreshes[refresh] == old(state).refreshes[refresh].(pc := Over)
      ensures result.Ok? <==> Commits(old(state), refresh, replacement)
      ensures result.Ok? ==> result.value == replacement && replacement in state.sessions
      ensures result.Ok? ==> state.sessions[replacement].expiresAt == state.refreshes[refresh].reading + lifetime
    {
      var commits := Commits(state, refresh, replacement);
      PerformRefresh(RotateSession(refresh, replacement, lifetime), refresh);
      result := if commits then Ok(replacement) else Err(InvalidRefreshToken);
    }

    /** One reading serves both the check and the rotation, with arbitrary steps of other threads
        in between. */
    method Refresh(refresh: RefreshId, token: TokenHash, replacement: TokenHash, lifetime: nat, others: seq<seq<Event>>)
      returns (result: Result<TokenHash, SessionError>, ghost before: State)
      requires Valid() && refresh !in state.refreshes && |others| == 2
      requires forall i, event :: 0 <= i < 2 && event in others[i] ==> LeavesRefresh(event, refresh)
      modifies this
      ensures Valid() && refresh in state.refreshes && state.refreshes[refresh] == Refreshing(token, old(state).now, Over)
      ensures var checked := old(RefreshStepsOf(refresh)) + [StartRefresh(refresh, token), FindSession(refresh)];
        || RefreshStepsOf(refresh) == checked + [RotateSession(refresh, replacement, lifetime)]
        || (result.Err? && RefreshStepsOf(refresh) == checked)
      ensures result.Ok? <==> Commits(before, refresh, replacement)
      ensures RefreshStepsOf(refresh) == old(RefreshStepsOf(refresh)) + [StartRefresh(refresh, token), FindSession(refresh)]
              || state == Step(before, RotateSession(refresh, replacement, lifetime))
      ensures result.Ok? ==> result.value == replacement && replacement in state.sessions
      ensures result.Ok? ==> state.sessions[replacement].expiresAt == old(state).now + lifetime
      ensures others == [[], []] ==> (result.Ok? <==> ActiveIn(old(state).sessions, token, old(state).now) && replacement !in old(state).sessions)
    {
      Check(refresh, token, others[0]);
      before := state;
      if state.refreshes[refresh].pc.Over? {
        result := Err(InvalidRefreshToken);
        return;
      }
      InterfereRefresh(others[1], refresh);
      before := state;
      result := RotateChecked(refresh, replacement, lifetime);
    }
  }
}
