/** A schedule in which a rotation comes too late: its reading of the clock lies within the
    grace of a token that both revocations of a reset have passed over as already dead. */
module LateRotation {

  import opened Common
  import opened RefreshSessions
  import opened CredentialReset

  const Before := State(0, map[1 := Account(0, "old")], map[0 := "old"], 1, map[], map[], map[], map[], map[])

  /** Login 0 returns token a. */
  const LogIn: seq<Event> := [Verify(0, 1, "old"), KeepHash(0), Issue(0, "a", 2_000), Recheck(0, true)]

  const Returning := Login(1, 0, 0, "a", Returned)

  const LoggedIn := Before.(sessions := map["a" := Fresh(1, 2_000)], origin := map["a" := 0], logins := map[0 := Returning])

  /** A first refresh rotates it, so that its grace ends at 30. */
  const RotateOnce: seq<Event> := [StartRefresh(0, "a"), FindSession(0), RotateSession(0, "b", 2_000)]

  const InGrace := Row(1, 2_000, Some(0), Some(0), Some(30))

  const RotatedOnce := LoggedIn.(
    sessions := map["a" := InGrace, "b" := Fresh(1, 2_000)], origin := map["a" := 0, "b" := 0],
    refreshes := map[0 := Refreshing("a", 0, Over)])

  /** A second refresh reads the clock and checks the token at 29, then waits. */
  const CheckAgain: seq<Event> := [Tick(29), StartRefresh(1, "a"), FindSession(1), Tick(2)]

  const CheckedAgain := RotatedOnce.(
    now := 31, refreshes := map[0 := Refreshing("a", 0, Over), 1 := Refreshing("a", 29, Checked(1))])

  /** A reset begins at 31 and succeeds at 32. */
  const ResetAll: seq<Event> := [ConsumeCode(0, 1), RevokeFirst(0, 0), Install(0, "new"), Tick(1), RevokeAgain(0, 0)]

  const Finished := CheckedAgain.(
    now := 32, accounts := map[1 := Account(1, "new")], passwordOf := map[0 := "old", 1 := "new"], nextHash := 2,
    sessions := map["a" := InGrace, "b" := Row(1, 2_000, None, Some(31), None)],
    resets := map[0 := Reset(1, Some(1), Succeeded)])

  lemma LogInRuns()
    ensures Run(Before, LogIn) == LoggedIn
  {
    var verified := Step(Before, LogIn[0]);
    var kept := Step(verified, LogIn[1]);
    var issued := Step(kept, LogIn[2]);
    assert verified == Before.(logins := map[0 := Login(1, 0, 0, "", Verified)]);
    assert kept == Before.(logins := map[0 := Login(1, 0, 0, "", Prepared)]);
    assert issued == LoggedIn.(logins := map[0 := Returning.(pc := Issued)]);
    assert Step(issued, LogIn[3]) == LoggedIn;
    FourSteps(Before, LogIn);
  }

  lemma FourSteps(s: State, events: seq<Event>)
    requires |events| == 4
    ensures Run(s, events) == Step(Step(Step(Step(s, events[0]), events[1]), events[2]), events[3])
  {
    assert events == [events[0]] + [events[1]] + [events[2]] + [events[3]];
    RunThenStep(s, [events[0]] + [events[1]] + [events[2]], events[3]);
    RunThenStep(s, [events[0]] + [events[1]], events[2]);
    RunThenStep(s, [events[0]], events[1]);
  }

  lemma RotateOnceRuns()
    ensures Run(LoggedIn, RotateOnce) == RotatedOnce
  {
    var started := Step(LoggedIn, RotateOnce[0]);
    var found := Step(started, RotateOnce[1]);
    assert started == LoggedIn.(refreshes := map[0 := Refreshing("a", 0, Clocked)]);
    assert found == LoggedIn.(refreshes := map[0 := Refreshing("a", 0, Checked(1))]);
    FirstRotation(found);
    RunThenStep(LoggedIn, [RotateOnce[0]] + [RotateOnce[1]], RotateOnce[2]);
    RunThenStep(LoggedIn, [RotateOnce[0]], RotateOnce[1]);
    assert RotateOnce == [RotateOnce[0]] + [RotateOnce[1]] + [RotateOnce[2]];
  }

  lemma FirstRotation(found: State)
    requires found == LoggedIn.(refreshes := map[0 := Refreshing("a", 0, Checked(1))])
    ensures RotateStep(found, 0, "b", 2_000) == RotatedOnce
  {
    assert Commits(found, 0, "b");
    assert Apply(found.sessions, Rotate("a", "b", 1, 2_000), 0) == RotatedOnce.sessions;
  }

  lemma CheckAgainRuns()
    ensures Run(RotatedOnce, CheckAgain) == CheckedAgain
  {
    var started := Step(Step(RotatedOnce, CheckAgain[0]), CheckAgain[1]);
    assert started == RotatedOnce.(now := 29, refreshes := map[0 := Refreshing("a", 0, Over), 1 := Refreshing("a", 29, Clocked)]);
    assert Step(Step(started, CheckAgain[2]), CheckAgain[3]) == CheckedAgain;
    FourSteps(RotatedOnce, CheckAgain);
  }

  const Revoked31: Table := map["a" := InGrace, "b" := Row(1, 2_000, None, Some(31), None)]

  const BegunReset := CheckedAgain.(sessions := Revoked31, resets := map[0 := Reset(1, None, RevokedOnce)])

  const InstalledHash := Finished.(now := 31, resets := map[0 := Reset(1, Some(1), Installed)])

  /** Both revocations leave the row of token a as it is. */
  lemma ResetBegins()
    ensures RevokeStep(CheckedAgain.(resets := map[0 := Reset(1, None, CodeConsumed)]), 0, CodeConsumed, RevokedOnce, 0) == BegunReset
  {
    assert Apply(CheckedAgain.sessions, RevokeAll(1), 31) == Revoked31;
  }

  lemma ResetInstalls()
    ensures InstallStep(BegunReset, 0, "new") == InstalledHash
  {
  }

  lemma ResetSucceeds()
    ensures RevokeStep(InstalledHash.(now := 32), 0, Installed, Succeeded, 0) == Finished
  {
    assert Apply(Revoked31, RevokeAll(1), 32) == Revoked31;
  }

  lemma CodeConsumed31()
    ensures Step(CheckedAgain, ResetAll[0]) == CheckedAgain.(resets := map[0 := Reset(1, None, CodeConsumed)])
  {
  }

  lemma FirstHalfRuns()
    ensures Run(CheckedAgain, ResetAll[..3]) == InstalledHash
  {
    CodeConsumed31();
    ResetBegins();
    ResetInstalls();
    assert ResetAll[..3] == [ResetAll[0]] + [ResetAll[1]] + [ResetAll[2]];
    RunThenStep(CheckedAgain, [ResetAll[0]] + [ResetAll[1]], ResetAll[2]);
    RunThenStep(CheckedAgain, [ResetAll[0]], ResetAll[1]);
  }

  lemma ResetAllRuns()
    ensures Run(CheckedAgain, ResetAll) == Finished
  {
    FirstHalfRuns();
    ResetSucceeds();
    assert Step(InstalledHash, ResetAll[3]) == InstalledHash.(now := 32);
    assert ResetAll == ResetAll[..3] + [ResetAll[3]] + [ResetAll[4]];
    RunThenStep(CheckedAgain, ResetAll[..3] + [ResetAll[3]], ResetAll[4]);
    RunThenStep(CheckedAgain, ResetAll[..3], ResetAll[3]);
  }

  const Schedule: seq<Event> := LogIn + RotateOnce + CheckAgain + ResetAll

  lemma ScheduleRuns()
    ensures Run(Before, Schedule) == Finished
  {
    LogInRuns();
    RotateOnceRuns();
    CheckAgainRuns();
    ResetAllRuns();
    RunConcat(Before, LogIn, RotateOnce);
    RunConcat(Before, LogIn + RotateOnce, CheckAgain);
    RunConcat(Before, LogIn + RotateOnce + CheckAgain, ResetAll);
  }

  const Late := Finished.(
    sessions := map["a" := InGrace.(revokedAt := Some(29), lastUsedAt := Some(29)), "b" := Revoked31["b"], "c" := Fresh(1, 2_029)],
    origin := map["a" := 0, "b" := 0, "c" := 0],
    refreshes := map[0 := Refreshing("a", 0, Over), 1 := Refreshing("a", 29, Over)])

  lemma LateRotationCommits()
    ensures RotateStep(Finished, 1, "c", 2_000) == Late
  {
    assert Commits(Finished, 1, "c");
    assert Apply(Finished.sessions, Rotate("a", "c", 1, 2_029), 29) == Late.sessions;
  }

  lemma LateIsHarmful()
    ensures !Harmless(Finished, RotateSession(1, "c", 2_000)) && OlderLoginsEnded(Finished, 0) && !OlderLoginsEnded(Late, 0)
  {
    assert OlderThanReset(Finished.logins[0], Finished.resets[0]);
    assert Late.origin["c"] == 0 && ActiveIn(Late.sessions, "c", Late.now);
  }

  lemma LateRuns()
    ensures Run(Before, Schedule + [RotateSession(1, "c", 2_000)]) == Late
  {
    ScheduleRuns();
    RunThenStep(Before, Schedule, RotateSession(1, "c", 2_000));
    LateRotationCommits();
  }

  /** The reset has ended the older login; then the second refresh rotates by its reading of 29,
      and the login has an active token again. */
  lemma LateRotationRevivesOlderLogin()
    ensures Initial(Before)
    ensures ResetAt(Run(Before, Schedule), 0, Succeeded) && OlderLoginsEnded(Run(Before, Schedule), 0)
    ensures !Harmless(Run(Before, Schedule), RotateSession(1, "c", 2_000))
    ensures var end := Run(Before, Schedule + [RotateSession(1, "c", 2_000)]);
      ResetAt(end, 0, Succeeded) && ActiveIn(end.sessions, "c", end.now) && !OlderLoginsEnded(end, 0)
  {
    ScheduleRuns();
    LateRuns();
    LateIsHarmful();
  }
}
