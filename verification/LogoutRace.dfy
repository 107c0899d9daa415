/** A logout against the rotations of the same token (internal/auth/usecase/logout.go,
    internal/auth/usecase/refresh.go): when the session survives it. */
module LogoutRace {
  import opened Wrappers
  import opened AuthModel
  import opened AuthSafety
  import AuthVerified

  // ------------------------------------------------------ the rotation that wins

  lemma RotationSurvives(s: State, c: Id, r: Id, now: int, later: int, f: Id)
    requires SessionInv(s) && s.At(c).LoggingOut? && s.At(r).Ready? && s.At(r).token == s.At(c).token
    requires Live(s.tokens, s.At(c).token) && InFamily(s, s.At(c).token, f)
    ensures var t := Step(Step(s, RefreshRevoke(r, now)), LogoutRevoke(c, later));
            Holds(t, Rotation(r), f) && t.At(c) == Finished && !Unheld(t, f)
  {
    var mid := Step(s, RefreshRevoke(r, now));
    assert mid.At(r) == Rotating(s.At(r).token, s.At(r).user) && mid.At(c) == s.At(c);
    var t := Step(mid, LogoutRevoke(c, later));
    assert t.At(r) == mid.At(r) && t.family == s.family;
    assert Holds(t, Rotation(r), f);
  }

  /** In every reachable state: if a Refresh that has passed its checks revokes the token
      before the logout does, the logout reports success and the session goes on. */
  lemma {:induction false} LateLogoutMisses(actions: seq<Action>, c: Id, r: Id, now: int, later: int, f: Id)
    requires var s := Run(EMPTY, actions);
             && s.At(c).LoggingOut? && s.At(r).Ready? && s.At(r).token == s.At(c).token
             && Live(s.tokens, s.At(c).token) && InFamily(s, s.At(c).token, f)
    ensures var t := Run(EMPTY, actions + [RefreshRevoke(r, now)] + [LogoutRevoke(c, later)]);
            t.At(c) == Finished && !Unheld(t, f)
  {
    RunKeepsSessions(EMPTY, actions);
    AuthVerified.RunStep(EMPTY, actions, RefreshRevoke(r, now));
    AuthVerified.RunStep(EMPTY, actions + [RefreshRevoke(r, now)], LogoutRevoke(c, later));
    RotationSurvives(Run(EMPTY, actions), c, r, now, later, f);
  }

  // ----------------------------------------------------------- a run that does it

  const VERIFIED: User := AuthVerified.DRAFT.Verified(0)

  const RAW: Raw := Text("r")

  const SESSION: RefreshToken := RefreshToken(7, RAW, 100, None)

  /** A verified user logs in (call 10) and then logs out (call 12), while call 11 refreshes. */
  function LoggedIn10(): seq<Action> { [LoginFind(10, "a@b.c", Some(7), true)] + [LoginSave(10, 20, RAW, 100)] }

  function BothLookedUp(): seq<Action> {
    [LogoutFind(12, RAW, Some(20))] + [RefreshFind(11, RAW, 0, Some(20))] + [RefreshLoad(11)]
  }

  lemma AfterLogin(s: State)
    requires s.users == map[7 := VERIFIED] && s.tokens == map[] && s.family == map[] && 10 !in s.calls
    ensures Run(s, LoggedIn10())
         == s.(tokens := map[20 := SESSION], family := map[20 := 10]).Become(10, LoggedIn(20))
  {
    var find := LoginFind(10, "a@b.c", Some(7), true);
    AuthVerified.RunStep(s, [], find);
    assert [] + [find] == [find];
    AuthVerified.RunStep(s, [find], LoginSave(10, 20, RAW, 100));
  }

  lemma RefreshFinds(s: State)
    requires s.users == map[7 := VERIFIED] && s.tokens == map[20 := SESSION] && 11 !in s.calls
    ensures Step(Step(s, RefreshFind(11, RAW, 0, Some(20))), RefreshLoad(11)) == s.Become(11, Ready(20, 7))
  {
    var t := s.Become(11, Found(20, SESSION));
    assert Step(s, RefreshFind(11, RAW, 0, Some(20))) == t;
    assert Step(t, RefreshLoad(11)) == t.Become(11, Ready(20, 7));
    assert t.Become(11, Ready(20, 7)) == s.Become(11, Ready(20, 7));
  }

  lemma AfterLookups(s: State)
    requires s.users == map[7 := VERIFIED] && s.tokens == map[20 := SESSION] && 11 !in s.calls && 12 !in s.calls
    ensures Run(s, BothLookedUp()) == s.Become(12, LoggingOut(20)).Become(11, Ready(20, 7))
  {
    var first := [LogoutFind(12, RAW, Some(20))];
    AuthVerified.RunStep(s, [], first[0]);
    assert [] + [first[0]] == first;
    AuthVerified.RunStep(s, first, RefreshFind(11, RAW, 0, Some(20)));
    AuthVerified.RunStep(s, first + [RefreshFind(11, RAW, 0, Some(20))], RefreshLoad(11));
    RefreshFinds(s.Become(12, LoggingOut(20)));
  }

  function Verification(): seq<Action> { AuthVerified.RegisteredTwice() + AuthVerified.VerifiedBetween() }

  lemma AfterVerification()
    ensures Run(EMPTY, Verification()) == AuthVerified.TWICE.(users := map[7 := VERIFIED],
              emails := map[8 := AuthVerified.USED_TOKEN]).Become(3, VerifyDone(8))
  {
    AuthVerified.AfterRegisteredTwice();
    AuthVerified.AfterVerifiedBetween(AuthVerified.TWICE);
    RunConcat(EMPTY, AuthVerified.RegisteredTwice(), AuthVerified.VerifiedBetween());
  }

  function Race(): seq<Action> { Verification() + LoggedIn10() + BothLookedUp() }

  /** It does happen, in a run from the empty tables. */
  lemma LogoutCanMiss()
    ensures var s := Run(EMPTY, Race());
            && s.At(12) == LoggingOut(20) && s.At(11) == Ready(20, 7) && Live(s.tokens, 20) && InFamily(s, 20, 10)
    ensures var t := Run(EMPTY, Race() + [RefreshRevoke(11, 1)] + [LogoutRevoke(12, 2)]);
            t.At(12) == Finished && !Unheld(t, 10)
  {
    AfterVerification();
    RunConcat(EMPTY, Verification(), LoggedIn10());
    AfterLogin(Run(EMPTY, Verification()));
    RunConcat(EMPTY, Verification() + LoggedIn10(), BothLookedUp());
    AfterLookups(Run(EMPTY, Verification() + LoggedIn10()));
    LateLogoutMisses(Race(), 12, 11, 1, 2, 10);
  }

  // ---------------------------------------------------------- the exact condition

  /** Whatever the other calls do before the logout's revocation, it ends the session. */
  ghost predicate AlwaysEnds(s: State, c: Id, f: Id) {
    forall between, now :: Others(between, c) ==> Unheld(Step(Run(s, between), LogoutRevoke(c, now)), f)
  }

  ghost predicate Others(actions: seq<Action>, c: Id) { forall i :: 0 <= i < |actions| ==> actions[i].call != c }

  /** A Refresh of the token has passed its checks. */
  ghost predicate Checked(s: State, k: Id) { exists r :: ReadyFor(s, r, k) }

  predicate ReadyFor(s: State, r: Id, k: Id) { s.At(r).Ready? && s.At(r).token == k }

  /** A Refresh of the token can still pass them. */
  predicate Refreshable(s: State, k: Id)
    requires k in s.tokens
  {
    s.tokens[k].user in s.users && s.users[s.tokens[k].user].isActive
  }

  /** Only the token holds the family, and it will not be rotated. */
  ghost predicate Cornered(s: State, c: Id, k: Id, f: Id) {
    && s.At(c) == LoggingOut(k) && InFamily(s, k, f) && k in s.tokens && s.At(f).LoggedIn?
    && (forall h :: Holds(s, h, f) ==> h == Token(k)) && !Checked(s, k)
    && s.tokens[k].user in s.users && !Refreshable(s, k)
  }

  /** Nobody takes the family over. */
  ghost predicate StillCornered(s: State, t: State, k: Id, f: Id) {
    && InFamily(t, k, f) && k in s.tokens && k in t.tokens && t.tokens[k].user == s.tokens[k].user && t.At(f).LoggedIn?
    && forall h :: Holds(t, h, f) ==> h == Token(k)
  }


  lemma RotatesCorners(s: State, t: State, d: Id, i: Id, u: Id, now: int, k: Id, f: Id, c: Id)
    requires Cornered(s, c, k, f) && Rotates(s, t, d, i, u, now) && i != k
    ensures StillCornered(s, t, k, f)
  {
    forall h | Holds(t, h, f) ensures Holds(s, if h == Rotation(d) then Token(i) else h, f) {}
  }

  lemma SavesCorners(s: State, t: State, d: Id, i: Id, id: Id, row: RefreshToken, k: Id, f: Id, c: Id)
    requires SessionInv(s) && Cornered(s, c, k, f) && Saves(s, t, d, i, id, row)
    ensures StillCornered(s, t, k, f)
  {
    assert Spent(s, d, i) && !Holds(s, Rotation(d), f);
    forall h | Holds(t, h, f) ensures Holds(s, h, f) {
      if h.Rotation? && h.call != d {
        assert Spent(s, h.call, s.At(h.call).token);
      }
    }
  }

  lemma LogsInCorners(s: State, t: State, d: Id, id: Id, row: RefreshToken, k: Id, f: Id, c: Id)
    requires SessionInv(s) && Cornered(s, c, k, f) && LogsIn(s, t, d, id, row)
    ensures StillCornered(s, t, k, f)
  {
    forall h | Holds(t, h, f) ensures Holds(s, h, f) {
      if h.Rotation? {
        assert Spent(s, h.call, s.At(h.call).token);
      }
    }
  }

  lemma StepCorners(s: State, a: Action, k: Id, f: Id, c: Id)
    requires SessionInv(s) && Cornered(s, c, k, f)
    ensures StillCornered(s, Step(s, a), k, f)
  {
    var t, d := Step(s, a), a.call;
    StepEffect(s, a);
    if t == s {
    } else if pc :| Quiet(s, t, d, pc) {
      forall h | Holds(t, h, f) ensures Holds(s, h, f) {}
    } else if i, u, now :| Rotates(s, t, d, i, u, now) {
      assert !ReadyFor(s, d, k) && s.At(d).Ready? && s.At(d).token == i;
      RotatesCorners(s, t, d, i, u, now, k, f, c);
    } else if i, id, row :| Saves(s, t, d, i, id, row) {
      SavesCorners(s, t, d, i, id, row, k, f, c);
    } else {
      var id, row :| LogsIn(s, t, d, id, row);
      LogsInCorners(s, t, d, id, row, k, f, c);
    }
  }

  /** A Refresh passes its last check only for an active user. */
  lemma NewlyChecked(s: State, a: Action, r: Id, k: Id)
    requires AuthVerified.LocalsOk(s, s.At(a.call)) && k in s.tokens
    ensures ReadyFor(Step(s, a), r, k) ==> ReadyFor(s, r, k) || Refreshable(s, k)
  {}

  lemma StepKeepsCornered(s: State, a: Action, k: Id, f: Id, c: Id)
    requires SessionInv(s) && AuthVerified.VerifiedInv(s) && Cornered(s, c, k, f) && a.call != c
    ensures Cornered(Step(s, a), c, k, f)
  {
    var t := Step(s, a);
    StepCorners(s, a, k, f, c);
    assert AuthVerified.LocalsOk(s, s.At(a.call));
    forall r ensures !ReadyFor(t, r, k) {
      NewlyChecked(s, a, r, k);
      assert !ReadyFor(s, r, k);
    }
    AuthVerified.StepProgress(s, a);
    StepKeepsCall(s, a, c);
  }

  /** The foreign key from refresh tokens to users. */
  ghost predicate UsersKeyed(s: State) { forall t :: t in s.tokens ==> s.tokens[t].user in s.users }

  lemma UsersStay(s: State, a: Action)
    ensures s.users.Keys <= Step(s, a).users.Keys
  {}

  lemma NewTokensKeyed(s: State, a: Action, t: Id)
    requires t in Step(s, a).tokens
    ensures (t in s.tokens && Step(s, a).tokens[t].user == s.tokens[t].user) || Step(s, a).tokens[t].user in s.users
  {}

  lemma {:induction false} RunKeepsUsersKeyed(actions: seq<Action>)
    ensures UsersKeyed(Run(EMPTY, actions))
  {
    if actions != [] {
      var s, a := Run(EMPTY, actions[..|actions| - 1]), actions[|actions| - 1];
      RunKeepsUsersKeyed(actions[..|actions| - 1]);
      UsersStay(s, a);
      forall t | t in Step(s, a).tokens ensures Step(s, a).tokens[t].user in Step(s, a).users {
        NewTokensKeyed(s, a, t);
      }
    }
  }

  lemma {:induction false} RunKeepsCornered(s: State, actions: seq<Action>, k: Id, f: Id, c: Id)
    requires SessionInv(s) && AuthVerified.VerifiedInv(s) && Cornered(s, c, k, f) && Others(actions, c)
    ensures Cornered(Run(s, actions), c, k, f)
  {
    if actions != [] {
      var front := actions[..|actions| - 1];
      RunKeepsCornered(s, front, k, f, c);
      RunKeepsSessions(s, front);
      AuthVerified.RunKeepsVerified(s, front);
      StepKeepsCornered(Run(s, front), actions[|actions| - 1], k, f, c);
    }
  }

  lemma CorneredEnds(s: State, c: Id, k: Id, f: Id, now: int)
    requires Cornered(s, c, k, f)
    ensures Unheld(Step(s, LogoutRevoke(c, now)), f)
  {
    var t := Step(s, LogoutRevoke(c, now));
    forall h ensures !Holds(t, h, f) {
      assert Holds(t, h, f) ==> Holds(s, h, f);
    }
  }

  lemma LookedUpAndLoaded(s: State, d: Id, k: Id)
    requires d !in s.calls && Live(s.tokens, k) && Refreshable(s, k)
    ensures var row := s.tokens[k];
            Step(Step(s, RefreshFind(d, row.hash, row.expiresAt, Some(k))), RefreshLoad(d))
            == s.Become(d, Ready(k, row.user))
  {
    var row := s.tokens[k];
    var t := s.Become(d, Found(k, row));
    assert Step(s, RefreshFind(d, row.hash, row.expiresAt, Some(k))) == t;
    assert Step(t, RefreshLoad(d)) == t.Become(d, Ready(k, row.user));
    assert t.Become(d, Ready(k, row.user)) == s.Become(d, Ready(k, row.user));
  }

  lemma FreshRotationSurvives(s: State, c: Id, d: Id, k: Id, f: Id)
    requires SessionInv(s) && s.At(c) == LoggingOut(k) && InFamily(s, k, f) && Live(s.tokens, k)
    requires d !in s.calls && Refreshable(s, k)
    ensures !AlwaysEnds(s, c, f)
  {
    var row := s.tokens[k];
    var find, load, revoke :=
      RefreshFind(d, row.hash, row.expiresAt, Some(k)), RefreshLoad(d), RefreshRevoke(d, row.expiresAt);
    var between := [find] + [load] + [revoke];
    AuthVerified.RunStep(s, [], find);
    assert [] + [find] == [find];
    AuthVerified.RunStep(s, [find], load);
    AuthVerified.RunStep(s, [find] + [load], revoke);
    LookedUpAndLoaded(s, d, k);
    var t := s.Become(d, Ready(k, row.user));
    StepKeepsSessions(s, find);
    StepKeepsSessions(Step(s, find), load);
    RotationSurvives(t, c, d, row.expiresAt, 0, f);
    assert Others(between, c) && !Unheld(Step(Run(s, between), LogoutRevoke(c, 0)), f);
  }

  lemma CheckedRotationSurvives(s: State, c: Id, r: Id, k: Id, f: Id)
    requires SessionInv(s) && s.At(c) == LoggingOut(k) && InFamily(s, k, f) && Live(s.tokens, k) && ReadyFor(s, r, k)
    ensures !AlwaysEnds(s, c, f)
  {
    var between := [] + [RefreshRevoke(r, 0)];
    AuthVerified.RunStep(s, [], RefreshRevoke(r, 0));
    RotationSurvives(s, c, r, 0, 0, f);
    assert Others(between, c) && !Unheld(Step(Run(s, between), LogoutRevoke(c, 0)), f);
  }

  /** The exact condition. From any reachable state in which a logout is about to revoke a
      token that holds its session, the logout ends the session whatever the other calls do
      first if and only if no Refresh of the token has passed its checks and none can any
      more, because its user is not active. */
  lemma {:induction false} LogoutAlwaysEndsIff(actions: seq<Action>, c: Id, d: Id, k: Id, f: Id)
    requires var s := Run(EMPTY, actions);
             && s.At(c) == LoggingOut(k) && Live(s.tokens, k) && InFamily(s, k, f) && d !in s.calls
    ensures var s := Run(EMPTY, actions); AlwaysEnds(s, c, f) <==> !Checked(s, k) && !Refreshable(s, k)
  {
    var s := Run(EMPTY, actions);
    RunKeepsSessions(EMPTY, actions);
    AuthVerified.RunKeepsVerified(EMPTY, actions);
    if r :| ReadyFor(s, r, k) {
      CheckedRotationSurvives(s, c, r, k, f);
    } else if Refreshable(s, k) {
      FreshRotationSurvives(s, c, d, k, f);
    } else {
      RunKeepsUsersKeyed(actions);
      assert Holds(s, Token(k), f);
      forall between, now | Others(between, c) ensures Unheld(Step(Run(s, between), LogoutRevoke(c, now)), f) {
        RunKeepsCornered(s, between, k, f, c);
        CorneredEnds(Run(s, between), c, k, f, now);
      }
    }
  }
}
