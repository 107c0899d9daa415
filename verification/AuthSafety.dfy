/** Token rotation: what every interleaving of Login, Refresh and Logout calls keeps. */
module AuthSafety {
  import opened Wrappers
  import opened AuthModel

  /** A family is held by its unrevoked tokens, and by the Refresh calls that have
      revoked one of its tokens and not yet saved the successor. */
  datatype Holder = Token(token: Id) | Rotation(call: Id)

  ghost predicate Holds(s: State, h: Holder, family: Id) {
    match h
    case Token(t) => t in s.family && s.family[t] == family && Live(s.tokens, t)
    case Rotation(c) =>
      s.At(c).Rotating? && s.At(c).token in s.family && s.family[s.At(c).token] == family
  }

  /** Call `c` has revoked token `k` to rotate it. */
  ghost predicate Spent(s: State, c: Id, k: Id) {
    (s.At(c).Rotating? || s.At(c).Refreshed?) && s.At(c).token == k
  }

  /** Call `c` has replaced token `k` by token `n`. */
  ghost predicate Replaced(s: State, c: Id, k: Id, n: Id) {
    s.At(c) == Refreshed(k, n)
  }

  ghost predicate Keyed(s: State) {
    && s.family.Keys == s.tokens.Keys
    && (forall t, f :: InFamily(s, t, f) ==> s.At(f).LoggedIn?)
  }

  ghost predicate InFamily(s: State, t: Id, f: Id) { t in s.family && s.family[t] == f }

  ghost predicate OneHolder(s: State) {
    forall h, g, f :: Holds(s, h, f) && Holds(s, g, f) ==> h == g
  }

  ghost predicate SpentOnce(s: State) {
    && (forall c, k :: Spent(s, c, k) ==> k in s.tokens && !Live(s.tokens, k))
    && (forall c, d, k :: Spent(s, c, k) && Spent(s, d, k) ==> c == d)
  }

  ghost predicate Linear(s: State) {
    && (forall c, k, n :: Replaced(s, c, k, n) ==> n in s.tokens && k in s.family && InFamily(s, n, s.family[k]))
    && (forall c, d, j, k, n :: Replaced(s, c, j, n) && Replaced(s, d, k, n) ==> c == d)
  }

  ghost predicate SessionInv(s: State) {
    Keyed(s) && OneHolder(s) && SpentOnce(s) && Linear(s)
  }

  // ------------------------------------------- the four effects a step can have

  /** Tokens end, and change in nothing else. */
  ghost predicate OnlyEnds(before: RefreshTokens, after: RefreshTokens) {
    && after.Keys == before.Keys
    && forall k :: k in before ==> after[k].user == before[k].user && (Live(after, k) ==> Live(before, k))
  }

  /** Only a call's own progress, and perhaps a token's end and other tables. */
  ghost predicate Quiet(s: State, t: State, c: Id, pc: Call) {
    && OnlyEnds(s.tokens, t.tokens) && t.family == s.family && t.calls == s.calls[c := pc]
    && !s.At(c).LoggedIn? && !pc.Rotating? && !pc.Refreshed?
  }

  ghost predicate Rotates(s: State, t: State, c: Id, k: Id, u: Id, now: int) {
    && Live(s.tokens, k) && s.At(c).Ready?
    && t.tokens == Revoked(s.tokens, k, now) && t.family == s.family && t.calls == s.calls[c := Rotating(k, u)]
  }

  ghost predicate Saves(s: State, t: State, c: Id, k: Id, id: Id, row: RefreshToken) {
    && s.At(c).Rotating? && s.At(c).token == k
    && id !in s.tokens && row.revokedAt == None && row.user == s.At(c).user
    && t.tokens == s.tokens[id := row] && t.family == Inherited(s.family, k, id)
    && t.calls == s.calls[c := Refreshed(k, id)]
  }

  ghost predicate LogsIn(s: State, t: State, c: Id, id: Id, row: RefreshToken) {
    && s.At(c).LoggingIn?
    && id !in s.tokens && row.revokedAt == None
    && t.tokens == s.tokens[id := row] && t.family == s.family[id := c]
    && t.calls == s.calls[c := LoggedIn(id)]
  }

  ghost predicate Unheld(s: State, f: Id) { forall h :: !Holds(s, h, f) }

  /** A login stays a login, and a family without a holder does not get one. */
  ghost predicate NoRevival(s: State, t: State) {
    forall f :: s.At(f).LoggedIn? ==> t.At(f).LoggedIn? && (Unheld(s, f) ==> Unheld(t, f))
  }

  lemma QuietKeeps(s: State, t: State, c: Id, pc: Call)
    requires SessionInv(s) && Quiet(s, t, c, pc)
    ensures SessionInv(t)
    ensures NoRevival(s, t)
  {
    forall h, f | Holds(t, h, f) ensures Holds(s, h, f) {}
    forall d, k | Spent(t, d, k) ensures Spent(s, d, k) {}
    forall d, k, n | Replaced(t, d, k, n) ensures Replaced(s, d, k, n) {}
    forall i, f | InFamily(t, i, f) ensures t.At(f).LoggedIn? {
      assert InFamily(s, i, f);
    }
  }

  lemma RotatesKeeps(s: State, t: State, c: Id, k: Id, u: Id, now: int)
    requires SessionInv(s) && Rotates(s, t, c, k, u, now)
    ensures SessionInv(t)
    ensures NoRevival(s, t)
  {
    forall h, f | Holds(t, h, f)
      ensures Holds(s, if h == Rotation(c) then Token(k) else h, f) && h != Token(k)
    {}
    forall d, i | Spent(t, d, i) ensures if d == c then i == k && !Spent(s, d, i) else Spent(s, d, i) {}
    forall d, i, n | Replaced(t, d, i, n) ensures Replaced(s, d, i, n) {}
    forall i, f | InFamily(t, i, f) ensures t.At(f).LoggedIn? {
      assert InFamily(s, i, f);
    }
  }

  lemma SavesKeeps(s: State, t: State, c: Id, k: Id, id: Id, row: RefreshToken)
    requires SessionInv(s) && Saves(s, t, c, k, id, row)
    ensures SessionInv(t)
    ensures NoRevival(s, t)
  {
    assert Spent(s, c, k);
    forall h, f | Holds(t, h, f)
      ensures Holds(s, if h == Token(id) then Rotation(c) else h, f) && h != Rotation(c)
    {
      if h.Rotation? && h.call != c {
        assert Spent(s, h.call, s.At(h.call).token);
      }
    }
    forall d, i | Spent(t, d, i) ensures Spent(s, d, i) {}
    forall d, i, n | Replaced(t, d, i, n)
      ensures if d == c then i == k && n == id else Replaced(s, d, i, n) && n != id
    {
      if d != c {
        assert Replaced(s, d, i, n);
      }
    }
    forall i, f | InFamily(t, i, f) ensures if i == id then f == s.family[k] else InFamily(s, i, f) {}
    assert InFamily(s, k, s.family[k]);
    forall d, i, n | Replaced(t, d, i, n) ensures i in t.family && InFamily(t, n, t.family[i]) {
      if d != c {
        assert Replaced(s, d, i, n);
        assert InFamily(s, n, s.family[i]);
      }
    }
  }

  lemma LogsInKeeps(s: State, t: State, c: Id, id: Id, row: RefreshToken)
    requires SessionInv(s) && LogsIn(s, t, c, id, row)
    ensures SessionInv(t)
    ensures NoRevival(s, t)
  {
    forall i, f | InFamily(t, i, f) ensures if i == id then f == c else InFamily(s, i, f) && f != c {
      if i != id {
        assert InFamily(s, i, f);
      }
    }
    forall h, f | Holds(t, h, f) ensures if h == Token(id) then f == c else Holds(s, h, f) && f != c {
      if h.Rotation? {
        assert Spent(s, h.call, s.At(h.call).token);
        assert InFamily(s, s.At(h.call).token, f);
      } else if h.token != id {
        assert InFamily(s, h.token, f);
      }
    }
    forall d, i | Spent(t, d, i) ensures Spent(s, d, i) {}
    forall d, i, n | Replaced(t, d, i, n) ensures Replaced(s, d, i, n) {}
    forall d, i, n | Replaced(t, d, i, n) ensures n in t.tokens && i in t.family && InFamily(t, n, t.family[i]) {
      assert Replaced(s, d, i, n);
      assert InFamily(s, n, s.family[i]);
      assert Spent(s, d, i);
    }
  }

  // ------------------------------------------------------------ every step

  ghost predicate Effect(s: State, t: State, c: Id) {
    || t == s
    || (exists pc :: Quiet(s, t, c, pc))
    || (exists k, u, now :: Rotates(s, t, c, k, u, now))
    || (exists k, id, row :: Saves(s, t, c, k, id, row))
    || (exists id, row :: LogsIn(s, t, c, id, row))
  }

  lemma MoveEffect(s: State, users: Users, emails: EmailTokens, c: Id, pc: Call)
    requires !s.At(c).LoggedIn? && !pc.Rotating? && !pc.Refreshed?
    ensures Effect(s, s.(users := users, emails := emails).Become(c, pc), c)
  {
    assert Quiet(s, s.(users := users, emails := emails).Become(c, pc), c, pc);
  }

  lemma RotateEffect(s: State, c: Id, now: int)
    requires s.At(c).Ready?
    ensures Effect(s, Rotate(s, c, now), c)
  {
    var Ready(k, u) := s.At(c);
    if Live(s.tokens, k) {
      assert Rotates(s, Rotate(s, c, now), c, k, u, now);
    } else {
      MoveEffect(s, s.users, s.emails, c, Failed);
    }
  }

  lemma SaveEffect(s: State, c: Id, id: Id, raw: Raw, exp: int)
    requires s.At(c).Rotating?
    ensures Effect(s, SaveSuccessor(s, c, id, raw, exp), c)
  {
    var Rotating(k, u) := s.At(c);
    var row := RefreshToken(u, raw, exp, None);
    if TokenInsertable(s.tokens, s.users, id, row) {
      assert Saves(s, SaveSuccessor(s, c, id, raw, exp), c, k, id, row);
    } else {
      MoveEffect(s, s.users, s.emails, c, Failed);
    }
  }

  lemma LoginEffect(s: State, c: Id, id: Id, raw: Raw, exp: int)
    requires s.At(c).LoggingIn?
    ensures Effect(s, SaveSession(s, c, id, raw, exp), c)
  {
    var row := RefreshToken(s.At(c).user, raw, exp, None);
    if TokenInsertable(s.tokens, s.users, id, row) {
      assert LogsIn(s, SaveSession(s, c, id, raw, exp), c, id, row);
    } else {
      MoveEffect(s, s.users, s.emails, c, Failed);
    }
  }

  lemma ClaimEffect(s: State, c: Id)
    requires s.At(c).Claiming?
    ensures Effect(s, Claim(s, c), c)
  {
    var Claiming(e, u, copy) := s.At(c);
    if Unused(s.emails, e) {
      MoveEffect(s, s.users, Used(s.emails, e), c, Claimed(e, u, copy));
    } else {
      MoveEffect(s, s.users, s.emails, c, Failed);
    }
  }

  lemma InsertUserEffect(s: State, c: Id, id: Id)
    requires s.At(c).Registering?
    ensures Effect(s, InsertUser(s, c, id), c)
  {
    MoveEffect(s, s.users[id := s.At(c).draft], s.emails, c, Inviting(id));
    MoveEffect(s, s.users, s.emails, c, Failed);
  }

  lemma InviteEffect(s: State, c: Id, id: Id, text: string, exp: int)
    requires s.At(c).Inviting?
    ensures Effect(s, Invite(s, c, id, text, exp), c)
  {
    MoveEffect(s, s.users, s.emails[id := EmailToken(s.At(c).user, text, exp, false)], c, Finished);
    MoveEffect(s, s.users, s.emails, c, Failed);
  }

  lemma StepEffect(s: State, a: Action)
    ensures Effect(s, Step(s, a), a.call)
  {
    var c := a.call;
    if Step(s, a) != s {
      match a
      case RefreshFind(_, _, now, row) => MoveEffect(s, s.users, s.emails, c, LookedUp(s, row, now));
      case RefreshLoad(_) => MoveEffect(s, s.users, s.emails, c, Loaded(s, c));
      case RefreshRevoke(_, now) => RotateEffect(s, c, now);
      case RefreshSave(_, id, raw, exp) => SaveEffect(s, c, id, raw, exp);
      case VerifyFind(_, _, now, row) => MoveEffect(s, s.users, s.emails, c, EmailLookedUp(s, row, now));
      case VerifyLoad(_, now) => MoveEffect(s, s.users, s.emails, c, UserLoaded(s, c, now));
      case VerifyMark(_) => ClaimEffect(s, c);
      case VerifyWrite(_) =>
        MoveEffect(s, UserUpdated(s.users, s.At(c).user, s.At(c).copy), s.emails, c, Step(s, a).At(c));
      case RegisterFind(_, _, row, hash, name, draft) =>
        MoveEffect(s, s.users, s.emails, c, Existing(s, row, hash, name, draft));
      case RegisterUpdate(_) =>
        MoveEffect(s, UserUpdated(s.users, s.At(c).user, s.At(c).copy), s.emails, c, Step(s, a).At(c));
      case RegisterInsert(_, id) => InsertUserEffect(s, c, id);
      case RegisterInvite(_, id, text, exp) => InviteEffect(s, c, id, text, exp);
      case LoginFind(_, _, row, proven) => MoveEffect(s, s.users, s.emails, c, Authenticated(s, row, proven));
      case LoginSave(_, id, raw, exp) => LoginEffect(s, c, id, raw, exp);
      case LogoutFind(_, _, row) =>
        MoveEffect(s, s.users, s.emails, c, if row.Some? then LoggingOut(row.value) else Finished);
      case LogoutRevoke(_, now) => assert Quiet(s, EndSession(s, c, now), c, Finished);
      case Abort(_) => MoveEffect(s, s.users, s.emails, c, Failed);
    }
  }

  // ------------------------------------------------- other calls

  lemma EffectKeepsCall(s: State, t: State, c: Id, me: Id)
    requires Effect(s, t, c) && c != me
    ensures t.At(me) == s.At(me) && (me in t.calls <==> me in s.calls)
  {}

  lemma StepKeepsCall(s: State, a: Action, me: Id)
    requires a.call != me
    ensures Step(s, a).At(me) == s.At(me) && (me in Step(s, a).calls <==> me in s.calls)
  {
    StepEffect(s, a);
    EffectKeepsCall(s, Step(s, a), a.call, me);
  }

  lemma {:induction false} OthersKeepCall(s: State, actions: seq<Action>, me: Id)
    requires forall i :: 0 <= i < |actions| ==> actions[i].call != me
    ensures Run(s, actions).At(me) == s.At(me) && (me in Run(s, actions).calls <==> me in s.calls)
  {
    if actions != [] {
      OthersKeepCall(s, actions[..|actions| - 1], me);
      StepKeepsCall(Run(s, actions[..|actions| - 1]), actions[|actions| - 1], me);
    }
  }

  /** Every step keeps the invariant, and only a login call's own save can give
      a family its first holder. */
  lemma StepKeepsSessions(s: State, a: Action)
    requires SessionInv(s)
    ensures SessionInv(Step(s, a))
    ensures NoRevival(s, Step(s, a))
  {
    var t, c := Step(s, a), a.call;
    StepEffect(s, a);
    if t == s {
    } else if pc :| Quiet(s, t, c, pc) {
      QuietKeeps(s, t, c, pc);
    } else if k, u, now :| Rotates(s, t, c, k, u, now) {
      RotatesKeeps(s, t, c, k, u, now);
    } else if k, id, row :| Saves(s, t, c, k, id, row) {
      SavesKeeps(s, t, c, k, id, row);
    } else {
      var id, row :| LogsIn(s, t, c, id, row);
      LogsInKeeps(s, t, c, id, row);
    }
  }

  lemma {:induction false} RunKeepsSessions(s: State, actions: seq<Action>)
    requires SessionInv(s)
    ensures SessionInv(Run(s, actions))
  {
    if actions != [] {
      var front := actions[..|actions| - 1];
      RunKeepsSessions(s, front);
      StepKeepsSessions(Run(s, front), actions[|actions| - 1]);
    }
  }

  // ---------------------------------------------------------- main theorems

  ghost function LiveIn(s: State, f: Id): set<Id> {
    set t | t in s.family && Holds(s, Token(t), f)
  }

  ghost function RotatingIn(s: State, f: Id): set<Id> {
    set c | c in s.calls && Holds(s, Rotation(c), f)
  }

  lemma AtMostOne(ids: set<Id>)
    requires forall i, j :: i in ids && j in ids ==> i == j
    ensures |ids| <= 1
  {
    if i :| i in ids {
      assert ids == {i};
    }
  }

  /** In every reachable state a family's unrevoked tokens and its rotations in
      flight number at most one. */
  lemma OneHolderPerFamily(actions: seq<Action>, f: Id)
    ensures |LiveIn(Run(EMPTY, actions), f)| + |RotatingIn(Run(EMPTY, actions), f)| <= 1
  {
    var s := Run(EMPTY, actions);
    RunKeepsSessions(EMPTY, actions);
    var live, rotating := LiveIn(s, f), RotatingIn(s, f);
    forall t, u | t in live && u in live ensures t == u {
      assert Token(t) == Token(u);
    }
    forall c, d | c in rotating && d in rotating ensures c == d {
      assert Rotation(c) == Rotation(d);
    }
    AtMostOne(live);
    AtMostOne(rotating);
    if t :| t in live {
      forall c ensures c !in rotating {}
      assert rotating == {};
    } else {
      assert live == {};
    }
  }

  /** Two successful Refresh calls on one token, or with one result, are the same
      call: a token has at most one successor, and succeeds at most one token. */
  lemma {:induction false} RotationIsLinear(actions: seq<Action>, c: Id, d: Id)
    requires Run(EMPTY, actions).At(c).Refreshed? && Run(EMPTY, actions).At(d).Refreshed?
    requires var s := Run(EMPTY, actions);
             s.At(c).token == s.At(d).token || s.At(c).successor == s.At(d).successor
    ensures c == d
  {
    RunKeepsSessions(EMPTY, actions);
    var s := Run(EMPTY, actions);
    assert Spent(s, c, s.At(c).token) && Spent(s, d, s.At(d).token);
    assert Replaced(s, c, s.At(c).token, s.At(c).successor) && Replaced(s, d, s.At(d).token, s.At(d).successor);
  }

  lemma {:induction false} EndedStaysEnded(s: State, actions: seq<Action>, f: Id)
    requires SessionInv(s) && s.At(f).LoggedIn? && Unheld(s, f)
    ensures Run(s, actions).At(f).LoggedIn? && Unheld(Run(s, actions), f)
  {
    if actions != [] {
      var front := actions[..|actions| - 1];
      EndedStaysEnded(s, front, f);
      RunKeepsSessions(s, front);
      StepKeepsSessions(Run(s, front), actions[|actions| - 1]);
    }
  }

  /** A session that lost its last holder (by logout, or by a failed save) never
      comes back, whatever is called afterwards. */
  lemma EndedSessionsStayEnded(before: seq<Action>, after: seq<Action>, f: Id)
    requires Run(EMPTY, before).At(f).LoggedIn? && Unheld(Run(EMPTY, before), f)
    ensures Unheld(Run(EMPTY, before + after), f)
  {
    RunKeepsSessions(EMPTY, before);
    EndedStaysEnded(Run(EMPTY, before), after, f);
    RunConcat(EMPTY, before, after);
  }

  // ------------------------------------------------------- a logout and a rotation

  /** The revocation of a logout ends the token's session if and only if the token still
      held it, or nothing did. A logout that lost the race to a Refresh therefore revokes
      nothing and leaves the session alive. */
  lemma {:induction false} LogoutEndsSessionIff(actions: seq<Action>, c: Id, now: int, f: Id)
    requires Run(EMPTY, actions).At(c).LoggingOut? && InFamily(Run(EMPTY, actions), Run(EMPTY, actions).At(c).token, f)
    ensures var s := Run(EMPTY, actions);
            Unheld(Step(s, LogoutRevoke(c, now)), f) <==> Live(s.tokens, s.At(c).token) || Unheld(s, f)
  {
    RunKeepsSessions(EMPTY, actions);
    RevocationEndsIff(Run(EMPTY, actions), c, now, f);
  }

  lemma RevocationEndsIff(s: State, c: Id, now: int, f: Id)
    requires SessionInv(s) && s.At(c).LoggingOut? && InFamily(s, s.At(c).token, f)
    ensures Unheld(EndSession(s, c, now), f) <==> Live(s.tokens, s.At(c).token) || Unheld(s, f)
  {
    var t, k := EndSession(s, c, now), s.At(c).token;
    forall h ensures Holds(t, h, f) <==> Holds(s, h, f) && h != Token(k) {}
    if Live(s.tokens, k) {
      assert Holds(s, Token(k), f);
    }
  }
}
