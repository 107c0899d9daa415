/** Email verification: what every interleaving of Register, Verify, Login and
    Refresh calls keeps, with the services wired as in cmd/api/main.go (a new
    user gets an email token, not a session). */
module AuthVerified {
  import opened Wrappers
  import opened AuthModel
  import AuthSafety

  /** Some email token of the user has been consumed. */
  ghost predicate Consumed(s: State, u: Id) {
    exists e :: ConsumedBy(s, e, u)
  }

  ghost predicate ConsumedBy(s: State, e: Id, u: Id) {
    e in s.emails && s.emails[e].isUsed && s.emails[e].user == u
  }

  ghost predicate IsVerified(s: State, u: Id) { u in s.users && s.users[u].isVerified }

  /** What a call's local variables are known to be, at each point of its code. */
  ghost predicate LocalsOk(s: State, pc: Call) {
    match pc
    case Found(t, row) => t in s.tokens && s.tokens[t].user == row.user
    case Ready(t, u) => t in s.tokens && s.tokens[t].user == u
    case Rotating(t, u) => t in s.tokens && s.tokens[t].user == u
    case EmailFound(e, row) => e in s.emails && s.emails[e].user == row.user
    case Claiming(e, u, copy) => e in s.emails && s.emails[e].user == u && copy.isVerified && CopyOf(s, u, copy)
    case Claimed(e, u, copy) => ConsumedBy(s, e, u) && copy.isVerified && CopyOf(s, u, copy)
    case VerifyDone(e) => e in s.emails && s.emails[e].isUsed
    case ReRegistering(u, copy) => !copy.isVerified && CopyOf(s, u, copy)
    case Registering(draft) => !draft.isVerified
    case LoggingIn(u) => Consumed(s, u)
    case _ => true
  }

  /** Writes back the row's email, and leaves it as active as it is: no use case changes these. */
  predicate SameAccount(a: User, b: User) { a.email == b.email && a.isActive == b.isActive }

  predicate CopyOf(s: State, u: Id, copy: User) { u in s.users && SameAccount(s.users[u], copy) }

  ghost predicate UniqueEmails(users: Users) {
    forall u, v :: u in users && v in users && users[u].email == users[v].email ==> u == v
  }

  /** Call `c` consumed email token `e`. */
  ghost predicate Claims(s: State, c: Id, e: Id) {
    (s.At(c).Claimed? || s.At(c).VerifyDone?) && s.At(c).email == e
  }

  ghost predicate VerifiedInv(s: State) {
    && UniqueEmails(s.users) && (forall u :: IsVerified(s, u) ==> Consumed(s, u))
    && (forall t :: t in s.tokens ==> Consumed(s, s.tokens[t].user))
    && (forall c :: LocalsOk(s, s.At(c)))
    && (forall c, d, e :: Claims(s, c, e) && Claims(s, d, e) ==> c == d)
  }

  /** Rows are never deleted, never change owner or account, and never become unused again. */
  ghost predicate Grows(s: State, t: State) {
    && (forall u :: u in s.users ==> u in t.users && SameAccount(s.users[u], t.users[u]))
    && (forall e :: e in s.emails ==>
          e in t.emails && t.emails[e].user == s.emails[e].user && (s.emails[e].isUsed ==> t.emails[e].isUsed))
    && (forall k :: k in s.tokens ==> k in t.tokens && t.tokens[k].user == s.tokens[k].user)
  }

  /** One step's own change: rows, and the point its call reaches. */
  ghost predicate Progress(s: State, t: State, c: Id) {
    && Grows(s, t) && (UniqueEmails(s.users) ==> UniqueEmails(t.users))
    && (t.calls == s.calls || (c in t.calls && t.calls == s.calls[c := t.calls[c]]))
    && (forall u :: u in t.users && t.users[u].isVerified ==>
          (u in s.users && s.users[u].isVerified) || Consumed(s, u))
    && (forall k :: k in t.tokens ==> k in s.tokens || Consumed(s, t.tokens[k].user))
    && LocalsOk(t, t.At(c))
    && (forall e :: Claims(t, c, e) ==> Claims(s, c, e) || Unused(s.emails, e))
  }

  lemma ConsumedStays(s: State, t: State, u: Id)
    requires Grows(s, t) && Consumed(s, u)
    ensures Consumed(t, u)
  {
    var e :| ConsumedBy(s, e, u);
    assert ConsumedBy(t, e, u);
  }

  lemma LocalsStayOk(s: State, t: State, pc: Call)
    requires Grows(s, t) && LocalsOk(s, pc)
    ensures LocalsOk(t, pc)
  {
    if pc.LoggingIn? {
      ConsumedStays(s, t, pc.user);
    }
  }

  /** A step that only moves its own call. */
  lemma MoveProgress(s: State, c: Id, pc: Call)
    requires LocalsOk(s, pc) && !pc.Claimed? && !pc.VerifyDone?
    ensures Progress(s, s.Become(c, pc), c)
  {
    var t := s.Become(c, pc);
    assert t.At(c) == pc;
    if pc.LoggingIn? {
      ConsumedStays(s, t, pc.user);
    }
  }

  lemma UserProgress(s: State, users: Users, c: Id, pc: Call)
    requires forall u :: u in users && users[u].isVerified ==> (u in s.users && s.users[u].isVerified) || Consumed(s, u)
    requires forall u :: u in s.users ==> u in users && SameAccount(s.users[u], users[u])
    requires UniqueEmails(s.users) ==> UniqueEmails(users)
    requires pc.Inviting? || (pc.VerifyDone? && LocalsOk(s, pc) && Claims(s, c, pc.email))
    ensures Progress(s, s.(users := users).Become(c, pc), c)
  {}

  lemma EmailProgress(s: State, emails: EmailTokens, c: Id, pc: Call)
    requires Grows(s, s.(emails := emails))
    requires pc.Finished? || (pc.Claimed? && Unused(s.emails, pc.email) && LocalsOk(s.(emails := emails), pc))
    ensures Progress(s, s.(emails := emails).Become(c, pc), c)
  {}

  lemma RotateProgress(s: State, c: Id, now: int)
    requires s.At(c).Ready? && LocalsOk(s, s.At(c))
    ensures Progress(s, Rotate(s, c, now), c)
  {
    var Ready(k, u) := s.At(c);
    if !Live(s.tokens, k) {
      MoveProgress(s, c, Failed);
    }
  }

  lemma SaveProgress(s: State, c: Id, id: Id, raw: Raw, exp: int)
    requires s.At(c).Rotating? && Consumed(s, s.At(c).user)
    ensures Progress(s, SaveSuccessor(s, c, id, raw, exp), c)
  {}

  lemma LoginProgress(s: State, c: Id, id: Id, raw: Raw, exp: int)
    requires s.At(c).LoggingIn? && LocalsOk(s, s.At(c))
    ensures Progress(s, SaveSession(s, c, id, raw, exp), c)
  {}

  lemma LogoutProgress(s: State, c: Id, now: int)
    requires s.At(c).LoggingOut?
    ensures Progress(s, EndSession(s, c, now), c)
  {}

  lemma ClaimProgress(s: State, c: Id)
    requires s.At(c).Claiming? && LocalsOk(s, s.At(c))
    ensures Progress(s, Claim(s, c), c)
  {
    var Claiming(e, u, copy) := s.At(c);
    if Unused(s.emails, e) {
      EmailProgress(s, Used(s.emails, e), c, Claimed(e, u, copy));
    } else {
      MoveProgress(s, c, Failed);
    }
  }

  lemma InviteProgress(s: State, c: Id, id: Id, text: string, exp: int)
    requires s.At(c).Inviting?
    ensures Progress(s, Invite(s, c, id, text, exp), c)
  {
    var row := EmailToken(s.At(c).user, text, exp, false);
    if EmailTokenInsertable(s.emails, s.users, id, row) {
      EmailProgress(s, s.emails[id := row], c, Finished);
    } else {
      MoveProgress(s, c, Failed);
    }
  }

  lemma InsertProgress(s: State, c: Id, id: Id)
    requires s.At(c).Registering? && LocalsOk(s, s.At(c))
    ensures Progress(s, InsertUser(s, c, id), c)
  {
    if UserInsertable(s.users, id, s.At(c).draft) {
      UserProgress(s, s.users[id := s.At(c).draft], c, Inviting(id));
    } else {
      MoveProgress(s, c, Failed);
    }
  }

  /** The actions that read tables and change none. */
  predicate ReadOnly(a: Action) {
    || a.RefreshFind? || a.RefreshLoad? || a.VerifyFind? || a.VerifyLoad?
    || a.RegisterFind? || a.LoginFind? || a.LogoutFind? || a.Abort?
  }

  lemma ReadProgress(s: State, a: Action)
    requires ReadOnly(a) && LocalsOk(s, s.At(a.call))
    requires a.LoginFind? && a.row.Some? ==> IsVerified(s, a.row.value) ==> Consumed(s, a.row.value)
    ensures Progress(s, Step(s, a), a.call)
  {
    var c := a.call;
    if Step(s, a) != s {
      match a
      case RefreshFind(_, _, now, row) => MoveProgress(s, c, LookedUp(s, row, now));
      case RefreshLoad(_) => MoveProgress(s, c, Loaded(s, c));
      case VerifyFind(_, _, now, row) => MoveProgress(s, c, EmailLookedUp(s, row, now));
      case VerifyLoad(_, now) => MoveProgress(s, c, UserLoaded(s, c, now));
      case RegisterFind(_, _, row, hash, name, draft) => MoveProgress(s, c, Existing(s, row, hash, name, draft));
      case LoginFind(_, _, row, proven) => MoveProgress(s, c, Authenticated(s, row, proven));
      case LogoutFind(_, _, row) => MoveProgress(s, c, if row.Some? then LoggingOut(row.value) else Finished);
      case Abort(_) => MoveProgress(s, c, Failed);
    }
  }

  /** Writing a copy back never runs into another row's email. */
  lemma CopiesFit(s: State, u: Id, copy: User)
    requires UniqueEmails(s.users) && CopyOf(s, u, copy)
    ensures UserUpdatable(s.users, u, copy) && UserUpdated(s.users, u, copy) == s.users[u := copy]
  {}

  lemma CopyProgress(s: State, c: Id, u: Id, copy: User, pc: Call)
    requires UniqueEmails(s.users) && CopyOf(s, u, copy) && (copy.isVerified ==> Consumed(s, u))
    requires pc.Inviting? || (pc.VerifyDone? && LocalsOk(s, pc) && Claims(s, c, pc.email))
    ensures Progress(s, s.(users := UserUpdated(s.users, u, copy)).Become(c, pc), c)
  {
    CopiesFit(s, u, copy);
    UserProgress(s, s.users[u := copy], c, pc);
  }

  lemma WriteProgress(s: State, a: Action)
    requires !ReadOnly(a) && LocalsOk(s, s.At(a.call)) && UniqueEmails(s.users)
    requires s.At(a.call).Rotating? ==> Consumed(s, s.At(a.call).user)
    ensures Progress(s, Step(s, a), a.call)
  {
    var c := a.call;
    if Step(s, a) != s {
      match a
      case RefreshRevoke(_, now) => RotateProgress(s, c, now);
      case RefreshSave(_, id, raw, exp) => SaveProgress(s, c, id, raw, exp);
      case VerifyMark(_) => ClaimProgress(s, c);
      case VerifyWrite(_) =>
        CopiesFit(s, s.At(c).user, s.At(c).copy);
        CopyProgress(s, c, s.At(c).user, s.At(c).copy, VerifyDone(s.At(c).email));
      case RegisterUpdate(_) =>
        CopiesFit(s, s.At(c).user, s.At(c).copy);
        CopyProgress(s, c, s.At(c).user, s.At(c).copy, Inviting(s.At(c).user));
      case RegisterInsert(_, id) => InsertProgress(s, c, id);
      case RegisterInvite(_, id, text, exp) => InviteProgress(s, c, id, text, exp);
      case LoginSave(_, id, raw, exp) => LoginProgress(s, c, id, raw, exp);
      case LogoutRevoke(_, now) => LogoutProgress(s, c, now);
    }
  }

  lemma ProgressKeeps(s: State, t: State, c: Id)
    requires VerifiedInv(s) && Progress(s, t, c)
    ensures VerifiedInv(t)
  {
    forall u | u in t.users && t.users[u].isVerified ensures Consumed(t, u) {
      ConsumedStays(s, t, u);
    }
    forall k | k in t.tokens ensures Consumed(t, t.tokens[k].user) {
      ConsumedStays(s, t, t.tokens[k].user);
    }
    forall d ensures LocalsOk(t, t.At(d)) {
      if d != c {
        LocalsStayOk(s, t, s.At(d));
      }
    }
    forall d, e | Claims(t, d, e) ensures Claims(s, d, e) || (d == c && Unused(s.emails, e)) {}
    forall d, e | Claims(s, d, e) ensures !Unused(s.emails, e) {
      assert LocalsOk(s, s.At(d));
    }
  }

  lemma StepProgress(s: State, a: Action)
    requires VerifiedInv(s)
    ensures Progress(s, Step(s, a), a.call)
  {
    assert LocalsOk(s, s.At(a.call));
    if ReadOnly(a) {
      ReadProgress(s, a);
    } else {
      WriteProgress(s, a);
    }
  }

  lemma {:induction false} RunKeepsVerified(s: State, actions: seq<Action>)
    requires VerifiedInv(s)
    ensures VerifiedInv(Run(s, actions))
  {
    if actions != [] {
      var front, a := actions[..|actions| - 1], actions[|actions| - 1];
      RunKeepsVerified(s, front);
      StepProgress(Run(s, front), a);
      ProgressKeeps(Run(s, front), Run(s, actions), a.call);
    }
  }

  /** In every reachable state: a verified user has consumed an email token of
      their own, and so has the owner of every refresh token. */
  lemma VerificationNeedsAToken(actions: seq<Action>, u: Id, t: Id)
    ensures var s := Run(EMPTY, actions); u in s.users && s.users[u].isVerified ==> Consumed(s, u)
    ensures var s := Run(EMPTY, actions); t in s.tokens ==> Consumed(s, s.tokens[t].user)
  {
    RunKeepsVerified(EMPTY, actions);
  }

  /** In every reachable state, writing a user's copy back succeeds: no use case changes an
      email, so the unique email never refuses the update of a Verify or a Register. */
  lemma {:induction false} CopiesAlwaysFit(actions: seq<Action>, c: Id)
    requires Run(EMPTY, actions).At(c).Claimed? || Run(EMPTY, actions).At(c).ReRegistering?
    ensures var s := Run(EMPTY, actions); UserUpdatable(s.users, s.At(c).user, s.At(c).copy) && s.At(c).user in s.users
  {
    RunKeepsVerified(EMPTY, actions);
    var s := Run(EMPTY, actions);
    assert LocalsOk(s, s.At(c));
    CopiesFit(s, s.At(c).user, s.At(c).copy);
  }

  /** An email token is consumed by at most one successful Verify call. */
  lemma {:induction false} EmailTokensAreSingleUse(actions: seq<Action>, c: Id, d: Id)
    requires Run(EMPTY, actions).At(c).VerifyDone? && Run(EMPTY, actions).At(d).VerifyDone?
    requires Run(EMPTY, actions).At(c).email == Run(EMPTY, actions).At(d).email
    ensures c == d
  {
    RunKeepsVerified(EMPTY, actions);
    var s := Run(EMPTY, actions);
    assert Claims(s, c, s.At(c).email) && Claims(s, d, s.At(c).email);
  }

  // ------------------------------------------------------ who a session belongs to

  /** The token belongs to the user whose login started its family. */
  ghost predicate Owned(s: State, t: Id, f: Id) {
    && t in s.tokens && s.At(f).LoggedIn? && s.At(f).token in s.tokens
    && s.tokens[t].user == s.tokens[s.At(f).token].user
  }

  ghost predicate AllOwned(s: State) { forall t, f :: AuthSafety.InFamily(s, t, f) ==> Owned(s, t, f) }

  ghost predicate SameOwners(s: State, t: State) {
    forall k :: k in s.tokens ==> k in t.tokens && t.tokens[k].user == s.tokens[k].user
  }

  lemma OwnedStays(s: State, t: State, c: Id, k: Id, f: Id)
    requires Owned(s, k, f) && SameOwners(s, t) && !s.At(c).LoggedIn? && c in t.calls
             && t.calls == s.calls[c := t.calls[c]]
    ensures Owned(t, k, f)
  {}

  lemma SaveOwned(s: State, t: State, c: Id, k: Id, id: Id, row: RefreshToken)
    requires AllOwned(s) && AuthSafety.Saves(s, t, c, k, id, row) && LocalsOk(s, s.At(c)) && k in s.family
    ensures AllOwned(t)
  {
    assert AuthSafety.InFamily(s, k, s.family[k]);
    forall i, f | AuthSafety.InFamily(t, i, f) ensures Owned(t, i, f) {
      if i == id {
        OwnedStays(s, t, c, k, f);
      } else {
        assert AuthSafety.InFamily(s, i, f);
        OwnedStays(s, t, c, i, f);
      }
    }
  }

  lemma LoginOwned(s: State, t: State, c: Id, id: Id, row: RefreshToken)
    requires AllOwned(s) && AuthSafety.LogsIn(s, t, c, id, row)
    ensures AllOwned(t)
  {
    forall i, f | AuthSafety.InFamily(t, i, f) ensures Owned(t, i, f) {
      if i != id {
        assert AuthSafety.InFamily(s, i, f);
        OwnedStays(s, t, c, i, f);
      }
    }
  }

  lemma OthersOwned(s: State, t: State, c: Id)
    requires AllOwned(s) && t.family == s.family && SameOwners(s, t) && !s.At(c).LoggedIn?
    requires c in t.calls && t.calls == s.calls[c := t.calls[c]]
    ensures AllOwned(t)
  {
    forall i, f | AuthSafety.InFamily(t, i, f) ensures Owned(t, i, f) {
      assert AuthSafety.InFamily(s, i, f);
      OwnedStays(s, t, c, i, f);
    }
  }

  lemma StepKeepsOwners(s: State, a: Action)
    requires AllOwned(s) && AuthSafety.SessionInv(s) && LocalsOk(s, s.At(a.call))
    ensures AllOwned(Step(s, a))
  {
    var t, c := Step(s, a), a.call;
    AuthSafety.StepEffect(s, a);
    if t == s {
    } else if pc :| AuthSafety.Quiet(s, t, c, pc) {
      OthersOwned(s, t, c);
    } else if k, u, now :| AuthSafety.Rotates(s, t, c, k, u, now) {
      OthersOwned(s, t, c);
    } else if k, id, row :| AuthSafety.Saves(s, t, c, k, id, row) {
      SaveOwned(s, t, c, k, id, row);
    } else {
      var id, row :| AuthSafety.LogsIn(s, t, c, id, row);
      LoginOwned(s, t, c, id, row);
    }
  }

  lemma {:induction false} RunKeepsOwners(s: State, actions: seq<Action>)
    requires AllOwned(s) && AuthSafety.SessionInv(s) && VerifiedInv(s)
    ensures AllOwned(Run(s, actions))
  {
    if actions != [] {
      var front, a := actions[..|actions| - 1], actions[|actions| - 1];
      RunKeepsOwners(s, front);
      AuthSafety.RunKeepsSessions(s, front);
      RunKeepsVerified(s, front);
      assert LocalsOk(Run(s, front), Run(s, front).At(a.call));
      StepKeepsOwners(Run(s, front), a);
    }
  }

  /** In every reachable state all tokens of a session belong to the user who logged in,
      however often and by whichever calls the session was rotated. */
  lemma {:induction false} SessionsKeepTheirUser(actions: seq<Action>, t: Id)
    requires t in Run(EMPTY, actions).family
    ensures var s := Run(EMPTY, actions); Owned(s, t, s.family[t])
  {
    RunKeepsOwners(EMPTY, actions);
    assert AuthSafety.InFamily(Run(EMPTY, actions), t, Run(EMPTY, actions).family[t]);
  }

  // ------------------------------------------------- verification can be undone

  lemma OtherStepsKeepUsers(s: State, a: Action)
    requires !a.VerifyWrite? && !a.RegisterUpdate? && !a.RegisterInsert?
    ensures Step(s, a).users == s.users
  {}

  lemma LostIff(s: State, a: Action, u: Id)
    requires LocalsOk(s, s.At(a.call)) && IsVerified(s, u) && UniqueEmails(s.users)
    ensures !IsVerified(Step(s, a), u) <==>
      a.RegisterUpdate? && s.At(a.call).ReRegistering? && s.At(a.call).user == u
  {
    if !a.VerifyWrite? && !a.RegisterUpdate? && !a.RegisterInsert? {
      OtherStepsKeepUsers(s, a);
    } else if s.At(a.call).ReRegistering? || s.At(a.call).Claimed? {
      CopiesFit(s, s.At(a.call).user, s.At(a.call).copy);
    }
  }

  /** Which step undoes a verification: exactly the whole-row write of a
      re-registration that had read the user before it was verified. */
  lemma {:induction false} VerificationLostIff(actions: seq<Action>, a: Action, u: Id)
    requires IsVerified(Run(EMPTY, actions), u)
    ensures var s := Run(EMPTY, actions);
            !IsVerified(Step(s, a), u) <==>
              a.RegisterUpdate? && s.At(a.call).ReRegistering? && s.At(a.call).user == u
  {
    RunKeepsVerified(EMPTY, actions);
    assert LocalsOk(Run(EMPTY, actions), Run(EMPTY, actions).At(a.call));
    LostIff(Run(EMPTY, actions), a, u);
  }

  /** Some re-registration has read the user before it was verified and is about to write. */
  ghost predicate Threatened(s: State, u: Id) { exists c :: Overwrites(s, c, u) }

  predicate Overwrites(s: State, c: Id, u: Id) { s.At(c).ReRegistering? && s.At(c).user == u }

  /** A new threat needs an unverified user. */
  lemma NoNewThreat(s: State, a: Action, u: Id, c: Id)
    requires IsVerified(s, u) && Overwrites(Step(s, a), c, u)
    ensures Overwrites(s, c, u)
  {}

  lemma {:induction false} UnthreatenedStays(s: State, actions: seq<Action>, u: Id)
    requires VerifiedInv(s) && IsVerified(s, u) && !Threatened(s, u)
    ensures IsVerified(Run(s, actions), u) && !Threatened(Run(s, actions), u)
  {
    if actions != [] {
      var front, a := actions[..|actions| - 1], actions[|actions| - 1];
      UnthreatenedStays(s, front, u);
      RunKeepsVerified(s, front);
      var t := Run(s, front);
      assert LocalsOk(t, t.At(a.call)) && !Overwrites(t, a.call, u);
      LostIff(t, a, u);
      forall c ensures !Overwrites(Step(t, a), c, u) {
        if Overwrites(Step(t, a), c, u) {
          NoNewThreat(t, a, u, c);
        }
      }
    }
  }

  /** The exact condition, over whole continuations: a verified user stays verified whatever
      is called from now on if and only if no re-registration of it is in flight. */
  lemma {:induction false} StaysVerifiedIff(actions: seq<Action>, u: Id)
    requires IsVerified(Run(EMPTY, actions), u)
    ensures (forall more :: IsVerified(Run(Run(EMPTY, actions), more), u)) <==> !Threatened(Run(EMPTY, actions), u)
  {
    RunKeepsVerified(EMPTY, actions);
    var s := Run(EMPTY, actions);
    if c :| Overwrites(s, c, u) {
      assert LocalsOk(s, s.At(c));
      LostIff(s, RegisterUpdate(c), u);
      RunStep(s, [], RegisterUpdate(c));
      assert !IsVerified(Run(s, [] + [RegisterUpdate(c)]), u);
    } else {
      forall more ensures IsVerified(Run(s, more), u) {
        UnthreatenedStays(s, more, u);
      }
    }
  }

  lemma RunStep(s: State, actions: seq<Action>, a: Action)
    ensures Run(s, actions + [a]) == Step(Run(s, actions), a)
  {}

  const DRAFT: User := User("a@b.c", "h", "A", false, true, None)

  const TOKEN: EmailToken := EmailToken(7, "t", 100, false)

  const USED_TOKEN: EmailToken := TOKEN.(isUsed := true)

  const AGAIN: User := User("a@b.c", "h2", "B", false, true, None)

  /** A user registers twice, with another password and name the second time: the second
      call has read the unverified account. */
  function RegisteredTwice(): seq<Action> {
    [RegisterFind(1, "a@b.c", None, "h", "A", Some(DRAFT))] + [RegisterInsert(1, 7)] + [RegisterInvite(1, 8, "t", 100)]
    + [RegisterFind(2, "a@b.c", Some(7), "h2", "B", Some(DRAFT))]
  }

  function VerifiedBetween(): seq<Action> {
    [VerifyFind(3, "t", 0, Some(8))] + [VerifyLoad(3, 0)] + [VerifyMark(3)] + [VerifyWrite(3)]
  }

  /** The first call has inserted the user. */
  const ONCE: State := State(map[7 := DRAFT], map[], map[], map[1 := Inviting(7)], map[])

  /** The first call is done, and the second is about to write back what it read. */
  const TWICE: State := State(map[7 := DRAFT], map[8 := TOKEN], map[],
                              map[1 := Finished, 2 := ReRegistering(7, AGAIN)], map[])

  lemma SecondRegistration()
    ensures Step(Step(ONCE, RegisterInvite(1, 8, "t", 100)),
                 RegisterFind(2, "a@b.c", Some(7), "h2", "B", Some(DRAFT))) == TWICE
  {
    var invited := ONCE.(emails := map[8 := TOKEN]).Become(1, Finished);
    assert Step(ONCE, RegisterInvite(1, 8, "t", 100)) == invited;
    assert invited.calls[2 := ReRegistering(7, AGAIN)] == TWICE.calls;
  }

  lemma AfterRegisteredTwice()
    ensures Run(EMPTY, RegisteredTwice()) == TWICE
  {
    var a := [RegisterFind(1, "a@b.c", None, "h", "A", Some(DRAFT))];
    var b := a + [RegisterInsert(1, 7)];
    RunStep(EMPTY, [], a[0]);
    assert [] + [a[0]] == a;
    RunStep(EMPTY, a, RegisterInsert(1, 7));
    RunStep(EMPTY, b, RegisterInvite(1, 8, "t", 100));
    RunStep(EMPTY, b + [RegisterInvite(1, 8, "t", 100)], RegisterFind(2, "a@b.c", Some(7), "h2", "B", Some(DRAFT)));
    assert Run(EMPTY, b) == ONCE by {
      assert Step(EMPTY, a[0]) == EMPTY.Become(1, Registering(DRAFT));
      assert Run(EMPTY, b).users == ONCE.users && Run(EMPTY, b).calls == ONCE.calls;
    }
    SecondRegistration();
  }

  lemma AfterVerifiedBetween(s: State)
    requires s.users == map[7 := DRAFT] && s.emails == map[8 := TOKEN] && 3 !in s.calls
    ensures Run(s, VerifiedBetween())
         == s.(users := map[7 := DRAFT.Verified(0)], emails := map[8 := USED_TOKEN]).Become(3, VerifyDone(8))
  {
    var a := [VerifyFind(3, "t", 0, Some(8))];
    RunStep(s, [], a[0]);
    assert [] + [a[0]] == a;
    RunStep(s, a, VerifyLoad(3, 0));
    RunStep(s, a + [VerifyLoad(3, 0)], VerifyMark(3));
    RunStep(s, a + [VerifyLoad(3, 0)] + [VerifyMark(3)], VerifyWrite(3));
    ReadToken(s);
    UseToken(s.Become(3, Claiming(8, 7, DRAFT.Verified(0))));
  }

  lemma ReadToken(s: State)
    requires s.users == map[7 := DRAFT] && s.emails == map[8 := TOKEN] && 3 !in s.calls
    ensures Step(Step(s, VerifyFind(3, "t", 0, Some(8))), VerifyLoad(3, 0))
         == s.Become(3, Claiming(8, 7, DRAFT.Verified(0)))
  {
    var t := s.Become(3, EmailFound(8, TOKEN));
    assert Step(s, VerifyFind(3, "t", 0, Some(8))) == t;
    assert t.Become(3, Claiming(8, 7, DRAFT.Verified(0))) == s.Become(3, Claiming(8, 7, DRAFT.Verified(0)));
  }

  lemma UseToken(s: State)
    requires s.users == map[7 := DRAFT] && s.emails == map[8 := TOKEN] && s.At(3) == Claiming(8, 7, DRAFT.Verified(0))
    ensures Step(Step(s, VerifyMark(3)), VerifyWrite(3))
         == s.(users := map[7 := DRAFT.Verified(0)], emails := map[8 := USED_TOKEN]).Become(3, VerifyDone(8))
  {}

  /** It does happen: the account is verified, and the second registration's write leaves it
      unverified again, with the second password and name. */
  lemma VerificationCanBeLost()
    ensures Run(EMPTY, RegisteredTwice() + VerifiedBetween()).users == map[7 := DRAFT.Verified(0)]
    ensures Run(EMPTY, RegisteredTwice() + VerifiedBetween() + [RegisterUpdate(2)]).users == map[7 := AGAIN]
    ensures !IsVerified(Run(EMPTY, RegisteredTwice() + VerifiedBetween() + [RegisterUpdate(2)]), 7)
  {
    AfterRegisteredTwice();
    AfterVerifiedBetween(Run(EMPTY, RegisteredTwice()));
    RunConcat(EMPTY, RegisteredTwice(), VerifiedBetween());
    RunStep(EMPTY, RegisteredTwice() + VerifiedBetween(), RegisterUpdate(2));
  }
}
