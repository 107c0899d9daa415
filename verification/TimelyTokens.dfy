/** Expiry, over whole runs (internal/auth/usecase/refresh.go, internal/auth/usecase/verify_email.go):
    nothing is rotated, and nobody is verified, by a token that was found too late. */
module TimelyTokens {
  import opened Wrappers
  import opened AuthModel
  import AuthSafety

  // --------------------------------------------------------------- refresh tokens

  /** The i-th step of the run answers call `c` with token `k`: it has the hash the call
      asked for, is not revoked, and has not expired. */
  ghost predicate FoundInTime(actions: seq<Action>, i: nat, c: Id, k: Id) {
    && i < |actions| && actions[i].RefreshFind? && actions[i].call == c && actions[i].row == Some(k)
    && var tokens := Run(EMPTY, actions[..i]).tokens;
       && k in tokens && tokens[k].hash == actions[i].hash && tokens[k].revokedAt == None
       && actions[i].now <= tokens[k].expiresAt
  }

  /** The call goes on with token `k`, or has replaced it. */
  predicate GoesOnWith(pc: Call, k: Id) {
    (pc.Found? || pc.Ready? || pc.Rotating? || pc.Refreshed?) && pc.token == k
  }

  lemma StepFinds(s: State, a: Action, k: Id)
    requires GoesOnWith(Step(s, a).At(a.call), k) && !GoesOnWith(s.At(a.call), k)
    ensures a.RefreshFind? && a.row == Some(k) && k in s.tokens && s.tokens[k].hash == a.hash
            && s.tokens[k].revokedAt == None && a.now <= s.tokens[k].expiresAt
  {}

  /** Whatever else runs, a Refresh goes on only with a token that it found in time. */
  lemma {:induction false} RefreshesAreTimely(actions: seq<Action>, c: Id, k: Id)
    requires GoesOnWith(Run(EMPTY, actions).At(c), k)
    ensures exists i: nat :: FoundInTime(actions, i, c, k)
  {
    var n := |actions| - 1;
    var front, a := actions[..n], actions[n];
    if GoesOnWith(Run(EMPTY, front).At(c), k) {
      RefreshesAreTimely(front, c, k);
      var i: nat :| FoundInTime(front, i, c, k);
      assert front[..i] == actions[..i];
      assert FoundInTime(actions, i, c, k);
    } else {
      if a.call != c {
        AuthSafety.StepKeepsCall(Run(EMPTY, front), a, c);
      }
      StepFinds(Run(EMPTY, front), a, k);
      assert FoundInTime(actions, n, c, k);
    }
  }

  // ----------------------------------------------------------------- email tokens

  /** The i-th step of the run answers call `c` with email token `e`: it has the text the
      call asked for, is unused, and has not expired. */
  ghost predicate FoundUnused(actions: seq<Action>, i: nat, c: Id, e: Id) {
    && i < |actions| && actions[i].VerifyFind? && actions[i].call == c && actions[i].row == Some(e)
    && var emails := Run(EMPTY, actions[..i]).emails;
       && e in emails && emails[e].hash == actions[i].text && !emails[e].isUsed
       && actions[i].now <= emails[e].expiresAt
  }

  predicate GoesOnByEmail(pc: Call, e: Id) {
    (pc.EmailFound? || pc.Claiming? || pc.Claimed? || pc.VerifyDone?) && pc.email == e
  }

  lemma StepFindsUnused(s: State, a: Action, e: Id)
    requires GoesOnByEmail(Step(s, a).At(a.call), e) && !GoesOnByEmail(s.At(a.call), e)
    ensures a.VerifyFind? && a.row == Some(e) && e in s.emails && s.emails[e].hash == a.text
            && !s.emails[e].isUsed && a.now <= s.emails[e].expiresAt
  {}

  lemma {:induction false} VerificationsAreTimely(actions: seq<Action>, c: Id, e: Id)
    requires GoesOnByEmail(Run(EMPTY, actions).At(c), e)
    ensures exists i: nat :: FoundUnused(actions, i, c, e)
  {
    var n := |actions| - 1;
    var front, a := actions[..n], actions[n];
    if GoesOnByEmail(Run(EMPTY, front).At(c), e) {
      VerificationsAreTimely(front, c, e);
      var i: nat :| FoundUnused(front, i, c, e);
      assert front[..i] == actions[..i];
      assert FoundUnused(actions, i, c, e);
    } else {
      if a.call != c {
        AuthSafety.StepKeepsCall(Run(EMPTY, front), a, c);
      }
      StepFindsUnused(Run(EMPTY, front), a, e);
      assert FoundUnused(actions, n, c, e);
    }
  }

  /** The j-th step of the run consumes email token `e`, for a call that found it in time. */
  ghost predicate Consumes(actions: seq<Action>, j: nat, e: Id) {
    && j < |actions| && actions[j].VerifyMark?
    && var s := Run(EMPTY, actions[..j]);
       && e in s.emails && !s.emails[e].isUsed
       && s.At(actions[j].call).Claiming? && s.At(actions[j].call).email == e
       && exists i: nat :: FoundUnused(actions[..j], i, actions[j].call, e)
  }

  predicate IsUsed(emails: EmailTokens, e: Id) { e in emails && emails[e].isUsed }

  /** A step consumes a token only for the call that claims it, and no step takes that back. */
  lemma StepUses(s: State, a: Action, e: Id)
    ensures IsUsed(Step(s, a).emails, e) <==>
            IsUsed(s.emails, e)
            || (Unused(s.emails, e) && a.VerifyMark? && s.At(a.call).Claiming? && s.At(a.call).email == e)
  {}

  /** An email token is used if and only if a call that found it in time consumed it. */
  lemma {:induction false} UsedIff(actions: seq<Action>, e: Id)
    ensures IsUsed(Run(EMPTY, actions).emails, e) <==> exists j: nat :: Consumes(actions, j, e)
  {
    if actions != [] {
      var n := |actions| - 1;
      var front, a := actions[..n], actions[n];
      UsedIff(front, e);
      StepUses(Run(EMPTY, front), a, e);
      forall j: nat | j < n ensures Consumes(actions, j, e) <==> Consumes(front, j, e) {
        assert front[..j] == actions[..j];
      }
      if a.VerifyMark? && GoesOnByEmail(Run(EMPTY, front).At(a.call), e) {
        VerificationsAreTimely(front, a.call, e);
      }
      assert Consumes(actions, n, e) <==>
             a.VerifyMark? && Unused(Run(EMPTY, front).emails, e) && Run(EMPTY, front).At(a.call).Claiming?
             && Run(EMPTY, front).At(a.call).email == e;
    }
  }
}
