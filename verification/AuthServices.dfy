/** The services of internal/auth/usecase as they are written: one repository
    call after another, on tables that other requests keep changing in between.

    `env[k]` is what the other requests do before this call's k-th repository
    call; it is arbitrary. Each service is proved to produce a run of the machine
    in AuthModel, so every theorem about runs is a theorem about this code. */
module AuthServices {
  import opened Failures
  import opened Wrappers
  import opened AuthModel
  import AuthSafety
  import AccessGate

  datatype Error =
    | InvalidRefreshToken | TokenRevoked | Unauthorized | InvalidCredentials | Forbidden
    | NotFound | InvalidTransition | DeadlinePassed | Duplicate | InvalidUser | MailFailed | StorageError

  // -------------------------------------------------------------- the database

  /** The tables, with the machine's record of how far each call has come. */
  class Database {
    var users: Users
    var emails: EmailTokens
    var tokens: RefreshTokens
    var calls: map<Id, Call>
    var family: map<Id, Id>

    ghost function St(): State
      reads this
    {
      State(users, emails, tokens, calls, family)
    }

    /** Other requests run. */
    method Others(actions: seq<Action>)
      modifies this
      ensures St() == Run(old(St()), actions)
    {
      var s := Run(State(users, emails, tokens, calls, family), actions);
      users, emails, tokens, calls, family := s.users, s.emails, s.tokens, s.calls, s.family;
    }

    method Note(c: Id, pc: Call)
      modifies this`calls
      ensures calls == old(calls)[c := pc]
    {
      calls := calls[c := pc];
    }
  }

  class UserRepository {
    const db: Database

    constructor (db: Database)
      ensures this.db == db
    {
      this.db := db;
    }

    method FindByEmail(email: string) returns (row: Option<Id>)
      ensures UserAnswer(db.users, email, row)
    {
      if id :| id in db.users && db.users[id].email == email {
        row := Some(id);
      } else {
        row := None;
      }
    }

    method FindByID(id: Id) returns (user: Option<User>)
      ensures user == if id in db.users then Some(db.users[id]) else None
    {
      user := if id in db.users then Some(db.users[id]) else None;
    }

    method Save(id: Id, u: User) returns (ok: bool)
      modifies db`users
      ensures ok == UserInsertable(old(db.users), id, u)
      ensures db.users == if ok then old(db.users)[id := u] else old(db.users)
    {
      ok := id !in db.users && forall k :: k in db.users ==> db.users[k].email != u.email;
      if ok {
        db.users := db.users[id := u];
      }
    }

    /** The statement sets every column, and fails on another row's email. */
    method Update(id: Id, u: User) returns (ok: bool)
      modifies db`users
      ensures ok == UserUpdatable(old(db.users), id, u)
      ensures db.users == UserUpdated(old(db.users), id, u)
    {
      ok := true;
      if id in db.users {
        ok := !exists k :: k in db.users && k != id && db.users[k].email == u.email;
        if ok {
          db.users := db.users[id := u];
        }
      }
    }
  }

  class RefreshTokenRepository {
    const db: Database

    constructor (db: Database)
      ensures this.db == db
    {
      this.db := db;
    }

    method FindByHash(hash: Raw) returns (row: Option<Id>)
      ensures TokenAnswer(db.tokens, hash, row)
    {
      if id :| id in db.tokens && db.tokens[id].hash == hash {
        row := Some(id);
      } else {
        row := None;
      }
    }

    /** The conditional update, and whether it affected a row. */
    method Revoke(id: Id, now: int) returns (ok: bool)
      modifies db`tokens
      ensures db.tokens == Revoked(old(db.tokens), id, now)
      ensures ok == Live(old(db.tokens), id)
    {
      ok := id in db.tokens && db.tokens[id].revokedAt == None;
      if ok {
        db.tokens := db.tokens[id := db.tokens[id].(revokedAt := Some(now))];
      }
    }

    method Save(id: Id, t: RefreshToken) returns (ok: bool)
      modifies db`tokens
      ensures ok == TokenInsertable(old(db.tokens), db.users, id, t)
      ensures db.tokens == if ok then old(db.tokens)[id := t] else old(db.tokens)
    {
      ok := id !in db.tokens && t.user in db.users && forall k :: k in db.tokens ==> db.tokens[k].hash != t.hash;
      if ok {
        db.tokens := db.tokens[id := t];
      }
    }
  }

  class EmailVerificationRepository {
    const db: Database

    constructor (db: Database)
      ensures this.db == db
    {
      this.db := db;
    }

    method FindByHash(text: string) returns (row: Option<Id>)
      ensures EmailTokenAnswer(db.emails, text, row)
    {
      if id :| id in db.emails && db.emails[id].hash == text {
        row := Some(id);
      } else {
        row := None;
      }
    }

    method MarkUsed(id: Id) returns (ok: bool)
      modifies db`emails
      ensures db.emails == Used(old(db.emails), id)
      ensures ok == Unused(old(db.emails), id)
    {
      ok := id in db.emails && !db.emails[id].isUsed;
      if ok {
        db.emails := db.emails[id := db.emails[id].(isUsed := true)];
      }
    }

    method Save(id: Id, t: EmailToken) returns (ok: bool)
      modifies db`emails
      ensures ok == EmailTokenInsertable(old(db.emails), db.users, id, t)
      ensures db.emails == if ok then old(db.emails)[id := t] else old(db.emails)
    {
      ok := id !in db.emails && t.user in db.users && forall k :: k in db.emails ==> db.emails[k].hash != t.hash;
      if ok {
        db.emails := db.emails[id := t];
      }
    }
  }

  // --------------------------------------------------- interleaving with others

  ghost predicate NotMine(env: seq<seq<Action>>, me: Id) {
    forall k, i :: 0 <= k < |env| && 0 <= i < |env[k]| ==> env[k][i].call != me
  }

  /** This call's actions, each preceded by what the others do. */
  ghost function Woven(own: seq<Action>, env: seq<seq<Action>>): seq<Action>
    requires |own| <= |env|
  {
    if own == [] then [] else Woven(own[..|own| - 1], env) + env[|own| - 1] + [own[|own| - 1]]
  }

  /** The tables that the call after `own` meets. */
  ghost function Met(s0: State, own: seq<Action>, env: seq<seq<Action>>): State
    requires |own| < |env|
  {
    Run(Run(s0, Woven(own, env)), env[|own|])
  }

  lemma WovenStep(s: State, own: seq<Action>, env: seq<seq<Action>>, a: Action)
    requires |own| < |env|
    ensures Run(s, Woven(own + [a], env)) == Step(Run(Run(s, Woven(own, env)), env[|own|]), a)
  {
    assert (own + [a])[..|own|] == own;
    RunConcat(s, Woven(own, env), env[|own|]);
    var w := Woven(own, env) + env[|own|];
    assert (w + [a])[..|w|] == w;
  }

  /** One more step of this call, given what its write did. */
  lemma WovenTo(s0: State, own: seq<Action>, env: seq<seq<Action>>, a: Action, mid: State, t: State)
    requires |own| < |env| && mid == Run(Run(s0, Woven(own, env)), env[|own|]) && t == Step(mid, a)
    ensures t == Run(s0, Woven(own + [a], env))
  {
    WovenStep(s0, own, env, a);
  }










  /** The database is where the machine is after this call's `own` actions. */
  ghost predicate OnTrack(db: Database, s0: State, own: seq<Action>, env: seq<seq<Action>>, me: Id)
    reads db
  {
    |own| < |env| && NotMine(env, me) && db.St() == Run(s0, Woven(own, env))
  }

  ghost predicate Reached(db: Database, s0: State, own: seq<Action>, env: seq<seq<Action>>)
    reads db
  {
    |own| <= |env| && db.St() == Run(s0, Woven(own, env))
  }

  /** The others run until this call's next repository call. */
  method Interrupted(db: Database, others: seq<Action>, me: Id, ghost s0: State, ghost own: seq<Action>,
          ghost env: seq<seq<Action>>)
    requires OnTrack(db, s0, own, env, me) && others == env[|own|]
    modifies db
    ensures db.St() == Met(s0, own, env)
    ensures db.St().At(me) == old(db.St().At(me))
    ensures me in db.calls <==> me in old(db.calls)
  {
    AuthSafety.OthersKeepCall(db.St(), others, me);
    db.Others(others);
  }

  // ------------------------------------------------------------------- Refresh

  class RefreshService {
    const db: Database
    const users: UserRepository
    const refresh: RefreshTokenRepository

    constructor (db: Database, users: UserRepository, refresh: RefreshTokenRepository)
      requires users.db == db && refresh.db == db
      ensures this.db == db && this.users == users && this.refresh == refresh
    {
      this.db, this.users, this.refresh := db, users, refresh;
    }

    method Find(me: Id, hash: Raw, now: int, others: seq<Action>, ghost s0: State, ghost env: seq<seq<Action>>)
      returns (r: Result<(Id, RefreshToken), Error>, ghost own: seq<Action>)
      requires refresh.db == db && OnTrack(db, s0, [], env, me) && others == env[0] && me !in db.calls
      modifies db
      ensures |own| == 1 && own[0].RefreshFind? && own[0].call == me && own[0].hash == hash && own[0].now == now
      ensures Reached(db, s0, own, env)
      ensures var seen := Run(s0, env[0]).tokens; var row := own[0].row;
              && (row.Some? ==> row.value in seen && seen[row.value].hash == hash)
              && (row == None ==> forall k :: k in seen ==> seen[k].hash != hash)
              && (r.Ok? <==> row.Some? && seen[row.value].revokedAt == None && now <= seen[row.value].expiresAt)
              && (r.Ok? ==> r.value == (row.value, seen[row.value]))
              && (r.Err? ==> r.error == if row.Some? && seen[row.value].revokedAt.Some? then TokenRevoked
                                        else InvalidRefreshToken)
      ensures db.St().At(me) == if r.Ok? then Found(r.value.0, r.value.1) else Failed
    {
      Interrupted(db, others, me, s0, [], env);
      var row := refresh.FindByHash(hash);
      own := [RefreshFind(me, hash, now, row)];
      WovenStep(s0, [], env, own[0]);
      assert [] + [own[0]] == own;
      if row == None {
        db.Note(me, Failed);
        return Err(InvalidRefreshToken), own;
      }
      var rt := db.tokens[row.value];
      if rt.revokedAt != None {
        db.Note(me, Failed);
        return Err(TokenRevoked), own;
      }
      if rt.IsExpired(now) {
        db.Note(me, Failed);
        return Err(InvalidRefreshToken), own;
      }
      db.Note(me, Found(row.value, rt));
      r := Ok((row.value, rt));
    }

    method Load(me: Id, token: Id, rt: RefreshToken, others: seq<Action>, ghost s0: State, ghost own: seq<Action>,
            ghost env: seq<seq<Action>>)
      returns (active: bool)
      requires users.db == db && OnTrack(db, s0, own, env, me) && others == env[|own|]
               && db.St().At(me) == Found(token, rt)
      modifies db
      ensures Reached(db, s0, own + [RefreshLoad(me)], env)
      ensures var users := Met(s0, own, env).users; active <==> rt.user in users && users[rt.user].isActive
      ensures db.St().At(me) == if active then Ready(token, rt.user) else Failed
    {
      Interrupted(db, others, me, s0, own, env);
      var user := users.FindByID(rt.user);
      WovenStep(s0, own, env, RefreshLoad(me));
      active := user != None && user.value.isActive;
      db.Note(me, if active then Ready(token, rt.user) else Failed);
    }

    method RevokeOld(me: Id, token: Id, user: Id, now: int, others: seq<Action>, ghost s0: State,
            ghost own: seq<Action>, ghost env: seq<seq<Action>>)
      returns (ok: bool)
      requires refresh.db == db && OnTrack(db, s0, own, env, me) && others == env[|own|]
               && db.St().At(me) == Ready(token, user)
      modifies db
      ensures Reached(db, s0, own + [RefreshRevoke(me, now)], env)
      ensures var tokens := Met(s0, own, env).tokens;
              && (ok <==> token in tokens && tokens[token].revokedAt == None)
              && db.tokens == if ok then tokens[token := tokens[token].(revokedAt := Some(now))] else tokens
      ensures db.St().At(me) == if ok then Rotating(token, user) else Failed
    {
      Interrupted(db, others, me, s0, own, env);
      ok := refresh.Revoke(token, now);
      WovenStep(s0, own, env, RefreshRevoke(me, now));
      db.Note(me, if ok then Rotating(token, user) else Failed);
    }

    method SaveNew(me: Id, token: Id, user: Id, id: Id, issued: Raw, exp: int, others: seq<Action>, ghost s0: State,
            ghost own: seq<Action>, ghost env: seq<seq<Action>>)
      returns (ok: bool)
      requires refresh.db == db && OnTrack(db, s0, own, env, me) && others == env[|own|]
               && db.St().At(me) == Rotating(token, user)
      modifies db
      ensures Reached(db, s0, own + [RefreshSave(me, id, issued, exp)], env)
      ensures var met := Met(s0, own, env);
              && (ok <==> id !in met.tokens && user in met.users
                          && forall k :: k in met.tokens ==> met.tokens[k].hash != issued)
              && db.tokens == if ok then met.tokens[id := RefreshToken(user, issued, exp, None)] else met.tokens
      ensures db.St().At(me) == if ok then Refreshed(token, id) else Failed
    {
      Interrupted(db, others, me, s0, own, env);
      ghost var mid := db.St();
      ok := refresh.Save(id, RefreshToken(user, issued, exp, None));
      if ok {
        db.family := Inherited(db.family, token, id);
      }
      db.Note(me, if ok then Refreshed(token, id) else Failed);
      WovenTo(s0, own, env, RefreshSave(me, id, issued, exp), mid, db.St());
    }

    /** Steps 1 to 3: the row and its checks, then the user. */
    method Begin(me: Id, hash: Raw, now: int, env: seq<seq<Action>>, ghost s0: State)
      returns (r: Result<(Id, Id), Error>, ghost own: seq<Action>)
      requires users.db == db && refresh.db == db && OnTrack(db, s0, [], env, me) && |env| == 4 && me !in db.calls
      modifies db
      ensures Reached(db, s0, own, env) && 1 <= |own| <= 2
      ensures own[0].RefreshFind? && own[0].call == me && own[0].hash == hash && own[0].now == now
      ensures |own| > 1 ==> own[1] == RefreshLoad(me)
      ensures var seen := Run(s0, env[0]).tokens; var row := own[0].row;
              && (row.Some? ==> row.value in seen && seen[row.value].hash == hash)
              && (row == None ==> forall k :: k in seen ==> seen[k].hash != hash)
              && (|own| > 1 <==> row.Some? && seen[row.value].revokedAt == None && now <= seen[row.value].expiresAt)
              && (|own| == 1 ==> r == Err(if row.Some? && seen[row.value].revokedAt.Some? then TokenRevoked
                                          else InvalidRefreshToken))
      ensures |own| > 1 ==>
                var k := own[0].row.value; var owner := Run(s0, env[0]).tokens[k].user;
                var users := Met(s0, own[..1], env).users;
                r == if owner in users && users[owner].isActive then Ok((k, owner)) else Err(Unauthorized)
      ensures db.St().At(me) == if r.Ok? then Ready(r.value.0, r.value.1) else Failed
    {
      var found;
      found, own := Find(me, hash, now, env[0], s0, env);
      if found.Err? {
        return Err(found.error), own;
      }
      var (token, rt) := found.value;
      var active := Load(me, token, rt, env[1], s0, own, env);
      assert (own + [RefreshLoad(me)])[..1] == own;
      own := own + [RefreshLoad(me)];
      r := if active then Ok((token, rt.user)) else Err(Unauthorized);
    }

    /** Steps 4 to 6: the second half, once the row and the user passed their checks. */
    method Rotate(me: Id, token: Id, user: Id, now: int, id: Id, issued: Raw, exp: int,
                  env: seq<seq<Action>>, ghost s0: State, ghost before: seq<Action>)
      returns (r: Result<Raw, Error>, ghost own: seq<Action>)
      requires refresh.db == db && OnTrack(db, s0, before, env, me) && |before| == 2 && |env| == 4
      requires db.St().At(me) == Ready(token, user)
      modifies db
      ensures Reached(db, s0, own, env)
      ensures own == before + [RefreshRevoke(me, now)]
              || own == before + [RefreshRevoke(me, now)] + [RefreshSave(me, id, issued, exp)]
      ensures own[..2] == before && own[..1] == before[..1] && own[0] == before[0]
      ensures var tokens := Met(s0, own[..2], env).tokens;
              && (|own| > 3 <==> token in tokens && tokens[token].revokedAt == None)
              && (|own| == 3 ==> r == Err(TokenRevoked) && db.tokens == tokens)
              && (|own| > 3 ==>
                    Run(s0, Woven(own[..3], env)).tokens == tokens[token := tokens[token].(revokedAt := Some(now))])
      ensures |own| > 3 ==>
                var met := Met(s0, own[..3], env);
                && r == (if id !in met.tokens && user in met.users
                            && (forall k :: k in met.tokens ==> met.tokens[k].hash != issued)
                         then Ok(issued) else Err(StorageError))
                && db.tokens == if r.Ok? then met.tokens[id := RefreshToken(user, issued, exp, None)] else met.tokens
      ensures db.St().At(me) == if r.Ok? then Refreshed(token, id) else Failed
    {
      // 4. Revoke the old refresh token
      var ok := RevokeOld(me, token, user, now, env[2], s0, before, env);
      own := before + [RefreshRevoke(me, now)];
      if !ok {
        return Err(TokenRevoked), own;
      }
      // 5-6. Issue and store the new one
      ok := SaveNew(me, token, user, id, issued, exp, env[3], s0, own, env);
      assert (own + [RefreshSave(me, id, issued, exp)])[..3] == own;
      own := own + [RefreshSave(me, id, issued, exp)];
      r := if ok then Ok(issued) else Err(StorageError);
    }

    /** `now` is the clock, `id` the new row's identifier, `issued` and `exp` what
        the issuer returns. */
    method Refresh(me: Id, hash: Raw, now: int, id: Id, issued: Raw, exp: int, env: seq<seq<Action>>)
      returns (r: Result<Raw, Error>, ghost own: seq<Action>)
      requires users.db == db && refresh.db == db
      requires me !in db.calls && |env| == 4 && NotMine(env, me)
      modifies db
      ensures Reached(db, old(db.St()), own, env) && RefreshScript(own, me, hash, now, id, issued, exp)
      ensures var seen := Run(old(db.St()), env[0]).tokens; var row := own[0].row;
              && (row.Some? ==> row.value in seen && seen[row.value].hash == hash)
              && (row == None ==> forall k :: k in seen ==> seen[k].hash != hash)
              && (|own| > 1 <==> row.Some? && seen[row.value].revokedAt == None && now <= seen[row.value].expiresAt)
              && (|own| == 1 ==> r == Err(if row.Some? && seen[row.value].revokedAt.Some? then TokenRevoked
                                          else InvalidRefreshToken))
      ensures |own| > 1 ==>
                var owner := Run(old(db.St()), env[0]).tokens[own[0].row.value].user;
                var users := Met(old(db.St()), own[..1], env).users;
                && (|own| > 2 <==> owner in users && users[owner].isActive)
                && (|own| == 2 ==> r == Err(Unauthorized))
      ensures |own| > 2 ==>
                var k := own[0].row.value; var tokens := Met(old(db.St()), own[..2], env).tokens;
                && (|own| > 3 <==> k in tokens && tokens[k].revokedAt == None)
                && (|own| == 3 ==> r == Err(TokenRevoked) && db.tokens == tokens)
                && (|own| > 3 ==>
                      Run(old(db.St()), Woven(own[..3], env)).tokens == tokens[k := tokens[k].(revokedAt := Some(now))])
      ensures |own| > 3 ==>
                var owner := Run(old(db.St()), env[0]).tokens[own[0].row.value].user;
                var met := Met(old(db.St()), own[..3], env);
                && r == (if id !in met.tokens && owner in met.users
                            && (forall k :: k in met.tokens ==> met.tokens[k].hash != issued)
                         then Ok(issued) else Err(StorageError))
                && db.tokens == if r.Ok? then met.tokens[id := RefreshToken(owner, issued, exp, None)] else met.tokens
      ensures db.St().At(me) == if r.Ok? then Refreshed(own[0].row.value, id) else Failed
    {
      ghost var s0 := db.St();
      // 1-3. Find the refresh token, check it, load the user
      var begun;
      begun, own := Begin(me, hash, now, env, s0);
      if begun.Err? {
        return Err(begun.error), own;
      }
      var (token, user) := begun.value;
      // 4-6. Revoke it, issue and store the new one
      r, own := Rotate(me, token, user, now, id, issued, exp, env, s0, own);
    }
  }

  /** The repository calls a Refresh makes, in order, up to where it stops. */
  predicate RefreshScript(own: seq<Action>, me: Id, hash: Raw, now: int, id: Id, issued: Raw, exp: int) {
    && 1 <= |own| <= 4
    && own[0].RefreshFind? && own[0].call == me && own[0].hash == hash && own[0].now == now
    && (|own| > 1 ==> own[1] == RefreshLoad(me))
    && (|own| > 2 ==> own[2] == RefreshRevoke(me, now))
    && (|own| > 3 ==> own[3] == RefreshSave(me, id, issued, exp))
  }

  // -------------------------------------------------------------------- Verify

  class VerifyEmailService {
    const db: Database
    const tokens: EmailVerificationRepository
    const users: UserRepository

    constructor (db: Database, tokens: EmailVerificationRepository, users: UserRepository)
      requires users.db == db && tokens.db == db
      ensures this.db == db && this.tokens == tokens && this.users == users
    {
      this.db, this.tokens, this.users := db, tokens, users;
    }

    method Find(me: Id, text: string, now: int, others: seq<Action>, ghost s0: State, ghost env: seq<seq<Action>>)
      returns (r: Result<(Id, EmailToken), Error>, ghost own: seq<Action>)
      requires tokens.db == db && OnTrack(db, s0, [], env, me) && others == env[0] && me !in db.calls
      modifies db
      ensures |own| == 1 && own[0].VerifyFind? && own[0].call == me && own[0].text == text && own[0].now == now
      ensures Reached(db, s0, own, env)
      ensures var seen := Run(s0, env[0]).emails; var row := own[0].row;
              && (row.Some? ==> row.value in seen && seen[row.value].hash == text)
              && (row == None ==> forall k :: k in seen ==> seen[k].hash != text)
              && (r.Ok? <==> row.Some? && !seen[row.value].isUsed && now <= seen[row.value].expiresAt)
              && (r.Ok? ==> r.value == (row.value, seen[row.value]))
              && (r.Err? ==> r.error == if row == None then NotFound
                                        else if seen[row.value].isUsed then InvalidTransition else DeadlinePassed)
      ensures db.St().At(me) == if r.Ok? then EmailFound(r.value.0, r.value.1) else Failed
    {
      Interrupted(db, others, me, s0, [], env);
      var row := tokens.FindByHash(text);
      own := [VerifyFind(me, text, now, row)];
      WovenStep(s0, [], env, own[0]);
      assert [] + [own[0]] == own;
      if row == None {
        db.Note(me, Failed);
        return Err(NotFound), own;
      }
      var token := db.emails[row.value];
      if token.isUsed {
        db.Note(me, Failed);
        return Err(InvalidTransition), own;
      }
      if now > token.expiresAt {
        db.Note(me, Failed);
        return Err(DeadlinePassed), own;
      }
      db.Note(me, EmailFound(row.value, token));
      r := Ok((row.value, token));
    }

    method Load(me: Id, email: Id, token: EmailToken, now: int, others: seq<Action>, ghost s0: State,
            ghost own: seq<Action>, ghost env: seq<seq<Action>>)
      returns (copy: Option<User>)
      requires users.db == db && OnTrack(db, s0, own, env, me) && others == env[|own|]
               && db.St().At(me) == EmailFound(email, token)
      modifies db
      ensures Reached(db, s0, own + [VerifyLoad(me, now)], env)
      ensures db.St().At(me) == if copy.Some? then Claiming(email, token.user, copy.value) else Failed
      ensures var users := Met(s0, own, env).users;
              && (copy.Some? <==> token.user in users)
              && (copy.Some? ==>
                    var read := users[token.user];
                    copy.value == read.(isVerified := true,
                                        verifiedAt := if read.isVerified then read.verifiedAt else Some(now)))
    {
      Interrupted(db, others, me, s0, own, env);
      var user := users.FindByID(token.user);
      WovenStep(s0, own, env, VerifyLoad(me, now));
      if user == None {
        db.Note(me, Failed);
        return None;
      }
      copy := Some(user.value.Verified(now));
      db.Note(me, Claiming(email, token.user, copy.value));
    }

    method ClaimToken(me: Id, email: Id, user: Id, copy: User, others: seq<Action>, ghost s0: State,
            ghost own: seq<Action>, ghost env: seq<seq<Action>>)
      returns (ok: bool)
      requires tokens.db == db && OnTrack(db, s0, own, env, me) && others == env[|own|]
      requires db.St().At(me) == Claiming(email, user, copy)
      modifies db
      ensures Reached(db, s0, own + [VerifyMark(me)], env)
      ensures var emails := Met(s0, own, env).emails;
              && (ok <==> email in emails && !emails[email].isUsed)
              && db.emails == if ok then emails[email := emails[email].(isUsed := true)] else emails
      ensures db.St().At(me) == if ok then Claimed(email, user, copy) else Failed
    {
      Interrupted(db, others, me, s0, own, env);
      ghost var mid := db.St();
      ok := tokens.MarkUsed(email);
      db.Note(me, if ok then Claimed(email, user, copy) else Failed);
      WovenTo(s0, own, env, VerifyMark(me), mid, db.St());
    }

    method WriteUser(me: Id, email: Id, user: Id, copy: User, others: seq<Action>,
                     ghost s0: State, ghost own: seq<Action>, ghost env: seq<seq<Action>>)
      returns (ok: bool)
      requires users.db == db && OnTrack(db, s0, own, env, me) && others == env[|own|]
      requires db.St().At(me) == Claimed(email, user, copy)
      modifies db
      ensures Reached(db, s0, own + [VerifyWrite(me)], env)
      ensures db.St().At(me) == if ok then VerifyDone(email) else Failed
      ensures var users := Met(s0, own, env).users;
              && (ok <==> user !in users || forall k :: k in users && k != user ==> users[k].email != copy.email)
              && db.users == if ok && user in users then users[user := copy] else users
    {
      Interrupted(db, others, me, s0, own, env);
      ghost var mid := db.St();
      ok := users.Update(user, copy);
      db.Note(me, if ok then VerifyDone(email) else Failed);
      WovenTo(s0, own, env, VerifyWrite(me), mid, db.St());
    }

    /** Steps 6 and 7: claim the token first, then save the user. */
    method Consume(me: Id, email: Id, user: Id, copy: User, env: seq<seq<Action>>, ghost s0: State,
            ghost before: seq<Action>)
      returns (r: Result<Id, Error>, ghost own: seq<Action>)
      requires users.db == db && tokens.db == db && OnTrack(db, s0, before, env, me) && |before| == 2 && |env| == 4
      requires db.St().At(me) == Claiming(email, user, copy)
      modifies db
      ensures Reached(db, s0, own, env)
      ensures own == before + [VerifyMark(me)] || own == before + [VerifyMark(me)] + [VerifyWrite(me)]
      ensures own[..2] == before && own[..1] == before[..1] && own[0] == before[0]
      ensures var emails := Met(s0, own[..2], env).emails;
              && (|own| > 3 <==> email in emails && !emails[email].isUsed)
              && (|own| == 3 ==> r == Err(InvalidTransition) && db.emails == emails)
              && (|own| > 3 ==>
                    Run(s0, Woven(own[..3], env)).emails == emails[email := emails[email].(isUsed := true)])
      ensures |own| > 3 ==>
                var users := Met(s0, own[..3], env).users;
                && r == (if user !in users || (forall k :: k in users && k != user ==> users[k].email != copy.email)
                         then Ok(user) else Err(StorageError))
                && db.users == if r.Ok? && user in users then users[user := copy] else users
      ensures db.St().At(me) == if r.Ok? then VerifyDone(email) else Failed
    {
      var ok := ClaimToken(me, email, user, copy, env[2], s0, before, env);
      own := before + [VerifyMark(me)];
      if !ok {
        return Err(InvalidTransition), own;
      }
      ok := WriteUser(me, email, user, copy, env[3], s0, own, env);
      assert (own + [VerifyWrite(me)])[..3] == own;
      own := own + [VerifyWrite(me)];
      r := if ok then Ok(user) else Err(StorageError);
    }

    /** Steps 1 to 5: the token, its checks, and the user it verifies. */
    method Begin(me: Id, text: string, now: int, env: seq<seq<Action>>, ghost s0: State)
      returns (r: Result<(Id, Id, User), Error>, ghost own: seq<Action>)
      requires users.db == db && tokens.db == db && OnTrack(db, s0, [], env, me) && |env| == 4 && me !in db.calls
      modifies db
      ensures Reached(db, s0, own, env)
      ensures 1 <= |own| <= 2 && own[0].VerifyFind? && own[0].call == me && own[0].text == text && own[0].now == now
      ensures |own| > 1 ==> own[1] == VerifyLoad(me, now)
      ensures var seen := Run(s0, env[0]).emails; var row := own[0].row;
              && (row.Some? ==> row.value in seen && seen[row.value].hash == text)
              && (row == None ==> forall k :: k in seen ==> seen[k].hash != text)
              && (|own| > 1 <==> row.Some? && !seen[row.value].isUsed && now <= seen[row.value].expiresAt)
              && (|own| == 1 ==> r == Err(if row == None then NotFound
                                          else if seen[row.value].isUsed then InvalidTransition else DeadlinePassed))
      ensures |own| > 1 ==>
                var k := own[0].row.value; var owner := Run(s0, env[0]).emails[k].user;
                var users := Met(s0, own[..1], env).users;
                if owner !in users then r == Err(NotFound)
                else r == Ok((k, owner, users[owner].(
                  isVerified := true,
                  verifiedAt := if users[owner].isVerified then users[owner].verifiedAt else Some(now))))
      ensures db.St().At(me) == if r.Ok? then Claiming(r.value.0, r.value.1, r.value.2) else Failed
    {
      var found;
      found, own := Find(me, text, now, env[0], s0, env);
      if found.Err? {
        return Err(found.error), own;
      }
      var (email, token) := found.value;
      var copy := Load(me, email, token, now, env[1], s0, own, env);
      assert (own + [VerifyLoad(me, now)])[..1] == own;
      own := own + [VerifyLoad(me, now)];
      r := if copy == None then Err(NotFound) else Ok((email, token.user, copy.value));
    }

    /** `written` is the user's row as this call writes it, once it has read it. */
    method Verify(me: Id, text: string, now: int, env: seq<seq<Action>>)
      returns (r: Result<Id, Error>, ghost own: seq<Action>, ghost written: Option<User>)
      requires users.db == db && tokens.db == db
      requires me !in db.calls && |env| == 4 && NotMine(env, me)
      modifies db
      ensures Reached(db, old(db.St()), own, env)
      ensures 1 <= |own| <= 4 && own[0].VerifyFind? && own[0].call == me && own[0].text == text && own[0].now == now
      ensures |own| > 1 ==> own[1] == VerifyLoad(me, now)
      ensures |own| > 2 ==> own[2] == VerifyMark(me)
      ensures |own| > 3 ==> own[3] == VerifyWrite(me)
      ensures var seen := Run(old(db.St()), env[0]).emails; var row := own[0].row;
              && (row.Some? ==> row.value in seen && seen[row.value].hash == text)
              && (row == None ==> forall k :: k in seen ==> seen[k].hash != text)
              && (|own| > 1 <==> row.Some? && !seen[row.value].isUsed && now <= seen[row.value].expiresAt)
              && (|own| == 1 ==> r == Err(if row == None then NotFound
                                          else if seen[row.value].isUsed then InvalidTransition else DeadlinePassed))
      ensures |own| > 1 ==>
                var owner := Run(old(db.St()), env[0]).emails[own[0].row.value].user;
                var users := Met(old(db.St()), own[..1], env).users;
                && (|own| == 2 ==> owner !in users && r == Err(NotFound))
                && (|own| > 2 ==> owner in users && written == Some(users[owner].(
                      isVerified := true,
                      verifiedAt := if users[owner].isVerified then users[owner].verifiedAt else Some(now))))
      ensures |own| > 2 ==>
                var k := own[0].row.value; var emails := Met(old(db.St()), own[..2], env).emails;
                && (|own| > 3 <==> k in emails && !emails[k].isUsed)
                && (|own| == 3 ==> r == Err(InvalidTransition) && db.emails == emails)
                && (|own| > 3 ==>
                      Run(old(db.St()), Woven(own[..3], env)).emails == emails[k := emails[k].(isUsed := true)])
      ensures |own| > 3 ==>
                var owner := Run(old(db.St()), env[0]).emails[own[0].row.value].user;
                var users := Met(old(db.St()), own[..3], env).users;
                && written.Some?
                && r == (if owner !in users
                            || (forall k :: k in users && k != owner ==> users[k].email != written.value.email)
                         then Ok(owner) else Err(StorageError))
                && db.users == if r.Ok? && owner in users then users[owner := written.value] else users
      ensures db.St().At(me) == if r.Ok? then VerifyDone(own[0].row.value) else Failed
    {
      ghost var s0 := db.St();
      var begun;
      begun, own := Begin(me, text, now, env, s0);
      if begun.Err? {
        return Err(begun.error), own, None;
      }
      var (email, user, copy) := begun.value;
      written := Some(copy);
      r, own := Consume(me, email, user, copy, env, s0, own);
    }
  }

  // --------------------------------------------------------------------- Login

  class LoginService {
    const db: Database
    const users: UserRepository
    const refresh: RefreshTokenRepository

    constructor (db: Database, users: UserRepository, refresh: RefreshTokenRepository)
      requires users.db == db && refresh.db == db
      ensures this.db == db && this.users == users && this.refresh == refresh
    {
      this.db, this.users, this.refresh := db, users, refresh;
    }

    /** `matches` is the hasher's answer for the stored hash and the given password. */
    method Find(me: Id, email: string, matches: string -> bool, others: seq<Action>, ghost s0: State,
            ghost env: seq<seq<Action>>)
      returns (r: Result<Id, Error>, ghost own: seq<Action>)
      requires users.db == db && OnTrack(db, s0, [], env, me) && others == env[0] && me !in db.calls
      modifies db
      ensures |own| == 1 && own[0].LoginFind? && own[0].call == me && own[0].email == email
      ensures Reached(db, s0, own, env)
      ensures var seen := Run(s0, env[0]).users; var row := own[0].row;
              && (row.Some? ==> row.value in seen && seen[row.value].email == email)
              && (row == None ==> forall k :: k in seen ==> seen[k].email != email)
              && r == if row == None then Err(InvalidCredentials)
                      else if !seen[row.value].isActive || !seen[row.value].isVerified then Err(Forbidden)
                      else if !matches(seen[row.value].passwordHash) then Err(InvalidCredentials) else Ok(row.value)
      ensures db.St().At(me) == if r.Ok? then LoggingIn(r.value) else Failed
    {
      Interrupted(db, others, me, s0, [], env);
      ghost var mid := db.St();
      var row := users.FindByEmail(email);
      ghost var proven := row.Some? && db.users[row.value].isActive && matches(db.users[row.value].passwordHash);
      own := [LoginFind(me, email, row, proven)];
      r := Err(InvalidCredentials);
      if row.Some? {
        r := CheckAccount(row.value, db.users[row.value], matches);
      }
      db.Note(me, if r.Ok? then LoggingIn(r.value) else Failed);
      WovenTo(s0, [], env, own[0], mid, db.St());
      assert [] + own == own;
    }

    method CheckAccount(id: Id, user: User, matches: string -> bool) returns (r: Result<Id, Error>)
      ensures r.Ok? <==> user.isActive && user.isVerified && matches(user.passwordHash)
      ensures r.Ok? ==> r.value == id
      ensures r == Err(Forbidden) <==> !user.isActive || !user.isVerified
      ensures r.Err? ==> r.error == Forbidden || r.error == InvalidCredentials
    {
      if !user.isActive || !user.isVerified {
        return Err(Forbidden);
      }
      if !matches(user.passwordHash) {
        return Err(InvalidCredentials);
      }
      r := Ok(id);
    }

    method Save(me: Id, user: Id, id: Id, issued: Raw, exp: int, others: seq<Action>, ghost s0: State,
            ghost own: seq<Action>, ghost env: seq<seq<Action>>)
      returns (ok: bool)
      requires refresh.db == db && OnTrack(db, s0, own, env, me) && others == env[|own|]
               && db.St().At(me) == LoggingIn(user)
      modifies db
      ensures Reached(db, s0, own + [LoginSave(me, id, issued, exp)], env)
      ensures db.St().At(me) == if ok then LoggedIn(id) else Failed
      ensures var met := Met(s0, own, env);
              && (ok <==> id !in met.tokens && user in met.users
                          && forall k :: k in met.tokens ==> met.tokens[k].hash != issued)
              && db.tokens == (if ok then met.tokens[id := RefreshToken(user, issued, exp, None)] else met.tokens)
              && db.family == if ok then met.family[id := me] else met.family
    {
      Interrupted(db, others, me, s0, own, env);
      ghost var mid := db.St();
      ok := refresh.Save(id, RefreshToken(user, issued, exp, None));
      if ok {
        db.family := db.family[id := me];
      }
      db.Note(me, if ok then LoggedIn(id) else Failed);
      WovenTo(s0, own, env, LoginSave(me, id, issued, exp), mid, db.St());
    }

    method Login(me: Id, email: string, matches: string -> bool, id: Id, issued: Raw, exp: int, env: seq<seq<Action>>)
      returns (r: Result<Raw, Error>, ghost own: seq<Action>)
      requires users.db == db && refresh.db == db
      requires me !in db.calls && |env| == 2 && NotMine(env, me)
      modifies db
      ensures Reached(db, old(db.St()), own, env)
      ensures 1 <= |own| <= 2 && own[0].LoginFind? && own[0].call == me && own[0].email == email
              && (|own| > 1 ==> own[1] == LoginSave(me, id, issued, exp))
      ensures var seen := Run(old(db.St()), env[0]).users; var row := own[0].row;
              && (row.Some? ==> row.value in seen && seen[row.value].email == email)
              && (row == None ==> forall k :: k in seen ==> seen[k].email != email)
              && (|own| > 1 <==> row.Some? && seen[row.value].isActive && seen[row.value].isVerified
                                 && matches(seen[row.value].passwordHash))
              && (|own| == 1 ==>
                    r == Err(if row.Some? && !(seen[row.value].isActive && seen[row.value].isVerified) then Forbidden
                             else InvalidCredentials))
      ensures |own| > 1 ==>
                var met := Met(old(db.St()), own[..1], env); var user := own[0].row.value;
                && r == (if id !in met.tokens && user in met.users
                            && (forall k :: k in met.tokens ==> met.tokens[k].hash != issued)
                         then Ok(issued) else Err(StorageError))
                && db.tokens == (if r.Ok? then met.tokens[id := RefreshToken(user, issued, exp, None)] else met.tokens)
                && db.family == if r.Ok? then met.family[id := me] else met.family
      ensures db.St().At(me) == if r.Ok? then LoggedIn(id) else Failed
    {
      ghost var s0 := db.St();
      var found;
      found, own := Find(me, email, matches, env[0], s0, env);
      if found.Err? {
        return Err(found.error), own;
      }
      var user := found.value;
      var ok := Save(me, user, id, issued, exp, env[1], s0, own, env);
      assert (own + [LoginSave(me, id, issued, exp)])[..1] == own;
      own := own + [LoginSave(me, id, issued, exp)];
      r := if ok then Ok(issued) else Err(StorageError);
    }
  }

  // -------------------------------------------------------------------- Logout

  class LogoutService {
    const db: Database
    const cache: AccessGate.RedisCache
    const refresh: RefreshTokenRepository

    constructor (db: Database, cache: AccessGate.RedisCache, refresh: RefreshTokenRepository)
      requires refresh.db == db
      ensures this.db == db && this.cache == cache && this.refresh == refresh
    {
      this.db, this.cache, this.refresh := db, cache, refresh;
    }

    method Find(me: Id, raw: Raw, others: seq<Action>, ghost s0: State, ghost env: seq<seq<Action>>)
      returns (row: Option<Id>)
      requires refresh.db == db && OnTrack(db, s0, [], env, me) && others == env[0] && me !in db.calls
      modifies db
      ensures Reached(db, s0, [LogoutFind(me, raw, row)], env)
      ensures var seen := Run(s0, env[0]).tokens;
              && (row.Some? ==> row.value in seen && seen[row.value].hash == raw)
              && (row == None ==> forall k :: k in seen ==> seen[k].hash != raw)
      ensures db.St().At(me) == if row.Some? then LoggingOut(row.value) else Finished
    {
      Interrupted(db, others, me, s0, [], env);
      row := refresh.FindByHash(raw);
      WovenStep(s0, [], env, LogoutFind(me, raw, row));
      assert [] + [LogoutFind(me, raw, row)] == [LogoutFind(me, raw, row)];
      db.Note(me, if row.Some? then LoggingOut(row.value) else Finished);
    }

    method RevokeFound(me: Id, token: Id, now: int, others: seq<Action>, ghost s0: State, ghost own: seq<Action>,
            ghost env: seq<seq<Action>>)
      requires refresh.db == db && OnTrack(db, s0, own, env, me) && others == env[|own|]
               && db.St().At(me) == LoggingOut(token)
      modifies db
      ensures Reached(db, s0, own + [LogoutRevoke(me, now)], env)
      ensures db.St().At(me) == Finished
      ensures var met := Met(s0, own, env).tokens;
              db.tokens == if token in met && met[token].revokedAt == None
                           then met[token := met[token].(revokedAt := Some(now))] else met
    {
      Interrupted(db, others, me, s0, own, env);
      ghost var mid := db.St();
      var _ := refresh.Revoke(token, now);
      db.Note(me, Finished);
      WovenTo(s0, own, env, LogoutRevoke(me, now), mid, db.St());
    }

    /** The revocation is not done: the row stays as the others left it. */
    method MissRevoke(me: Id, token: Id, others: seq<Action>, ghost s0: State, ghost own: seq<Action>,
            ghost env: seq<seq<Action>>)
      requires OnTrack(db, s0, own, env, me) && others == env[|own|] && db.St().At(me) == LoggingOut(token)
      modifies db
      ensures Reached(db, s0, own + [Abort(me)], env)
      ensures db.St().At(me) == Failed && db.tokens == Met(s0, own, env).tokens
    {
      Interrupted(db, others, me, s0, own, env);
      ghost var mid := db.St();
      db.Note(me, Failed);
      WovenTo(s0, own, env, Abort(me), mid, db.St());
    }

    /** Blacklists the access token; a raw refresh token, if given, is then looked up and
        revoked, and the outcome of that is ignored: when the lookup or the revocation
        fails, the logout still reports success. */
    method Logout(me: Id, jti: string, exp: int, raw: Option<Raw>, read: nat, at: nat, fault: Fault,
            lookupFails: bool, revocation: Fault, now: int, env: seq<seq<Action>>)
      returns (ok: bool, ghost own: seq<Action>)
      requires refresh.db == db && me !in db.calls && |env| == 2 && NotMine(env, me)
      modifies db, cache
      ensures var left := exp * 1_000_000_000 - read;
              && (ok <==> left <= 0 || fault == NoFault)
              && cache.entries == if left <= 0 || fault == NotDone then old(cache.entries)
                                  else old(cache.entries)["revoked:" + jti := AccessGate.Entry(
                                    "1", at / 1_000_000 + if left < 1_000_000 then 1 else left / 1_000_000)]
      ensures Reached(db, old(db.St()), own, env)
      ensures own != [] <==> ok && raw.Some? && !lookupFails
      ensures own != [] ==> |own| <= 2 && own[0].LogoutFind? && own[0].call == me && own[0].hash == raw.value
      ensures own != [] && own[0].row == None ==> db.St().At(me) == Finished
      ensures |own| == 2 <==> own != [] && own[0].row.Some?
      ensures |own| == 2 ==> own[1] == if revocation != NotDone then LogoutRevoke(me, now) else Abort(me)
      ensures own != [] ==>
                var seen := Run(old(db.St()), env[0]).tokens; var row := own[0].row;
                && (row.Some? ==> row.value in seen && seen[row.value].hash == raw.value)
                && (row == None ==> forall k :: k in seen ==> seen[k].hash != raw.value)
      ensures |own| == 2 ==>
                var k := own[0].row.value; var met := Met(old(db.St()), own[..1], env).tokens;
                db.tokens == if revocation != NotDone && k in met && met[k].revokedAt == None
                             then met[k := met[k].(revokedAt := Some(now))] else met
    {
      ghost var s0 := db.St();
      own := [];
      ok := AccessGate.Blacklist(cache, jti, exp, read, at, fault);
      if !ok || raw == None || lookupFails {
        return;
      }
      var row := Find(me, raw.value, env[0], s0, env);
      own := [LogoutFind(me, raw.value, row)];
      if row.Some? {
        if revocation.Done() {
          RevokeFound(me, row.value, now, env[1], s0, own, env);
          assert (own + [LogoutRevoke(me, now)])[..1] == own;
          own := own + [LogoutRevoke(me, now)];
        } else {
          MissRevoke(me, row.value, env[1], s0, own, env);
          assert (own + [Abort(me)])[..1] == own;
          own := own + [Abort(me)];
        }
      }
    }
  }

  // ------------------------------------------------------------------ Register

  class RegisterService {
    const db: Database
    const users: UserRepository
    const emails: EmailVerificationRepository

    constructor (db: Database, users: UserRepository, emails: EmailVerificationRepository)
      requires users.db == db && emails.db == db
      ensures this.db == db && this.users == users && this.emails == emails
    {
      this.db, this.users, this.emails := db, users, emails;
    }

    /** The existing account's rewritten copy, or None for a new account. */
    method Find(me: Id, email: string, hash: string, name: string, draft: Option<User>, others: seq<Action>,
            ghost s0: State, ghost env: seq<seq<Action>>)
      returns (r: Result<Option<(Id, User)>, Error>, ghost own: seq<Action>)
      requires users.db == db && OnTrack(db, s0, [], env, me) && others == env[0] && me !in db.calls
               && (draft.Some? ==> !draft.value.isVerified)
      modifies db
      ensures |own| == 1 && own[0].RegisterFind? && own[0] == RegisterFind(me, email, own[0].row, hash, name, draft)
      ensures Reached(db, s0, own, env)
      ensures var seen := Run(s0, env[0]).users; var row := own[0].row;
              && (row.Some? ==> row.value in seen && seen[row.value].email == email)
              && (row == None ==> forall k :: k in seen ==> seen[k].email != email)
              && r == if row == None then (if draft.Some? then Ok(None) else Err(InvalidUser))
                      else if seen[row.value].isVerified then Err(Duplicate)
                      else Ok(Some((row.value, seen[row.value].(passwordHash := hash, displayName := name))))
      ensures r == Ok(None) ==> db.St().At(me) == Registering(draft.value)
      ensures r.Ok? && r.value.Some? ==> db.St().At(me) == ReRegistering(r.value.value.0, r.value.value.1)
      ensures r.Err? ==> db.St().At(me) == Failed
    {
      Interrupted(db, others, me, s0, [], env);
      var row := users.FindByEmail(email);
      own := [RegisterFind(me, email, row, hash, name, draft)];
      WovenStep(s0, [], env, own[0]);
      assert [] + [own[0]] == own;
      if row == None {
        db.Note(me, if draft.Some? then Registering(draft.value) else Failed);
        return if draft.Some? then Ok(None) else Err(InvalidUser), own;
      }
      var existing := db.users[row.value];
      if existing.isVerified {
        db.Note(me, Failed);
        return Err(Duplicate), own;
      }
      var copy := existing.(passwordHash := hash, displayName := name);
      db.Note(me, ReRegistering(row.value, copy));
      r := Ok(Some((row.value, copy)));
    }

    method Rewrite(me: Id, user: Id, copy: User, others: seq<Action>,
                   ghost s0: State, ghost own: seq<Action>, ghost env: seq<seq<Action>>)
      returns (ok: bool)
      requires users.db == db && OnTrack(db, s0, own, env, me) && others == env[|own|]
               && db.St().At(me) == ReRegistering(user, copy)
      modifies db
      ensures Reached(db, s0, own + [RegisterUpdate(me)], env)
      ensures var met := Met(s0, own, env).users;
              && (ok <==> user !in met || forall k :: k in met && k != user ==> met[k].email != copy.email)
              && db.users == if ok && user in met then met[user := copy] else met
      ensures db.St().At(me) == if ok then Inviting(user) else Failed
    {
      Interrupted(db, others, me, s0, own, env);
      ghost var mid := db.St();
      ok := users.Update(user, copy);
      db.Note(me, if ok then Inviting(user) else Failed);
      WovenTo(s0, own, env, RegisterUpdate(me), mid, db.St());
    }

    method Insert(me: Id, draft: User, id: Id, others: seq<Action>, ghost s0: State, ghost own: seq<Action>,
            ghost env: seq<seq<Action>>)
      returns (ok: bool)
      requires users.db == db && OnTrack(db, s0, own, env, me) && others == env[|own|]
               && db.St().At(me) == Registering(draft)
      modifies db
      ensures Reached(db, s0, own + [RegisterInsert(me, id)], env)
      ensures var met := Met(s0, own, env).users;
              && (ok <==> id !in met && forall k :: k in met ==> met[k].email != draft.email)
              && db.users == if ok then met[id := draft] else met
      ensures db.St().At(me) == if ok then Inviting(id) else Failed
    {
      Interrupted(db, others, me, s0, own, env);
      ghost var mid := db.St();
      ok := users.Save(id, draft);
      db.Note(me, if ok then Inviting(id) else Failed);
      WovenTo(s0, own, env, RegisterInsert(me, id), mid, db.St());
    }

    method SendToken(me: Id, user: Id, id: Id, text: string, exp: int, others: seq<Action>, ghost s0: State,
            ghost own: seq<Action>, ghost env: seq<seq<Action>>)
      returns (ok: bool)
      requires emails.db == db && OnTrack(db, s0, own, env, me) && others == env[|own|]
               && db.St().At(me) == Inviting(user)
      modifies db
      ensures Reached(db, s0, own + [RegisterInvite(me, id, text, exp)], env)
      ensures db.St().At(me) == if ok then Finished else Failed
      ensures var met := Met(s0, own, env);
              && (ok <==> id !in met.emails && user in met.users
                          && forall k :: k in met.emails ==> met.emails[k].hash != text)
              && db.emails == if ok then met.emails[id := EmailToken(user, text, exp, false)] else met.emails
    {
      Interrupted(db, others, me, s0, own, env);
      ghost var mid := db.St();
      ok := emails.Save(id, EmailToken(user, text, exp, false));
      db.Note(me, if ok then Finished else Failed);
      WovenTo(s0, own, env, RegisterInvite(me, id, text, exp), mid, db.St());
    }

    /** The account the invitation goes to: the rewritten one, or the inserted one. */
    method Account(me: Id, found: Option<(Id, User)>, draft: Option<User>, id: Id, others: seq<Action>,
                   ghost s0: State, ghost own: seq<Action>, ghost env: seq<seq<Action>>)
      returns (r: Result<Id, Error>, ghost step: Action)
      requires users.db == db && OnTrack(db, s0, own, env, me) && others == env[|own|]
               && (found == None ==> draft.Some?)
      requires db.St().At(me) == if found.Some? then ReRegistering(found.value.0, found.value.1)
               else Registering(draft.value)
      modifies db
      ensures step == if found.Some? then RegisterUpdate(me) else RegisterInsert(me, id)
      ensures Reached(db, s0, own + [step], env) && db.St().At(me) == if r.Ok? then Inviting(r.value) else Failed
      ensures found.Some? ==>
                var met := Met(s0, own, env).users; var (user, copy) := found.value;
                && r == (if user !in met || (forall k :: k in met && k != user ==> met[k].email != copy.email)
                         then Ok(user) else Err(StorageError))
                && db.users == if r.Ok? && user in met then met[user := copy] else met
      ensures found == None ==>
                var met := Met(s0, own, env).users;
                && r == (if id !in met && (forall k :: k in met ==> met[k].email != draft.value.email)
                         then Ok(id) else Err(Duplicate))
                && db.users == if r.Ok? then met[id := draft.value] else met
    {
      if found.Some? {
        step := RegisterUpdate(me);
        var updated := Rewrite(me, found.value.0, found.value.1, others, s0, own, env);
        r := if updated then Ok(found.value.0) else Err(StorageError);
      } else {
        step := RegisterInsert(me, id);
        var inserted := Insert(me, draft.value, id, others, s0, own, env);
        r := if inserted then Ok(id) else Err(Duplicate);
      }
    }

    /** The account alone. */
    method Begin(me: Id, found: Option<(Id, User)>, draft: Option<User>, id: Id, env: seq<seq<Action>>,
                 ghost s0: State, ghost before: seq<Action>)
      returns (r: Result<Id, Error>, ghost own: seq<Action>)
      requires users.db == db && OnTrack(db, s0, before, env, me) && |before| == 1 && |env| == 3
      requires found == None ==> draft.Some?
      requires db.St().At(me) == if found.Some? then ReRegistering(found.value.0, found.value.1)
               else Registering(draft.value)
      modifies db
      ensures Reached(db, s0, own, env) && |own| == 2 && own[..1] == before && own[..2] == own
      ensures own[1] == if found.Some? then RegisterUpdate(me) else RegisterInsert(me, id)
      ensures found.Some? ==>
                var met := Met(s0, own[..1], env).users; var (user, copy) := found.value;
                && r == (if user !in met || (forall k :: k in met && k != user ==> met[k].email != copy.email)
                         then Ok(user) else Err(StorageError))
                && Run(s0, Woven(own[..2], env)).users == if r.Ok? && user in met then met[user := copy] else met
      ensures found == None ==>
                var met := Met(s0, own[..1], env).users;
                && r == (if id !in met && (forall k :: k in met ==> met[k].email != draft.value.email)
                         then Ok(id) else Err(Duplicate))
                && Run(s0, Woven(own[..2], env)).users == if r.Ok? then met[id := draft.value] else met
      ensures db.St().At(me) == if r.Ok? then Inviting(r.value) else Failed
    {
      ghost var step;
      r, step := Account(me, found, draft, id, env[1], s0, before, env);
      own := before + [step];
      assert own[..1] == before && own[..2] == own;
    }

    /** The email token, and the mail. */
    method Confirm(me: Id, user: Id, isNew: bool, tokenId: Id, text: string, exp: int, mailed: bool,
                   env: seq<seq<Action>>, ghost s0: State, ghost before: seq<Action>)
      returns (r: Result<Id, Error>, ghost own: seq<Action>)
      requires emails.db == db && OnTrack(db, s0, before, env, me) && |before| == 2 && |env| == 3
      requires db.St().At(me) == Inviting(user)
      modifies db
      ensures Reached(db, s0, own, env) && |own| == 3 && own[2] == RegisterInvite(me, tokenId, text, exp)
      ensures own[..2] == before && own[..1] == before[..1] && own[1] == before[1]
      ensures var met := Met(s0, own[..2], env);
              var saved := tokenId !in met.emails && user in met.users
                           && forall k :: k in met.emails ==> met.emails[k].hash != text;
              && db.emails == (if saved then met.emails[tokenId := EmailToken(user, text, exp, false)]
                               else met.emails)
              && r == if !saved then Err(StorageError) else if isNew && !mailed then Err(MailFailed) else Ok(user)
      ensures db.St().At(me) == if r.Ok? || r == Err(MailFailed) then Finished else Failed
    {
      var ok := SendToken(me, user, tokenId, text, exp, env[2], s0, before, env);
      own := before + [RegisterInvite(me, tokenId, text, exp)];
      assert own[..2] == before && own[..1] == before[..1];
      r := if !ok then Err(StorageError) else if isNew && !mailed then Err(MailFailed) else Ok(user);
    }

    /** The account, then its email token; the mail's failure is reported for a new account. */
    method Enroll(me: Id, found: Option<(Id, User)>, draft: Option<User>, id: Id, tokenId: Id, text: string, exp: int,
                  mailed: bool, env: seq<seq<Action>>, ghost s0: State, ghost before: seq<Action>)
      returns (r: Result<Id, Error>, ghost own: seq<Action>)
      requires users.db == db && emails.db == db && OnTrack(db, s0, before, env, me) && |before| == 1 && |env| == 3
      requires found == None ==> draft.Some?
      requires db.St().At(me) == if found.Some? then ReRegistering(found.value.0, found.value.1)
               else Registering(draft.value)
      modifies db
      ensures Reached(db, s0, own, env) && 2 <= |own| <= 3 && own[..1] == before
      ensures own[1] == if found.Some? then RegisterUpdate(me) else RegisterInsert(me, id)
      ensures |own| > 2 ==> own[2] == RegisterInvite(me, tokenId, text, exp)
      ensures found.Some? ==>
                var met := Met(s0, own[..1], env).users; var (user, copy) := found.value;
                && (|own| > 2 <==> user !in met || forall k :: k in met && k != user ==> met[k].email != copy.email)
                && (|own| == 2 ==> r == Err(StorageError))
                && Run(s0, Woven(own[..2], env)).users
                   == if |own| > 2 && user in met then met[user := copy] else met
      ensures found == None ==>
                var met := Met(s0, own[..1], env).users;
                && (|own| > 2 <==> id !in met && forall k :: k in met ==> met[k].email != draft.value.email)
                && (|own| == 2 ==> r == Err(Duplicate))
                && Run(s0, Woven(own[..2], env)).users == if |own| > 2 then met[id := draft.value] else met
      ensures |own| > 2 ==>
                var met := Met(s0, own[..2], env); var user := if found.Some? then found.value.0 else id;
                var saved := tokenId !in met.emails && user in met.users
                             && forall k :: k in met.emails ==> met.emails[k].hash != text;
                && db.emails == (if saved then met.emails[tokenId := EmailToken(user, text, exp, false)]
                                 else met.emails)
                && r == if !saved then Err(StorageError)
                        else if found == None && !mailed then Err(MailFailed) else Ok(user)
      ensures db.St().At(me) == if r.Ok? || r == Err(MailFailed) then Finished else Failed
    {
      var user;
      user, own := Begin(me, found, draft, id, env, s0, before);
      if user.Err? {
        return Err(user.error), own;
      }
      r, own := Confirm(me, user.value, found == None, tokenId, text, exp, mailed, env, s0, own);
    }

    /** `draft` is the new account NewUser builds from the command (unverified, active, with
        the hashed password), or None if it refuses the email or the name. `mailed` says
        whether the mail was queued; only a new account's registration reports that. The
        email token lives for 24 hours from `now`. */
    method Register(me: Id, email: string, hash: string, name: string, draft: Option<User>, id: Id, tokenId: Id,
                    text: string, now: int, mailed: bool, env: seq<seq<Action>>)
      returns (r: Result<Id, Error>, ghost own: seq<Action>)
      requires users.db == db && emails.db == db
      requires me !in db.calls && |env| == 3 && NotMine(env, me) && (draft.Some? ==> !draft.value.isVerified)
      modifies db
      ensures Reached(db, old(db.St()), own, env)
      ensures 1 <= |own| <= 3 && own[0].RegisterFind?
              && own[0] == RegisterFind(me, email, own[0].row, hash, name, draft)
      ensures |own| > 1 ==> own[1] == if own[0].row.Some? then RegisterUpdate(me) else RegisterInsert(me, id)
      ensures |own| > 2 ==> own[2] == RegisterInvite(me, tokenId, text, now + 86_400_000_000_000)
      ensures var seen := Run(old(db.St()), env[0]).users; var row := own[0].row;
              && (row.Some? ==> row.value in seen && seen[row.value].email == email)
              && (row == None ==> forall k :: k in seen ==> seen[k].email != email)
              && (|own| > 1 <==> if row.Some? then !seen[row.value].isVerified else draft.Some?)
              && (|own| == 1 ==> r == Err(if row.Some? then Duplicate else InvalidUser))
      ensures |own| > 1 && own[0].row.Some? ==>
                var user := own[0].row.value; var read := Run(old(db.St()), env[0]).users[user];
                var met := Met(old(db.St()), own[..1], env).users;
                && (|own| > 2 <==> user !in met || forall k :: k in met && k != user ==> met[k].email != read.email)
                && (|own| == 2 ==> r == Err(StorageError))
                && Run(old(db.St()), Woven(own[..2], env)).users
                   == if |own| > 2 && user in met
                      then met[user := read.(passwordHash := hash, displayName := name)] else met
      ensures |own| > 1 && own[0].row == None ==>
                var met := Met(old(db.St()), own[..1], env).users;
                && (|own| > 2 <==> id !in met && forall k :: k in met ==> met[k].email != draft.value.email)
                && (|own| == 2 ==> r == Err(Duplicate))
                && Run(old(db.St()), Woven(own[..2], env)).users
                   == if |own| > 2 then met[id := draft.value] else met
      ensures |own| > 2 ==>
                var met := Met(old(db.St()), own[..2], env);
                var user := if own[0].row.Some? then own[0].row.value else id;
                var saved := tokenId !in met.emails && user in met.users
                             && forall k :: k in met.emails ==> met.emails[k].hash != text;
                var token := EmailToken(user, text, now + 86_400_000_000_000, false);
                && db.emails == (if saved then met.emails[tokenId := token] else met.emails)
                && r == if !saved then Err(StorageError)
                        else if own[0].row == None && !mailed then Err(MailFailed) else Ok(user)
      ensures db.St().At(me) == if r.Ok? || r == Err(MailFailed) then Finished else Failed
    {
      ghost var s0 := db.St();
      var found;
      found, own := Find(me, email, hash, name, draft, env[0], s0, env);
      if found.Err? {
        return Err(found.error), own;
      }
      r, own := Enroll(me, found.value, draft, id, tokenId, text, now + 86_400_000_000_000, mailed, env, s0, own);
    }
  }
}
