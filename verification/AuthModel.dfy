/** Accounts and sessions as a state machine over the tables users,
    email_verification_tokens and refresh_tokens
    (internal/auth/repository/postgres.go, internal/auth/usecase).

    An action is one repository call of one service call, together with the
    checks the service makes before its next repository call. Any number of
    service calls interleave. An action carries what the machine cannot know:
    clock readings, generated identifiers, and which row a query returned. */
module AuthModel {
  import opened Wrappers

  type Id = nat

  datatype User = User(
    email: string, passwordHash: string, displayName: string,
    isVerified: bool, isActive: bool, verifiedAt: Option<int>)
  {
    /** internal/auth/domain/user.go: a verified user keeps its first time. */
    function Verified(now: int): User {
      if isVerified then this else this.(isVerified := true, verifiedAt := Some(now))
    }
  }

  /** Hashing is injective, so a row's hash is represented by the text it hashes. */
  datatype EmailToken = EmailToken(user: Id, hash: string, expiresAt: int, isUsed: bool)

  /** A raw refresh token: what the issuer signs, or any other text. It holds no
      identifier, so two issued to one user in the same second are equal. */
  datatype Raw = Jwt(sub: Id, exp: int, iat: int) | Text(text: string)

  datatype RefreshToken = RefreshToken(user: Id, hash: Raw, expiresAt: int, revokedAt: Option<int>)
  {
    predicate IsExpired(now: int) { now > expiresAt }
  }

  type Users = map<Id, User>
  type EmailTokens = map<Id, EmailToken>
  type RefreshTokens = map<Id, RefreshToken>

  // ------------------------------------------------------------ table functions

  /** The primary key and the unique email. */
  predicate UserInsertable(users: Users, id: Id, u: User) {
    id !in users && forall k :: k in users ==> users[k].email != u.email
  }

  /** UPDATE … WHERE id sets the email too, which another row may have. */
  predicate UserUpdatable(users: Users, id: Id, u: User) {
    id in users ==> forall k :: k in users && k != id ==> users[k].email != u.email
  }

  /** No row, no change; nor if the statement fails. */
  function UserUpdated(users: Users, id: Id, u: User): Users {
    if id in users && UserUpdatable(users, id, u) then users[id := u] else users
  }

  /** The primary key, the unique hash and the foreign key to users. */
  predicate EmailTokenInsertable(emails: EmailTokens, users: Users, id: Id, t: EmailToken) {
    id !in emails && t.user in users && forall k :: k in emails ==> emails[k].hash != t.hash
  }

  predicate TokenInsertable(tokens: RefreshTokens, users: Users, id: Id, t: RefreshToken) {
    id !in tokens && t.user in users && forall k :: k in tokens ==> tokens[k].hash != t.hash
  }

  /** UPDATE … WHERE id AND revoked_at IS NULL affects a row. */
  predicate Live(tokens: RefreshTokens, id: Id) {
    id in tokens && tokens[id].revokedAt == None
  }

  function Revoked(tokens: RefreshTokens, id: Id, now: int): RefreshTokens {
    if Live(tokens, id) then tokens[id := tokens[id].(revokedAt := Some(now))] else tokens
  }

  /** UPDATE … WHERE id AND is_used = false affects a row. */
  predicate Unused(emails: EmailTokens, id: Id) {
    id in emails && !emails[id].isUsed
  }

  function Used(emails: EmailTokens, id: Id): EmailTokens {
    if Unused(emails, id) then emails[id := emails[id].(isUsed := true)] else emails
  }

  /** `row` is an answer to SELECT … WHERE token_hash. */
  predicate TokenAnswer(tokens: RefreshTokens, hash: Raw, row: Option<Id>) {
    match row
    case Some(id) => id in tokens && tokens[id].hash == hash
    case None => forall k :: k in tokens ==> tokens[k].hash != hash
  }

  predicate EmailTokenAnswer(emails: EmailTokens, hash: string, row: Option<Id>) {
    match row
    case Some(id) => id in emails && emails[id].hash == hash
    case None => forall k :: k in emails ==> emails[k].hash != hash
  }

  predicate UserAnswer(users: Users, email: string, row: Option<Id>) {
    match row
    case Some(id) => id in users && users[id].email == email
    case None => forall k :: k in users ==> users[k].email != email
  }

  // ----------------------------------------------------------------- the machine

  /** How far a service call has come, with the local variables it still needs. */
  datatype Call =
    | Found(token: Id, row: RefreshToken)                       // Refresh: the row passed its checks
    | Ready(token: Id, user: Id)                                // Refresh: the user is active
    | Rotating(token: Id, user: Id)                             // Refresh: revoked the row, must save
    | Refreshed(token: Id, successor: Id)
    | EmailFound(email: Id, emailRow: EmailToken)               // Verify: the row passed its checks
    | Claiming(email: Id, user: Id, copy: User)                 // Verify: the loaded copy is marked verified
    | Claimed(email: Id, user: Id, copy: User)                  // Verify: consumed the token, must write the user
    | VerifyDone(email: Id)
    | ReRegistering(user: Id, copy: User)                       // Register: an unverified user's copy was rewritten
    | Registering(draft: User)                                  // Register: a new user to insert
    | Inviting(user: Id)                                        // Register: the email token must be saved
    | LoggingIn(user: Id)                                       // Login: all checks passed, must save
    | LoggedIn(token: Id)
    | LoggingOut(token: Id)                                     // Logout: found the row, must revoke
    | Finished
    | Failed

  /** `family` records, for every refresh token, the login call it descends from. */
  datatype State = State(
    users: Users, emails: EmailTokens, tokens: RefreshTokens,
    calls: map<Id, Call>, family: map<Id, Id>)
  {
    function At(c: Id): Call { if c in calls then calls[c] else Failed }

    function Become(c: Id, pc: Call): State { this.(calls := calls[c := pc]) }
  }

  datatype Action =
    | RefreshFind(call: Id, hash: Raw, now: int, row: Option<Id>)
    | RefreshLoad(call: Id)
    | RefreshRevoke(call: Id, now: int)
    | RefreshSave(call: Id, id: Id, raw: Raw, exp: int)
    | VerifyFind(call: Id, text: string, now: int, row: Option<Id>)
    | VerifyLoad(call: Id, now: int)
    | VerifyMark(call: Id)
    | VerifyWrite(call: Id)
    | RegisterFind(call: Id, email: string, row: Option<Id>, passwordHash: string, displayName: string,
            draft: Option<User>)
    | RegisterUpdate(call: Id)
    | RegisterInsert(call: Id, id: Id)
    | RegisterInvite(call: Id, id: Id, text: string, exp: int)
    | LoginFind(call: Id, email: string, row: Option<Id>, proven: bool)
    | LoginSave(call: Id, id: Id, raw: Raw, exp: int)
    | LogoutFind(call: Id, hash: Raw, row: Option<Id>)
    | LogoutRevoke(call: Id, now: int)
    | Abort(call: Id)                                           // a storage error or a lost request

  // ------------------------------------------------------------------- Refresh

  /** FindByHash and the checks on its row. */
  function LookedUp(s: State, row: Option<Id>, now: int): Call
    requires row.Some? ==> row.value in s.tokens
  {
    if row == None || s.tokens[row.value].revokedAt != None || s.tokens[row.value].IsExpired(now)
    then Failed else Found(row.value, s.tokens[row.value])
  }

  /** FindByID and the active check. */
  function Loaded(s: State, c: Id): Call
    requires s.At(c).Found?
  {
    var Found(token, row) := s.At(c);
    if row.user in s.users && s.users[row.user].isActive then Ready(token, row.user) else Failed
  }

  function Rotate(s: State, c: Id, now: int): State
    requires s.At(c).Ready?
  {
    var Ready(token, user) := s.At(c);
    if Live(s.tokens, token)
    then s.(tokens := Revoked(s.tokens, token, now)).Become(c, Rotating(token, user))
    else s.Become(c, Failed)
  }

  /** The successor joins its predecessor's family. */
  function Inherited(family: map<Id, Id>, token: Id, id: Id): map<Id, Id> {
    if token in family then family[id := family[token]] else family
  }

  function SaveSuccessor(s: State, c: Id, id: Id, raw: Raw, exp: int): State
    requires s.At(c).Rotating?
  {
    var Rotating(token, user) := s.At(c);
    var t := RefreshToken(user, raw, exp, None);
    if TokenInsertable(s.tokens, s.users, id, t)
    then s.(tokens := s.tokens[id := t], family := Inherited(s.family, token, id)).Become(c, Refreshed(token, id))
    else s.Become(c, Failed)
  }

  // -------------------------------------------------------------------- Verify

  function EmailLookedUp(s: State, row: Option<Id>, now: int): Call
    requires row.Some? ==> row.value in s.emails
  {
    if row == None || s.emails[row.value].isUsed || now > s.emails[row.value].expiresAt
    then Failed else EmailFound(row.value, s.emails[row.value])
  }

  function UserLoaded(s: State, c: Id, now: int): Call
    requires s.At(c).EmailFound?
  {
    var EmailFound(email, row) := s.At(c);
    if row.user in s.users then Claiming(email, row.user, s.users[row.user].Verified(now)) else Failed
  }

  function Claim(s: State, c: Id): State
    requires s.At(c).Claiming?
  {
    var Claiming(email, user, copy) := s.At(c);
    if Unused(s.emails, email)
    then s.(emails := Used(s.emails, email)).Become(c, Claimed(email, user, copy)) else s.Become(c, Failed)
  }

  function WriteVerified(s: State, c: Id): State
    requires s.At(c).Claimed?
  {
    var Claimed(email, user, copy) := s.At(c);
    s.(users := UserUpdated(s.users, user, copy))
     .Become(c, if UserUpdatable(s.users, user, copy) then VerifyDone(email) else Failed)
  }

  // ------------------------------------------------------------------ Register

  /** FindByEmail: a verified account ends the call, an unverified one is
      rewritten in memory, and no account at all leads to a new one, `draft`, unless
      its email or name is refused. */
  function Existing(s: State, row: Option<Id>, passwordHash: string, displayName: string, draft: Option<User>): Call
    requires row.Some? ==> row.value in s.users
  {
    if row == None && draft == None then Failed
    else if row == None then Registering(draft.value)
    else if s.users[row.value].isVerified then Failed
    else ReRegistering(row.value, s.users[row.value].(passwordHash := passwordHash, displayName := displayName))
  }

  function Rewrite(s: State, c: Id): State
    requires s.At(c).ReRegistering?
  {
    var ReRegistering(user, copy) := s.At(c);
    s.(users := UserUpdated(s.users, user, copy))
     .Become(c, if UserUpdatable(s.users, user, copy) then Inviting(user) else Failed)
  }

  function InsertUser(s: State, c: Id, id: Id): State
    requires s.At(c).Registering?
  {
    var draft := s.At(c).draft;
    if UserInsertable(s.users, id, draft)
    then s.(users := s.users[id := draft]).Become(c, Inviting(id)) else s.Become(c, Failed)
  }

  function Invite(s: State, c: Id, id: Id, text: string, exp: int): State
    requires s.At(c).Inviting?
  {
    var t := EmailToken(s.At(c).user, text, exp, false);
    if EmailTokenInsertable(s.emails, s.users, id, t)
    then s.(emails := s.emails[id := t]).Become(c, Finished) else s.Become(c, Failed)
  }

  // ---------------------------------------------------------- Login and Logout

  /** FindByEmail and the checks on the account. Every way to sign in asks for a verified
      account; `proven` stands for the rest: an active account and the right password, or
      a passkey, which does not ask whether the account is active. */
  function Authenticated(s: State, row: Option<Id>, proven: bool): Call
    requires row.Some? ==> row.value in s.users
  {
    if row.Some? && s.users[row.value].isVerified && proven
    then LoggingIn(row.value) else Failed
  }

  function SaveSession(s: State, c: Id, id: Id, raw: Raw, exp: int): State
    requires s.At(c).LoggingIn?
  {
    var t := RefreshToken(s.At(c).user, raw, exp, None);
    if TokenInsertable(s.tokens, s.users, id, t)
    then s.(tokens := s.tokens[id := t], family := s.family[id := c]).Become(c, LoggedIn(id))
    else s.Become(c, Failed)
  }

  function EndSession(s: State, c: Id, now: int): State
    requires s.At(c).LoggingOut?
  {
    s.(tokens := Revoked(s.tokens, s.At(c).token, now)).Become(c, Finished)
  }

  predicate Done(pc: Call) { pc.Refreshed? || pc.VerifyDone? || pc.LoggedIn? }

  /** An action that is impossible changes nothing, so every sequence of actions
      is a run and every theorem quantifies over all of them. A new call uses a
      new name; a continuing call must be at the matching point. */
  function Step(s: State, a: Action): State {
    match a
    case RefreshFind(c, hash, now, row) =>
      if c !in s.calls && TokenAnswer(s.tokens, hash, row) then s.Become(c, LookedUp(s, row, now)) else s
    case RefreshLoad(c) => if s.At(c).Found? then s.Become(c, Loaded(s, c)) else s
    case RefreshRevoke(c, now) => if s.At(c).Ready? then Rotate(s, c, now) else s
    case RefreshSave(c, id, raw, exp) => if s.At(c).Rotating? then SaveSuccessor(s, c, id, raw, exp) else s
    case VerifyFind(c, text, now, row) =>
      if c !in s.calls && EmailTokenAnswer(s.emails, text, row) then s.Become(c, EmailLookedUp(s, row, now)) else s
    case VerifyLoad(c, now) => if s.At(c).EmailFound? then s.Become(c, UserLoaded(s, c, now)) else s
    case VerifyMark(c) => if s.At(c).Claiming? then Claim(s, c) else s
    case VerifyWrite(c) => if s.At(c).Claimed? then WriteVerified(s, c) else s
    case RegisterFind(c, email, row, passwordHash, displayName, draft) =>
      if c !in s.calls && UserAnswer(s.users, email, row) && (draft.Some? ==> !draft.value.isVerified)
      then s.Become(c, Existing(s, row, passwordHash, displayName, draft)) else s
    case RegisterUpdate(c) => if s.At(c).ReRegistering? then Rewrite(s, c) else s
    case RegisterInsert(c, id) => if s.At(c).Registering? then InsertUser(s, c, id) else s
    case RegisterInvite(c, id, text, exp) => if s.At(c).Inviting? then Invite(s, c, id, text, exp) else s
    case LoginFind(c, email, row, proven) =>
      if c !in s.calls && UserAnswer(s.users, email, row) then s.Become(c, Authenticated(s, row, proven)) else s
    case LoginSave(c, id, raw, exp) => if s.At(c).LoggingIn? then SaveSession(s, c, id, raw, exp) else s
    case LogoutFind(c, hash, row) =>
      if c !in s.calls && TokenAnswer(s.tokens, hash, row)
      then s.Become(c, if row.Some? then LoggingOut(row.value) else Finished) else s
    case LogoutRevoke(c, now) => if s.At(c).LoggingOut? then EndSession(s, c, now) else s
    case Abort(c) => if Done(s.At(c)) then s else s.Become(c, Failed)
  }

  function Run(s: State, actions: seq<Action>): State {
    if actions == [] then s
    else Step(Run(s, actions[..|actions| - 1]), actions[|actions| - 1])
  }

  const EMPTY: State := State(map[], map[], map[], map[], map[])

  lemma {:induction false} RunConcat(s: State, first: seq<Action>, then_: seq<Action>)
    ensures Run(s, first + then_) == Run(Run(s, first), then_)
  {
    if then_ == [] {
      assert first + then_ == first;
    } else {
      var front := then_[..|then_| - 1];
      assert (first + then_)[..|first + then_| - 1] == first + front;
      RunConcat(s, first, front);
    }
  }
}
