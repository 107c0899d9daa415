/** Access tokens and their revocation (internal/shared/auth.go, internal/shared/cache/redis.go,
    internal/auth/usecase/logout.go, internal/shared/middleware/middleware.go).

    Logout stores a token's identifier in a cache whose entries expire. The
    reference definition is a set of revoked identifiers that never forgets.
    Times are nanoseconds; the cache keeps milliseconds; `exp` is in seconds.
    Every component reads one clock. Signatures are opaque: the tokens that
    parse are the ones the issuer signed. */
module AccessGate {
  import opened Failures
  import opened Wrappers

  const SECOND: nat := 1_000_000_000
  const MILLI: nat := 1_000_000

  /** The claims of a signed token; only access tokens carry an identifier. */
  datatype Claims = Claims(sub: int, jti: Option<string>, exp: int, iat: int)

  /** Both Issue functions read the clock twice: for `exp`, then for `iat`. */
  function IssueAccessToken(sub: int, jti: string, ttlMinutes: nat, now: nat, later: nat): Claims {
    Claims(sub, Some(jti), (now + ttlMinutes * 60 * SECOND) / SECOND, later / SECOND)
  }

  function IssueRefreshToken(sub: int, ttlDays: nat, now: nat, later: nat): Claims {
    Claims(sub, None, (now + ttlDays * 24 * 3600 * SECOND) / SECOND, later / SECOND)
  }

  /** Section 4.1.4 of RFC 7519: the time must be before `exp`. */
  predicate Unexpired(c: Claims, at: nat) { at < c.exp * SECOND }

  // ---------------------------------------------------------------- the cache

  /** An entry's value and the last millisecond in which it can be read. */
  datatype Entry = Entry(value: string, deadline: nat)

  type Entries = map<string, Entry>

  /** The client sends whole milliseconds, rounded down, and never zero. */
  function Expiry(ttl: nat): nat {
    if ttl < MILLI then 1 else ttl / MILLI
  }

  function Stored(entries: Entries, key: string, value: string, ttl: nat, at: nat): Entries {
    entries[key := Entry(value, at / MILLI + Expiry(ttl))]
  }

  predicate Readable(entries: Entries, key: string, at: nat) {
    key in entries && at / MILLI <= entries[key].deadline
  }

  datatype Error = Unauthorized | TokenRevoked | CacheError

  class RedisCache {
    var entries: Entries

    method Get(key: string, at: nat, fault: Fault) returns (r: Result<Option<string>, Error>)
      ensures fault == NoFault ==> r == Ok(if Readable(entries, key, at) then Some(entries[key].value) else None)
      ensures fault != NoFault ==> r == Err(CacheError)
    {
      if fault != NoFault {
        return Err(CacheError);
      }
      if key !in entries || at / MILLI > entries[key].deadline {
        return Ok(None);
      }
      r := Ok(Some(entries[key].value));
    }

    method Set(key: string, value: string, ttl: nat, at: nat, fault: Fault) returns (ok: bool)
      modifies this
      ensures ok <==> fault == NoFault
      ensures entries == if fault == NotDone then old(entries) else Stored(old(entries), key, value, ttl, at)
    {
      if fault != NotDone {
        entries := entries[key := Entry(value, at / MILLI + Expiry(ttl))];
      }
      ok := fault == NoFault;
    }

    method Delete(key: string)
      modifies this
      ensures entries == old(entries) - {key}
    {
      entries := entries - {key};
    }
  }

  function RevokedKey(jti: string): string { "revoked:" + jti }

  function SessionKey(id: string): string { "webauthn_session:" + id }

  lemma KeysApart(jti: string, other: string)
    ensures RevokedKey(jti) != SessionKey(other)
    ensures RevokedKey(jti) == RevokedKey(other) ==> jti == other
  {
    assert RevokedKey(jti)[0] == 'r' && SessionKey(other)[0] == 'w';
    assert RevokedKey(jti)[8..] == jti && RevokedKey(other)[8..] == other;
  }

  // ----------------------------------------------- blacklisting and the gate

  /** The cache half of a logout. `read` is when the remaining life was
      computed, `at` when the cache executed the write. */
  function Blacklisted(entries: Entries, jti: string, exp: int, read: nat, at: nat, fault: Fault): Entries {
    if exp * SECOND <= read || fault == NotDone then entries
    else Stored(entries, RevokedKey(jti), "1", exp * SECOND - read, at)
  }

  predicate BlacklistingSucceeds(exp: int, read: nat, fault: Fault) {
    exp * SECOND <= read || fault == NoFault
  }

  method Blacklist(cache: RedisCache, jti: string, exp: int, read: nat, at: nat, fault: Fault) returns (ok: bool)
    modifies cache
    ensures cache.entries == Blacklisted(old(cache.entries), jti, exp, read, at, fault)
    ensures ok <==> BlacklistingSucceeds(exp, read, fault)
    ensures var left := exp * 1_000_000_000 - read;
            && (ok <==> left <= 0 || fault == NoFault)
            && cache.entries == if left <= 0 || fault == NotDone then old(cache.entries)
                                else old(cache.entries)["revoked:" + jti := Entry(
                                  "1", at / 1_000_000 + if left < 1_000_000 then 1 else left / 1_000_000)]
  {
    var ttl := exp * SECOND - read;
    if ttl > 0 {
      ok := cache.Set(RevokedKey(jti), "1", ttl, at, fault);
      if !ok {
        return false;
      }
    }
    ok := true;
  }

  /** What a bearer header can hold: nothing usable, or a token, signed by the issuer or not. */
  datatype Bearer = NoBearer | Unsigned | Signed(claims: Claims)

  datatype Identity = Identity(user: int, jti: string, exp: int)

  /** The middleware: parse at time `at`, then ask the cache at time `asked`. */
  method JWTMiddleware(cache: RedisCache, bearer: Bearer, at: nat, asked: nat, fault: Fault)
    returns (r: Result<Identity, Error>)
    ensures r.Ok? <==> bearer.Signed? && fault == NoFault && Accepts(cache.entries, bearer.claims, at, asked)
    ensures r.Ok? ==> r.value == Identity(bearer.claims.sub, bearer.claims.jti.value, bearer.claims.exp)
    ensures r == Err(Unauthorized) <==> !(bearer.Signed? && Usable(bearer.claims, at))
    ensures r == Err(CacheError) <==> bearer.Signed? && Usable(bearer.claims, at) && fault != NoFault
    ensures r == Err(TokenRevoked) <==>
              bearer.Signed? && Usable(bearer.claims, at) && fault == NoFault
                && !Accepts(cache.entries, bearer.claims, at, asked)
  {
    if !bearer.Signed? || !Unexpired(bearer.claims, at) {
      return Err(Unauthorized);
    }
    var claims := bearer.claims;
    var jti := if claims.jti.Some? then claims.jti.value else "";
    if jti == "" {
      return Err(Unauthorized);
    }
    var val := cache.Get(RevokedKey(jti), asked, fault);
    if val.Err? {
      return Err(val.error);
    }
    if val.value.Some? {
      return Err(TokenRevoked);
    }
    r := Ok(Identity(claims.sub, jti, claims.exp));
  }

  /** Unexpired when parsed, and with an identifier: not a refresh token. */
  predicate Usable(c: Claims, at: nat) { Unexpired(c, at) && c.jti.Some? && c.jti.value != "" }

  predicate Accepts(entries: Entries, c: Claims, at: nat, asked: nat) {
    Usable(c, at) && !Readable(entries, RevokedKey(c.jti.value), asked)
  }

  // ------------------------------------------------------- what the issuer signs

  /** Both kinds of token name their user and live as many minutes, or days of 24 hours, as
      configured, cut to whole seconds; only an access token has an identifier. */
  lemma TokensLiveAsConfigured(sub: int, jti: string, ttl: nat, now: nat, later: nat)
    ensures var c := IssueAccessToken(sub, jti, ttl, now, later); var ends := now + ttl * 60_000_000_000;
            && c.sub == sub && c.jti == Some(jti) && c.exp * 1_000_000_000 <= ends < (c.exp + 1) * 1_000_000_000
            && c.iat * 1_000_000_000 <= later < (c.iat + 1) * 1_000_000_000
    ensures var c := IssueRefreshToken(sub, ttl, now, later); var ends := now + ttl * 86_400_000_000_000;
            && c.sub == sub && c.jti == None && c.exp * 1_000_000_000 <= ends < (c.exp + 1) * 1_000_000_000
            && c.iat * 1_000_000_000 <= later < (c.iat + 1) * 1_000_000_000
  {}

  /** An access token opens the gate from its issue to the end of its lifetime, cut to
      whole seconds, unless it is revoked. */
  lemma AccessTokenLifetime(sub: int, jti: string, ttlMinutes: nat, now: nat, later: nat, at: nat, asked: nat)
    requires jti != ""
    ensures var c := IssueAccessToken(sub, jti, ttlMinutes, now, later);
            && (Accepts(map[], c, at, asked) <==> at / SECOND < now / SECOND + ttlMinutes * 60)
            && (Accepts(map[], c, at, asked) ==> at < now + ttlMinutes * 60 * SECOND)
            && (at + SECOND <= now + ttlMinutes * 60 * SECOND ==> Accepts(map[], c, at, asked))
  {}

  /** Two refresh tokens of one user are the same token exactly when both clock readings
      fall into the same seconds; so a fresh hash cannot be taken for granted. Neither
      passes for an access token. */
  lemma RefreshTokensCollideIff(sub: int, ttlDays: nat, now: nat, later: nat, now2: nat, later2: nat)
    ensures IssueRefreshToken(sub, ttlDays, now, later) == IssueRefreshToken(sub, ttlDays, now2, later2) <==>
            now / SECOND == now2 / SECOND && later / SECOND == later2 / SECOND
    ensures forall at :: !Usable(IssueRefreshToken(sub, ttlDays, now, later), at)
  {}

  // -------------------------------------------------------------- whole runs

  datatype State = State(entries: Entries, issued: set<Claims>, loggedOut: set<string>, clock: nat)

  /** Cache traffic and token issue, each at a time no earlier than the last one. */
  datatype Action =
    | Issue(claims: Claims)
    | Logout(token: Claims, read: nat, fault: Fault)
    | SaveSession(id: string, data: string, ttl: nat)
    | TakeSession(id: string)
    | Wait

  predicate Enabled(s: State, a: Action, at: nat) {
    && s.clock <= at
    // identifiers are random UUIDs: non-empty and never issued twice
    && (a.Issue? && a.claims.jti.Some? ==>
         a.claims.jti.value != "" && forall c :: c in s.issued ==> c.jti != a.claims.jti)
    && (a.Logout? ==> a.token in s.issued && a.token.jti.Some? && a.read <= at)
  }

  function Step(s: State, a: Action, at: nat): State
    requires Enabled(s, a, at)
  {
    match a
    case Issue(c) => s.(issued := s.issued + {c}, clock := at)
    case Logout(c, read, fault) =>
      State(Blacklisted(s.entries, c.jti.value, c.exp, read, at, fault), s.issued,
            if BlacklistingSucceeds(c.exp, read, fault) then s.loggedOut + {c.jti.value} else s.loggedOut, at)
    case SaveSession(id, data, ttl) => s.(entries := Stored(s.entries, SessionKey(id), data, ttl, at), clock := at)
    case TakeSession(id) => s.(entries := s.entries - {SessionKey(id)}, clock := at)
    case Wait => s.(clock := at)
  }

  /** The state after a trace that starts empty, if every action was possible. */
  function Run(trace: seq<(Action, nat)>): Option<State> {
    if trace == [] then Some(State(map[], {}, {}, 0))
    else
      var before := Run(trace[..|trace| - 1]);
      var (a, at) := trace[|trace| - 1];
      if before.Some? && Enabled(before.value, a, at) then Some(Step(before.value, a, at)) else None
  }

  predicate FaultFree(trace: seq<(Action, nat)>) {
    forall i :: 0 <= i < |trace| && trace[i].0.Logout? ==> trace[i].0.fault == NoFault
  }

  ghost predicate Inv(s: State) {
    && (forall c, d :: c in s.issued && d in s.issued && c.jti.Some? && c.jti == d.jti ==> c == d)
    && (forall c :: c in s.issued && c.jti.Some? ==> c.jti.value != "")
    && (forall j :: j in s.loggedOut ==> exists c :: c in s.issued && c.jti == Some(j))
    && (forall c :: c in s.issued && c.jti.Some? && c.jti.value in s.loggedOut && Unexpired(c, s.clock) ==>
          CoversLife(s.entries, c))
  }

  /** The entry can be read up to the last millisecond before `exp`. */
  predicate CoversLife(entries: Entries, c: Claims)
    requires c.jti.Some?
  {
    RevokedKey(c.jti.value) in entries && entries[RevokedKey(c.jti.value)].deadline >= c.exp * 1000 - 1
  }

  ghost predicate NoStrayEntries(s: State) {
    forall j :: RevokedKey(j) in s.entries ==> j in s.loggedOut
  }

  /** Rounding the remaining life down to a millisecond loses nothing: the write
      happens no earlier than the reading, and the deadline itself is included. */
  lemma WriteCoversLife(entries: Entries, c: Claims, read: nat, at: nat, fault: Fault)
    requires c.jti.Some? && read <= at && Unexpired(c, read) && fault != NotDone
    ensures CoversLife(Blacklisted(entries, c.jti.value, c.exp, read, at, fault), c)
  {}

  /** Two actions on the cache meet only on the same identifier. */
  lemma ActionKey(a: Action, jti: string)
    ensures a.SaveSession? || a.TakeSession? ==> RevokedKey(jti) != SessionKey(a.id)
    ensures a.Logout? && a.token.jti.Some? && RevokedKey(a.token.jti.value) == RevokedKey(jti) ==>
              a.token.jti.value == jti
  {
    if a.SaveSession? || a.TakeSession? {
      KeysApart(jti, a.id);
    } else if a.Logout? && a.token.jti.Some? {
      KeysApart(a.token.jti.value, jti);
    }
  }

  lemma StepKeepsCover(s: State, a: Action, at: nat, c: Claims)
    requires Inv(s) && Enabled(s, a, at)
    requires c in Step(s, a, at).issued && c.jti.Some? && c.jti.value in Step(s, a, at).loggedOut && Unexpired(c, at)
    ensures CoversLife(Step(s, a, at).entries, c)
  {
    ActionKey(a, c.jti.value);
    if a.Logout? && a.token.jti == c.jti {
      if Unexpired(c, a.read) && a.fault != NotDone {
        WriteCoversLife(s.entries, c, a.read, at, a.fault);
      }
    }
  }

  lemma StepKeepsInv(s: State, a: Action, at: nat)
    requires Inv(s) && Enabled(s, a, at)
    ensures Inv(Step(s, a, at))
    ensures NoStrayEntries(s) && (a.Logout? ==> a.fault == NoFault) ==> NoStrayEntries(Step(s, a, at))
  {
    var t := Step(s, a, at);
    forall j | j in t.loggedOut ensures exists c :: c in t.issued && c.jti == Some(j) {
      if j in s.loggedOut {
        var c :| c in s.issued && c.jti == Some(j);
        assert c in t.issued;
      }
    }
    forall c | c in t.issued && c.jti.Some? && c.jti.value in t.loggedOut && Unexpired(c, t.clock)
      ensures CoversLife(t.entries, c)
    {
      StepKeepsCover(s, a, at, c);
    }
    if NoStrayEntries(s) && (a.Logout? ==> a.fault == NoFault) {
      forall j | RevokedKey(j) in t.entries ensures j in t.loggedOut {
        ActionKey(a, j);
      }
    }
  }

  lemma {:induction false} RunKeepsInv(trace: seq<(Action, nat)>)
    requires Run(trace).Some?
    ensures Inv(Run(trace).value)
    ensures FaultFree(trace) ==> NoStrayEntries(Run(trace).value)
  {
    if trace != [] {
      var front := trace[..|trace| - 1];
      RunKeepsInv(front);
      StepKeepsInv(Run(front).value, trace[|trace| - 1].0, trace[|trace| - 1].1);
    }
  }

  /** The main theorem. After any traffic, a check that parses the token at `at`
      and reads the cache at `asked`:
      - whatever cache calls failed, acceptance means the token was unexpired and,
        if it still was when the cache was read, never logged out;
      - if none failed, and the check does not straddle the token's expiry, it
        accepts exactly the unexpired tokens that were never logged out. */
  lemma GateAgreesWithPermanentRevocation(trace: seq<(Action, nat)>, c: Claims, at: nat, asked: nat)
    requires Run(trace).Some? && c in Run(trace).value.issued && c.jti.Some?
    requires at <= asked && Run(trace).value.clock <= asked
    ensures var s := Run(trace).value;
            Accepts(s.entries, c, at, asked) ==>
              Unexpired(c, at) && (Unexpired(c, asked) ==> c.jti.value !in s.loggedOut)
    ensures var s := Run(trace).value;
            FaultFree(trace) && (Unexpired(c, at) ==> Unexpired(c, asked)) ==>
              (Accepts(s.entries, c, at, asked) <==> Unexpired(c, at) && c.jti.value !in s.loggedOut)
  {
    RunKeepsInv(trace);
    assert c.exp * SECOND == c.exp * 1000 * MILLI;
  }

  /** Whatever fault-free traffic went before, the check agrees with permanent revocation. */
  ghost predicate AlwaysAgrees(c: Claims, at: nat, asked: nat)
    requires c.jti.Some?
  {
    forall trace ::
      FaultFree(trace) && Reaches(trace, c, asked) ==>
        (Accepts(Run(trace).value.entries, c, at, asked) <==>
          Unexpired(c, at) && c.jti.value !in Run(trace).value.loggedOut)
  }

  /** Whatever traffic went before, with or without faults, an accepted token was not revoked. */
  ghost predicate AlwaysSound(c: Claims, at: nat, asked: nat)
    requires c.jti.Some?
  {
    forall trace ::
      Reaches(trace, c, asked) && Accepts(Run(trace).value.entries, c, at, asked) ==>
        Unexpired(c, at) && c.jti.value !in Run(trace).value.loggedOut
  }

  /** The trace is possible, issued the token, and is over when the cache is read. */
  predicate Reaches(trace: seq<(Action, nat)>, c: Claims, asked: nat) {
    Run(trace).Some? && c in Run(trace).value.issued && Run(trace).value.clock <= asked
  }

  /** The token is issued and logged out at once. */
  function IssueAndLogout(c: Claims): seq<(Action, nat)> { [(Issue(c), 0), (Logout(c, 1, NoFault), 1)] }

  lemma AfterIssueAndLogout(c: Claims)
    requires c.jti.Some? && c.jti.value != "" && c.exp > 0
    ensures FaultFree(IssueAndLogout(c)) && Run(IssueAndLogout(c)).Some?
    ensures var s := Run(IssueAndLogout(c)).value;
            && c in s.issued && c.jti.value in s.loggedOut && s.clock == 1
            && s.entries == map[RevokedKey(c.jti.value) := Entry("1", c.exp * 1000 - 1)]
  {
    var trace := IssueAndLogout(c);
    var s0 := State(map[], {}, {}, 0);
    var s1 := Step(s0, Issue(c), 0);
    var first: seq<(Action, nat)> := [(Issue(c), 0)];
    assert trace[..1] == first && first[..0] == [];
    assert Run(first) == Some(s1);
    assert Run(trace) == Some(Step(s1, Logout(c, 1, NoFault), 1));
    assert (c.exp * SECOND - 1) / MILLI == c.exp * 1000 - 1;
  }

  /** A check that straddles the token's expiry accepts the token although it was logged out. */
  lemma StraddlingCheckAccepts(c: Claims, at: nat, asked: nat)
    requires c.jti.Some? && c.jti.value != "" && at <= asked && Unexpired(c, at) && !Unexpired(c, asked)
    ensures FaultFree(IssueAndLogout(c)) && Reaches(IssueAndLogout(c), c, asked)
    ensures c.jti.value in Run(IssueAndLogout(c)).value.loggedOut
    ensures Accepts(Run(IssueAndLogout(c)).value.entries, c, at, asked)
  {
    AfterIssueAndLogout(c);
    assert asked / MILLI >= c.exp * 1000;
  }

  /** The exact condition. For every access token and every two times of a check, the gate
      agrees with permanent revocation after all fault-free traffic, and never accepts a
      revoked token after any traffic, if and only if the token does not expire between the
      parse and the answer of the cache. */
  lemma AgreesIffNotStraddling(c: Claims, at: nat, asked: nat)
    requires c.jti.Some? && c.jti.value != "" && at <= asked
    ensures AlwaysAgrees(c, at, asked) <==> (Unexpired(c, at) ==> Unexpired(c, asked))
    ensures AlwaysSound(c, at, asked) <==> (Unexpired(c, at) ==> Unexpired(c, asked))
  {
    if Unexpired(c, at) ==> Unexpired(c, asked) {
      forall trace | Reaches(trace, c, asked) ensures AgreesAfter(trace, c, at, asked) {
        GateAgreesWithPermanentRevocation(trace, c, at, asked);
      }
    } else {
      StraddlingCheckAccepts(c, at, asked);
    }
  }

  /** What the main theorem says of one trace when the check does not straddle. */
  ghost predicate AgreesAfter(trace: seq<(Action, nat)>, c: Claims, at: nat, asked: nat)
    requires c.jti.Some? && Run(trace).Some?
  {
    var s := Run(trace).value;
    && (Accepts(s.entries, c, at, asked) ==> Unexpired(c, at) && c.jti.value !in s.loggedOut)
    && (FaultFree(trace) ==> (Accepts(s.entries, c, at, asked) <==> Unexpired(c, at) && c.jti.value !in s.loggedOut))
  }
}
