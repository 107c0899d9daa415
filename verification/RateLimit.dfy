/** The sliding-window rate limiter (internal/shared/middleware/rate_limit.go).

    Each key holds a sorted set: one member per request, the request's
    nanosecond stamp, scored by its millisecond. A request prunes the members
    that have left the window, adds itself, counts, and renews the key's expiry.
    The reference definition is the full history of requests: `WindowStamps`.

    Windows are whole milliseconds. A request carries two times: the stamp the
    server read, and the millisecond at which the store executed its transaction. */
module SlidingWindow {
  import opened Failures
  import opened Wrappers

  datatype ZSet = ZSet(members: map<nat, int>, deadline: Option<nat>)

  datatype Request = Request(stamp: nat, executed: nat)

  type Store = map<string, ZSet>

  function Millis(ns: int): int { ns / 1_000_000 }

  /** `now.Add(-window).UnixMilli()`, which rounds down. */
  function WindowStart(stamp: nat, window: nat): int {
    Millis(stamp - window * 1_000_000)
  }

  /** EXPIRE takes whole seconds: the client rounds down, but never to zero. */
  function TtlSeconds(window: nat): nat {
    if 0 < window < 1000 then 1 else window / 1000
  }

  function Ttl(window: nat): nat { TtlSeconds(window) * 1000 }

  /** A key outlives the millisecond of its deadline and is gone in the next one. */
  function Live(z: ZSet, at: nat): ZSet {
    if z.deadline.Some? && at > z.deadline.value then ZSet(map[], None) else z
  }

  function Peek(store: Store, key: string, at: nat): ZSet {
    if key in store then Live(store[key], at) else ZSet(map[], None)
  }

  function Pruned(members: map<nat, int>, lo: int, hi: int): map<nat, int> {
    map n | n in members && !(lo <= members[n] <= hi) :: members[n]
  }

  /** What one request's transaction leaves under its key. */
  function Touched(z: ZSet, r: Request, window: nat): ZSet {
    ZSet(Pruned(z.members, 0, WindowStart(r.stamp, window))[r.stamp := Millis(r.stamp)],
         Some(r.executed + Ttl(window)))
  }

  ghost predicate SameElsewhere(a: Store, b: Store, key: string) {
    forall k :: k != key ==> (k in a <==> k in b) && (k in a ==> a[k] == b[k])
  }

  // ---------------------------------------------------------------- the code

  /** The store's sorted-set commands, each applied at the store's own time. */
  class Redis {
    var sets: Store

    method ZRemRangeByScore(key: string, lo: int, hi: int, at: nat)
      modifies this
      ensures Peek(sets, key, at).members == Pruned(Peek(old(sets), key, at).members, lo, hi)
      ensures SameElsewhere(sets, old(sets), key)
    {
      var z := Peek(sets, key, at);
      var kept := Pruned(z.members, lo, hi);
      if kept == map[] {
        sets := sets - {key};
      } else {
        sets := sets[key := z.(members := kept)];
      }
    }

    method ZAdd(key: string, member: nat, score: int, at: nat)
      modifies this
      ensures Peek(sets, key, at).members == Peek(old(sets), key, at).members[member := score]
      ensures key in sets && sets[key] == Peek(sets, key, at)
      ensures SameElsewhere(sets, old(sets), key)
    {
      var z := Peek(sets, key, at);
      sets := sets[key := z.(members := z.members[member := score])];
    }

    method ZCard(key: string, at: nat) returns (n: nat)
      ensures n == |Peek(sets, key, at).members|
    {
      n := |Peek(sets, key, at).members|;
    }

    method Expire(key: string, seconds: nat, at: nat)
      requires key in sets && sets[key] == Peek(sets, key, at)
      modifies this
      ensures sets == old(sets)[key := Peek(old(sets), key, at).(deadline := Some(at + seconds * 1000))]
    {
      sets := sets[key := sets[key].(deadline := Some(at + seconds * 1000))];
    }
  }

  class RateLimiter {
    const client: Redis
    const limit: int
    const window: nat

    constructor (client: Redis, limit: int, window: nat)
      requires window > 0
      ensures this.client == client && this.limit == limit && this.window == window
    {
      this.client, this.limit, this.window := client, limit, window;
    }

    /** The handler wrapper: whether the request reaches the next handler. */
    method RateLimit(key: string, r: Request, fault: Fault) returns (served: bool)
      modifies client
      ensures fault == NotDone ==> client.sets == old(client.sets) && !served
      ensures fault != NotDone ==>
        client.sets == old(client.sets)[key := Touched(Peek(old(client.sets), key, r.executed), r, window)]
      ensures fault == ReplyLost ==> !served
      ensures fault == NoFault ==> (served <==> |client.sets[key].members| <= limit)
    {
      var windowStart := WindowStart(r.stamp, window);
      if fault == NotDone {
        return false;
      }
      client.ZRemRangeByScore(key, 0, windowStart, r.executed);
      client.ZAdd(key, r.stamp, Millis(r.stamp), r.executed);
      var count := client.ZCard(key, r.executed);
      client.Expire(key, TtlSeconds(window), r.executed);
      if fault == ReplyLost {
        return false;
      }
      served := !(count > limit);
    }
  }

  // ------------------------------------------------------------ whole histories

  /** The set under one key after a history of executed requests. */
  function After(h: seq<Request>, window: nat): ZSet {
    if h == [] then ZSet(map[], None)
    else
      var before := After(h[..|h| - 1], window);
      var r := h[|h| - 1];
      Touched(Live(before, r.executed), r, window)
  }

  /** Requests on many keys, in execution order. */
  function RunStore(trace: seq<(string, Request)>, window: nat): Store {
    if trace == [] then map[]
    else
      var before := RunStore(trace[..|trace| - 1], window);
      var (key, r) := trace[|trace| - 1];
      before[key := Touched(Peek(before, key, r.executed), r, window)]
  }

  function OnKey(trace: seq<(string, Request)>, key: string): seq<Request> {
    if trace == [] then []
    else
      var rest := OnKey(trace[..|trace| - 1], key);
      if trace[|trace| - 1].0 == key then rest + [trace[|trace| - 1].1] else rest
  }

  /** Keys never influence one another: the set under a key is the one its own
      requests alone would have built. */
  lemma {:induction false} KeysAreIndependent(trace: seq<(string, Request)>, key: string, window: nat)
    ensures key in RunStore(trace, window) <==> OnKey(trace, key) != []
    ensures key in RunStore(trace, window) ==> RunStore(trace, window)[key] == After(OnKey(trace, key), window)
  {
    if trace != [] {
      var front := trace[..|trace| - 1];
      KeysAreIndependent(front, key, window);
      if trace[|trace| - 1].0 == key {
        var hist := OnKey(front, key);
        assert OnKey(trace, key)[..|hist|] == hist;
      }
    }
  }

  /** The store executes in time order, and each request at most `delay`
      milliseconds after its stamp was read. */
  ghost predicate Timely(h: seq<Request>, delay: nat) {
    && (forall i :: 0 <= i < |h| ==> Millis(h[i].stamp) <= h[i].executed <= Millis(h[i].stamp) + delay)
    && (forall i, j :: 0 <= i < j < |h| ==> h[i].executed <= h[j].executed)
  }

  ghost predicate DistinctStamps(h: seq<Request>) {
    forall i, j :: 0 <= i < j < |h| ==> h[i].stamp != h[j].stamp
  }

  /** Reference definition: the stamps, over the full history, that lie in the
      window of the last request; the last request always counts itself. */
  ghost function WindowStamps(h: seq<Request>, window: nat): set<nat>
    requires h != []
  {
    var last := h[|h| - 1].stamp;
    {last} + set i: nat | i < |h| && Millis(h[i].stamp) > Millis(last) - window :: h[i].stamp
  }

  lemma WindowStartIs(stamp: nat, window: nat)
    ensures WindowStart(stamp, window) == Millis(stamp) - window
  {}

  /** Nothing is invented: every member is a stamp of the history, scored by its
      millisecond, and is the last request or inside the last request's window. */
  lemma {:induction false} MembersComeFromHistory(h: seq<Request>, window: nat)
    requires h != []
    ensures After(h, window).members.Keys <= WindowStamps(h, window)
    ensures forall n :: n in After(h, window).members ==> After(h, window).members[n] == Millis(n)
  {
    var front, r := h[..|h| - 1], h[|h| - 1];
    WindowStartIs(r.stamp, window);
    if front != [] {
      MembersComeFromHistory(front, window);
      forall n | n in After(h, window).members && n != r.stamp
        ensures n in WindowStamps(h, window) && After(h, window).members[n] == Millis(n)
      {
        assert n in After(front, window).members;
        assert n in WindowStamps(front, window);
        var i :| 0 <= i < |front| && front[i].stamp == n;
        assert h[i].stamp == n;
      }
    }
  }

  /** Nothing recent is lost: pruning by other requests and expiry of the key
      can only reach stamps that are `window` or the key's lifetime old. */
  lemma {:induction false} RecentIsKept(h: seq<Request>, window: nat, delay: nat, i: nat)
    requires Timely(h, delay) && i < |h|
    requires Millis(h[i].stamp) > h[|h| - 1].executed - window
    requires Millis(h[i].stamp) + Ttl(window) >= h[|h| - 1].executed
    ensures h[i].stamp in After(h, window).members
  {
    var front, r := h[..|h| - 1], h[|h| - 1];
    if i < |front| {
      WindowStartIs(r.stamp, window);
      assert Timely(front, delay);
      RecentIsKept(front, window, delay, i);
      MembersComeFromHistory(front, window);
      assert h[i].executed <= front[|front| - 1].executed;
    }
  }

  /** In the window, and within the key's lifetime, by at least the delay. */
  ghost predicate SurelyRecent(h: seq<Request>, i: nat, window: nat, delay: nat)
    requires i < |h|
  {
    var last := Millis(h[|h| - 1].stamp) + delay;
    Millis(h[i].stamp) > last - window && Millis(h[i].stamp) + Ttl(window) >= last
  }

  /** With a delay the limiter only ever forgets: what it counts is in the true
      window, and it counts everything in the window shortened by the delay. */
  lemma DelayOnlyForgets(h: seq<Request>, window: nat, delay: nat)
    requires Timely(h, delay) && h != []
    ensures After(h, window).members.Keys <= WindowStamps(h, window)
    ensures forall i :: 0 <= i < |h| && SurelyRecent(h, i, window, delay) ==> h[i].stamp in After(h, window).members
  {
    MembersComeFromHistory(h, window);
    forall i | 0 <= i < |h| && SurelyRecent(h, i, window, delay)
      ensures h[i].stamp in After(h, window).members
    {
      RecentIsKept(h, window, delay, i);
    }
  }

  /** Stamps come in execution order, and between two executions the store's time runs at
      most `jitter` milliseconds ahead of the stamps, however late both are. */
  ghost predicate InOrder(h: seq<Request>, jitter: nat) {
    forall i, j :: 0 <= i < j < |h| ==> InStep(h[i], h[j], jitter)
  }

  predicate InStep(a: Request, b: Request, jitter: nat) {
    && Millis(a.stamp) <= Millis(b.stamp)
    && b.executed - a.executed <= Millis(b.stamp) - Millis(a.stamp) + jitter
  }

  /** The key's lifetime covers the window and the jitter. Every whole-second window
      leaves room for one millisecond. */
  predicate LifetimeCovers(window: nat, jitter: nat) {
    window + jitter <= (if window < 1000 then 1000 else window / 1000 * 1000) + 1
  }

  /** In stamp order, pruning by other requests reaches only what has left the window, and
      a key that lives long enough never expires under a request that still counts. */
  lemma {:induction false} WindowIsKept(h: seq<Request>, window: nat, jitter: nat, i: nat)
    requires window > 0 && LifetimeCovers(window, jitter) && InOrder(h, jitter) && i < |h|
    requires Millis(h[i].stamp) > Millis(h[|h| - 1].stamp) - window
    ensures h[i].stamp in After(h, window).members
  {
    var front, r := h[..|h| - 1], h[|h| - 1];
    if i < |front| {
      var before := front[|front| - 1];
      WindowStartIs(r.stamp, window);
      assert InStep(h[|h| - 2], r, jitter) && before == h[|h| - 2];
      if i < |front| - 1 {
        assert InStep(h[i], h[|h| - 2], jitter);
      }
      WindowIsKept(front, window, jitter, i);
      MembersComeFromHistory(front, window);
    }
  }

  lemma CountsTheWindow(h: seq<Request>, window: nat, jitter: nat)
    requires window > 0 && LifetimeCovers(window, jitter)
    requires InOrder(h, jitter) && h != []
    ensures After(h, window).members.Keys == WindowStamps(h, window)
  {
    MembersComeFromHistory(h, window);
    forall n | n in WindowStamps(h, window) ensures n in After(h, window).members {
      if n != h[|h| - 1].stamp {
        var i :| 0 <= i < |h| && Millis(h[i].stamp) > Millis(h[|h| - 1].stamp) - window && h[i].stamp == n;
        WindowIsKept(h, window, jitter, i);
      }
    }
  }

  /** The limiter counts what the full history says, on every history in order. */
  ghost predicate RefinesHistory(window: nat, jitter: nat) {
    forall h: seq<Request> :: InOrder(h, jitter) && h != [] ==>
      After(h, window).members.Keys == WindowStamps(h, window)
  }

  /** The refinement holds for a window and a jitter exactly when the key's lifetime covers both. */
  lemma RefinesHistoryIff(window: nat, jitter: nat)
    requires window > 0
    ensures RefinesHistory(window, jitter) <==> LifetimeCovers(window, jitter)
    ensures window % 1000 == 0 ==> LifetimeCovers(window, 1)
  {
    if LifetimeCovers(window, jitter) {
      forall h: seq<Request> | InOrder(h, jitter) && h != []
        ensures After(h, window).members.Keys == WindowStamps(h, window)
      {
        CountsTheWindow(h, window, jitter);
      }
    } else {
      ShortLifetimeForgets(window, jitter);
    }
  }

  function LateRetry(window: nat, jitter: nat): seq<Request>
    requires window > 0
  {
    [Request(0, 0), Request((window - 1) * 1_000_000 + 1, window - 1 + jitter)]
  }

  /** The failing input for every other case: a second request in the last millisecond of
      the first one's window. The key has expired under the first request by then. */
  lemma ShortLifetimeForgets(window: nat, jitter: nat)
    requires window > 0 && !LifetimeCovers(window, jitter)
    ensures InOrder(LateRetry(window, jitter), jitter)
    ensures 0 in WindowStamps(LateRetry(window, jitter), window)
    ensures 0 !in After(LateRetry(window, jitter), window).members
    ensures !RefinesHistory(window, jitter)
  {
    var h := LateRetry(window, jitter);
    assert Millis(h[0].stamp) == 0 && Millis(h[1].stamp) == window - 1;
    assert h[..1] == [h[0]] && h[..1][..0] == [];
    assert After(h[..1], window) == Touched(ZSet(map[], None), h[0], window);
    assert Live(After(h[..1], window), h[1].executed).members == map[];
    assert h[0].stamp == 0;
  }

  // -------------------------------------------------------- counting requests

  /** The requests of the history that the window of the last one holds. */
  ghost function InWindow(h: seq<Request>, window: nat): set<nat>
    requires h != []
  {
    set i: nat | i < |h| && (i == |h| - 1 || Millis(h[i].stamp) > Millis(h[|h| - 1].stamp) - window)
  }

  lemma {:induction false} StampsCount(h: seq<Request>, indices: set<nat>, stamps: set<nat>)
    requires DistinctStamps(h)
    requires forall i :: i in indices ==> 0 <= i < |h| && h[i].stamp in stamps
    ensures |indices| <= |stamps|
    ensures (forall n :: n in stamps ==> exists i :: i in indices && h[i].stamp == n) ==> |indices| == |stamps|
    decreases |indices|
  {
    if i :| i in indices {
      var rest, fewer := indices - {i}, stamps - {h[i].stamp};
      StampsCount(h, rest, fewer);
      if forall n :: n in stamps ==> exists j :: j in indices && h[j].stamp == n {
        forall n | n in fewer ensures exists j :: j in rest && h[j].stamp == n {
          var j :| j in indices && h[j].stamp == n;
          assert j in rest;
        }
      }
    }
  }

  /** The main theorem. With distinct stamps in execution order and a covered window, a
      request is admitted exactly when the full history holds at most `limit` requests,
      admitted or refused, in the window that ends with it. */
  lemma DecisionIsHistoryDecision(h: seq<Request>, window: nat, jitter: nat, limit: int)
    requires window > 0 && LifetimeCovers(window, jitter)
    requires InOrder(h, jitter) && DistinctStamps(h) && h != []
    ensures |After(h, window).members| == |InWindow(h, window)|
    ensures |After(h, window).members| <= limit <==> |InWindow(h, window)| <= limit
  {
    CountsTheWindow(h, window, jitter);
    var stamps := WindowStamps(h, window);
    forall n | n in stamps ensures exists i :: i in InWindow(h, window) && h[i].stamp == n {
      if n == h[|h| - 1].stamp {
        assert |h| - 1 in InWindow(h, window);
      } else {
        var i :| 0 <= i < |h| && Millis(h[i].stamp) > Millis(h[|h| - 1].stamp) - window && h[i].stamp == n;
        assert i in InWindow(h, window);
      }
    }
    StampsCount(h, InWindow(h, window), stamps);
    assert |After(h, window).members| == |After(h, window).members.Keys|;
  }

  predicate Admitted(h: seq<Request>, i: nat, window: nat, limit: int)
    requires i < |h|
  {
    |After(h[..i + 1], window).members| <= limit
  }

  /** The admitted requests stamped in the milliseconds (m - span, m]. */
  ghost function AdmittedIn(h: seq<Request>, m: int, span: int, window: nat, limit: int): set<nat> {
    set i: nat | i < |h| && m - span < Millis(h[i].stamp) <= m && Admitted(h, i, window, limit)
  }

  lemma {:induction false} Greatest(s: set<nat>) returns (k: nat)
    requires |s| > 0
    ensures k in s && forall i :: i in s ==> i <= k
    decreases |s|
  {
    k :| k in s;
    var rest := s - {k};
    assert forall i :: i in s ==> i == k || i in rest;
    if |rest| > 0 {
      var best := Greatest(rest);
      k := if best > k then best else k;
    }
  }

  /** If the set still holds every admitted request when the last of them is counted, they
      are at most `limit`. */
  lemma AdmittedFit(h: seq<Request>, admitted: set<nat>, k: nat, window: nat, limit: int)
    requires DistinctStamps(h) && k < |h| && Admitted(h, k, window, limit)
    requires forall i :: i in admitted ==> i <= k && h[i].stamp in After(h[..k + 1], window).members
    ensures |admitted| <= limit
  {
    StampsCount(h, admitted, After(h[..k + 1], window).members.Keys);
    assert |After(h[..k + 1], window).members.Keys| == |After(h[..k + 1], window).members|;
  }

  /** Requests of one interval are all recent when the last of them executes. */
  lemma RecentWhenCounted(h: seq<Request>, i: nat, k: nat, m: int, span: int, window: nat, delay: nat)
    requires Timely(h, delay) && i <= k < |h|
    requires m - span < Millis(h[i].stamp) && Millis(h[k].stamp) <= m
    requires span + delay <= window && span + delay <= Ttl(window) + 1
    ensures h[i].stamp in After(h[..k + 1], window).members
  {
    var seen := h[..k + 1];
    assert Timely(seen, delay);
    RecentIsKept(seen, window, delay, i);
  }

  /** The window bound. In any interval as long as the window (less the delay),
      at most `limit` requests on a key are admitted. */
  lemma AtMostLimitAdmitted(h: seq<Request>, m: int, span: int, window: nat, delay: nat, limit: int)
    requires Timely(h, delay) && DistinctStamps(h)
    requires span + delay <= window && span + delay <= Ttl(window) + 1
    ensures |AdmittedIn(h, m, span, window, limit)| <= if limit > 0 then limit else 0
  {
    var admitted := AdmittedIn(h, m, span, window, limit);
    if |admitted| > 0 {
      var k := Greatest(admitted);
      forall i | i in admitted ensures h[i].stamp in After(h[..k + 1], window).members {
        RecentWhenCounted(h, i, k, m, span, window, delay);
      }
      AdmittedFit(h, admitted, k, window, limit);
    }
  }

  /** In stamp order the bound holds for intervals of the full window. */
  lemma WholeWindowBound(h: seq<Request>, m: int, window: nat, jitter: nat, limit: int)
    requires window > 0 && LifetimeCovers(window, jitter)
    requires InOrder(h, jitter) && DistinctStamps(h)
    ensures |AdmittedIn(h, m, window, window, limit)| <= if limit > 0 then limit else 0
  {
    var admitted := AdmittedIn(h, m, window, window, limit);
    if |admitted| > 0 {
      var k := Greatest(admitted);
      forall i | i in admitted ensures h[i].stamp in After(h[..k + 1], window).members {
        assert InOrder(h[..k + 1], jitter);
        WindowIsKept(h[..k + 1], window, jitter, i);
      }
      AdmittedFit(h, admitted, k, window, limit);
    }
  }

  // ----------------------------------------------- requests that overtake others

  /** Two requests at the start of a window, one that ends it, and one with an earlier
      stamp that executes last. */
  function Overtaken(window: nat): seq<Request> {
    [Request(1_000_000, 1)] + [Request(1_000_001, 1)]
    + [Request((window + 1) * 1_000_000, window + 1)] + [Request(window * 1_000_000 + 2, window + 1)]
  }

  lemma AfterThen(h: seq<Request>, r: Request, window: nat)
    ensures After(h + [r], window) == Touched(Live(After(h, window), r.executed), r, window)
  {
    assert (h + [r])[..|h|] == h;
  }

  lemma OvertakenIsTimely(window: nat)
    requires window > 0
    ensures Timely(Overtaken(window), 1) && DistinctStamps(Overtaken(window))
  {}

  lemma OvertakenAdmitted(window: nat, h: seq<Request>, a: Request, b: Request, c: Request, d: Request)
    requires window > 0 && h == Overtaken(window) && h == [a] + [b] + [c] + [d]
    ensures Admitted(h, 0, window, 2) && Admitted(h, 1, window, 2) && Admitted(h, 3, window, 2)
  {
    assert h[..1] == [] + [a] && h[..2] == [a] + [b] && h[..4] == [a] + [b] + [c] + [d];
    AfterThen([], a, window);
    AfterThen([a], b, window);
    AfterThen([a] + [b], c, window);
    AfterThen([a] + [b] + [c], d, window);
    OvertakenSets(window, a, b, c, d);
  }

  /** The order is needed: for every window a single millisecond of delay lets three
      requests with stamps in one window pass a limit of two. */
  lemma OvertakingAdmitsMore(window: nat)
    requires window > 0
    ensures Timely(Overtaken(window), 1) && DistinctStamps(Overtaken(window))
    ensures {0, 1, 3} <= AdmittedIn(Overtaken(window), window, window, window, 2)
  {
    var h := Overtaken(window);
    OvertakenIsTimely(window);
    OvertakenAdmitted(window, h, h[0], h[1], h[2], h[3]);
    assert Millis(h[0].stamp) == 1 && Millis(h[1].stamp) == 1 && Millis(h[3].stamp) == window;
  }

  lemma OvertakenSets(window: nat, a: Request, b: Request, c: Request, d: Request)
    requires window > 0 && [a] + [b] + [c] + [d] == Overtaken(window)
    ensures var z1 := Touched(ZSet(map[], None), a, window);
            var z2 := Touched(Live(z1, b.executed), b, window);
            var z3 := Touched(Live(z2, c.executed), c, window);
            |z1.members| <= 2 && |z2.members| <= 2 && |Touched(Live(z3, d.executed), d, window).members| <= 2
  {
    assert a == ([a] + [b] + [c] + [d])[0] && b == ([a] + [b] + [c] + [d])[1];
    assert c == ([a] + [b] + [c] + [d])[2] && d == ([a] + [b] + [c] + [d])[3];
    WindowStartIs(a.stamp, window);
    WindowStartIs(b.stamp, window);
    WindowStartIs(c.stamp, window);
    WindowStartIs(d.stamp, window);
    var z1 := Touched(ZSet(map[], None), a, window);
    assert z1.members.Keys == {a.stamp};
    var z2 := Touched(Live(z1, b.executed), b, window);
    assert z2.members.Keys <= {a.stamp, b.stamp} && forall n :: n in z2.members ==> z2.members[n] == 1;
    var z3 := Touched(Live(z2, c.executed), c, window);
    assert z3.members.Keys == {c.stamp};
    var z4 := Touched(Live(z3, d.executed), d, window);
    assert z4.members.Keys <= {c.stamp, d.stamp};
    FewMembers(z1.members, a.stamp, a.stamp);
    FewMembers(z2.members, a.stamp, b.stamp);
    FewMembers(z4.members, c.stamp, d.stamp);
  }

  lemma FewMembers(members: map<nat, int>, x: nat, y: nat)
    requires members.Keys <= {x, y}
    ensures |members| <= 2
  {
    assert |members| == |members.Keys|;
    assert members.Keys == (if x in members then {x} else {}) + (if y in members then {y} else {});
  }
}
