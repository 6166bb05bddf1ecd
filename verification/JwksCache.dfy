/** The signing-key cache: any number of callers, one lock, one suspended fetch.

    A caller runs without interruption between two awaits, so the protocol has
    five kinds of step: a call starts, a caller gets the lock, its fetch
    succeeds or fails, and time passes. */
module JwksCache {
  type Kid = string
  type Key = string

  /** A document of keys as served; a repeated kid keeps its last key. */
  type Jwks = seq<(Kid, Key)>

  function KeyMap(jwks: Jwks): (m: map<Kid, Key>)
    ensures forall kid :: kid in m <==> exists i :: 0 <= i < |jwks| && jwks[i].0 == kid
  {
    if jwks == [] then map[]
    else
      var last := jwks[|jwks| - 1];
      assert jwks == jwks[..|jwks| - 1] + [last];
      KeyMap(jwks[..|jwks| - 1])[last.0 := last.1]
  }

  /** The key kept for a kid is the one served last. */
  lemma {:induction false} LastKeyWins(jwks: Jwks, i: nat)
    requires i < |jwks| && forall j :: i < j < |jwks| ==> jwks[j].0 != jwks[i].0
    ensures jwks[i].0 in KeyMap(jwks) && KeyMap(jwks)[jwks[i].0] == jwks[i].1
  {
    if i < |jwks| - 1 {
      LastKeyWins(jwks[..|jwks| - 1], i);
    }
  }

  datatype Cache = Cache(keys: map<Kid, Key>, fetchedAt: real)

  predicate IsStale(ttl: real, c: Cache, kid: Kid, now: real) {
    now - c.fetchedAt > ttl || kid !in c.keys
  }

  /** Where a caller stands. `called` counts the refreshes completed when its call
      began, `version` those completed when it ended. */
  datatype Caller =
    | Waiting(kid: Kid, called: nat)
    | Fetching(kid: Kid, called: nat, since: real)
    | Returned(kid: Kid, called: nat, key: Key, at: real, version: nat)
    | Raised(kid: Kid, called: nat, version: nat)

  /** A completed refresh and the caller that made it. */
  datatype Refresh = Refresh(caller: nat, kid: Kid, started: real, completed: real, jwks: Jwks)

  datatype State = State(now: real, cache: Cache, locked: bool, callers: map<nat, Caller>, log: seq<Refresh>)

  datatype Action =
    | Tick(elapsed: real)
    | Call(id: nat, kid: Kid)
    | Acquire(id: nat)
    | Fetched(id: nat, jwks: Jwks)
    | FetchFailed(id: nat)

  function Init(start: real): State {
    State(start, Cache(map[], 0.0), false, map[], [])
  }

  predicate Enabled(s: State, a: Action) {
    match a
    case Tick(d) => d >= 0.0
    case Call(id, _) => id !in s.callers
    case Acquire(id) => id in s.callers && s.callers[id].Waiting? && !s.locked
    case Fetched(id, _) => id in s.callers && s.callers[id].Fetching?
    case FetchFailed(id) => id in s.callers && s.callers[id].Fetching?
  }

  /** The final look-up of `get_key`. */
  function Finish(c: Cache, version: nat, now: real, kid: Kid, called: nat): Caller {
    if kid in c.keys then Returned(kid, called, c.keys[kid], now, version) else Raised(kid, called, version)
  }

  function Apply(ttl: real, s: State, a: Action): State
    requires Enabled(s, a)
  {
    match a
    case Tick(d) => s.(now := s.now + d)
    case Call(id, kid) =>
      var c := if IsStale(ttl, s.cache, kid, s.now) then Waiting(kid, |s.log|) else Finish(s.cache, |s.log|, s.now, kid, |s.log|);
      s.(callers := s.callers[id := c])
    case Acquire(id) =>
      var c := s.callers[id];
      if IsStale(ttl, s.cache, c.kid, s.now)
      then s.(callers := s.callers[id := Fetching(c.kid, c.called, s.now)], locked := true)
      else s.(callers := s.callers[id := Finish(s.cache, |s.log|, s.now, c.kid, c.called)])
    case Fetched(id, jwks) =>
      var c := s.callers[id];
      var t := s.(cache := Cache(KeyMap(jwks), s.now), locked := false,
                  log := s.log + [Refresh(id, c.kid, c.since, s.now, jwks)]);
      t.(callers := t.callers[id := Finish(t.cache, |t.log|, t.now, c.kid, c.called)])
    case FetchFailed(id) =>
      var c := s.callers[id];
      s.(callers := s.callers[id := Raised(c.kid, c.called, |s.log|)], locked := false)
  }

  /** `run` leads from `s` to `t`. */
  ghost predicate Steps(ttl: real, s: State, run: seq<Action>, t: State) {
    if run == [] then s == t
    else
      var last := |run| - 1;
      exists m :: Steps(ttl, s, run[..last], m) && Enabled(m, run[last]) && t == Apply(ttl, m, run[last])
  }

  // ---------------------------------------------------------------------
  // Invariant
  // ---------------------------------------------------------------------

  predicate IsFetching(s: State, id: nat) {
    id in s.callers && s.callers[id].Fetching?
  }

  ghost predicate LockOk(s: State) {
    && (forall i, j :: IsFetching(s, i) && IsFetching(s, j) ==> i == j)
    && (s.locked <==> exists i :: IsFetching(s, i))
  }

  /** The cache holds what the last completed refresh brought. */
  ghost predicate CacheOk(c: Cache, log: seq<Refresh>) {
    if log == [] then c == Cache(map[], 0.0)
    else var last := log[|log| - 1]; c == Cache(KeyMap(last.jwks), last.completed)
  }

  /** A fetch for `kid` begun at `since` was due when the first `n` refreshes were done. */
  predicate Due(ttl: real, log: seq<Refresh>, n: nat, kid: Kid, since: real)
    requires n <= |log|
  {
    n > 0 ==>
      && log[n - 1].completed <= since
      && (since - log[n - 1].completed > ttl || kid !in KeyMap(log[n - 1].jwks))
  }

  ghost predicate LogOk(ttl: real, s: State) {
    && (forall i :: 0 <= i < |s.log| ==> s.log[i].started <= s.log[i].completed <= s.now)
    && (forall i :: 0 <= i < |s.log| ==> Due(ttl, s.log, i, s.log[i].kid, s.log[i].started))
    && (forall id :: IsFetching(s, id) ==>
          s.callers[id].since <= s.now && Due(ttl, s.log, |s.log|, s.callers[id].kid, s.callers[id].since))
  }

  /** A returned key was in the newest document at that moment, at most `ttl` old. */
  ghost predicate Current(ttl: real, log: seq<Refresh>, now: real, c: Caller)
    requires c.Returned?
  {
    && 0 < c.version <= |log|
    && c.kid in KeyMap(log[c.version - 1].jwks)
    && c.key == KeyMap(log[c.version - 1].jwks)[c.kid]
    && log[c.version - 1].completed <= c.at <= log[c.version - 1].completed + ttl
    && c.at <= now
    && (c.version < |log| ==> c.at <= log[c.version].completed)
  }

  ghost predicate ReturnsOk(ttl: real, s: State) {
    forall id :: id in s.callers && s.callers[id].Returned? ==> Current(ttl, s.log, s.now, s.callers[id])
  }

  ghost predicate Inv(ttl: real, s: State) {
    LockOk(s) && CacheOk(s.cache, s.log) && LogOk(ttl, s) && ReturnsOk(ttl, s)
  }

  lemma ApplyKeepsLock(ttl: real, s: State, a: Action)
    requires LockOk(s) && Enabled(s, a)
    ensures LockOk(Apply(ttl, s, a))
  {
    var t := Apply(ttl, s, a);
    if a.Tick? {
      assert forall i :: IsFetching(t, i) <==> IsFetching(s, i);
    } else {
      assert forall i :: i != a.id ==> (IsFetching(t, i) <==> IsFetching(s, i));
      assert a.Fetched? || a.FetchFailed? ==> IsFetching(s, a.id);
      assert a.Acquire? && t.locked ==> IsFetching(t, a.id);
    }
  }

  lemma ApplyKeepsLog(ttl: real, s: State, a: Action)
    requires LockOk(s) && CacheOk(s.cache, s.log) && LogOk(ttl, s) && Enabled(s, a)
    ensures var t := Apply(ttl, s, a); CacheOk(t.cache, t.log) && LogOk(ttl, Apply(ttl, s, a))
  {
    var t := Apply(ttl, s, a);
    if a.Fetched? {
      assert IsFetching(s, a.id);
      assert forall i :: 0 <= i < |s.log| ==> t.log[i] == s.log[i];
      assert forall i :: i != a.id ==> (IsFetching(t, i) <==> IsFetching(s, i));
    } else {
      assert t.log == s.log;
      assert forall i :: IsFetching(t, i) && !(a.Acquire? && a.id == i) ==> IsFetching(s, i) && t.callers[i] == s.callers[i];
    }
  }

  lemma FinishIsCurrent(ttl: real, c: Cache, log: seq<Refresh>, now: real, kid: Kid, called: nat)
    requires CacheOk(c, log) && c.fetchedAt <= now
    requires log != [] ==> now - c.fetchedAt <= ttl
    ensures var r := Finish(c, |log|, now, kid, called); r.Returned? ==> Current(ttl, log, now, r)
  {
  }

  lemma CurrentStays(ttl: real, log: seq<Refresh>, now: real, log': seq<Refresh>, now': real, c: Caller)
    requires c.Returned? && Current(ttl, log, now, c)
    requires log <= log' && now <= now' && (|log| < |log'| ==> now <= log'[|log|].completed)
    ensures Current(ttl, log', now', c)
  {
  }

  lemma ApplyKeepsReturns(ttl: real, s: State, a: Action)
    requires ttl >= 0.0 && ReturnsOk(ttl, s) && Enabled(s, a) && CacheOk(s.cache, s.log)
    requires s.log != [] ==> s.cache.fetchedAt <= s.now
    requires var t := Apply(ttl, s, a); CacheOk(t.cache, t.log)
    ensures ReturnsOk(ttl, Apply(ttl, s, a))
  {
    var t := Apply(ttl, s, a);
    forall id | id in t.callers && t.callers[id].Returned?
      ensures Current(ttl, t.log, t.now, t.callers[id])
    {
      var c := t.callers[id];
      if !a.Tick? && id == a.id {
        assert c == Finish(t.cache, |t.log|, t.now, c.kid, c.called);
        if t.log != [] {
          FinishIsCurrent(ttl, t.cache, t.log, t.now, c.kid, c.called);
        }
      } else {
        assert c == s.callers[id];
        CurrentStays(ttl, s.log, s.now, t.log, t.now, c);
      }
    }
  }

  lemma ApplyKeepsInv(ttl: real, s: State, a: Action)
    requires ttl >= 0.0 && Inv(ttl, s) && Enabled(s, a)
    ensures Inv(ttl, Apply(ttl, s, a))
  {
    ApplyKeepsLock(ttl, s, a);
    ApplyKeepsLog(ttl, s, a);
    assert s.log != [] ==> s.cache.fetchedAt <= s.now;
    ApplyKeepsReturns(ttl, s, a);
  }

  lemma {:induction false} RunKeepsInv(ttl: real, start: real, run: seq<Action>, t: State)
    requires ttl >= 0.0 && Steps(ttl, Init(start), run, t)
    ensures Inv(ttl, t)
  {
    if run != [] {
      var last := |run| - 1;
      var m :| Steps(ttl, Init(start), run[..last], m) && Enabled(m, run[last]) && t == Apply(ttl, m, run[last]);
      RunKeepsInv(ttl, start, run[..last], m);
      ApplyKeepsInv(ttl, m, run[last]);
    }
  }

  // ---------------------------------------------------------------------
  // What every interleaving keeps
  // ---------------------------------------------------------------------

  /** At most one fetch is in flight, and the lock is held exactly while one is:
      it is never lost, so a waiting caller can always go on once the fetch ends,
      and a fetch holds up neither new calls nor the clock. */
  lemma OneFetchAtATime(ttl: real, start: real, run: seq<Action>, t: State)
    requires ttl >= 0.0 && Steps(ttl, Init(start), run, t)
    ensures forall i, j :: IsFetching(t, i) && IsFetching(t, j) ==> i == j
    ensures t.locked <==> exists i :: IsFetching(t, i)
    ensures forall id :: id in t.callers && t.callers[id].Waiting? ==>
              Enabled(t, Acquire(id)) || exists i :: Enabled(t, FetchFailed(i))
    ensures forall id, kid :: id !in t.callers ==> Enabled(t, Call(id, kid))
    ensures forall d :: d >= 0.0 ==> Enabled(t, Tick(d))
  {
    RunKeepsInv(ttl, start, run, t);
    if t.locked {
      var i :| IsFetching(t, i);
      assert Enabled(t, FetchFailed(i));
    }
  }

  /** Every key handed out was in the most recently completed document, no more
      than one TTL old at that moment. */
  lemma ReturnedKeyIsCurrent(ttl: real, start: real, run: seq<Action>, t: State, id: nat)
    requires ttl >= 0.0 && Steps(ttl, Init(start), run, t)
    requires id in t.callers && t.callers[id].Returned?
    ensures Current(ttl, t.log, t.now, t.callers[id])
  {
    RunKeepsInv(ttl, start, run, t);
  }

  /** No needless refresh: after one completes, the next starts only later than
      one TTL, or for a kid that the fetched document did not hold. */
  lemma RefreshOnlyWhenDue(ttl: real, start: real, run: seq<Action>, t: State, i: nat)
    requires ttl >= 0.0 && Steps(ttl, Init(start), run, t) && i + 1 < |t.log|
    ensures t.log[i].completed <= t.log[i + 1].started <= t.log[i + 1].completed
    ensures t.log[i + 1].started - t.log[i].completed > ttl || t.log[i + 1].kid !in KeyMap(t.log[i].jwks)
  {
    RunKeepsInv(ttl, start, run, t);
    assert Due(ttl, t.log, i + 1, t.log[i + 1].kid, t.log[i + 1].started);
  }

  /** Nor is one in flight needless, whether it will succeed or fail. */
  lemma FetchOnlyWhenDue(ttl: real, start: real, run: seq<Action>, t: State, id: nat)
    requires ttl >= 0.0 && Steps(ttl, Init(start), run, t) && IsFetching(t, id) && t.log != []
    ensures var last := t.log[|t.log| - 1];
      && last.completed <= t.callers[id].since <= t.now
      && (t.callers[id].since - last.completed > ttl || t.callers[id].kid !in KeyMap(last.jwks))
  {
    RunKeepsInv(ttl, start, run, t);
    assert Due(ttl, t.log, |t.log|, t.callers[id].kid, t.callers[id].since);
  }

  // ---------------------------------------------------------------------
  // When a refresh must happen, and when a caller may raise
  // ---------------------------------------------------------------------

  /** The newest document holds the kid and is at most one TTL old. */
  ghost predicate Holds(ttl: real, s: State, kid: Kid) {
    s.log != [] && var last := s.log[|s.log| - 1]; kid in KeyMap(last.jwks) && s.now - last.completed <= ttl
  }

  lemma StaleIff(ttl: real, s: State, kid: Kid)
    requires CacheOk(s.cache, s.log)
    ensures IsStale(ttl, s.cache, kid, s.now) <==> !Holds(ttl, s, kid)
    ensures Holds(ttl, s, kid) ==> kid in s.cache.keys && s.cache.keys[kid] == KeyMap(s.log[|s.log| - 1].jwks)[kid]
  {
  }

  lemma ReachedCacheOk(ttl: real, start: real, run: seq<Action>, t: State)
    requires ttl >= 0.0 && Steps(ttl, Init(start), run, t)
    ensures CacheOk(t.cache, t.log)
  {
    RunKeepsInv(ttl, start, run, t);
  }

  /** A call for a kid that the newest document holds, within its TTL, returns
      that document's key at once; any other call asks for the lock. */
  lemma {:induction false} CallOutcome(ttl: real, start: real, run: seq<Action>, t: State, id: nat, kid: Kid)
    requires ttl >= 0.0 && Steps(ttl, Init(start), run, t) && id !in t.callers
    ensures var u := Apply(ttl, t, Call(id, kid));
      && u.log == t.log && u.now == t.now && u.locked == t.locked && u.cache == t.cache
      && u.callers.Keys == t.callers.Keys + {id}
      && (forall i :: i in t.callers ==> u.callers[i] == t.callers[i])
      && (Holds(ttl, t, kid) ==>
            u.callers[id] == Returned(kid, |t.log|, KeyMap(t.log[|t.log| - 1].jwks)[kid], t.now, |t.log|))
      && (!Holds(ttl, t, kid) ==> u.callers[id] == Waiting(kid, |t.log|))
  {
    ReachedCacheOk(ttl, start, run, t);
    StaleIff(ttl, t, kid);
    hide IsStale;
    hide CacheOk;
    hide Steps;
  }

  /** Under the lock the newest document is looked at again: it answers if it now
      holds the kid, and otherwise the caller keeps the lock and fetches. */
  lemma {:induction false} AcquireOutcome(ttl: real, start: real, run: seq<Action>, t: State, id: nat)
    requires ttl >= 0.0 && Steps(ttl, Init(start), run, t)
    requires id in t.callers && t.callers[id].Waiting? && forall i :: i in t.callers ==> !t.callers[i].Fetching?
    ensures Enabled(t, Acquire(id))
    ensures var u, c := Apply(ttl, t, Acquire(id)), t.callers[id];
      && u.log == t.log && u.now == t.now && u.cache == t.cache
      && u.callers.Keys == t.callers.Keys && (forall i :: i in t.callers && i != id ==> u.callers[i] == t.callers[i])
      && (Holds(ttl, t, c.kid) ==>
            && !u.locked
            && u.callers[id] == Returned(c.kid, c.called, KeyMap(t.log[|t.log| - 1].jwks)[c.kid], t.now, |t.log|))
      && (!Holds(ttl, t, c.kid) ==> u.locked && u.callers[id] == Fetching(c.kid, c.called, t.now))
  {
    OneFetchAtATime(ttl, start, run, t);
    ReachedCacheOk(ttl, start, run, t);
    StaleIff(ttl, t, t.callers[id].kid);
    hide IsStale;
    hide CacheOk;
    hide Steps;
  }

  /** A completed fetch releases the lock and answers its caller from its own document. */
  lemma FetchedOutcome(ttl: real, start: real, run: seq<Action>, t: State, id: nat, jwks: Jwks)
    requires ttl >= 0.0 && Steps(ttl, Init(start), run, t) && id in t.callers && t.callers[id].Fetching?
    ensures var u, c := Apply(ttl, t, Fetched(id, jwks)), t.callers[id];
      && u.now == t.now && !u.locked && u.log == t.log + [Refresh(id, c.kid, c.since, t.now, jwks)]
      && u.callers.Keys == t.callers.Keys && (forall i :: i in t.callers && i != id ==> u.callers[i] == t.callers[i])
      && (c.kid in KeyMap(jwks) ==> u.callers[id] == Returned(c.kid, c.called, KeyMap(jwks)[c.kid], t.now, |u.log|))
      && (c.kid !in KeyMap(jwks) ==> u.callers[id] == Raised(c.kid, c.called, |u.log|))
  {
  }

  ghost predicate LackedByOwn(log: seq<Refresh>, id: nat, c: Caller)
    requires c.Raised?
  {
    c.called < c.version <= |log| && log[c.version - 1].caller == id && c.kid !in KeyMap(log[c.version - 1].jwks)
  }

  /** Whose call it was, and why it raised. */
  ghost predicate Explained(run: seq<Action>, log: seq<Refresh>, id: nat, c: Caller) {
    && Call(id, c.kid) in run
    && c.called <= |log|
    && (c.Raised? ==> FetchFailed(id) in run || LackedByOwn(log, id, c))
  }

  lemma {:induction false} ExplainedStep(ttl: real, run: seq<Action>, s: State, a: Action)
    requires Enabled(s, a)
    requires forall id :: id in s.callers ==> Explained(run, s.log, id, s.callers[id])
    ensures forall id :: id in Apply(ttl, s, a).callers ==> Explained(run + [a], Apply(ttl, s, a).log, id, Apply(ttl, s, a).callers[id])
  {
    hide KeyMap;
    var t := Apply(ttl, s, a);
    forall id | id in t.callers
      ensures Explained(run + [a], t.log, id, t.callers[id])
    {
      assert a in run + [a];
      if id in s.callers {
        assert Explained(run, s.log, id, s.callers[id]);
      }
    }
  }

  lemma {:induction false} AllExplained(ttl: real, start: real, run: seq<Action>, t: State)
    requires Steps(ttl, Init(start), run, t)
    ensures forall id :: id in t.callers ==> Explained(run, t.log, id, t.callers[id])
  {
    hide Explained;
    if run != [] {
      var last := |run| - 1;
      var m :| Steps(ttl, Init(start), run[..last], m) && Enabled(m, run[last]) && t == Apply(ttl, m, run[last]);
      AllExplained(ttl, start, run[..last], m);
      ExplainedStep(ttl, run[..last], m, run[last]);
      assert run[..last] + [run[last]] == run;
    }
  }

  /** In every interleaving a caller raises only by its own failed fetch, or when
      its own fetch, made after its call began, brought a document without its kid. */
  lemma {:induction false} RaisesOnlyAfterOwnFetch(ttl: real, start: real, run: seq<Action>, t: State, id: nat)
    requires Steps(ttl, Init(start), run, t) && id in t.callers && t.callers[id].Raised?
    ensures var c := t.callers[id];
      && Call(id, c.kid) in run
      && (FetchFailed(id) in run ||
          (c.called < c.version <= |t.log| && t.log[c.version - 1].caller == id && c.kid !in KeyMap(t.log[c.version - 1].jwks)))
  {
    hide Steps;
    hide KeyMap;
    AllExplained(ttl, start, run, t);
    assert Explained(run, t.log, id, t.callers[id]);
  }

  /** Every completed refresh served every kid that a refresh was made for. */
  predicate AllServed(log: seq<Refresh>) {
    forall i, j :: 0 <= i < |log| && 0 <= j < |log| ==> log[j].kid in KeyMap(log[i].jwks)
  }

  predicate Spaced(ttl: real, r: Refresh, next: Refresh) {
    next.started - r.completed > ttl && next.started <= next.completed
  }

  lemma {:induction false} SpacedRate(ttl: real, log: seq<Refresh>, i: nat, n: nat)
    requires forall k: nat :: k + 1 < |log| ==> Spaced(ttl, log[k], log[k + 1])
    requires i + n < |log| && n > 0
    ensures log[i + n].started - log[i].completed > n as real * ttl
    decreases n
  {
    assert Spaced(ttl, log[i + n - 1], log[i + n - 1 + 1]);
    if n == 1 {
      assert n as real == 1.0;
    } else {
      SpacedRate(ttl, log, i, n - 1);
      assert Spaced(ttl, log[i + n - 2], log[i + n - 2 + 1]);
      assert n as real * ttl == (n - 1) as real * ttl + ttl;
    }
  }

  /** When every document serves every requested kid, `n + 1` refreshes take
      more than `n` TTLs, however many callers arrive and whichever fetches fail. */
  lemma RefreshRate(ttl: real, start: real, run: seq<Action>, t: State, i: nat, n: nat)
    requires ttl >= 0.0 && Steps(ttl, Init(start), run, t) && AllServed(t.log)
    requires i + n < |t.log| && n > 0
    ensures t.log[i + n].started - t.log[i].completed > n as real * ttl
  {
    forall k: nat | k + 1 < |t.log|
      ensures Spaced(ttl, t.log[k], t.log[k + 1])
    {
      RefreshOnlyWhenDue(ttl, start, run, t, k);
    }
    SpacedRate(ttl, t.log, i, n);
  }

  // ---------------------------------------------------------------------
  // The cache object; each method is one uninterrupted stretch of `get_key`
  // ---------------------------------------------------------------------

  datatype Progress = Found(key: Key) | NoSuchKey | NeedsLock | NeedsFetch

  function LookUp(keys: map<Kid, Key>, kid: Kid): Progress {
    if kid in keys then Found(keys[kid]) else NoSuchKey
  }

  /** What a caller's place in the protocol looks like from outside. */
  function Seen(c: Caller): Progress {
    match c
    case Waiting(_, _) => NeedsLock
    case Fetching(_, _, _) => NeedsFetch
    case Returned(_, _, key, _, _) => Found(key)
    case Raised(_, _, _) => NoSuchKey
  }

  class Cacher {
    const ttl: real
    var keys: map<Kid, Key>
    var fetchedAt: real
    var locked: bool

    constructor (ttl: real, ghost start: real)
      ensures this.ttl == ttl && Shows(Init(start))
    {
      this.ttl := ttl;
      keys, fetchedAt, locked := map[], 0.0, false;
    }

    /** The object holds the shared part of protocol state `s`. */
    ghost predicate Shows(s: State)
      reads this
    {
      s.cache == Cache(keys, fetchedAt) && s.locked == locked
    }

    predicate Stale(kid: Kid, now: real)
      reads this
    {
      now - fetchedAt > ttl || kid !in keys
    }

    /** Up to the first await: answer from a fresh cache, or ask for the lock. */
    method GetKey(kid: Kid, now: real, ghost s: State, ghost id: nat) returns (p: Progress)
      requires Shows(s) && now == s.now && Enabled(s, Call(id, kid))
      ensures Shows(Apply(ttl, s, Call(id, kid)))
      ensures p == Seen(Apply(ttl, s, Call(id, kid)).callers[id])
    {
      if Stale(kid, now) {
        return NeedsLock;
      }
      p := LookUp(keys, kid);
    }

    /** Once the lock is granted: check again, and keep the lock only to fetch. */
    method LockGranted(kid: Kid, now: real, ghost s: State, ghost id: nat) returns (p: Progress)
      requires Shows(s) && now == s.now && Enabled(s, Acquire(id)) && s.callers[id].kid == kid
      modifies this`locked
      ensures Shows(Apply(ttl, s, Acquire(id)))
      ensures p == Seen(Apply(ttl, s, Acquire(id)).callers[id])
    {
      locked := true;
      if Stale(kid, now) {
        return NeedsFetch;
      }
      locked := false;
      p := LookUp(keys, kid);
    }

    /** The fetch came back: replace the keys, release the lock, look up. */
    method Refreshed(kid: Kid, jwks: Jwks, now: real, ghost s: State, ghost id: nat) returns (p: Progress)
      requires Shows(s) && now == s.now && Enabled(s, Fetched(id, jwks)) && s.callers[id].kid == kid
      modifies this
      ensures Shows(Apply(ttl, s, Fetched(id, jwks)))
      ensures p == Seen(Apply(ttl, s, Fetched(id, jwks)).callers[id])
    {
      var latest: map<Kid, Key> := map[];
      for i := 0 to |jwks|
        invariant latest == KeyMap(jwks[..i])
      {
        assert jwks[..i + 1][..i] == jwks[..i];
        latest := latest[jwks[i].0 := jwks[i].1];
      }
      assert jwks[..|jwks|] == jwks;
      keys := latest;
      fetchedAt := now;
      locked := false;
      p := LookUp(keys, kid);
    }

    /** The fetch raised: only the lock changes. */
    method RefreshRaised(ghost s: State, ghost id: nat)
      requires Shows(s) && Enabled(s, FetchFailed(id))
      modifies this`locked
      ensures Shows(Apply(ttl, s, FetchFailed(id)))
    {
      locked := false;
    }
  }
}
