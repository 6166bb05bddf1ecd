/** Lists of times that are pruned as they are used, against lists that are not. */
module SlidingWindow {
  /** The times less than `width` before `now`, in order. */
  function Recent(ts: seq<real>, now: real, width: real): (r: seq<real>)
    ensures |r| <= |ts|
  {
    if ts == [] then []
    else
      var rest := Recent(ts[..|ts| - 1], now, width);
      var t := ts[|ts| - 1];
      if now - t < width then rest + [t] else rest
  }

  /** How many of the times lie in `[lo, lo + width)`. */
  function CountWithin(ts: seq<real>, lo: real, width: real): nat {
    if ts == [] then 0
    else
      var t := ts[|ts| - 1];
      CountWithin(ts[..|ts| - 1], lo, width) + if lo <= t < lo + width then 1 else 0
  }

  lemma {:induction false} RecentAppend(ts: seq<real>, t: real, now: real, width: real)
    ensures Recent(ts + [t], now, width) == Recent(ts, now, width) + if now - t < width then [t] else []
  {
    assert (ts + [t])[..|ts|] == ts;
  }

  lemma CountAppend(ts: seq<real>, t: real, lo: real, width: real)
    ensures CountWithin(ts + [t], lo, width) == CountWithin(ts, lo, width) + if lo <= t < lo + width then 1 else 0
  {
    assert (ts + [t])[..|ts|] == ts;
  }

  /** Pruning early loses nothing that a later look would still see. */
  lemma {:induction false} PruneTwice(ts: seq<real>, earlier: real, now: real, width: real)
    requires earlier <= now
    ensures Recent(Recent(ts, earlier, width), now, width) == Recent(ts, now, width)
  {
    if ts != [] {
      var init := ts[..|ts| - 1];
      PruneTwice(init, earlier, now, width);
      var t := ts[|ts| - 1];
      if earlier - t < width {
        RecentAppend(Recent(init, earlier, width), t, now, width);
      }
    }
  }

  /** A window that `now` falls into is covered by the times recent at `now`. */
  lemma {:induction false} WindowIsRecent(ts: seq<real>, lo: real, now: real, width: real)
    requires now < lo + width
    ensures CountWithin(ts, lo, width) <= |Recent(ts, now, width)|
  {
    if ts != [] {
      WindowIsRecent(ts[..|ts| - 1], lo, now, width);
    }
  }

  /** The list `pruned` answers every question from time `last` on as `full` does. */
  ghost predicate Agrees(pruned: seq<real>, full: seq<real>, last: real, width: real) {
    forall now :: last <= now ==> Recent(pruned, now, width) == Recent(full, now, width)
  }

  lemma PruneAgrees(pruned: seq<real>, full: seq<real>, last: real, now: real, width: real)
    requires Agrees(pruned, full, last, width) && last <= now
    ensures Agrees(Recent(pruned, now, width), full, now, width)
  {
    forall later | now <= later
      ensures Recent(Recent(pruned, now, width), later, width) == Recent(full, later, width)
    {
      PruneTwice(pruned, now, later, width);
    }
  }

  lemma AppendAgrees(pruned: seq<real>, full: seq<real>, last: real, t: real, width: real)
    requires Agrees(pruned, full, last, width)
    ensures Agrees(pruned + [t], full + [t], last, width)
  {
    forall now | last <= now
      ensures Recent(pruned + [t], now, width) == Recent(full + [t], now, width)
    {
      RecentAppend(pruned, t, now, width);
      RecentAppend(full, t, now, width);
    }
  }

  lemma LaterAgrees(pruned: seq<real>, full: seq<real>, last: real, now: real, width: real)
    requires Agrees(pruned, full, last, width) && last <= now
    ensures Agrees(pruned, full, now, width)
  {
  }

  type Times = map<string, seq<real>>

  function Get(m: Times, key: string): seq<real> {
    if key in m then m[key] else []
  }
}

/** The in-memory request limiter. */
module RateLimiter {
  import opened SlidingWindow

  const WINDOW_SECONDS := 60.0

  datatype Request = Request(key: string, at: real)

  type Limit = string -> int

  /** One call: prune the key's list, then refuse, or accept and append. */
  function Check(windows: Times, key: string, maxRequests: int, now: real): (Times, bool) {
    var kept := Recent(Get(windows, key), now, WINDOW_SECONDS);
    if |kept| >= maxRequests then (windows[key := kept], false)
    else (windows[key := kept + [now]], true)
  }

  /** The decisions on a sequence of requests, and the lists they leave. */
  function Serve(limit: Limit, reqs: seq<Request>): (r: (Times, seq<bool>))
    ensures |r.1| == |reqs|
  {
    if reqs == [] then (map[], [])
    else
      var (windows, decisions) := Serve(limit, reqs[..|reqs| - 1]);
      var q := reqs[|reqs| - 1];
      var (windows', ok) := Check(windows, q.key, limit(q.key), q.at);
      (windows', decisions + [ok])
  }

  /** All times at which requests for `key` were accepted: the history nobody prunes. */
  function Accepted(reqs: seq<Request>, decisions: seq<bool>, key: string): seq<real>
    requires |reqs| == |decisions|
  {
    if reqs == [] then []
    else
      var last := |reqs| - 1;
      var before := Accepted(reqs[..last], decisions[..last], key);
      if decisions[last] && reqs[last].key == key then before + [reqs[last].at] else before
  }

  ghost predicate Monotone(reqs: seq<Request>) {
    forall i, j :: 0 <= i < j < |reqs| ==> reqs[i].at <= reqs[j].at
  }

  ghost predicate NoneAfter(reqs: seq<Request>, now: real) {
    forall i :: 0 <= i < |reqs| ==> reqs[i].at <= now
  }

  lemma {:induction false} ServeAgrees(limit: Limit, reqs: seq<Request>, now: real, key: string)
    requires Monotone(reqs) && NoneAfter(reqs, now)
    ensures var (windows, decisions) := Serve(limit, reqs);
      Agrees(Get(windows, key), Accepted(reqs, decisions, key), now, WINDOW_SECONDS)
  {
    if reqs != [] {
      var last := |reqs| - 1;
      var q := reqs[last];
      var (windows, decisions) := Serve(limit, reqs[..last]);
      assert (decisions + [true])[..last] == decisions == (decisions + [false])[..last];
      ServeAgrees(limit, reqs[..last], q.at, key);
      var pruned, full := Get(windows, key), Accepted(reqs[..last], decisions, key);
      if q.key == key {
        PruneAgrees(pruned, full, q.at, q.at, WINDOW_SECONDS);
        var kept := Recent(pruned, q.at, WINDOW_SECONDS);
        AppendAgrees(kept, full, q.at, q.at, WINDOW_SECONDS);
        LaterAgrees(kept, full, q.at, now, WINDOW_SECONDS);
        LaterAgrees(kept + [q.at], full + [q.at], q.at, now, WINDOW_SECONDS);
      } else {
        LaterAgrees(pruned, full, q.at, now, WINDOW_SECONDS);
      }
    }
  }

  lemma {:induction false} DecidedByRecent(limit: Limit, reqs: seq<Request>, q: Request)
    requires Monotone(reqs + [q])
    ensures var before := Serve(limit, reqs).1;
      Serve(limit, reqs + [q]).1
        == before + [|Recent(Accepted(reqs, before, q.key), q.at, WINDOW_SECONDS)| < limit(q.key)]
  {
    var all := reqs + [q];
    assert all[..|reqs|] == reqs;
    assert forall i :: 0 <= i < |reqs| ==> reqs[i] == all[i] && all[i].at <= all[|reqs|].at;
    ServeAgrees(limit, reqs, q.at, q.key);
  }

  /** The accepted requests for a key less than 60 seconds before `now`. */
  function AcceptedSince(reqs: seq<Request>, decisions: seq<bool>, key: string, now: real): set<nat>
    requires |reqs| == |decisions|
  {
    set i: nat | i < |reqs| && decisions[i] && reqs[i].key == key && now - reqs[i].at < 60.0
  }

  lemma {:induction false} RecentAccepted(reqs: seq<Request>, decisions: seq<bool>, key: string, now: real)
    requires |reqs| == |decisions|
    ensures |Recent(Accepted(reqs, decisions, key), now, WINDOW_SECONDS)| == |AcceptedSince(reqs, decisions, key, now)|
  {
    if reqs == [] {
      assert AcceptedSince(reqs, decisions, key, now) == {};
    } else {
      var last := |reqs| - 1;
      RecentAccepted(reqs[..last], decisions[..last], key, now);
      RecentAppend(Accepted(reqs[..last], decisions[..last], key), reqs[last].at, now, WINDOW_SECONDS);
      assert AcceptedSince(reqs, decisions, key, now)
          == AcceptedSince(reqs[..last], decisions[..last], key, now)
             + if decisions[last] && reqs[last].key == key && now - reqs[last].at < 60.0 then {last} else {};
    }
  }

  /** A request is accepted exactly when fewer than the limit of the requests for
      its key in the preceding 60 seconds were accepted, counted over the whole
      history. */
  lemma {:induction false} AcceptedIffRoom(limit: Limit, reqs: seq<Request>, q: Request)
    requires Monotone(reqs + [q])
    ensures var before := Serve(limit, reqs).1;
      Serve(limit, reqs + [q]).1 == before + [|AcceptedSince(reqs, before, q.key, q.at)| < limit(q.key)]
  {
    hide Serve;
    hide Recent;
    DecidedByRecent(limit, reqs, q);
    RecentAccepted(reqs, Serve(limit, reqs).1, q.key, q.at);
  }

  lemma {:induction false} CountNeverOver(limit: Limit, reqs: seq<Request>, key: string, lo: real)
    requires Monotone(reqs)
    ensures CountWithin(Accepted(reqs, Serve(limit, reqs).1, key), lo, WINDOW_SECONDS)
         <= if limit(key) > 0 then limit(key) else 0
  {
    if reqs != [] {
      var last := |reqs| - 1;
      var q := reqs[last];
      var before := Serve(limit, reqs[..last]).1;
      CountNeverOver(limit, reqs[..last], key, lo);
      assert reqs[..last] + [q] == reqs;
      DecidedByRecent(limit, reqs[..last], q);
      var decisions := Serve(limit, reqs).1;
      assert decisions[..last] == before;
      var full := Accepted(reqs[..last], before, key);
      if decisions[last] && q.key == key {
        CountAppend(full, q.at, lo, WINDOW_SECONDS);
        if lo <= q.at < lo + WINDOW_SECONDS {
          WindowIsRecent(full, lo, q.at, WINDOW_SECONDS);
        }
      }
    }
  }

  /** The accepted requests for a key in the 60 seconds from `lo` on. */
  function AcceptedWithin(reqs: seq<Request>, decisions: seq<bool>, key: string, lo: real): set<nat>
    requires |reqs| == |decisions|
  {
    set i: nat | i < |reqs| && decisions[i] && reqs[i].key == key && lo <= reqs[i].at < lo + 60.0
  }

  lemma {:induction false} CountAccepted(reqs: seq<Request>, decisions: seq<bool>, key: string, lo: real)
    requires |reqs| == |decisions|
    ensures CountWithin(Accepted(reqs, decisions, key), lo, WINDOW_SECONDS) == |AcceptedWithin(reqs, decisions, key, lo)|
  {
    if reqs == [] {
      assert AcceptedWithin(reqs, decisions, key, lo) == {};
    } else {
      var last := |reqs| - 1;
      CountAccepted(reqs[..last], decisions[..last], key, lo);
      CountAppend(Accepted(reqs[..last], decisions[..last], key), reqs[last].at, lo, WINDOW_SECONDS);
      hide CountWithin;
      assert AcceptedWithin(reqs, decisions, key, lo)
          == AcceptedWithin(reqs[..last], decisions[..last], key, lo)
             + if decisions[last] && reqs[last].key == key && lo <= reqs[last].at < lo + 60.0 then {last} else {};
    }
  }

  /** No half-open interval of 60 seconds holds more accepted requests for a key
      than its limit. */
  lemma {:induction false} NeverOverLimit(limit: Limit, reqs: seq<Request>, key: string, lo: real)
    requires Monotone(reqs)
    ensures |AcceptedWithin(reqs, Serve(limit, reqs).1, key, lo)| <= if limit(key) > 0 then limit(key) else 0
  {
    hide Serve;
    CountNeverOver(limit, reqs, key, lo);
    CountAccepted(reqs, Serve(limit, reqs).1, key, lo);
  }

  function ForKey(reqs: seq<Request>, key: string): seq<Request> {
    if reqs == [] then []
    else
      var before := ForKey(reqs[..|reqs| - 1], key);
      if reqs[|reqs| - 1].key == key then before + [reqs[|reqs| - 1]] else before
  }

  function DecisionsFor(reqs: seq<Request>, decisions: seq<bool>, key: string): seq<bool>
    requires |reqs| == |decisions|
  {
    if reqs == [] then []
    else
      var last := |reqs| - 1;
      var before := DecisionsFor(reqs[..last], decisions[..last], key);
      if reqs[last].key == key then before + [decisions[last]] else before
  }

  /** Keys do not affect each other: a key's requests are decided as if they
      were the only ones. */
  lemma {:induction false} KeysAreIndependent(limit: Limit, reqs: seq<Request>, key: string)
    ensures var (windows, decisions) := Serve(limit, reqs);
      var (windows', decisions') := Serve(limit, ForKey(reqs, key));
      Get(windows, key) == Get(windows', key) && DecisionsFor(reqs, decisions, key) == decisions'
  {
    if reqs != [] {
      var last := |reqs| - 1;
      KeysAreIndependent(limit, reqs[..last], key);
      assert Serve(limit, reqs).1[..last] == Serve(limit, reqs[..last]).1;
      var mine := ForKey(reqs[..last], key);
      assert (mine + [reqs[last]])[..|mine|] == mine;
    }
  }

  class Limiter {
    var windows: Times

    constructor ()
      ensures windows == map[]
    {
      windows := map[];
    }

    /** Returns whether the request may go on; a refusal raises HTTP 429. */
    method CheckRateLimit(key: string, maxRequests: int, now: real) returns (allowed: bool)
      modifies this
      ensures (windows, allowed) == Check(old(windows), key, maxRequests, now)
    {
      var window := Get(windows, key);
      windows := windows[key := Recent(window, now, WINDOW_SECONDS)];
      if |windows[key]| >= maxRequests {
        return false;
      }
      windows := windows[key := windows[key] + [now]];
      assert windows == old(windows)[key := windows[key]];
      return true;
    }
  }
}

/** The tracker of repeated authentication failures. */
module AuthThrottle {
  import opened SlidingWindow

  datatype Event = Failure(ip: string, at: real) | Clear(ip: string, at: real)

  /** The tracker's lists after a history of events. */
  function Track(history: seq<Event>, width: real): Times {
    if history == [] then map[]
    else
      var failures := Track(history[..|history| - 1], width);
      match history[|history| - 1]
      case Failure(ip, now) => failures[ip := Recent(Get(failures, ip), now, width) + [now]]
      case Clear(ip, _) => failures - {ip}
  }

  predicate Blocked(failures: Times, ip: string, maxFailures: int, now: real, width: real) {
    |Recent(Get(failures, ip), now, width)| >= maxFailures
  }

  /** Every failure of `ip` since it was last cleared. */
  function SinceClear(history: seq<Event>, ip: string): seq<real> {
    if history == [] then []
    else
      var before := SinceClear(history[..|history| - 1], ip);
      var e := history[|history| - 1];
      if e.ip != ip then before
      else if e.Failure? then before + [e.at]
      else []
  }

  ghost predicate Monotone(history: seq<Event>, now: real) {
    && (forall i, j :: 0 <= i < j < |history| ==> history[i].at <= history[j].at)
    && (forall i :: 0 <= i < |history| ==> history[i].at <= now)
  }

  lemma {:induction false} TrackAgrees(history: seq<Event>, ip: string, now: real, width: real)
    requires Monotone(history, now)
    ensures Agrees(Get(Track(history, width), ip), SinceClear(history, ip), now, width)
  {
    if history != [] {
      var last := |history| - 1;
      var e := history[last];
      TrackAgrees(history[..last], ip, e.at, width);
      var pruned, full := Get(Track(history[..last], width), ip), SinceClear(history[..last], ip);
      if e.ip == ip && e.Failure? {
        PruneAgrees(pruned, full, e.at, e.at, width);
        AppendAgrees(Recent(pruned, e.at, width), full, e.at, e.at, width);
        LaterAgrees(Recent(pruned, e.at, width) + [e.at], full + [e.at], e.at, now, width);
      } else if e.ip != ip {
        LaterAgrees(pruned, full, e.at, now, width);
      }
    }
  }

  /** Event `i` is a failure of `ip`, less than `width` before `now`, that no clear followed. */
  predicate StillCounts(history: seq<Event>, i: nat, ip: string, now: real, width: real)
    requires i < |history|
  {
    && history[i].Failure? && history[i].ip == ip && now - history[i].at < width
    && forall j :: i < j < |history| ==> !(history[j].Clear? && history[j].ip == ip)
  }

  function Uncleared(history: seq<Event>, ip: string, now: real, width: real): set<nat> {
    set i: nat | i < |history| && StillCounts(history, i, ip, now, width)
  }

  lemma StillCountsBefore(history: seq<Event>, i: nat, ip: string, now: real, width: real)
    requires history != [] && i < |history| - 1
    ensures StillCounts(history, i, ip, now, width)
       <==> && StillCounts(history[..|history| - 1], i, ip, now, width)
            && !(history[|history| - 1].Clear? && history[|history| - 1].ip == ip)
  {
    assert forall j :: 0 <= j < |history| - 1 ==> history[..|history| - 1][j] == history[j];
  }

  lemma {:induction false} UnclearedLast(history: seq<Event>, ip: string, now: real, width: real)
    requires history != []
    ensures var last := |history| - 1;
      var e, before := history[last], Uncleared(history[..last], ip, now, width);
      Uncleared(history, ip, now, width)
        == if e.ip == ip && e.Clear? then {}
           else if e.ip == ip && now - e.at < width then before + {last}
           else before
  {
    var last := |history| - 1;
    forall i: nat | i < last
      ensures StillCounts(history, i, ip, now, width)
         <==> StillCounts(history[..last], i, ip, now, width) && !(history[last].Clear? && history[last].ip == ip)
    {
      StillCountsBefore(history, i, ip, now, width);
    }
    assert StillCounts(history, last, ip, now, width)
      <==> history[last].Failure? && history[last].ip == ip && now - history[last].at < width;
    hide StillCounts;
  }

  lemma {:induction false} RecentUncleared(history: seq<Event>, ip: string, now: real, width: real)
    ensures |Recent(SinceClear(history, ip), now, width)| == |Uncleared(history, ip, now, width)|
  {
    if history == [] {
      assert Uncleared(history, ip, now, width) == {};
    } else {
      var last := |history| - 1;
      RecentUncleared(history[..last], ip, now, width);
      RecentAppend(SinceClear(history[..last], ip), history[last].at, now, width);
      UnclearedLast(history, ip, now, width);
      assert last !in Uncleared(history[..last], ip, now, width);
      hide Uncleared;
    }
  }

  /** The pruned tracker blocks exactly when all failures since the last clear,
      counted inside the window, reach the maximum. */
  lemma {:induction false} BlocksAsFullHistory(history: seq<Event>, ip: string, maxFailures: int, now: real, width: real)
    requires Monotone(history, now)
    ensures Blocked(Track(history, width), ip, maxFailures, now, width)
       <==> |Uncleared(history, ip, now, width)| >= maxFailures
  {
    hide Track;
    hide Uncleared;
    TrackAgrees(history, ip, now, width);
    RecentUncleared(history, ip, now, width);
  }

  class FailedAuthThrottle {
    const maxFailures: int
    const width: real
    var failures: Times
    ghost var history: seq<Event>

    constructor (maxFailures: int, width: real)
      ensures this.maxFailures == maxFailures && this.width == width
      ensures Valid() && history == []
    {
      this.maxFailures, this.width := maxFailures, width;
      failures, history := map[], [];
    }

    ghost predicate Valid()
      reads this
    {
      failures == Track(history, width)
    }

    method RecordFailure(ip: string, now: real)
      requires Valid()
      modifies this
      ensures Valid() && history == old(history) + [Failure(ip, now)]
    {
      failures := failures[ip := Recent(Get(failures, ip), now, width)];
      failures := failures[ip := failures[ip] + [now]];
      history := history + [Failure(ip, now)];
      assert history[..|history| - 1] == old(history);
    }

    /** Read-only; answers as the full history does while the clock is monotone. */
    method IsBlocked(ip: string, now: real) returns (blocked: bool)
      requires Valid() && Monotone(history, now)
      ensures blocked <==> |Uncleared(history, ip, now, width)| >= maxFailures
    {
      var recent := Recent(Get(failures, ip), now, width);
      BlocksAsFullHistory(history, ip, maxFailures, now, width);
      return |recent| >= maxFailures;
    }

    method Clear(ip: string, ghost now: real)
      requires Valid()
      modifies this
      ensures Valid() && history == old(history) + [Event.Clear(ip, now)]
    {
      failures := failures - {ip};
      history := history + [Event.Clear(ip, now)];
      assert history[..|history| - 1] == old(history);
    }
  }
}
