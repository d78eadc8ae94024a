/** The fixed-window rate limiter kept in memory. */
module RateLimit {

  /** Times count from Go's zero time, which is 0 here. */
  datatype Entry = Entry(count: int, resetAt: int)

  datatype Decision = Decision(allowed: bool, limit: int, remaining: int, resetAt: int, retryAfter: int)

  datatype Call = Call(key: string, limit: int, window: int, at: int)

  type Table = map<string, Entry>

  function Lookup(entries: Table, key: string): Entry {
    if key in entries then entries[key] else Entry(0, 0)
  }

  /** The entry a call leaves behind: a window that has passed is opened afresh. */
  function Counted(e: Entry, window: int, now: int): Entry {
    if e.resetAt == 0 || e.resetAt <= now then Entry(1, now + window) else Entry(e.count + 1, e.resetAt)
  }

  function Decide(e: Entry, limit: int, now: int): Decision {
    Decision(e.count <= limit, limit, if limit - e.count < 0 then 0 else limit - e.count, e.resetAt,
             if e.resetAt - now < 0 then 0 else e.resetAt - now)
  }

  class MemoryStore {
    var entries: Table

    constructor ()
      ensures entries == map[]
    {
      entries := map[];
    }

    method Allow(key: string, limit: int, window: int, now: int) returns (d: Decision)
      modifies this
      ensures entries == old(entries)[key := Counted(Lookup(old(entries), key), window, now)]
      ensures d == Decide(entries[key], limit, now)
    {
      var entry := if key in entries then entries[key] else Entry(0, 0);
      if entry.resetAt == 0 || entry.resetAt <= now {
        entry := Entry(0, now + window);
      }
      entry := entry.(count := entry.count + 1);
      entries := entries[key := entry];
      var remaining := limit - entry.count;
      if remaining < 0 {
        remaining := 0;
      }
      var retryAfter := entry.resetAt - now;
      if retryAfter < 0 {
        retryAfter := 0;
      }
      d := Decision(entry.count <= limit, limit, remaining, entry.resetAt, retryAfter);
    }
  }

  // ---- Histories ----

  /** The table after a history of calls. */
  function After(calls: seq<Call>): Table {
    if calls == [] then map[]
    else
      var before, c := After(calls[..|calls| - 1]), calls[|calls| - 1];
      before[c.key := Counted(Lookup(before, c.key), c.window, c.at)]
  }

  /** Whether call i of the history was let through. */
  predicate Allowed(calls: seq<Call>, i: nat)
    requires i < |calls|
  {
    Decide(Lookup(After(calls[..i + 1]), calls[i].key), calls[i].limit, calls[i].at).allowed
  }

  /** How many calls for the key were let through at a time in [lo, hi). */
  function AllowedIn(calls: seq<Call>, key: string, lo: int, hi: int): nat {
    if calls == [] then 0
    else
      var n := |calls| - 1;
      AllowedIn(calls[..n], key, lo, hi) +
      if calls[n].key == key && lo <= calls[n].at < hi && Allowed(calls, n) then 1 else 0
  }

  /** One key is always asked for with the same limit and window, at times that do not go back.
      Calls for other keys are unrestricted. */
  ghost predicate Steady(calls: seq<Call>, key: string, limit: int, window: int) {
    && window > 0
    && (forall i :: 0 <= i < |calls| && calls[i].key == key ==>
          calls[i].limit == limit && calls[i].window == window && calls[i].at > 0)
    && (forall i, j :: 0 <= i < j < |calls| && calls[i].key == key && calls[j].key == key ==>
        calls[i].at <= calls[j].at)
  }

  function Cap(limit: int): nat { if limit < 0 then 0 else limit }

  function Min(a: int, b: int): int { if a < b then a else b }

  /** The end of time for a history: no call of the key happens at or after it. */
  ghost predicate Before(calls: seq<Call>, key: string, hi: int) {
    forall i :: 0 <= i < |calls| && calls[i].key == key ==> calls[i].at < hi
  }

  /** What the key's entry says about its past: the current window, opened at `start`, has let
      through the first calls up to the limit, among them the one that opened it, and the stretch
      just before it at most the limit less the call that opened that window. */
  ghost predicate Known(calls: seq<Call>, key: string, limit: int, window: int) {
    var e := Lookup(After(calls), key);
    if e.resetAt == 0 then e.count == 0 && forall i :: 0 <= i < |calls| ==> calls[i].key != key
    else WindowKnown(calls, key, limit, window, e.count, e.resetAt - window)
  }

  ghost predicate WindowKnown(calls: seq<Call>, key: string, limit: int, window: int, count: int, start: int) {
    && count >= 1 && start > 0
    && Before(calls, key, start + window)
    && (exists i :: 0 <= i < |calls| && calls[i].key == key && calls[i].at >= start)
    && AllowedIn(calls, key, start, start + window) == Min(count, Cap(limit))
    && (limit >= 1 ==> AllowedIn(calls, key, start, start + 1) >= 1)
    && (forall lo :: lo > start - window ==> AllowedIn(calls, key, lo, start) <= Cap(limit - 1))
  }

  lemma {:induction false} NoCalls(calls: seq<Call>, key: string, lo: int, hi: int)
    requires forall i :: 0 <= i < |calls| && calls[i].key == key ==> !(lo <= calls[i].at < hi)
    ensures AllowedIn(calls, key, lo, hi) == 0
  {
    if calls != [] {
      var t := calls[..|calls| - 1];
      assert forall i :: 0 <= i < |t| ==> t[i] == calls[i];
      NoCalls(t, key, lo, hi);
    }
  }

  lemma {:induction false} Parts(calls: seq<Call>, key: string, lo: int, mid: int, hi: int)
    requires lo <= mid <= hi
    ensures AllowedIn(calls, key, lo, hi) == AllowedIn(calls, key, lo, mid) + AllowedIn(calls, key, mid, hi)
  {
    if calls != [] {
      Parts(calls[..|calls| - 1], key, lo, mid, hi);
    }
  }

  lemma AllowedLast(calls: seq<Call>)
    requires calls != []
    ensures var n := |calls| - 1; Allowed(calls, n) <==> Lookup(After(calls), calls[n].key).count <= calls[n].limit
  {
    assert calls[..|calls|] == calls;
  }

  lemma SteadyPrefix(calls: seq<Call>, key: string, limit: int, window: int)
    requires calls != [] && Steady(calls, key, limit, window)
    ensures Steady(calls[..|calls| - 1], key, limit, window)
  {
  }

  /** A call for another key. */
  lemma OtherKey(calls: seq<Call>, key: string, limit: int, window: int)
    requires calls != [] && calls[|calls| - 1].key != key && Known(calls[..|calls| - 1], key, limit, window)
    ensures Known(calls, key, limit, window)
  {
    var t := calls[..|calls| - 1];
    assert forall i :: 0 <= i < |t| ==> t[i] == calls[i];
    assert Lookup(After(calls), key) == Lookup(After(t), key);
    assert forall lo, hi :: AllowedIn(calls, key, lo, hi) == AllowedIn(t, key, lo, hi);
    var e := Lookup(After(t), key);
    if e.resetAt != 0 {
      var i :| 0 <= i < |t| && t[i].key == key && t[i].at >= e.resetAt - window;
      assert calls[i].key == key;
    }
  }

  /** A call within the current window. */
  lemma SameWindow(calls: seq<Call>, key: string, limit: int, window: int)
    requires calls != [] && calls[|calls| - 1].key == key && Steady(calls, key, limit, window)
    requires Known(calls[..|calls| - 1], key, limit, window)
    requires var e := Lookup(After(calls[..|calls| - 1]), key); e.resetAt != 0 && e.resetAt > calls[|calls| - 1].at
    ensures Known(calls, key, limit, window)
  {
    var n := |calls| - 1;
    var t, c := calls[..n], calls[n];
    var e := Lookup(After(t), key);
    var start := e.resetAt - window;
    assert forall i :: 0 <= i < |t| ==> t[i] == calls[i];
    var i :| 0 <= i < |t| && t[i].key == key && t[i].at >= start;
    assert calls[i].at <= c.at;
    AllowedLast(calls);
    assert AllowedIn(calls, key, start, start + window) == Min(e.count + 1, Cap(limit));
    forall lo | lo > start - window
      ensures AllowedIn(calls, key, lo, start) <= Cap(limit - 1)
    {
      assert AllowedIn(calls, key, lo, start) == AllowedIn(t, key, lo, start);
    }
    assert WindowKnown(calls, key, limit, window, e.count + 1, start);
  }

  /** A call that opens a window: everything before it lies in earlier windows. */
  lemma NewWindow(calls: seq<Call>, key: string, limit: int, window: int)
    requires calls != [] && calls[|calls| - 1].key == key && Steady(calls, key, limit, window)
    requires Known(calls[..|calls| - 1], key, limit, window)
    requires var e := Lookup(After(calls[..|calls| - 1]), key); e.resetAt == 0 || e.resetAt <= calls[|calls| - 1].at
    ensures Known(calls, key, limit, window)
  {
    var n := |calls| - 1;
    var t, c := calls[..n], calls[n];
    var e := Lookup(After(t), key);
    assert forall i :: 0 <= i < |t| ==> t[i] == calls[i];
    AllowedLast(calls);
    NoCalls(t, key, c.at, c.at + window);
    forall lo | lo > c.at - window
      ensures AllowedIn(calls, key, lo, c.at) <= Cap(limit - 1)
    {
      assert AllowedIn(calls, key, lo, c.at) == AllowedIn(t, key, lo, c.at);
      if e.resetAt == 0 {
        NoCalls(t, key, lo, c.at);
      } else if lo <= e.resetAt {
        Parts(t, key, e.resetAt - window, e.resetAt - window + 1, lo);
        Parts(t, key, e.resetAt - window, lo, e.resetAt);
        Parts(t, key, lo, e.resetAt, c.at);
        NoCalls(t, key, e.resetAt, c.at);
      } else {
        NoCalls(t, key, lo, c.at);
      }
    }
    assert WindowKnown(calls, key, limit, window, 1, c.at);
  }

  /** In every history the entry of a steady key tells the truth about its window. */
  lemma {:induction false} AlwaysKnown(calls: seq<Call>, key: string, limit: int, window: int)
    requires Steady(calls, key, limit, window)
    ensures Known(calls, key, limit, window)
  {
    if calls != [] {
      SteadyPrefix(calls, key, limit, window);
      AlwaysKnown(calls[..|calls| - 1], key, limit, window);
      var e, c := Lookup(After(calls[..|calls| - 1]), key), calls[|calls| - 1];
      if c.key != key {
        OtherKey(calls, key, limit, window);
      } else if e.resetAt != 0 && e.resetAt > c.at {
        SameWindow(calls, key, limit, window);
      } else {
        NewWindow(calls, key, limit, window);
      }
    }
  }

  /** Over every history, whatever the traffic on other keys, less than twice the limit is let
      through in any stretch of time as long as a window (and nothing with a limit of zero). */
  lemma {:induction false} BelowTwiceTheLimit(calls: seq<Call>, key: string, limit: int, window: int, lo: int)
    requires Steady(calls, key, limit, window)
    ensures AllowedIn(calls, key, lo, lo + window) <= Cap(2 * limit - 1)
  {
    if calls != [] {
      var t, c := calls[..|calls| - 1], calls[|calls| - 1];
      SteadyPrefix(calls, key, limit, window);
      BelowTwiceTheLimit(t, key, limit, window, lo);
      if c.key == key && lo <= c.at < lo + window {
        AlwaysKnown(calls, key, limit, window);
        LastWindows(calls, key, limit, window, lo);
      }
    }
  }

  /** The bound for a stretch that contains the last call: it meets only the current window and
      the stretch just before it. */
  lemma LastWindows(calls: seq<Call>, key: string, limit: int, window: int, lo: int)
    requires calls != [] && calls[|calls| - 1].key == key && lo <= calls[|calls| - 1].at < lo + window
    requires Steady(calls, key, limit, window) && Known(calls, key, limit, window)
    ensures AllowedIn(calls, key, lo, lo + window) <= Cap(2 * limit - 1)
  {
    var c := calls[|calls| - 1];
    var e := Lookup(After(calls), key);
    var start := e.resetAt - window;
    var i :| 0 <= i < |calls| && calls[i].key == key && calls[i].at >= start;
    assert calls[i].at <= c.at;
    if lo + window <= e.resetAt {
      if lo <= start {
        Parts(calls, key, lo, start, lo + window);
        Parts(calls, key, start, lo + window, e.resetAt);
      } else {
        Parts(calls, key, start, lo, e.resetAt);
        Parts(calls, key, lo, lo + window, e.resetAt);
      }
    } else {
      Parts(calls, key, lo, e.resetAt, lo + window);
      NoCalls(calls, key, e.resetAt, lo + window);
      Parts(calls, key, start, lo, e.resetAt);
    }
  }

  // ---- The bound is reached ----

  /** One more call: its entry, and whether it adds to a stretch of time. */
  lemma AddCall(calls: seq<Call>, c: Call, lo: int, hi: int)
    ensures var e := Counted(Lookup(After(calls), c.key), c.window, c.at);
            && Lookup(After(calls + [c]), c.key) == e
            && AllowedIn(calls + [c], c.key, lo, hi) ==
               AllowedIn(calls, c.key, lo, hi) + if lo <= c.at < hi && e.count <= c.limit then 1 else 0
  {
    assert (calls + [c])[..|calls|] == calls;
    assert (calls + [c])[..|calls| + 1] == calls + [c];
  }

  function Repeat(c: Call, k: nat): (calls: seq<Call>)
    ensures |calls| == k && forall i :: 0 <= i < k ==> calls[i] == c
  {
    if k == 0 then [] else Repeat(c, k - 1) + [c]
  }

  /** As many calls at once as the open window has room for are all let through. */
  lemma {:induction false} Burst(calls: seq<Call>, c: Call, k: nat, lo: int, hi: int) returns (more: seq<Call>)
    requires var e := Lookup(After(calls), c.key); e.resetAt != 0 && e.resetAt > c.at && e.count + k <= c.limit
    ensures more == calls + Repeat(c, k)
    ensures var e := Lookup(After(calls), c.key);
            && Lookup(After(more), c.key) == Entry(e.count + k, e.resetAt)
            && AllowedIn(more, c.key, lo, hi) == AllowedIn(calls, c.key, lo, hi) + if lo <= c.at < hi then k else 0
  {
    more := calls;
    if k > 0 {
      var fewer := Burst(calls, c, k - 1, lo, hi);
      AddCall(fewer, c, lo, hi);
      more := fewer + [c];
    }
  }

  /** A call that opens a window, and then as many as the window still has room for. */
  lemma FullWindow(calls: seq<Call>, c: Call, d: Call, k: nat, lo: int, hi: int) returns (more: seq<Call>)
    requires d == c.(at := d.at) && c.at > 0 && c.at <= d.at < c.at + c.window && 1 + k <= c.limit
    requires Lookup(After(calls), c.key).resetAt <= c.at
    ensures more == calls + [c] + Repeat(d, k)
    ensures Lookup(After(more), c.key).resetAt == c.at + c.window
    ensures AllowedIn(more, c.key, lo, hi) ==
            AllowedIn(calls, c.key, lo, hi) + (if lo <= c.at < hi then 1 else 0) + (if lo <= d.at < hi then k else 0)
  {
    AddCall(calls, c, lo, hi);
    more := Burst(calls + [c], d, k, lo, hi);
  }

  /** One call opens a window, the rest of its limit comes at the last moment, and a full limit right after. */
  ghost predicate Rush(calls: seq<Call>, c: Call) {
    && c.limit >= 1 && c.window >= 2
    && calls == [c.(at := 1)] + Repeat(c.(at := c.window), c.limit - 1) +
                [c.(at := c.window + 1)] + Repeat(c.(at := c.window + 1), c.limit - 1)
  }

  lemma RushIsSteady(calls: seq<Call>, c: Call)
    requires Rush(calls, c)
    ensures Steady(calls, c.key, c.limit, c.window)
  {
  }

  lemma FirstHalf(c: Call) returns (half: seq<Call>)
    requires c.limit >= 1 && c.window >= 2
    ensures half == [c.(at := 1)] + Repeat(c.(at := c.window), c.limit - 1)
    ensures Lookup(After(half), c.key).resetAt == 1 + c.window
    ensures AllowedIn(half, c.key, c.window, c.window + c.window) == c.limit - 1
  {
    var none: seq<Call> := [];
    half := FullWindow(none, c.(at := 1), c.(at := c.window), c.limit - 1, c.window, c.window + c.window);
    assert none + [c.(at := 1)] == [c.(at := 1)];
  }

  lemma RushCounts(c: Call) returns (calls: seq<Call>)
    requires c.limit >= 1 && c.window >= 2
    ensures Rush(calls, c)
    ensures AllowedIn(calls, c.key, c.window, c.window + c.window) == 2 * c.limit - 1
  {
    var next := c.(at := c.window + 1);
    var half := FirstHalf(c);
    calls := FullWindow(half, next, next, c.limit - 1, c.window, c.window + c.window);
  }

  // ---- The exact maximum ----

  /** The most that is ever let through in a stretch as long as a window. */
  function Most(limit: int, window: int): nat {
    if limit <= 0 then 0 else if window == 1 then limit else 2 * limit - 1
  }

  /** With a window of one tick a stretch meets only one window. */
  lemma {:induction false} OneTick(calls: seq<Call>, key: string, limit: int, lo: int)
    requires Steady(calls, key, limit, 1)
    ensures AllowedIn(calls, key, lo, lo + 1) <= Cap(limit)
  {
    if calls != [] {
      var t, c := calls[..|calls| - 1], calls[|calls| - 1];
      SteadyPrefix(calls, key, limit, 1);
      OneTick(t, key, limit, lo);
      if c.key == key && lo <= c.at < lo + 1 {
        AlwaysKnown(calls, key, limit, 1);
        LastTick(calls, key, limit, lo);
      }
    }
  }

  lemma LastTick(calls: seq<Call>, key: string, limit: int, lo: int)
    requires Known(calls, key, limit, 1) && Steady(calls, key, limit, 1)
    requires calls != [] && calls[|calls| - 1].key == key && calls[|calls| - 1].at == lo
    ensures AllowedIn(calls, key, lo, lo + 1) <= Cap(limit)
  {
    var start := Lookup(After(calls), key).resetAt - 1;
    assert start <= lo < start + 1;
  }

  /** Never more than that, in any history. */
  lemma NeverMore(calls: seq<Call>, key: string, limit: int, window: int, lo: int)
    requires Steady(calls, key, limit, window)
    ensures AllowedIn(calls, key, lo, lo + window) <= Most(limit, window)
  {
    if window == 1 {
      OneTick(calls, key, limit, lo);
    } else {
      BelowTwiceTheLimit(calls, key, limit, window, lo);
    }
  }

  /** And for every limit and window that many, in some history. */
  lemma BoundIsReached(key: string, limit: int, window: nat) returns (calls: seq<Call>, lo: int)
    requires window >= 1
    ensures Steady(calls, key, limit, window) && AllowedIn(calls, key, lo, lo + window) == Most(limit, window)
  {
    lo, calls := window, [];
    if limit >= 1 && window == 1 {
      calls := TickCounts(Call(key, limit, window, 1));
    } else if limit >= 1 {
      calls := RushCounts(Call(key, limit, window, 0));
      RushIsSteady(calls, Call(key, limit, window, 0));
    }
  }

  lemma TickCounts(c: Call) returns (calls: seq<Call>)
    requires c.limit >= 1 && c.window == 1 && c.at == 1
    ensures Steady(calls, c.key, c.limit, 1) && AllowedIn(calls, c.key, 1, 2) == c.limit
  {
    var none: seq<Call> := [];
    calls := FullWindow(none, c, c, c.limit - 1, 1, 2);
  }

  // ---- What a decision says ----

  /** The call is let through exactly if its window has not seen more than the limit; what remains is never negative,
      and waiting is until the window ends. */
  lemma DecisionMeans(e: Entry, limit: int, now: int)
    ensures var d := Decide(e, limit, now);
            && (d.allowed <==> e.count <= limit) && d.limit == limit && d.resetAt == e.resetAt
            && (d.allowed ==> d.remaining == limit - e.count) && (!d.allowed ==> d.remaining == 0)
            && (e.resetAt >= now ==> now + d.retryAfter == e.resetAt) && d.retryAfter >= 0
  {
  }

  /** A new window starts with the first call, or with the first one after the last window has ended, and counts every
      call in it. */
  lemma EntryMeans(e: Entry, window: int, now: int)
    ensures var f := Counted(e, window, now);
            if e.resetAt == 0 || e.resetAt <= now then f.count == 1 && f.resetAt == now + window
            else f.count == e.count + 1 && f.resetAt == e.resetAt
  {
  }

  /** Whoever waits as long as told is let through, if the limit lets anybody through: whatever the key's entry, a call
      at the end of the wait opens a window of its own. */
  lemma WaitingHelps(e: Entry, limit: int, window: int, now: int)
    requires window > 0 && limit >= 1
    ensures var f := Counted(e, window, now);
            var wait := Decide(f, limit, now).retryAfter;
            && wait > 0 && f.resetAt == now + wait
            && Decide(Counted(f, window, now + wait), limit, now + wait).allowed
  {
    DecisionMeans(Counted(e, window, now), limit, now);
  }
}
