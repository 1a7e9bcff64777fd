/** The in-process limiter: a sliding log per key, with two-stage eviction of keys. */
module RateLimit {

  /** `self._hits`: per key the times of its admissions, oldest first. */
  type Hits = map<string, seq<real>>

  datatype Settings = Settings(limit: int, window: real, maxKeys: int)

  // ---- One check ---------------------------------------------------------------

  predicate Live(v: seq<real>, now: real, window: real)
  {
    v != [] && now - v[|v| - 1] < window
  }

  /** First stage: drop keys whose windows have fully expired. */
  function Sweep(h: Hits, now: real, window: real): Hits
  {
    map k | k in h && Live(h[k], now, window) :: h[k]
  }

  /** Second stage: everything is forgotten when too many keys are left. */
  predicate Clears(c: Settings, h: Hits, now: real)
  {
    |h| > c.maxKeys && |Sweep(h, now, c.window)| > c.maxKeys
  }

  function Evict(c: Settings, h: Hits, now: real): Hits
  {
    if |h| <= c.maxKeys then h
    else if Clears(c, h, now) then map[]
    else Sweep(h, now, c.window)
  }

  function Queue(h: Hits, key: string): seq<real>
  {
    if key in h then h[key] else []
  }

  function Prune(v: seq<real>, now: real, window: real): seq<real>
  {
    if v != [] && now - v[0] >= window then Prune(v[1..], now, window) else v
  }

  /** The hits of `key` that still count at `now`. */
  function Current(c: Settings, h: Hits, key: string, now: real): seq<real>
  {
    Prune(Queue(Evict(c, h, now), key), now, c.window)
  }

  predicate Admits(c: Settings, h: Hits, key: string, now: real)
  {
    |Current(c, h, key, now)| < c.limit
  }

  function After(c: Settings, h: Hits, key: string, now: real): Hits
  {
    var q := Current(c, h, key, now);
    Evict(c, h, now)[key := if |q| < c.limit then q + [now] else q]
  }

  class FixedWindowLimiter {
    const limit: int
    const window: real
    const maxKeys: int
    var hits: Hits

    constructor (limit: int, window: real, maxKeys: int)
      ensures hits == map[]
      ensures this.limit >= 1 && (limit >= 1 ==> this.limit == limit)
      ensures this.window == window && this.maxKeys == maxKeys
    {
      this.limit := if limit < 1 then 1 else limit;
      this.window := window;
      this.maxKeys := maxKeys;
      hits := map[];
    }

    function Config(): Settings
    {
      Settings(limit, window, maxKeys)
    }

    /** Record an attempt at time `now`. */
    method Check(key: string, now: real) returns (ok: bool)
      modifies this`hits
      ensures ok == Admits(Config(), old(hits), key, now)
      ensures hits == After(Config(), old(hits), key, now)
    {
      if |hits| > maxKeys {
        hits := map k | k in hits && Live(hits[k], now, window) :: hits[k];
        if |hits| > maxKeys {
          hits := map[];
        }
      }
      assert hits == Evict(Config(), old(hits), now);
      var q := if key in hits then hits[key] else [];
      ghost var stored := q;
      while q != [] && now - q[0] >= window
        invariant Prune(q, now, window) == Prune(stored, now, window)
        decreases |q|
      {
        q := q[1..];
      }
      if |q| >= limit {
        hits := hits[key := q];
        return false;
      }
      hits := hits[key := q + [now]];
      return true;
    }
  }

  /** What one check does to the stored queues, stage by stage. While no more than `maxKeys` keys are stored
      no other key is touched; beyond that a key stays exactly when its last hit is within the window, unless
      more than `maxKeys` do, and then none stays. The asked key loses its expired hits and, when fewer than
      `limit` are left, gains the present one. */
  lemma CheckStages(c: Settings, h: Hits, key: string, now: real)
    ensures var d := After(c, h, key, now);
            var live := set k | k in h && h[k] != [] && now - h[k][|h[k]| - 1] < c.window;
            && key in d
            && (forall k :: k in d && k != key ==> k in h && d[k] == h[k])
            && (|h| <= c.maxKeys ==> forall k :: k in h && k != key ==> k in d)
            && (|h| > c.maxKeys && |live| <= c.maxKeys ==> forall k :: k in h && k != key ==> (k in d <==> k in live))
            && (|h| > c.maxKeys && |live| > c.maxKeys ==> d.Keys == {key})
            && (Admits(c, h, key, now) <==>
                  d[key] != [] && |d[key]| <= c.limit && d[key] == Current(c, h, key, now) + [now])
            && (!Admits(c, h, key, now) ==> d[key] == Current(c, h, key, now))
  {
    var live := set k | k in h && h[k] != [] && now - h[k][|h[k]| - 1] < c.window;
    assert Sweep(h, now, c.window).Keys == live;
    assert |Sweep(h, now, c.window)| == |Sweep(h, now, c.window).Keys|;
  }

  // ---- Runs ------------------------------------------------------------------------

  datatype Attempt = Attempt(key: string, now: real)

  ghost predicate Monotone(run: seq<Attempt>)
  {
    forall i, j :: 0 <= i <= j < |run| ==> run[i].now <= run[j].now
  }

  function HitsAfter(c: Settings, run: seq<Attempt>): Hits
  {
    if run == [] then map[]
    else
      var last := run[|run| - 1];
      After(c, HitsAfter(c, run[..|run| - 1]), last.key, last.now)
  }

  /** Whether the last attempt of a run is admitted, and whether it clears everything first. */
  predicate AdmitsLast(c: Settings, run: seq<Attempt>)
    requires run != []
  {
    Admits(c, HitsAfter(c, run[..|run| - 1]), run[|run| - 1].key, run[|run| - 1].now)
  }

  predicate ClearsLast(c: Settings, run: seq<Attempt>)
    requires run != []
  {
    Clears(c, HitsAfter(c, run[..|run| - 1]), run[|run| - 1].now)
  }

  /** The admissions of `key` since the last wholesale clear. */
  function Since(c: Settings, run: seq<Attempt>, key: string): seq<real>
  {
    if run == [] then []
    else
      var prior := if ClearsLast(c, run) then [] else Since(c, run[..|run| - 1], key);
      var last := run[|run| - 1];
      if last.key == key && AdmitsLast(c, run) then prior + [last.now] else prior
  }

  ghost predicate Ascending(a: seq<real>, now: real)
  {
    && (forall i, j :: 0 <= i <= j < |a| ==> a[i] <= a[j])
    && (forall i :: 0 <= i < |a| ==> a[i] <= now)
  }

  /** Any `limit + 1` consecutive admissions span at least one window. */
  ghost predicate Spaced(c: Settings, a: seq<real>)
  {
    forall i, j :: 0 <= i < j < |a| && j == i + c.limit ==> a[j] - a[i] >= c.window
  }

  /** `q` is what is left of the history `a` after dropping expired entries only. */
  ghost predicate Remembers(q: seq<real>, a: seq<real>, now: real, window: real)
  {
    && |q| <= |a| && q == a[|a| - |q|..]
    && (forall i :: 0 <= i < |a| - |q| ==> now - a[i] >= window)
  }

  lemma {:induction false} PruneRemembers(q: seq<real>, a: seq<real>, t: real, now: real, window: real)
    requires Remembers(q, a, t, window) && t <= now
    ensures Remembers(Prune(q, now, window), a, now, window)
    ensures var p := Prune(q, now, window); |p| <= |q| && (p != [] ==> now - p[0] < window)
    decreases |q|
  {
    if q != [] && now - q[0] >= window {
      PruneRemembers(q[1..], a, now, now, window);
    }
  }

  /** The two-stage eviction forgets a key only when all its hits have expired, unless it clears. */
  lemma EvictRemembers(c: Settings, h: Hits, key: string, a: seq<real>, t: real, now: real)
    requires Remembers(Queue(h, key), a, t, c.window) && Ascending(a, t) && t <= now
    requires !Clears(c, h, now)
    ensures Remembers(Queue(Evict(c, h, now), key), a, now, c.window)
  {
    if key in h && key !in Evict(c, h, now) && h[key] != [] {
      assert now - a[|a| - 1] >= c.window;
    }
  }

  /** What every stored queue is, on its own. */
  ghost predicate Tidy(c: Settings, h: Hits)
  {
    forall k :: k in h ==> 0 < |h[k]| <= c.limit
  }

  lemma AfterIsTidy(c: Settings, h: Hits, key: string, now: real)
    requires c.limit >= 1 && Tidy(c, h)
    ensures Tidy(c, After(c, h, key, now))
  {
    PruneShrinks(Queue(Evict(c, h, now), key), now, c.window);
  }

  lemma {:induction false} PruneShrinks(q: seq<real>, now: real, window: real)
    ensures |Prune(q, now, window)| <= |q|
  {
    if q != [] && now - q[0] >= window {
      PruneShrinks(q[1..], now, window);
    }
  }

  function LastTime(run: seq<Attempt>): real
    requires run != []
  {
    run[|run| - 1].now
  }

  /** Fewer than `limit` remembered hits mean that the hit `limit` places back has expired. */
  lemma AdmissionKeepsSpacing(c: Settings, q: seq<real>, prior: seq<real>, now: real)
    requires c.limit >= 1 && Ascending(prior, now) && Spaced(c, prior)
    requires Remembers(q, prior, now, c.window) && |q| < c.limit
    ensures Remembers(q + [now], prior + [now], now, c.window)
    ensures Ascending(prior + [now], now) && Spaced(c, prior + [now])
  {
    var a := prior + [now];
    assert a[|prior| - |q|..] == q + [now];
    forall i, j | 0 <= i < j < |a| && j == i + c.limit ensures a[j] - a[i] >= c.window {
      if j == |prior| {
        assert i < |prior| - |q|;
      }
    }
  }

  /** An attempt on `key` itself. */
  lemma OwnAttempt(c: Settings, h: Hits, key: string, prior: seq<real>, now: real)
    requires c.limit >= 1 && Ascending(prior, now) && Spaced(c, prior)
    requires Remembers(Queue(Evict(c, h, now), key), prior, now, c.window)
    ensures var a := if Admits(c, h, key, now) then prior + [now] else prior;
            && Remembers(Queue(After(c, h, key, now), key), a, now, c.window)
            && Ascending(a, now) && Spaced(c, a)
  {
    PruneRemembers(Queue(Evict(c, h, now), key), prior, now, now, c.window);
    if Admits(c, h, key, now) {
      AdmissionKeepsSpacing(c, Current(c, h, key, now), prior, now);
    }
  }

  /** One attempt, on any key, keeps the queue of `key` in step with its history. */
  lemma AttemptTracks(c: Settings, h: Hits, key: string, history: seq<real>, t: real, last: Attempt)
    requires c.limit >= 1 && t <= last.now
    requires Remembers(Queue(h, key), history, t, c.window) && Ascending(history, t) && Spaced(c, history)
    ensures var prior := if Clears(c, h, last.now) then [] else history;
            var a := if last.key == key && Admits(c, h, key, last.now) then prior + [last.now] else prior;
            && Remembers(Queue(After(c, h, last.key, last.now), key), a, last.now, c.window)
            && Ascending(a, last.now) && Spaced(c, a)
  {
    var prior := if Clears(c, h, last.now) then [] else history;
    if !Clears(c, h, last.now) {
      EvictRemembers(c, h, key, history, t, last.now);
    }
    assert Remembers(Queue(Evict(c, h, last.now), key), prior, last.now, c.window);
    if last.key == key {
      OwnAttempt(c, h, key, prior, last.now);
    } else {
      assert Queue(After(c, h, last.key, last.now), key) == Queue(Evict(c, h, last.now), key);
    }
  }

  /** The invariant over every run: the queue of a key remembers its history since the last clear, and
      that history is ascending and spaced. */
  lemma {:induction false} Tracks(c: Settings, run: seq<Attempt>, key: string)
    requires c.limit >= 1 && Monotone(run) && run != []
    ensures var a := Since(c, run, key);
            && Remembers(Queue(HitsAfter(c, run), key), a, LastTime(run), c.window)
            && Ascending(a, LastTime(run)) && Spaced(c, a)
  {
    var before, last := run[..|run| - 1], run[|run| - 1];
    if before != [] {
      Tracks(c, before, key);
    }
    var t := if before == [] then last.now else LastTime(before);
    AttemptTracks(c, HitsAfter(c, before), key, Since(c, before, key), t, last);
  }

  lemma AfterIsSmall(c: Settings, h: Hits, key: string, now: real)
    ensures |After(c, h, key, now)| <= (if c.maxKeys < 0 then 0 else c.maxKeys) + 1
  {
    var e, d := Evict(c, h, now), After(c, h, key, now);
    assert d.Keys == e.Keys + {key};
    assert |d| == |d.Keys| && |e| == |e.Keys|;
  }

  /** In every reachable state each stored queue is non-empty, ascending and at most `limit` long, and at
      most `maxKeys + 1` keys are stored (one, when `maxKeys` is negative). */
  lemma {:induction false} StateBounds(c: Settings, run: seq<Attempt>)
    requires c.limit >= 1 && Monotone(run)
    ensures var h := HitsAfter(c, run);
            && Tidy(c, h)
            && (forall k :: k in h ==> run != [] && Ascending(h[k], LastTime(run)))
            && |h| <= (if c.maxKeys < 0 then 0 else c.maxKeys) + 1
  {
    if run != [] {
      var before, last := run[..|run| - 1], run[|run| - 1];
      StateBounds(c, before);
      AfterIsTidy(c, HitsAfter(c, before), last.key, last.now);
      AfterIsSmall(c, HitsAfter(c, before), last.key, last.now);
      forall k | k in HitsAfter(c, run) ensures Ascending(HitsAfter(c, run)[k], LastTime(run)) {
        Tracks(c, run, k);
      }
    }
  }

  // ---- Never more than the limit in a window ---------------------------------------

  ghost function InWindow(a: seq<real>, from: real, window: real): set<int>
  {
    set i | 0 <= i < |a| && from <= a[i] < from + window
  }

  lemma {:induction false} IntervalSize(s: set<int>, lo: int, n: nat)
    requires forall i :: i in s ==> lo <= i < lo + n
    ensures |s| <= n
    ensures (forall i :: lo <= i < lo + n ==> i in s) ==> |s| == n
  {
    if n > 0 {
      IntervalSize(s - {lo + n - 1}, lo, n - 1);
    } else {
      assert forall i :: i !in s;
      assert s == {};
    }
  }

  lemma SpacedApart(c: Settings, a: seq<real>, now: real, i: int, j: int)
    requires c.limit >= 1 && Ascending(a, now) && Spaced(c, a) && 0 <= i <= j < |a|
    ensures j >= i + c.limit ==> a[j] - a[i] >= c.window
  {
    if j >= i + c.limit {
      assert a[i + c.limit] - a[i] >= c.window;
      assert a[j] >= a[i + c.limit];
    }
  }

  lemma SpacedIsSparse(c: Settings, a: seq<real>, now: real, from: real)
    requires c.limit >= 1 && Ascending(a, now) && Spaced(c, a)
    ensures |InWindow(a, from, c.window)| <= c.limit
  {
    var s := InWindow(a, from, c.window);
    if i :| i in s {
      var lo := Least(s, i);
      forall i | i in s ensures lo <= i < lo + c.limit {
        SpacedApart(c, a, now, lo, i);
      }
      IntervalSize(s, lo, c.limit);
    } else {
      assert s == {};
    }
  }

  lemma Least(s: set<int>, x: int) returns (m: int)
    requires x in s
    ensures m in s && forall i :: i in s ==> m <= i
    decreases s
  {
    if y :| y in s && y < x {
      m := Least(s - {x}, y);
      assert forall i :: i in s ==> i == x || i in s - {x};
    } else {
      m := x;
    }
  }

  /** Between any two wholesale clears no key is admitted more than `limit` times in an interval one
      window long, wherever the interval starts. */
  lemma AtMostLimitPerWindow(c: Settings, run: seq<Attempt>, key: string, from: real)
    requires c.limit >= 1 && Monotone(run)
    ensures |InWindow(Since(c, run, key), from, c.window)| <= c.limit
  {
    if run != [] {
      Tracks(c, run, key);
      SpacedIsSparse(c, Since(c, run, key), LastTime(run), from);
    } else {
      assert InWindow(Since(c, run, key), from, c.window) == {};
    }
  }

  // ---- Agreement with an unbounded history ----------------------------------------

  /** The admissions of a history that lie in the last window. */
  ghost function Recent(a: seq<real>, now: real, window: real): set<int>
  {
    set i | 0 <= i < |a| && now - a[i] < window
  }

  /** The naive limiter remembers everything and admits when fewer than `limit` admissions of the key
      lie in the last window. */
  ghost function Naive(c: Settings, run: seq<Attempt>, key: string): seq<real>
  {
    if run == [] then []
    else
      var prior, last := Naive(c, run[..|run| - 1], key), run[|run| - 1];
      if last.key == key && |Recent(prior, last.now, c.window)| < c.limit then prior + [last.now] else prior
  }

  function KeysOf(run: seq<Attempt>): set<string>
  {
    set a | a in run :: a.key
  }

  /** The keys with a naive admission within the window that ends at `now`. */
  ghost function ActiveKeys(c: Settings, run: seq<Attempt>, now: real): set<string>
  {
    set k | k in KeysOf(run) && Recent(Naive(c, run, k), now, c.window) != {}
  }

  /** At most `maxKeys` distinct keys are active in every trailing window that ends at an attempt. */
  ghost predicate FewKeys(c: Settings, run: seq<Attempt>)
  {
    run != [] ==>
      && FewKeys(c, run[..|run| - 1])
      && |ActiveKeys(c, run[..|run| - 1], LastTime(run))| <= c.maxKeys
  }

  lemma CurrentIsRecent(q: seq<real>, a: seq<real>, now: real, window: real)
    requires Remembers(q, a, now, window) && Ascending(a, now) && (q != [] ==> now - q[0] < window)
    ensures |Recent(a, now, window)| == |q|
  {
    var s := Recent(a, now, window);
    var lo := |a| - |q|;
    forall i | 0 <= i < |a| ensures i in s <==> lo <= i {
      if lo <= i {
        assert a[lo] == q[0];
      }
    }
    IntervalSize(s, lo, |q|);
  }

  /** The limiter stores no key it was never asked about. */
  lemma {:induction false} StoredKeysWereAsked(c: Settings, run: seq<Attempt>)
    ensures HitsAfter(c, run).Keys <= KeysOf(run)
  {
    if run != [] {
      var before := run[..|run| - 1];
      StoredKeysWereAsked(c, before);
      assert run == before + [run[|run| - 1]];
    }
  }

  /** What is remembered is live exactly when some admission of the history is recent. */
  lemma LiveIffRecent(q: seq<real>, a: seq<real>, t: real, now: real, window: real)
    requires Remembers(q, a, t, window) && Ascending(a, t) && t <= now
    ensures Live(q, now, window) <==> Recent(a, now, window) != {}
  {
    if Live(q, now, window) {
      assert a[|a| - 1] == q[|q| - 1];
      assert |a| - 1 in Recent(a, now, window);
    }
  }

  /** A key survives the sweep exactly when it was admitted within the window. */
  lemma SweptIffActive(c: Settings, run: seq<Attempt>, now: real, k: string)
    requires c.limit >= 1 && Monotone(run) && Since(c, run, k) == Naive(c, run, k)
    requires run != [] ==> LastTime(run) <= now
    ensures k in Sweep(HitsAfter(c, run), now, c.window) <==> k in ActiveKeys(c, run, now)
  {
    if run != [] {
      Tracks(c, run, k);
      LiveIffRecent(Queue(HitsAfter(c, run), k), Naive(c, run, k), LastTime(run), now, c.window);
      StoredKeysWereAsked(c, run);
    }
  }

  /** While nothing has been forgotten, the next attempt clears everything if and only if more than
      `maxKeys` keys are active in the window that ends at it. */
  lemma ClearsIffCrowded(c: Settings, run: seq<Attempt>, now: real)
    requires c.limit >= 1 && Monotone(run) && (run != [] ==> LastTime(run) <= now)
    requires forall k :: Since(c, run, k) == Naive(c, run, k)
    ensures Clears(c, HitsAfter(c, run), now) <==> |ActiveKeys(c, run, now)| > c.maxKeys
  {
    var h := HitsAfter(c, run);
    var swept := Sweep(h, now, c.window);
    forall k ensures k in swept <==> k in ActiveKeys(c, run, now) {
      SweptIffActive(c, run, now, k);
    }
    assert swept.Keys == ActiveKeys(c, run, now);
    assert |swept| == |swept.Keys| && |h| == |h.Keys|;
    SubsetSize(swept.Keys, h.Keys);
  }

  lemma {:induction false} SubsetSize(a: set<string>, b: set<string>)
    requires a <= b
    ensures |a| <= |b|
    decreases b
  {
    if b != {} {
      var x :| x in b;
      SubsetSize(a - {x}, b - {x});
    }
  }

  /** One attempt: as long as nothing was cleared, the decision is the naive one. */
  lemma DecisionIsNaive(c: Settings, run: seq<Attempt>)
    requires c.limit >= 1 && Monotone(run) && run != [] && !ClearsLast(c, run)
    requires var before := run[..|run| - 1]; forall k :: Since(c, before, k) == Naive(c, before, k)
    ensures var last := run[|run| - 1];
            AdmitsLast(c, run) <==> |Recent(Naive(c, run[..|run| - 1], last.key), last.now, c.window)| < c.limit
  {
    var before, last := run[..|run| - 1], run[|run| - 1];
    var h, a := HitsAfter(c, before), Naive(c, before, last.key);
    if before != [] {
      Tracks(c, before, last.key);
      EvictRemembers(c, h, last.key, a, LastTime(before), last.now);
    }
    var q := Queue(Evict(c, h, last.now), last.key);
    PruneRemembers(q, a, last.now, last.now, c.window);
    CurrentIsRecent(Current(c, h, last.key, last.now), a, last.now, c.window);
  }

  /** No attempt of the run takes the clear branch. */
  predicate NeverClears(c: Settings, run: seq<Attempt>)
  {
    run != [] ==> NeverClears(c, run[..|run| - 1]) && !ClearsLast(c, run)
  }

  /** With a clock that does not run backwards: the limiter never clears over a run if and only if at most
      `maxKeys` keys are active in each trailing window, and then its memory is the unbounded one. */
  lemma {:induction false} NeverClearsIffFewKeys(c: Settings, run: seq<Attempt>)
    requires c.limit >= 1 && Monotone(run)
    ensures NeverClears(c, run) <==> FewKeys(c, run)
    ensures FewKeys(c, run) ==> forall k :: Since(c, run, k) == Naive(c, run, k)
  {
    if run != [] {
      var before := run[..|run| - 1];
      NeverClearsIffFewKeys(c, before);
      if FewKeys(c, before) {
        ClearsIffCrowded(c, before, run[|run| - 1].now);
        if FewKeys(c, run) {
          DecisionIsNaive(c, run);
        }
      }
    }
  }

  /** The naive limiter admits the last attempt of the run. */
  ghost predicate NaiveAdmitsLast(c: Settings, run: seq<Attempt>)
    requires run != []
  {
    |Recent(Naive(c, run[..|run| - 1], run[|run| - 1].key), run[|run| - 1].now, c.window)| < c.limit
  }

  /** With a clock that does not run backwards and at most `maxKeys` keys active in any trailing window,
      the limiter never clears, and every decision over the whole run is the naive one. */
  lemma AgreesWithHistory(c: Settings, run: seq<Attempt>)
    requires c.limit >= 1 && Monotone(run) && FewKeys(c, run) && run != []
    ensures !ClearsLast(c, run)
    ensures AdmitsLast(c, run) <==> NaiveAdmitsLast(c, run)
  {
    NeverClearsIffFewKeys(c, run[..|run| - 1]);
    ClearsIffCrowded(c, run[..|run| - 1], run[|run| - 1].now);
    DecisionIsNaive(c, run);
  }

  // ---- Every clear forgets -------------------------------------------------------------

  /** `n` more attempts on `key` at `now`. */
  function Retry(run: seq<Attempt>, key: string, now: real, n: nat): seq<Attempt>
    decreases n
  {
    if n == 0 then run else Retry(run + [Attempt(key, now)], key, now, n - 1)
  }

  /** How many admissions of `key` the limiter counts at `now`. */
  function Counted(c: Settings, run: seq<Attempt>, key: string, now: real): nat
  {
    |Current(c, HitsAfter(c, run), key, now)|
  }

  lemma CountGrowsByOne(c: Settings, run: seq<Attempt>, key: string, now: real)
    ensures Counted(c, run + [Attempt(key, now)], key, now) <= Counted(c, run, key, now) + 1
  {
    var more := run + [Attempt(key, now)];
    assert more[..|more| - 1] == run;
    var h := HitsAfter(c, more);
    assert |Queue(h, key)| <= Counted(c, run, key, now) + 1;
    PruneShrinks(Queue(Evict(c, h, now), key), now, c.window);
  }

  lemma RecentOfAppend(a: seq<real>, now: real, window: real)
    requires window > 0.0
    ensures |Recent(a + [now], now, window)| == |Recent(a, now, window)| + 1
  {
    var b := a + [now];
    forall i ensures i in Recent(b, now, window) <==> i in Recent(a, now, window) || i == |a| {
      if 0 <= i < |a| {
        assert b[i] == a[i];
      }
    }
    assert Recent(b, now, window) == Recent(a, now, window) + {|a|};
  }

  /** Once the limiter counts fewer admissions of a key than there are, repeating that key leads it to
      admit an attempt that the naive limiter refuses. */
  lemma {:induction false} ShortCountDiverges(c: Settings, run: seq<Attempt>, key: string, now: real) returns (n: nat)
    requires c.limit >= 1 && c.window > 0.0
    requires Counted(c, run, key, now) < |Recent(Naive(c, run, key), now, c.window)|
    requires Counted(c, run, key, now) < c.limit
    ensures n > 0 && |Retry(run, key, now, n)| == |run| + n
    ensures AdmitsLast(c, Retry(run, key, now, n)) && !NaiveAdmitsLast(c, Retry(run, key, now, n))
    decreases c.limit - |Recent(Naive(c, run, key), now, c.window)|
  {
    var more := run + [Attempt(key, now)];
    assert more[..|more| - 1] == run;
    if |Recent(Naive(c, run, key), now, c.window)| >= c.limit {
      n := 1;
      assert Retry(more, key, now, 0) == more;
    } else {
      CountGrowsByOne(c, run, key, now);
      RecentOfAppend(Naive(c, run, key), now, c.window);
      var m := ShortCountDiverges(c, more, key, now);
      n := m + 1;
    }
  }

  /** The first clear of a run leaves the limiter short of admissions of any key that was active. */
  lemma ClearLeavesShort(c: Settings, run: seq<Attempt>, key: string)
    requires c.limit >= 1 && c.window > 0.0 && run != [] && ClearsLast(c, run)
    requires Recent(Naive(c, run[..|run| - 1], key), LastTime(run), c.window) != {}
    requires AdmitsLast(c, run)
    requires NaiveAdmitsLast(c, run) || key != run[|run| - 1].key
    ensures Counted(c, run, key, LastTime(run)) < |Recent(Naive(c, run, key), LastTime(run), c.window)|
    ensures Counted(c, run, key, LastTime(run)) < c.limit
  {
    var before, last := run[..|run| - 1], run[|run| - 1];
    AfterAClear(c, HitsAfter(c, before), last.key, last.now);
    RecentOfAppend(Naive(c, before, key), last.now, c.window);
    PruneShrinks(Queue(Evict(c, HitsAfter(c, run), last.now), key), last.now, c.window);
  }

  /** At the first clear of a run some key is active. */
  lemma ActiveAtClear(c: Settings, run: seq<Attempt>) returns (key: string)
    requires c.limit >= 1 && c.maxKeys >= 0 && Monotone(run) && run != []
    requires NeverClears(c, run[..|run| - 1]) && ClearsLast(c, run)
    ensures c.window > 0.0
    ensures Recent(Naive(c, run[..|run| - 1], key), LastTime(run), c.window) != {}
  {
    var before, now := run[..|run| - 1], LastTime(run);
    NeverClearsIffFewKeys(c, before);
    ClearsIffCrowded(c, before, now);
    key :| key in ActiveKeys(c, before, now);
    ActiveMeansWindow(c, before, key, now);
  }

  lemma ClearAdmits(c: Settings, run: seq<Attempt>)
    requires c.limit >= 1 && run != [] && ClearsLast(c, run)
    ensures AdmitsLast(c, run)
  {
    var last := run[|run| - 1];
    AfterAClear(c, HitsAfter(c, run[..|run| - 1]), last.key, last.now);
  }

  /** Every clear lets somebody through: from the first attempt that takes the clear branch on, there is a
      key whose repetition within one instant leads the limiter to admit what the naive one refuses. */
  lemma ClearingForgets(c: Settings, run: seq<Attempt>) returns (key: string, n: nat)
    requires c.limit >= 1 && c.maxKeys >= 0 && Monotone(run) && run != []
    requires NeverClears(c, run[..|run| - 1]) && ClearsLast(c, run)
    ensures var more := Retry(run, key, LastTime(run), n);
            && |more| == |run| + n
            && AdmitsLast(c, more) && !NaiveAdmitsLast(c, more)
  {
    key := ActiveAtClear(c, run);
    ClearAdmits(c, run);
    if key == run[|run| - 1].key && !NaiveAdmitsLast(c, run) {
      n := 0;
    } else {
      ClearLeavesShort(c, run, key);
      n := ShortCountDiverges(c, run, key, LastTime(run));
    }
  }

  lemma ActiveMeansWindow(c: Settings, run: seq<Attempt>, key: string, now: real)
    requires c.limit >= 1 && Monotone(run) && (run != [] ==> LastTime(run) <= now)
    requires Since(c, run, key) == Naive(c, run, key) && key in ActiveKeys(c, run, now)
    ensures c.window > 0.0
  {
    if run != [] {
      Tracks(c, run, key);
      var i :| i in Recent(Naive(c, run, key), now, c.window);
    }
  }

  lemma AfterAClear(c: Settings, h: Hits, key: string, now: real)
    requires c.limit >= 1 && Clears(c, h, now)
    ensures Admits(c, h, key, now) && After(c, h, key, now) == map[key := [now]]
  {
    assert Evict(c, h, now) == map[];
    assert Current(c, h, key, now) == [] && [] + [now] == [now];
  }

  // ---- A clear for every setting ---------------------------------------------------------

  /** One attempt on each key, all at the time `now`. */
  function OneEach(keys: seq<string>, now: real): seq<Attempt>
  {
    seq(|keys|, i requires 0 <= i < |keys| => Attempt(keys[i], now))
  }

  ghost predicate Distinct(keys: seq<string>)
  {
    forall i, j :: 0 <= i < j < |keys| ==> keys[i] != keys[j]
  }

  lemma {:induction false} OneEachAdmitted(c: Settings, keys: seq<string>, now: real, k: string)
    requires c.limit >= 1 && Distinct(keys)
    ensures Naive(c, OneEach(keys, now), k) == if k in keys then [now] else []
  {
    if keys != [] {
      var run, some := OneEach(keys, now), keys[..|keys| - 1];
      assert run[..|run| - 1] == OneEach(some, now);
      OneEachAdmitted(c, some, now, k);
      assert keys == some + [keys[|keys| - 1]];
      assert Recent([], now, c.window) == {} && [] + [now] == [now];
    }
  }

  lemma {:induction false} DistinctSize(keys: seq<string>)
    requires Distinct(keys)
    ensures |set k | k in keys| == |keys|
  {
    if keys != [] {
      var some, last := keys[..|keys| - 1], keys[|keys| - 1];
      DistinctSize(some);
      assert keys == some + [last];
      assert (set k | k in keys) == (set k | k in some) + {last};
    }
  }

  lemma OneEachIsActive(c: Settings, keys: seq<string>, now: real)
    requires c.limit >= 1 && c.window > 0.0 && Distinct(keys)
    ensures |ActiveKeys(c, OneEach(keys, now), now)| == |keys|
  {
    var run := OneEach(keys, now);
    forall k ensures k in ActiveKeys(c, run, now) <==> k in keys {
      OneEachAdmitted(c, keys, now, k);
      if k in keys {
        var i :| 0 <= i < |keys| && keys[i] == k;
        assert run[i] in run && run[i].key == k;
        assert 0 in Recent([now], now, c.window);
      } else {
        assert Recent([], now, c.window) == {};
      }
    }
    assert ActiveKeys(c, run, now) == set k | k in keys;
    DistinctSize(keys);
  }

  lemma {:induction false} CrowdHasRoom(c: Settings, keys: seq<string>, now: real)
    requires c.limit >= 1 && c.window > 0.0 && Distinct(keys) && |keys| <= c.maxKeys + 1
    ensures FewKeys(c, OneEach(keys, now))
  {
    if keys != [] {
      var run, some := OneEach(keys, now), keys[..|keys| - 1];
      assert run[..|run| - 1] == OneEach(some, now);
      CrowdHasRoom(c, some, now);
      OneEachIsActive(c, some, now);
    }
  }

  /** For every limit, window and `maxKeys` at all: one attempt on each of `maxKeys + 1` keys is taken in,
      and the attempt after them, on any key, clears. */
  lemma CrowdIsCleared(c: Settings, keys: seq<string>, now: real, next: string)
    requires c.limit >= 1 && c.window > 0.0 && c.maxKeys >= 0 && Distinct(keys) && |keys| == c.maxKeys + 1
    ensures var run := OneEach(keys, now) + [Attempt(next, now)];
            Monotone(run) && NeverClears(c, run[..|run| - 1]) && ClearsLast(c, run)
  {
    var crowd := OneEach(keys, now);
    var run := crowd + [Attempt(next, now)];
    assert run[..|run| - 1] == crowd;
    CrowdHasRoom(c, keys, now);
    NeverClearsIffFewKeys(c, crowd);
    OneEachIsActive(c, keys, now);
    ClearsIffCrowded(c, crowd, now);
  }

  /** So for every such setting there is a run after which the limiter admits what the naive one refuses. */
  lemma ForgetsAtEverySetting(c: Settings, keys: seq<string>, now: real, next: string) returns (run: seq<Attempt>)
    requires c.limit >= 1 && c.window > 0.0 && c.maxKeys >= 0 && Distinct(keys) && |keys| == c.maxKeys + 1
    ensures run != [] && AdmitsLast(c, run) && !NaiveAdmitsLast(c, run)
  {
    CrowdIsCleared(c, keys, now, next);
    var key, n := ClearingForgets(c, OneEach(keys, now) + [Attempt(next, now)]);
    run := Retry(OneEach(keys, now) + [Attempt(next, now)], key, now, n);
  }
}
