/** The bounded request limiter: a capped map with eviction and an overflow bucket, and the unbounded
    fixed-window counter it refines. */
module RateLimit {
  import opened Text

  const MAX_CLIENTS := 10000

  const OVERFLOW := "__rate_limit_overflow__"

  /** One bucket: the window it counts, and how many requests it admitted there. */
  datatype Bucket = Bucket(period: int, count: nat)

  type Buckets = map<string, Bucket>

  /** One call of allow, in lock order: its key and the window its clock reading falls in. */
  datatype Call = Call(key: string, window: int)

  // ---- One call, as a function -----------------------------------------------------------

  function Since(b: Buckets, window: int): Buckets {
    map k | k in b && b[k].period >= window :: b[k]
  }

  /** At capacity, buckets of earlier windows are dropped. */
  function Evicted(b: Buckets, window: int): Buckets {
    if |b| >= MAX_CLIENTS then Since(b, window) else b
  }

  function CountIn(b: Buckets, key: string, window: int): nat {
    if key in b && b[key].period == window then b[key].count else 0
  }

  /** The bucket a call is charged to. */
  function Charged(b: Buckets, key: string): string {
    if key !in b && |b| >= MAX_CLIENTS then OVERFLOW else key
  }

  function ChargeOrRefuse(limit: nat, kept: Buckets, c: Call): (Buckets, bool) {
    var bucket := Charged(kept, c.key);
    var count := CountIn(kept, bucket, c.window);
    if CountIn(kept, c.key, c.window) >= limit || count >= limit then (kept, false)
    else (kept[bucket := Bucket(c.window, count + 1)], true)
  }

  function Admit(limit: nat, b: Buckets, c: Call): (Buckets, bool) {
    ChargeOrRefuse(limit, Evicted(b, c.window), c)
  }

  // ---- The limiter, in place --------------------------------------------------------------

  function Without(order: seq<string>, key: string): seq<string> {
    if order == [] then [] else (if order[0] == key then [] else [order[0]]) + Without(order[1..], key)
  }

  predicate NoRepeats(order: seq<string>) {
    forall i, j :: 0 <= i < j < |order| ==> order[i] != order[j]
  }

  lemma {:induction false} WithoutRemoves(order: seq<string>, key: string)
    ensures forall k :: k in Without(order, key) <==> k in order && k != key
    ensures NoRepeats(order) ==> NoRepeats(Without(order, key))
  {
    if order != [] {
      WithoutRemoves(order[1..], key);
      assert order == [order[0]] + order[1..];
      if NoRepeats(order) {
        assert order[0] !in order[1..];
        assert order[0] !in Without(order[1..], key);
      }
    }
  }

  lemma Remaining(items: seq<string>, i: nat)
    requires i < |items| && NoRepeats(items)
    ensures forall k :: k in items[i..] <==> k == items[i] || k in items[i + 1..]
    ensures items[i] !in items[i + 1..]
  {
    assert items[i..] == [items[i]] + items[i + 1..];
  }

  lemma Times(a: real, b: real, s: real)
    requires a <= b && s > 0.0
    ensures a * s <= b * s && (a < b ==> a * s < b * s)
  {
    var d := b - a;
    assert d * s >= 0.0 && (d > 0.0 ==> d * s > 0.0);
    assert b * s == a * s + d * s;
  }

  lemma QuotientBeyond(x: real, edge: int, s: real)
    requires s > 0.0 && x > edge as real * s
    ensures (x / s).Floor >= edge
  {
    var q := x / s;
    assert q * s == x;
    if q < edge as real { Times(q, edge as real, s); }
  }

  lemma WindowEnds(now: real, s: real, window: int)
    requires s > 0.0 && window == (now / s).Floor
    ensures 0.0 < (window + 1) as real * s - now <= s
  {
    var (q, edge) := (now / s, (window + 1) as real);
    assert q * s == now;
    assert window as real <= q < edge;
    Times(q, edge, s);
    assert edge * s > now;
    Times(edge - 1.0, q, s);
    assert (edge - 1.0) * s <= now;
    assert (edge - 1.0) * s == edge * s - s;
  }

  /** The window a clock reading falls in, and the seconds until it ends: after waiting that long (and a
      millisecond) the caller is in a later window. */
  method ReadClock(now: real, seconds: nat) returns (window: int, resetIn: int)
    requires seconds >= 1
    ensures window == (now / seconds as real).Floor
    ensures 1 <= resetIn <= seconds
    ensures window < ((now + resetIn as real + 0.001) / seconds as real).Floor
  {
    window := (now / seconds as real).Floor;
    var remaining := (window + 1) as real * seconds as real - now;
    WindowEnds(now, seconds as real, window);
    assert 0.0 < remaining <= seconds as real;
    var rounded := (remaining + 0.999).Floor;
    resetIn := if rounded < 1 then 1 else rounded;
    assert rounded as real < (seconds + 1) as real;
    QuotientBeyond(now + resetIn as real + 0.001, window + 1, seconds as real);
  }

  /** An OrderedDict: its items, and its keys in order. */
  class RequestRateLimiter {
    const limit: nat
    const windowSeconds: nat
    var windows: Buckets
    var order: seq<string>

    /** `order` lists each key of `windows` once. */
    ghost predicate Valid()
      reads this
    {
      && limit >= 1 && windowSeconds >= 1
      && NoRepeats(order)
      && forall k :: k in order <==> k in windows
    }

    constructor (limit: nat, windowSeconds: nat)
      requires limit >= 1 && windowSeconds >= 1
      ensures Valid() && windows == map[] && this.limit == limit && this.windowSeconds == windowSeconds
    {
      this.limit, this.windowSeconds := limit, windowSeconds;
      windows, order := map[], [];
    }

    /** `key` must be present: move_to_end raises otherwise. */
    method MoveToEnd(key: string)
      requires Valid() && key in windows
      modifies this`order
      ensures Valid() && order == Without(old(order), key) + [key]
    {
      WithoutRemoves(order, key);
      order := Without(order, key) + [key];
    }

    method Delete(key: string)
      requires Valid()
      modifies this`windows, this`order
      ensures Valid() && windows == old(windows) - {key}
    {
      WithoutRemoves(order, key);
      order := Without(order, key);
      windows := windows - {key};
    }

    /** Deletes the buckets of earlier windows while walking over a copy of the items. */
    method Evict(window: int)
      requires Valid()
      modifies this`windows, this`order
      ensures Valid() && windows == Since(old(windows), window)
    {
      var (items, before) := (order, windows);
      for i := 0 to |items|
        invariant Valid()
        invariant forall k :: k in windows <==> k in before && (k in items[i..] || before[k].period >= window)
        invariant forall k :: k in windows ==> windows[k] == before[k]
      {
        if before[items[i]].period < window {
          Delete(items[i]);
        }
        Remaining(items, i);
      }
    }

    /** allow: whether the call is admitted, and in how many seconds the window ends. */
    method Allow(key: string, now: real) returns (allowed: bool, resetIn: int)
      requires Valid()
      modifies this`windows, this`order
      ensures Valid()
      ensures (windows, allowed) == Admit(limit, old(windows), Call(key, (now / windowSeconds as real).Floor))
      ensures 1 <= resetIn <= windowSeconds
      ensures (now / windowSeconds as real).Floor < ((now + resetIn as real + 0.001) / windowSeconds as real).Floor
    {
      var window;
      window, resetIn := ReadClock(now, windowSeconds);
      if |windows| >= MAX_CLIENTS {
        Evict(window);
      }
      assert windows == Evicted(old(windows), window);
      var count := CountIn(windows, key, window);
      if count >= limit {
        MoveToEnd(key);
        return false, resetIn;
      }
      var bucket := key;
      if key !in windows && |windows| >= MAX_CLIENTS {
        bucket := OVERFLOW;
        count := CountIn(windows, bucket, window);
        if count >= limit { return false, resetIn; }
      }
      Charge(bucket, Bucket(window, count + 1));
      allowed := true;
    }

    method Charge(key: string, bucket: Bucket)
      requires Valid()
      modifies this`windows, this`order
      ensures Valid() && windows == old(windows)[key := bucket]
    {
      if key !in windows { order := order + [key]; }
      windows := windows[key := bucket];
      MoveToEnd(key);
    }
  }

  // ---- Histories ----------------------------------------------------------------------------

  /** The buckets after a history of calls on a new limiter. */
  function After(limit: nat, h: seq<Call>): Buckets {
    if h == [] then map[] else Admit(limit, After(limit, h[..|h| - 1]), h[|h| - 1]).0
  }

  /** Windows never run backwards in lock order, and nobody is named like the overflow bucket. */
  predicate Ordered(h: seq<Call>) {
    && (forall i, j :: 0 <= i < j < |h| ==> h[i].window <= h[j].window)
    && (forall i :: 0 <= i < |h| ==> h[i].key != OVERFLOW)
  }

  lemma OrderedBefore(h: seq<Call>, c: Call)
    requires Ordered(h + [c])
    ensures Ordered(h) && c.key != OVERFLOW && forall i :: 0 <= i < |h| ==> h[i].window <= c.window
  {
    var all := h + [c];
    assert all[|h|] == c && forall i :: 0 <= i < |h| ==> all[i] == h[i];
  }

  /** The distinct keys of a window, in the order of their first calls. */
  function Seen(h: seq<Call>, window: int): seq<string> {
    if h == [] then []
    else
      var (before, last) := (Seen(h[..|h| - 1], window), h[|h| - 1]);
      if last.window == window && last.key !in before then before + [last.key] else before
  }

  /** The first MAX_CLIENTS of them. */
  function Early(h: seq<Call>, window: int): seq<string> {
    var seen := Seen(h, window);
    if |seen| <= MAX_CLIENTS then seen else seen[..MAX_CLIENTS]
  }

  function Calls(h: seq<Call>, key: string, window: int): nat {
    if h == [] then 0
    else Calls(h[..|h| - 1], key, window) + if h[|h| - 1] == Call(key, window) then 1 else 0
  }

  function CallsIn(h: seq<Call>, window: int): string -> nat {
    key => Calls(h, key, window)
  }

  /** The calls of a window by all the later keys together. */
  function LateCalls(h: seq<Call>, window: int): nat {
    if h == [] then 0
    else
      LateCalls(h[..|h| - 1], window)
      + if h[|h| - 1].window == window && h[|h| - 1].key !in Early(h, window) then 1 else 0
  }

  function Min(a: nat, b: nat): nat {
    if a <= b then a else b
  }

  /** What an unbounded fixed-window counter would answer, with one allowance for all late keys. */
  predicate Ideal(limit: nat, h: seq<Call>, c: Call) {
    if c.key in Early(h + [c], c.window) then Calls(h, c.key, c.window) < limit else LateCalls(h, c.window) < limit
  }

  lemma Extended(h: seq<Call>, c: Call, window: int)
    ensures Seen(h + [c], window)
            == Seen(h, window) + if c.window == window && c.key !in Seen(h, window) then [c.key] else []
    ensures forall k :: Calls(h + [c], k, window) == Calls(h, k, window) + if c == Call(k, window) then 1 else 0
    ensures LateCalls(h + [c], window)
            == LateCalls(h, window) + if c.window == window && c.key !in Early(h + [c], window) then 1 else 0
  {
    assert (h + [c])[..|h|] == h;
  }

  lemma CallsExtend(h: seq<Call>, c: Call)
    ensures forall k :: CallsIn(h + [c], c.window)(k) == CallsIn(h, c.window)(k) + if k == c.key then 1 else 0
    ensures LateCalls(h + [c], c.window) == LateCalls(h, c.window) + if c.key !in Early(h + [c], c.window) then 1 else 0
  {
    Extended(h, c, c.window);
  }

  lemma {:induction false} SeenFacts(h: seq<Call>, window: int)
    ensures NoRepeats(Seen(h, window))
    ensures Ordered(h) ==> OVERFLOW !in Seen(h, window)
    ensures forall k :: k !in Seen(h, window) ==> Calls(h, k, window) == 0
  {
    if h != [] {
      var front := h[..|h| - 1];
      SeenFacts(front, window);
      assert Ordered(h) ==> Ordered(front);
      Extended(front, h[|h| - 1], window);
      assert h == front + [h[|h| - 1]];
    }
  }

  lemma {:induction false} NothingAhead(h: seq<Call>, window: int)
    requires forall i :: 0 <= i < |h| ==> h[i].window < window
    ensures Seen(h, window) == [] && LateCalls(h, window) == 0
    ensures forall k :: Calls(h, k, window) == 0
  {
    if h != [] {
      NothingAhead(h[..|h| - 1], window);
    }
  }

  // ---- The invariant --------------------------------------------------------------------------

  /** What a window has seen: its early keys, the calls of each key, and those of all late keys. */
  datatype View = View(early: seq<string>, calls: string -> nat, late: nat)

  function Sees(h: seq<Call>, window: int): View {
    View(Early(h, window), CallsIn(h, window), LateCalls(h, window))
  }

  /** Early keys, and only they, have a bucket of the window, with their calls up to the limit. */
  ghost predicate EarlyTracked(limit: nat, v: View, b: Buckets, window: int) {
    forall k :: k != OVERFLOW ==>
      && (k in b && b[k].period == window <==> k in v.early)
      && CountIn(b, k, window) == if k in v.early then Min(limit, v.calls(k)) else 0
  }

  ghost predicate LateTracked(limit: nat, v: View, b: Buckets, window: int) {
    && (OVERFLOW in b && b[OVERFLOW].period == window <==> v.late > 0)
    && CountIn(b, OVERFLOW, window) == Min(limit, v.late)
  }

  /** The overflow bucket exists only beside exactly MAX_CLIENTS buckets of its own window. */
  ghost predicate Capped(b: Buckets) {
    if OVERFLOW in b then |b| == MAX_CLIENTS + 1 && forall k :: k in b ==> b[k].period == b[OVERFLOW].period
    else |b| <= MAX_CLIENTS
  }

  ghost predicate Tracks(limit: nat, v: View, b: Buckets, window: int) {
    && (forall k :: k in b ==> b[k].period <= window)
    && EarlyTracked(limit, v, b, window)
    && LateTracked(limit, v, b, window)
    && Capped(b)
  }

  ghost predicate Inv(limit: nat, h: seq<Call>, b: Buckets, window: int) {
    Tracks(limit, Sees(h, window), b, window)
  }

  /** One more call by a key that is, or now becomes, an early one. */
  ghost predicate CallsEarly(v: View, after: View, key: string) {
    && (forall k :: k in after.early <==> k in v.early || k == key)
    && (forall k :: after.calls(k) == v.calls(k) + if k == key then 1 else 0)
    && (key !in v.early ==> v.calls(key) == 0)
    && after.late == v.late
  }

  /** One more call by a late key. */
  ghost predicate CallsLate(v: View, after: View, key: string) {
    && after.early == v.early && key !in v.early
    && (forall k :: after.calls(k) == v.calls(k) + if k == key then 1 else 0)
    && after.late == v.late + 1
  }

  lemma NextWindowKeepsInv(limit: nat, h: seq<Call>, b: Buckets, window: int, later: int)
    requires Inv(limit, h, b, window) && window < later && forall i :: 0 <= i < |h| ==> h[i].window <= window
    ensures Inv(limit, h, b, later)
  {
    NothingAhead(h, later);
  }

  lemma {:induction false} FewerKeys(small: set<string>, large: set<string>)
    requires small <= large
    ensures |small| <= |large|
  {
    if small != {} {
      var k :| k in small;
      FewerKeys(small - {k}, large - {k});
    }
  }

  lemma {:induction false} DistinctSize(keys: seq<string>)
    requires NoRepeats(keys)
    ensures |set k | k in keys| == |keys|
  {
    if keys != [] {
      DistinctSize(keys[1..]);
      assert (set k | k in keys) == {keys[0]} + set k | k in keys[1..];
    }
  }

  ghost predicate OneWindowIfFull(b: Buckets, window: int) {
    |b| >= MAX_CLIENTS ==> forall k :: k in b ==> b[k].period == window
  }

  lemma EvictionKeepsInv(limit: nat, h: seq<Call>, b: Buckets, window: int)
    requires Inv(limit, h, b, window)
    ensures Inv(limit, h, Evicted(b, window), window)
    ensures OneWindowIfFull(Evicted(b, window), window)
  {
    var kept := Evicted(b, window);
    FewerKeys(kept.Keys, b.Keys);
    assert forall k :: CountIn(kept, k, window) == CountIn(b, k, window);
    if |b| >= MAX_CLIENTS && OVERFLOW in b {
      if b[OVERFLOW].period == window {
        assert kept == b;
      } else {
        assert kept == map[];
      }
    }
  }

  /** Among buckets of one window only, the early keys and perhaps the overflow are all there is. */
  lemma FullOfEarlyKeys(limit: nat, h: seq<Call>, b: Buckets, window: int)
    requires Inv(limit, h, b, window) && Ordered(h)
    requires |b| >= MAX_CLIENTS && forall k :: k in b ==> b[k].period == window
    ensures |Early(h, window)| == MAX_CLIENTS && |b| == MAX_CLIENTS + (if OVERFLOW in b then 1 else 0)
  {
    var keys := set k | k in Early(h, window);
    SeenFacts(h, window);
    DistinctSize(Early(h, window));
    assert b.Keys - {OVERFLOW} == keys;
  }

  lemma RoomForEarlyKeys(limit: nat, h: seq<Call>, b: Buckets, window: int)
    requires Inv(limit, h, b, window) && Ordered(h) && |b| < MAX_CLIENTS
    ensures |Seen(h, window)| < MAX_CLIENTS
  {
    var keys := set k | k in Early(h, window);
    SeenFacts(h, window);
    DistinctSize(Early(h, window));
    forall k | k in keys ensures k in b { assert k in Seen(h, window) && k != OVERFLOW; }
    FewerKeys(keys, b.Keys);
  }

  predicate OwnBucket(b: Buckets, key: string) {
    key in b || |b| < MAX_CLIENTS
  }

  /** A key joins its window's first MAX_CLIENTS keys exactly when it is charged to its own bucket. */
  lemma ChargeFollowsRank(limit: nat, h: seq<Call>, b: Buckets, c: Call)
    requires Inv(limit, h, b, c.window) && Ordered(h) && c.key != OVERFLOW && OneWindowIfFull(b, c.window)
    ensures c.key in Early(h + [c], c.window) <==> OwnBucket(b, c.key)
    ensures OwnBucket(b, c.key) ==>
              && (forall k :: k in Early(h + [c], c.window) <==> k in Early(h, c.window) || k == c.key)
              && (c.key !in Early(h, c.window) ==> Calls(h, c.key, c.window) == 0)
    ensures !OwnBucket(b, c.key) ==>
              Early(h + [c], c.window) == Early(h, c.window) && |b| == MAX_CLIENTS + (if OVERFLOW in b then 1 else 0)
  {
    Extended(h, c, c.window);
    SeenFacts(h, c.window);
    if |b| >= MAX_CLIENTS {
      FullOfEarlyKeys(limit, h, b, c.window);
    } else {
      RoomForEarlyKeys(limit, h, b, c.window);
    }
  }

  lemma ViewExtends(limit: nat, h: seq<Call>, b: Buckets, c: Call)
    requires Inv(limit, h, b, c.window) && Ordered(h) && c.key != OVERFLOW && OneWindowIfFull(b, c.window)
    ensures var (v, after) := (Sees(h, c.window), Sees(h + [c], c.window));
            && (c.key in after.early <==> OwnBucket(b, c.key))
            && (OwnBucket(b, c.key) ==> CallsEarly(v, after, c.key))
            && (!OwnBucket(b, c.key) ==>
                  CallsLate(v, after, c.key) && |b| == MAX_CLIENTS + (if OVERFLOW in b then 1 else 0))
  {
    ChargeFollowsRank(limit, h, b, c);
    CallsExtend(h, c);
  }

  lemma ChargedOnlyItsKey(limit: nat, v: View, after: View, b: Buckets, window: int, key: string)
    requires limit >= 1 && EarlyTracked(limit, v, b, window) && key != OVERFLOW && CallsEarly(v, after, key)
    ensures var count := CountIn(b, key, window);
            && (count < limit <==> v.calls(key) < limit)
            && EarlyTracked(limit, after, if count < limit then b[key := Bucket(window, count + 1)] else b, window)
  {
    var count := CountIn(b, key, window);
    assert count == Min(limit, v.calls(key));
    var next := if count < limit then b[key := Bucket(window, count + 1)] else b;
    forall k | k != OVERFLOW
      ensures k in next && next[k].period == window <==> k in after.early
      ensures CountIn(next, k, window) == if k in after.early then Min(limit, after.calls(k)) else 0
    {
      assert k in b && b[k].period == window <==> k in v.early;
    }
  }

  lemma ChargedStaysCapped(b: Buckets, window: int, key: string, bucket: Bucket)
    requires Capped(b) && OneWindowIfFull(b, window) && OwnBucket(b, key) && key != OVERFLOW && bucket.period == window
    ensures Capped(b[key := bucket])
  {
    assert key in b ==> |b[key := bucket]| == |b|;
    assert key !in b ==> |b[key := bucket]| == |b| + 1;
  }

  lemma ChargedEarly(limit: nat, v: View, after: View, b: Buckets, window: int, key: string)
    requires limit >= 1 && Tracks(limit, v, b, window) && key != OVERFLOW && OneWindowIfFull(b, window)
    requires OwnBucket(b, key) && CallsEarly(v, after, key)
    ensures var count := CountIn(b, key, window);
            && (count < limit <==> v.calls(key) < limit)
            && Tracks(limit, after, if count < limit then b[key := Bucket(window, count + 1)] else b, window)
  {
    ChargedOnlyItsKey(limit, v, after, b, window, key);
    ChargedStaysCapped(b, window, key, Bucket(window, CountIn(b, key, window) + 1));
  }

  lemma ChargedLate(limit: nat, v: View, after: View, b: Buckets, window: int, key: string)
    requires limit >= 1 && Tracks(limit, v, b, window) && OneWindowIfFull(b, window) && CallsLate(v, after, key)
    requires |b| == MAX_CLIENTS + (if OVERFLOW in b then 1 else 0)
    ensures var count := CountIn(b, OVERFLOW, window);
            && (count < limit <==> v.late < limit)
            && Tracks(limit, after, if count < limit then b[OVERFLOW := Bucket(window, count + 1)] else b, window)
  {
  }

  /** Charging the bucket a call belongs to, for any views before and after it. */
  lemma ChargeStep(limit: nat, v: View, after: View, b: Buckets, window: int, key: string)
    requires limit >= 1 && Tracks(limit, v, b, window) && key != OVERFLOW && OneWindowIfFull(b, window)
    requires OwnBucket(b, key) ==> CallsEarly(v, after, key)
    requires !OwnBucket(b, key) ==> CallsLate(v, after, key) && |b| == MAX_CLIENTS + (if OVERFLOW in b then 1 else 0)
    ensures var bucket := Charged(b, key);
            var count := CountIn(b, bucket, window);
            && (count < limit <==> if OwnBucket(b, key) then v.calls(key) < limit else v.late < limit)
            && Tracks(limit, after, if count < limit then b[bucket := Bucket(window, count + 1)] else b, window)
  {
    if OwnBucket(b, key) {
      ChargedEarly(limit, v, after, b, window, key);
    } else {
      ChargedLate(limit, v, after, b, window, key);
    }
  }

  lemma RefusedByBucket(limit: nat, kept: Buckets, c: Call)
    requires limit >= 1
    ensures var bucket := Charged(kept, c.key);
            var count := CountIn(kept, bucket, c.window);
            ChargeOrRefuse(limit, kept, c)
            == if count < limit then (kept[bucket := Bucket(c.window, count + 1)], true) else (kept, false)
  {
  }

  lemma ChargeKeepsInv(limit: nat, h: seq<Call>, kept: Buckets, c: Call)
    requires limit >= 1 && Inv(limit, h, kept, c.window) && Ordered(h) && c.key != OVERFLOW
    requires OneWindowIfFull(kept, c.window)
    ensures ChargeOrRefuse(limit, kept, c).1 <==> Ideal(limit, h, c)
    ensures Inv(limit, h + [c], ChargeOrRefuse(limit, kept, c).0, c.window)
  {
    ViewExtends(limit, h, kept, c);
    ChargeStep(limit, Sees(h, c.window), Sees(h + [c], c.window), kept, c.window, c.key);
    RefusedByBucket(limit, kept, c);
    assert Sees(h, c.window).calls(c.key) == Calls(h, c.key, c.window);
  }

  /** One call answers as the ideal counter does and keeps the invariant. */
  lemma AdmitKeepsInv(limit: nat, h: seq<Call>, b: Buckets, c: Call)
    requires limit >= 1 && Inv(limit, h, b, c.window) && Ordered(h + [c])
    ensures Admit(limit, b, c).1 <==> Ideal(limit, h, c)
    ensures Inv(limit, h + [c], Admit(limit, b, c).0, c.window)
  {
    OrderedBefore(h, c);
    EvictionKeepsInv(limit, h, b, c.window);
    ChargeKeepsInv(limit, h, Evicted(b, c.window), c);
  }

  lemma {:induction false} AfterKeepsInv(limit: nat, h: seq<Call>, window: int)
    requires limit >= 1 && Ordered(h) && forall i :: 0 <= i < |h| ==> h[i].window <= window
    ensures Inv(limit, h, After(limit, h), window)
    decreases |h|
  {
    if h != [] {
      var (front, last) := (h[..|h| - 1], h[|h| - 1]);
      assert h == front + [last];
      AfterKeepsInv(limit, front, last.window);
      AdmitKeepsInv(limit, front, After(limit, front), last);
      if last.window < window { NextWindowKeepsInv(limit, h, After(limit, h), last.window, window); }
    }
  }

  /** The bounded limiter refines the unbounded one: after any history, a call of one of the window's
      first MAX_CLIENTS distinct keys is admitted exactly while that key has made fewer than `limit`
      calls there, and all later keys share one such allowance. The map stays bounded. */
  lemma RefinesUnboundedCounter(limit: nat, h: seq<Call>, c: Call)
    requires limit >= 1 && Ordered(h + [c])
    ensures Admit(limit, After(limit, h), c).1 <==> Ideal(limit, h, c)
    ensures |Admit(limit, After(limit, h), c).0| <= 10001
  {
    OrderedBefore(h, c);
    AfterKeepsInv(limit, h, c.window);
    AdmitKeepsInv(limit, h, After(limit, h), c);
  }

  // ---- What that allows in one window -----------------------------------------------------------

  /** How many calls of `key` in `window` were admitted. */
  function Granted(limit: nat, h: seq<Call>, key: string, window: int): nat {
    if h == [] then 0
    else
      var (front, last) := (h[..|h| - 1], h[|h| - 1]);
      Granted(limit, front, key, window)
      + if last == Call(key, window) && Admit(limit, After(limit, front), last).1 then 1 else 0
  }

  /** How many calls in `window` by keys beyond the first MAX_CLIENTS were admitted, together. */
  function GrantedLate(limit: nat, h: seq<Call>, window: int): nat {
    if h == [] then 0
    else
      var (front, last) := (h[..|h| - 1], h[|h| - 1]);
      GrantedLate(limit, front, window)
      + if last.window == window && last.key !in Early(h, window) && Admit(limit, After(limit, front), last).1
        then 1 else 0
  }

  lemma EarlyGrows(h: seq<Call>, c: Call, window: int)
    ensures Early(h, window) <= Early(h + [c], window)
    ensures c.window != window ==> Early(h + [c], window) == Early(h, window)
    ensures forall k :: k in Early(h + [c], window) && k !in Early(h, window) ==>
              k == c.key && c.window == window && Calls(h, k, window) == 0
  {
    Extended(h, c, window);
    SeenFacts(h, window);
    var (seen, more) := (Seen(h, window), Seen(h + [c], window));
    if |seen| >= MAX_CLIENTS {
      assert more[..MAX_CLIENTS] == seen[..MAX_CLIENTS];
    }
  }

  /** Exactly min(limit, calls) of an early key's calls are admitted in a window, and exactly
      min(limit, calls) of all the late keys' calls together. */
  lemma {:induction false} AdmittedPerWindow(limit: nat, h: seq<Call>, window: int)
    requires limit >= 1 && Ordered(h)
    ensures forall k :: k in Early(h, window) ==> Granted(limit, h, k, window) == Min(limit, Calls(h, k, window))
    ensures forall k :: k !in Early(h, window) ==> Granted(limit, h, k, window) <= GrantedLate(limit, h, window)
    ensures forall k :: Calls(h, k, window) == 0 ==> Granted(limit, h, k, window) == 0
    ensures GrantedLate(limit, h, window) == Min(limit, LateCalls(h, window))
    decreases |h|
  {
    if h != [] {
      var (front, last) := (h[..|h| - 1], h[|h| - 1]);
      assert h == front + [last];
      OrderedBefore(front, last);
      AdmittedPerWindow(limit, front, window);
      Extended(front, last, window);
      EarlyGrows(front, last, window);
      RefinesUnboundedCounter(limit, front, last);
    }
  }

  /** No key is admitted more than `limit` times in a window, early or late. */
  lemma NeverMoreThanTheLimit(limit: nat, h: seq<Call>, key: string, window: int)
    requires limit >= 1 && Ordered(h)
    ensures Granted(limit, h, key, window) <= limit
  {
    AdmittedPerWindow(limit, h, window);
  }

  // ---- Bucket keys --------------------------------------------------------------------------------

  function PrincipalKey(tenant: string, subject: string): string {
    "principal:" + Decimal(|tenant|) + ":" + tenant + ":" + Decimal(|subject|) + ":" + subject
  }

  function AddressKey(client: string): string {
    "address:" + client
  }

  /** Digits followed by a colon can be split off in one way only. */
  lemma NumeralsEndAtTheColon(m: nat, a: string, n: nat, b: string)
    requires Decimal(m) + ":" + a == Decimal(n) + ":" + b
    ensures m == n && a == b
  {
    var (d, e) := (Decimal(m), Decimal(n));
    var s := d + ":" + a;
    assert s[|d|] == ':' && s[|e|] == ':' && forall i :: 0 <= i < |d| ==> s[i] == d[i];
    assert forall i :: 0 <= i < |e| ==> s[i] == e[i];
    assert |d| == |e|;
    assert s[..|d|] == d && s[..|e|] == e;
    assert s[|d| + 1..] == a && s[|e| + 1..] == b;
    DecimalValue(m);
    DecimalValue(n);
  }

  lemma KeyParts(m: string, tenant: string, k: string, subject: string)
    ensures ("principal:" + m + ":" + tenant + ":" + k + ":" + subject)[10..]
            == m + ":" + (tenant + (":" + k + ":" + subject))
  {
  }

  lemma ColonParts(k: string, subject: string)
    ensures (":" + k + ":" + subject)[1..] == k + ":" + subject
  {
  }

  /** Distinct tenant and subject pairs get distinct buckets, whatever colons or digits they contain. */
  lemma PrincipalKeysAreInjective(tenant: string, subject: string, tenant': string, subject': string)
    requires PrincipalKey(tenant, subject) == PrincipalKey(tenant', subject')
    ensures tenant == tenant' && subject == subject'
  {
    var (m, n, k, l) := (Decimal(|tenant|), Decimal(|tenant'|), Decimal(|subject|), Decimal(|subject'|));
    KeyParts(m, tenant, k, subject);
    KeyParts(n, tenant', l, subject');
    var (a, b) := (tenant + (":" + k + ":" + subject), tenant' + (":" + l + ":" + subject'));
    NumeralsEndAtTheColon(|tenant|, a, |tenant'|, b);
    assert tenant == a[..|tenant|] == b[..|tenant'|] == tenant';
    assert ":" + k + ":" + subject == a[|tenant|..] == b[|tenant'|..] == ":" + l + ":" + subject';
    ColonParts(k, subject);
    ColonParts(l, subject');
    NumeralsEndAtTheColon(|subject|, subject, |subject'|, subject');
  }

  /** No principal shares a bucket with an address, and neither is ever the overflow bucket, so every
      history the middleware produces meets the limiter's naming condition. */
  lemma BucketKeysNeverCollide(tenant: string, subject: string, client: string)
    ensures PrincipalKey(tenant, subject) != AddressKey(client)
    ensures PrincipalKey(tenant, subject) != OVERFLOW && AddressKey(client) != OVERFLOW
  {
    assert PrincipalKey(tenant, subject)[0] == 'p' && AddressKey(client)[0] == 'a' && OVERFLOW[0] == '_';
  }
}
