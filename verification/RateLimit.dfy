/** Token buckets, and buckets kept by key and swept when idle (ratelimit.go). Times are in seconds. */
module RateLimit {

  datatype Level = Level(tokens: real, last: real)

  /** A bucket's settings once made safe: a rate above zero and room for at least one token. */
  datatype Settings = Settings(rate: real, capacity: real)

  predicate Safe(s: Settings) {
    s.rate > 0.0 && s.capacity >= 1.0
  }

  function Effective(ratePerSec: real, burst: real): (s: Settings)
    ensures Safe(s)
  {
    Settings(if ratePerSec <= 0.0 then 1.0 else ratePerSec, if burst < 1.0 then 1.0 else burst)
  }

  /** What a steady refill adds over a span. */
  function Flow(rate: real, span: real): real {
    rate * span
  }

  function Refilled(s: Settings, l: Level, now: real): Level {
    if now <= l.last then l
    else Level(if l.tokens + Flow(s.rate, now - l.last) > s.capacity then s.capacity else l.tokens + Flow(s.rate, now - l.last), now)
  }

  /** The level after asking for a token, and whether there was one. */
  function Asked(s: Settings, l: Level, now: real): (Level, bool) {
    var r := Refilled(s, l, now);
    if r.tokens >= 1.0 then (r.(tokens := r.tokens - 1.0), true) else (r, false)
  }

  predicate Sane(s: Settings, l: Level) {
    Safe(s) && 0.0 <= l.tokens <= s.capacity
  }

  function Full(s: Settings, now: real): Level {
    Level(s.capacity, now)
  }

  class Bucket {
    const settings: Settings
    var tokens: real
    var last: real

    ghost predicate Valid()
      reads this
    {
      Sane(settings, State())
    }

    function State(): Level
      reads this
    {
      Level(tokens, last)
    }

    constructor (ratePerSec: real, burst: real, now: real)
      ensures Valid() && settings == Effective(ratePerSec, burst) && State() == Full(settings, now)
    {
      settings := Effective(ratePerSec, burst);
      tokens, last := Effective(ratePerSec, burst).capacity, now;
    }

    method Refill(now: real)
      modifies this
      ensures State() == Refilled(settings, old(State()), now)
    {
      var elapsed := now - last;
      if elapsed <= 0.0 {
        return;
      }
      tokens := tokens + Flow(settings.rate, elapsed);
      if tokens > settings.capacity {
        tokens := settings.capacity;
      }
      last := now;
    }

    method Allow(now: real) returns (allowed: bool)
      requires Valid()
      modifies this
      ensures Valid()
      ensures (State(), allowed) == Asked(settings, old(State()), now)
    {
      StillSane(settings, State(), now);
      Refill(now);
      allowed := false;
      if tokens >= 1.0 {
        tokens := tokens - 1.0;
        allowed := true;
      }
    }
  }

  lemma FlowGrows(rate: real, a: real, b: real)
    requires rate > 0.0 && a <= b
    ensures Flow(rate, a) <= Flow(rate, b) && (a < b ==> Flow(rate, a) < Flow(rate, b))
    ensures a >= 0.0 ==> Flow(rate, a) >= 0.0
  {
    assert rate * b == rate * a + rate * (b - a);
  }

  lemma FlowAdds(rate: real, a: real, b: real)
    ensures Flow(rate, a) + Flow(rate, b) == Flow(rate, a + b)
  {
  }

  lemma StillSane(s: Settings, l: Level, now: real)
    requires Sane(s, l)
    ensures Sane(s, Refilled(s, l, now)) && Sane(s, Asked(s, l, now).0)
    ensures l.last <= Refilled(s, l, now).last == Asked(s, l, now).0.last
  {
    if now > l.last {
      FlowGrows(s.rate, 0.0, now - l.last);
    }
  }

  // ----- How much a bucket can give

  /** The level after a whole schedule of requests. */
  function After(s: Settings, l: Level, times: seq<real>): Level
    decreases |times|
  {
    if times == [] then l else After(s, Asked(s, l, times[0]).0, times[1..])
  }

  function Grants(s: Settings, l: Level, times: seq<real>): nat
    decreases |times|
  {
    if times == [] then 0 else (if Asked(s, l, times[0]).1 then 1 else 0) + Grants(s, Asked(s, l, times[0]).0, times[1..])
  }

  /** Each grant is paid for out of the level or the flow since. */
  lemma {:induction false} GrantsArePaidFor(s: Settings, l: Level, times: seq<real>, end: real)
    requires Sane(s, l) && forall i :: 0 <= i < |times| ==> times[i] <= end
    ensures Grants(s, l, times) as real <= l.tokens + if end > l.last then Flow(s.rate, end - l.last) else 0.0
    decreases |times|
  {
    if end > l.last {
      FlowGrows(s.rate, 0.0, end - l.last);
    }
    if times != [] {
      var now := times[0];
      var next := Asked(s, l, now).0;
      StillSane(s, l, now);
      GrantsArePaidFor(s, next, times[1..], end);
      if now > l.last {
        FlowAdds(s.rate, now - l.last, end - now);
      }
    }
  }

  /** In any window, however the requests fall in it, a bucket grants at most its capacity and the window's flow. */
  lemma WindowBound(s: Settings, l: Level, times: seq<real>, start: real, end: real)
    requires Sane(s, l) && start <= end && forall i :: 0 <= i < |times| ==> start <= times[i] <= end
    ensures Grants(s, l, times) as real <= s.capacity + Flow(s.rate, end - start)
  {
    FlowGrows(s.rate, 0.0, end - start);
    if times != [] {
      var now := times[0];
      var r := Refilled(s, l, now);
      StillSane(s, l, now);
      assert Refilled(s, r, now) == r;
      GrantsArePaidFor(s, r, times, end);
      BroughtUp(s, l, r, times);
      if end > r.last {
        FlowGrows(s.rate, end - r.last, end - start);
      }
    }
  }

  /** A level brought up to date gives the same answers from then on. */
  lemma BroughtUp(s: Settings, l: Level, r: Level, times: seq<real>)
    requires times != [] && r == Refilled(s, l, times[0]) && Refilled(s, r, times[0]) == r
    ensures Grants(s, r, times) == Grants(s, l, times) && After(s, r, times) == After(s, l, times)
  {
  }

  // ----- Buckets by key

  /** A bucket untouched for longer is idle. */
  const IDLE := 600.0

  /** Idle buckets are looked for at most this often. */
  const SWEEP_EVERY := 60.0

  /** The buckets kept, when each was last touched, and when idle ones were last looked for. */
  datatype Shelf = Shelf(levels: map<string, Level>, seen: map<string, real>, lastGC: real)

  /** The keys whose buckets are idle. */
  function Idlers(seen: map<string, real>, now: real): set<string> {
    set key | key in seen && now - seen[key] > IDLE
  }

  /** Without the idle buckets, if it is time to look for them. */
  function Swept(h: Shelf, now: real): Shelf {
    if now - h.lastGC > SWEEP_EVERY then
      Shelf(h.levels - Idlers(h.seen, now), h.seen - Idlers(h.seen, now), now)
    else h
  }

  /** The answer of the key's bucket, or of a full one if it has none. */
  function Served(s: Settings, h: Shelf, key: string, now: real): (Shelf, bool) {
    var (after, allowed) := Asked(s, if key in h.levels then h.levels[key] else Full(s, now), now);
    (Shelf(h.levels[key := after], h.seen[key := now], h.lastGC), allowed)
  }

  /** One request: a sweep, if it is time for one, and the answer. */
  function Answered(s: Settings, h: Shelf, key: string, now: real): (Shelf, bool) {
    Served(s, Swept(h, now), key, now)
  }

  function Empty(start: real): Shelf {
    Shelf(map[], map[], start)
  }

  class Keyed {
    const rate: real
    const burst: real
    var buckets: map<string, Bucket>
    var seen: map<string, real>
    var lastGC: real

    ghost function Settings(): Settings {
      Effective(rate, burst)
    }

    ghost function Levels(): map<string, Level>
      reads this, buckets.Values
    {
      LevelsOf(buckets)
    }

    ghost function OnShelf(): Shelf
      reads this, buckets.Values
    {
      Shelf(Levels(), seen, lastGC)
    }

    ghost predicate Valid()
      reads this, buckets.Values
    {
      && InOrder(buckets, Settings())
      && seen.Keys == buckets.Keys
    }

    constructor (ratePerSec: real, burst: real, now: real)
      ensures Valid() && rate == ratePerSec && this.burst == burst && OnShelf() == Empty(now)
      ensures buckets == map[]
    {
      rate, this.burst := ratePerSec, burst;
      buckets, seen, lastGC := map[], map[], now;
      new;
      assert Levels() == map[];
    }

    /** Every request, whatever the settings and the clock, is answered as specified. */
    method Allow(key: string, now: real) returns (allowed: bool)
      requires Valid()
      modifies this, buckets.Values
      ensures Valid() && fresh(buckets.Values - old(buckets.Values))
      ensures (OnShelf(), allowed) == Answered(Settings(), old(OnShelf()), key, now)
    {
      hide Asked, Swept, Served, Sane, InOrder, LevelsOf;
      if now - lastGC > SWEEP_EVERY {
        Sweep(now);
      } else {
        NotSwept(OnShelf(), now);
      }
      allowed := Serve(key, now);
    }

    /** The key's bucket answers, newly made if there is none. */
    method Serve(key: string, now: real) returns (allowed: bool)
      requires Valid()
      modifies this, buckets.Values
      ensures Valid() && fresh(buckets.Values - old(buckets.Values))
      ensures (OnShelf(), allowed) == Served(Settings(), old(OnShelf()), key, now)
    {
      hide Asked, Full, Sane, InOrder, LevelsOf;
      ghost var h := OnShelf();
      SameKeys(buckets);
      if key !in buckets {
        Create(key, now);
      }
      ghost var own := if key in h.levels then h.levels[key] else Full(Settings(), now);
      allowed := Ask(key, now);
      PutTwice(h.levels, key, own, Asked(Settings(), own, now).0);
      PutTwice(h.seen, key, now, now);
    }

    /** Idle buckets are dropped. */
    method Sweep(now: real)
      requires Valid() && now - lastGC > SWEEP_EVERY
      modifies this
      ensures Valid() && OnShelf() == Swept(old(OnShelf()), now)
      ensures buckets.Values <= old(buckets.Values)
    {
      hide Idlers, Sane, InOrder, LevelsOf;
      FewerBuckets(buckets, Idlers(seen, now), Settings());
      buckets, seen := DropIdle(buckets, seen, now);
      lastGC := now;
    }

    /** A key without a bucket is given a full one. */
    method Create(key: string, now: real)
      requires Valid() && key !in buckets
      modifies this`buckets, this`seen
      ensures Valid() && key in buckets && fresh(buckets[key]) && buckets.Values <= old(buckets.Values) + {buckets[key]}
      ensures Levels() == old(Levels())[key := Full(Settings(), now)] && seen == old(seen)[key := now]
    {
      hide Full, Sane, InOrder, LevelsOf;
      FullIsSane(Settings(), now);
      var bucket := new Bucket(rate, burst, now);
      assert bucket !in buckets.Values;
      ValuesPut(buckets, key, bucket);
      OneMoreBucket(buckets, key, bucket, Settings());
      buckets, seen := buckets[key := bucket], seen[key := now];
    }

    /** The key's bucket answers. */
    method Ask(key: string, now: real) returns (allowed: bool)
      requires Valid() && key in buckets
      modifies this`seen, buckets[key]
      ensures Valid() && seen == old(seen)[key := now]
      ensures var (after, granted) := Asked(Settings(), old(Levels())[key], now);
              Levels() == old(Levels())[key := after] && allowed == granted
    {
      hide Asked, Sane;
      ghost var before := Levels();
      seen := seen[key := now];
      var bucket := buckets[key];
      allowed := bucket.Allow(now);
      assert Levels() == before[key := bucket.State()];
    }
  }

  lemma NotSwept(h: Shelf, now: real)
    requires now - h.lastGC <= SWEEP_EVERY
    ensures Swept(h, now) == h
  {
  }

  ghost function LevelsOf(m: map<string, Bucket>): map<string, Level>
    reads m.Values
  {
    map a | a in m :: m[a].State()
  }

  lemma SameKeys(m: map<string, Bucket>)
    ensures LevelsOf(m).Keys == m.Keys
  {
  }

  /** No two keys share a bucket, and every bucket has the same settings. */
  ghost predicate InOrder(m: map<string, Bucket>, s: Settings)
    reads m.Values
  {
    && (forall a, b :: a in m && b in m && a != b ==> m[a] != m[b])
    && forall a :: a in m ==> m[a].settings == s && m[a].Valid()
  }

  lemma OneMoreBucket(m: map<string, Bucket>, key: string, b: Bucket, s: Settings)
    requires InOrder(m, s) && key !in m && b !in m.Values && b.settings == s && b.Valid()
    ensures InOrder(m[key := b], s) && LevelsOf(m[key := b]) == LevelsOf(m)[key := b.State()]
  {
    forall a | a in m ensures m[a] != b {
      assert m[a] in m.Values;
    }
  }

  lemma FewerBuckets(m: map<string, Bucket>, dropped: set<string>, s: Settings)
    requires InOrder(m, s)
    ensures InOrder(m - dropped, s) && LevelsOf(m - dropped) == LevelsOf(m) - dropped
    ensures (m - dropped).Values <= m.Values
  {
    forall v | v in (m - dropped).Values ensures v in m.Values {
      var k :| k in m - dropped && (m - dropped)[k] == v;
      assert k in m && m[k] == v;
    }
  }

  lemma PutTwice<K, V>(m: map<K, V>, key: K, v: V, w: V)
    ensures m[key := v][key := w] == m[key := w]
  {
  }

  lemma ValuesPut<K, V>(m: map<K, V>, key: K, v: V)
    ensures m[key := v].Values <= m.Values + {v}
  {
    forall x | x in m[key := v].Values ensures x in m.Values + {v} {
      var k :| k in m[key := v] && m[key := v][k] == x;
      assert k != key ==> k in m && m[k] == x;
    }
  }

  /** One key after another, in whatever order they come, the idle ones are deleted. */
  method DropIdle(buckets0: map<string, Bucket>, seen0: map<string, real>, now: real) returns (buckets: map<string, Bucket>, seen: map<string, real>)
    requires seen0.Keys == buckets0.Keys
    ensures buckets == buckets0 - Idlers(seen0, now) && seen == seen0 - Idlers(seen0, now)
  {
    buckets, seen := buckets0, seen0;
    ghost var dropped := {};
    var keys := buckets.Keys;
    while keys != {}
      invariant keys <= buckets0.Keys && buckets == buckets0 - dropped && seen == seen0 - dropped
      invariant forall a :: a in dropped <==> a in buckets0 && a !in keys && a in Idlers(seen0, now)
      decreases |keys|
    {
      var key :| key in keys;
      keys := keys - {key};
      if now - seen[key] > IDLE {
        buckets, seen, dropped := buckets - {key}, seen - {key}, dropped + {key};
      }
    }
    assert dropped == Idlers(seen0, now);
  }

  lemma FullIsSane(s: Settings, now: real)
    requires Safe(s)
    ensures Sane(s, Full(s, now))
  {
  }

  // ----- A limiter that never forgets

  /** What a limiter that never forgets a key would answer. */
  function Ideal(s: Settings, levels: map<string, Level>, key: string, now: real): (map<string, Level>, bool) {
    var (after, allowed) := Asked(s, if key in levels then levels[key] else Full(s, now), now);
    (levels[key := after], allowed)
  }

  datatype Request = Request(key: string, at: real)

  /** Requests come in the order of their times, none before the first. */
  predicate InTime(requests: seq<Request>, from: real)
    decreases |requests|
  {
    requests == [] || (requests[0].at >= from && InTime(requests[1..], requests[0].at))
  }

  /** The limiter that sweeps gives every request the answer of the one that never forgets. */
  predicate SameAnswers(s: Settings, h: Shelf, ideal: map<string, Level>, requests: seq<Request>)
    decreases |requests|
  {
    requests == []
    || (var (shelf, a) := Answered(s, h, requests[0].key, requests[0].at);
        var (levels, b) := Ideal(s, ideal, requests[0].key, requests[0].at);
        a == b && SameAnswers(s, shelf, levels, requests[1..]))
  }

  /** Idle buckets are full again by the time they may be swept. */
  predicate Forgiving(s: Settings) {
    Flow(s.rate, IDLE) >= s.capacity
  }

  /**
    * Sweeping cannot be noticed, by any keys at any times, exactly when the rate refills a bucket within the idle time.
    */
  lemma UnnoticedExactlyWhen(s: Settings, start: real)
    requires Safe(s)
    ensures Forgiving(s) <==> forall requests :: InTime(requests, start) ==> SameAnswers(s, Empty(start), map[], requests)
  {
    if Forgiving(s) {
      forall requests | InTime(requests, start) ensures SameAnswers(s, Empty(start), map[], requests) {
        Unnoticed(s, Empty(start), map[], start, requests);
      }
    } else {
      var requests := Noticed(s, start);
    }
  }

  // ----- If idle buckets are full again

  /** Full again by this time. */
  predicate FullBy(s: Settings, l: Level, now: real) {
    l.last <= now && l.tokens + Flow(s.rate, now - l.last) >= s.capacity
  }

  /** The buckets kept are those of the ideal limiter, and every other of its buckets is full by now. */
  ghost predicate Faithful(s: Settings, levels: map<string, Level>, seen: map<string, real>, ideal: map<string, Level>, latest: real) {
    && seen.Keys == levels.Keys
    && (forall a :: a in ideal ==> Sane(s, ideal[a]))
    && (forall a :: a in levels ==> a in ideal && ideal[a] == levels[a] && seen[a] == levels[a].last <= latest)
    && (forall a :: a in ideal && a !in levels ==> FullBy(s, ideal[a], latest))
  }

  /** Every answer is what a limiter that never forgets would have given. */
  lemma {:induction false} Unnoticed(s: Settings, h: Shelf, ideal: map<string, Level>, latest: real, requests: seq<Request>)
    requires Safe(s) && Forgiving(s) && Faithful(s, h.levels, h.seen, ideal, latest) && InTime(requests, latest)
    ensures SameAnswers(s, h, ideal, requests)
    decreases |requests|
  {
    if requests != [] {
      var key, now := requests[0].key, requests[0].at;
      hide Faithful, Asked, Forgiving, Swept;
      var kept := Swept(h, now);
      SweptFaithful(s, h, ideal, latest, now);
      AnsweredFaithful(s, kept.levels, kept.seen, ideal, key, now);
      Unnoticed(s, Answered(s, h, key, now).0, Ideal(s, ideal, key, now).0, now, requests[1..]);
    }
  }

  /** A bucket idle long enough may be dropped. */
  lemma SweptFaithful(s: Settings, h: Shelf, ideal: map<string, Level>, latest: real, now: real)
    requires Safe(s) && Forgiving(s) && Faithful(s, h.levels, h.seen, ideal, latest) && now >= latest
    ensures Faithful(s, Swept(h, now).levels, Swept(h, now).seen, ideal, now)
  {
    forall a | a in ideal && a !in Swept(h, now).levels ensures FullBy(s, ideal[a], now) {
      if a in h.levels {
        FlowGrows(s.rate, IDLE, now - h.seen[a]);
      } else {
        FlowGrows(s.rate, latest - ideal[a].last, now - ideal[a].last);
      }
    }
    hide FullBy, Flow;
  }

  /** An answer by the key's own bucket, or by a full one in place of one that is full by now. */
  lemma AnsweredFaithful(s: Settings, levels: map<string, Level>, seen: map<string, real>, ideal: map<string, Level>, key: string, now: real)
    requires Safe(s) && Faithful(s, levels, seen, ideal, now)
    ensures var (after, allowed) := Asked(s, if key in levels then levels[key] else Full(s, now), now);
            (ideal[key := after], allowed) == Ideal(s, ideal, key, now)
            && Faithful(s, levels[key := after], seen[key := now], ideal[key := after], now)
  {
    var own := if key in levels then levels[key] else Full(s, now);
    FullIsSane(s, now);
    StillSane(s, own, now);
    if key !in levels && key in ideal {
      assert FullBy(s, ideal[key], now);
    }
    hide Flow, FullBy;
  }

  // ----- And only then

  const KEY := "key"

  /** A shelf with one bucket, touched when it was last asked. */
  function One(l: Level, gc: real): Shelf {
    Shelf(map[KEY := l], map[KEY := l.last], gc)
  }

  /** When idle buckets were last looked for, after one more request. */
  function NextGC(gc: real, now: real): real {
    if now - gc > SWEEP_EVERY then now else gc
  }

  /** A request answered at once is answered by the bucket, whether or not it is time to look for idle ones. */
  lemma OneAnswered(s: Settings, l: Level, gc: real, now: real)
    requires gc <= l.last <= now <= l.last + IDLE
    ensures var (after, allowed) := Asked(s, l, now);
            after.last == now && Answered(s, One(l, gc), KEY, now) == (One(after, NextGC(gc, now)), allowed)
  {
    var h, after := One(l, gc), Asked(s, l, now).0;
    assert after.last == now;
    hide Asked;
    assert Idlers(h.seen, now) == {};
    var kept := Swept(h, now);
    assert kept == Shelf(h.levels, h.seen, NextGC(gc, now));
    assert h.levels[KEY := after] == map[KEY := after];
    assert h.seen[KEY := now] == map[KEY := now];
  }

  /** A difference after a request answered at once is a difference before it. */
  lemma Preceded(s: Settings, a: Level, b: Level, gc: real, now: real, rest: seq<Request>)
    requires gc <= b.last <= now <= b.last + IDLE && InTime(rest, now)
    requires Asked(s, a, now).1 == Asked(s, b, now).1 ==>
               !SameAnswers(s, One(Asked(s, b, now).0, NextGC(gc, now)), map[KEY := Asked(s, a, now).0], rest)
    ensures !SameAnswers(s, One(b, gc), map[KEY := a], [Request(KEY, now)] + rest)
    ensures InTime([Request(KEY, now)] + rest, now)
  {
    OneAnswered(s, b, gc, now);
    hide Asked, Answered, One;
    var all := [Request(KEY, now)] + rest;
    assert all[0] == Request(KEY, now) && all[1..] == rest;
    assert map[KEY := a][KEY := Asked(s, a, now).0] == map[KEY := Asked(s, a, now).0];
  }

  /** A bucket idle too long is dropped, and the answer is a full one's. */
  lemma OneForgotten(s: Settings, l: Level, gc: real, now: real)
    requires gc <= l.last && now > l.last + IDLE
    ensures Answered(s, One(l, gc), KEY, now) == Answered(s, One(Full(s, now), now), KEY, now)
  {
    hide Asked;
    var h, full := One(l, gc), One(Full(s, now), now);
    assert Idlers(h.seen, now) == {KEY};
    var kept := Swept(h, now);
    assert kept.levels == map[] && kept.seen == map[] && kept.lastGC == now;
    assert Swept(full, now) == full;
    var after := Asked(s, Full(s, now), now).0;
    assert kept.levels[KEY := after] == full.levels[KEY := after];
    assert kept.seen[KEY := now] == full.seen[KEY := now];
  }

  /** A bucket that holds more than the ideal one is soon seen to. */
  lemma {:induction false} ToldApart(s: Settings, a: Level, b: Level, gc: real) returns (requests: seq<Request>)
    requires Sane(s, a) && Sane(s, b) && a.last == b.last && a.tokens < b.tokens && gc <= b.last
    ensures InTime(requests, b.last) && !SameAnswers(s, One(b, gc), map[KEY := a], requests)
    ensures b.tokens >= 1.0 ==> requests != [] && requests[0] == Request(KEY, b.last)
    decreases a.tokens.Floor
  {
    hide SameAnswers, Answered, Flow;
    if b.tokens < 1.0 {
      var now := b.last + (1.0 - b.tokens) / s.rate;
      Waiting(s.rate, 1.0 - b.tokens);
      requests := [Request(KEY, now)];
      FullAgain(s, b, gc, now);
      OneDiffers(s, One(b, gc), map[KEY := a], now);
    } else if a.tokens < 1.0 {
      requests := [Request(KEY, b.last)] + [];
      Preceded(s, a, b, gc, b.last, []);
    } else {
      var more := ToldApart(s, a.(tokens := a.tokens - 1.0), b.(tokens := b.tokens - 1.0), NextGC(gc, b.last));
      Preceded(s, a, b, gc, b.last, more);
      requests := [Request(KEY, b.last)] + more;
    }
  }

  lemma OneDiffers(s: Settings, h: Shelf, ideal: map<string, Level>, now: real)
    requires Answered(s, h, KEY, now).1 != Ideal(s, ideal, KEY, now).1
    ensures !SameAnswers(s, h, ideal, [Request(KEY, now)])
  {
    hide Answered, Ideal;
  }

  /** Whether it is kept until it has a token again or replaced by a full one, the bucket then grants one. */
  lemma FullAgain(s: Settings, l: Level, gc: real, now: real)
    requires Sane(s, l) && gc <= l.last < now && l.tokens + Flow(s.rate, now - l.last) >= 1.0
    ensures Answered(s, One(l, gc), KEY, now).1
  {
    if now <= l.last + IDLE {
      OneAnswered(s, l, gc, now);
    } else {
      OneForgotten(s, l, gc, now);
      OneAnswered(s, Full(s, now), now, now);
    }
  }

  lemma Waiting(rate: real, need: real)
    requires rate > 0.0 && need > 0.0
    ensures need / rate > 0.0 && Flow(rate, need / rate) == need
  {
  }

  /** A bucket left alone just long enough to be dropped, but not to fill up, is missed. */
  lemma LeftAlone(s: Settings, l: Level, gc: real) returns (requests: seq<Request>)
    requires Sane(s, l) && gc <= l.last && l.tokens + Flow(s.rate, IDLE) < s.capacity
    ensures InTime(requests, l.last) && !SameAnswers(s, One(l, gc), map[KEY := l], requests)
  {
    var idle := Between(s.rate, s.capacity - l.tokens);
    var now := l.last + idle;
    var kept := Refilled(s, l, now);
    FlowGrows(s.rate, 0.0, idle);
    FullIsSane(s, now);
    requests := ToldApart(s, kept, Full(s, now), now);
    OneForgotten(s, l, gc, now);
    assert Asked(s, kept, now) == Asked(s, l, now);
    assert map[KEY := kept][KEY := Asked(s, l, now).0] == map[KEY := l][KEY := Asked(s, l, now).0];
  }

  /** Some time past the idle time in which less than `need` flows in. */
  lemma Between(rate: real, need: real) returns (idle: real)
    requires rate > 0.0 && Flow(rate, IDLE) < need
    ensures idle > IDLE && Flow(rate, idle) < need
  {
    var full := need / rate;
    assert rate * full == need;
    if full <= IDLE {
      FlowGrows(rate, full, IDLE);
    }
    idle := (IDLE + full) / 2.0;
    FlowAdds(rate, IDLE / 2.0, full / 2.0);
  }

  /** Emptied as far as need be, and then left alone. */
  lemma {:induction false} UsedUp(s: Settings, l: Level, gc: real) returns (requests: seq<Request>)
    requires Sane(s, l) && !Forgiving(s) && gc <= l.last
    ensures InTime(requests, l.last) && !SameAnswers(s, One(l, gc), map[KEY := l], requests)
    ensures l.tokens >= 1.0 ==> requests != [] && requests[0] == Request(KEY, l.last)
    decreases l.tokens.Floor
  {
    hide SameAnswers, Answered;
    if l.tokens >= 1.0 {
      var more := UsedUp(s, Asked(s, l, l.last).0, NextGC(gc, l.last));
      Preceded(s, l, l, gc, l.last, more);
      requests := [Request(KEY, l.last)] + more;
    } else if l.tokens + Flow(s.rate, IDLE) < s.capacity {
      requests := LeftAlone(s, l, gc);
    } else {
      var wait := (1.0 - l.tokens) / s.rate;
      Waiting(s.rate, 1.0 - l.tokens);
      if wait > IDLE {
        FlowGrows(s.rate, IDLE, wait);
      }
      var now := l.last + wait;
      var more := LeftAlone(s, Asked(s, l, now).0, NextGC(gc, now));
      Preceded(s, l, l, gc, now, more);
      requests := [Request(KEY, now)] + more;
    }
  }

  /** From the very start, then, some requests are answered otherwise than by a limiter that never forgets. */
  lemma Noticed(s: Settings, start: real) returns (requests: seq<Request>)
    requires Safe(s) && !Forgiving(s)
    ensures InTime(requests, start) && !SameAnswers(s, Empty(start), map[], requests)
  {
    var full := Full(s, start);
    FullIsSane(s, start);
    requests := UsedUp(s, full, start);
    hide Asked;
    assert Swept(Empty(start), start) == Empty(start) && Swept(One(full, start), start) == One(full, start);
    var after := Asked(s, full, start).0;
    assert One(full, start).levels[KEY := after] == Empty(start).levels[KEY := after];
    assert One(full, start).seen[KEY := start] == Empty(start).seen[KEY := start];
    assert map[KEY := full][KEY := after] == map[][KEY := after];
  }
}
