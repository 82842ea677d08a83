/** The token-bucket limiter: cmd/server/rate_limit.go, with seconds and tokens as real numbers. */
module RateLimit {
  import opened CombatTypes

  type Key = Id

  datatype Bucket = Bucket(tokens: real, last: real)

  datatype Config = Config(rate: real, burst: real, ttl: real)

  datatype Call = Call(key: Key, at: real)

  /** The constructor's defaults: one per minute, and a burst of a minute's worth; buckets live for fifteen minutes. */
  function Configured(limitPerMinute: int, burst: int): Config {
    var limit := if limitPerMinute <= 0 then 1 else limitPerMinute;
    Config(limit as real / 60.0, (if burst <= 0 then limit else burst) as real, 900.0)
  }

  /** What flows into a bucket between two times. */
  function Flow(c: Config, from: real, to: real): real {
    (to - from) * c.rate
  }

  function Refilled(c: Config, b: Bucket, now: real): Bucket {
    if now - b.last > 0.0 then
      var tokens := b.tokens + Flow(c, b.last, now);
      Bucket(if tokens > c.burst then c.burst else tokens, now)
    else Bucket(b.tokens, now)
  }

  /** A bucket that does not exist yet is full. */
  function Topped(c: Config, b: Option<Bucket>, now: real): Bucket {
    Refilled(c, if b.Some? then b.value else Bucket(c.burst, now), now)
  }

  function Taken(b: Bucket): Bucket {
    if b.tokens < 1.0 then b else Bucket(b.tokens - 1.0, b.last)
  }

  function Evicted(c: Config, state: map<Key, Bucket>, now: real): map<Key, Bucket> {
    map k | k in state && now - state[k].last <= c.ttl :: state[k]
  }

  function Lookup(state: map<Key, Bucket>, key: Key): Option<Bucket> {
    if key in state then Some(state[key]) else None
  }

  function AllowSpec(c: Config, state: map<Key, Bucket>, call: Call): (map<Key, Bucket>, bool) {
    if call.key == [] then (state, false)
    else
      var live := Evicted(c, state, call.at);
      var b := Topped(c, Lookup(live, call.key), call.at);
      (live[call.key := Taken(b)], b.tokens >= 1.0)
  }

  /** The effect of a call in plain terms. */
  ghost predicate Metered(c: Config, before: map<Key, Bucket>, key: Key, now: real, after: map<Key, Bucket>, ok: bool) {
    if key == [] then !ok && after == before
    else
      var kept := key in before && now - before[key].last <= c.ttl;
      var idle := if kept && now > before[key].last then now - before[key].last else 0.0;
      var saved := if kept then before[key].tokens else c.burst;
      var tokens := if idle > 0.0 && saved + idle * c.rate > c.burst then c.burst else saved + idle * c.rate;
      && (forall k :: k in after <==> k == key || (k in before && now - before[k].last <= c.ttl))
      && (forall k :: k in after && k != key ==> k in before && after[k] == before[k])
      && after[key] == Bucket(if ok then tokens - 1.0 else tokens, now) && (ok <==> tokens >= 1.0)
  }

  lemma MeteredIs(c: Config, before: map<Key, Bucket>, key: Key, now: real)
    ensures var (after, ok) := AllowSpec(c, before, Call(key, now)); Metered(c, before, key, now, after, ok)
  {
  }

  class TokenBucketLimiter {
    const rate: real
    const burst: real
    const ttl: real
    var state: map<Key, Bucket>

    function Setup(): Config {
      Config(rate, burst, ttl)
    }

    constructor (limitPerMinute: int, burst: int)
      ensures Setup() == Configured(limitPerMinute, burst) && state == map[]
      ensures limitPerMinute > 0 ==> rate * 60.0 == limitPerMinute as real
      ensures limitPerMinute <= 0 ==> rate * 60.0 == 1.0
      ensures burst > 0 ==> this.burst == burst as real
      ensures burst <= 0 ==> this.burst == rate * 60.0
      ensures ttl == 15.0 * 60.0
    {
      var limit, size := limitPerMinute, burst;
      if limit <= 0 {
        limit := 1;
      }
      if size <= 0 {
        size := limit;
      }
      this.rate := limit as real / 60.0;
      this.burst := size as real;
      this.ttl := 900.0;
      this.state := map[];
    }

    method DropIdle(now: real)
      modifies this`state
      ensures state == Evicted(Setup(), old(state), now)
    {
      ghost var start := state;
      var pending := state.Keys;
      while pending != {}
        invariant pending <= state.Keys
        invariant state == map k | k in start && (k in pending || now - start[k].last <= ttl) :: start[k]
        decreases |pending|
      {
        var k :| k in pending;
        if now - state[k].last > ttl {
          state := state - {k};
        }
        pending := pending - {k};
      }
      assert state == Evicted(Setup(), start, now);
    }

    /** A call with a key drops every bucket that has been idle for more than the time to live; the key's own one is
        then filled up by what has flowed in since its last call, if any, and charged a token if it holds one. */
    method Allow(key: Key, now: real) returns (ok: bool)
      modifies this`state
      ensures (state, ok) == AllowSpec(Setup(), old(state), Call(key, now))
      ensures Metered(Setup(), old(state), key, now, state, ok)
    {
      hide Metered;
      MeteredIs(Setup(), state, key, now);
      if key == [] {
        return false;
      }
      ghost var live := Evicted(Setup(), state, now);
      DropIdle(now);
      hide Evicted;
      var bucket := if key in state then state[key] else Bucket(burst, now);
      var elapsed := now - bucket.last;
      if elapsed > 0.0 {
        bucket := bucket.(tokens := bucket.tokens + elapsed * rate);
        if bucket.tokens > burst {
          bucket := bucket.(tokens := burst);
        }
      }
      bucket := bucket.(last := now);
      assert bucket == Topped(Setup(), Lookup(live, key), now);
      if bucket.tokens < 1.0 {
        state := state[key := bucket];
        assert state == live[key := Taken(bucket)];
        return false;
      }
      ghost var topped := bucket;
      bucket := bucket.(tokens := bucket.tokens - 1.0);
      state := state[key := bucket];
      assert state == live[key := Taken(topped)];
      return true;
    }
  }

  // ---------- runs ----------

  function Answers(c: Config, state: map<Key, Bucket>, calls: seq<Call>): (answers: seq<bool>)
    ensures |answers| == |calls|
    decreases |calls|
  {
    if calls == [] then []
    else
      var (next, ok) := AllowSpec(c, state, calls[0]);
      [ok] + Answers(c, next, calls[1..])
  }

  /** One bucket that is never evicted, and only ever sees its own key's calls. */
  function Solo(c: Config, b: Option<Bucket>, times: seq<real>): (answers: seq<bool>)
    ensures |answers| == |times|
    decreases |times|
  {
    if times == [] then []
    else
      var full := Topped(c, b, times[0]);
      [full.tokens >= 1.0] + Solo(c, Some(Taken(full)), times[1..])
  }

  function TimesOf(calls: seq<Call>, key: Key): seq<real>
    decreases |calls|
  {
    if calls == [] then []
    else if calls[0].key == key then [calls[0].at] + TimesOf(calls[1..], key)
    else TimesOf(calls[1..], key)
  }

  function AnswersTo(calls: seq<Call>, answers: seq<bool>, key: Key): (mine: seq<bool>)
    requires |answers| == |calls|
    ensures |mine| == |TimesOf(calls, key)|
    decreases |calls|
  {
    if calls == [] then []
    else if calls[0].key == key then [answers[0]] + AnswersTo(calls[1..], answers[1..], key)
    else AnswersTo(calls[1..], answers[1..], key)
  }

  /** A clock that never runs backwards. */
  predicate InTimeOrder(calls: seq<Call>, since: real)
    decreases |calls|
  {
    calls != [] ==> since <= calls[0].at && InTimeOrder(calls[1..], calls[0].at)
  }

  predicate Ascending(times: seq<real>, since: real)
    decreases |times|
  {
    times != [] ==> since <= times[0] && Ascending(times[1..], times[0])
  }

  lemma {:induction false} AscendingEarlier(times: seq<real>, since: real, before: real)
    requires Ascending(times, since) && before <= since
    ensures Ascending(times, before)
  {
  }

  lemma {:induction false} TimesAscend(calls: seq<Call>, key: Key, since: real)
    requires InTimeOrder(calls, since)
    ensures Ascending(TimesOf(calls, key), since)
    decreases |calls|
  {
    if calls != [] {
      TimesAscend(calls[1..], key, calls[0].at);
      assert calls[0].key == key ==> TimesOf(calls, key)[1..] == TimesOf(calls[1..], key);
      AscendingEarlier(TimesOf(calls[1..], key), calls[0].at, since);
    }
  }

  /** How many of the calls at `times` inside the window [s, t] were granted. */
  function Granted(times: seq<real>, answers: seq<bool>, s: real, t: real): nat
    requires |times| == |answers|
    decreases |times|
  {
    if times == [] then 0
    else (if s <= times[0] <= t && answers[0] then 1 else 0) + Granted(times[1..], answers[1..], s, t)
  }

  // ---------- the window bound ----------

  predicate Usable(c: Config) {
    c.rate > 0.0 && c.burst >= 1.0 && c.ttl >= 0.0
  }

  predicate Level(c: Config, b: Option<Bucket>) {
    b.Some? ==> 0.0 <= b.value.tokens <= c.burst
  }

  /** What a bucket can still pay out before t: a full burst before the window, its own level inside it. */
  function Potential(c: Config, b: Option<Bucket>, s: real, t: real): real {
    if b.None? || b.value.last < s then c.burst + Flow(c, s, t)
    else if b.value.last <= t then b.value.tokens + Flow(c, b.value.last, t)
    else 0.0
  }

  lemma FlowAdds(c: Config, a: real, b: real, d: real)
    requires c.rate > 0.0 && a <= b <= d
    ensures Flow(c, a, b) + Flow(c, b, d) == Flow(c, a, d)
    ensures Flow(c, a, b) >= 0.0 && Flow(c, b, d) >= 0.0 && Flow(c, b, b) == 0.0
  {
  }

  lemma ReadyLevel(c: Config, b: Option<Bucket>, now: real)
    requires Usable(c) && Level(c, b) && (b.Some? ==> b.value.last <= now)
    ensures var r := Topped(c, b, now);
            && 0.0 <= r.tokens <= c.burst && r.last == now
            && (b.Some? ==> r.tokens <= b.value.tokens + Flow(c, b.value.last, now))
  {
    if b.Some? {
      FlowAdds(c, b.value.last, now, now);
    }
  }

  lemma PotentialPays(c: Config, b: Option<Bucket>, u: real, s: real, t: real)
    requires Usable(c) && Level(c, b) && s <= t && (b.Some? ==> b.value.last <= u)
    ensures var r := Topped(c, b, u);
            Potential(c, Some(Taken(r)), s, t) + (if s <= u <= t && r.tokens >= 1.0 then 1.0 else 0.0)
            <= Potential(c, b, s, t)
  {
    hide Topped, Flow;
    ReadyLevel(c, b, u);
    FlowAdds(c, s, t, t);
    if s <= u <= t {
      FlowAdds(c, s, u, t);
      if b.Some? && s <= b.value.last {
        FlowAdds(c, b.value.last, u, t);
      }
    } else if t < u && b.Some? && s <= b.value.last <= t {
      FlowAdds(c, b.value.last, t, t);
    }
  }

  /** A bucket's grants inside a window are covered by what it holds and what flows in. */
  lemma {:induction false} SoloBound(c: Config, b: Option<Bucket>, times: seq<real>, since: real, s: real, t: real)
    requires Usable(c) && Level(c, b) && s <= t
    requires Ascending(times, since) && (b.Some? ==> b.value.last <= since)
    ensures Granted(times, Solo(c, b, times), s, t) as real <= Potential(c, b, s, t)
    decreases |times|
  {
    hide Topped, Potential;
    PotentialPositive(c, b, s, t);
    if times != [] {
      var full := Topped(c, b, times[0]);
      ReadyLevel(c, b, times[0]);
      PotentialPays(c, b, times[0], s, t);
      SoloBound(c, Some(Taken(full)), times[1..], times[0], s, t);
      assert Solo(c, b, times)[1..] == Solo(c, Some(Taken(full)), times[1..]);
    }
  }

  lemma PotentialPositive(c: Config, b: Option<Bucket>, s: real, t: real)
    requires Usable(c) && Level(c, b) && s <= t
    ensures Potential(c, b, s, t) >= 0.0
  {
    hide Flow;
    FlowAdds(c, s, t, t);
    if b.Some? && s <= b.value.last <= t {
      FlowAdds(c, b.value.last, t, t);
    }
  }

  // ---------- eviction ----------

  /** The map still has the key's bucket, or has dropped it long enough ago. */
  predicate Tracks(c: Config, state: map<Key, Bucket>, key: Key, b: Option<Bucket>, now: real) {
    && Level(c, b)
    && (b.Some? ==> b.value.last <= now)
    && (if key in state then b == Some(state[key]) else b.Some? ==> now - b.value.last > c.ttl)
  }

  /** An idle bucket has filled up by the time it is evicted, when fifteen minutes' flow is at least a burst. */
  lemma IdleIsFull(c: Config, b: Bucket, now: real)
    requires Usable(c) && c.rate * c.ttl >= c.burst && 0.0 <= b.tokens <= c.burst && now - b.last > c.ttl
    ensures Refilled(c, b, now) == Bucket(c.burst, now)
  {
    FlowAdds(c, b.last, b.last + c.ttl, now);
  }

  lemma AllowTracks(c: Config, state: map<Key, Bucket>, call: Call, key: Key, b: Option<Bucket>, since: real)
    requires Usable(c) && c.rate * c.ttl >= c.burst && key != [] && since <= call.at
    requires Tracks(c, state, key, b, since)
    ensures var (next, ok) := AllowSpec(c, state, call);
            if call.key == key then
              var full := Topped(c, b, call.at);
              ok == (full.tokens >= 1.0) && Tracks(c, next, key, Some(Taken(full)), call.at)
            else Tracks(c, next, key, b, call.at)
  {
    hide Refilled;
    if call.key == key {
      ReadyLevel(c, b, call.at);
      if b.Some? && call.at - b.value.last > c.ttl {
        IdleIsFull(c, b.value, call.at);
        assert key !in Evicted(c, state, call.at);
        RefilledAtOnce(c, call.at);
      }
    }
  }

  lemma RefilledAtOnce(c: Config, now: real)
    ensures Refilled(c, Bucket(c.burst, now), now) == Bucket(c.burst, now)
  {
  }

  /** Then a key gets the answers of a bucket of its own that is never evicted, whatever the other keys do. */
  lemma {:induction false} RunIsSolo(c: Config, state: map<Key, Bucket>, calls: seq<Call>, key: Key,
                                     b: Option<Bucket>, since: real)
    requires Usable(c) && c.rate * c.ttl >= c.burst && key != [] && InTimeOrder(calls, since)
    requires Tracks(c, state, key, b, since)
    ensures AnswersTo(calls, Answers(c, state, calls), key) == Solo(c, b, TimesOf(calls, key))
    decreases |calls|
  {
    hide AllowSpec, Topped, Tracks, Taken;
    if calls != [] {
      var call := calls[0];
      var (next, ok) := AllowSpec(c, state, call);
      AllowTracks(c, state, call, key, b, since);
      assert Answers(c, state, calls)[1..] == Answers(c, next, calls[1..]);
      if call.key == key {
        var full := Topped(c, b, call.at);
        RunIsSolo(c, next, calls[1..], key, Some(Taken(full)), call.at);
        assert TimesOf(calls, key)[1..] == TimesOf(calls[1..], key);
      } else {
        RunIsSolo(c, next, calls[1..], key, b, call.at);
      }
    }
  }

  // ---------- exactly when eviction goes unnoticed ----------

  function Grants(c: Config, calls: seq<Call>, key: Key, s: real, t: real): nat {
    Granted(TimesOf(calls, key), AnswersTo(calls, Answers(c, map[], calls), key), s, t)
  }

  /** Every key sees a bucket of its own that is never evicted, in every run from an empty limiter. */
  ghost predicate Unnoticed(c: Config) {
    forall calls, key, since :: key != [] && InTimeOrder(calls, since) ==>
      AnswersTo(calls, Answers(c, map[], calls), key) == Solo(c, None, TimesOf(calls, key))
  }

  /** No key is ever granted more than a burst and the flow of the window, in any window of any run. */
  ghost predicate Bounded(c: Config) {
    forall calls, key, since, s, t :: key != [] && InTimeOrder(calls, since) && s <= t ==>
      Grants(c, calls, key, s, t) as real <= c.burst + Flow(c, s, t)
  }

  lemma UnnoticedIsBounded(c: Config)
    requires Usable(c) && Unnoticed(c)
    ensures Bounded(c)
  {
    forall calls, key, since, s, t | key != [] && InTimeOrder(calls, since) && s <= t
      ensures Grants(c, calls, key, s, t) as real <= c.burst + Flow(c, s, t)
    {
      TimesAscend(calls, key, since);
      SoloBound(c, None, TimesOf(calls, key), since, s, t);
    }
  }

  lemma FullBucketsGoUnnoticed(c: Config)
    requires Usable(c) && c.rate * c.ttl >= c.burst
    ensures Unnoticed(c)
  {
    forall calls, key, since | key != [] && InTimeOrder(calls, since)
      ensures AnswersTo(calls, Answers(c, map[], calls), key) == Solo(c, None, TimesOf(calls, key))
    {
      RunIsSolo(c, map[], calls, key, None, since);
    }
  }

  function Repeat(key: Key, at: real, n: nat): (calls: seq<Call>)
    ensures |calls| == n
  {
    if n == 0 then [] else [Call(key, at)] + Repeat(key, at, n - 1)
  }

  lemma TakeOne(c: Config, key: Key, at: real, k: nat)
    requires Usable(c) && key != [] && 1 <= k && k as real <= c.burst
    ensures AllowSpec(c, map[key := Bucket(k as real, at)], Call(key, at))
         == (map[key := Bucket((k - 1) as real, at)], true)
  {
    var state := map[key := Bucket(k as real, at)];
    assert Evicted(c, state, at) == state;
    assert Topped(c, Lookup(state, key), at) == Bucket(k as real, at);
    assert state[key := Bucket((k - 1) as real, at)] == map[key := Bucket((k - 1) as real, at)];
  }

  lemma TakeFirst(c: Config, state: map<Key, Bucket>, key: Key, at: real, n: nat)
    requires Usable(c) && key != [] && n >= 1 && c.burst == n as real && Evicted(c, state, at) == map[]
    ensures AllowSpec(c, state, Call(key, at)) == (map[key := Bucket((n - 1) as real, at)], true)
  {
  }

  /** The first call of a run, when it is the key's own. */
  lemma FirstAnswer(c: Config, state: map<Key, Bucket>, call: Call, rest: seq<Call>)
    ensures var (next, ok) := AllowSpec(c, state, call);
            && AnswersTo([call] + rest, Answers(c, state, [call] + rest), call.key)
               == [ok] + AnswersTo(rest, Answers(c, next, rest), call.key)
            && TimesOf([call] + rest, call.key) == [call.at] + TimesOf(rest, call.key)
  {
    hide AllowSpec;
    var calls := [call] + rest;
    var (next, ok) := AllowSpec(c, state, call);
    assert calls[1..] == rest;
    assert Answers(c, state, calls)[1..] == Answers(c, next, rest);
  }

  lemma OneMoreGrant(n: nat, at: real, answers: seq<bool>, times: seq<real>)
    requires n > 0
    ensures [true] + (seq(n - 1, _ => true) + answers) == seq(n, _ => true) + answers
    ensures [at] + (seq(n - 1, _ => at) + times) == seq(n, _ => at) + times
  {
  }

  /** A bucket with k tokens grants k calls at once. */
  lemma {:induction false} BucketDrains(c: Config, state: map<Key, Bucket>, key: Key, at: real, k: nat,
                                        later: seq<Call>)
    requires Usable(c) && key != [] && state == map[key := Bucket(k as real, at)] && k as real <= c.burst
    ensures AnswersTo(Repeat(key, at, k) + later, Answers(c, state, Repeat(key, at, k) + later), key)
            == seq(k, _ => true) + AnswersTo(later, Answers(c, map[key := Bucket(0.0, at)], later), key)
    ensures TimesOf(Repeat(key, at, k) + later, key) == seq(k, _ => at) + TimesOf(later, key)
  {
    hide AllowSpec, Answers, AnswersTo, TimesOf;
    if k == 0 {
      assert Repeat(key, at, k) + later == later;
      assert seq(k, _ => true) == [] && seq(k, _ => at) == [];
    } else {
      var next, rest := map[key := Bucket((k - 1) as real, at)], Repeat(key, at, k - 1) + later;
      assert Repeat(key, at, k) + later == [Call(key, at)] + rest;
      TakeOne(c, key, at, k);
      FirstAnswer(c, state, Call(key, at), rest);
      BucketDrains(c, next, key, at, k - 1, later);
      OneMoreGrant(k, at, AnswersTo(later, Answers(c, map[key := Bucket(0.0, at)], later), key), TimesOf(later, key));
    }
  }

  /** A new key, or one whose bucket was just evicted, is granted a whole burst. */
  lemma FreshBurst(c: Config, state: map<Key, Bucket>, key: Key, at: real, n: nat, later: seq<Call>)
    requires Usable(c) && key != [] && n >= 1 && c.burst == n as real && Evicted(c, state, at) == map[]
    ensures var calls := Repeat(key, at, n) + later;
            && AnswersTo(calls, Answers(c, state, calls), key)
               == seq(n, _ => true) + AnswersTo(later, Answers(c, map[key := Bucket(0.0, at)], later), key)
            && TimesOf(calls, key) == seq(n, _ => at) + TimesOf(later, key)
  {
    hide AllowSpec, Evicted, Answers, AnswersTo, TimesOf;
    var next, rest := map[key := Bucket((n - 1) as real, at)], Repeat(key, at, n - 1) + later;
    assert Repeat(key, at, n) + later == [Call(key, at)] + rest;
    TakeFirst(c, state, key, at, n);
    FirstAnswer(c, state, Call(key, at), rest);
    BucketDrains(c, next, key, at, n - 1, later);
    OneMoreGrant(n, at, AnswersTo(later, Answers(c, map[key := Bucket(0.0, at)], later), key), TimesOf(later, key));
  }

  lemma {:induction false} AllGranted(times: seq<real>, answers: seq<bool>, s: real, t: real)
    requires |times| == |answers|
    requires forall i :: 0 <= i < |times| ==> s <= times[i] <= t && answers[i]
    ensures Granted(times, answers, s, t) == |times|
    decreases |times|
  {
    if times != [] {
      AllGranted(times[1..], answers[1..], s, t);
    }
  }

  lemma {:induction false} RepeatIsClocked(key: Key, at: real, n: nat, later: seq<Call>, since: real)
    requires since <= at && InTimeOrder(later, at)
    ensures InTimeOrder(Repeat(key, at, n) + later, since)
  {
    var calls := Repeat(key, at, n) + later;
    if n == 0 {
      assert calls == later;
    } else {
      assert calls[1..] == Repeat(key, at, n - 1) + later;
      RepeatIsClocked(key, at, n - 1, later, at);
    }
  }

  /** Where a bucket is evicted before it is full again, waiting out its eviction buys a second burst too early. */
  lemma SlowFlowIsNoticed(c: Config, n: nat)
    requires Usable(c) && n >= 1 && c.burst == n as real && c.rate * c.ttl < c.burst
    ensures !Bounded(c)
  {
    var key: Key := [1];
    var late := c.ttl + (c.burst - c.rate * c.ttl) / (2.0 * c.rate);
    assert late > c.ttl && Flow(c, 0.0, late) < c.burst by { SecondBurst(c); }
    var again := Repeat(key, late, n) + [];
    var calls := Repeat(key, 0.0, n) + again;
    RepeatIsClocked(key, late, n, [], 0.0);
    RepeatIsClocked(key, 0.0, n, again, 0.0);
    FreshBurst(c, map[], key, 0.0, n, again);
    FreshBurst(c, map[key := Bucket(0.0, 0.0)], key, late, n, []);
    var times, answers := TimesOf(calls, key), AnswersTo(calls, Answers(c, map[], calls), key);
    AllGranted(times, answers, 0.0, late);
    assert Grants(c, calls, key, 0.0, late) == 2 * n;
  }

  lemma SecondBurst(c: Config)
    requires Usable(c) && c.rate * c.ttl < c.burst
    ensures var late := c.ttl + (c.burst - c.rate * c.ttl) / (2.0 * c.rate);
            late > c.ttl && Flow(c, 0.0, late) < c.burst
  {
    var gap := (c.burst - c.rate * c.ttl) / (2.0 * c.rate);
    assert gap * (2.0 * c.rate) == c.burst - c.rate * c.ttl;
    assert gap * c.rate == (c.burst - c.rate * c.ttl) / 2.0;
    assert gap > 0.0;
    assert (c.ttl + gap) * c.rate == c.ttl * c.rate + gap * c.rate;
  }

  /**
   Eviction goes unnoticed, and every window's grants stay within a burst and its flow, exactly when a bucket fills up
   before it is evicted.
   */
  lemma EvictionIsUnnoticedExactly(c: Config, n: nat)
    requires Usable(c) && n >= 1 && c.burst == n as real
    ensures Unnoticed(c) <==> c.rate * c.ttl >= c.burst
    ensures Bounded(c) <==> c.rate * c.ttl >= c.burst
  {
    hide Unnoticed, Bounded;
    if c.rate * c.ttl >= c.burst {
      FullBucketsGoUnnoticed(c);
      UnnoticedIsBounded(c);
    } else {
      SlowFlowIsNoticed(c, n);
      if Unnoticed(c) {
        UnnoticedIsBounded(c);
      }
    }
  }

  /** For a limiter built from `limitPerMinute` and a positive `burst`: exactly up to fifteen minutes' worth of
      calls. */
  lemma BuiltLimiters(limitPerMinute: int, burst: int)
    ensures var c := Configured(limitPerMinute, burst);
            var limit := if limitPerMinute <= 0 then 1 else limitPerMinute;
            && Usable(c)
            && (Unnoticed(c) <==> burst <= 15 * limit)
            && (Bounded(c) <==> burst <= 15 * limit)
  {
    hide Unnoticed, Bounded;
    var c := Configured(limitPerMinute, burst);
    var limit := if limitPerMinute <= 0 then 1 else limitPerMinute;
    var n := if burst <= 0 then limit else burst;
    assert c.rate * c.ttl == (15 * limit) as real;
    EvictionIsUnnoticedExactly(c, n);
  }

  /** The server's three limiters: logins, queueing and actions. */
  lemma ServerLimiters()
    ensures forall c :: c in [Configured(5, 3), Configured(10, 10), Configured(30, 30)] ==> Unnoticed(c) && Bounded(c)
  {
    hide Unnoticed, Bounded;
    BuiltLimiters(5, 3);
    BuiltLimiters(10, 10);
    BuiltLimiters(30, 30);
  }

  /** A call without a key is never granted. */
  lemma {:induction false} NoKeyNoGrant(c: Config, state: map<Key, Bucket>, calls: seq<Call>, i: nat)
    requires i < |calls| && calls[i].key == []
    ensures !Answers(c, state, calls)[i]
    decreases i
  {
    if i > 0 {
      var (next, ok) := AllowSpec(c, state, calls[0]);
      assert Answers(c, state, calls)[1..] == Answers(c, next, calls[1..]);
      NoKeyNoGrant(c, next, calls[1..], i - 1);
    }
  }
}
