/** The limiter is exact: it refuses a call only when granting it would break the bound on some window. */
module RateExact {
  import opened CombatTypes
  import opened RateLimit

  lemma {:induction false} GrantedConcat(a: seq<real>, x: seq<bool>, b: seq<real>, y: seq<bool>, s: real, t: real)
    requires |a| == |x| && |b| == |y|
    ensures Granted(a + b, x + y, s, t) == Granted(a, x, s, t) + Granted(b, y, s, t)
    decreases |a|
  {
    if a == [] {
      assert a + b == b && x + y == y;
    } else {
      GrantedConcat(a[1..], x[1..], b, y, s, t);
      assert (a + b)[1..] == a[1..] + b && (x + y)[1..] == x[1..] + y;
    }
  }

  /** Only the calls inside a window matter to it. */
  lemma {:induction false} GrantedUntil(times: seq<real>, answers: seq<bool>, s: real, t: real, u: real)
    requires |times| == |answers| && t <= u && forall i :: 0 <= i < |times| ==> times[i] <= t
    ensures Granted(times, answers, s, u) == Granted(times, answers, s, t)
    decreases |times|
  {
    if times != [] {
      GrantedUntil(times[1..], answers[1..], s, t, u);
    }
  }

  lemma {:induction false} NothingGranted(times: seq<real>, answers: seq<bool>, s: real, t: real)
    requires |times| == |answers| && forall i :: 0 <= i < |times| ==> times[i] < s
    ensures Granted(times, answers, s, t) == 0
    decreases |times|
  {
    if times != [] {
      NothingGranted(times[1..], answers[1..], s, t);
    }
  }

  // ---------- the account of a bucket ----------

  /** What is in the bucket is a burst and all that has flowed in since `s`, less what was granted since. */
  ghost predicate Accounts(c: Config, b: Bucket, past: seq<real>, got: seq<bool>, s: real) {
    && |past| == |got| && s <= b.last
    && (forall i :: 0 <= i < |past| ==> past[i] <= b.last)
    && b.tokens == c.burst + Flow(c, s, b.last) - Granted(past, got, s, b.last) as real
  }

  /** A bucket that is filled up keeps its account, or opens a new one when it is full. */
  lemma ToppedAccounts(c: Config, b: Bucket, past: seq<real>, got: seq<bool>, s: real, now: real) returns (from: real)
    requires Usable(c) && Accounts(c, b, past, got, s) && b.last <= now && b.tokens <= c.burst
    ensures Accounts(c, Topped(c, Some(b), now), past, got, from) && Topped(c, Some(b), now).last == now
  {
    hide Flow;
    var full := Topped(c, Some(b), now);
    if b.tokens + Flow(c, b.last, now) > c.burst && b.last < now {
      from := now;
      NothingGranted(past, got, now, now);
      FlowAdds(c, b.last, now, now);
    } else {
      from := s;
      GrantedUntil(past, got, s, b.last, now);
      FlowAdds(c, s, b.last, now);
      FlowAdds(c, b.last, b.last, now);
    }
  }

  lemma TakenAccounts(c: Config, full: Bucket, past: seq<real>, got: seq<bool>, s: real)
    requires Accounts(c, full, past, got, s)
    ensures Accounts(c, Taken(full), past + [full.last], got + [full.tokens >= 1.0], s)
  {
    GrantedConcat(past, got, [full.last], [full.tokens >= 1.0], s, full.last);
    hide Flow;
  }

  lemma {:induction false} RefusedFor(c: Config, b: Bucket, past: seq<real>, got: seq<bool>, s: real, times: seq<real>,
                                      i: nat) returns (from: real)
    requires Usable(c) && Accounts(c, b, past, got, s) && 0.0 <= b.tokens <= c.burst && Ascending(times, b.last)
    requires i < |times| && !Solo(c, Some(b), times)[i]
    ensures from <= times[i] && |past| == |got|
    ensures Granted(past + times[..i], got + Solo(c, Some(b), times)[..i], from, times[i]) as real + 1.0
            > c.burst + Flow(c, from, times[i])
    decreases |times|
  {
    hide Topped, Flow, Granted;
    var u, full, answers := times[0], Topped(c, Some(b), times[0]), Solo(c, Some(b), times);
    var from1 := ToppedAccounts(c, b, past, got, s, u);
    ReadyLevel(c, Some(b), u);
    if i == 0 {
      from := from1;
      assert past + times[..0] == past && got + answers[..0] == got;
    } else {
      TakenAccounts(c, full, past, got, from1);
      var ok := full.tokens >= 1.0;
      assert answers[1..] == Solo(c, Some(Taken(full)), times[1..]) && answers[0] == ok;
      from := RefusedFor(c, Taken(full), past + [u], got + [ok], from1, times[1..], i - 1);
      assert past + times[..i] == past + [u] + times[1..][..i - 1];
      assert got + answers[..i] == got + [ok] + answers[1..][..i - 1];
    }
  }

  // ---------- exactness ----------

  /** One more grant at `t` would keep within a burst and the flow of the window from `s`. */
  predicate Affords(c: Config, times: seq<real>, answers: seq<bool>, s: real, t: real)
    requires |times| == |answers|
  {
    Granted(times, answers, s, t) as real + 1.0 <= c.burst + Flow(c, s, t)
  }

  /** The i-th call is granted exactly when every window that it ends affords it. */
  ghost predicate Exact(c: Config, times: seq<real>, answers: seq<bool>, i: nat)
    requires |times| == |answers| && i < |times|
  {
    answers[i] <==> forall s :: s <= times[i] ==> Affords(c, times[..i], answers[..i], s, times[i])
  }

  lemma {:induction false} SoloPrefix(c: Config, b: Option<Bucket>, times: seq<real>, n: nat)
    requires n <= |times|
    ensures Solo(c, b, times[..n]) == Solo(c, b, times)[..n]
    decreases |times|
  {
    hide Topped, Taken;
    if n > 0 {
      SoloPrefix(c, Some(Taken(Topped(c, b, times[0]))), times[1..], n - 1);
      assert times[..n][1..] == times[1..][..n - 1];
    }
  }

  lemma {:induction false} AscendingPrefix(times: seq<real>, since: real, n: nat)
    requires Ascending(times, since) && n <= |times|
    ensures Ascending(times[..n], since) && forall i :: 0 <= i < n ==> since <= times[i] <= times[n - 1]
    decreases |times|
  {
    if n > 0 {
      AscendingPrefix(times[1..], times[0], n - 1);
      assert times[..n][1..] == times[1..][..n - 1];
      forall i | 0 <= i < n ensures since <= times[i] <= times[n - 1] {
        if i > 0 {
          assert times[i] == times[1..][i - 1] && times[n - 1] == times[1..][n - 2];
        } else if n > 1 {
          assert times[n - 1] == times[1..][n - 2];
        }
      }
    }
  }

  /** A call that is granted breaks the bound on no window. */
  lemma GrantsAreAfforded(c: Config, times: seq<real>, since: real, i: nat, s: real)
    requires Usable(c) && Ascending(times, since) && i < |times| && Solo(c, None, times)[i] && s <= times[i]
    ensures Affords(c, times[..i], Solo(c, None, times)[..i], s, times[i])
  {
    hide Topped, Flow, Granted;
    var answers := Solo(c, None, times);
    SoloPrefix(c, None, times, i + 1);
    AscendingPrefix(times, since, i + 1);
    SoloBound(c, None, times[..i + 1], since, s, times[i]);
    GrantedConcat(times[..i], answers[..i], [times[i]], [true], s, times[i]);
    assert times[..i + 1] == times[..i] + [times[i]] && answers[..i + 1] == answers[..i] + [true];
    OneGrant(s, times[i]);
  }

  lemma OneGrant(s: real, t: real)
    requires s <= t
    ensures Granted([t], [true], s, t) == 1
  {
  }

  /** A call that is refused is refused for good reason. */
  lemma RefusalsAreForced(c: Config, times: seq<real>, since: real, i: nat) returns (s: real)
    requires Usable(c) && Ascending(times, since) && i < |times| && !Solo(c, None, times)[i]
    ensures s <= times[i] && !Affords(c, times[..i], Solo(c, None, times)[..i], s, times[i])
  {
    var u, answers := times[0], Solo(c, None, times);
    var full := Topped(c, None, u);
    assert full == Bucket(c.burst, u) && answers[0];
    OneGrant(u, u);
    FlowAdds(c, u, u, u);
    assert Accounts(c, Taken(full), [u], [true], u);
    hide Topped, Flow, Granted;
    assert answers[1..] == Solo(c, Some(Taken(full)), times[1..]);
    s := RefusedFor(c, Taken(full), [u], [true], u, times[1..], i - 1);
    assert times[..i] == [u] + times[1..][..i - 1] && answers[..i] == [true] + answers[1..][..i - 1];
  }

  /** A bucket of its own grants a call exactly when no window forbids it: it saves up every fraction of a token, and
      charges for nothing else. */
  lemma SoloIsExact(c: Config, times: seq<real>, since: real, i: nat)
    requires Usable(c) && Ascending(times, since) && i < |times|
    ensures Exact(c, times, Solo(c, None, times), i)
  {
    hide Solo, Affords;
    var answers := Solo(c, None, times);
    if answers[i] {
      forall s | s <= times[i] ensures Affords(c, times[..i], answers[..i], s, times[i]) {
        GrantsAreAfforded(c, times, since, i, s);
      }
    } else {
      var s := RefusalsAreForced(c, times, since, i);
    }
  }

  /** Every call of every run from an empty limiter is decided like this by its own key's calls alone. */
  ghost predicate DecidesExactly(c: Config) {
    forall calls, key, since, i ::
      key != [] && InTimeOrder(calls, since) && 0 <= i < |TimesOf(calls, key)| ==>
        Exact(c, TimesOf(calls, key), AnswersTo(calls, Answers(c, map[], calls), key), i)
  }

  lemma FullBucketsDecideExactly(c: Config)
    requires Usable(c) && c.rate * c.ttl >= c.burst
    ensures DecidesExactly(c)
  {
    hide Exact, TimesOf, AnswersTo, Answers, Solo;
    forall calls, key, since, i | key != [] && InTimeOrder(calls, since) && 0 <= i < |TimesOf(calls, key)|
      ensures Exact(c, TimesOf(calls, key), AnswersTo(calls, Answers(c, map[], calls), key), i)
    {
      RunIsSolo(c, map[], calls, key, None, since);
      TimesAscend(calls, key, since);
      SoloIsExact(c, TimesOf(calls, key), since, i);
    }
  }

  /** What is decided exactly is bounded. */
  lemma {:induction false} ExactIsBounded(c: Config, times: seq<real>, answers: seq<bool>, since: real,
                                          s: real, t: real)
    requires Usable(c) && |times| == |answers| && Ascending(times, since) && s <= t
    requires forall i :: 0 <= i < |times| ==> Exact(c, times, answers, i)
    ensures Granted(times, answers, s, t) as real <= c.burst + Flow(c, s, t)
    decreases |times|
  {
    hide Flow, Granted;
    FlowAdds(c, s, t, t);
    if times == [] {
      NothingGranted(times, answers, s, t);
    } else {
      var n := |times| - 1;
      var u := times[n];
      AscendingPrefix(times, since, n);
      AscendingPrefix(times, since, n + 1);
      forall i | 0 <= i < n ensures Exact(c, times[..n], answers[..n], i) {
        assert Exact(c, times, answers, i);
        assert times[..n][..i] == times[..i] && answers[..n][..i] == answers[..i];
      }
      ExactIsBounded(c, times[..n], answers[..n], since, s, t);
      GrantedConcat(times[..n], answers[..n], [u], [answers[n]], s, t);
      assert times == times[..n] + [u] && answers == answers[..n] + [answers[n]];
      LastGrant(u, answers[n], s, t);
      if s <= u <= t && answers[n] {
        assert Exact(c, times, answers, n);
        assert Affords(c, times[..n], answers[..n], s, u);
        GrantedUntil(times[..n], answers[..n], s, u, t);
        FlowAdds(c, s, u, t);
      }
    }
  }

  lemma LastGrant(u: real, ok: bool, s: real, t: real)
    ensures Granted([u], [ok], s, t) == if s <= u <= t && ok then 1 else 0
  {
  }

  /** A limiter grants exactly the calls that every window affords if and only if a bucket fills up before it is
      evicted. */
  lemma ExactlyWhenUnnoticed(c: Config, n: nat)
    requires Usable(c) && n >= 1 && c.burst == n as real
    ensures DecidesExactly(c) <==> c.rate * c.ttl >= c.burst
  {
    hide Bounded, DecidesExactly, Unnoticed;
    if c.rate * c.ttl >= c.burst {
      FullBucketsDecideExactly(c);
    } else if DecidesExactly(c) {
      DecidedIsBounded(c);
      EvictionIsUnnoticedExactly(c, n);
    }
  }

  lemma DecidedIsBounded(c: Config)
    requires Usable(c) && DecidesExactly(c)
    ensures Bounded(c)
  {
    hide Exact, TimesOf, AnswersTo, Answers, Flow;
    forall calls, key, since, s, t | key != [] && InTimeOrder(calls, since) && s <= t
      ensures Grants(c, calls, key, s, t) as real <= c.burst + Flow(c, s, t)
    {
      TimesAscend(calls, key, since);
      ExactIsBounded(c, TimesOf(calls, key), AnswersTo(calls, Answers(c, map[], calls), key), since, s, t);
    }
  }

  /** The server's three limiters decide exactly. */
  lemma ServerLimitersAreExact()
    ensures forall c :: c in [Configured(5, 3), Configured(10, 10), Configured(30, 30)] ==> DecidesExactly(c)
  {
    hide DecidesExactly;
    ExactlyWhenUnnoticed(Configured(5, 3), 3);
    ExactlyWhenUnnoticed(Configured(10, 10), 10);
    ExactlyWhenUnnoticed(Configured(30, 30), 30);
  }
}
