/**
 The waiting queue: internal/lobby/service.go. The class keeps the source's three fields; the protocol over whole
 runs is stated on their values.
 */
module Lobby {
  import opened CombatTypes

  type Time = int

  // ---------- the queue as a value ----------

  predicate NoRepeats(queue: seq<Id>) {
    forall i, j :: 0 <= i < j < |queue| ==> queue[i] != queue[j]
  }

  datatype Waiting = Waiting(sessions: set<Id>, queuedAt: map<Id, Time>, queue: seq<Id>) {
    /** No player waits twice, exactly the waiting ones have a queueing time, and all of them are registered. */
    predicate Valid() {
      && NoRepeats(queue)
      && (forall i :: 0 <= i < |queue| ==> queue[i] in queuedAt)
      && (forall id :: id in queuedAt ==> id in queue)
      && queuedAt.Keys <= sessions
    }

    /** Players wait in the order in which they joined. */
    predicate InOrder() {
      forall i, j :: 0 <= i < j < |queue| && queue[i] in queuedAt && queue[j] in queuedAt ==>
        queuedAt[queue[i]] <= queuedAt[queue[j]]
    }
  }

  /** The queue without the players that `gone` rejects. */
  function Keep(queue: seq<Id>, gone: set<Id>): (kept: seq<Id>)
    ensures |kept| <= |queue|
  {
    if queue == [] then []
    else
      var n := |queue| - 1;
      if queue[n] in gone then Keep(queue[..n], gone) else Keep(queue[..n], gone) + [queue[n]]
  }

  lemma {:induction false} KeepMembers(queue: seq<Id>, gone: set<Id>)
    ensures forall id :: id in Keep(queue, gone) <==> id in queue && id !in gone
  {
    if queue != [] {
      var n := |queue| - 1;
      assert queue == queue[..n] + [queue[n]];
      KeepMembers(queue[..n], gone);
    }
  }

  lemma {:induction false} KeepDistinct(queue: seq<Id>, gone: set<Id>)
    requires NoRepeats(queue)
    ensures NoRepeats(Keep(queue, gone))
  {
    if queue != [] {
      var n := |queue| - 1;
      KeepDistinct(queue[..n], gone);
      KeepMembers(queue[..n], gone);
      var rest := Keep(queue[..n], gone);
      forall i | 0 <= i < |rest| ensures rest[i] != queue[n] {
        assert rest[i] in queue[..n];
      }
    }
  }

  /** Removal keeps the order: who was ahead stays ahead. */
  lemma {:induction false} KeepOrder(queue: seq<Id>, gone: set<Id>, i: nat, j: nat) returns (a: nat, b: nat)
    requires i < j < |Keep(queue, gone)|
    ensures a < b < |queue| && queue[a] == Keep(queue, gone)[i] && queue[b] == Keep(queue, gone)[j]
  {
    var n := |queue| - 1;
    var rest := Keep(queue[..n], gone);
    if queue[n] in gone || j < |rest| {
      a, b := KeepOrder(queue[..n], gone, i, j);
    } else {
      b := n;
      KeepMembers(queue[..n], gone);
      assert rest[i] in queue[..n];
      a :| 0 <= a < n && queue[..n][a] == rest[i];
    }
  }

  function JoinSpec(w: Waiting, id: Id, now: Time): Waiting {
    if id !in w.sessions || id in w.queuedAt then w
    else w.(queue := w.queue + [id], queuedAt := w.queuedAt[id := now])
  }

  function LeaveSpec(w: Waiting, id: Id): Waiting {
    if id !in w.queuedAt then w
    else w.(queue := Keep(w.queue, {id}), queuedAt := w.queuedAt - {id})
  }

  function Expired(w: Waiting, now: Time, timeout: Time): set<Id> {
    if timeout <= 0 then {} else set id | id in w.queuedAt && now - w.queuedAt[id] >= timeout
  }

  /** The queue after the timed-out players have left. */
  function Unexpired(w: Waiting, now: Time, timeout: Time): Waiting {
    var gone := Expired(w, now, timeout);
    w.(queue := Keep(w.queue, gone), queuedAt := w.queuedAt - gone)
  }

  function PopSpec(w: Waiting, now: Time, timeout: Time): Waiting {
    var f := Unexpired(w, now, timeout);
    if |f.queue| < 2 then f
    else f.(queue := f.queue[2..], queuedAt := f.queuedAt - {f.queue[0], f.queue[1]})
  }

  /** The pair a pop returns. */
  function PairSpec(w: Waiting, now: Time, timeout: Time): Option<(Id, Id)> {
    var f := Unexpired(w, now, timeout);
    if |f.queue| < 2 then None else Some((f.queue[0], f.queue[1]))
  }

  function PairOf(pair: Option<(Id, Id)>): seq<Id> {
    match pair case None => [] case Some(p) => [p.0, p.1]
  }

  // ---------- what every operation keeps ----------

  lemma JoinKeeps(w: Waiting, id: Id, now: Time)
    requires w.Valid()
    ensures JoinSpec(w, id, now).Valid()
    ensures w.InOrder() && (forall other :: other in w.queuedAt ==> w.queuedAt[other] <= now) ==>
              JoinSpec(w, id, now).InOrder()
  {
    var v := JoinSpec(w, id, now);
    if v != w {
      assert id !in w.queue;
      forall x | x in v.queuedAt ensures x in v.queue {
        if x == id {
          assert v.queue[|w.queue|] == id;
        } else {
          var i :| 0 <= i < |w.queue| && w.queue[i] == x;
          assert v.queue[i] == x;
        }
      }
    }
  }

  lemma FilterKeeps(w: Waiting, gone: set<Id>)
    requires w.Valid()
    ensures w.(queue := Keep(w.queue, gone), queuedAt := w.queuedAt - gone).Valid()
    ensures w.InOrder() ==> w.(queue := Keep(w.queue, gone), queuedAt := w.queuedAt - gone).InOrder()
  {
    KeepDistinct(w.queue, gone);
    KeepMembers(w.queue, gone);
    var v := w.(queue := Keep(w.queue, gone), queuedAt := w.queuedAt - gone);
    forall i | 0 <= i < |v.queue| ensures v.queue[i] in v.queuedAt {
      assert v.queue[i] in Keep(w.queue, gone);
    }
    if w.InOrder() {
      forall i, j | 0 <= i < j < |v.queue| && v.queue[i] in v.queuedAt && v.queue[j] in v.queuedAt
        ensures v.queuedAt[v.queue[i]] <= v.queuedAt[v.queue[j]]
      {
        var a, b := KeepOrder(w.queue, gone, i, j);
      }
    }
  }

  lemma LeaveKeeps(w: Waiting, id: Id)
    requires w.Valid()
    ensures LeaveSpec(w, id).Valid() && (w.InOrder() ==> LeaveSpec(w, id).InOrder())
  {
    FilterKeeps(w, {id});
  }

  lemma PopKeeps(w: Waiting, now: Time, timeout: Time)
    requires w.Valid()
    ensures PopSpec(w, now, timeout).Valid() && (w.InOrder() ==> PopSpec(w, now, timeout).InOrder())
  {
    FilterKeeps(w, Expired(w, now, timeout));
    var f, v := Unexpired(w, now, timeout), PopSpec(w, now, timeout);
    if |f.queue| >= 2 {
      assert forall i :: 0 <= i < |v.queue| ==> v.queue[i] == f.queue[i + 2];
      forall x | x in v.queuedAt ensures x in v.queue {
        var i :| 0 <= i < |f.queue| && f.queue[i] == x;
        assert v.queue[i - 2] == x;
      }
    }
  }

  /** Those of `gone` that stand in this part of the queue. */
  function Among(queue: seq<Id>, gone: set<Id>): set<Id> { set id | id in queue && id in gone }

  lemma AmongNone(queue: seq<Id>, gone: set<Id>)
    ensures Among(queue[..0], gone) == {}
  {
  }

  lemma AmongNext(queue: seq<Id>, i: nat, gone: set<Id>)
    requires i < |queue| && NoRepeats(queue)
    ensures queue[i] !in Among(queue[..i], gone)
    ensures Among(queue[..i + 1], gone) == Among(queue[..i], gone) + if queue[i] in gone then {queue[i]} else {}
  {
    assert queue[..i + 1] == queue[..i] + [queue[i]];
  }

  lemma AmongAll(w: Waiting, now: Time, timeout: Time)
    requires w.Valid()
    ensures Among(w.queue, Expired(w, now, timeout)) == Expired(w, now, timeout)
  {
  }

  /** The players a pop times out, in queue order. */
  function TimedOut(w: Waiting, now: Time, timeout: Time): seq<Id> {
    Keep(w.queue, w.queuedAt.Keys - Expired(w, now, timeout))
  }

  /** When players wait in joining order, the timed-out ones are a prefix of the queue. */
  lemma ExpiredIsAPrefix(w: Waiting, now: Time, timeout: Time, i: nat, j: nat)
    requires w.Valid() && w.InOrder() && i < j < |w.queue|
    requires w.queue[j] in Expired(w, now, timeout)
    ensures w.queue[i] in Expired(w, now, timeout)
  {
  }

  lemma {:induction false} KeepAll(queue: seq<Id>, gone: set<Id>)
    requires forall i :: 0 <= i < |queue| ==> queue[i] !in gone
    ensures Keep(queue, gone) == queue
  {
    if queue != [] {
      var n := |queue| - 1;
      KeepAll(queue[..n], gone);
    }
  }

  lemma {:induction false} KeepNone(queue: seq<Id>, gone: set<Id>)
    requires forall i :: 0 <= i < |queue| ==> queue[i] in gone
    ensures Keep(queue, gone) == []
  {
    if queue != [] {
      var n := |queue| - 1;
      KeepNone(queue[..n], gone);
    }
  }

  lemma KeepSnoc(queue: seq<Id>, id: Id, gone: set<Id>)
    ensures Keep(queue + [id], gone) == Keep(queue, gone) + if id in gone then [] else [id]
  {
    assert (queue + [id])[..|queue|] == queue;
  }

  lemma KeepFirst(queue: seq<Id>, gone: set<Id>)
    ensures Keep(queue[..0], gone) == []
  {
  }

  lemma KeepNext(queue: seq<Id>, i: nat, gone: set<Id>)
    requires i < |queue|
    ensures Keep(queue[..i + 1], gone) == Keep(queue[..i], gone) + if queue[i] in gone then [] else [queue[i]]
  {
    assert queue[..i + 1] == queue[..i] + [queue[i]];
    KeepSnoc(queue[..i], queue[i], gone);
  }

  lemma {:induction false} KeepConcat(a: seq<Id>, b: seq<Id>, gone: set<Id>)
    ensures Keep(a + b, gone) == Keep(a, gone) + Keep(b, gone)
  {
    if b == [] {
      assert a + b == a;
    } else {
      var n := |b| - 1;
      assert a + b == (a + b[..n]) + [b[n]];
      KeepSnoc(a + b[..n], b[n], gone);
      KeepConcat(a, b[..n], gone);
      assert b == b[..n] + [b[n]];
      KeepSnoc(b[..n], b[n], gone);
    }
  }

  lemma KeepSplit(early: seq<Id>, late: seq<Id>, gone: set<Id>)
    requires forall i :: 0 <= i < |early| ==> early[i] in gone
    requires forall i :: 0 <= i < |late| ==> late[i] !in gone
    ensures Keep(early + late, gone) == late
  {
    hide Keep;
    KeepConcat(early, late, gone);
    KeepNone(early, gone);
    KeepAll(late, gone);
  }

  lemma KeepHead(early: seq<Id>, late: seq<Id>, gone: set<Id>)
    requires forall i :: 0 <= i < |early| ==> early[i] !in gone
    requires forall i :: 0 <= i < |late| ==> late[i] in gone
    ensures Keep(early + late, gone) == early
  {
    hide Keep;
    KeepConcat(early, late, gone);
    KeepAll(early, gone);
    KeepNone(late, gone);
  }

  /** With players waiting in joining order, a pop times out a prefix of the queue and keeps the rest. */
  lemma ExpirySplits(w: Waiting, now: Time, timeout: Time)
    requires w.Valid() && w.InOrder()
    ensures w.queue == TimedOut(w, now, timeout) + Unexpired(w, now, timeout).queue
  {
    hide Keep, Expired;
    var gone := Expired(w, now, timeout);
    var k := 0;
    while k < |w.queue| && w.queue[k] in gone
      invariant 0 <= k <= |w.queue|
      invariant forall i :: 0 <= i < k ==> w.queue[i] in gone
    {
      k := k + 1;
    }
    forall j | k <= j < |w.queue| ensures w.queue[j] !in gone {
      if w.queue[j] in gone && j > k {
        ExpiredIsAPrefix(w, now, timeout, k, j);
      }
    }
    assert w.queue == w.queue[..k] + w.queue[k..];
    KeepSplit(w.queue[..k], w.queue[k..], gone);
    KeepHead(w.queue[..k], w.queue[k..], w.queuedAt.Keys - gone);
  }

  /**
   What a pop does to the old queue: with players waiting in joining order it is cut into the timed-out players, the
   pair (if any) and the players still waiting, in this order and with nobody lost or repeated.
   */
  lemma PopCutsTheQueue(w: Waiting, now: Time, timeout: Time)
    requires w.Valid() && w.InOrder()
    ensures w.queue ==
              TimedOut(w, now, timeout)
              + PairOf(PairSpec(w, now, timeout))
              + PopSpec(w, now, timeout).queue
    ensures PairSpec(w, now, timeout).None? <==> |w.queue| - |TimedOut(w, now, timeout)| < 2
  {
    hide TimedOut, Unexpired;
    ExpirySplits(w, now, timeout);
  }

  predicate StandsBefore(queue: seq<Id>, x: Id, y: Id) {
    exists i, j :: 0 <= i < j < |queue| && queue[i] == x && queue[j] == y
  }

  /** Whoever stands ahead of another in the part stands ahead of the other in the whole. */
  predicate InOrderOf(part: seq<Id>, whole: seq<Id>) {
    forall i, j :: 0 <= i < j < |part| ==> StandsBefore(whole, part[i], part[j])
  }

  lemma KeepInOrder(queue: seq<Id>, gone: set<Id>)
    ensures InOrderOf(Keep(queue, gone), queue)
  {
    hide Keep;
    forall i, j | 0 <= i < j < |Keep(queue, gone)|
      ensures StandsBefore(queue, Keep(queue, gone)[i], Keep(queue, gone)[j])
    {
      var a, b := KeepOrder(queue, gone, i, j);
    }
  }

  /** Two complementary filters share the queue out. */
  lemma {:induction false} KeepShares(queue: seq<Id>, gone: set<Id>, stay: set<Id>)
    requires forall i :: 0 <= i < |queue| ==> (queue[i] in gone <==> queue[i] !in stay)
    ensures multiset(queue) == multiset(Keep(queue, gone)) + multiset(Keep(queue, stay))
  {
    if queue != [] {
      var n := |queue| - 1;
      assert queue == queue[..n] + [queue[n]];
      KeepShares(queue[..n], gone, stay);
    }
  }

  lemma ExpiryShares(w: Waiting, now: Time, timeout: Time)
    requires w.Valid()
    ensures var late, rest := TimedOut(w, now, timeout), Unexpired(w, now, timeout).queue;
            && multiset(w.queue) == multiset(late) + multiset(rest) && |w.queue| == |late| + |rest|
            && InOrderOf(late, w.queue) && InOrderOf(rest, w.queue)
            && forall id :: id in late <==> id in Expired(w, now, timeout)
  {
    hide Keep, InOrderOf, Expired;
    var gone := Expired(w, now, timeout);
    var stay := w.queuedAt.Keys - gone;
    ExpiredWait(w, now, timeout);
    KeepShares(w.queue, gone, stay);
    KeepInOrder(w.queue, gone);
    KeepInOrder(w.queue, stay);
    KeepMembers(w.queue, stay);
    assert |multiset(w.queue)| == |Keep(w.queue, stay)| + |Keep(w.queue, gone)|;
  }

  lemma PairLeads(w: Waiting, now: Time, timeout: Time)
    ensures Unexpired(w, now, timeout).queue == PairOf(PairSpec(w, now, timeout)) + PopSpec(w, now, timeout).queue
    ensures PairSpec(w, now, timeout).None? <==> |Unexpired(w, now, timeout).queue| < 2
  {
    hide Unexpired;
  }

  /**
   What a pop does to a queue in whatever order its players joined: everyone in it is timed out, paired or still
   waiting, nobody twice; the timed-out players keep their order, and so do the pair followed by those still waiting.
   */
  lemma PopSharesOut(w: Waiting, now: Time, timeout: Time)
    requires w.Valid()
    ensures var late := TimedOut(w, now, timeout);
            var rest := PairOf(PairSpec(w, now, timeout)) + PopSpec(w, now, timeout).queue;
            && multiset(w.queue) == multiset(late) + multiset(rest)
            && InOrderOf(late, w.queue) && InOrderOf(rest, w.queue)
            && (forall id :: id in late <==>
                  timeout > 0 && id in w.queue && id in w.queuedAt && now - w.queuedAt[id] >= timeout)
            && (PairSpec(w, now, timeout).None? <==> |w.queue| - |late| < 2)
  {
    ExpiredMeaning(w, now, timeout);
    hide *;
    ExpiryShares(w, now, timeout);
    PairLeads(w, now, timeout);
  }

  lemma ExpiredMeaning(w: Waiting, now: Time, timeout: Time)
    requires w.Valid()
    ensures forall id :: id in Expired(w, now, timeout) <==>
              timeout > 0 && id in w.queue && id in w.queuedAt && now - w.queuedAt[id] >= timeout
  {
  }

  /** What a pop is, told without reference to how it is computed. */
  ghost predicate SharedOut(w: Waiting, v: Waiting, pair: Option<(Id, Id)>, timedOut: seq<Id>,
                            now: Time, timeout: Time)
  {
    && v.sessions == w.sessions
    && multiset(w.queue) == multiset(timedOut) + multiset(PairOf(pair) + v.queue)
    && InOrderOf(timedOut, w.queue) && InOrderOf(PairOf(pair) + v.queue, w.queue)
    && (forall id :: id in timedOut <==>
          timeout > 0 && id in w.queue && id in w.queuedAt && now - w.queuedAt[id] >= timeout)
    && (pair.None? <==> |w.queue| - |timedOut| < 2)
    && (forall id :: id in v.queuedAt <==> id in v.queue)
    && (forall id :: id in v.queuedAt ==> id in w.queuedAt && v.queuedAt[id] == w.queuedAt[id])
  }

  /** Those still waiting have the queueing time they had, and nobody else has one. */
  lemma PopKeepsTimes(w: Waiting, now: Time, timeout: Time)
    requires w.Valid()
    ensures var v := PopSpec(w, now, timeout);
            && v.sessions == w.sessions
            && (forall id :: id in v.queuedAt <==> id in v.queue)
            && (forall id :: id in v.queuedAt ==> id in w.queuedAt && v.queuedAt[id] == w.queuedAt[id])
  {
    PopKeeps(w, now, timeout);
    hide Expired, Keep;
  }

  lemma PopShares(w: Waiting, now: Time, timeout: Time)
    requires w.Valid()
    ensures SharedOut(w, PopSpec(w, now, timeout), PairSpec(w, now, timeout), TimedOut(w, now, timeout), now, timeout)
  {
    hide PopSpec, PairSpec, TimedOut, InOrderOf, PairOf, Waiting.Valid;
    PopSharesOut(w, now, timeout);
    PopKeepsTimes(w, now, timeout);
  }

  lemma TakingIsPopping(w: Waiting, v: Waiting, pair: Option<(Id, Id)>, now: Time, timeout: Time)
    requires var f := Unexpired(w, now, timeout);
             && v.sessions == f.sessions
             && pair == (if |f.queue| < 2 then None else Some((f.queue[0], f.queue[1])))
             && v.queue == (if pair.None? then f.queue else f.queue[2..])
             && v.queuedAt == if pair.None? then f.queuedAt else f.queuedAt - {pair.value.0, pair.value.1}
    ensures v == PopSpec(w, now, timeout) && pair == PairSpec(w, now, timeout)
  {
    hide Unexpired;
  }

  lemma PopIs(w: Waiting, now: Time, timeout: Time)
    ensures After(w, Step.Pop(now, timeout)) == PopSpec(w, now, timeout)
  {
  }

  lemma LeftIs(w: Waiting, id: Id)
    ensures After(w, Step.Leave(id)) == if id in w.sessions then LeaveSpec(w, id) else w
  {
  }

  lemma LeaveIs(w: Waiting, id: Id)
    requires w.Valid()
    ensures id !in w.sessions ==> LeaveSpec(w, id) == w
    ensures var v := LeaveSpec(w, id);
            && id !in v.queue && InOrderOf(v.queue, w.queue) && v.queuedAt == w.queuedAt - {id}
            && v.queue == Keep(w.queue, {id}) && (forall other :: other in v.queue <==> other != id && other in w.queue)
  {
    KeepMembers(w.queue, {id});
    KeepInOrder(w.queue, {id});
    hide InOrderOf;
    if id !in w.queuedAt {
      assert id !in w.queue;
      KeepAll(w.queue, {id});
    }
  }

  lemma ExpiredWait(w: Waiting, now: Time, timeout: Time)
    requires w.Valid()
    ensures forall id :: id in Expired(w, now, timeout) ==> id in w.queue
  {
  }

  // ---------- whole runs ----------

  datatype Step =
    | Register(id: Id)
    | Unregister(id: Id)
    | Join(id: Id, at: Time)
    | Leave(id: Id)
    | Pop(at: Time, timeout: Time)

  function After(w: Waiting, step: Step): Waiting {
    match step
    case Register(id) => w.(sessions := w.sessions + {id})
    case Unregister(id) => LeaveSpec(w.(sessions := w.sessions - {id}), id)
    case Join(id, at) => JoinSpec(w, id, at)
    case Leave(id) => if id in w.sessions then LeaveSpec(w, id) else w
    case Pop(at, timeout) => PopSpec(w, at, timeout)
  }

  function Paired(w: Waiting, step: Step): seq<Id> {
    match step
    case Pop(at, timeout) => PairOf(PairSpec(w, at, timeout))
    case _ => []
  }

  function AfterAll(w: Waiting, steps: seq<Step>): Waiting
    decreases |steps|
  {
    if steps == [] then w else AfterAll(After(w, steps[0]), steps[1..])
  }

  /** Everyone a run pairs, in order. */
  function PairedIn(w: Waiting, steps: seq<Step>): seq<Id>
    decreases |steps|
  {
    if steps == [] then [] else Paired(w, steps[0]) + PairedIn(After(w, steps[0]), steps[1..])
  }

  /** `id` is in the queue before the run and after each of its steps. */
  predicate Waits(w: Waiting, steps: seq<Step>, id: Id)
    decreases |steps|
  {
    id in w.queue && (steps != [] ==> Waits(After(w, steps[0]), steps[1..], id))
  }

  /** The players in front of `id`. */
  function Ahead(queue: seq<Id>, id: Id): (front: seq<Id>)
    ensures |front| <= |queue| && queue[..|front|] == front && id !in front
    ensures id in queue ==> |front| < |queue| && queue[|front|] == id
  {
    if queue == [] || queue[0] == id then []
    else
      var rest := Ahead(queue[1..], id);
      assert queue[1..][..|rest|] == queue[1..|rest| + 1];
      [queue[0]] + rest
  }

  lemma {:induction false} AheadIs(front: seq<Id>, id: Id, back: seq<Id>)
    requires id !in front
    ensures Ahead(front + [id] + back, id) == front
  {
    if front == [] {
      assert (front + [id] + back)[0] == id;
    } else {
      assert (front + [id] + back)[1..] == front[1..] + [id] + back;
      AheadIs(front[1..], id, back);
    }
  }

  /** Removing others only shortens what is in front of a player who stays. */
  lemma AheadOfKept(queue: seq<Id>, gone: set<Id>, id: Id)
    requires id in queue && id !in gone
    ensures Ahead(Keep(queue, gone), id) == Keep(Ahead(queue, id), gone)
  {
    hide Keep;
    var front := Ahead(queue, id);
    var back := queue[|front| + 1..];
    assert queue == front + [id] + back;
    KeepMembers(front, gone);
    KeepConcat(front + [id], back, gone);
    KeepConcat(front, [id], gone);
    KeepAll([id], gone);
    AheadIs(Keep(front, gone), id, Keep(back, gone));
  }

  predicate Shortens(before: seq<Id>, now: seq<Id>, paired: seq<Id>) {
    && (forall other :: other in now + paired ==> other in before)
    && |now| + |paired| <= |before|
  }

  lemma LeaveIsFair(w: Waiting, other: Id, id: Id)
    requires w.Valid() && id in w.queue && id in LeaveSpec(w, other).queue
    ensures Shortens(Ahead(w.queue, id), Ahead(LeaveSpec(w, other).queue, id), [])
  {
    if other in w.queuedAt {
      KeepMembers(w.queue, {other});
      KeepMembers(Ahead(w.queue, id), {other});
      AheadOfKept(w.queue, {other}, id);
    }
  }

  lemma JoinIsFair(w: Waiting, other: Id, at: Time, id: Id)
    requires w.Valid() && id in w.queue
    ensures Shortens(Ahead(w.queue, id), Ahead(JoinSpec(w, other, at).queue, id), [])
  {
    hide Waiting.Valid;
    var front := Ahead(w.queue, id);
    var back := w.queue[|front| + 1..];
    assert w.queue == front + [id] + back;
    assert w.queue + [other] == front + [id] + (back + [other]);
    AheadIs(front, id, back + [other]);
  }

  /** Cutting the first two players off a queue whose members differ. */
  lemma FrontPairLeaves(queue: seq<Id>, id: Id)
    requires |queue| >= 2 && id in queue[2..]
    requires NoRepeats(queue)
    ensures Ahead(queue, id) == queue[..2] + Ahead(queue[2..], id)
  {
    var later := Ahead(queue[2..], id);
    assert queue[|later| + 2] == id;
    assert queue == (queue[..2] + later) + [id] + queue[|later| + 3..];
    AheadIs(queue[..2] + later, id, queue[|later| + 3..]);
  }

  lemma PopIsFair(w: Waiting, at: Time, timeout: Time, id: Id)
    requires w.Valid() && id in w.queue && id in PopSpec(w, at, timeout).queue
    ensures Shortens(Ahead(w.queue, id), Ahead(PopSpec(w, at, timeout).queue, id), Paired(w, Pop(at, timeout)))
  {
    hide Expired, Ahead, Keep;
    var gone := Expired(w, at, timeout);
    var f := Unexpired(w, at, timeout);
    KeepDistinct(w.queue, gone);
    KeepMembers(w.queue, gone);
    assert id in f.queue;
    AheadOfKept(w.queue, gone, id);
    KeepMembers(Ahead(w.queue, id), gone);
    if |f.queue| >= 2 {
      FrontPairLeaves(f.queue, id);
    }
  }

  /** One step seen by a player who keeps waiting: nobody comes in front, and a pair leaves from in front. */
  lemma StepIsFair(w: Waiting, step: Step, id: Id)
    requires w.Valid() && id in w.queue && id in After(w, step).queue
    ensures Shortens(Ahead(w.queue, id), Ahead(After(w, step).queue, id), Paired(w, step))
  {
    hide Ahead, Keep, PopSpec, JoinSpec, LeaveSpec, PairSpec;
    match step
    case Register(_) =>
    case Unregister(other) =>
      UnregisterIsFair(w, other, id);
    case Join(other, at) => JoinIsFair(w, other, at, id);
    case Leave(other) =>
      if other in w.sessions {
        LeaveIsFair(w, other, id);
      }
    case Pop(at, timeout) => PopIsFair(w, at, timeout, id);
  }

  lemma UnregisterIsFair(w: Waiting, other: Id, id: Id)
    requires w.Valid() && id in w.queue && id in After(w, Unregister(other)).queue
    ensures Shortens(Ahead(w.queue, id), Ahead(After(w, Unregister(other)).queue, id), [])
  {
    hide Ahead, Keep;
    LeaveIsFair(w, other, id);
  }

  lemma StepKeeps(w: Waiting, step: Step)
    requires w.Valid()
    ensures After(w, step).Valid()
  {
    match step
    case Register(_) =>
    case Unregister(id) =>
      FilterKeeps(w, {id});
    case Join(id, at) => JoinKeeps(w, id, at);
    case Leave(id) => LeaveKeeps(w, id);
    case Pop(at, timeout) => PopKeeps(w, at, timeout);
  }

  lemma {:induction false} RunKeeps(w: Waiting, steps: seq<Step>)
    requires w.Valid()
    ensures AfterAll(w, steps).Valid()
    decreases |steps|
  {
    if steps != [] {
      StepKeeps(w, steps[0]);
      RunKeeps(After(w, steps[0]), steps[1..]);
    }
  }

  /** The clock never runs backwards: each join happens no earlier than `since` and the joins before it. */
  predicate JoinsInTimeOrder(steps: seq<Step>, since: Time)
    decreases |steps|
  {
    steps != [] ==>
      if steps[0].Join? then since <= steps[0].at && JoinsInTimeOrder(steps[1..], steps[0].at)
      else JoinsInTimeOrder(steps[1..], since)
  }

  predicate JoinedBy(w: Waiting, since: Time) {
    forall id :: id in w.queuedAt ==> w.queuedAt[id] <= since
  }

  /** Under such a clock players wait in joining order throughout, so that every pop of the run cuts the queue in
      three. */
  lemma {:induction false} RunStaysInOrder(w: Waiting, steps: seq<Step>, since: Time)
    requires w.Valid() && w.InOrder() && JoinedBy(w, since) && JoinsInTimeOrder(steps, since)
    ensures AfterAll(w, steps).Valid() && AfterAll(w, steps).InOrder()
    decreases |steps|
  {
    if steps != [] {
      StepKeepsOrder(w, steps[0], since);
      StepKeeps(w, steps[0]);
      RunStaysInOrder(After(w, steps[0]), steps[1..], if steps[0].Join? then steps[0].at else since);
    }
  }

  lemma StepKeepsOrder(w: Waiting, step: Step, since: Time)
    requires w.Valid() && w.InOrder() && JoinedBy(w, since) && (step.Join? ==> since <= step.at)
    ensures After(w, step).InOrder() && JoinedBy(After(w, step), if step.Join? then step.at else since)
  {
    hide Waiting.Valid, Keep, Expired;
    match step
    case Register(_) =>
    case Unregister(id) => FilterKeeps(w, {id});
    case Join(id, at) => JoinKeeps(w, id, at);
    case Leave(id) => LeaveKeeps(w, id);
    case Pop(at, timeout) => PopKeeps(w, at, timeout);
  }

  /**
   First come, first served, over every run of the lobby. While a player waits, everyone who is paired stood in front of
   them when the run began, and every pair brings them two places closer: a player with p others in front sees at most
   p / 2 pairs leave before their own.
   */
  lemma {:induction false} NobodyOvertakes(w: Waiting, steps: seq<Step>, id: Id)
    requires w.Valid() && Waits(w, steps, id)
    ensures Shortens(Ahead(w.queue, id), Ahead(AfterAll(w, steps).queue, id), PairedIn(w, steps))
    decreases |steps|
  {
    if steps != [] {
      var v := After(w, steps[0]);
      StepIsFair(w, steps[0], id);
      StepKeeps(w, steps[0]);
      NobodyOvertakes(v, steps[1..], id);
    }
  }

  // ---------- the service ----------

  datatype Answer = Done | NoPlayerId | NoHandle | AlreadyRegistered | NotRegistered

  class Service {
    var sessions: map<Id, Id>
    var queuedAt: map<Id, Time>
    var queue: seq<Id>

    function State(): Waiting
      reads this
    {
      Waiting(sessions.Keys, queuedAt, queue)
    }

    constructor ()
      ensures State() == Waiting({}, map[], []) && State().Valid()
    {
      sessions := map[];
      queuedAt := map[];
      queue := [];
    }

    /** A refused registration changes nothing; a player who is still registered keeps the handle they came with. */
    method Register(id: Id, handle: Id) returns (answer: Answer)
      requires State().Valid()
      modifies this`sessions
      ensures State().Valid()
      ensures id == [] ==> answer == NoPlayerId
      ensures id != [] && handle == [] ==> answer == NoHandle
      ensures id != [] && handle != [] ==> answer == if id in old(sessions) then AlreadyRegistered else Done
      ensures answer == Done ==>
                sessions == old(sessions)[id := handle] && State() == After(old(State()), Step.Register(id))
      ensures answer != Done ==> sessions == old(sessions)
    {
      if id == [] {
        return NoPlayerId;
      }
      if handle == [] {
        return NoHandle;
      }
      if id in sessions {
        return AlreadyRegistered;
      }
      sessions := sessions[id := handle];
      return Done;
    }

    method Unregister(id: Id)
      requires State().Valid()
      modifies this
      ensures State().Valid() && State() == After(old(State()), Step.Unregister(id))
      ensures sessions == old(sessions) - {id} && id !in queue
    {
      StepKeeps(State(), Step.Unregister(id));
      FilterKeeps(State(), {id});
      assert id in queue ==> id in queuedAt;
      ghost var start := State();
      sessions := sessions - {id};
      RemoveQueue(id, start);
    }

    /** Joining twice is harmless: the player keeps both their place and their queueing time. */
    method JoinQueue(id: Id, clock: Time) returns (answer: Answer)
      requires State().Valid()
      modifies this`queue, this`queuedAt
      ensures State().Valid() && State() == After(old(State()), Step.Join(id, clock))
      ensures answer == if id in sessions then Done else NotRegistered
      ensures answer == Done ==> id in queue
      ensures if id in sessions && id !in old(queue)
              then queue == old(queue) + [id] && queuedAt == old(queuedAt)[id := clock]
              else queue == old(queue) && queuedAt == old(queuedAt)
    {
      assert id in queue <==> id in queuedAt;
      JoinKeeps(State(), id, clock);
      if id !in sessions {
        return NotRegistered;
      }
      if id in queuedAt {
        return Done;
      }
      queue := queue + [id];
      queuedAt := queuedAt[id := clock];
      assert queue[|queue| - 1] == id;
      return Done;
    }

    method LeaveQueue(id: Id) returns (answer: Answer)
      requires State().Valid()
      modifies this`queue, this`queuedAt
      ensures State().Valid() && State() == After(old(State()), Step.Leave(id))
      ensures answer == if id in sessions then Done else NotRegistered
      ensures id !in queue && InOrderOf(queue, old(queue))
      ensures forall other :: other != id ==> (other in queue <==> other in old(queue))
      ensures queuedAt == old(queuedAt) - {id}
    {
      LeaveKeeps(State(), id);
      LeaveIs(State(), id);
      ghost var start := State();
      LeftIs(start, id);
      hide InOrderOf, Keep, LeaveSpec, After, Waiting.Valid;
      if id !in sessions {
        return NotRegistered;
      }
      RemoveQueue(id, State());
      return Done;
    }

    /** A missing time (`None`) is replaced by the clock's. */
    method PopNextPair(now: Option<Time>, clock: Time, timeout: Time)
      returns (pair: Option<(Id, Id)>, timedOut: seq<Id>)
      requires State().Valid()
      modifies this`queue, this`queuedAt
      ensures State().Valid()
      ensures var at := if now.Some? then now.value else clock;
              && State() == After(old(State()), Step.Pop(at, timeout))
              && pair == PairSpec(old(State()), at, timeout)
              && timedOut == TimedOut(old(State()), at, timeout)
      ensures SharedOut(old(State()), State(), pair, timedOut, if now.Some? then now.value else clock, timeout)
    {
      var at := if now.Some? then now.value else clock;
      ghost var start := State();
      timedOut := DropExpired(at, timeout);
      pair := TakePair();
      TakingIsPopping(start, State(), pair, at, timeout);
      hide *;
      PopKeeps(start, at, timeout);
      PopShares(start, at, timeout);
      PopIs(start, at, timeout);
    }

    method TakePair() returns (pair: Option<(Id, Id)>)
      modifies this`queue, this`queuedAt
      ensures pair == if |old(queue)| < 2 then None else Some((old(queue)[0], old(queue)[1]))
      ensures queue == if pair.None? then old(queue) else old(queue)[2..]
      ensures queuedAt == if pair.None? then old(queuedAt) else old(queuedAt) - {pair.value.0, pair.value.1}
    {
      if |queue| < 2 {
        return None;
      }
      pair := Some((queue[0], queue[1]));
      queue := queue[2..];
      queuedAt := queuedAt - {pair.value.0};
      queuedAt := queuedAt - {pair.value.1};
    }

    method DropExpired(at: Time, timeout: Time) returns (timedOut: seq<Id>)
      requires State().Valid()
      modifies this`queue, this`queuedAt
      ensures State() == Unexpired(old(State()), at, timeout)
      ensures timedOut == TimedOut(old(State()), at, timeout)
    {
      hide Keep, Among;
      ghost var start := State();
      ghost var gone := Expired(start, at, timeout);
      AmongNone(queue, gone);
      ghost var stay := start.queuedAt.Keys - gone;
      timedOut := [];
      if timeout > 0 {
        KeepFirst(queue, gone);
        KeepFirst(queue, stay);
        var filtered := [];
        for i := 0 to |queue|
          invariant queue == start.queue && sessions.Keys == start.sessions
          invariant filtered == Keep(queue[..i], gone)
          invariant timedOut == Keep(queue[..i], stay)
          invariant queuedAt == start.queuedAt - Among(queue[..i], gone)
        {
          var id := queue[i];
          AmongNext(queue, i, gone);
          KeepNext(queue, i, gone);
          KeepNext(queue, i, stay);
          if id in queuedAt {
            if at - queuedAt[id] >= timeout {
              queuedAt := queuedAt - {id};
              timedOut := timedOut + [id];
            } else {
              filtered := filtered + [id];
            }
          }
        }
        assert queue[..|queue|] == queue;
        AmongAll(start, at, timeout);
        queue := filtered;
      } else {
        KeepAll(queue, gone);
        KeepNone(queue, stay);
      }
    }

    /** Whether the player waits, how many places from the front (counted from 1), and for how long. */
    method QueueStatus(id: Id, now: Option<Time>, clock: Time) returns (waiting: bool, position: nat, wait: Time)
      requires State().Valid()
      ensures waiting <==> id in queue
      ensures waiting ==> position == |Ahead(queue, id)| + 1
      ensures !waiting ==> position == 0 && wait == 0
      ensures waiting && id in queuedAt ==>
                var elapsed := (if now.Some? then now.value else clock) - queuedAt[id];
                wait == if elapsed < 0 then 0 else elapsed
    {
      if id !in queuedAt {
        return false, 0, 0;
      }
      var at := if now.Some? then now.value else clock;
      position := 0;
      for i := 0 to |queue|
        invariant position == 0 && id !in queue[..i]
      {
        if queue[i] == id {
          position := i + 1;
          assert queue == queue[..i] + [id] + queue[i + 1..];
          AheadIs(queue[..i], id, queue[i + 1..]);
          break;
        }
      }
      wait := at - queuedAt[id];
      if wait < 0 {
        wait := 0;
      }
      return true, position, wait;
    }

    method RemoveQueue(id: Id, ghost start: Waiting)
      requires start.Valid() && queue == start.queue && queuedAt == start.queuedAt
      modifies this`queue, this`queuedAt
      ensures State() == LeaveSpec(start.(sessions := sessions.Keys), id)
      ensures id !in queue
    {
      assert id in queue ==> id in queuedAt;
      if id !in queuedAt {
        return;
      }
      queuedAt := queuedAt - {id};
      var filtered := [];
      for i := 0 to |queue|
        invariant queue == start.queue && queuedAt == start.queuedAt - {id}
        invariant filtered == Keep(queue[..i], {id})
      {
        assert queue[..i + 1][..i] == queue[..i];
        if queue[i] != id {
          filtered := filtered + [queue[i]];
        }
      }
      assert queue[..|queue|] == queue;
      KeepMembers(queue, {id});
      queue := filtered;
    }
  }
}
