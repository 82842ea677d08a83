/**
 Who may play: the reservations of internal/matchmaking/service.go, as steps interleaved at the boundaries of the
 source's critical sections. A thread is one call (or goroutine) between two of its sections; `Go` runs its next
 section.
 */
module Reservations {
  import opened CombatTypes
  import Lobby

  datatype Thread =
    | Joining(id: Id)                          // Enqueue saw the player free; the lobby is asked next
    | Asking(id: Id)                           // StartNPCMatch saw a session; the reservation comes next
    | Leaving(id: Id)                          // reserved for practice; the queue is left next
    | Practising(id: Id)                       // the practice match runs; release comes next
    | Popped(a: Id, b: Id)                     // processQueue has a pair; the reservation comes next
    | Looking(a: Id, b: Id)                    // reserved; the first session is looked up next
    | Looked(a: Id, b: Id, found: bool)        // the second session is looked up next
    | Refusing(a: Id, b: Id, back: seq<Id>)    // a session is missing; release comes next
    | Requeueing(back: seq<Id>)                // released; the ones still there rejoin the queue
    | Starting(a: Id, b: Id)                   // runMatch; the match is listed next
    | Listed(a: Id, b: Id)                     // listed as active; unlisting comes next
    | Closing(a: Id, b: Id)                    // unlisted; release comes next

  datatype World = World(lobby: Lobby.Waiting, inMatch: set<Id>, active: map<nat, (Id, Id)>, byHandle: map<Id, nat>,
                         threads: map<nat, Thread>)

  datatype Step =
    | Register(id: Id)
    | Unregister(id: Id)
    | Dequeue(id: Id)
    | Enqueue(tid: nat, id: Id)
    | Practise(tid: nat, id: Id)
    | Pop(tid: nat, now: Lobby.Time, timeout: Lobby.Time)
    | Go(tid: nat, clock: Lobby.Time)

  const EMPTY := World(Lobby.Waiting({}, map[], []), {}, map[], map[], map[])

  /** The players a thread has reserved and not yet released. */
  function Holds(t: Thread): set<Id> {
    match t
    case Leaving(id) => {id}
    case Practising(id) => {id}
    case Looking(a, b) => {a, b}
    case Looked(a, b, _) => {a, b}
    case Refusing(a, b, _) => {a, b}
    case Starting(a, b) => {a, b}
    case Listed(a, b) => {a, b}
    case Closing(a, b) => {a, b}
    case _ => {}
  }

  function Spawn(w: World, tid: nat, t: Thread): World {
    if tid in w.threads then w else w.(threads := w.threads[tid := t])
  }

  /** One section of the source. `name` is the lower-cased handle of a player. */
  function After(name: Id -> Id, w: World, step: Step): World {
    match step
    case Register(id) => if id == [] then w else w.(lobby := Lobby.After(w.lobby, Lobby.Register(id)))
    case Unregister(id) => w.(lobby := Lobby.After(w.lobby, Lobby.Unregister(id)))
    case Dequeue(id) => w.(lobby := Lobby.After(w.lobby, Lobby.Leave(id)))
    case Enqueue(tid, id) => if id in w.inMatch then w else Spawn(w, tid, Joining(id))
    case Practise(tid, id) => if id == [] || id !in w.lobby.sessions then w else Spawn(w, tid, Asking(id))
    case Pop(tid, now, timeout) =>
      if tid in w.threads then w
      else
        var v := w.(lobby := Lobby.After(w.lobby, Lobby.Pop(now, timeout)));
        (match Lobby.PairSpec(w.lobby, now, timeout)
         case None => v
         case Some(pair) => if pair.0 == [] || pair.1 == [] || pair.0 == pair.1 then v
                            else Spawn(v, tid, Popped(pair.0, pair.1)))
    case Go(tid, clock) => if tid in w.threads then RunSection(name, w, tid, clock) else w
  }

  function Next(w: World, tid: nat, t: Thread): World {
    w.(threads := w.threads[tid := t])
  }

  function Done(w: World, tid: nat): World {
    w.(threads := w.threads - {tid})
  }

  /** The sessions found by the two lookups decide: both play, or both are released and those found rejoin. */
  function Decide(a: Id, b: Id, foundA: bool, foundB: bool): Thread {
    if foundA && foundB then Starting(a, b)
    else Refusing(a, b, (if foundA then [a] else []) + (if foundB then [b] else []))
  }

  function RunSection(name: Id -> Id, w: World, tid: nat, clock: Lobby.Time): World
    requires tid in w.threads
  {
    if Alone(w.threads[tid]) then AdvanceAlone(w, tid, clock) else AdvancePair(name, w, tid)
  }

  /** Threads that act for one player at a time. */
  predicate Alone(t: Thread) { t.Joining? || t.Asking? || t.Leaving? || t.Practising? || t.Requeueing? }

  function AdvanceAlone(w: World, tid: nat, clock: Lobby.Time): World
    requires tid in w.threads && Alone(w.threads[tid])
  {
    match w.threads[tid]
    case Joining(id) => Done(w.(lobby := Lobby.After(w.lobby, Lobby.Join(id, clock))), tid)
    case Asking(id) =>
      if id in w.inMatch then Done(w, tid) else Next(w.(inMatch := w.inMatch + {id}), tid, Leaving(id))
    case Leaving(id) => Next(w.(lobby := Lobby.After(w.lobby, Lobby.Leave(id))), tid, Practising(id))
    case Practising(id) => Done(w.(inMatch := w.inMatch - {id}), tid)
    case Requeueing(back) =>
      if back == [] then Done(w, tid)
      else Next(w.(lobby := Lobby.After(w.lobby, Lobby.Join(back[0], clock))), tid, Requeueing(back[1..]))
  }

  function AdvancePair(name: Id -> Id, w: World, tid: nat): World
    requires tid in w.threads && !Alone(w.threads[tid])
  {
    match w.threads[tid]
    case Popped(a, b) =>
      if a in w.inMatch || b in w.inMatch then Done(w, tid)
      else Next(w.(inMatch := w.inMatch + {a, b}), tid, Looking(a, b))
    case Looking(a, b) => Next(w, tid, Looked(a, b, a in w.lobby.sessions))
    case Looked(a, b, found) => Next(w, tid, Decide(a, b, found, b in w.lobby.sessions))
    case Refusing(a, b, back) => Next(w.(inMatch := w.inMatch - {a, b}), tid, Requeueing(back))
    case Starting(a, b) =>
      Next(w.(active := w.active[tid := (a, b)], byHandle := w.byHandle[name(a) := tid][name(b) := tid]),
           tid, Listed(a, b))
    case Listed(a, b) =>
      Next(w.(active := w.active - {tid}, byHandle := w.byHandle - {name(a), name(b)}), tid, Closing(a, b))
    case Closing(a, b) => Done(w.(inMatch := w.inMatch - {a, b}), tid)
  }

  function AfterAll(name: Id -> Id, w: World, steps: seq<Step>): World
    decreases |steps|
  {
    if steps == [] then w else AfterAll(name, After(name, w, steps[0]), steps[1..])
  }

  // ---------- exclusivity ----------

  /** Every reserved player is held by a thread, held players are reserved, and no two threads hold the same player. */
  ghost predicate Exclusive(w: World) {
    && (forall id :: id in w.inMatch ==> exists tid :: tid in w.threads && id in Holds(w.threads[tid]))
    && (forall tid :: tid in w.threads ==> Holds(w.threads[tid]) <= w.inMatch)
    && (forall i, j :: i in w.threads && j in w.threads && i != j ==> Holds(w.threads[i]) !! Holds(w.threads[j]))
  }

  function Held(w: World, tid: nat): set<Id> {
    if tid in w.threads then Holds(w.threads[tid]) else {}
  }

  /** All that a step of thread `tid` may do to the reservations: trade what it holds for players nobody else holds. */
  ghost predicate Trades(w: World, v: World, tid: nat) {
    && (forall i :: i != tid ==> (i in w.threads <==> i in v.threads))
    && (forall i :: i != tid && i in w.threads ==> v.threads[i] == w.threads[i])
    && v.inMatch == (w.inMatch - Held(w, tid)) + Held(v, tid)
    && Held(v, tid) !! (w.inMatch - Held(w, tid))
  }

  lemma TradeKeeps(w: World, v: World, tid: nat)
    requires Exclusive(w) && Trades(w, v, tid)
    ensures Exclusive(v)
  {
    hide Holds;
    forall id | id in v.inMatch ensures exists i :: i in v.threads && id in Holds(v.threads[i]) {
      if id !in Held(v, tid) {
        var i :| i in w.threads && id in Holds(w.threads[i]);
        assert i in v.threads;
      }
    }
    forall i | i in v.threads ensures Holds(v.threads[i]) <= v.inMatch {
      assert i != tid && tid in w.threads ==> Holds(w.threads[i]) !! Holds(w.threads[tid]);
    }
  }

  lemma AdvanceHolds(name: Id -> Id, w: World, tid: nat, clock: Lobby.Time)
    requires tid in w.threads && Held(w, tid) <= w.inMatch
    ensures var v := RunSection(name, w, tid, clock);
            && v.inMatch == (w.inMatch - Held(w, tid)) + Held(v, tid)
            && Held(v, tid) !! (w.inMatch - Held(w, tid))
  {
    hide AdvanceAlone, AdvancePair, Held;
    if Alone(w.threads[tid]) {
      AloneHolds(w, tid, clock);
    } else {
      PairHolds(name, w, tid);
    }
  }

  lemma AloneHolds(w: World, tid: nat, clock: Lobby.Time)
    requires tid in w.threads && Alone(w.threads[tid]) && Held(w, tid) <= w.inMatch
    ensures var v := AdvanceAlone(w, tid, clock);
            && v.inMatch == (w.inMatch - Held(w, tid)) + Held(v, tid)
            && Held(v, tid) !! (w.inMatch - Held(w, tid))
  {
    hide Lobby.After;
  }

  lemma PairHolds(name: Id -> Id, w: World, tid: nat)
    requires tid in w.threads && !Alone(w.threads[tid]) && Held(w, tid) <= w.inMatch
    ensures var v := AdvancePair(name, w, tid);
            && v.inMatch == (w.inMatch - Held(w, tid)) + Held(v, tid)
            && Held(v, tid) !! (w.inMatch - Held(w, tid))
  {
  }

  lemma AdvanceTrades(name: Id -> Id, w: World, tid: nat, clock: Lobby.Time)
    requires tid in w.threads && Held(w, tid) <= w.inMatch
    ensures Trades(w, RunSection(name, w, tid, clock), tid)
  {
    hide RunSection, Held;
    AdvanceHolds(name, w, tid, clock);
    ThreadProgresses(name, w, tid, clock);
  }

  function Actor(step: Step): nat {
    match step
    case Enqueue(tid, _) => tid
    case Practise(tid, _) => tid
    case Pop(tid, _, _) => tid
    case Go(tid, _) => tid
    case _ => 0
  }

  lemma StepTrades(name: Id -> Id, w: World, step: Step)
    requires Exclusive(w)
    ensures Trades(w, After(name, w, step), Actor(step))
  {
    assert Held(w, Actor(step)) <= w.inMatch;
    hide Exclusive;
    if step.Go? && step.tid in w.threads {
      hide After;
      AdvanceTrades(name, w, step.tid, step.clock);
      assert After(name, w, step) == RunSection(name, w, step.tid, step.clock) by {
        GoAdvances(name, w, step.tid, step.clock);
      }
    } else {
      OthersTrade(name, w, step);
    }
  }

  lemma GoAdvances(name: Id -> Id, w: World, tid: nat, clock: Lobby.Time)
    requires tid in w.threads
    ensures After(name, w, Go(tid, clock)) == RunSection(name, w, tid, clock)
  {
    hide RunSection;
  }

  lemma OthersTrade(name: Id -> Id, w: World, step: Step)
    requires Held(w, Actor(step)) <= w.inMatch && (step.Go? ==> step.tid !in w.threads)
    ensures Trades(w, After(name, w, step), Actor(step))
  {
    hide Lobby.After, Lobby.PairSpec, RunSection;
  }

  // ---------- reserved as often as released ----------

  function Reserves(name: Id -> Id, w: World, step: Step): set<Id> {
    After(name, w, step).inMatch - w.inMatch
  }

  /** The players whose reservation the section deletes. */
  function Releases(w: World, step: Step): set<Id> {
    if step.Go? && step.tid in w.threads then
      match w.threads[step.tid]
      case Practising(id) => {id}
      case Refusing(a, b, _) => {a, b}
      case Closing(a, b) => {a, b}
      case _ => {}
    else {}
  }

  function TimesReserved(name: Id -> Id, w: World, steps: seq<Step>, id: Id): nat
    decreases |steps|
  {
    if steps == [] then 0
    else (if id in Reserves(name, w, steps[0]) then 1 else 0)
         + TimesReserved(name, After(name, w, steps[0]), steps[1..], id)
  }

  function TimesReleased(name: Id -> Id, w: World, steps: seq<Step>, id: Id): nat
    decreases |steps|
  {
    if steps == [] then 0
    else (if id in Releases(w, steps[0]) then 1 else 0) + TimesReleased(name, After(name, w, steps[0]), steps[1..], id)
  }

  lemma StepBalances(name: Id -> Id, w: World, step: Step)
    requires Exclusive(w)
    ensures Releases(w, step) <= w.inMatch
    ensures After(name, w, step).inMatch == w.inMatch - Releases(w, step) + Reserves(name, w, step)
    ensures Reserves(name, w, step) !! w.inMatch
  {
    hide Lobby.After, Lobby.PairSpec;
    if step.Go? && step.tid in w.threads {
      assert Holds(w.threads[step.tid]) <= w.inMatch;
    }
  }

  /**
   Over every interleaving, no player is in two matches at once, the reserved players are exactly those held by live
   threads, and each release deletes a reservation that is there: a player has been reserved as often as released,
   plus once if they are reserved now.
   */
  lemma {:induction false} MatchesAreExclusive(name: Id -> Id, w: World, steps: seq<Step>, id: Id)
    requires Exclusive(w)
    ensures var v := AfterAll(name, w, steps);
            && Exclusive(v)
            && TimesReserved(name, w, steps, id) + (if id in w.inMatch then 1 else 0)
               == TimesReleased(name, w, steps, id) + if id in v.inMatch then 1 else 0
    decreases |steps|
  {
    hide Exclusive, After, Releases, Reserves;
    if steps != [] {
      var step := steps[0];
      StepTrades(name, w, step);
      TradeKeeps(w, After(name, w, step), Actor(step));
      StepBalances(name, w, step);
      MatchesAreExclusive(name, After(name, w, step), steps[1..], id);
    }
  }

  // ---------- nothing stays reserved ----------

  /** Sections a thread still has to run. */
  function SectionsLeft(t: Thread): (sections: nat)
    ensures sections > 0
  {
    match t
    case Joining(_) => 1
    case Asking(_) => 3
    case Leaving(_) => 2
    case Practising(_) => 1
    case Popped(_, _) => 8
    case Looking(_, _) => 7
    case Looked(_, _, _) => 6
    case Refusing(_, _, back) => 2 + |back|
    case Requeueing(back) => 1 + |back|
    case Starting(_, _) => 3
    case Listed(_, _) => 2
    case Closing(_, _) => 1
  }

  lemma ThreadProgresses(name: Id -> Id, w: World, tid: nat, clock: Lobby.Time)
    requires tid in w.threads
    ensures var v := RunSection(name, w, tid, clock);
            || v.threads == w.threads - {tid}
            || (tid in v.threads && v.threads == w.threads[tid := v.threads[tid]]
                && SectionsLeft(v.threads[tid]) < SectionsLeft(w.threads[tid]))
  {
    if Alone(w.threads[tid]) {
      hide Lobby.After, AdvancePair;
      assert RunSection(name, w, tid, clock) == AdvanceAlone(w, tid, clock);
    } else {
      hide AdvanceAlone;
      assert RunSection(name, w, tid, clock) == AdvancePair(name, w, tid);
    }
  }

  lemma {:induction false} AfterAllConcat(name: Id -> Id, w: World, a: seq<Step>, b: seq<Step>)
    ensures AfterAll(name, w, a + b) == AfterAll(name, AfterAll(name, w, a), b)
    decreases |a|
  {
    hide After;
    if a == [] {
      assert a + b == b;
    } else {
      assert (a + b)[1..] == a[1..] + b;
      AfterAllConcat(name, After(name, w, a[0]), a[1..], b);
    }
  }

  /** A thread left to itself finishes, whatever state it is in, and the other threads stay as they are. */
  lemma {:induction false} ThreadFinishes(name: Id -> Id, w: World, tid: nat) returns (steps: seq<Step>)
    requires tid in w.threads
    ensures AfterAll(name, w, steps).threads == w.threads - {tid}
    decreases SectionsLeft(w.threads[tid])
  {
    hide RunSection, SectionsLeft;
    ThreadProgresses(name, w, tid, 0);
    var v := RunSection(name, w, tid, 0);
    assert After(name, w, Go(tid, 0)) == v;
    steps := [];
    if tid in v.threads {
      steps := ThreadFinishes(name, v, tid);
      assert w.threads[tid := v.threads[tid]] - {tid} == w.threads - {tid};
    }
    steps := [Go(tid, 0)] + steps;
  }

  /** From every state of every run the live threads can finish, and then nobody is reserved any more. */
  lemma {:induction false} EveryoneIsReleased(name: Id -> Id, w: World) returns (steps: seq<Step>)
    requires Exclusive(w)
    ensures AfterAll(name, w, steps).threads == map[] && AfterAll(name, w, steps).inMatch == {}
    decreases |w.threads|
  {
    hide After, Holds;
    if w.threads == map[] {
      return [];
    }
    var tid :| tid in w.threads;
    steps := ThreadFinishes(name, w, tid);
    MatchesAreExclusive(name, w, steps, []);
    assert |w.threads - {tid}| < |w.threads| by {
      assert (w.threads - {tid}).Keys == w.threads.Keys - {tid};
      assert |w.threads.Keys - {tid}| < |w.threads.Keys|;
    }
    var more := EveryoneIsReleased(name, AfterAll(name, w, steps));
    AfterAllConcat(name, w, steps, more);
    steps := steps + more;
  }

  // ---------- finding a match by handle ----------

  /** The active matches are the listed ones. */
  ghost predicate Registered(w: World) {
    && (forall tid :: tid in w.active <==> tid in w.threads && w.threads[tid].Listed?)
    && (forall tid :: tid in w.active ==> w.active[tid] == (w.threads[tid].a, w.threads[tid].b))
  }

  /** A handle that is found leads to an active match of a player with that handle. */
  ghost predicate IndexSound(name: Id -> Id, w: World) {
    forall h :: h in w.byHandle ==>
      && w.byHandle[h] in w.active
      && (h == name(w.active[w.byHandle[h]].0) || h == name(w.active[w.byHandle[h]].1))
  }

  /** Every active match is found under both its players' handles. */
  ghost predicate IndexComplete(name: Id -> Id, w: World) {
    forall tid :: tid in w.active ==>
      && name(w.active[tid].0) in w.byHandle && w.byHandle[name(w.active[tid].0)] == tid
      && name(w.active[tid].1) in w.byHandle && w.byHandle[name(w.active[tid].1)] == tid
  }

  /** A match is about to be listed under a handle that is in use. */
  predicate Clash(name: Id -> Id, w: World, step: Step) {
    && step.Go? && step.tid in w.threads && w.threads[step.tid].Starting?
    && (name(w.threads[step.tid].a) in w.byHandle || name(w.threads[step.tid].b) in w.byHandle)
  }

  lemma OtherStepsLeaveTheIndex(name: Id -> Id, w: World, step: Step)
    requires Registered(w)
    requires step.Go? && step.tid in w.threads ==> !w.threads[step.tid].Starting? && !w.threads[step.tid].Listed?
    ensures Registered(After(name, w, step))
    ensures After(name, w, step).active == w.active && After(name, w, step).byHandle == w.byHandle
  {
    hide Lobby.After, Lobby.PairSpec, RunSection;
    if step.Go? && step.tid in w.threads {
      OtherSectionsLeaveTheIndex(name, w, step.tid, step.clock);
    }
  }

  lemma OtherSectionsLeaveTheIndex(name: Id -> Id, w: World, tid: nat, clock: Lobby.Time)
    requires Registered(w) && tid in w.threads && !w.threads[tid].Starting? && !w.threads[tid].Listed?
    ensures var v := RunSection(name, w, tid, clock);
            Registered(v) && v.active == w.active && v.byHandle == w.byHandle
  {
    hide Lobby.After;
    var v := RunSection(name, w, tid, clock);
    ThreadProgresses(name, w, tid, clock);
    assert tid in v.threads ==> !v.threads[tid].Listed?;
    assert v.active == w.active && v.byHandle == w.byHandle;
    hide RunSection;
  }

  lemma ListingIndexes(name: Id -> Id, w: World, tid: nat, clock: Lobby.Time)
    requires Registered(w) && IndexSound(name, w) && IndexComplete(name, w)
    requires tid in w.threads && w.threads[tid].Starting?
    ensures var v := RunSection(name, w, tid, clock);
            && Registered(v) && IndexSound(name, v)
            && (IndexComplete(name, v) <==> !Clash(name, w, Go(tid, clock)))
  {
    var v := RunSection(name, w, tid, clock);
    var a, b := w.threads[tid].a, w.threads[tid].b;
    assert tid !in w.active && v.active[tid] == (a, b);
    forall h | h in v.byHandle
      ensures v.byHandle[h] in v.active
      ensures h == name(v.active[v.byHandle[h]].0) || h == name(v.active[v.byHandle[h]].1)
    {
      if h == name(a) || h == name(b) {
        assert v.byHandle[h] == tid;
      }
    }
    if Clash(name, w, Go(tid, clock)) {
      var h := if name(a) in w.byHandle then name(a) else name(b);
      var other := w.byHandle[h];
      assert other in v.active && other != tid && v.active[other] == w.active[other];
    }
  }

  lemma UnlistingIndexes(name: Id -> Id, w: World, tid: nat, clock: Lobby.Time)
    requires Registered(w) && IndexSound(name, w) && tid in w.threads && w.threads[tid].Listed?
    ensures var v := RunSection(name, w, tid, clock);
            Registered(v) && (IndexComplete(name, w) ==> IndexSound(name, v) && IndexComplete(name, v))
  {
  }

  /**
   One section keeps every lookup right exactly when it does not list a match under a handle that is already listed.
   Handles are unique only before they are lower-cased, so such a clash can happen (`LowerCaseClash`).
   */
  lemma LookupStaysRight(name: Id -> Id, w: World, step: Step)
    requires Registered(w) && IndexSound(name, w) && IndexComplete(name, w)
    ensures var v := After(name, w, step);
            && Registered(v) && IndexSound(name, v)
            && (IndexComplete(name, v) <==> !Clash(name, w, step))
  {
    hide Lobby.After, Lobby.PairSpec, RunSection;
    if step.Go? && step.tid in w.threads && w.threads[step.tid].Starting? {
      ListingIndexes(name, w, step.tid, step.clock);
    } else if step.Go? && step.tid in w.threads && w.threads[step.tid].Listed? {
      UnlistingIndexes(name, w, step.tid, step.clock);
    } else {
      OtherStepsLeaveTheIndex(name, w, step);
    }
  }

  /** With handles that stay different in lower case, exclusivity rules out every clash. */
  lemma NoClash(name: Id -> Id, w: World, step: Step)
    requires forall x, y :: name(x) == name(y) ==> x == y
    requires Exclusive(w) && Registered(w) && IndexSound(name, w)
    ensures !Clash(name, w, step)
  {
    hide Exclusive, Registered, IndexSound;
    if step.Go? && step.tid in w.threads && w.threads[step.tid].Starting? {
      var t := w.threads[step.tid];
      StartersAreUnlisted(name, w, step.tid, t.a);
      StartersAreUnlisted(name, w, step.tid, t.b);
    }
  }

  lemma StartersAreUnlisted(name: Id -> Id, w: World, tid: nat, x: Id)
    requires forall y :: name(x) == name(y) ==> x == y
    requires Exclusive(w) && Registered(w) && IndexSound(name, w)
    requires tid in w.threads && w.threads[tid].Starting? && (x == w.threads[tid].a || x == w.threads[tid].b)
    ensures name(x) !in w.byHandle
  {
    if name(x) in w.byHandle {
      hide Exclusive;
      HeldOnce(w, tid, w.byHandle[name(x)], x);
    }
  }

  lemma HeldOnce(w: World, i: nat, j: nat, id: Id)
    requires Exclusive(w) && i in w.threads && j in w.threads
    requires id in Holds(w.threads[i]) && id in Holds(w.threads[j])
    ensures i == j
  {
  }

  /** The match a handle leads to. */
  function Find(w: World, handle: Id): Option<nat> {
    if handle == [] || handle !in w.byHandle || w.byHandle[handle] !in w.active then None else Some(w.byHandle[handle])
  }

  /** With the lookups right, a player's handle leads to a match exactly when the player is in a listed one: that
      one. */
  lemma FindIsExact(name: Id -> Id, w: World, id: Id, tid: nat)
    requires forall x, y :: name(x) == name(y) ==> x == y
    requires IndexSound(name, w) && IndexComplete(name, w) && name(id) != []
    ensures Find(w, name(id)) == Some(tid) <==> tid in w.active && (id == w.active[tid].0 || id == w.active[tid].1)
  {
    if tid in w.active && (id == w.active[tid].0 || id == w.active[tid].1) {
      hide IndexSound;
    } else {
      hide IndexComplete;
    }
  }

  /** Then every spectator of every run finds exactly the match the player is in. */
  lemma {:induction false} LookupsAreRight(name: Id -> Id, w: World, steps: seq<Step>)
    requires forall x, y :: name(x) == name(y) ==> x == y
    requires Exclusive(w) && Registered(w) && IndexSound(name, w) && IndexComplete(name, w)
    ensures var v := AfterAll(name, w, steps); Registered(v) && IndexSound(name, v) && IndexComplete(name, v)
    decreases |steps|
  {
    hide Exclusive, Registered, IndexSound, IndexComplete, After, Clash;
    if steps != [] {
      var v := After(name, w, steps[0]);
      StepTrades(name, w, steps[0]);
      TradeKeeps(w, v, Actor(steps[0]));
      NoClash(name, w, steps[0]);
      LookupStaysRight(name, w, steps[0]);
      LookupsAreRight(name, v, steps[1..]);
    }
  }

  // ---------- where queue and reservations meet ----------

  predicate Overlaps(w: World, id: Id) {
    id in w.lobby.queuedAt && id in w.inMatch
  }

  /** The sections that put a player in the queue and in a match at the same time. */
  predicate Collides(w: World, step: Step, id: Id) {
    && step.Go? && step.tid in w.threads
    && match w.threads[step.tid]
       case Joining(joined) => joined == id && id in w.lobby.sessions && id in w.inMatch
       case Requeueing(back) => back != [] && back[0] == id && id in w.lobby.sessions && id in w.inMatch
       case Asking(asked) => asked == id && id in w.lobby.queuedAt
       case Popped(a, b) => (a == id || b == id) && id in w.lobby.queuedAt && a !in w.inMatch && b !in w.inMatch
       case _ => false
  }

  lemma LobbyStepKeepsOut(l: Lobby.Waiting, step: Lobby.Step, id: Id)
    requires id !in l.queuedAt && (step.Join? ==> step.id != id || id !in l.sessions)
    ensures id !in Lobby.After(l, step).queuedAt
  {
    hide Lobby.Keep, Lobby.Expired;
  }

  lemma JoinLetsIn(l: Lobby.Waiting, id: Id, at: Lobby.Time, other: Id)
    ensures other in Lobby.After(l, Lobby.Join(id, at)).queuedAt <==>
              other in l.queuedAt || (other == id && id in l.sessions)
  {
  }

  /** A player becomes both queued and reserved exactly in the sections named by `Collides`. */
  lemma OverlapAppearsExactly(name: Id -> Id, w: World, step: Step, id: Id)
    requires !Overlaps(w, id)
    ensures Overlaps(After(name, w, step), id) <==> Collides(w, step, id)
  {
    hide Lobby.After, Lobby.PairSpec, RunSection;
    if step.Go? && step.tid in w.threads {
      SectionOverlaps(name, w, step.tid, step.clock, id);
    } else if id !in w.lobby.queuedAt {
      match step
      case Register(x) => LobbyStepKeepsOut(w.lobby, Lobby.Register(x), id);
      case Unregister(x) => LobbyStepKeepsOut(w.lobby, Lobby.Unregister(x), id);
      case Dequeue(x) => LobbyStepKeepsOut(w.lobby, Lobby.Leave(x), id);
      case Pop(_, now, timeout) => LobbyStepKeepsOut(w.lobby, Lobby.Pop(now, timeout), id);
      case _ =>
    }
  }

  lemma SectionOverlaps(name: Id -> Id, w: World, tid: nat, clock: Lobby.Time, id: Id)
    requires !Overlaps(w, id) && tid in w.threads
    ensures Overlaps(RunSection(name, w, tid, clock), id) <==> Collides(w, Go(tid, clock), id)
  {
    hide Lobby.After;
    match w.threads[tid]
    case Joining(x) => JoinLetsIn(w.lobby, x, clock, id);
    case Requeueing(back) =>
      if back != [] {
        JoinLetsIn(w.lobby, back[0], clock, id);
      }
    case Leaving(x) =>
      if id !in w.lobby.queuedAt {
        LobbyStepKeepsOut(w.lobby, Lobby.Leave(x), id);
      }
    case _ =>
  }

  /** A popped pair plays on exactly when both are free; otherwise it is dropped, and neither player rejoins the
      queue. */
  lemma PairIsDroppedExactly(name: Id -> Id, w: World, tid: nat, clock: Lobby.Time)
    requires tid in w.threads && w.threads[tid].Popped?
    ensures var v, t := After(name, w, Go(tid, clock)), w.threads[tid];
            if t.a in w.inMatch || t.b in w.inMatch then v == w.(threads := w.threads - {tid})
            else
              && v.inMatch == w.inMatch + {t.a, t.b} && v.lobby == w.lobby
              && v.threads == w.threads[tid := Looking(t.a, t.b)]
  {
  }

  /** Enqueue's check and its join are two sections, and a practice match can start in between. */
  function QueuedInMatch(x: Id): seq<Step> {
    [Register(x), Enqueue(0, x), Practise(1, x), Go(1, 0), Go(1, 0), Go(0, 0)]
  }

  lemma ReservedPlayersCanBeQueued(name: Id -> Id, x: Id)
    requires x != []
    ensures AfterAll(name, EMPTY, QueuedInMatch(x)) ==
              World(Lobby.Waiting({x}, map[x := 0], [x]), {x}, map[], map[], map[1 := Practising(x)])
  {
    var steps := QueuedInMatch(x);
    var lobby := Lobby.Waiting({x}, map[], []);
    var w1 := After(name, EMPTY, steps[0]);
    assert w1 == EMPTY.(lobby := lobby);
    var w2 := After(name, w1, steps[1]);
    assert w2 == w1.(threads := map[0 := Joining(x)]);
    var w3 := After(name, w2, steps[2]);
    assert w3 == w1.(threads := map[0 := Joining(x), 1 := Asking(x)]);
    var w4 := After(name, w3, steps[3]);
    assert w4 == w1.(inMatch := {x}, threads := map[0 := Joining(x), 1 := Leaving(x)]);
    var w5 := After(name, w4, steps[4]);
    assert w5 == w1.(inMatch := {x}, threads := map[0 := Joining(x), 1 := Practising(x)]);
    var w6 := After(name, w5, steps[5]);
    assert w6.threads == map[1 := Practising(x)];
    Unroll(name, EMPTY, steps, [w1, w2, w3, w4, w5, w6]);
  }

  lemma {:induction false} Unroll(name: Id -> Id, w: World, steps: seq<Step>, path: seq<World>)
    requires |path| == |steps| > 0 && path[0] == After(name, w, steps[0])
    requires forall i :: 0 < i < |path| ==> path[i] == After(name, path[i - 1], steps[i])
    ensures AfterAll(name, w, steps) == path[|path| - 1]
    decreases |steps|
  {
    hide After;
    if |steps| > 1 {
      Unroll(name, path[0], steps[1..], path[1..]);
    } else {
      assert AfterAll(name, path[0], steps[1..]) == path[0];
    }
  }

  /** The opponent such a player is paired with loses their place: registered, but neither queued nor playing. */
  function LostOpponent(y: Id): seq<Step> {
    [Register(y), Enqueue(2, y), Go(2, 0), Pop(3, 0, 0), Go(3, 0)]
  }

  lemma OpponentsCanBeDropped(name: Id -> Id, x: Id, y: Id)
    requires x != [] && y != [] && x != y
    ensures AfterAll(name, EMPTY, QueuedInMatch(x) + LostOpponent(y)) ==
              World(Lobby.Waiting({x, y}, map[], []), {x}, map[], map[], map[1 := Practising(x)])
  {
    ReservedPlayersCanBeQueued(name, x);
    AfterAllConcat(name, EMPTY, QueuedInMatch(x), LostOpponent(y));
    var threads := map[1 := Practising(x)];
    var w := World(Lobby.Waiting({x}, map[x := 0], [x]), {x}, map[], map[], threads);
    var steps := LostOpponent(y);
    var w1 := After(name, w, steps[0]);
    assert w1 == w.(lobby := Lobby.Waiting({x, y}, map[x := 0], [x]));
    var w2 := After(name, w1, steps[1]);
    assert w2 == w1.(threads := threads[2 := Joining(y)]);
    var w3 := After(name, w2, steps[2]);
    assert w3 == w1.(lobby := Lobby.Waiting({x, y}, map[x := 0, y := 0], [x, y])) by {
      assert threads[2 := Joining(y)] - {2} == threads;
    }
    var w4 := After(name, w3, steps[3]);
    PopOfTwo(w3.lobby, x, y);
    assert w4 == w1.(lobby := Lobby.Waiting({x, y}, map[], []), threads := threads[3 := Popped(x, y)]);
    var w5 := After(name, w4, steps[4]);
    assert threads[3 := Popped(x, y)] - {3} == threads;
    Unroll(name, w, steps, [w1, w2, w3, w4, w5]);
  }

  lemma PopOfTwo(l: Lobby.Waiting, x: Id, y: Id)
    requires l.queue == [x, y] && l.queuedAt == map[x := 0, y := 0]
    ensures Lobby.PairSpec(l, 0, 0) == Some((x, y))
    ensures Lobby.After(l, Lobby.Pop(0, 0)) == l.(queue := [], queuedAt := map[])
  {
    Lobby.KeepAll(l.queue, {});
    assert l.queuedAt - {} == l.queuedAt;
    assert l.queuedAt - {x, y} == map[];
  }

  // ---------- two handles that meet in lower case ----------

  predicate Unclaimed(w: World, tid: nat, a: Id, b: Id) {
    && w.lobby.queue == [] && w.lobby.queuedAt == map[]
    && a != b && a != [] && b != [] && a !in w.inMatch && b !in w.inMatch
    && tid !in w.threads
  }

  function Queueing(tid: nat, a: Id, b: Id): seq<Step> {
    [Register(a), Register(b), Enqueue(tid, a), Go(tid, 0), Enqueue(tid, b), Go(tid, 0)]
  }

  function Meeting(tid: nat): seq<Step> {
    [Pop(tid, 0, 0), Go(tid, 0), Go(tid, 0), Go(tid, 0), Go(tid, 0)]
  }

  lemma BothQueue(name: Id -> Id, w: World, tid: nat, a: Id, b: Id)
    requires Unclaimed(w, tid, a, b)
    ensures AfterAll(name, w, Queueing(tid, a, b)) ==
              w.(lobby := Lobby.Waiting(w.lobby.sessions + {a, b}, map[a := 0, b := 0], [a, b]))
  {
    var steps := Queueing(tid, a, b);
    var w1 := After(name, w, steps[0]);
    var w2 := After(name, w1, steps[1]);
    var sessions := w.lobby.sessions + {a, b};
    assert w2 == w.(lobby := Lobby.Waiting(sessions, map[], []));
    hide After;
    OneQueues(name, w2, tid, a);
    var w3 := After(name, w2, steps[2]);
    var w4 := After(name, w3, steps[3]);
    OneQueues(name, w4, tid, b);
    var w5 := After(name, w4, steps[4]);
    var w6 := After(name, w5, steps[5]);
    assert w4.lobby.queuedAt[b := 0] == map[a := 0, b := 0] && w4.lobby.queue + [b] == [a, b];
    Unroll(name, w, steps, [w1, w2, w3, w4, w5, w6]);
  }

  lemma OneQueues(name: Id -> Id, w: World, tid: nat, x: Id)
    requires tid !in w.threads && x !in w.inMatch && x in w.lobby.sessions && x !in w.lobby.queuedAt
    ensures var v := After(name, After(name, w, Enqueue(tid, x)), Go(tid, 0));
            v == w.(lobby := w.lobby.(queue := w.lobby.queue + [x], queuedAt := w.lobby.queuedAt[x := 0]))
  {
    assert w.threads[tid := Joining(x)] - {tid} == w.threads;
  }

  lemma BothMeet(name: Id -> Id, w: World, tid: nat, a: Id, b: Id)
    requires w.lobby.queue == [a, b] && w.lobby.queuedAt == map[a := 0, b := 0] && {a, b} <= w.lobby.sessions
    requires a != b && a != [] && b != [] && a !in w.inMatch && b !in w.inMatch && tid !in w.threads
    ensures AfterAll(name, w, Meeting(tid)) ==
              World(w.lobby.(queue := [], queuedAt := map[]), w.inMatch + {a, b}, w.active[tid := (a, b)],
                    w.byHandle[name(a) := tid][name(b) := tid], w.threads[tid := Listed(a, b)])
  {
    hide Lobby.After, Lobby.PairSpec, RunSection;
    var steps := Meeting(tid);
    PopOfTwo(w.lobby, a, b);
    var v := w.(lobby := w.lobby.(queue := [], queuedAt := map[]));
    var w1 := v.(threads := w.threads[tid := Popped(a, b)]);
    assert w1 == After(name, w, steps[0]);
    v := v.(inMatch := w.inMatch + {a, b});
    var w2 := v.(threads := w.threads[tid := Looking(a, b)]);
    var w3 := v.(threads := w.threads[tid := Looked(a, b, true)]);
    var w4 := v.(threads := w.threads[tid := Starting(a, b)]);
    Moves(name, w1, tid, w.threads);
    Moves(name, w2, tid, w.threads);
    Moves(name, w3, tid, w.threads);
    Moves(name, w4, tid, w.threads);
    Unroll(name, w, steps, [w1, w2, w3, w4, After(name, w4, steps[4])]);
  }

  /** A pair that finds nothing in its way, one section on. */
  lemma Moves(name: Id -> Id, w: World, tid: nat, others: map<nat, Thread>)
    requires tid in w.threads && w.threads == others[tid := w.threads[tid]]
    ensures var t, v := w.threads[tid], After(name, w, Go(tid, 0));
            match t
            case Popped(a, b) =>
              a !in w.inMatch && b !in w.inMatch ==>
                v == w.(inMatch := w.inMatch + {a, b}, threads := others[tid := Looking(a, b)])
            case Looking(a, b) => a in w.lobby.sessions ==> v == w.(threads := others[tid := Looked(a, b, true)])
            case Looked(a, b, true) => b in w.lobby.sessions ==> v == w.(threads := others[tid := Starting(a, b)])
            case Starting(a, b) =>
              v == w.(active := w.active[tid := (a, b)], byHandle := w.byHandle[name(a) := tid][name(b) := tid],
                      threads := others[tid := Listed(a, b)])
            case _ => true
  {
    var t := After(name, w, Go(tid, 0)).threads;
    assert tid in t ==> t == others[tid := t[tid]];
  }

  /**
   Two players whose handles differ only in case play in different matches: the first player's handle then leads to the
   second player's match, and once that one ends to none at all, although the first match still runs.
   */
  lemma LowerCaseClash(name: Id -> Id, a: Id, b: Id, c: Id, d: Id)
    requires a != [] && b != [] && c != [] && d != []
    requires a != b && c != d && {a, b} !! {c, d}
    requires name(a) == name(c)
    ensures var during := Queueing(0, a, b) + Meeting(0) + (Queueing(1, c, d) + Meeting(1));
            && var v := AfterAll(name, EMPTY, during);
            && v.active == map[0 := (a, b), 1 := (c, d)] && name(a) in v.byHandle && v.byHandle[name(a)] == 1
            && var u := AfterAll(name, v, [Go(1, 0)]);
            && u.active == map[0 := (a, b)] && name(a) !in u.byHandle
  {
    hide After, RunSection, Queueing, Meeting, AfterAll;
    var first, second := Queueing(0, a, b) + Meeting(0), Queueing(1, c, d) + Meeting(1);
    PairStarts(name, EMPTY, 0, a, b);
    PairStarts(name, AfterAll(name, EMPTY, first), 1, c, d);
    AfterAllConcat(name, EMPTY, first, second);
    SecondMatchEnds(name, AfterAll(name, EMPTY, first + second), c, d);
  }

  lemma PairStarts(name: Id -> Id, w: World, tid: nat, a: Id, b: Id)
    requires Unclaimed(w, tid, a, b)
    ensures AfterAll(name, w, Queueing(tid, a, b) + Meeting(tid)) ==
              World(Lobby.Waiting(w.lobby.sessions + {a, b}, map[], []), w.inMatch + {a, b}, w.active[tid := (a, b)],
                    w.byHandle[name(a) := tid][name(b) := tid], w.threads[tid := Listed(a, b)])
  {
    hide After, RunSection, Queueing, Meeting, AfterAll;
    BothQueue(name, w, tid, a, b);
    BothMeet(name, AfterAll(name, w, Queueing(tid, a, b)), tid, a, b);
    AfterAllConcat(name, w, Queueing(tid, a, b), Meeting(tid));
  }

  lemma SecondMatchEnds(name: Id -> Id, w: World, c: Id, d: Id)
    requires 1 in w.threads && w.threads[1] == Listed(c, d)
    ensures var u := AfterAll(name, w, [Go(1, 0)]);
            u.active == w.active - {1} && u.byHandle == w.byHandle - {name(c), name(d)}
  {
    var v := After(name, w, Go(1, 0));
    Unroll(name, w, [Go(1, 0)], [v]);
  }

  // ---------- the critical sections ----------

  /**
   The service's maps. Each method is one section under its lock; the ghost `w` is the world it runs in and `tid`
   the thread that runs it, and `Shows` says that the maps follow the protocol's step.
   */
  class Desk {
    var inMatch: set<Id>
    var active: map<nat, (Id, Id)>
    var byHandle: map<Id, nat>

    ghost predicate Shows(w: World)
      reads this
    {
      inMatch == w.inMatch && active == w.active && byHandle == w.byHandle
    }

    constructor ()
      ensures Shows(EMPTY)
    {
      inMatch := {};
      active := map[];
      byHandle := map[];
    }

    method ReserveForPractice(id: Id, ghost name: Id -> Id, ghost w: World, ghost tid: nat) returns (ok: bool)
      requires Shows(w) && tid in w.threads && w.threads[tid] == Asking(id)
      modifies this`inMatch
      ensures Shows(RunSection(name, w, tid, 0))
      ensures ok <==> RunSection(name, w, tid, 0).threads == w.threads[tid := Leaving(id)]
    {
      assert tid !in (w.threads - {tid});
      if id in inMatch {
        return false;
      }
      inMatch := inMatch + {id};
      return true;
    }

    method ReservePair(a: Id, b: Id, ghost name: Id -> Id, ghost w: World, ghost tid: nat) returns (ok: bool)
      requires Shows(w) && tid in w.threads && w.threads[tid] == Popped(a, b)
      modifies this`inMatch
      ensures Shows(RunSection(name, w, tid, 0))
      ensures ok <==> RunSection(name, w, tid, 0).threads == w.threads[tid := Looking(a, b)]
    {
      assert tid !in (w.threads - {tid});
      if a in inMatch {
        return false;
      }
      if b in inMatch {
        return false;
      }
      inMatch := inMatch + {a};
      inMatch := inMatch + {b};
      assert inMatch == w.inMatch + {a, b};
      return true;
    }

    method ReleasePlayers(players: seq<Id>, ghost name: Id -> Id, ghost w: World, ghost tid: nat)
      requires Shows(w) && tid in w.threads
      requires match w.threads[tid]
               case Practising(id) => players == [id]
               case Refusing(a, b, _) => players == [a, b]
               case Closing(a, b) => players == [a, b]
               case _ => false
      modifies this`inMatch
      ensures Shows(RunSection(name, w, tid, 0))
      ensures inMatch == old(inMatch) - Releases(w, Go(tid, 0))
    {
      for i := 0 to |players|
        invariant inMatch == w.inMatch - (set id | id in players[..i])
      {
        inMatch := inMatch - {players[i]};
      }
      assert players[..|players|] == players;
      assert (set id | id in players) == Releases(w, Go(tid, 0));
    }

    method RegisterActiveMatch(matchId: nat, a: Id, b: Id, name: Id -> Id, ghost w: World)
      requires Shows(w) && matchId in w.threads && w.threads[matchId] == Starting(a, b)
      modifies this`active, this`byHandle
      ensures Shows(RunSection(name, w, matchId, 0))
    {
      active := active[matchId := (a, b)];
      byHandle := byHandle[name(a) := matchId];
      byHandle := byHandle[name(b) := matchId];
    }

    method UnregisterActiveMatch(matchId: nat, a: Id, b: Id, name: Id -> Id, ghost w: World)
      requires Shows(w) && matchId in w.threads && w.threads[matchId] == Listed(a, b)
      modifies this`active, this`byHandle
      ensures Shows(RunSection(name, w, matchId, 0))
    {
      active := active - {matchId};
      byHandle := byHandle - {name(a)};
      byHandle := byHandle - {name(b)};
      assert byHandle == w.byHandle - {name(a), name(b)};
    }

    method LookupActiveMatchByHandle(handle: Id, ghost w: World) returns (found: Option<nat>)
      requires Shows(w)
      ensures found == Find(w, handle)
    {
      if handle == [] {
        return None;
      }
      if handle !in byHandle {
        return None;
      }
      return if byHandle[handle] in active then Some(byHandle[handle]) else None;
    }
  }
}
