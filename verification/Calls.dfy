/** What the calls of the matchmaking service come to when nothing else runs in between: module Reservations, thread
    by thread. */
module Calls {
  import opened CombatTypes
  import Lobby
  import opened Reservations

  /** The sections of one thread, one after the other. */
  function Sections(tid: nat, clock: Lobby.Time, n: nat): (steps: seq<Step>)
    ensures |steps| == n
  {
    seq(n, _ => Go(tid, clock))
  }

  function Ran(name: Id -> Id, w: World, tid: nat, clock: Lobby.Time, n: nat): World {
    AfterAll(name, w, Sections(tid, clock, n))
  }

  lemma OneSection(name: Id -> Id, w: World, tid: nat, clock: Lobby.Time, n: nat)
    ensures Ran(name, w, tid, clock, 0) == w
    ensures Ran(name, w, tid, clock, n + 1) == Ran(name, After(name, w, Go(tid, clock)), tid, clock, n)
  {
    assert Sections(tid, clock, n + 1)[1..] == Sections(tid, clock, n);
    hide After;
  }

  /** A thread that has ended does nothing more. */
  lemma {:induction false} NothingLeft(name: Id -> Id, w: World, tid: nat, clock: Lobby.Time, n: nat)
    requires tid !in w.threads
    ensures Ran(name, w, tid, clock, n) == w
  {
    hide Ran, RunSection;
    OneSection(name, w, tid, clock, 0);
    if n > 0 {
      OneSection(name, w, tid, clock, n - 1);
      NothingLeft(name, w, tid, clock, n - 1);
    }
  }

  /** The lobby with one more player waiting, if they are registered and do not wait already. */
  function Queued(l: Lobby.Waiting, id: Id, clock: Lobby.Time): Lobby.Waiting {
    if id in l.sessions && id !in l.queuedAt then l.(queue := l.queue + [id], queuedAt := l.queuedAt[id := clock])
    else l
  }

  /** Enqueueing is refused to exactly the players who are reserved, and otherwise joins the queue. */
  lemma EnqueueAlone(name: Id -> Id, w: World, tid: nat, id: Id, clock: Lobby.Time)
    requires tid !in w.threads
    ensures Ran(name, After(name, w, Enqueue(tid, id)), tid, clock, 1) ==
            if id in w.inMatch then w else w.(lobby := Queued(w.lobby, id, clock))
  {
    var v := After(name, w, Enqueue(tid, id));
    OneSection(name, v, tid, clock, 0);
    OneSection(name, After(name, v, Go(tid, clock)), tid, clock, 0);
    assert id !in w.inMatch ==> v.threads - {tid} == w.threads;
  }

  /** A practice call is refused to players who have no id, no session or a reservation. Otherwise the player is
      reserved, out of the queue, and released once the practice is over. */
  lemma PractiseAlone(name: Id -> Id, w: World, tid: nat, id: Id, clock: Lobby.Time)
    requires tid !in w.threads
    ensures var v := After(name, w, Practise(tid, id));
            var playing := Ran(name, v, tid, clock, 2);
            if id == [] || id !in w.lobby.sessions || id in w.inMatch then playing == w
            else
              && playing == World(Lobby.LeaveSpec(w.lobby, id), w.inMatch + {id}, w.active, w.byHandle,
                                  w.threads[tid := Practising(id)])
              && Ran(name, v, tid, clock, 3) == w.(lobby := Lobby.LeaveSpec(w.lobby, id))
  {
    hide Lobby.LeaveSpec, Ran;
    var v0 := After(name, w, Practise(tid, id));
    if id == [] || id !in w.lobby.sessions {
      NothingLeft(name, w, tid, clock, 2);
    } else {
      assert v0.threads == w.threads[tid := Asking(id)];
      var v1 := After(name, v0, Go(tid, clock));
      OneSection(name, v0, tid, clock, 1);
      OneSection(name, v0, tid, clock, 2);
      if id in w.inMatch {
        assert v1.threads == w.threads;
        NothingLeft(name, w, tid, clock, 1);
      } else {
        assert v1 == w.(inMatch := w.inMatch + {id}, threads := w.threads[tid := Leaving(id)]);
        PractiseRuns(name, w, v1, tid, id, clock);
      }
    }
  }

  lemma PractiseRuns(name: Id -> Id, w: World, v1: World, tid: nat, id: Id, clock: Lobby.Time)
    requires tid !in w.threads && id !in w.inMatch && id in w.lobby.sessions
    requires v1 == w.(inMatch := w.inMatch + {id}, threads := w.threads[tid := Leaving(id)])
    ensures Ran(name, v1, tid, clock, 1) == World(Lobby.LeaveSpec(w.lobby, id), w.inMatch + {id}, w.active, w.byHandle,
                                                   w.threads[tid := Practising(id)])
    ensures Ran(name, v1, tid, clock, 2) == w.(lobby := Lobby.LeaveSpec(w.lobby, id))
  {
    hide Lobby.LeaveSpec, Ran;
    var v2 := After(name, v1, Go(tid, clock));
    assert v2.threads == w.threads[tid := Practising(id)];
    OneSection(name, v1, tid, clock, 0);
    OneSection(name, v1, tid, clock, 1);
    OneSection(name, v2, tid, clock, 0);
    var v3 := After(name, v2, Go(tid, clock));
    assert v3.threads == w.threads && v3.inMatch == w.inMatch;
    OneSection(name, v3, tid, clock, 0);
  }

  // ---------- a pair ----------

  /** A pair that the thread has reserved, in a world that is otherwise `w`. */
  function During(w: World, tid: nat, a: Id, b: Id, t: Thread): World {
    w.(inMatch := w.inMatch + {a, b}, threads := w.threads[tid := t])
  }

  /** Two free players are reserved and looked up. */
  lemma PairIsReserved(name: Id -> Id, w: World, tid: nat, a: Id, b: Id, clock: Lobby.Time)
    requires tid !in w.threads && a !in w.inMatch && b !in w.inMatch
    ensures After(name, w.(threads := w.threads[tid := Popped(a, b)]), Go(tid, clock))
         == During(w, tid, a, b, Looking(a, b))
  {
    var v := After(name, w.(threads := w.threads[tid := Popped(a, b)]), Go(tid, clock));
    assert v.threads == w.threads[tid := Looking(a, b)];
  }

  lemma PairIsLookedUp(name: Id -> Id, w: World, tid: nat, a: Id, b: Id, clock: Lobby.Time)
    requires tid !in w.threads
    ensures var here := a in w.lobby.sessions;
            && After(name, During(w, tid, a, b, Looking(a, b)), Go(tid, clock))
               == During(w, tid, a, b, Looked(a, b, here))
            && After(name, During(w, tid, a, b, Looked(a, b, here)), Go(tid, clock))
               == During(w, tid, a, b, if here && b in w.lobby.sessions then Starting(a, b)
                                       else Refusing(a, b, Found(w, a, b)))
  {
    var here := a in w.lobby.sessions;
    var v := After(name, During(w, tid, a, b, Looking(a, b)), Go(tid, clock));
    assert v.threads == w.threads[tid := Looked(a, b, here)];
    var u := After(name, During(w, tid, a, b, Looked(a, b, here)), Go(tid, clock));
    assert u.threads == w.threads[tid := Decide(a, b, here, b in w.lobby.sessions)];
  }

  /** Whoever of the two has a session. */
  function Found(w: World, a: Id, b: Id): seq<Id> {
    (if a in w.lobby.sessions then [a] else []) + if b in w.lobby.sessions then [b] else []
  }

  /** Both have a session: they play, listed under their handles, and are then released. */
  lemma PairPlays(name: Id -> Id, w: World, tid: nat, a: Id, b: Id, clock: Lobby.Time)
    requires tid !in w.threads && a !in w.inMatch && b !in w.inMatch && {a, b} <= w.lobby.sessions
    ensures var v := w.(threads := w.threads[tid := Popped(a, b)]);
            && Ran(name, v, tid, clock, 4) ==
                 During(w, tid, a, b, Listed(a, b)).(active := w.active[tid := (a, b)],
                                                     byHandle := w.byHandle[name(a) := tid][name(b) := tid])
            && Ran(name, v, tid, clock, 6) ==
                 w.(active := w.active - {tid}, byHandle := w.byHandle - {name(a), name(b)})
  {
    hide Ran;
    var v := w.(threads := w.threads[tid := Popped(a, b)]);
    var v1, v2 := During(w, tid, a, b, Looking(a, b)), During(w, tid, a, b, Looked(a, b, true));
    var v3 := During(w, tid, a, b, Starting(a, b));
    var v4 := After(name, v3, Go(tid, clock));
    assert v4.threads == w.threads[tid := Listed(a, b)];
    PlayersAreReleased(name, w, v4, tid, a, b, clock);
    hide After, During;
    PairIsReserved(name, w, tid, a, b, clock);
    PairIsLookedUp(name, w, tid, a, b, clock);
    Four(name, v, v1, v2, v3, v4, tid, clock, 0);
    Four(name, v, v1, v2, v3, v4, tid, clock, 2);
    OneSection(name, v4, tid, clock, 0);
  }

  /** Several sections, one at a time. */
  lemma Four(name: Id -> Id, v: World, v1: World, v2: World, v3: World, v4: World, tid: nat, clock: Lobby.Time, n: nat)
    requires v1 == After(name, v, Go(tid, clock)) && v2 == After(name, v1, Go(tid, clock))
    requires v3 == After(name, v2, Go(tid, clock)) && v4 == After(name, v3, Go(tid, clock))
    ensures Ran(name, v, tid, clock, n + 4) == Ran(name, v4, tid, clock, n)
  {
    hide Ran, After;
    OneSection(name, v, tid, clock, n + 3);
    OneSection(name, v1, tid, clock, n + 2);
    OneSection(name, v2, tid, clock, n + 1);
    OneSection(name, v3, tid, clock, n);
  }

  lemma PlayersAreReleased(name: Id -> Id, w: World, v4: World, tid: nat, a: Id, b: Id, clock: Lobby.Time)
    requires tid !in w.threads && a !in w.inMatch && b !in w.inMatch
    requires v4 == During(w, tid, a, b, Listed(a, b)).(active := w.active[tid := (a, b)],
                                                       byHandle := w.byHandle[name(a) := tid][name(b) := tid])
    ensures Ran(name, v4, tid, clock, 2) ==
            w.(active := w.active - {tid}, byHandle := w.byHandle - {name(a), name(b)})
  {
    hide Ran;
    OneSection(name, v4, tid, clock, 1);
    var v5 := After(name, v4, Go(tid, clock));
    assert v5.threads == w.threads[tid := Closing(a, b)];
    assert v5.active == w.active - {tid} && v5.byHandle == w.byHandle - {name(a), name(b)};
    OneSection(name, v5, tid, clock, 0);
    var v6 := After(name, v5, Go(tid, clock));
    assert v6.threads == w.threads && v6.inMatch == w.inMatch;
    OneSection(name, v6, tid, clock, 0);
  }

  lemma PairIsRefused(name: Id -> Id, w: World, tid: nat, a: Id, b: Id, clock: Lobby.Time)
    requires tid !in w.threads && a !in w.inMatch && b !in w.inMatch && !({a, b} <= w.lobby.sessions)
    ensures Ran(name, w.(threads := w.threads[tid := Popped(a, b)]), tid, clock, 6) ==
            Ran(name, w.(threads := w.threads[tid := Requeueing(Found(w, a, b))]), tid, clock, 2)
  {
    hide Ran, Found;
    var v, back := w.(threads := w.threads[tid := Popped(a, b)]), Found(w, a, b);
    var v1, v2 := During(w, tid, a, b, Looking(a, b)), During(w, tid, a, b, Looked(a, b, a in w.lobby.sessions));
    var v3 := During(w, tid, a, b, Refusing(a, b, back));
    var v4 := After(name, v3, Go(tid, clock));
    assert v4.inMatch == w.inMatch && v4.threads == w.threads[tid := Requeueing(back)];
    hide After, During;
    PairIsReserved(name, w, tid, a, b, clock);
    PairIsLookedUp(name, w, tid, a, b, clock);
    Four(name, v, v1, v2, v3, v4, tid, clock, 2);
  }

  /** A session is missing: nobody plays, both are released, and the one who is there, if any, rejoins the queue. */
  lemma PairIsSentBack(name: Id -> Id, w: World, tid: nat, a: Id, b: Id, clock: Lobby.Time)
    requires tid !in w.threads && a !in w.inMatch && b !in w.inMatch && !({a, b} <= w.lobby.sessions)
    ensures Ran(name, w.(threads := w.threads[tid := Popped(a, b)]), tid, clock, 6) ==
            w.(lobby := if a in w.lobby.sessions then Queued(w.lobby, a, clock)
                        else if b in w.lobby.sessions then Queued(w.lobby, b, clock) else w.lobby)
  {
    hide Ran, Queued;
    PairIsRefused(name, w, tid, a, b, clock);
    RejoinsAlone(name, w, w.(threads := w.threads[tid := Requeueing(Found(w, a, b))]), tid, Found(w, a, b), clock);
  }

  lemma RejoinsAlone(name: Id -> Id, w: World, v: World, tid: nat, back: seq<Id>, clock: Lobby.Time)
    requires tid !in w.threads && |back| <= 1 && v == w.(threads := w.threads[tid := Requeueing(back)])
    ensures Ran(name, v, tid, clock, 2) == if back == [] then w else w.(lobby := Queued(w.lobby, back[0], clock))
  {
    hide Ran;
    OneSection(name, v, tid, clock, 1);
    var v1 := After(name, v, Go(tid, clock));
    if back == [] {
      assert v1.threads == w.threads;
      NothingLeft(name, w, tid, clock, 1);
    } else {
      assert back[1..] == [];
      assert v1.threads == w.threads[tid := Requeueing([])];
      OneSection(name, v1, tid, clock, 0);
      var v2 := After(name, v1, Go(tid, clock));
      assert v2.threads == w.threads;
      OneSection(name, v2, tid, clock, 0);
    }
  }
}
