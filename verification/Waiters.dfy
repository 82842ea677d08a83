/**
 What becomes of a player who waits in the queue, over any interleaving of the sections of module Reservations. The
 fate is read off what can be observed of the player; the causes are the guards of the source's branches.
 */
module Waiters {
  import opened CombatTypes
  import Lobby
  import opened Reservations

  datatype Fate =
    | Waiting           // still in the queue
    | Left              // out of the queue on request, or with the session
    | TimedOut          // out of the queue by a pop, but not into a pair
    | Taken(tid: nat)   // out of the queue into a pair that this thread has not reserved yet
    | Dropped           // the thread has ended, and the pair with it
    | Placed            // the thread holds a reservation for the player

  predicate InPair(w: World, tid: nat, id: Id) {
    tid in w.threads && w.threads[tid].Popped? && (w.threads[tid].a == id || w.threads[tid].b == id)
  }

  /** What one more section makes of a fate, by looking at the world before and after it. */
  function Observe(name: Id -> Id, w: World, step: Step, id: Id, fate: Fate): Fate {
    var v := After(name, w, step);
    match fate
    case Waiting =>
      if id in v.lobby.queuedAt then Waiting
      else if !step.Pop? then Left
      else if !InPair(w, step.tid, id) && InPair(v, step.tid, id) then Taken(step.tid)
      else TimedOut
    case Taken(tid) =>
      if tid !in v.threads then Dropped else if id in Holds(v.threads[tid]) then Placed else fate
    case _ => fate
  }

  function FateOf(name: Id -> Id, w: World, steps: seq<Step>, id: Id): Fate {
    if steps == [] then Waiting
    else
      var n := |steps| - 1;
      Observe(name, AfterAll(name, w, steps[..n]), steps[n], id, FateOf(name, w, steps[..n], id))
  }

  // ---------- causes ----------

  predicate Leaves(w: World, step: Step, id: Id) {
    || step == Unregister(id) || step == Dequeue(id)
    || (step.Go? && step.tid in w.threads && w.threads[step.tid] == Leaving(id))
  }

  predicate Expires(w: World, step: Step, id: Id) {
    step.Pop? && step.tid !in w.threads && id in Lobby.Expired(w.lobby, step.now, step.timeout)
  }

  predicate IsPaired(w: World, step: Step, id: Id) {
    && step.Pop? && step.tid !in w.threads
    && var pair := Lobby.PairSpec(w.lobby, step.now, step.timeout);
       pair.Some? && (pair.value.0 == id || pair.value.1 == id)
  }

  /** The thread's reservation comes up while one of its two players is reserved. */
  predicate MeetsReserved(w: World, step: Step, tid: nat) {
    && step.Go? && step.tid == tid && tid in w.threads && w.threads[tid].Popped?
    && (w.threads[tid].a in w.inMatch || w.threads[tid].b in w.inMatch)
  }

  predicate MeetsFree(w: World, step: Step, tid: nat) {
    && step.Go? && step.tid == tid && tid in w.threads && w.threads[tid].Popped?
    && w.threads[tid].a !in w.inMatch && w.threads[tid].b !in w.inMatch
  }

  // ---------- one section ----------

  predicate Orderly(w: World) { w.lobby.Valid() && [] !in w.lobby.sessions }

  predicate Fits(w: World, id: Id, fate: Fate) {
    match fate
    case Waiting => id in w.lobby.queuedAt
    case Taken(tid) => InPair(w, tid, id)
    case _ => true
  }

  lemma PopTakes(l: Lobby.Waiting, now: Lobby.Time, timeout: Lobby.Time)
    requires l.Valid()
    ensures var gone, pair := Lobby.Expired(l, now, timeout), Lobby.PairSpec(l, now, timeout);
            && (pair.Some? ==>
                  && pair.value.0 != pair.value.1 && pair.value.0 !in gone && pair.value.1 !in gone
                  && pair.value.0 in l.sessions && pair.value.1 in l.sessions)
            && Lobby.After(l, Lobby.Pop(now, timeout)).queuedAt
               == l.queuedAt - gone - if pair.Some? then {pair.value.0, pair.value.1} else {}
  {
    hide Lobby.Keep, Lobby.Expired;
    var gone := Lobby.Expired(l, now, timeout);
    Lobby.KeepMembers(l.queue, gone);
    Lobby.KeepDistinct(l.queue, gone);
    var f := Lobby.Unexpired(l, now, timeout).queue;
    if |f| >= 2 {
      assert f[0] in f && f[1] in f;
    }
  }

  lemma LeaveTakes(l: Lobby.Waiting, x: Id, id: Id)
    requires l.Valid() && id in l.queuedAt
    ensures id in Lobby.After(l, Lobby.Leave(x)).queuedAt <==> x != id
    ensures id in Lobby.After(l, Lobby.Unregister(x)).queuedAt <==> x != id
  {
    hide Lobby.Keep;
  }

  lemma OrderlyStays(name: Id -> Id, w: World, step: Step)
    requires Orderly(w)
    ensures Orderly(After(name, w, step))
  {
    hide Lobby.After, Lobby.PairSpec, RunSection, Lobby.Waiting.Valid;
    match step
    case Register(id) =>
      Lobby.StepKeeps(w.lobby, Lobby.Register(id));
      SessionsAre(w.lobby, Lobby.Register(id));
    case Unregister(id) =>
      Lobby.StepKeeps(w.lobby, Lobby.Unregister(id));
      SessionsAre(w.lobby, Lobby.Unregister(id));
    case Dequeue(id) =>
      Lobby.StepKeeps(w.lobby, Lobby.Leave(id));
      SessionsAre(w.lobby, Lobby.Leave(id));
    case Pop(_, now, timeout) =>
      Lobby.StepKeeps(w.lobby, Lobby.Pop(now, timeout));
      SessionsAre(w.lobby, Lobby.Pop(now, timeout));
    case Go(tid, clock) =>
      if tid in w.threads {
        SectionIsOrderly(name, w, tid, clock);
      }
    case _ =>
  }

  lemma SectionIsOrderly(name: Id -> Id, w: World, tid: nat, clock: Lobby.Time)
    requires Orderly(w) && tid in w.threads
    ensures Orderly(RunSection(name, w, tid, clock))
  {
    hide Lobby.After, Lobby.Waiting.Valid;
    match w.threads[tid]
    case Joining(x) =>
      Lobby.StepKeeps(w.lobby, Lobby.Join(x, clock));
      SessionsAre(w.lobby, Lobby.Join(x, clock));
    case Requeueing(back) =>
      if back != [] {
        Lobby.StepKeeps(w.lobby, Lobby.Join(back[0], clock));
        SessionsAre(w.lobby, Lobby.Join(back[0], clock));
      }
    case Leaving(x) =>
      Lobby.StepKeeps(w.lobby, Lobby.Leave(x));
      SessionsAre(w.lobby, Lobby.Leave(x));
    case _ =>
  }

  lemma SessionsAre(l: Lobby.Waiting, step: Lobby.Step)
    ensures Lobby.After(l, step).sessions ==
            match step
            case Register(id) => l.sessions + {id}
            case Unregister(id) => l.sessions - {id}
            case _ => l.sessions
  {
    hide Lobby.Keep, Lobby.Expired;
  }

  /** What one section does to a waiting player, and when. */
  lemma WaitingStep(name: Id -> Id, w: World, step: Step, id: Id)
    requires Orderly(w) && id in w.lobby.queuedAt
    ensures var fate := Observe(name, w, step, id, Waiting);
            && (fate == Left <==> Leaves(w, step, id))
            && (fate == TimedOut <==> Expires(w, step, id))
            && (fate.Taken? <==> IsPaired(w, step, id))
            && fate in {Waiting, Left, TimedOut, Taken(if step.Pop? then step.tid else 0)}
            && Fits(After(name, w, step), id, fate)
  {
    hide Lobby.After, Lobby.PairSpec, Lobby.Expired, RunSection;
    match step
    case Unregister(x) => LeaveTakes(w.lobby, x, id);
    case Dequeue(x) => LeaveTakes(w.lobby, x, id);
    case Pop(tid, now, timeout) => PopTakes(w.lobby, now, timeout);
    case Register(x) => OthersStay(w.lobby, Lobby.Register(x), id);
    case Go(tid, clock) =>
      if tid in w.threads {
        SectionKeepsWaiting(name, w, tid, clock, id);
      }
    case _ =>
  }

  lemma OthersStay(l: Lobby.Waiting, step: Lobby.Step, id: Id)
    requires id in l.queuedAt && (step.Register? || step.Join?)
    ensures id in Lobby.After(l, step).queuedAt
  {
  }

  lemma SectionKeepsWaiting(name: Id -> Id, w: World, tid: nat, clock: Lobby.Time, id: Id)
    requires Orderly(w) && id in w.lobby.queuedAt && tid in w.threads
    ensures id in RunSection(name, w, tid, clock).lobby.queuedAt <==> w.threads[tid] != Leaving(id)
  {
    hide Lobby.After;
    match w.threads[tid]
    case Joining(x) => OthersStay(w.lobby, Lobby.Join(x, clock), id);
    case Requeueing(back) =>
      if back != [] {
        OthersStay(w.lobby, Lobby.Join(back[0], clock), id);
      }
    case Leaving(x) => LeaveTakes(w.lobby, x, id);
    case _ =>
  }

  /** What one section does to a player in a popped pair, and when. */
  lemma TakenStep(name: Id -> Id, w: World, step: Step, id: Id, tid: nat)
    requires InPair(w, tid, id)
    ensures var fate := Observe(name, w, step, id, Taken(tid));
            && (fate == Dropped <==> MeetsReserved(w, step, tid))
            && (fate == Placed <==> MeetsFree(w, step, tid))
            && fate in {Taken(tid), Dropped, Placed}
            && Fits(After(name, w, step), id, fate)
  {
    hide Lobby.After, Lobby.PairSpec, RunSection;
    if step.Go? && step.tid == tid {
      PairIsDroppedExactly(name, w, tid, step.clock);
    } else if step.Go? && step.tid in w.threads {
      ThreadProgresses(name, w, step.tid, step.clock);
    }
  }

  // ---------- whole runs ----------

  /** In this section the player's fate so far turns into the given one, for the reason that the source has. */
  predicate Causes(w: World, step: Step, id: Id, before: Fate, fate: Fate) {
    match fate
    case Left => before == Waiting && Leaves(w, step, id)
    case TimedOut => before == Waiting && Expires(w, step, id)
    case Taken(tid) => before == Waiting && IsPaired(w, step, id) && step.tid == tid
    case Dropped => before.Taken? && MeetsReserved(w, step, before.tid)
    case Placed => before.Taken? && MeetsFree(w, step, before.tid)
    case Waiting => false
  }

  predicate CausedAt(name: Id -> Id, w: World, steps: seq<Step>, id: Id, fate: Fate, k: nat) {
    k < |steps| && Causes(AfterAll(name, w, steps[..k]), steps[k], id, FateOf(name, w, steps[..k], id), fate)
  }

  lemma StepCauses(name: Id -> Id, w: World, step: Step, id: Id, before: Fate)
    requires Orderly(w) && Fits(w, id, before)
    ensures Fits(After(name, w, step), id, Observe(name, w, step, id, before))
    ensures forall fate :: Causes(w, step, id, before, fate) <==>
              Observe(name, w, step, id, before) == fate && fate != before
  {
    hide After, Leaves, Expires, IsPaired, MeetsReserved, MeetsFree;
    match before
    case Waiting => WaitingStep(name, w, step, id);
    case Taken(tid) => TakenStep(name, w, step, id, tid);
    case _ =>
  }

  lemma AfterAllSnoc(name: Id -> Id, w: World, steps: seq<Step>, step: Step)
    ensures AfterAll(name, w, steps + [step]) == After(name, AfterAll(name, w, steps), step)
  {
    hide After;
    AfterAllConcat(name, w, steps, [step]);
    var v := AfterAll(name, w, steps);
    Unroll(name, v, [step], [After(name, v, step)]);
  }

  lemma {:induction false} FatesFit(name: Id -> Id, w: World, steps: seq<Step>, id: Id)
    requires Orderly(w) && id in w.lobby.queuedAt
    ensures Orderly(AfterAll(name, w, steps)) && Fits(AfterAll(name, w, steps), id, FateOf(name, w, steps, id))
  {
    hide After, Orderly, Fits, Observe, Causes;
    if steps == [] {
      assert Fits(w, id, Waiting) by { WaitingFits(w, id); }
    } else {
      var n := |steps| - 1;
      FatesFit(name, w, steps[..n], id);
      var v := AfterAll(name, w, steps[..n]);
      assert steps[..n] + [steps[n]] == steps;
      AfterAllSnoc(name, w, steps[..n], steps[n]);
      OrderlyStays(name, v, steps[n]);
      StepCauses(name, v, steps[n], id, FateOf(name, w, steps[..n], id));
    }
  }

  lemma WaitingFits(w: World, id: Id)
    requires id in w.lobby.queuedAt
    ensures Fits(w, id, Waiting)
  {
  }

  /** A fate that is final, once met, stays. */
  lemma {:induction false} FinalFatesStay(name: Id -> Id, w: World, steps: seq<Step>, id: Id, k: nat)
    requires k <= |steps| && FateOf(name, w, steps[..k], id) in {Left, TimedOut, Dropped, Placed}
    ensures FateOf(name, w, steps, id) == FateOf(name, w, steps[..k], id)
  {
    hide After, AfterAll;
    if k == |steps| {
      assert steps[..k] == steps;
    } else {
      var n := |steps| - 1;
      assert steps[..n][..k] == steps[..k];
      FinalFatesStay(name, w, steps[..n], id, k);
    }
  }

  /**
   Over every run, a player who waits has left, timed out, been dropped or been placed exactly when a section of the run
   was the cause. So a waiting player is lost without leaving, timing out or being given a match exactly when they are
   popped together with a player who is reserved when the pair is about to be (or are reserved themselves).
   */
  lemma FatesHaveCauses(name: Id -> Id, w: World, steps: seq<Step>, id: Id, fate: Fate)
    requires Orderly(w) && id in w.lobby.queuedAt && fate in {Left, TimedOut, Dropped, Placed}
    ensures FateOf(name, w, steps, id) == fate <==> exists k: nat :: CausedAt(name, w, steps, id, fate, k)
  {
    if FateOf(name, w, steps, id) == fate {
      var k := CauseOf(name, w, steps, id, fate);
    }
    if k: nat :| CausedAt(name, w, steps, id, fate, k) {
      CauseDecides(name, w, steps, id, fate, k);
    }
  }

  lemma CauseDecides(name: Id -> Id, w: World, steps: seq<Step>, id: Id, fate: Fate, k: nat)
    requires Orderly(w) && id in w.lobby.queuedAt && fate in {Left, TimedOut, Dropped, Placed}
    requires CausedAt(name, w, steps, id, fate, k)
    ensures FateOf(name, w, steps, id) == fate
  {
    hide After, AfterAll, Orderly, Fits, Observe, Causes;
    FatesFit(name, w, steps[..k], id);
    StepCauses(name, AfterAll(name, w, steps[..k]), steps[k], id, FateOf(name, w, steps[..k], id));
    assert steps[..k + 1][..k] == steps[..k];
    FinalFatesStay(name, w, steps, id, k + 1);
  }

  lemma {:induction false} CauseOf(name: Id -> Id, w: World, steps: seq<Step>, id: Id, fate: Fate) returns (k: nat)
    requires Orderly(w) && id in w.lobby.queuedAt && fate != Waiting && FateOf(name, w, steps, id) == fate
    ensures CausedAt(name, w, steps, id, fate, k)
  {
    hide After, AfterAll, Orderly, Fits, Observe, Causes;
    var n := |steps| - 1;
    if FateOf(name, w, steps[..n], id) == fate {
      k := CauseOf(name, w, steps[..n], id, fate);
      assert steps[..n][..k] == steps[..k];
    } else {
      k := n;
      FatesFit(name, w, steps[..n], id);
      StepCauses(name, AfterAll(name, w, steps[..n]), steps[n], id, FateOf(name, w, steps[..n], id));
    }
  }
}
