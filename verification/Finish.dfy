/**
 How a match ends in its log. A grapple can win by submission and then knock the opponent out in the same action; two
 entries are written, and the knock-out is the outcome.
 */
module Finish {
  import opened CombatTypes
  import opened Rules
  import opened Turn
  import opened Order
  import opened Invariant
  import opened Shape
  import opened Runs

  function Finishes(log: seq<Event>): seq<Event> {
    if log == [] then []
    else
      var n := |log| - 1;
      Finishes(log[..n]) + if log[n].kind == MatchFinished then [log[n]] else []
  }

  predicate Says(e: Event, winner: Id, detail: Detail) { e.player == winner && e.detail == detail }

  /** The final entries that belong to an outcome: none, one, or a submission overtaken by a knock-out. */
  predicate Tells(ends: seq<Event>, o: Outcome) {
    if !o.finished then ends == []
    else if o.how == Submission then |ends| == 1 && Says(ends[0], o.winner, BySubmission)
    else
      && o.how == KO && (|ends| == 1 || |ends| == 2)
      && Says(ends[|ends| - 1], o.winner, ByKo)
      && (|ends| == 2 ==> Says(ends[0], o.winner, BySubmission))
  }

  lemma {:induction false} FinishesConcat(a: seq<Event>, b: seq<Event>)
    ensures Finishes(a + b) == Finishes(a) + Finishes(b)
  {
    if b == [] {
      assert a + b == a;
    } else {
      var n := |b| - 1;
      assert (a + b)[..|a| + n] == a + b[..n];
      FinishesConcat(a, b[..n]);
    }
  }

  lemma {:induction false} QuietFinishes(a: seq<Event>, b: seq<Event>)
    requires a <= b && forall i :: |a| <= i < |b| ==> b[i].kind != MatchFinished
    ensures Finishes(b) == Finishes(a)
    decreases |b|
  {
    if |b| == |a| {
      assert a == b;
    } else {
      QuietFinishes(a, b[..|b| - 1]);
    }
  }

  lemma FinishesSnoc(log: seq<Event>, e: Event)
    ensures Finishes(log + [e]) == Finishes(log) + if e.kind == MatchFinished then [e] else []
  {
    assert (log + [e])[..|log|] == log;
  }

  predicate Told(w: Work) { Tells(Finishes(w.events), w.next.outcome) }

  lemma QuietTold(w: Work, v: Work, kinds: set<EventKind>)
    requires Told(w) && Extends(w, v, kinds) && MatchFinished !in kinds && v.next.outcome == w.next.outcome
    ensures Told(v)
  {
    QuietFinishes(w.events, v.events);
  }

  /** Everything before the finish leaves the outcome alone. */
  lemma PhaseOutcome(w: Work, a: Slot, action: Action, zone: Zone, before: int, combo: bool, roll: nat)
    ensures Damage(w, a, action, zone, before, combo).next.outcome == w.next.outcome
    ensures ZoneEffect(w, a, zone).next.outcome == w.next.outcome
    ensures StunRoll(w, a, zone, roll).next.outcome == w.next.outcome
    ensures Climb(w, a).next.outcome == w.next.outcome
    ensures Inspire(w, a, action, combo).next.outcome == w.next.outcome
    ensures Escape(w, a).next.outcome == w.next.outcome
  {
    hide DamageFinal, BaseDamage, StunChance;
  }

  lemma FinishTold(w: Work, a: Slot, roll: nat)
    requires Told(w) && !w.next.outcome.finished
    ensures Told(KnockOut(w, a)) && Told(KnockOut(Submit(w, a, roll), a))
  {
    hide SubmissionChance, Finishes;
    var v := Submit(w, a, roll);
    if v.events != w.events {
      FinishesSnoc(w.events, v.events[|w.events|]);
    }
    var u, x := KnockOut(w, a), KnockOut(v, a);
    if u.events != w.events {
      FinishesSnoc(w.events, u.events[|w.events|]);
    }
    if x.events != v.events {
      FinishesSnoc(v.events, x.events[|v.events|]);
    }
  }

  lemma LandTold(w: Work, a: Slot, action: Action, zone: Zone, before: int, combo: bool, r1: nat, r2: nat)
    requires Told(w) && !w.next.outcome.finished
    ensures Told(Land(w, a, action, zone, before, combo, r1, r2))
  {
    hide Damage, ZoneEffect, StunRoll, Climb, Submit, KnockOut, Told;
    var hurt := Damage(w, a, action, zone, before, combo);
    PhaseOutcome(w, a, action, zone, before, combo, r1);
    QuietTold(w, hurt, {DamageApplied});
    var struck := ZoneEffect(hurt, a, zone);
    PhaseOutcome(hurt, a, action, zone, before, combo, r1);
    QuietTold(hurt, struck, {StatusApplied});
    var stunned := StunRoll(struck, a, zone, r1);
    PhaseOutcome(struck, a, action, zone, before, combo, r1);
    QuietTold(struck, stunned, {StatusApplied});
    PhaseOutcome(stunned, a, action, zone, before, combo, r1);
    QuietTold(stunned, Climb(stunned, a), {StateChanged});
    FinishTold(stunned, a, r2);
    FinishTold(Climb(stunned, a), a, r2);
  }

  // ---------- when two final entries are written ----------

  /** The work of a grapple up to its submission roll. */
  function Locked(w: Work, a: Slot, zone: Zone, before: int, combo: bool, r1: nat): Work {
    Climb(StunRoll(ZoneEffect(Damage(w, a, Grapple, zone, before, combo), a, zone), a, zone, r1), a)
  }

  /** A blow of this damage leaves the fighter at zero. */
  predicate Falls(f: Fighter, damage: int) { if damage > 0 then f.hp <= damage else f.hp == 0 }

  /** The fighter as far as a submission is concerned, after a blow of this damage. */
  function Shaken(f: Fighter, damage: int): Fighter {
    if damage > 0 then f.(momentum := Clamp(f.momentum - 6, 0, 50)) else f
  }

  /** On the state before the blow: a grapple from one of the two highest rungs, strong enough for the opponent's hit
      points, whose submission roll is below the chance against the opponent it has shaken. */
  predicate EndsTwice(m: MatchState, a: Slot, action: Action, before: int, combo: bool, r2: nat) {
    var actor, defender := m.Get(a), m.Get(a.Other());
    var damage := DamageFinal(BaseDamage(Grapple, actor.stats), before, combo);
    && action == Grapple && (m.combat == Dominant || m.combat == SubmissionAttempt)
    && Falls(defender, damage)
    && r2 < SubmissionChance(actor, Shaken(defender, damage))
  }

  /** What the submission and the knock-out will look at. */
  lemma LockedFighters(w: Work, a: Slot, zone: Zone, before: int, combo: bool, r1: nat)
    ensures var v := Locked(w, a, zone, before, combo, r1).next;
            var damage := DamageFinal(BaseDamage(Grapple, w.next.Get(a).stats), before, combo);
            && (v.Get(a.Other()).hp == 0 <==> Falls(w.next.Get(a.Other()), damage))
            && SubmissionChance(v.Get(a), v.Get(a.Other()))
               == SubmissionChance(w.next.Get(a), Shaken(w.next.Get(a.Other()), damage))
  {
    hide SubmissionChance, DamageFinal, BaseDamage, StunRoll, Climb, ZoneEffect;
    var hurt := Damage(w, a, Grapple, zone, before, combo);
    var struck := ZoneEffect(hurt, a, zone);
    var stunned := StunRoll(struck, a, zone, r1);
    SameForSubmission(hurt, a, zone, r1);
    SameForSubmission(struck, a, zone, r1);
    SameForSubmission(stunned, a, zone, r1);
    ChanceLooksAt(hurt.next.Get(a), w.next.Get(a), hurt.next.Get(a.Other()),
                  Shaken(w.next.Get(a.Other()), DamageFinal(BaseDamage(Grapple, w.next.Get(a).stats), before, combo)));
  }

  lemma ChanceLooksAt(f: Fighter, g: Fighter, d: Fighter, e: Fighter)
    requires f.stats == g.stats && f.momentum == g.momentum
    requires d.stats == e.stats && d.momentum == e.momentum && d.stamina == e.stamina
    ensures SubmissionChance(f, d) == SubmissionChance(g, e)
  {
  }

  /** Zone effects, stuns and the climb change nothing a submission or a knock-out looks at. */
  lemma SameForSubmission(w: Work, a: Slot, zone: Zone, roll: nat)
    ensures forall v :: v in {ZoneEffect(w, a, zone), StunRoll(w, a, zone, roll), Climb(w, a)} ==>
              && v.next.Get(a.Other()).hp == w.next.Get(a.Other()).hp
              && SubmissionChance(v.next.Get(a), v.next.Get(a.Other()))
                 == SubmissionChance(w.next.Get(a), w.next.Get(a.Other()))
  {
    hide StunChance;
  }

  lemma QuietPhases(w: Work, a: Slot, action: Action, zone: Zone, before: int, combo: bool, r1: nat)
    ensures var struck := ZoneEffect(Damage(w, a, action, zone, before, combo), a, zone);
            var stunned := StunRoll(struck, a, zone, r1);
            && Finishes(stunned.events) == Finishes(Climb(stunned, a).events) == Finishes(w.events)
            && stunned.next.outcome == Climb(stunned, a).next.outcome == w.next.outcome
            && stunned.next.combat == w.next.combat && Climb(stunned, a).next.combat == NextRung(w.next.combat)
  {
    hide Damage, ZoneEffect, StunRoll, Climb;
    var hurt := Damage(w, a, action, zone, before, combo);
    PhaseOutcome(w, a, action, zone, before, combo, r1);
    PhaseCombat(w, a, action, zone, before, combo, r1);
    QuietFinishes(w.events, hurt.events);
    var struck := ZoneEffect(hurt, a, zone);
    PhaseOutcome(hurt, a, action, zone, before, combo, r1);
    PhaseCombat(hurt, a, action, zone, before, combo, r1);
    QuietFinishes(hurt.events, struck.events);
    var stunned := StunRoll(struck, a, zone, r1);
    PhaseOutcome(struck, a, action, zone, before, combo, r1);
    PhaseCombat(struck, a, action, zone, before, combo, r1);
    QuietFinishes(struck.events, stunned.events);
    PhaseOutcome(stunned, a, action, zone, before, combo, r1);
    PhaseCombat(stunned, a, action, zone, before, combo, r1);
    QuietFinishes(stunned.events, Climb(stunned, a).events);
  }

  lemma EndsAdd(w: Work, a: Slot, r2: nat)
    requires !w.next.outcome.finished
    ensures |Finishes(KnockOut(w, a).events)| == |Finishes(w.events)| + if w.next.Get(a.Other()).hp == 0 then 1 else 0
    ensures |Finishes(KnockOut(Submit(w, a, r2), a).events)|
         == |Finishes(w.events)| + (if w.next.Get(a.Other()).hp == 0 then 1 else 0)
            + (if w.next.combat == SubmissionAttempt
                  && r2 < SubmissionChance(w.next.Get(a), w.next.Get(a.Other())) then 1 else 0)
  {
    hide SubmissionChance, Finishes;
    var v := Submit(w, a, r2);
    if v.events != w.events {
      FinishesSnoc(w.events, v.events[|w.events|]);
    }
    var u, x := KnockOut(w, a), KnockOut(v, a);
    if u.events != w.events {
      FinishesSnoc(w.events, u.events[|w.events|]);
    }
    if x.events != v.events {
      FinishesSnoc(v.events, x.events[|v.events|]);
    }
  }

  /** A blow in an open match writes two final entries exactly when `EndsTwice` holds of it. */
  lemma BlowEndsTwiceExactly(w: Work, a: Slot, action: Action, zone: Zone, before: int, combo: bool, r1: nat, r2: nat)
    requires !w.next.outcome.finished
    ensures |Finishes(Land(w, a, action, zone, before, combo, r1, r2).events)| == |Finishes(w.events)| + 2
       <==> EndsTwice(w.next, a, action, before, combo, r2)
  {
    hide Damage, ZoneEffect, StunRoll, Climb, Submit, KnockOut, Finishes, SubmissionChance, Falls, Shaken, DamageFinal,
      BaseDamage;
    LockedFighters(w, a, zone, before, combo, r1);
    QuietPhases(w, a, action, zone, before, combo, r1);
    var stunned := StunRoll(ZoneEffect(Damage(w, a, action, zone, before, combo), a, zone), a, zone, r1);
    EndsAdd(stunned, a, r2);
    EndsAdd(Climb(stunned, a), a, r2);
  }

  /** The momentum of a fighter after a success. */
  function Lifted(momentum: int, combo: bool): int {
    var once := Clamp(momentum + 8, 0, 50);
    if combo then Clamp(once + 5, 0, 50) else once
  }

  /**
   An action that writes two final entries, told on the work it starts from: a grapple that the fighter can make and
   that succeeds, from one of the two highest rungs, strong enough for the opponent's hit points, and with a
   submission roll below the chance that the fighters have after the success and the blow.
   */
  predicate ActsTwice(w: Work, a: Slot, input: TurnInput, ctx: Context, r0: nat, r2: nat) {
    var actor, defender := w.next.Get(a), w.next.Get(a.Other());
    var paid := Paid(actor, Grapple);
    var combo := actor.lastHit == w.next.turn - 1 && paid.stamina > 30;
    var damage := DamageFinal(BaseDamage(Grapple, actor.stats), actor.momentum, combo);
    && input.action == Grapple && !w.next.outcome.finished && !ctx.stunned
    && StaminaCost(Grapple, actor.stats.endurance) <= actor.stamina
    && r0 < Chance(paid, defender, Grapple, ctx) && InReach(Grapple, w.next.distance)
    && (w.next.combat == Dominant || w.next.combat == SubmissionAttempt)
    && Falls(defender, damage)
    && r2 < SubmissionChance(actor.(momentum := Lifted(actor.momentum, combo)), Shaken(defender, damage))
  }

  lemma SucceedEnds(w: Work, a: Slot, action: Action, zone: Zone, r1: nat, r2: nat)
    requires !w.next.outcome.finished
    ensures |Finishes(Succeed(w, a, action, zone, r1, r2).events)| == |Finishes(w.events)| + 2
       <==> (var combo := InCombo(w, a, action);
             EndsTwice(Inspire(w, a, action, combo).next, a, action, w.next.Get(a).momentum, combo, r2))
  {
    hide Inspire, Land, Escape, InCombo, Finishes, Falls, SubmissionChance, DamageFinal;
    var combo := InCombo(w, a, action);
    var inspired := Inspire(w, a, action, combo);
    PhaseOutcome(w, a, action, zone, 0, combo, r1);
    QuietFinishes(w.events, inspired.events);
    PhaseOutcome(inspired, a, action, zone, 0, combo, r1);
    QuietFinishes(inspired.events, Escape(inspired, a).events);
    BlowEndsTwiceExactly(inspired, a, action, zone, w.next.Get(a).momentum, combo, r1, r2);
  }

  /** From the work an action starts from to the blow of a grapple that has succeeded. */
  lemma GrappleFrom(w: Work, a: Slot, zone: Zone, ctx: Context, r0: nat, r2: nat)
    ensures var actor := w.next.Get(a);
            var tried, paid := Attempt(w, a, Grapple, zone, ctx, r0), Paid(actor, Grapple);
            var combo := actor.lastHit == w.next.turn - 1 && paid.stamina > 30;
            && (tried.next.Get(a).lastSuccess <==>
                  r0 < Chance(paid, w.next.Get(a.Other()), Grapple, ctx) && InReach(Grapple, w.next.distance))
            && InCombo(tried, a, Grapple) == combo
            && EndsTwice(Inspire(tried, a, Grapple, combo).next, a, Grapple, tried.next.Get(a).momentum, combo, r2)
               == (var damage := DamageFinal(BaseDamage(Grapple, actor.stats), actor.momentum, combo);
                   && (w.next.combat == Dominant || w.next.combat == SubmissionAttempt)
                   && Falls(w.next.Get(a.Other()), damage)
                   && r2 < SubmissionChance(actor.(momentum := Lifted(actor.momentum, combo)),
                                            Shaken(w.next.Get(a.Other()), damage)))
  {
    hide Chance, StaminaCost, InReach, DamageFinal, BaseDamage, Falls, Shaken, SubmissionChance;
    var actor := w.next.Get(a);
    var tried := Attempt(w, a, Grapple, zone, ctx, r0);
    var combo := InCombo(tried, a, Grapple);
    var inspired := Inspire(tried, a, Grapple, combo).next;
    var damage := DamageFinal(BaseDamage(Grapple, actor.stats), actor.momentum, combo);
    ChanceLooksAt(inspired.Get(a), actor.(momentum := Lifted(actor.momentum, combo)),
                  Shaken(inspired.Get(a.Other()), damage), Shaken(inspired.Get(a.Other()), damage));
  }

  /** A fighter's whole action writes two final entries exactly when `ActsTwice` holds of it. */
  lemma ActEndsTwiceExactly(w: Work, a: Slot, input: TurnInput, ctx: Context, r0: nat, r1: nat, r2: nat)
    ensures |Finishes(Act(w, a, input, ctx, r0, r1, r2).events)| == |Finishes(w.events)| + 2
       <==> ActsTwice(w, a, input, ctx, r0, r2)
  {
    hide Attempt, Succeed, StaminaCost, SkipStunned, Starve, Idle, Finishes, Inspire, InCombo, Chance, InReach, Falls,
      Shaken, SubmissionChance, DamageFinal, BaseDamage, Lifted, Paid;
    var action, zone := NormalizeAction(input.action), NormalizeZone(input.target);
    var tried := Attempt(w, a, action, zone, ctx, r0);
    QuietActs(w, a, action, zone, ctx, r0);
    QuietFinishes(w.events, SkipStunned(w, a).events);
    QuietFinishes(w.events, Starve(w, a, action, zone).events);
    QuietFinishes(w.events, Idle(w, a).events);
    QuietFinishes(w.events, tried.events);
    if !w.next.outcome.finished {
      SucceedEnds(tried, a, action, zone, r1, r2);
      GrappleFrom(w, a, zone, ctx, r0, r2);
    }
  }

  // ---------- what a match's log says ----------

  lemma SucceedTold(w: Work, a: Slot, action: Action, zone: Zone, r1: nat, r2: nat)
    requires Told(w) && !w.next.outcome.finished
    ensures Told(Succeed(w, a, action, zone, r1, r2))
  {
    hide Inspire, Land, Escape, InCombo, Finishes, Tells;
    var combo := InCombo(w, a, action);
    var inspired := Inspire(w, a, action, combo);
    PhaseOutcome(w, a, action, zone, 0, combo, r1);
    QuietTold(w, inspired, {StatusApplied});
    PhaseOutcome(inspired, a, action, zone, 0, combo, r1);
    QuietTold(inspired, Escape(inspired, a), {StateChanged});
    LandTold(inspired, a, action, zone, w.next.Get(a).momentum, combo, r1, r2);
  }

  lemma ActTold(w: Work, a: Slot, input: TurnInput, ctx: Context, r0: nat, r1: nat, r2: nat)
    requires Told(w)
    ensures Told(Act(w, a, input, ctx, r0, r1, r2))
  {
    if w.next.outcome.finished {
      return;
    }
    hide Attempt, Succeed, StaminaCost, Told, SkipStunned, Starve, Idle;
    var action, zone := NormalizeAction(input.action), NormalizeZone(input.target);
    var tried := Attempt(w, a, action, zone, ctx, r0);
    QuietActs(w, a, action, zone, ctx, r0);
    QuietTold(w, SkipStunned(w, a), {StatusApplied});
    QuietTold(w, Starve(w, a, action, zone), {ActionResolved});
    QuietTold(w, Idle(w, a), {});
    QuietTold(w, tried, {ActionResolved});
    SucceedTold(tried, a, action, zone, r1, r2);
  }

  lemma QuietActs(w: Work, a: Slot, action: Action, zone: Zone, ctx: Context, roll: nat)
    ensures SkipStunned(w, a).next.outcome == Starve(w, a, action, zone).next.outcome == w.next.outcome
    ensures Idle(w, a).next.outcome == Attempt(w, a, action, zone, ctx, roll).next.outcome == w.next.outcome
  {
    hide Chance, StaminaCost, InReach;
  }

  lemma CloseTold(w: Work, c1: Context, c2: Context)
    requires Told(w)
    ensures Told(Close(w, c1, c2))
  {
    hide RegenOf, Told;
    QuietTold(w, Close(w, c1, c2), {StaminaRestored});
  }

  lemma BeginTold(s: MatchState)
    requires s.outcome == Outcome(false, [], NoMethod)
    ensures Told(Begin(s))
  {
    var begun := Begin(s);
    assert begun.events == [] + [begun.events[0]];
    FinishesSnoc([], begun.events[0]);
  }

  /** One turn of an open match. */
  lemma PlayTold(s: MatchState, ordered: seq<TurnInput>, tape: Tape)
    requires |ordered| == 2 && s.outcome == Outcome(false, [], NoMethod)
    ensures Told(Play(s, ordered, tape))
  {
    BeginTold(s);
    hide Act, Close, Begin, Finishes, Tells;
    var begun := Begin(s);
    var a := s.SlotOf(ordered[0].player);
    ActTold(begun, a, ordered[0], Contexts(s, a, ordered[1]), tape[0], tape[1], tape[2]);
    var w := Opening(s, ordered, tape);
    OpeningDraws(s, ordered, tape);
    var k := |w.rolls|;
    ActTold(w, a.Other(), ordered[1], Contexts(s, a.Other(), ordered[0]), tape[k], tape[k + 1], tape[k + 2]);
    CloseTold(Exchange(s, ordered, tape),
              if a == P1 then Contexts(s, a, ordered[1]) else Contexts(s, a.Other(), ordered[0]),
              if a == P1 then Contexts(s, a.Other(), ordered[0]) else Contexts(s, a, ordered[1]));
  }

  /**
   Over any match the log holds no final entry while it is open, and afterwards one or two by the winner: a
   submission, a knock-out, or a submission followed by a knock-out, and then the outcome is the knock-out.
   */
  lemma {:induction false} LogTellsTheOutcome(m: Match, n: nat)
    requires IsFresh(m.start) && m.Played() && n < |m.runs|
    ensures Tells(Finishes(m.runs[n].log), m.runs[n].state.outcome)
  {
    hide Play, Canonical, Tells, Finishes, Inv;
    if n == 0 {
      NothingTold(m.start);
    } else {
      LogTellsTheOutcome(m, n - 1);
      ReachableStates(m, n - 1);
      TurnOf(m, n - 1);
      var b := m.runs[n - 1];
      OpenTellsNothing(b);
      PlayTold(b.state, m.Pair(n - 1), m.script[n - 1].tape);
      var ends := Finishes(m.turns[n - 1].events);
      FinishesConcat(b.log, m.turns[n - 1].events);
      assert Finishes(b.log) + ends == ends;
    }
  }

  lemma NothingTold(start: MatchState)
    requires IsFresh(start)
    ensures Tells(Finishes([]), start.outcome)
  {
  }

  lemma OpenTellsNothing(b: Run)
    requires Inv(b.state) && Tells(Finishes(b.log), b.state.outcome) && !b.state.outcome.finished
    ensures Finishes(b.log) == [] && b.state.outcome == Outcome(false, [], NoMethod)
  {
    hide Finishes, Mid;
  }

  lemma FootingDraws(s: MatchState, pair: seq<TurnInput>, tape: Tape, f: Slot)
    requires |pair| == 2
    ensures |Footing(s, pair, tape, f).rolls| <= 3
  {
    hide Act;
    OpeningDraws(s, pair, tape);
  }

  /** In this turn the fighter's action writes two final entries. */
  predicate EndsTurnTwice(s: MatchState, pair: seq<TurnInput>, tape: Tape, f: Slot)
    requires |pair| == 2
  {
    FootingDraws(s, pair, tape, f);
    var w := Footing(s, pair, tape, f);
    var k := |w.rolls|;
    ActsTwice(w, f, InputFor(s, pair, f), ContextOf(s.Get(f), InputFor(s, pair, f.Other()).action),
              tape[k], tape[k + 2])
  }

  /** The same, told from the order of play. */
  lemma OrderOfPlay(s: MatchState, pair: seq<TurnInput>, tape: Tape)
    requires |pair| == 2
    ensures |Opening(s, pair, tape).rolls| <= 3
    ensures var a := s.SlotOf(pair[0].player);
            var w, c0, c1 := Opening(s, pair, tape), Contexts(s, a, pair[1]), Contexts(s, a.Other(), pair[0]);
            var k := |w.rolls|;
            && w == Act(Begin(s), a, pair[0], c0, tape[0], tape[1], tape[2])
            && Exchange(s, pair, tape) == Act(w, a.Other(), pair[1], c1, tape[k], tape[k + 1], tape[k + 2])
            && EndsTurnTwice(s, pair, tape, a) == ActsTwice(Begin(s), a, pair[0], c0, tape[0], tape[2])
            && EndsTurnTwice(s, pair, tape, a.Other())
               == ActsTwice(w, a.Other(), pair[1], c1, tape[k], tape[k + 2])
  {
    hide Act, ActsTwice, Begin;
    BeginIsQuiet(s);
    OpeningDraws(s, pair, tape);
  }

  lemma ToldSize(w: Work)
    requires Told(w)
    ensures |Finishes(w.events)| <= 2 && (!w.next.outcome.finished ==> |Finishes(w.events)| == 0)
  {
    hide Finishes;
  }

  lemma PlayEndsTwice(s: MatchState, pair: seq<TurnInput>, tape: Tape)
    requires |pair| == 2 && s.outcome == Outcome(false, [], NoMethod)
    ensures |Finishes(Play(s, pair, tape).events)| == 2
       <==> EndsTurnTwice(s, pair, tape, P1) || EndsTurnTwice(s, pair, tape, P2)
  {
    BeginTold(s);
    BeginIsQuiet(s);
    OrderOfPlay(s, pair, tape);
    var a, begun, w := s.SlotOf(pair[0].player), Begin(s), Opening(s, pair, tape);
    var c0, c1 := Contexts(s, a, pair[1]), Contexts(s, a.Other(), pair[0]);
    var k := |w.rolls|;
    CloseIsQuiet(Exchange(s, pair, tape), if a == P1 then c0 else c1, if a == P1 then c1 else c0);
    hide Act, Close, Begin, Finishes, ActsTwice, EndsTurnTwice, Told, Opening, Exchange;
    ActTold(begun, a, pair[0], c0, tape[0], tape[1], tape[2]);
    ToldSize(w);
    ActEndsTwiceExactly(begun, a, pair[0], c0, tape[0], tape[1], tape[2]);
    ActEndsTwiceExactly(w, a.Other(), pair[1], c1, tape[k], tape[k + 1], tape[k + 2]);
    DecidedIsIdle(w, a.Other(), pair[1], c1, tape[k], tape[k + 1], tape[k + 2]);
  }

  lemma BeginIsQuiet(s: MatchState)
    ensures Begin(s).rolls == [] && Begin(s).next.outcome == s.outcome && Finishes(Begin(s).events) == []
  {
    assert Begin(s).events[..0] == [];
  }

  lemma DecidedIsIdle(w: Work, a: Slot, input: TurnInput, ctx: Context, r0: nat, r1: nat, r2: nat)
    ensures w.next.outcome.finished ==>
              Act(w, a, input, ctx, r0, r1, r2) == w && !ActsTwice(w, a, input, ctx, r0, r2)
  {
  }

  lemma CloseIsQuiet(w: Work, c1: Context, c2: Context)
    ensures Finishes(Close(w, c1, c2).events) == Finishes(w.events)
  {
    hide RegenOf;
    QuietFinishes(w.events, Close(w, c1, c2).events);
  }

  /** A match has two final entries exactly when one fighter's action in its last turn wrote both of them. */
  lemma MatchEndsTwiceExactly(m: Match, n: nat)
    requires IsFresh(m.start) && m.Played() && n < |m.turns|
    ensures Canonical(m.runs[n].state, m.script[n].inputs).Some? && |m.Pair(n)| == 2
    ensures |Finishes(m.runs[n + 1].log)| == 2
       <==> exists f :: EndsTurnTwice(m.runs[n].state, m.Pair(n), m.script[n].tape, f)
  {
    hide Play, Canonical, Tells, Finishes, Inv, EndsTurnTwice;
    LogTellsTheOutcome(m, n);
    ReachableStates(m, n);
    TurnOf(m, n);
    OpenTellsNothing(m.runs[n]);
    PlayEndsTwice(m.runs[n].state, m.Pair(n), m.script[n].tape);
    FinishesConcat(m.runs[n].log, m.turns[n].events);
    var b, tape := m.runs[n].state, m.script[n].tape;
    if f :| EndsTurnTwice(b, m.Pair(n), tape, f) {
      assert f == P1 || f == P2;
    }
  }
}
