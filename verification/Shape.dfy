/**
 The grammar of a turn's log: a turn-started entry, then for each fighter at most one resolved action followed by its
 consequences, then the two stamina entries. The grapple ladder and the hit counts are read off it.
 */
module Shape {
  import opened CombatTypes
  import opened Rules
  import opened Turn
  import opened Order
  import opened Invariant
  import opened Ledger
  import Odds

  const CONSEQUENCES: set<EventKind> := {DamageApplied, StatusApplied, StateChanged, MatchFinished}

  lemma LandExtends(w: Work, a: Slot, action: Action, zone: Zone, before: int, combo: bool, r1: nat, r2: nat)
    ensures Extends(w, Land(w, a, action, zone, before, combo, r1, r2), CONSEQUENCES)
  {
    hide Damage, ZoneEffect, StunRoll, Climb, Submit, KnockOut;
  }

  /** All that follows a resolved action are its consequences; a combo is announced first. */
  lemma SucceedExtends(w: Work, a: Slot, action: Action, zone: Zone, r1: nat, r2: nat)
    ensures Extends(w, Succeed(w, a, action, zone, r1, r2), CONSEQUENCES)
    ensures InCombo(w, a, action) ==>
              && |Succeed(w, a, action, zone, r1, r2).events| > |w.events|
              && Marks(Succeed(w, a, action, zone, r1, r2).events[|w.events|], w.next.Get(a).id, ComboActive)
  {
    hide Inspire, Land, Escape;
    var combo := InCombo(w, a, action);
    InspireMarks(w, a, action, combo);
    var inspired := Inspire(w, a, action, combo);
    LandExtends(inspired, a, action, zone, w.next.Get(a).momentum, combo, r1, r2);
  }

  lemma InspireMarks(w: Work, a: Slot, action: Action, combo: bool)
    ensures combo ==>
              && |Inspire(w, a, action, combo).events| > |w.events|
              && Marks(Inspire(w, a, action, combo).events[|w.events|], w.next.Get(a).id, ComboActive)
  {
  }

  lemma ActExtends(w: Work, a: Slot, input: TurnInput, ctx: Context, r0: nat, r1: nat, r2: nat)
    ensures var v := Act(w, a, input, ctx, r0, r1, r2);
            && Extends(w, v, {ActionResolved} + CONSEQUENCES)
            && forall i :: |w.events| + 1 <= i < |v.events| ==> v.events[i].kind != ActionResolved
  {
    hide Attempt, Succeed, SkipStunned, Starve, Idle, StaminaCost;
    var action, zone := NormalizeAction(input.action), NormalizeZone(input.target);
    var tried := Attempt(w, a, action, zone, ctx, r0);
    AttemptShape(w, a, action, zone, ctx, r0);
    SucceedExtends(tried, a, action, zone, r1, r2);
    StarveShape(w, a, action, zone);
  }

  lemma AttemptShape(w: Work, a: Slot, action: Action, zone: Zone, ctx: Context, roll: nat)
    ensures var v := Attempt(w, a, action, zone, ctx, roll);
            && v.events == w.events + [v.events[|w.events|]]
            && v.events[|w.events|].kind == ActionResolved
            && v.events[|w.events|].player == w.next.Get(a).id
            && v.events[|w.events|].action == action
            && v.events[|w.events|].success == v.next.Get(a).lastSuccess
            && v.next.combat == w.next.combat
  {
    hide Chance, StaminaCost, InReach;
  }

  lemma StarveShape(w: Work, a: Slot, action: Action, zone: Zone)
    ensures var v := Starve(w, a, action, zone);
            && v.events == w.events + [v.events[|w.events|]] && v.next.combat == w.next.combat
            && v.events[|w.events|].kind == ActionResolved && !v.events[|w.events|].success
  {
  }

  // ---------- hits ----------

  lemma DamageHits(w: Work, a: Slot, action: Action, zone: Zone, before: int, combo: bool, id: Id)
    ensures HitsOn(Damage(w, a, action, zone, before, combo).events, id)
            <= HitsOn(w.events, id) + if id == w.next.Get(a.Other()).id then 1 else 0
  {
    hide DamageFinal, BaseDamage;
    var v := Damage(w, a, action, zone, before, combo);
    if |v.events| > |w.events| {
      assert v.events[..|w.events|] == w.events;
    }
  }

  /** One action lands at most one blow, and only on the opponent. */
  lemma ActHits(w: Work, a: Slot, input: TurnInput, ctx: Context, r0: nat, r1: nat, r2: nat, id: Id)
    ensures HitsOn(Act(w, a, input, ctx, r0, r1, r2).events, id)
            <= HitsOn(w.events, id) + if id == w.next.Get(a.Other()).id then 1 else 0
  {
    hide Attempt, Succeed, SkipStunned, Starve, Idle, StaminaCost;
    var action, zone := NormalizeAction(input.action), NormalizeZone(input.target);
    var tried := Attempt(w, a, action, zone, ctx, r0);
    Unhurt(w.events, tried.events, id);
    SucceedHits(tried, a, action, zone, r1, r2, id);
    Unhurt(w.events, SkipStunned(w, a).events, id);
    Unhurt(w.events, Starve(w, a, action, zone).events, id);
    Unhurt(w.events, Idle(w, a).events, id);
    AttemptKeepsIds(w, a, action, zone, ctx, r0);
  }

  lemma AttemptKeepsIds(w: Work, a: Slot, action: Action, zone: Zone, ctx: Context, roll: nat)
    ensures Attempt(w, a, action, zone, ctx, roll).next.Get(a.Other()) == w.next.Get(a.Other())
  {
    hide Chance, StaminaCost, InReach;
  }

  lemma SucceedHits(w: Work, a: Slot, action: Action, zone: Zone, r1: nat, r2: nat, id: Id)
    ensures HitsOn(Succeed(w, a, action, zone, r1, r2).events, id)
            <= HitsOn(w.events, id) + if id == w.next.Get(a.Other()).id then 1 else 0
  {
    hide Inspire, Land, Escape, InCombo;
    var combo := InCombo(w, a, action);
    var inspired := Inspire(w, a, action, combo);
    Unhurt(w.events, inspired.events, id);
    Unhurt(w.events, Escape(inspired, a).events, id);
    InspireSpares(w, a, action, combo);
    LandHits(inspired, a, action, zone, w.next.Get(a).momentum, combo, r1, r2, id);
  }

  lemma InspireSpares(w: Work, a: Slot, action: Action, combo: bool)
    ensures Inspire(w, a, action, combo).next.Get(a.Other()) == w.next.Get(a.Other())
    ensures Inspire(w, a, action, combo).next.combat == w.next.combat
  {
  }

  lemma LandHits(w: Work, a: Slot, action: Action, zone: Zone, before: int, combo: bool, r1: nat, r2: nat, id: Id)
    ensures HitsOn(Land(w, a, action, zone, before, combo, r1, r2).events, id)
            <= HitsOn(w.events, id) + if id == w.next.Get(a.Other()).id then 1 else 0
  {
    hide Damage, ZoneEffect, StunRoll, Climb, Submit, KnockOut;
    DamageHits(w, a, action, zone, before, combo, id);
    var hurt := Damage(w, a, action, zone, before, combo);
    var v := Land(w, a, action, zone, before, combo, r1, r2);
    Unhurt(hurt.events, v.events, id);
  }

  // ---------- the ladder ----------

  /** Each action moves the ladder exactly as its own resolved entry says. */
  ghost predicate OnRung(prior: seq<Event>, w: Work) {
    w.next.combat != Stunned && Rank(w.next.combat) == Min(4, GrapplesSinceBreak(prior + w.events))
  }

  lemma QuietRung(prior: seq<Event>, w: Work, v: Work)
    requires OnRung(prior, w) && v.next.combat == w.next.combat
    requires w.events <= v.events && forall i :: |w.events| <= i < |v.events| ==> v.events[i].kind != ActionResolved
    ensures OnRung(prior, v)
  {
    forall i | |prior + w.events| <= i < |prior + v.events| ensures (prior + v.events)[i].kind != ActionResolved {
      assert (prior + v.events)[i] == v.events[i - |prior|];
    }
    Unresolved(prior + w.events, prior + v.events);
  }

  /** How a landed blow moves the combat state: only a grapple does, one rung up. */
  lemma LandCombat(w: Work, a: Slot, action: Action, zone: Zone, before: int, combo: bool, r1: nat, r2: nat)
    ensures Land(w, a, action, zone, before, combo, r1, r2).next.combat
            == if action == Grapple then NextRung(w.next.combat) else w.next.combat
  {
    hide Damage, ZoneEffect, StunRoll, Climb, Submit, KnockOut;
    PhaseCombat(w, a, action, zone, before, combo, r1);
    var hurt := Damage(w, a, action, zone, before, combo);
    PhaseCombat(hurt, a, action, zone, before, combo, r1);
    var struck := ZoneEffect(hurt, a, zone);
    PhaseCombat(struck, a, action, zone, before, combo, r1);
    var stunned := StunRoll(struck, a, zone, r1);
    PhaseCombat(stunned, a, action, zone, before, combo, r2);
    PhaseCombat(Climb(stunned, a), a, action, zone, before, combo, r2);
    PhaseCombat(Submit(Climb(stunned, a), a, r2), a, action, zone, before, combo, r2);
  }

  lemma PhaseCombat(w: Work, a: Slot, action: Action, zone: Zone, before: int, combo: bool, roll: nat)
    ensures Damage(w, a, action, zone, before, combo).next.combat == w.next.combat
    ensures ZoneEffect(w, a, zone).next.combat == w.next.combat
    ensures StunRoll(w, a, zone, roll).next.combat == w.next.combat
    ensures Climb(w, a).next.combat == NextRung(w.next.combat)
    ensures Submit(w, a, roll).next.combat == w.next.combat
    ensures KnockOut(w, a).next.combat == w.next.combat
  {
    hide DamageFinal, BaseDamage, StunChance, SubmissionChance;
  }

  lemma SucceedCombat(w: Work, a: Slot, action: Action, zone: Zone, r1: nat, r2: nat)
    ensures Succeed(w, a, action, zone, r1, r2).next.combat
            == if action == Grapple then NextRung(w.next.combat)
               else if action == Break then Neutral else w.next.combat
  {
    hide Inspire, Land, InCombo;
    var combo := InCombo(w, a, action);
    InspireSpares(w, a, action, combo);
    LandCombat(Inspire(w, a, action, combo), a, action, zone, w.next.Get(a).momentum, combo, r1, r2);
  }

  lemma RungSnoc(prior: seq<Event>, events: seq<Event>, e: Event)
    ensures GrapplesSinceBreak(prior + (events + [e]))
            == if IsBreak(e) then 0 else GrapplesSinceBreak(prior + events) + if IsGrapple(e) then 1 else 0
  {
    assert (prior + (events + [e]))[..|prior + events|] == prior + events;
  }

  lemma ActRung(prior: seq<Event>, w: Work, a: Slot, input: TurnInput, ctx: Context, r0: nat, r1: nat, r2: nat)
    requires OnRung(prior, w)
    ensures OnRung(prior, Act(w, a, input, ctx, r0, r1, r2))
  {
    hide Attempt, Succeed, SkipStunned, Starve, Idle, StaminaCost;
    var action, zone := NormalizeAction(input.action), NormalizeZone(input.target);
    var tried := Attempt(w, a, action, zone, ctx, r0);
    AttemptShape(w, a, action, zone, ctx, r0);
    RungSnoc(prior, w.events, tried.events[|w.events|]);
    var done := Succeed(tried, a, action, zone, r1, r2);
    SucceedCombat(tried, a, action, zone, r1, r2);
    SucceedExtends(tried, a, action, zone, r1, r2);
    if tried.next.Get(a).lastSuccess {
      var climbed := tried.(next := tried.next.(combat := done.next.combat));
      QuietRung(prior, climbed, done);
    }
    IdleShape(w, a);
    QuietRung(prior, w, SkipStunned(w, a));
    var starved := Starve(w, a, action, zone);
    StarveShape(w, a, action, zone);
    RungSnoc(prior, w.events, starved.events[|w.events|]);
    QuietRung(prior, w, Idle(w, a));
  }

  lemma IdleShape(w: Work, a: Slot)
    ensures SkipStunned(w, a).next.combat == Idle(w, a).next.combat == w.next.combat
  {
  }

  // ---------- what an action leaves alone ----------

  /** The first action leaves the second fighter's combo window as the turn found it. */
  lemma ActSpares(w: Work, a: Slot, input: TurnInput, ctx: Context, r0: nat, r1: nat, r2: nat)
    ensures var f, g := w.next.Get(a.Other()), Act(w, a, input, ctx, r0, r1, r2).next.Get(a.Other());
            g.lastHit == f.lastHit && g.stamina == f.stamina && g.stats == f.stats && g.id == f.id
    ensures Act(w, a, input, ctx, r0, r1, r2).next.turn == w.next.turn
    ensures Act(w, a, input, ctx, r0, r1, r2).next.Get(a).id == w.next.Get(a).id
  {
    hide Attempt, Succeed, StaminaCost;
    var action, zone := NormalizeAction(input.action), NormalizeZone(input.target);
    AttemptSpares(w, a, action, zone, ctx, r0);
    SucceedSpares(Attempt(w, a, action, zone, ctx, r0), a, action, zone, r1, r2);
  }

  predicate Spared(w: Work, v: Work, a: Slot) {
    var f, g := w.next.Get(a.Other()), v.next.Get(a.Other());
    && g.lastHit == f.lastHit && g.stamina == f.stamina && g.stats == f.stats && g.id == f.id
    && v.next.turn == w.next.turn && v.next.Get(a).id == w.next.Get(a).id
  }

  lemma AttemptSpares(w: Work, a: Slot, action: Action, zone: Zone, ctx: Context, roll: nat)
    ensures Spared(w, Attempt(w, a, action, zone, ctx, roll), a)
  {
    hide Chance, StaminaCost, InReach;
  }

  lemma SucceedSpares(w: Work, a: Slot, action: Action, zone: Zone, r1: nat, r2: nat)
    ensures Spared(w, Succeed(w, a, action, zone, r1, r2), a)
  {
    hide InCombo, Inspire, Land, Escape;
    var combo := InCombo(w, a, action);
    EaseSpares(w, a, action, combo);
    var inspired := Inspire(w, a, action, combo);
    EaseSpares(inspired, a, action, combo);
    LandSpares(inspired, a, action, zone, w.next.Get(a).momentum, combo, r1, r2);
  }

  lemma EaseSpares(w: Work, a: Slot, action: Action, combo: bool)
    ensures Spared(w, Inspire(w, a, action, combo), a) && Spared(w, Escape(w, a), a)
  {
  }

  lemma LandSpares(w: Work, a: Slot, action: Action, zone: Zone, before: int, combo: bool, r1: nat, r2: nat)
    ensures Spared(w, Land(w, a, action, zone, before, combo, r1, r2), a)
  {
    hide Damage, ZoneEffect, StunRoll, Climb, Submit, KnockOut;
    PhaseSpares(w, a, action, zone, before, combo, r1);
    var hurt := Damage(w, a, action, zone, before, combo);
    PhaseSpares(hurt, a, action, zone, before, combo, r1);
    var struck := ZoneEffect(hurt, a, zone);
    PhaseSpares(struck, a, action, zone, before, combo, r1);
    var stunned := StunRoll(struck, a, zone, r1);
    PhaseSpares(stunned, a, action, zone, before, combo, r2);
    PhaseSpares(Climb(stunned, a), a, action, zone, before, combo, r2);
    PhaseSpares(Submit(Climb(stunned, a), a, r2), a, action, zone, before, combo, r2);
  }

  lemma PhaseSpares(w: Work, a: Slot, action: Action, zone: Zone, before: int, combo: bool, roll: nat)
    ensures Spared(w, Damage(w, a, action, zone, before, combo), a)
    ensures Spared(w, ZoneEffect(w, a, zone), a)
    ensures Spared(w, StunRoll(w, a, zone, roll), a)
    ensures Spared(w, Climb(w, a), a)
    ensures Spared(w, Submit(w, a, roll), a)
    ensures Spared(w, KnockOut(w, a), a)
  {
    BlowSpares(w, a, action, zone, before, combo);
    StunSpares(w, a, zone, roll);
    FinishSpares(w, a, roll);
    hide *;
  }

  lemma BlowSpares(w: Work, a: Slot, action: Action, zone: Zone, before: int, combo: bool)
    ensures Spared(w, Damage(w, a, action, zone, before, combo), a) && Spared(w, ZoneEffect(w, a, zone), a)
  {
    hide DamageFinal, BaseDamage;
  }

  lemma StunSpares(w: Work, a: Slot, zone: Zone, roll: nat)
    ensures Spared(w, StunRoll(w, a, zone, roll), a) && Spared(w, Climb(w, a), a)
  {
    hide StunChance;
  }

  lemma FinishSpares(w: Work, a: Slot, roll: nat)
    ensures Spared(w, Submit(w, a, roll), a) && Spared(w, KnockOut(w, a), a)
  {
    hide SubmissionChance;
  }

  // ---------- the whole turn ----------

  /** The turn's first entry starts it, the last two restore stamina, and no other entry does either. */
  lemma PlayShape(s: MatchState, ordered: seq<TurnInput>, tape: Tape)
    requires |ordered| == 2
    ensures var log := Play(s, ordered, tape).events;
            && |log| >= 3
            && (forall i :: 0 <= i < |log| ==> (log[i].kind == TurnStarted <==> i == 0))
            && (forall i :: 0 <= i < |log| ==> (log[i].kind == StaminaRestored <==> |log| - 2 <= i))
  {
    hide Act, Rest;
    var a := s.SlotOf(ordered[0].player);
    var begun := Begin(s);
    assert |begun.events| == 1 && begun.events[0].kind == TurnStarted;
    ActExtends(begun, a, ordered[0], Contexts(s, a, ordered[1]), tape[0], tape[1], tape[2]);
    var w := Opening(s, ordered, tape);
    OpeningDraws(s, ordered, tape);
    var k := |w.rolls|;
    ActExtends(w, a.Other(), ordered[1], Contexts(s, a.Other(), ordered[0]), tape[k], tape[k + 1], tape[k + 2]);
    var v := Exchange(s, ordered, tape);
    var log := Play(s, ordered, tape).events;
    hide Close, Begin, Exchange, Opening;
    CloseShape(v, if a == P1 then Contexts(s, a, ordered[1]) else Contexts(s, a.Other(), ordered[0]),
               if a == P1 then Contexts(s, a.Other(), ordered[0]) else Contexts(s, a, ordered[1]));
    assert begun.events <= w.events <= v.events <= log;
    forall i | 1 <= i < |v.events| ensures log[i].kind in {ActionResolved} + CONSEQUENCES {
      assert log[i] == v.events[i];
      assert i < |w.events| ==> log[i] == w.events[i];
    }
    assert log[0] == begun.events[0];
  }

  lemma CloseShape(w: Work, c1: Context, c2: Context)
    ensures var v := Close(w, c1, c2);
            && |v.events| == |w.events| + 2 && v.next.combat == w.next.combat
            && v.next.outcome == w.next.outcome
  {
    hide RegenOf;
  }

  /** At most one blow lands on each fighter in a turn. */
  lemma PlayHits(s: MatchState, ordered: seq<TurnInput>, tape: Tape, id: Id)
    requires ProperIds(s) && |ordered| == 2
    ensures HitsOn(Play(s, ordered, tape).events, id) <= 1
  {
    hide Act, Close;
    var a := s.SlotOf(ordered[0].player);
    var begun := Begin(s);
    assert HitsOn(begun.events, id) == 0;
    ActHits(begun, a, ordered[0], Contexts(s, a, ordered[1]), tape[0], tape[1], tape[2], id);
    var w := Opening(s, ordered, tape);
    OpeningDraws(s, ordered, tape);
    var k := |w.rolls|;
    ActHits(w, a.Other(), ordered[1], Contexts(s, a.Other(), ordered[0]), tape[k], tape[k + 1], tape[k + 2], id);
    ActSpares(begun, a, ordered[0], Contexts(s, a, ordered[1]), tape[0], tape[1], tape[2]);
    Unhurt(Exchange(s, ordered, tape).events, Play(s, ordered, tape).events, id);
  }

  /** A turn moves the ladder exactly as its resolved grapples and breaks say. */
  lemma PlayRung(prior: seq<Event>, s: MatchState, ordered: seq<TurnInput>, tape: Tape)
    requires |ordered| == 2 && s.combat != Stunned && Rank(s.combat) == Min(4, GrapplesSinceBreak(prior))
    ensures OnRung(prior, Play(s, ordered, tape))
  {
    hide Act, Close;
    var a := s.SlotOf(ordered[0].player);
    var begun := Begin(s);
    assert begun.events == [] + [begun.events[0]] && prior + [] == prior;
    RungSnoc(prior, [], begun.events[0]);
    ActRung(prior, begun, a, ordered[0], Contexts(s, a, ordered[1]), tape[0], tape[1], tape[2]);
    var w := Opening(s, ordered, tape);
    OpeningDraws(s, ordered, tape);
    var k := |w.rolls|;
    ActRung(prior, w, a.Other(), ordered[1], Contexts(s, a.Other(), ordered[0]), tape[k], tape[k + 1], tape[k + 2]);
    CloseShape(Exchange(s, ordered, tape),
               if a == P1 then Contexts(s, a, ordered[1]) else Contexts(s, a.Other(), ordered[0]),
               if a == P1 then Contexts(s, a.Other(), ordered[0]) else Contexts(s, a, ordered[1]));
    QuietRung(prior, Exchange(s, ordered, tape), Play(s, ordered, tape));
  }

  /** What each fighter gets back at the end of a turn: cut to four fifths exactly when the turn began with a torso
      penalty, and never above the maximum. */
  lemma PlayRestores(s: MatchState, ordered: seq<TurnInput>, tape: Tape, f: Slot)
    requires |ordered| == 2
    ensures var v := Play(s, ordered, tape);
            var e := v.events[|v.events| - (if f == P1 then 2 else 1)];
            var full := Regen(v.next.Get(f).stats.endurance);
            var before := v.next.Get(f).stamina - e.value;
            && e.player == v.next.Get(f).id
            && v.next.Get(f).stamina
               == Clamp(before + Max(0, if s.Get(f).effects.torso > 0 then TruncDiv(full * 80, 100) else full),
                        0, STAMINA_MAX)
  {
    PlayShape(s, ordered, tape);
    hide Act, Begin, Exchange, Opening, Regen;
    var a := s.SlotOf(ordered[0].player);
    var c0, c1 := Contexts(s, a, ordered[1]), Contexts(s, a.Other(), ordered[0]);
    var w := Exchange(s, ordered, tape);
    var c, d := if a == P1 then c0 else c1, if a == P1 then c1 else c0;
    CloseRestores(w, c, d, f);
  }

  lemma CloseRestores(w: Work, c: Context, d: Context, f: Slot)
    ensures var v := Close(w, c, d);
            && |v.events| == |w.events| + 2
            && var e := v.events[|v.events| - (if f == P1 then 2 else 1)];
               var before := v.next.Get(f).stamina - e.value;
               && e.player == v.next.Get(f).id
               && v.next.Get(f).stamina
                  == Clamp(before + RegenOf(v.next.Get(f), if f == P1 then c else d), 0, STAMINA_MAX)
  {
    hide Regen;
  }

  /** A turn counts itself and leaves the ids alone, whatever state it starts from. */
  lemma PlayAdvances(s: MatchState, ordered: seq<TurnInput>, tape: Tape)
    requires |ordered| == 2
    ensures var m := Play(s, ordered, tape).next;
            m.turn == s.turn + 1 && m.p1.id == s.p1.id && m.p2.id == s.p2.id
  {
    hide Act, Rest, Recovered;
    var a := s.SlotOf(ordered[0].player);
    ActSpares(Begin(s), a, ordered[0], Contexts(s, a, ordered[1]), tape[0], tape[1], tape[2]);
    var w := Opening(s, ordered, tape);
    OpeningDraws(s, ordered, tape);
    var k := |w.rolls|;
    ActSpares(w, a.Other(), ordered[1], Contexts(s, a.Other(), ordered[0]), tape[k], tape[k + 1], tape[k + 2]);
    hide Begin, Close;
    CloseKeeps(Exchange(s, ordered, tape),
               if a == P1 then Contexts(s, a, ordered[1]) else Contexts(s, a.Other(), ordered[0]),
               if a == P1 then Contexts(s, a.Other(), ordered[0]) else Contexts(s, a, ordered[1]));
    BeginKeeps(s);
  }

  lemma BeginKeeps(s: MatchState)
    ensures var m := Begin(s).next; m.turn == s.turn + 1 && m.p1.id == s.p1.id && m.p2.id == s.p2.id
  {
  }

  lemma CloseKeeps(w: Work, c1: Context, c2: Context)
    ensures var m := Close(w, c1, c2).next;
            m.turn == w.next.turn && m.p1.id == w.next.p1.id && m.p2.id == w.next.p2.id
  {
    hide RegenOf;
  }

  // ---------- who rolls ----------

  /** The work a fighter's action starts from: the opened turn for the one that leads, else what the first one left. */
  function Footing(s: MatchState, ordered: seq<TurnInput>, tape: Tape, f: Slot): Work
    requires |ordered| == 2
  {
    if f == s.SlotOf(ordered[0].player) then Begin(s) else Opening(s, ordered, tape)
  }

  lemma ExchangeDraws(s: MatchState, ordered: seq<TurnInput>, tape: Tape)
    requires |ordered| == 2
    ensures Opening(s, ordered, tape).rolls <= Exchange(s, ordered, tape).rolls
  {
    hide Act, Begin;
    OpeningDraws(s, ordered, tape);
    var a, w := s.SlotOf(ordered[0].player).Other(), Opening(s, ordered, tape);
    var k := |w.rolls|;
    ActDraws(w, a, ordered[1], Contexts(s, a, ordered[0]), tape[k], tape[k + 1], tape[k + 2]);
  }

  /** The rolls that a fighter's own action drew. */
  function DrawnBy(s: MatchState, ordered: seq<TurnInput>, tape: Tape, f: Slot): seq<nat>
    requires |ordered| == 2
  {
    ExchangeDraws(s, ordered, tape);
    if f == s.SlotOf(ordered[0].player) then Opening(s, ordered, tape).rolls
    else Exchange(s, ordered, tape).rolls[|Opening(s, ordered, tape).rolls|..]
  }

  // ---------- the chance an attempt is logged with ----------

  /** An attempt entry is the first one its action writes, and carries the chance computed where the action started. */
  lemma ActChance(w: Work, a: Slot, input: TurnInput, ctx: Context, r0: nat, r1: nat, r2: nat, i: nat)
    requires |w.events| <= i < |Act(w, a, input, ctx, r0, r1, r2).events|
    requires Act(w, a, input, ctx, r0, r1, r2).events[i].kind == ActionResolved
    ensures var e, action := Act(w, a, input, ctx, r0, r1, r2).events[i], NormalizeAction(input.action);
            && e.player == w.next.Get(a).id && e.action == action
            && (e.detail != InsufficientStamina ==>
                  && Odds.Real(action)
                  && e.value == Chance(Paid(w.next.Get(a), action), w.next.Get(a.Other()), action, ctx))
  {
    ActExtends(w, a, input, ctx, r0, r1, r2);
    hide Succeed, Chance, StaminaCost, InReach, CONSEQUENCES;
    var action, zone := NormalizeAction(input.action), NormalizeZone(input.target);
    var tried := Attempt(w, a, action, zone, ctx, r0);
    SucceedExtends(tried, a, action, zone, r1, r2);
  }

  /** The input the turn holds a fighter to. */
  function InputFor(s: MatchState, pair: seq<TurnInput>, f: Slot): TurnInput
    requires |pair| == 2
  {
    if s.SlotOf(pair[0].player) == f then pair[0] else pair[1]
  }

  /** The chance of an action of `f`, computed from the work it starts from and the effects at the start of the turn. */
  function ChanceOf(s: MatchState, pair: seq<TurnInput>, tape: Tape, f: Slot, action: Action): int
    requires |pair| == 2
  {
    var w := Footing(s, pair, tape, f);
    Chance(Paid(w.next.Get(f), action), w.next.Get(f.Other()), action,
           ContextOf(s.Get(f), InputFor(s, pair, f.Other()).action))
  }

  lemma SoundIsReady(s: MatchState, w: Work, b: Bounds)
    requires Sound(s, w, b)
    ensures Odds.Ready(w.next.p1) && Odds.Ready(w.next.p2)
  {
    hide Explained;
  }

  /** An action of a match between archetype fighters always starts between such fighters. */
  lemma FootingIsReady(s: MatchState, pair: seq<TurnInput>, tape: Tape, f: Slot)
    requires Inv(s) && |pair| == 2
    ensures Odds.Ready(Footing(s, pair, tape, f).next.p1) && Odds.Ready(Footing(s, pair, tape, f).next.p2)
  {
    hide Explained, Act, Begin, DamageCap, LossCap, Mid, Odds.Ready;
    var a, b := s.SlotOf(pair[0].player), BoundsAt(s.turn);
    BeginSound(s);
    SoundIsReady(s, Begin(s), b);
    ActSound(s, Begin(s), a, pair[0], pair[1], tape[0], tape[1], tape[2], b);
    SoundIsReady(s, Opening(s, pair, tape), Acted(b, a, s.turn));
  }

  /** What one resolved entry of a turn says about the fighter who acted. */
  ghost predicate Attests(s: MatchState, pair: seq<TurnInput>, tape: Tape, e: Event)
    requires |pair| == 2
  {
    var f := s.SlotOf(e.player);
    && e.player == s.Get(f).id
    && e.action == NormalizeAction(InputFor(s, pair, f).action)
    && (e.detail != InsufficientStamina ==> Odds.Real(e.action) && e.value == ChanceOf(s, pair, tape, f, e.action))
  }

  lemma OpeningChance(s: MatchState, pair: seq<TurnInput>, tape: Tape, i: nat)
    requires ProperIds(s) && |pair| == 2 && i < |Opening(s, pair, tape).events|
    requires Opening(s, pair, tape).events[i].kind == ActionResolved
    ensures Attests(s, pair, tape, Opening(s, pair, tape).events[i])
  {
    hide Act, Chance;
    var a, begun := s.SlotOf(pair[0].player), Begin(s);
    assert |begun.events| == 1 && begun.events[0].kind == TurnStarted;
    ActExtends(begun, a, pair[0], Contexts(s, a, pair[1]), tape[0], tape[1], tape[2]);
    ActChance(begun, a, pair[0], Contexts(s, a, pair[1]), tape[0], tape[1], tape[2], i);
    BeginKeeps(s);
    hide Begin;
  }

  lemma ExchangeChance(s: MatchState, pair: seq<TurnInput>, tape: Tape, i: nat)
    requires ProperIds(s) && |pair| == 2
    requires |Opening(s, pair, tape).events| <= i < |Exchange(s, pair, tape).events|
    requires Exchange(s, pair, tape).events[i].kind == ActionResolved
    ensures Attests(s, pair, tape, Exchange(s, pair, tape).events[i])
  {
    hide Act, Chance, Begin;
    var a := s.SlotOf(pair[0].player);
    OpeningDraws(s, pair, tape);
    var w := Opening(s, pair, tape);
    var k := |w.rolls|;
    ActSpares(Begin(s), a, pair[0], Contexts(s, a, pair[1]), tape[0], tape[1], tape[2]);
    BeginKeeps(s);
    ActChance(w, a.Other(), pair[1], Contexts(s, a.Other(), pair[0]), tape[k], tape[k + 1], tape[k + 2], i);
  }

  /** Every resolved entry of a turn carries the chance of the action it reports. */
  lemma PlayChance(s: MatchState, pair: seq<TurnInput>, tape: Tape, i: nat)
    requires ProperIds(s) && |pair| == 2 && i < |Play(s, pair, tape).events|
    requires Play(s, pair, tape).events[i].kind == ActionResolved
    ensures Attests(s, pair, tape, Play(s, pair, tape).events[i])
  {
    PlayShape(s, pair, tape);
    hide Act, Begin, Attests;
    var a, w, v := s.SlotOf(pair[0].player), Opening(s, pair, tape), Exchange(s, pair, tape);
    OpeningDraws(s, pair, tape);
    var k := |w.rolls|;
    ActExtends(w, a.Other(), pair[1], Contexts(s, a.Other(), pair[0]), tape[k], tape[k + 1], tape[k + 2]);
    var c0, c1 := Contexts(s, a, pair[1]), Contexts(s, a.Other(), pair[0]);
    CloseShape(v, if a == P1 then c0 else c1, if a == P1 then c1 else c0);
    hide Close, Opening, Exchange;
    var log := Play(s, pair, tape).events;
    assert w.events <= v.events <= log;
    if i < |w.events| {
      assert log[i] == w.events[i];
      OpeningChance(s, pair, tape, i);
    } else {
      assert i < |v.events| && log[i] == v.events[i];
      ExchangeChance(s, pair, tape, i);
    }
  }

  // ---------- a stunned fighter ----------

  lemma StunnedAct(w: Work, a: Slot, input: TurnInput, ctx: Context, r0: nat, r1: nat, r2: nat)
    requires ctx.stunned
    ensures var v := Act(w, a, input, ctx, r0, r1, r2);
            && v.rolls == w.rolls
            && v.next.Get(a).stamina == w.next.Get(a).stamina && v.next.Get(a).stats == w.next.Get(a).stats
  {
  }

  lemma CloseFeeds(w: Work, c1: Context, c2: Context, f: Slot)
    ensures Close(w, c1, c2).rolls == w.rolls
    ensures Close(w, c1, c2).next.Get(f).stamina
         == Clamp(w.next.Get(f).stamina + RegenOf(w.next.Get(f), if f == P1 then c1 else c2), 0, STAMINA_MAX)
  {
    hide RegenOf;
  }

  /** What a fighter that neither pays nor is hit for stamina has after a turn. */
  function Fed(f: Fighter): int {
    Clamp(f.stamina + RegenOf(f, ContextOf(f, NoAction)), 0, STAMINA_MAX)
  }

  lemma FedBy(f: Fighter, g: Fighter, ctx: Context)
    requires g.stats == f.stats && ctx.torso == (f.effects.torso > 0)
    ensures RegenOf(g, ctx) == RegenOf(f, ContextOf(f, NoAction))
  {
  }

  lemma BeginFighters(s: MatchState, f: Slot)
    ensures Begin(s).rolls == []
    ensures Begin(s).next.Get(f).stamina == s.Get(f).stamina && Begin(s).next.Get(f).stats == s.Get(f).stats
  {
  }

  /** A stunned fighter's own action draws nothing, and its stamina moves by the turn's regeneration and nothing
      else. */
  lemma StunnedTurn(s: MatchState, ordered: seq<TurnInput>, tape: Tape, f: Slot)
    requires |ordered| == 2 && s.Get(f).effects.stun > 0
    ensures DrawnBy(s, ordered, tape, f) == []
    ensures Play(s, ordered, tape).rolls == DrawnBy(s, ordered, tape, f.Other())
    ensures Play(s, ordered, tape).next.Get(f).stamina == Fed(s.Get(f))
  {
    hide Act, Close, Begin, RegenOf;
    BeginFighters(s, f);
    var a, begun := s.SlotOf(ordered[0].player), Begin(s);
    var w := Opening(s, ordered, tape);
    OpeningDraws(s, ordered, tape);
    var k := |w.rolls|;
    var c0, c1 := Contexts(s, a, ordered[1]), Contexts(s, a.Other(), ordered[0]);
    if f == a {
      StunnedAct(begun, a, ordered[0], c0, tape[0], tape[1], tape[2]);
      ActSpares(w, a.Other(), ordered[1], c1, tape[k], tape[k + 1], tape[k + 2]);
    } else {
      ActSpares(begun, a, ordered[0], c0, tape[0], tape[1], tape[2]);
      StunnedAct(w, a.Other(), ordered[1], c1, tape[k], tape[k + 1], tape[k + 2]);
    }
    var d1, d2 := if a == P1 then c0 else c1, if a == P1 then c1 else c0;
    CloseFeeds(Exchange(s, ordered, tape), d1, d2, f);
    FedBy(s.Get(f), Exchange(s, ordered, tape).next.Get(f), if f == P1 then d1 else d2);
  }

  /** A stunned fighter's action is one entry, or none when the match is over by then. */
  lemma StunnedSkips(w: Work, a: Slot, input: TurnInput, ctx: Context, r0: nat, r1: nat, r2: nat)
    requires ctx.stunned
    ensures var v := Act(w, a, input, ctx, r0, r1, r2);
            if w.next.outcome.finished then v == w
            else
              && |v.events| == |w.events| + 1 && w.events <= v.events
              && Marks(v.events[|w.events|], w.next.Get(a).id, StunnedSkip)
  {
    hide Attempt, Succeed, StaminaCost;
  }

  /** A stunned fighter is logged as skipping, unless the opponent acted first and decided the match. */
  lemma StunnedTurnSkips(s: MatchState, pair: seq<TurnInput>, tape: Tape, f: Slot) returns (at: nat)
    requires |pair| == 2 && ProperIds(s) && s.Get(f).effects.stun > 0 && !s.outcome.finished
    ensures if Footing(s, pair, tape, f).next.outcome.finished then
              && f != s.SlotOf(pair[0].player)
              && Play(s, pair, tape).next.outcome == Footing(s, pair, tape, f).next.outcome
            else
              at < |Play(s, pair, tape).events| && Marks(Play(s, pair, tape).events[at], s.Get(f).id, StunnedSkip)
  {
    hide Act, Close, Marks;
    BeginKeeps(s);
    var a, begun := s.SlotOf(pair[0].player), Begin(s);
    var w, v := Opening(s, pair, tape), Exchange(s, pair, tape);
    OpeningDraws(s, pair, tape);
    var k := |w.rolls|;
    var c0, c1 := Contexts(s, a, pair[1]), Contexts(s, a.Other(), pair[0]);
    ActExtends(w, a.Other(), pair[1], c1, tape[k], tape[k + 1], tape[k + 2]);
    ActSpares(begun, a, pair[0], c0, tape[0], tape[1], tape[2]);
    CloseShape(v, if a == P1 then c0 else c1, if a == P1 then c1 else c0);
    CloseExtends(v, if a == P1 then c0 else c1, if a == P1 then c1 else c0);
    hide Begin;
    if f == a {
      StunnedSkips(begun, a, pair[0], c0, tape[0], tape[1], tape[2]);
      at := |begun.events|;
    } else {
      StunnedSkips(w, a.Other(), pair[1], c1, tape[k], tape[k + 1], tape[k + 2]);
      at := |w.events|;
    }
  }

  lemma CloseExtends(w: Work, c1: Context, c2: Context)
    ensures w.events <= Close(w, c1, c2).events
  {
  }
}
