/** Matches in which the odd cases occur: a dodge that hurt legs do not slow down, and a match that ends twice. */
module Oddities {
  import opened Words
  import opened CombatTypes
  import opened Rules
  import opened Turn
  import opened Order
  import opened Invariant
  import opened Shape
  import opened Ledger
  import opened Runs
  import opened Matches
  import opened Finish
  import opened Earliest
  import Odds

  // ---------- a submission and a knock-out in one action ----------

  /** Every attempt succeeds, no hit stuns and no submission is accepted. */
  const PATIENT: Tape := [0, 9999, 9999, 0, 0, 0]

  function Rung(n: nat): State {
    if n == 0 then Neutral else if n == 1 then Clinch else if n == 2 then Ground else if n == 3 then Dominant
    else SubmissionAttempt
  }

  /** A Technician that grapples an idle opponent every turn, `n` turns in. */
  predicate Pressing(s: MatchState, n: nat) {
    && s.turn == n && s.distance == 1 && s.outcome == Outcome(false, [], NoMethod) && s.combat == Rung(n)
    && s.p1.id == ID_A && s.p1.stats == Stats(5, 9, 5, 6) && s.p1.effects == Effects(0, 0, 0) && s.p1.state != Stunned
    && s.p1.stamina == 100 - 2 * n && s.p1.momentum == Clamp(13 * n, 0, 50) && s.p1.lastHit == n
    && s.p2.id == ID_B && s.p2.effects == Effects(0, 0, 0) && s.p2.state != Stunned
    && s.p2.momentum == 0 && s.p2.stamina == 100
  }

  /** The blow and the climb of such a grapple. */
  lemma PressLocks(w: Work, n: nat, before: int)
    requires n <= 4 && 0 <= before <= 50 && w.next.combat == Rung(n) && w.next.p1.stats == Stats(5, 9, 5, 6)
    requires w.next.p1.state != Stunned && w.next.p2.state != Stunned && w.next.p2.momentum == 0
    ensures var v := Locked(w, P1, Head, before, true, 9999);
            var p2 := w.next.p2.(hp := Clamp(w.next.p2.hp - DamageFinal(19, before, true), 0, 100));
            && v.next.turn == w.next.turn && v.next.distance == w.next.distance && v.next.outcome == w.next.outcome
            && v.next.combat == Rung(n + 1) && v.next.rng == w.next.rng
            && v.next.p1 == w.next.p1.(lastHit := w.next.turn, state := v.next.p1.state) && v.next.p1.state != Stunned
            && v.next.p2 == p2.(state := v.next.p2.state) && v.next.p2.state != Stunned
  {
    DamageBounds(19, before, 50, true);
    hide DamageFinal;
    NoStun(ZoneEffect(Damage(w, P1, Grapple, Head, before, true), P1, Head), P1, Head);
    hide StunRoll;
  }

  lemma NeverAccepted(attacker: Fighter, defender: Fighter)
    ensures 0 < SubmissionChance(attacker, defender) < 9999
  {
  }

  lemma LandPresses(w: Work, n: nat, before: int)
    requires n <= 3 && 0 <= before <= 50 && w.next.combat == Rung(n) && w.next.p1.stats == Stats(5, 9, 5, 6)
    requires w.next.p1.state != Stunned && w.next.p2.state != Stunned && w.next.p2.momentum == 0
    requires DamageFinal(19, before, true) < w.next.p2.hp <= 100 && !w.next.outcome.finished
    ensures Land(w, P1, Grapple, Head, before, true, 9999, 9999).next == Locked(w, P1, Head, before, true, 9999).next
  {
    DamageBounds(19, before, 50, true);
    PressLocks(w, n, before);
    hide DamageFinal, Damage, ZoneEffect, StunRoll, Climb;
    var v := Locked(w, P1, Head, before, true, 9999);
    NeverAccepted(v.next.p1, v.next.p2);
    hide SubmissionChance, Locked;
  }

  /** A fighter who has just paid for such a grapple. */
  predicate Grappling(w: Work, n: nat) {
    && w.next.combat == Rung(n) && w.next.turn == n + 1 && !w.next.outcome.finished
    && w.next.p1.id == ID_A && w.next.p1.stats == Stats(5, 9, 5, 6)
    && w.next.p1.state != Stunned && w.next.p2.state != Stunned && w.next.p2.momentum == 0
    && w.next.p1.momentum == Clamp(13 * n, 0, 50) && w.next.p1.lastHit == n && w.next.p1.stamina > 30
  }

  function GrappleDamage(n: nat): int { DamageFinal(19, Clamp(13 * n, 0, 50), true) }

  lemma SucceedPresses(w: Work, n: nat)
    requires n <= 3 && Grappling(w, n) && GrappleDamage(n) < w.next.p2.hp <= 100
    ensures var v := Succeed(w, P1, Grapple, Head, 9999, 9999).next;
            && v.turn == w.next.turn && v.distance == w.next.distance && v.outcome == w.next.outcome
            && v.combat == Rung(n + 1)
            && v.p1 == w.next.p1.(lastHit := n + 1, state := v.p1.state, momentum := Clamp(13 * (n + 1), 0, 50))
            && v.p2 == w.next.p2.(state := v.p2.state, hp := w.next.p2.hp - GrappleDamage(n))
            && v.p1.state != Stunned && v.p2.state != Stunned
  {
    hide Land, DamageFinal, Locked;
    DamageBounds(19, Clamp(13 * n, 0, 50), 50, true);
    assert InCombo(w, P1, Grapple);
    var inspired := Inspire(w, P1, Grapple, true);
    LandPresses(inspired, n, Clamp(13 * n, 0, 50));
    PressLocks(inspired, n, Clamp(13 * n, 0, 50));
  }

  lemma AttemptPresses(s: MatchState, n: nat)
    requires n <= 4 && Pressing(s, n)
    ensures StaminaCost(Grapple, Begin(s).next.p1.stats.endurance) <= Begin(s).next.p1.stamina
    ensures !Begin(s).next.outcome.finished && Begin(s).next.p1.momentum == s.p1.momentum && Begin(s).rolls == []
    ensures !Contexts(s, P1, TurnInput(ID_B, NoAction, Head, 0)).stunned
    ensures var w := Attempt(Begin(s), P1, Grapple, Head, Contexts(s, P1, TurnInput(ID_B, NoAction, Head, 0)), 0);
            && Grappling(w, n) && w.next.p1.lastSuccess && w.next.distance == 1 && w.next.outcome == s.outcome
            && w.next.p1.effects == Effects(0, 0, 0) && w.next.p1.stamina == 89 - 2 * n
            && w.next.p2 == s.p2
  {
    GrapplePrice();
    hide Attempt, BaseCost;
    AttemptWorks(Begin(s), P1, Grapple, Head, Contexts(s, P1, TurnInput(ID_B, NoAction, Head, 0)));
  }

  lemma TechnicianRests()
    ensures forall f: Fighter, c: Context :: f.stats == Stats(5, 9, 5, 6) && !c.torso ==> RegenOf(f, c) == 9
    ensures forall f: Fighter, c: Context :: RegenOf(f, c) >= 0
  {
  }

  /** The work after such a grapple, before the opponent and the end of the turn. */
  predicate Pressed(s: MatchState, w: Work, n: nat) {
    && w.next.turn == n + 1 && w.next.distance == 1 && w.next.outcome == s.outcome && w.next.combat == Rung(n + 1)
    && w.next.p1.id == ID_A && w.next.p1.stats == Stats(5, 9, 5, 6) && w.next.p1.effects == Effects(0, 0, 0)
    && w.next.p1.state != Stunned && w.next.p1.stamina == 89 - 2 * n
    && w.next.p1.momentum == Clamp(13 * (n + 1), 0, 50) && w.next.p1.lastHit == n + 1
    && w.next.p2.id == ID_B && w.next.p2.effects == Effects(0, 0, 0) && w.next.p2.state != Stunned
    && w.next.p2.momentum == 0 && w.next.p2.stamina == 100 && w.next.p2.hp == s.p2.hp - GrappleDamage(n)
  }

  lemma OpeningPresses(s: MatchState, n: nat)
    requires n <= 3 && Pressing(s, n) && GrappleDamage(n) < s.p2.hp <= 100
    ensures Pressed(s, Opening(s, Pair(Grapple, NoAction), PATIENT), n)
  {
    hide *;
    TriedPresses(s, n);
    OpeningIs(s, n);
  }

  /** A grapple of this series that has succeeded. */
  function Tried(s: MatchState): Work {
    var ctx := Contexts(s, P1, TurnInput(ID_B, NoAction, Head, 0));
    Succeed(Attempt(Begin(s), P1, Grapple, Head, ctx, 0), P1, Grapple, Head, 9999, 9999)
  }

  lemma TriedPresses(s: MatchState, n: nat)
    requires n <= 3 && Pressing(s, n) && GrappleDamage(n) < s.p2.hp <= 100
    ensures Pressed(s, Tried(s), n)
  {
    AttemptPresses(s, n);
    var ctx := Contexts(s, P1, TurnInput(ID_B, NoAction, Head, 0));
    hide Succeed, Attempt, GrappleDamage, Rung, Begin, Contexts, StaminaCost;
    SucceedPresses(Attempt(Begin(s), P1, Grapple, Head, ctx, 0), n);
  }

  lemma OpeningIs(s: MatchState, n: nat)
    requires n <= 3 && Pressing(s, n)
    ensures Opening(s, Pair(Grapple, NoAction), PATIENT) == Tried(s)
  {
    var pair := Pair(Grapple, NoAction);
    AttemptPresses(s, n);
    FirstOpens(s, n);
    hide Succeed, Attempt, StaminaCost, Act, Begin, Contexts, Pressing, Grappling, Opening;
    ActSucceeds(Begin(s), pair[0], Contexts(s, P1, pair[1]), 9999, 9999);
  }

  lemma FirstOpens(s: MatchState, n: nat)
    requires n <= 3 && Pressing(s, n)
    ensures var pair := Pair(Grapple, NoAction);
            Opening(s, pair, PATIENT) == Act(Begin(s), P1, pair[0], Contexts(s, P1, pair[1]), 0, 9999, 9999)
  {
    var pair := Pair(Grapple, NoAction);
    assert s.SlotOf(pair[0].player) == P1;
    assert PATIENT[0] == 0 && PATIENT[1] == 9999 && PATIENT[2] == 9999;
    hide Act, Begin, Contexts, Pressing, Pair, Rung, GrappleDamage, ID_A, ID_B, PATIENT;
  }

  /** An action that goes through is its attempt and what follows from the success. */
  lemma ActSucceeds(w: Work, input: TurnInput, ctx: Context, r1: nat, r2: nat)
    requires input.action in {Strike, Grapple} && !input.target.OtherZone?
    requires !ctx.stunned && !w.next.outcome.finished
    requires StaminaCost(input.action, w.next.p1.stats.endurance) <= w.next.p1.stamina
    requires Attempt(w, P1, input.action, input.target, ctx, 0).next.p1.lastSuccess
    ensures Act(w, P1, input, ctx, 0, r1, r2)
         == Succeed(Attempt(w, P1, input.action, input.target, ctx, 0), P1, input.action, input.target, r1, r2)
  {
    hide Attempt, Succeed, StaminaCost;
  }

  lemma PressCloses(s: MatchState, w: Work, c1: Context, c2: Context, n: nat)
    requires n <= 3 && Pressing(s, n) && Pressed(s, w, n) && !c1.torso
    ensures Pressing(Close(w, c1, c2).next, n + 1) && Close(w, c1, c2).next.p2.hp == w.next.p2.hp
  {
    hide GrappleDamage, RegenOf, Rung;
    TechnicianRests();
  }

  /** One of the first four turns. */
  lemma PressOnce(s: MatchState, n: nat)
    requires n <= 3 && Pressing(s, n) && GrappleDamage(n) < s.p2.hp <= 100
    ensures var v := Play(s, Pair(Grapple, NoAction), PATIENT).next;
            Pressing(v, n + 1) && v.p2.hp == s.p2.hp - GrappleDamage(n)
  {
    var pair := Pair(Grapple, NoAction);
    OpeningPresses(s, n);
    hide Opening, Act, Close, GrappleDamage, Rung;
    var w := Opening(s, pair, PATIENT);
    OpeningDraws(s, pair, PATIENT);
    var k := |w.rolls|;
    IdleWaits(w, Grapple, PATIENT[k], PATIENT[k + 1], PATIENT[k + 2]);
    var v := Exchange(s, pair, PATIENT);
    PressCloses(s, v, Contexts(s, P1, pair[1]), Contexts(s, P2, pair[0]), n);
  }

  lemma FiveBlows()
    ensures GrappleDamage(0) == 20 && GrappleDamage(1) == 23 && GrappleDamage(2) == 25
    ensures GrappleDamage(3) == 28 && GrappleDamage(4) == 30
  {
  }

  lemma GrappleOnce(m: Match, tape: Tape) returns (v: Match)
    requires m.Played() && !m.Last().state.outcome.finished
    requires m.Last().state.p1.id == ID_A && m.Last().state.p2.id == ID_B
    ensures v.Played() && v.start == m.start && |v.turns| == |m.turns| + 1 && v.runs[..|m.runs|] == m.runs
    ensures v.script[|m.turns|] == TurnScript(Pair(Grapple, NoAction), tape, ZERO)
    ensures v.Last().state == Play(m.Last().state, Pair(Grapple, NoAction), tape).next.(rng := ZERO)
  {
    hide Play, Canonical;
    PairIsCanonical(m.Last().state, Grapple, Head, NoAction);
    v := OneMore(m, Pair(Grapple, NoAction), tape);
  }

  lemma PressOn(m: Match, n: nat) returns (v: Match)
    requires n <= 3 && m.Played() && |m.turns| == n && Pressing(m.Last().state, n)
    requires GrappleDamage(n) < m.Last().state.p2.hp <= 100
    ensures v.Played() && v.start == m.start && |v.turns| == n + 1 && Pressing(v.Last().state, n + 1)
    ensures v.Last().state.p2.hp == m.Last().state.p2.hp - GrappleDamage(n)
  {
    hide Play, GrappleDamage, Rung;
    v := GrappleOnce(m, PATIENT);
    PressOnce(m.Last().state, n);
  }

  lemma FifthActsTwice(s: MatchState)
    requires Pressing(s, 4) && 0 <= s.p2.hp <= GrappleDamage(4)
    ensures var pair := Pair(Grapple, NoAction);
            ActsTwice(Begin(s), P1, pair[0], Contexts(s, P1, pair[1]), 0, 0)
  {
    var actor, defender := Begin(s).next.p1, Begin(s).next.p2;
    GrapplePrice();
    FiveBlows();
    ChanceIsPositive(Paid(actor, Grapple), defender, Grapple, Contexts(s, P1, TurnInput(ID_B, NoAction, Head, 0)));
    NeverAccepted(actor.(momentum := Lifted(actor.momentum, true)), Shaken(defender, 30));
    hide Chance, StaminaCost, SubmissionChance, DamageFinal, BaseCost;
  }

  lemma FifthTurnEndsTwice(s: MatchState)
    requires Pressing(s, 4) && 0 <= s.p2.hp <= GrappleDamage(4)
    ensures EndsTurnTwice(s, Pair(Grapple, NoAction), LUCKY, P1)
  {
    assert s.SlotOf(Pair(Grapple, NoAction)[0].player) == P1;
    hide ActsTwice, EndsTurnTwice, Begin, Opening, Exchange, Act, Contexts, Pressing, GrappleDamage;
    FifthActsTwice(s);
    OrderOfPlay(s, Pair(Grapple, NoAction), LUCKY);
  }

  lemma NewPressing() returns (m: Match)
    ensures m.Played() && |m.turns| == 0 && IsFresh(m.start) && m.start.p1.id == ID_A && m.start.p2.id == ID_B
    ensures Pressing(m.Last().state, 0)
    ensures m.Last().state.p2.hp == 100 && m.Last().state.p2.stats == Stats(5, 9, 5, 6)
  {
    m := NewMatch(Opponents(Technician));
    hide Match.Turned;
  }

  /** Five grapples in a row: the last one wins by submission and by knock-out, and the knock-out is the outcome. */
  lemma SubmittedAndKnockedOut() returns (m: Match)
    ensures IsFresh(m.start) && m.Played() && |m.turns| == 5
    ensures |Finishes(m.Last().log)| == 2 && m.Last().state.outcome.finished && m.Last().state.outcome.how == KO
  {
    m := NewPressing();
    FiveBlows();
    hide Play, GrappleDamage, Match.Turned, EndsTurnTwice, Finishes, Canonical, IsFresh, Rung;
    m := PressOn(m, 0);
    m := PressOn(m, 1);
    m := PressOn(m, 2);
    m := PressOn(m, 3);
    FifthTurnEndsTwice(m.Last().state);
    var before := m;
    m := GrappleOnce(m, LUCKY);
    assert m.runs[..5][4] == before.Last();
    PairIsCanonical(before.Last().state, Grapple, Head, NoAction);
    MatchEndsTwiceExactly(m, 4);
    LogTellsTheOutcome(m, 5);
  }

  // ---------- a dodge on hurt legs ----------

  lemma LegBlow(w: Work)
    requires w.next.p1.stats == Stats(5, 9, 5, 6) && w.next.p2.hp == 100 && w.next.p2.effects == Effects(0, 0, 0)
    ensures var v := Land(w, P1, Strike, Legs, 0, true, 9999, 0).next;
            && v.p1 == w.next.p1.(lastHit := w.next.turn) && v.outcome == w.next.outcome && v.turn == w.next.turn
            && v.p2 == w.next.p2.(hp := 82, momentum := v.p2.momentum, effects := Effects(0, 0, 2))
            && v.distance == w.next.distance
  {
    assert DamageFinal(17, 0, true) == 18;
    NoStun(ZoneEffect(Damage(w, P1, Strike, Legs, 0, true), P1, Legs), P1, Legs);
    hide StunRoll, DamageFinal;
  }

  lemma TechnicianStrikes(w: Work)
    requires w.next.turn == 1 && w.next.p1.lastHit == 0 && w.next.p1.stamina == 92 && w.next.p1.momentum == 0
    requires w.next.p1.stats == Stats(5, 9, 5, 6) && w.next.p2.hp == 100 && w.next.p2.effects == Effects(0, 0, 0)
    ensures var v := Succeed(w, P1, Strike, Legs, 9999, 0).next;
            && v.p1 == w.next.p1.(lastHit := 1, momentum := 13) && v.outcome == w.next.outcome && v.turn == 1
            && v.p2 == w.next.p2.(hp := 82, momentum := v.p2.momentum, effects := Effects(0, 0, 2))
            && v.distance == w.next.distance
  {
    hide Land;
    assert InCombo(w, P1, Strike);
    LegBlow(Inspire(w, P1, Strike, true));
  }

  /** A match in which only B's legs are hurt when a turn begins. */
  predicate Limping(s: MatchState) {
    && s.distance == 1 && !s.outcome.finished
    && s.p1.id == ID_A && s.p1.stats == Stats(5, 9, 5, 6) && s.p1.effects == Effects(0, 0, 0)
    && s.p1.momentum == 13 && s.p1.stamina >= 92
    && s.p2.id == ID_B && s.p2.stats == Stats(5, 9, 5, 6) && s.p2.effects == Effects(0, 0, 2)
  }

  lemma StrikeAtLegs(s: MatchState)
    requires Pressing(s, 0) && s.p2.hp == 100 && s.p2.stats == Stats(5, 9, 5, 6)
    ensures var w := Opening(s, Aimed(Strike, Legs, NoAction), LUCKY);
            Limping(w.next) && w.next.p1.stamina == 92 && w.next.p2.stamina == 100 && w.next.p2.hp == 82
  {
    assert StaminaCost(Strike, 6) == 8;
    var pair, begun := Aimed(Strike, Legs, NoAction), Begin(s);
    var ctx := Contexts(s, P1, pair[1]);
    hide Attempt, StaminaCost, Succeed, Act;
    AttemptWorks(begun, P1, Strike, Legs, ctx);
    ActSucceeds(begun, pair[0], ctx, 9999, 0);
    TechnicianStrikes(Attempt(begun, P1, Strike, Legs, ctx, 0));
  }

  lemma LegsTurn(s: MatchState)
    requires Pressing(s, 0) && s.p2.hp == 100 && s.p2.stats == Stats(5, 9, 5, 6)
    ensures Limping(Play(s, Aimed(Strike, Legs, NoAction), LUCKY).next)
  {
    var pair := Aimed(Strike, Legs, NoAction);
    StrikeAtLegs(s);
    hide Opening, Act, RegenOf;
    var w := Opening(s, pair, LUCKY);
    OpeningDraws(s, pair, LUCKY);
    var k := |w.rolls|;
    IdleWaits(w, Strike, LUCKY[k], LUCKY[k + 1], LUCKY[k + 2]);
    TechnicianRests();
  }

  const SOUND_LEGS := Context(false, false, false, Dodge)

  lemma DodgeChances(actor: Fighter, defender: Fighter)
    requires actor.stats == defender.stats == Stats(5, 9, 5, 6) && actor.momentum == 13 && actor.stamina >= 84
    ensures Chance(Paid(actor, Strike), defender, Strike, SOUND_LEGS) == 5695
    ensures Odds.Intended(Paid(actor, Strike), defender, Strike, SOUND_LEGS, true) == 5895
  {
    assert StaminaCost(Strike, 6) == 8;
    hide StaminaCost;
  }

  /** The next strike is logged with the chance against sound legs. */
  lemma StrikeAtDodge(s: MatchState)
    requires Limping(s)
    ensures var log := Play(s, Pair(Strike, Dodge), LUCKY).events;
            && |log| > 1 && log[1].kind == ActionResolved && log[1].player == ID_A && log[1].action == Strike
            && log[1].detail != InsufficientStamina && log[1].value == 5695
  {
    var pair, begun := Pair(Strike, Dodge), Begin(s);
    var ctx := Contexts(s, P1, pair[1]);
    assert StaminaCost(Strike, 6) == 8;
    hide StaminaCost, BaseCost;
    DodgeChances(begun.next.p1, begun.next.p2);
    StrikeIsLogged(begun, pair[0], ctx);
    PlayContinues(s, pair, LUCKY);
    hide Act, Chance, Play;
    assert Opening(s, pair, LUCKY) == Act(begun, P1, pair[0], ctx, 0, 9999, 0);
  }

  lemma StrikeIsLogged(w: Work, input: TurnInput, ctx: Context)
    requires input.action == Strike && !ctx.stunned && !w.next.outcome.finished
    requires StaminaCost(Strike, w.next.p1.stats.endurance) <= w.next.p1.stamina
    ensures var v := Act(w, P1, input, ctx, 0, 9999, 0);
            && |v.events| > |w.events|
            && var e := v.events[|w.events|];
               && e.kind == ActionResolved && e.player == w.next.p1.id && e.action == Strike
               && e.detail != InsufficientStamina
               && e.value == Chance(Paid(w.next.p1, Strike), w.next.p2, Strike, ctx)
  {
    var zone := NormalizeZone(input.target);
    var tried := Attempt(w, P1, Strike, zone, ctx, 0);
    SucceedExtends(tried, P1, Strike, zone, 9999, 0);
    hide Succeed, Chance, StaminaCost, InReach;
  }

  /**
   A strikes at B's legs, and then at B, who dodges. B's legs count as hurt and A's do not, but the second strike is
   logged with a chance of 56.95%, against sound legs, and not with the 58.95% that hurt legs would give.
   */
  lemma DodgeOnHurtLegs() returns (m: Match)
    ensures IsFresh(m.start) && m.Played() && |m.turns| == 2 && m.script[1].inputs == Pair(Strike, Dodge)
    ensures !Hurting(m.runs[1].log, ID_A, Legs, 1) && Hurting(m.runs[1].log, ID_B, Legs, 1)
    ensures |m.turns[1].events| > 1 && m.turns[1].events[1].kind == ActionResolved
    ensures m.turns[1].events[1].player == ID_A && m.turns[1].events[1].action == Strike
    ensures m.turns[1].events[1].value == 5695
    ensures var s := m.runs[1].state;
            Odds.Intended(Paid(s.p1, Strike), s.p2, Strike, SOUND_LEGS, s.p2.effects.legs > 0) == 5895
  {
    m := NewPressing();
    hide Play, Match.Turned, Canonical, IsFresh, Hurting, Odds.Intended, Chance, Paid, Known, PenaltiesAreBlows;
    LegsTurn(m.Last().state);
    PairIsCanonical(m.Last().state, Strike, Legs, NoAction);
    m := OneMore(m, Aimed(Strike, Legs, NoAction), LUCKY);
    var before := m;
    RunIsKnown(before, 1);
    PenaltiesFollowBlows(before, 1);
    PenaltyWindow(before.start, before.Last(), 1, P1);
    PenaltyWindow(before.start, before.Last(), 1, P2);
    StrikeAtDodge(m.Last().state);
    DodgeChances(m.Last().state.p1, m.Last().state.p2);
    PairIsCanonical(m.Last().state, Strike, Head, Dodge);
    m := OneMore(m, Pair(Strike, Dodge), LUCKY);
    assert m.runs[..2][1] == before.Last();
  }
}
