/**
 The bounds of `Matches.EarliestFinish` are met: there are matches that end by submission on turn 2 and by KO on
 turn 4. The latter opens with a combo on its first turn.
 */
module Earliest {
  import opened Words
  import opened CombatTypes
  import opened Rules
  import opened Turn
  import opened Order
  import opened Invariant
  import opened Ledger
  import opened Shape
  import opened Combo
  import opened Runs

  const ID_A: Id := [1]
  const ID_B: Id := [2]

  function Opponents(archetype: Archetype): MatchState
    requires !archetype.OtherArchetype?
  {
    NewMatchState(NewFighter(ID_A, archetype).value, NewFighter(ID_B, archetype).value)
  }

  /** Every attempt succeeds, no hit stuns, and a submission that comes fifth is accepted. */
  const LUCKY: Tape := [0, 9999, 0, 9999, 0, 0]

  function Aimed(a: Action, zone: Zone, b: Action): (pair: seq<TurnInput>)
    ensures |pair| == 2
  {
    [TurnInput(ID_A, a, zone, 0), TurnInput(ID_B, b, Head, 0)]
  }

  function Pair(a: Action, b: Action): seq<TurnInput> { Aimed(a, Head, b) }

  lemma PairIsCanonical(s: MatchState, a: Action, zone: Zone, b: Action)
    requires s.p1.id == ID_A && s.p2.id == ID_B && !zone.OtherZone?
    ensures Canonical(s, Aimed(a, zone, b)) == Some(Aimed(a, zone, b))
  {
    var c := Aimed(a, zone, b);
    assert Before(ID_A, ID_B) && Lead(s) == P1;
    InputOfFacts(c, ID_A);
    InputOfFacts(c, ID_B);
  }

  // ---------- a knock-out on turn 4 ----------

  /** A Powerhouse that strikes an idle opponent every turn, `n` turns in. */
  predicate Pounding(s: MatchState, n: nat) {
    && s.turn == n && s.distance == 1 && !s.outcome.finished
    && s.p1.id == ID_A && s.p1.stats == Stats(9, 4, 4, 8) && s.p1.effects == Effects(0, 0, 0) && s.p1.state != Stunned
    && s.p1.stamina == 100 && s.p1.momentum == 13 * n && s.p1.lastHit == n
    && s.p2.id == ID_B && s.p2.effects == Effects(0, 0, 0) && s.p2.momentum == 0 && 0 <= s.p2.hp <= 100
  }

  lemma ChanceIsPositive(actor: Fighter, defender: Fighter, action: Action, ctx: Context)
    ensures Chance(actor, defender, action, ctx) > 0
  {
    hide RelevantAttribute, Defense, SuccessChance;
  }

  lemma AttemptWorks(w: Work, a: Slot, action: Action, zone: Zone, ctx: Context)
    requires action in {Strike, Grapple} && w.next.distance == 1
    ensures var v, f := Attempt(w, a, action, zone, ctx, 0), w.next.Get(a);
            v.next == w.next.Put(a, f.(stamina := f.stamina - StaminaCost(action, f.stats.endurance),
                                       lastAction := action, lastSuccess := true))
  {
    hide Chance, StaminaCost;
    ChanceIsPositive(Paid(w.next.Get(a), action), w.next.Get(a.Other()), action, ctx);
  }

  lemma NoStun(w: Work, a: Slot, zone: Zone)
    ensures StunRoll(w, a, zone, 9999) == w.Drawn(9999)
  {
  }

  lemma BlowLands(w: Work, n: nat)
    requires n <= 3 && w.next.p1.stats == Stats(9, 4, 4, 8) && w.next.p2.momentum == 0
    ensures var v := Land(w, P1, Strike, Head, 13 * n, true, 9999, 0);
            var p2 := w.next.p2.(hp := Clamp(w.next.p2.hp - DamageFinal(21, 13 * n, true), 0, 100));
            && v.next == w.next.(p1 := w.next.p1.(lastHit := w.next.turn), p2 := p2,
                                 outcome := if p2.hp == 0 then Outcome(true, w.next.p1.id, KO) else w.next.outcome)
  {
    DamageBounds(21, 13 * n, 50, true);
    hide DamageFinal;
    NoStun(ZoneEffect(Damage(w, P1, Strike, Head, 13 * n, true), P1, Head), P1, Head);
    hide StunRoll;
  }

  lemma StrikePrice()
    ensures StaminaCost(Strike, 8) == 7
  {
  }

  lemma SucceedStrikes(w: Work, n: nat)
    requires n <= 3 && w.next.turn == n + 1
    requires w.next.p1.stats == Stats(9, 4, 4, 8) && w.next.p1.momentum == 13 * n && w.next.p1.lastHit == n
    requires w.next.p1.stamina == 93 && w.next.p2.momentum == 0
    ensures var v := Succeed(w, P1, Strike, Head, 9999, 0);
            var p2 := w.next.p2.(hp := Clamp(w.next.p2.hp - DamageFinal(21, 13 * n, true), 0, 100));
            && v.next == w.next.(p1 := w.next.p1.(momentum := Clamp(13 * (n + 1), 0, 50), lastHit := n + 1), p2 := p2,
                                 outcome := if p2.hp == 0 then Outcome(true, w.next.p1.id, KO) else w.next.outcome)
  {
    hide Land, DamageFinal;
    assert InCombo(w, P1, Strike);
    BlowLands(Inspire(w, P1, Strike, true), n);
  }

  lemma StrikeLands(w: Work, n: nat, opponent: Action)
    requires n <= 3 && Pounding(w.next.(turn := n), n) && w.next.turn == n + 1
    ensures var v := Act(w, P1, TurnInput(ID_A, Strike, Head, 0), Context(false, false, false, opponent), 0, 9999, 0);
            && v.next.p1 == w.next.p1.(stamina := 93, momentum := Clamp(13 * (n + 1), 0, 50), lastHit := n + 1,
                                       lastAction := Strike, lastSuccess := true)
            && v.next.p2 == w.next.p2.(hp := Clamp(w.next.p2.hp - DamageFinal(21, 13 * n, true), 0, 100))
            && v.next.outcome == (if v.next.p2.hp == 0 then Outcome(true, ID_A, KO) else w.next.outcome)
            && v.next.turn == n + 1 && v.next.distance == 1
  {
    hide Succeed, Attempt, DamageFinal, BaseCost;
    var ctx := Context(false, false, false, opponent);
    AttemptWorks(w, P1, Strike, Head, ctx);
    StrikePrice();
    SucceedStrikes(Attempt(w, P1, Strike, Head, ctx, 0), n);
  }

  lemma IdleWaits(w: Work, opponent: Action, r0: nat, r1: nat, r2: nat)
    requires w.next.p2.stamina >= 0
    ensures var v := Act(w, P2, TurnInput(ID_B, NoAction, Head, 0), Context(false, false, false, opponent), r0, r1, r2);
            if w.next.outcome.finished then v == w
            else v.next == w.next.(p2 := w.next.p2.(lastAction := NoAction, lastSuccess := false))
  {
  }

  /** One turn of pounding. */
  lemma PoundOnce(s: MatchState, n: nat)
    requires n <= 3 && Pounding(s, n) && 0 <= s.p2.stamina
    ensures var v := Play(s, Pair(Strike, NoAction), LUCKY).next;
            && v.p2.hp == Clamp(s.p2.hp - DamageFinal(21, 13 * n, true), 0, 100)
            && (v.p2.hp == 0 ==> v.outcome == Outcome(true, ID_A, KO))
            && (v.p2.hp > 0 && n < 3 ==> Pounding(v, n + 1) && 0 <= v.p2.stamina)
  {
    hide Act, DamageFinal, RegenOf;
    var pair := Pair(Strike, NoAction);
    StrikeLands(Begin(s), n, NoAction);
    var w := Opening(s, pair, LUCKY);
    OpeningDraws(s, pair, LUCKY);
    var k := |w.rolls|;
    IdleWaits(w, Strike, LUCKY[k], LUCKY[k + 1], LUCKY[k + 2]);
    PowerhouseRests();
  }

  lemma PowerhouseRests()
    ensures forall f: Fighter, c: Context :: f.stats == Stats(9, 4, 4, 8) && !c.torso ==> RegenOf(f, c) == 11
    ensures forall f: Fighter, c: Context :: RegenOf(f, c) >= 0
  {
  }

  lemma FirstSuccessIsACombo(w: Work)
    requires w.next.turn == 1 && w.next.p1.id == ID_A && w.next.p1.lastHit == 0 && w.next.p1.stamina == 93
    ensures var v := Succeed(w, P1, Strike, Head, 9999, 0);
            |v.events| > |w.events| && Marks(v.events[|w.events|], ID_A, ComboActive)
  {
    SucceedExtends(w, P1, Strike, Head, 9999, 0);
    hide Succeed;
  }

  lemma FirstAct(w: Work, input: TurnInput, ctx: Context) returns (at: nat)
    requires input == TurnInput(ID_A, Strike, Head, 0) && !ctx.stunned && !w.next.outcome.finished
    requires w.next.distance == 1 && w.next.turn == 1 && w.next.p1.id == ID_A && w.next.p1.lastHit == 0
    requires w.next.p1.stamina == 100 && w.next.p1.stats == Stats(9, 4, 4, 8)
    ensures var v := Act(w, P1, input, ctx, 0, 9999, 0);
            at < |v.events| && Marks(v.events[at], ID_A, ComboActive)
  {
    StrikePrice();
    hide Succeed, Attempt, StaminaCost;
    AttemptWorks(w, P1, Strike, Head, ctx);
    var tried := Attempt(w, P1, Strike, Head, ctx, 0);
    FirstSuccessIsACombo(tried);
    at := |tried.events|;
  }

  /** A first strike opens with a combo, although nothing came before it. */
  lemma FirstStrikeIsACombo(s: MatchState)
    requires Pounding(s, 0)
    ensures Announced(Play(s, Pair(Strike, NoAction), LUCKY).events, ID_A)
  {
    var pair := Pair(Strike, NoAction);
    hide Act, Play, Marks;
    var at := FirstAct(Begin(s), pair[0], Contexts(s, P1, pair[1]));
    PlayContinues(s, pair, LUCKY);
    assert Opening(s, pair, LUCKY) == Act(Begin(s), P1, pair[0], Contexts(s, P1, pair[1]), 0, 9999, 0);
    hide Opening, Begin;
    assert Marks(Play(s, pair, LUCKY).events[at], ID_A, ComboActive);
  }

  lemma PlayContinues(s: MatchState, pair: seq<TurnInput>, tape: Tape)
    requires |pair| == 2
    ensures Opening(s, pair, tape).events <= Play(s, pair, tape).events
  {
    hide Act, Close;
    OpeningDraws(s, pair, tape);
    var a, w := s.SlotOf(pair[0].player), Opening(s, pair, tape);
    var k := |w.rolls|;
    var c0, c1 := Contexts(s, a, pair[1]), Contexts(s, a.Other(), pair[0]);
    ActExtends(w, a.Other(), pair[1], c1, tape[k], tape[k + 1], tape[k + 2]);
    CloseExtends(Exchange(s, pair, tape), if a == P1 then c0 else c1, if a == P1 then c1 else c0);
  }

  /** Playing one more turn with these inputs and rolls. */
  lemma OneMore(m: Match, pair: seq<TurnInput>, tape: Tape) returns (v: Match)
    requires m.Played() && !m.Last().state.outcome.finished
    requires |pair| == 2 && Canonical(m.Last().state, pair) == Some(pair)
    ensures v.Played() && v.start == m.start && |v.turns| == |m.turns| + 1
    ensures v.turns == m.turns + [Play(m.Last().state, pair, tape)]
    ensures v.runs[..|m.runs|] == m.runs && v.script == m.script + [TurnScript(pair, tape, ZERO)]
    ensures v.Last().state == Play(m.Last().state, pair, tape).next.(rng := ZERO)
  {
    hide Play, Canonical;
    var turn := TurnScript(pair, tape, ZERO);
    v := m.And(turn);
    MatchesGrow(m, turn);
  }

  lemma Pounded(m: Match, n: nat) returns (v: Match)
    requires m.Played() && |m.turns| == n && n <= 3 && Pounding(m.Last().state, n)
    ensures v.Played() && v.start == m.start && |v.turns| == n + 1 && v.turns[..n] == m.turns
    ensures v.turns[n] == Play(m.Last().state, Pair(Strike, NoAction), LUCKY)
    ensures v.Last().state == v.turns[n].next.(rng := ZERO)
  {
    hide Play, Canonical;
    PairIsCanonical(m.Last().state, Strike, Head, NoAction);
    v := OneMore(m, Pair(Strike, NoAction), LUCKY);
  }

  lemma FourBlows()
    ensures DamageFinal(21, 0, true) == 23 && DamageFinal(21, 13, true) == 25
    ensures DamageFinal(21, 26, true) == 28 && DamageFinal(21, 39, true) == 31
  {
  }

  lemma PoundOn(m: Match, n: nat) returns (v: Match)
    requires n < 3 && m.Played() && |m.turns| == n && Pounding(m.Last().state, n)
    requires 0 <= m.Last().state.p2.stamina && m.Last().state.p2.hp > DamageFinal(21, 13 * n, true)
    ensures v.Played() && v.start == m.start && |v.turns| == n + 1 && Pounding(v.Last().state, n + 1)
    ensures 0 <= v.Last().state.p2.stamina && v.turns[..n] == m.turns
    ensures v.turns[n] == Play(m.Last().state, Pair(Strike, NoAction), LUCKY)
    ensures v.Last().state.p2.hp == m.Last().state.p2.hp - DamageFinal(21, 13 * n, true)
  {
    hide Play, DamageFinal;
    v := Pounded(m, n);
    PoundOnce(m.Last().state, n);
    DamageBounds(21, 13 * n, 50, true);
  }

  lemma Unplayed(archetype: Archetype) returns (m: Match)
    requires archetype == Powerhouse || archetype == Technician
    ensures m.Played() && |m.turns| == 0 && IsFresh(m.start)
    ensures m.Last().state.p2.hp == 100 && m.Last().state.p2.stamina == 100
    ensures archetype == Powerhouse ==> Pounding(m.Last().state, 0)
    ensures archetype == Technician ==> Wrestling(m.Last().state, 0, Neutral)
  {
    m := NewMatch(Opponents(archetype));
    hide Match.Turned;
  }

  /** Four strikes in a row by a Powerhouse knock an idle opponent out, and the first is a combo already. */
  lemma KnockOutOnTurnFour() returns (m: Match)
    ensures IsFresh(m.start) && m.Played() && |m.turns| == 4
    ensures m.Last().state.outcome == Outcome(true, ID_A, KO)
    ensures Announced(m.turns[0].events, ID_A)
  {
    m := Unplayed(Powerhouse);
    FourBlows();
    FirstStrikeIsACombo(m.Last().state);
    hide *;
    m := PoundOn(m, 0);
    var first := m.turns[0];
    m := PoundOn(m, 1);
    assert m.turns[..1][0] == first;
    m := PoundOn(m, 2);
    assert m.turns[..2][0] == first;
    PoundOnce(m.Last().state, 3);
    m := Pounded(m, 3);
    assert m.turns[..3][0] == first;
  }

  // ---------- a submission on turn 2 ----------

  lemma GrapplePrice()
    ensures StaminaCost(Grapple, 6) == 11
  {
  }

  lemma GrappleBlow(w: Work, a: Slot, momentum: int, combo: bool)
    requires w.next.Get(a).stats == Stats(5, 9, 5, 6) && 0 <= momentum <= 50 && 35 <= w.next.Get(a.Other()).hp <= 100
    ensures var v := ZoneEffect(Damage(w, a, Grapple, Head, momentum, combo), a, Head);
            && v.rolls == w.rolls
            && var d := v.next.Get(a.Other());
               && w.next.Get(a.Other()).hp - 34 <= d.hp < w.next.Get(a.Other()).hp
               && d.momentum == Clamp(w.next.Get(a.Other()).momentum - 6, 0, 50)
               && v.next == w.next.Put(a.Other(), w.next.Get(a.Other()).(hp := d.hp, momentum := d.momentum))
                                  .Put(a, w.next.Get(a).(lastHit := w.next.turn))
  {
    DamageBounds(19, momentum, 50, combo);
    hide DamageFinal;
  }

  lemma SubmissionIsLucky(attacker: Fighter, defender: Fighter)
    ensures SubmissionChance(attacker, defender) > 0
  {
  }

  /** The rest of a grapple, after the blow: one rung up, and on the last rung a submission. */
  lemma GrappleClimbs(w: Work, a: Slot)
    requires w.next.combat in {Neutral, Clinch, Ground, Dominant} && !w.next.outcome.finished
    requires w.next.p1.state != Stunned && w.next.p2.state != Stunned && w.next.Get(a.Other()).hp > 0
    ensures var v, to := KnockOut(Submit(Climb(StunRoll(w, a, Head, 9999), a), a, 0), a), NextRung(w.next.combat);
            && (to != SubmissionAttempt ==> v.rolls == w.rolls + [9999])
            && v.next == w.next.(combat := to, p1 := w.next.p1.(state := to), p2 := w.next.p2.(state := to),
                                 outcome := if to == SubmissionAttempt then Outcome(true, w.next.Get(a).id, Submission)
                                            else w.next.outcome)
  {
    NoStun(w, a, Head);
    hide StunRoll;
    var climbed := Climb(w.Drawn(9999), a);
    SubmissionIsLucky(climbed.next.Get(a), climbed.next.Get(a.Other()));
    hide SubmissionChance;
  }

  /** What a grapple that gets through makes of a state. */
  predicate Grappled(m: MatchState, n: MatchState, a: Slot) {
    var f, d, g, e, to := m.Get(a), m.Get(a.Other()), n.Get(a), n.Get(a.Other()), NextRung(m.combat);
    && n.combat == to && n.distance == m.distance && n.turn == m.turn
    && n.outcome == (if to == SubmissionAttempt then Outcome(true, f.id, Submission) else m.outcome)
    && g == f.(state := to, momentum := g.momentum, lastHit := m.turn)
    && e == d.(state := to, hp := e.hp, momentum := e.momentum) && 0 <= e.momentum <= 50
    && d.hp - 34 <= e.hp <= d.hp
  }

  predicate CanGrapple(m: MatchState, a: Slot) {
    && m.distance == 1 && !m.outcome.finished && m.combat in {Neutral, Clinch, Ground, Dominant}
    && m.p1.state != Stunned && m.p2.state != Stunned
    && m.Get(a).stats == Stats(5, 9, 5, 6) && 0 <= m.Get(a).momentum <= 50
    && 35 <= m.Get(a.Other()).hp <= 100
  }

  lemma LandGrapples(w: Work, a: Slot, before: int, combo: bool)
    requires CanGrapple(w.next, a) && 0 <= before <= 50
    ensures var v := Land(w, a, Grapple, Head, before, combo, 9999, 0);
            && (NextRung(w.next.combat) != SubmissionAttempt ==> v.rolls == w.rolls + [9999])
            && Grappled(w.next, v.next, a) && v.next.Get(a).momentum == w.next.Get(a).momentum
  {
    hide StunRoll, Climb, Submit, KnockOut, Damage, ZoneEffect, NextRung;
    GrappleBlow(w, a, before, combo);
    GrappleClimbs(ZoneEffect(Damage(w, a, Grapple, Head, before, combo), a, Head), a);
  }

  lemma SucceedGrapples(w: Work, a: Slot)
    requires CanGrapple(w.next, a)
    ensures var v := Succeed(w, a, Grapple, Head, 9999, 0);
            && (NextRung(w.next.combat) != SubmissionAttempt ==> v.rolls == w.rolls + [9999])
            && Grappled(w.next, v.next, a) && 0 <= v.next.Get(a).momentum <= 50
  {
    hide Land, NextRung;
    var combo := InCombo(w, a, Grapple);
    LandGrapples(Inspire(w, a, Grapple, combo), a, w.next.Get(a).momentum, combo);
  }

  lemma GrappleLands(w: Work, a: Slot, opponent: Action)
    requires CanGrapple(w.next, a) && w.next.Get(a).stamina >= 11
    ensures var f, ctx := w.next.Get(a), Context(false, false, false, opponent);
            var v := Act(w, a, TurnInput(f.id, Grapple, Head, 0), ctx, 0, 9999, 0);
            && (NextRung(w.next.combat) != SubmissionAttempt ==> v.rolls == w.rolls + [0] + [9999])
            && Grappled(w.next.Put(a, f.(stamina := f.stamina - 11, lastAction := Grapple, lastSuccess := true)),
                        v.next, a)
            && 0 <= v.next.Get(a).momentum <= 50
  {
    hide Succeed, Attempt, BaseCost, NextRung, Grappled;
    var ctx := Context(false, false, false, opponent);
    AttemptWorks(w, a, Grapple, Head, ctx);
    GrapplePrice();
    SucceedGrapples(Attempt(w, a, Grapple, Head, ctx, 0), a);
  }

  /** Two Technicians that grapple every turn; `from` is the rung they start the turn on. */
  predicate Wrestling(m: MatchState, n: nat, from: State) {
    && m.turn == n && m.combat == from && m.distance == 1 && !m.outcome.finished
    && m.p1.id == ID_A && m.p2.id == ID_B && Able(m.p1, n) && Able(m.p2, n)
  }

  predicate Able(f: Fighter, n: nat) {
    && f.stats == Stats(5, 9, 5, 6) && f.effects == Effects(0, 0, 0) && f.state != Stunned
    && f.stamina >= 100 - 11 * n && 100 - 34 * n <= f.hp <= 100 && 0 <= f.momentum <= 50
  }

  /** One turn of wrestling: two rungs. */
  lemma WrestleOnce(m: MatchState, n: nat, from: State)
    requires n <= 1 && Wrestling(m, n, from) && from == (if n == 0 then Neutral else Ground)
    ensures var v := Play(m, Pair(Grapple, Grapple), LUCKY).next;
            if n == 0 then Wrestling(v, 1, Ground) else v.outcome == Outcome(true, ID_B, Submission)
  {
    hide Act, RegenOf;
    var pair := Pair(Grapple, Grapple);
    var w := Begin(m);
    GrappleLands(w, P1, Grapple);
    var v := Opening(m, pair, LUCKY);
    assert v.rolls == [0, 9999];
    GrappleLands(v, P2, Grapple);
    PowerhouseRests();
  }

  lemma Wrestled(m: Match, n: nat, from: State) returns (v: Match)
    requires m.Played() && |m.turns| == n && Wrestling(m.Last().state, n, from)
    ensures v.Played() && v.start == m.start && |v.turns| == n + 1
    ensures v.Last().state == Play(m.Last().state, Pair(Grapple, Grapple), LUCKY).next.(rng := ZERO)
  {
    hide Play, Canonical;
    PairIsCanonical(m.Last().state, Grapple, Head, Grapple);
    v := OneMore(m, Pair(Grapple, Grapple), LUCKY);
  }

  /** Four grapples in two turns end a match between Technicians. */
  lemma SubmissionOnTurnTwo() returns (m: Match)
    ensures IsFresh(m.start) && m.Played() && |m.turns| == 2
    ensures m.Last().state.outcome == Outcome(true, ID_B, Submission)
  {
    m := Unplayed(Technician);
    hide *;
    WrestleOnce(m.Last().state, 0, Neutral);
    m := Wrestled(m, 0, Neutral);
    WrestleOnce(m.Last().state, 1, Ground);
    m := Wrestled(m, 1, Ground);
  }
}
