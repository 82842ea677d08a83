/** What a state remembers of each fighter's last action, the one part of it that the log of a turn does not tell. */
module LastMoves {
  import opened CombatTypes
  import opened Rules
  import opened Turn
  import opened Order
  import opened Shape
  import opened Combo

  /** Between these states neither fighter's memory changes. */
  predicate Remember(m: MatchState, n: MatchState) {
    && n.p1.lastAction == m.p1.lastAction && n.p1.lastSuccess == m.p1.lastSuccess
    && n.p2.lastAction == m.p2.lastAction && n.p2.lastSuccess == m.p2.lastSuccess
  }

  lemma BlowRemembers(w: Work, a: Slot, action: Action, zone: Zone, before: int, combo: bool, roll: nat)
    ensures Remember(w.next, Inspire(w, a, action, combo).next)
    ensures Remember(w.next, Damage(w, a, action, zone, before, combo).next)
    ensures Remember(w.next, ZoneEffect(w, a, zone).next)
    ensures Remember(w.next, StunRoll(w, a, zone, roll).next)
  {
    hide DamageFinal, BaseDamage, StunChance;
  }

  lemma FinishRemembers(w: Work, a: Slot, roll: nat)
    ensures Remember(w.next, Climb(w, a).next) && Remember(w.next, Submit(w, a, roll).next)
    ensures Remember(w.next, KnockOut(w, a).next) && Remember(w.next, Escape(w, a).next)
  {
    hide SubmissionChance;
  }

  lemma LandRemembers(w: Work, a: Slot, action: Action, zone: Zone, before: int, combo: bool, r1: nat, r2: nat)
    ensures Remember(w.next, Land(w, a, action, zone, before, combo, r1, r2).next)
  {
    hide Damage, ZoneEffect, StunRoll, Climb, Submit, KnockOut;
    BlowRemembers(w, a, action, zone, before, combo, r1);
    var hurt := Damage(w, a, action, zone, before, combo);
    BlowRemembers(hurt, a, action, zone, before, combo, r1);
    var struck := ZoneEffect(hurt, a, zone);
    BlowRemembers(struck, a, action, zone, before, combo, r1);
    var stunned := StunRoll(struck, a, zone, r1);
    FinishRemembers(stunned, a, r2);
    FinishRemembers(Climb(stunned, a), a, r2);
    FinishRemembers(Submit(Climb(stunned, a), a, r2), a, r2);
  }

  lemma SucceedRemembers(w: Work, a: Slot, action: Action, zone: Zone, r1: nat, r2: nat)
    ensures Remember(w.next, Succeed(w, a, action, zone, r1, r2).next)
  {
    hide Inspire, Land, Escape, InCombo;
    var combo := InCombo(w, a, action);
    var inspired := Inspire(w, a, action, combo);
    BlowRemembers(w, a, action, zone, 0, combo, r1);
    LandRemembers(inspired, a, action, zone, w.next.Get(a).momentum, combo, r1, r2);
    FinishRemembers(inspired, a, r2);
  }

  /** The fighter's memory is of this action, and whether it succeeded is what the log says. */
  predicate Recalls(f: Fighter, log: seq<Event>, action: Action) {
    f.lastAction == action && (f.lastSuccess <==> Won(log, f.id, action))
  }

  predicate SameMemory(f: Fighter, g: Fighter) { g.lastAction == f.lastAction && g.lastSuccess == f.lastSuccess }

  lemma AttemptRecalls(w: Work, a: Slot, action: Action, zone: Zone, ctx: Context, roll: nat)
    ensures var v := Attempt(w, a, action, zone, ctx, roll);
            v.next.Get(a).lastAction == action && v.next.Get(a.Other()) == w.next.Get(a.Other())
  {
    hide Chance, StaminaCost, InReach;
  }

  lemma QuietRecalls(w: Work, a: Slot, action: Action, zone: Zone)
    ensures var f := SkipStunned(w, a).next.Get(a); f.lastAction == NoAction && !f.lastSuccess
    ensures var f := Starve(w, a, action, zone).next.Get(a); f.lastAction == action && !f.lastSuccess
    ensures var f := Idle(w, a).next.Get(a); f.lastAction == NoAction && !f.lastSuccess
    ensures SkipStunned(w, a).next.Get(a.Other()) == w.next.Get(a.Other()) == Idle(w, a).next.Get(a.Other())
    ensures Starve(w, a, action, zone).next.Get(a.Other()) == w.next.Get(a.Other())
  {
  }

  lemma ActRecalls(w: Work, a: Slot, input: TurnInput, ctx: Context, r0: nat, r1: nat, r2: nat)
    requires !Won(w.events, w.next.Get(a).id, NoAction)
    requires !Won(w.events, w.next.Get(a).id, NormalizeAction(input.action))
    ensures var v, f := Act(w, a, input, ctx, r0, r1, r2), w.next.Get(a);
            && SameMemory(w.next.Get(a.Other()), v.next.Get(a.Other()))
            && (if w.next.outcome.finished then SameMemory(f, v.next.Get(a))
                else Recalls(v.next.Get(a), v.events, if ctx.stunned then NoAction else NormalizeAction(input.action)))
  {
    hide Attempt, Succeed, SkipStunned, Starve, Idle, StaminaCost, Won, InCombo, Announced;
    var action, zone, id := NormalizeAction(input.action), NormalizeZone(input.target), w.next.Get(a).id;
    var tried := Attempt(w, a, action, zone, ctx, r0);
    ActSpares(w, a, input, ctx, r0, r1, r2);
    QuietRecalls(w, a, action, zone);
    QuietCombo(w, a, action, zone, id, NoAction);
    QuietCombo(w, a, action, zone, id, action);
    AttemptRecalls(w, a, action, zone, ctx, r0);
    AttemptCombo(w, a, action, zone, ctx, r0);
    SnocKeeps(w.events, tried.events[|w.events|], id, action);
    SucceedCombo(tried, a, action, zone, r1, r2, id, action);
    SucceedRemembers(tried, a, action, zone, r1, r2);
  }

  lemma OthersWin(w: Work, a: Slot, input: TurnInput, ctx: Context, r0: nat, r1: nat, r2: nat, id: Id, other: Action)
    requires ProperIds(w.next) && id != w.next.Get(a).id
    ensures Won(Act(w, a, input, ctx, r0, r1, r2).events, id, other) <==> Won(w.events, id, other)
  {
    hide *;
    ActCombo(w, a, input, ctx, r0, r1, r2, id, other);
  }

  lemma FrameRemembers(s: MatchState, w: Work, c: Context, d: Context)
    ensures Remember(s, Begin(s).next) && Begin(s).next.outcome == s.outcome
    ensures Remember(w.next, Close(w, c, d).next)
  {
    hide RegenOf;
  }

  /** After a turn each fighter's last action is the one it was held to, none if it was stunned, and it counts as a
      success exactly when the log says so; only a fighter whose opponent ended the match first keeps the memory it
      had. */
  lemma TurnIsRemembered(s: MatchState, pair: seq<TurnInput>, tape: Tape, f: Slot)
    requires ProperIds(s) && |pair| == 2
    ensures var v := Play(s, pair, tape);
            if Footing(s, pair, tape, f).next.outcome.finished then SameMemory(s.Get(f), v.next.Get(f))
            else Recalls(v.next.Get(f), v.events, if s.Get(f).effects.stun > 0 then NoAction
                                                  else NormalizeAction(InputFor(s, pair, f).action))
  {
    hide Act, Close, Won, Announced;
    var a, begun := s.SlotOf(pair[0].player), Begin(s);
    var one, two := s.Get(a).id, s.Get(a.Other()).id;
    var c0, c1 := Contexts(s, a, pair[1]), Contexts(s, a.Other(), pair[0]);
    forall id, action ensures !Won(begun.events, id, action) {
      BeginQuiet(s, id, action);
    }
    ActRecalls(begun, a, pair[0], c0, tape[0], tape[1], tape[2]);
    ActSpares(begun, a, pair[0], c0, tape[0], tape[1], tape[2]);
    var w := Opening(s, pair, tape);
    OpeningDraws(s, pair, tape);
    var k := |w.rolls|;
    forall action ensures !Won(w.events, two, action) {
      OthersWin(begun, a, pair[0], c0, tape[0], tape[1], tape[2], two, action);
    }
    ActRecalls(w, a.Other(), pair[1], c1, tape[k], tape[k + 1], tape[k + 2]);
    ActSpares(w, a.Other(), pair[1], c1, tape[k], tape[k + 1], tape[k + 2]);
    var v, acted := Exchange(s, pair, tape), w.next.Get(a).lastAction;
    OthersWin(w, a.Other(), pair[1], c1, tape[k], tape[k + 1], tape[k + 2], one, acted);
    var c, d := if a == P1 then c0 else c1, if a == P1 then c1 else c0;
    CloseCalm(v, c, d);
    CalmKeeps(v, Play(s, pair, tape), s.Get(f).id, v.next.Get(f).lastAction);
    FrameRemembers(s, v, c, d);
    CloseKeeps(v, c, d);
  }
}
