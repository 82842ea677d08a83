/**
 `ResolveTurn` of internal/combat/resolver.go in its own form: a copy of the state whose fighters are updated in place,
 a growing event log, a running hash of the rolls and a generator that every roll advances. Each step is proved to do
 what module Turn says, so everything proved there holds of it.
 */
module Resolver {
  import opened Words
  import opened CombatTypes
  import opened Rules
  import opened Turn
  import opened Order
  import opened Rng
  import opened Checksum
  import opened Runs

  const SIDES := 10000

  datatype TurnResult = TurnResult(events: seq<Event>, next: MatchState, stateHash: nat, rollHash: nat)

  datatype ResolveError = AlreadyFinished | BadInputs(error: InputError)

  /** The six rolls a generator in this state would yield next. */
  function TapeOf(s: Word): (t: Tape)
    ensures forall i :: 0 <= i < 6 ==> t[i] == Roll(s, i, SIDES)
  {
    seq(6, i requires 0 <= i < 6 => Roll(s, i, SIDES))
  }

  /** The result the caller gets for a finished piece of work: snapshot taken, both checksums computed. */
  function Concluded(w: Work, snapshot: Word): TurnResult {
    var next := w.next.(rng := snapshot);
    TurnResult(w.events, next, StateHash(next), RollHash(w.rolls))
  }

  /** What resolving does to a state and a generator: the result and the generator's new state. */
  function ResolveSpec(s: MatchState, inputs: seq<TurnInput>, gen: Word): Option<TurnResult> {
    match Resolve(s, inputs, TapeOf(gen))
    case None => None
    case Some(w) => Some(Concluded(w, Iterate(gen, |w.rolls|)))
  }

  /** Why a turn is refused, if it is: a finished match comes before any fault of the inputs. */
  function Refusal(s: MatchState, inputs: seq<TurnInput>): Option<ResolveError> {
    if s.outcome.finished then Some(AlreadyFinished)
    else match Fault(s, inputs)
      case None => None
      case Some(e) => Some(BadInputs(e))
  }

  class Arena {
    var next: MatchState
    var events: seq<Event>
    ghost var rolls: seq<nat>
    const rollHash: Hash64

    ghost predicate Valid()
      reads this, rollHash
    {
      rollHash.sum == RollHash(rolls)
    }

    ghost function View(): Work
      reads this
    {
      Work(next, events, rolls)
    }

    constructor (s: MatchState)
      ensures Valid() && fresh(rollHash)
      ensures View() == Work(s.(turn := s.turn + 1), [], [])
    {
      next := s.(turn := s.turn + 1);
      events := [];
      rolls := [];
      rollHash := new Hash64();
      new;
      RollHashSnoc([], 0);
    }

    method RollDie(rng: DeterministicRNG) returns (roll: nat)
      requires Valid()
      modifies this`rolls, rollHash, rng
      ensures Valid() && View() == old(View()).Drawn(roll)
      ensures roll == Roll(old(rng.state), 0, SIDES) && rng.state == Advance(old(rng.state))
    {
      hide Roll, Advance, RollHash, Fnv, Encode;
      roll := rng.NextInt(SIDES);
      rollHash.WriteInt(roll);
      RollHashSnoc(rolls, roll);
      rolls := rolls + [roll];
    }

    method Prepare(s: Slot, opponent: Action) returns (ctx: Context)
      modifies this`next
      ensures next == old(next).Put(s, Prepared(old(next).Get(s)))
      ensures ctx == ContextOf(old(next).Get(s), opponent)
    {
      var f := next.Get(s);
      ctx := Context(f.effects.stun > 0, f.effects.torso > 0, f.effects.legs > 0, opponent);
      if ctx.stunned {
        f := f.(effects := f.effects.(stun := f.effects.stun - 1));
      }
      if ctx.torso {
        f := f.(effects := f.effects.(torso := f.effects.torso - 1));
      }
      if ctx.legs {
        f := f.(effects := f.effects.(legs := f.effects.legs - 1));
      }
      next := next.Put(s, f);
    }

    method ApplyZoneEffects(a: Slot, zone: Zone)
      modifies this`next, this`events
      ensures View() == ZoneEffect(old(View()), a, zone)
    {
      var d := a.Other();
      var f := next.Get(d);
      match zone {
        case Torso =>
          next := next.Put(d, f.(effects := f.effects.(torso := Max(f.effects.torso, 2))));
          events := events + [Event(next.turn, StatusApplied, f.id, [], NoAction, Torso, 0, true, TorsoPenalty)];
        case Legs =>
          next := next.Put(d, f.(effects := f.effects.(legs := Max(f.effects.legs, 2))));
          events := events + [Event(next.turn, StatusApplied, f.id, [], NoAction, Legs, 0, true, LegsPenalty)];
        case _ =>
      }
    }

    method ApplyDamage(a: Slot, action: Action, zone: Zone, momentumBefore: int, combo: bool)
      modifies this`next, this`events
      ensures View() == Damage(old(View()), a, action, zone, momentumBefore, combo)
    {
      hide DamageFinal, BaseDamage;
      var actor, defender := next.Get(a), next.Get(a.Other());
      var damage := DamageFinal(BaseDamage(action, actor.stats), momentumBefore, combo);
      if damage > 0 {
        next := next.Put(a.Other(), defender.(hp := Clamp(defender.hp - damage, 0, HP_MAX),
                                              momentum := Clamp(defender.momentum - 6, 0, 50)));
        next := next.Put(a, actor.(lastHit := next.turn));
        events := events + [Event(next.turn, DamageApplied, actor.id, defender.id, action, zone, damage, true,
                                  DamageDealt)];
      }
    }

    method RollStun(a: Slot, zone: Zone, rng: DeterministicRNG)
      requires Valid()
      modifies this, rollHash, rng
      ensures Valid() && View() == StunRoll(old(View()), a, zone, Roll(old(rng.state), 0, SIDES))
      ensures rng.state == Advance(old(rng.state))
    {
      hide StunChance, RollHash, Roll, Advance;
      var actor, defender := next.Get(a), next.Get(a.Other());
      var chance := StunChance(zone, defender.stamina, actor.momentum - defender.momentum);
      var roll := RollDie(rng);
      if roll < chance {
        next := next.Put(a.Other(), defender.(effects := defender.effects.(stun := Max(defender.effects.stun, 1)),
                                              state := Stunned));
        events := events + [Event(next.turn, StatusApplied, defender.id, actor.id, NoAction, zone, chance, true,
                                  StunLanded)];
      }
    }

    method ApplyGrappleTransition(a: Slot, rng: DeterministicRNG)
      requires Valid()
      modifies this, rollHash, rng
      ensures Valid() && View() == Submit(Climb(old(View()), a), a, Roll(old(rng.state), 0, SIDES))
      ensures rng.state == Iterate(old(rng.state), |rolls| - |old(rolls)|)
    {
      hide Climb, Submit, RollHash, Roll, Advance;
      ClimbLadder(a);
      RollSubmission(a, rng);
      assert Iterate(old(rng.state), 0) == old(rng.state) && Iterate(old(rng.state), 1) == Advance(old(rng.state));
    }

    /** The first half of `applyGrappleTransition`. */
    method ClimbLadder(a: Slot)
      modifies this`next, this`events
      ensures View() == Climb(old(View()), a)
    {
      var prev := next.combat;
      match next.combat {
        case Neutral => next := next.(combat := Clinch);
        case Clinch => next := next.(combat := Ground);
        case Ground => next := next.(combat := Dominant);
        case Dominant => next := next.(combat := SubmissionAttempt);
        case _ =>
      }
      if next.combat != prev {
        var actor, defender := next.Get(a), next.Get(a.Other());
        if actor.state != Stunned {
          next := next.Put(a, actor.(state := next.combat));
        }
        if defender.state != Stunned {
          next := next.Put(a.Other(), defender.(state := next.combat));
        }
        events := events + [Event(next.turn, StateChanged, actor.id, defender.id, NoAction, Head, 0, true,
                                  Transition(prev, next.combat))];
      }
    }

    /** The second half of `applyGrappleTransition`. */
    method RollSubmission(a: Slot, rng: DeterministicRNG)
      requires Valid()
      modifies this, rollHash, rng
      ensures Valid() && View() == Submit(old(View()), a, Roll(old(rng.state), 0, SIDES))
      ensures || (rolls == old(rolls) && rng.state == old(rng.state))
              || (|rolls| == |old(rolls)| + 1 && rng.state == Advance(old(rng.state)))
    {
      hide SubmissionChance, RollHash, Roll, Advance;
      if next.combat == SubmissionAttempt && !next.outcome.finished {
        var actor, defender := next.Get(a), next.Get(a.Other());
        var chance := SubmissionChance(actor, defender);
        var roll := RollDie(rng);
        if roll < chance {
          next := next.(outcome := Outcome(true, actor.id, Submission));
          events := events + [Event(next.turn, MatchFinished, actor.id, defender.id, NoAction, Head, chance, true,
                                    BySubmission)];
        }
      }
    }

    method CheckKnockOut(a: Slot)
      modifies this`next, this`events
      ensures View() == KnockOut(old(View()), a)
    {
      var actor, defender := next.Get(a), next.Get(a.Other());
      if defender.hp == 0 {
        next := next.(outcome := Outcome(true, actor.id, KO));
        events := events + [Event(next.turn, MatchFinished, actor.id, defender.id, NoAction, Head, 0, true, ByKo)];
      }
    }

    method LandBlow(a: Slot, action: Action, zone: Zone, before: int, combo: bool, rng: DeterministicRNG)
      requires Valid()
      modifies this, rollHash, rng
      ensures Valid()
      ensures View() == Land(old(View()), a, action, zone, before, combo,
                             Roll(old(rng.state), 0, SIDES), Roll(old(rng.state), 1, SIDES))
      ensures |rolls| >= |old(rolls)| && rng.state == Iterate(old(rng.state), |rolls| - |old(rolls)|)
    {
      hide Damage, ZoneEffect, StunRoll, Climb, Submit, KnockOut, RollHash, Roll, Advance, Iterate;
      OneStep(old(rng.state));
      ApplyDamage(a, action, zone, before, combo);
      ApplyZoneEffects(a, zone);
      RollStun(a, zone, rng);
      if action == Grapple {
        RollLater(old(rng.state), 1, 0, SIDES);
        label climbing:
        ApplyGrappleTransition(a, rng);
        IterateAdd(old(rng.state), 1, |rolls| - |old@climbing(rolls)|);
      }
      CheckKnockOut(a);
    }

    method BreakAway(a: Slot)
      modifies this`next, this`events
      ensures View() == Escape(old(View()), a)
    {
      next := next.(combat := Neutral);
      var actor, defender := next.Get(a), next.Get(a.Other());
      if actor.state != Stunned {
        next := next.Put(a, actor.(state := Neutral));
      }
      if defender.state != Stunned {
        next := next.Put(a.Other(), defender.(state := Neutral));
      }
      events := events + [Event(next.turn, StateChanged, actor.id, [], NoAction, Head, 0, true, BreakToNeutral)];
    }

    method GainMomentum(a: Slot, action: Action, combo: bool)
      modifies this`next, this`events
      ensures View() == Inspire(old(View()), a, action, combo)
    {
      var actor := next.Get(a);
      next := next.Put(a, actor.(momentum := Clamp(actor.momentum + 8, 0, 50)));
      if combo {
        actor := next.Get(a);
        next := next.Put(a, actor.(momentum := Clamp(actor.momentum + 5, 0, 50)));
        events := events + [Event(next.turn, StatusApplied, actor.id, [], action, Head, 0, true, ComboActive)];
      }
    }

    method TryAction(a: Slot, action: Action, zone: Zone, ctx: Context, rng: DeterministicRNG)
      requires Valid()
      modifies this, rollHash, rng
      ensures Valid() && View() == Attempt(old(View()), a, action, zone, ctx, Roll(old(rng.state), 0, SIDES))
      ensures rng.state == Advance(old(rng.state))
    {
      hide Chance, StaminaCost, RollHash, Roll, Advance, MoveForAction;
      var actor, defender := next.Get(a), next.Get(a.Other());
      actor := actor.(lastAction := action, stamina := actor.stamina - StaminaCost(action, actor.stats.endurance));
      var chance := Chance(actor, defender, action, ctx);
      var roll := RollDie(rng);
      var success := roll < chance;
      var detail := ChanceRoll;
      if success && RequiresHitbox(action) {
        var move := MoveForAction(action);
        if !move.IsActive(1) || next.distance > move.range {
          success := false;
          detail := MissOutOfRange;
        }
      }
      next := next.Put(a, actor.(lastSuccess := success));
      events := events + [Event(next.turn, ActionResolved, actor.id, defender.id, action, zone, chance, success,
                                detail)];
    }

    method Reward(a: Slot, action: Action, zone: Zone, rng: DeterministicRNG)
      requires Valid()
      modifies this, rollHash, rng
      ensures Valid()
      ensures View() == Succeed(old(View()), a, action, zone,
                                Roll(old(rng.state), 0, SIDES), Roll(old(rng.state), 1, SIDES))
      ensures |rolls| >= |old(rolls)| && rng.state == Iterate(old(rng.state), |rolls| - |old(rolls)|)
    {
      hide Inspire, Land, Escape, RollHash, Roll, Advance;
      var actor := next.Get(a);
      var combo := IsOffensive(action) && actor.lastHit == next.turn - 1 && actor.stamina > 30;
      GainMomentum(a, action, combo);
      InspireTurn(old(View()), a, action, combo);
      match action {
        case Strike => LandBlow(a, action, zone, actor.momentum, combo, rng);
        case Grapple => LandBlow(a, action, zone, actor.momentum, combo, rng);
        case Counter => LandBlow(a, action, zone, actor.momentum, combo, rng);
        case Feint => next := next.Put(a, next.Get(a).(lastHit := next.turn));
        case Break => BreakAway(a);
        case _ =>
      }
    }

    /** The loop body of `ResolveTurn`. */
    method TakeAction(a: Slot, input: TurnInput, ctx: Context, rng: DeterministicRNG)
      requires Valid()
      modifies this, rollHash, rng
      ensures Valid()
      ensures View() == Act(old(View()), a, input, ctx, Roll(old(rng.state), 0, SIDES), Roll(old(rng.state), 1, SIDES),
                            Roll(old(rng.state), 2, SIDES))
      ensures |rolls| >= |old(rolls)| && rng.state == Iterate(old(rng.state), |rolls| - |old(rolls)|)
    {
      hide Attempt, Succeed, StaminaCost, RollHash, Roll, Advance, Iterate;
      NoStep(rng.state);
      OneStep(rng.state);
      if next.outcome.finished {
        return;
      }
      var action, zone := NormalizeAction(input.action), NormalizeZone(input.target);
      var actor := next.Get(a);
      if ctx.stunned {
        next := next.Put(a, actor.(lastAction := NoAction, lastSuccess := false));
        events := events + [Event(next.turn, StatusApplied, actor.id, [], NoAction, Head, 0, false, StunnedSkip)];
        return;
      }
      if actor.stamina < StaminaCost(action, actor.stats.endurance) {
        next := next.Put(a, actor.(lastAction := action, lastSuccess := false));
        events := events + [Event(next.turn, ActionResolved, actor.id, next.Get(a.Other()).id, action, zone, 0, false,
                                  InsufficientStamina)];
        return;
      }
      if action == NoAction {
        next := next.Put(a, actor.(lastAction := NoAction, lastSuccess := false));
        return;
      }
      TryAction(a, action, zone, ctx, rng);
      if next.Get(a).lastSuccess {
        RollLater(old(rng.state), 1, 0, SIDES);
        RollLater(old(rng.state), 1, 1, SIDES);
        label rewarding:
        Reward(a, action, zone, rng);
        IterateAdd(old(rng.state), 1, |rolls| - |old@rewarding(rolls)|);
      }
    }

    method ApplyRegen(s: Slot, ctx: Context)
      modifies this`next, this`events
      ensures View() == Rest(old(View()), s, ctx)
    {
      hide Regen;
      var f := next.Get(s);
      var regen := Regen(f.stats.endurance);
      if ctx.torso {
        regen := TruncDiv(regen * 80, 100);
      }
      if regen < 0 {
        regen := 0;
      }
      var before := f.stamina;
      next := next.Put(s, f.(stamina := Clamp(f.stamina + regen, 0, STAMINA_MAX)));
      events := events + [Event(next.turn, StaminaRestored, f.id, [], NoAction, Head, next.Get(s).stamina - before,
                                true, TurnRegen)];
    }

    method EndTurn(ctx1: Context, ctx2: Context)
      modifies this`next, this`events
      ensures View() == Close(old(View()), ctx1, ctx2)
    {
      hide Rest;
      ApplyRegen(P1, ctx1);
      ApplyRegen(P2, ctx2);
      if next.p1.state == Stunned && next.p1.effects.stun == 0 {
        next := next.(p1 := next.p1.(state := next.combat));
      }
      if next.p2.state == Stunned && next.p2.effects.stun == 0 {
        next := next.(p2 := next.p2.(state := next.combat));
      }
    }
  }

  /** Resolves a turn. A refused call leaves the generator alone; a resolved one advances it once per roll. */
  method ResolveTurn(s: MatchState, inputs: seq<TurnInput>, rng: DeterministicRNG)
    returns (r: Result<TurnResult, ResolveError>)
    modifies rng
    ensures r.Ok? ==> ResolveSpec(s, inputs, old(rng.state)) == Some(r.value) && rng.state == r.value.next.rng
    ensures r.Err? ==> ResolveSpec(s, inputs, old(rng.state)) == None && rng.state == old(rng.state)
    ensures r.Err? <==> Refusal(s, inputs).Some?
    ensures r.Err? ==> Refusal(s, inputs) == Some(r.error)
  {
    hide Play, InputOf, Roll, Iterate, RollHash, StateHash;
    FaultMeaning(s, inputs);
    if s.outcome.finished {
      return Err(AlreadyFinished);
    }
    var canonical := CanonicalizeInputs(s, inputs);
    if canonical.Err? {
      return Err(BadInputs(canonical.error));
    }
    CanonicalIsIdempotent(s, inputs);
    var arena := PlayTurn(s, canonical.value, rng);
    arena.next := arena.next.(rng := rng.Snapshot());
    var stateHash := HashMatchState(arena.next);
    r := Ok(TurnResult(arena.events, arena.next, stateHash, arena.rollHash.sum));
  }

  /** The turn itself, for inputs that have passed. */
  method PlayTurn(s: MatchState, ordered: seq<TurnInput>, rng: DeterministicRNG) returns (arena: Arena)
    requires ProperIds(s) && |ordered| == 2
    requires [ordered[0].player, ordered[1].player] in [[s.p1.id, s.p2.id], [s.p2.id, s.p1.id]]
    modifies rng
    ensures fresh(arena) && fresh(arena.rollHash) && arena.Valid()
    ensures arena.View() == Play(s, ordered, TapeOf(old(rng.state)))
    ensures rng.state == Iterate(old(rng.state), |arena.rolls|)
  {
    hide Act, Close, Roll, Iterate, RollHash, Prepared;
    ghost var gen, tape := rng.state, TapeOf(rng.state);
    arena := new Arena(s);
    var action1 := if ordered[0].player == s.p2.id then ordered[0].action else ordered[1].action;
    var action2 := if ordered[0].player == s.p1.id then ordered[0].action else ordered[1].action;
    var ctx1 := arena.Prepare(P1, action1);
    var ctx2 := arena.Prepare(P2, action2);
    arena.events := arena.events + [Event(arena.next.turn, TurnStarted, [], [], NoAction, Head, 0, false, TurnBegin)];
    assert arena.View() == Begin(s);

    NoStep(gen);
    OpeningDraws(s, ordered, tape);
    for n := 0 to 2
      invariant arena.Valid() && fresh(arena) && fresh(arena.rollHash)
      invariant arena.View() == (if n == 0 then Begin(s) else if n == 1 then Opening(s, ordered, tape)
                                 else Exchange(s, ordered, tape))
      invariant rng.state == Iterate(gen, |arena.rolls|)
    {
      var a := if ordered[n].player == s.p1.id then P1 else P2;
      ghost var k := |arena.rolls|;
      RollLater(gen, k, 0, SIDES);
      RollLater(gen, k, 1, SIDES);
      RollLater(gen, k, 2, SIDES);
      arena.TakeAction(a, ordered[n], if a == P1 then ctx1 else ctx2, rng);
      IterateAdd(gen, k, |arena.rolls| - k);
    }
    arena.EndTurn(ctx1, ctx2);
  }

  lemma NoStep(s: Word)
    ensures Iterate(s, 0) == s
  {
  }

  lemma OneStep(s: Word)
    ensures Iterate(s, 1) == Advance(s)
  {
    assert Iterate(s, 0) == s;
    hide Advance;
  }

  lemma InspireTurn(w: Work, a: Slot, action: Action, combo: bool)
    ensures Inspire(w, a, action, combo).next.turn == w.next.turn
  {
  }

  lemma RollHashSnoc(rolls: seq<nat>, roll: nat)
    ensures RollHash([]) == FNV_OFFSET
    ensures RollHash(rolls + [roll]) == Fnv(RollHash(rolls), FieldBytes(Number(roll)))
  {
    hide FnvStep, LittleEndian;
    assert (rolls + [roll])[..|rolls|] == rolls;
    FnvConcat(FNV_OFFSET, RollBytes(rolls), NumberBytes(roll));
  }
}
