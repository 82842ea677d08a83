/**
 The value types of a match: internal/combat/types.go.

 Go enumerations are bytes, so a value outside the declared constants can reach the resolver. Actions and zones arrive
 from players and archetypes from callers; they keep such values as `Other...(extra)`, where `extra` counts from the
 last declared constant. Combat states, outcomes and event details are only ever written by the program itself.
 */
module CombatTypes {
  import opened Words

  /** A player identifier is a Go string, that is, a sequence of bytes. */
  type Id = seq<Byte>

  datatype Option<+T> = None | Some(value: T)

  datatype Result<+T, +E> = Ok(value: T) | Err(error: E)

  datatype State = Neutral | Clinch | Ground | Dominant | Stunned | SubmissionAttempt

  datatype Action =
    | NoAction | Strike | Grapple | Block | Dodge | Counter | Feint | Break
    | OtherAction(extra: Byte)

  datatype Zone = Head | Torso | Legs | OtherZone(extra: Byte)

  datatype Archetype = Balanced | Powerhouse | Technician | HighFlyer | OtherArchetype(extra: Byte)

  datatype Stats = Stats(power: int, technique: int, agility: int, endurance: int)

  datatype Effects = Effects(stun: int, torso: int, legs: int)

  datatype Fighter = Fighter(
    id: Id,
    archetype: Archetype,
    stats: Stats,
    hp: int,
    stamina: int,
    momentum: int,
    state: State,
    effects: Effects,
    lastAction: Action,
    lastSuccess: bool,
    lastHit: int)

  datatype Method = NoMethod | KO | Submission

  datatype Outcome = Outcome(finished: bool, winner: Id, how: Method)

  /** The two fighters of a match; the source points at `state.P1` or `state.P2`. */
  datatype Slot = P1 | P2 {
    function Other(): Slot { if this == P1 then P2 else P1 }
  }

  datatype MatchState = MatchState(
    turn: int,
    p1: Fighter,
    p2: Fighter,
    combat: State,
    distance: int,
    rng: Word,
    outcome: Outcome)
  {
    function Get(s: Slot): Fighter { if s == P1 then p1 else p2 }

    function Put(s: Slot, f: Fighter): MatchState {
      if s == P1 then this.(p1 := f) else this.(p2 := f)
    }

    /** The slot a player id names; only meaningful when the id belongs to one of the fighters. */
    function SlotOf(id: Id): Slot { if id == p1.id then P1 else P2 }

    function Swap(): MatchState { this.(p1 := p2, p2 := p1) }
  }

  datatype TurnInput = TurnInput(player: Id, action: Action, target: Zone, decisionMs: int)

  datatype EventKind =
    TurnStarted | ActionResolved | DamageApplied | StatusApplied | StateChanged | MatchFinished | StaminaRestored

  datatype Detail =
    | TurnBegin | StunnedSkip | InsufficientStamina | ChanceRoll | MissOutOfRange | ComboActive | DamageDealt
    | TorsoPenalty | LegsPenalty | StunLanded | Transition(from: State, to: State) | BreakToNeutral
    | BySubmission | ByKo | TurnRegen

  datatype Event = Event(
    turn: int,
    kind: EventKind,
    player: Id,
    target: Id,
    action: Action,
    zone: Zone,
    value: int,
    success: bool,
    detail: Detail)

  const HP_MAX := 100
  const STAMINA_MAX := 100

  function ArchetypeStats(a: Archetype): Option<Stats> {
    match a
    case Balanced => Some(Stats(6, 6, 6, 6))
    case Powerhouse => Some(Stats(9, 4, 4, 8))
    case Technician => Some(Stats(5, 9, 5, 6))
    case HighFlyer => Some(Stats(4, 6, 9, 5))
    case OtherArchetype(_) => None
  }

  function NewFighter(id: Id, archetype: Archetype): Option<Fighter> {
    match ArchetypeStats(archetype)
    case None => None
    case Some(stats) =>
      Some(Fighter(id, archetype, stats, HP_MAX, STAMINA_MAX, 0, Neutral, Effects(0, 0, 0), NoAction, false, 0))
  }

  function NewMatchState(p1: Fighter, p2: Fighter): MatchState {
    MatchState(0, p1, p2, Neutral, 1, ZERO, Outcome(false, [], NoMethod))
  }
}
