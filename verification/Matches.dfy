/** What is true of every match between archetype fighters, after any number of turns, whatever is played and rolled. */
module Matches {
  import opened CombatTypes
  import opened Rules
  import opened Turn
  import opened Order
  import opened EventLog
  import opened Invariant
  import opened Ledger
  import opened Shape
  import opened Combo
  import opened Runs
  import Blows
  import B = Rulebook
  import Book = ByTheBook
  import Moves = LastMoves
  import Odds

  lemma BlankKeeps(m: MatchState, s: Slot)
    ensures var f, g := m.Get(s), Blank(m).Get(s);
            g.id == f.id && g.stats == f.stats && g.hp == f.hp && g.stamina == f.stamina
            && g.effects == f.effects && g.lastHit == f.lastHit && Blank(m).turn == m.turn
  {
  }

  /** Every turn of every match, from any state, draws at most six rolls: the first ones the random source would
      yield. */
  lemma TurnsDrawAtMostSix(m: Match, n: nat)
    requires m.Played() && n < |m.turns|
    ensures |m.turns[n].rolls| <= 6 && m.turns[n].rolls == m.script[n].tape[..|m.turns[n].rolls|]
  {
    hide Play, Canonical;
    TurnOf(m, n);
    PlayDraws(m.runs[n].state, m.Pair(n), m.script[n].tape);
  }

  // ---------- how early a match can end ----------

  lemma EarlyLosses()
    ensures LossCap(0) == 0 && LossCap(1) == 23 && LossCap(2) == 48 && LossCap(3) == 76
  {
  }

  lemma EarliestFinishOf(m: MatchState)
    requires Inv(m) && m.outcome.finished
    ensures m.turn >= 2
    ensures m.outcome.how == KO ==> m.turn >= 4
  {
    EarlyLosses();
    hide LossCap;
  }

  /** No match ends before its second turn, and none by knock-out before its fourth. */
  lemma EarliestFinish(m: Match, n: nat)
    requires IsFresh(m.start) && m.Played() && n < |m.runs| && m.runs[n].state.outcome.finished
    ensures n >= 2
    ensures m.runs[n].state.outcome.how == KO ==> n >= 4
  {
    ReachableStates(m, n);
    EarliestFinishOf(m.runs[n].state);
    hide Inv;
  }

  // ---------- the grapple ladder ----------

  /** The combat state is the number of grapples since the last break, capped at four; a submission needs all four. */
  lemma LadderClosedForm(m: Match, n: nat)
    requires IsFresh(m.start) && m.Played() && n < |m.runs|
    ensures var r := m.runs[n];
            && r.state.combat != Stunned
            && Rank(r.state.combat) == Min(4, GrapplesSinceBreak(r.log))
            && (r.state.outcome.finished && r.state.outcome.how == Submission ==> GrapplesSinceBreak(r.log) >= 4)
  {
    ReachableStates(m, n);
    LadderOf(m.start, m.runs[n], n);
    hide *;
  }

  lemma LadderOf(start: MatchState, r: Run, n: nat)
    requires Sane(start, r, n)
    ensures r.state.combat != Stunned && Rank(r.state.combat) == Min(4, GrapplesSinceBreak(r.log))
    ensures r.state.outcome.finished && r.state.outcome.how == Submission ==> GrapplesSinceBreak(r.log) >= 4
  {
    hide LossCap, AllAbout, Timed, GrapplesSinceBreak;
  }

  // ---------- hit points ----------

  lemma HitPoints(start: MatchState, r: Run, n: nat, s: Slot)
    requires Known(start, r, n)
    ensures && r.state.Get(s).hp == Max(0, HP_MAX - DamageTo(r.log, start.Get(s).id))
            && 12 * HitsOn(r.log, start.Get(s).id) <= DamageTo(r.log, start.Get(s).id)
  {
    hide Fold, Inv, Start, Timed, AllAbout, Blank, DamageTo, HitsOn, CostsPaid, StaminaBack;
    LedgerOfFold(Blank(start), r.log, s);
    BlankKeeps(start, s);
    BlankKeeps(r.state, s);
  }

  lemma OpenHits(start: MatchState, r: Run, n: nat)
    requires Known(start, r, n)
    ensures var hits1, hits2 := HitsOn(r.log, start.p1.id), HitsOn(r.log, start.p2.id);
            && (hits1 <= 8 || hits2 <= 8)
            && (!r.state.outcome.finished ==> hits1 <= 8 && hits2 <= 8)
  {
    hide Fold, Inv, Start, Timed, AllAbout, Blank;
    HitPoints(start, r, n, P1);
    HitPoints(start, r, n, P2);
    SomeoneStands(r.state);
  }

  lemma SomeoneStands(m: MatchState)
    requires Inv(m)
    ensures !m.outcome.finished ==> m.p1.hp > 0 && m.p2.hp > 0
    ensures m.p1.hp > 0 || m.p2.hp > 0
  {
    hide LossCap;
  }

  /** Hit points are 100 less the damage logged against the fighter, down to 0; no fighter is ever hit ten times, and no
      match sees eighteen hits. */
  lemma DamageLedger(m: Match, n: nat, s: Slot)
    requires IsFresh(m.start) && m.Played() && n < |m.runs|
    ensures var r := m.runs[n];
            var hits1, hits2 := HitsOn(r.log, m.start.p1.id), HitsOn(r.log, m.start.p2.id);
            && r.state.Get(s).hp == Max(0, HP_MAX - DamageTo(r.log, m.start.Get(s).id))
            && hits1 <= 9 && hits2 <= 9 && hits1 + hits2 <= 17
  {
    hide *;
    RunIsKnown(m, n);
    HitPoints(m.start, m.runs[n], n, s);
    HitsAreFew(m, n);
  }

  lemma HitsAreFew(m: Match, n: nat)
    requires IsFresh(m.start) && m.Played() && n < |m.runs|
    ensures var hits1, hits2 := HitsOn(m.runs[n].log, m.start.p1.id), HitsOn(m.runs[n].log, m.start.p2.id);
            hits1 <= 9 && hits2 <= 9 && hits1 + hits2 <= 17
  {
    hide Known, Play, Canonical, HitsOn;
    RunIsKnown(m, n);
    OpenHits(m.start, m.runs[n], n);
    if n > 0 {
      RunIsKnown(m, n - 1);
      TurnOf(m, n - 1);
      OpenHits(m.start, m.runs[n - 1], n - 1);
      LastHits(m, n - 1, P1);
      LastHits(m, n - 1, P2);
    }
  }

  lemma LastHits(m: Match, n: nat, s: Slot)
    requires IsFresh(m.start) && m.Played() && n < |m.turns|
    ensures HitsOn(m.runs[n + 1].log, m.start.Get(s).id) <= HitsOn(m.runs[n].log, m.start.Get(s).id) + 1
  {
    hide Play, Canonical;
    RunIsKnown(m, n);
    TurnOf(m, n);
    var b := m.runs[n];
    InvProper(b.state);
    PlayHits(b.state, m.Pair(n), m.script[n].tape, m.start.Get(s).id);
    DamageConcat(b.log, m.turns[n].events, m.start.Get(s).id);
  }

  // ---------- stamina ----------

  lemma StaminaOf(start: MatchState, r: Run, n: nat, s: Slot)
    requires Known(start, r, n)
    ensures var f := start.Get(s);
            && r.state.Get(s).stamina
               == STAMINA_MAX - CostsPaid(r.log, f.id, f.stats.endurance) + StaminaBack(r.log, f.id)
            && 7 <= r.state.Get(s).stamina <= STAMINA_MAX
  {
    hide Fold, Start, Timed, AllAbout, Blank, LossCap, DamageTo, HitsOn, CostsPaid, StaminaBack;
    LedgerOfFold(Blank(start), r.log, s);
    BlankKeeps(start, s);
    BlankKeeps(r.state, s);
  }

  /** Stamina is 100 less what was paid plus what was restored, as logged; a fighter begins every turn with at least
      7. */
  lemma StaminaLedger(m: Match, n: nat, s: Slot)
    requires IsFresh(m.start) && m.Played() && n < |m.runs|
    ensures var r, f := m.runs[n], m.start.Get(s);
            && r.state.Get(s).stamina
               == STAMINA_MAX - CostsPaid(r.log, f.id, f.stats.endurance) + StaminaBack(r.log, f.id)
            && 7 <= r.state.Get(s).stamina <= STAMINA_MAX
  {
    hide Known;
    RunIsKnown(m, n);
    StaminaOf(m.start, m.runs[n], n, s);
  }

  /** A turn's entries are explained by the state the turn began in. */
  lemma EntryIsExplained(m: Match, n: nat, i: nat)
    requires IsFresh(m.start) && m.Played() && n < |m.turns| && i < |m.turns[n].events|
    ensures m.runs[n].state.turn >= 0 && Explained(m.runs[n].state, m.turns[n].events[i])
  {
    hide Play, Canonical, Explained;
    ReachableStates(m, n);
    TurnOf(m, n);
    TurnKeepsInvariant(m.runs[n].state, m.Pair(n), m.script[n].tape);
  }

  /** Block, Dodge and Feint are always affordable: only the four expensive actions are ever refused for stamina. */
  lemma DefenceNeverStarves(m: Match, n: nat, i: nat)
    requires IsFresh(m.start) && m.Played() && n < |m.turns| && i < |m.turns[n].events|
    requires m.turns[n].events[i].kind == ActionResolved && m.turns[n].events[i].detail == InsufficientStamina
    ensures m.turns[n].events[i].action in {Strike, Grapple, Counter, Break}
  {
    EntryIsExplained(m, n, i);
  }

  /** Nothing is ever missed for want of reach, and an affordable action always stands a chance between 21.6% and
      82.5%. */
  lemma OddsAreOpen(m: Match, n: nat, i: nat)
    requires IsFresh(m.start) && m.Played() && n < |m.turns| && i < |m.turns[n].events|
    requires m.turns[n].events[i].kind == ActionResolved
    ensures var e := m.turns[n].events[i];
            e.detail == InsufficientStamina || (e.detail == ChanceRoll && 2160 <= e.value <= 8250)
  {
    EntryIsExplained(m, n, i);
  }

  // ---------- effects ----------

  lemma WindowsOf(start: MatchState, r: Run, n: nat, s: Slot)
    requires Known(start, r, n)
    ensures var id := start.Get(s).id;
            && r.state.turn == n
            && r.state.Get(s).effects.stun == Max(0, 1 - (n - LastTurn(r.log, id, StunLanded)))
            && r.state.Get(s).effects.torso == Max(0, 2 - (n - LastTurn(r.log, id, TorsoPenalty)))
            && r.state.Get(s).effects.legs == Max(0, 2 - (n - LastTurn(r.log, id, LegsPenalty)))
            && r.state.Get(s).lastHit == LastOffense(r.log, id)
            && LastTurn(r.log, id, StunLanded) <= n && LastTurn(r.log, id, TorsoPenalty) <= n
            && LastTurn(r.log, id, LegsPenalty) <= n
            && Timed(r.log) && Clock(r.log) == n
  {
    hide Fold, Inv, Start, Timed, AllAbout, LastTurn, LastOffense, GrapplesSinceBreak, Blank;
    WindowsOfFold(Blank(start), r.log, s);
    BlankKeeps(start, s);
    BlankKeeps(r.state, s);
  }

  lemma PenaltyDates(a: seq<Event>, b: seq<Event>, turn: int)
    requires PenaltiesAreBlows(a) && Blows.BlowsPenalize(b) && forall e :: e in b ==> e.turn == turn
    ensures PenaltiesAreBlows(a + b)
  {
    hide LastTurn, LastBlow, HasMark, HasBlow;
    forall id ensures LastTurn(a + b, id, TorsoPenalty) == LastBlow(a + b, id, Torso) {
      LastTurnConcat(a, b, id, TorsoPenalty, turn);
      LastBlowConcat(a, b, id, Torso, turn);
    }
    forall id ensures LastTurn(a + b, id, LegsPenalty) == LastBlow(a + b, id, Legs) {
      LastTurnConcat(a, b, id, LegsPenalty, turn);
      LastBlowConcat(a, b, id, Legs, turn);
    }
  }

  /** A turn of a match starts from a state that the invariant holds of. */
  lemma TurnStart(m: Match, n: nat)
    requires IsFresh(m.start) && m.Played() && n < |m.turns|
    ensures Canonical(m.runs[n].state, m.script[n].inputs).Some? && |m.Pair(n)| == 2
    ensures m.turns[n] == Play(m.runs[n].state, m.Pair(n), m.script[n].tape)
    ensures Inv(m.runs[n].state) && ProperIds(m.runs[n].state) && m.runs[n].state.turn == n
    ensures m.runs[n].state.p1.id == m.start.p1.id && m.runs[n].state.p2.id == m.start.p2.id
  {
    hide Play, Canonical, Inv, AllAbout, Timed, GrapplesSinceBreak;
    ReachableStates(m, n);
    TurnOf(m, n);
    InvProper(m.runs[n].state);
  }

  /** In every match penalties are dated as the blows are that bring them. */
  lemma {:induction false} PenaltiesFollowBlows(m: Match, n: nat)
    requires IsFresh(m.start) && m.Played() && n < |m.runs|
    ensures PenaltiesAreBlows(m.runs[n].log)
  {
    hide Play, Canonical, Inv, IsFresh, PenaltiesAreBlows, Blows.BlowsPenalize;
    if n == 0 {
      NothingDated();
    } else {
      PenaltiesFollowBlows(m, n - 1);
      TurnStart(m, n - 1);
      Linked(m, n - 1);
      var b, w := m.runs[n - 1], m.turns[n - 1];
      Blows.TurnPenalizes(b.state, m.Pair(n - 1), m.script[n - 1].tape);
      TurnIsSourced(b.state, m.Pair(n - 1), m.script[n - 1].tape);
      PenaltyDates(b.log, w.events, w.next.turn);
    }
  }

  lemma NothingDated()
    ensures PenaltiesAreBlows([])
  {
  }

  /** The effect counters after turn T count down from the last turn in which the fighter was stunned, hit on the
      torso and hit on the legs. */
  lemma EffectWindows(m: Match, t: nat, s: Slot)
    requires IsFresh(m.start) && m.Played() && t < |m.runs|
    ensures var r, id := m.runs[t], m.start.Get(s).id;
            && r.state.turn == t
            && r.state.Get(s).effects.stun == Max(0, 1 - (t - LastTurn(r.log, id, StunLanded)))
            && r.state.Get(s).effects.torso == Max(0, 2 - (t - LastBlow(r.log, id, Torso)))
            && r.state.Get(s).effects.legs == Max(0, 2 - (t - LastBlow(r.log, id, Legs)))
  {
    hide IsFresh, Known, LastTurn, LastBlow;
    RunIsKnown(m, t);
    WindowsOf(m.start, m.runs[t], t, s);
    PenaltiesFollowBlows(m, t);
  }

  // ---------- what a turn logs ----------

  /** Every turn of every match logs exactly what the rulebook works out from its start, its canonical inputs and its
      rolls, and draws exactly the rolls the book asks for. */
  lemma MatchesGoByTheBook(m: Match, n: nat)
    requires IsFresh(m.start) && m.Played() && n < |m.turns|
    ensures Canonical(m.runs[n].state, m.script[n].inputs).Some? && |m.Pair(n)| == 2
    ensures m.turns[n].events == Book.BookLog(m.runs[n].state, m.Pair(n), m.script[n].tape)
    ensures m.turns[n].rolls == m.script[n].tape[..Book.BothDraws(m.runs[n].state, m.Pair(n), m.script[n].tape)]
  {
    TurnStart(m, n);
    hide *;
    Book.TurnGoesByTheBook(m.runs[n].state, m.Pair(n), m.script[n].tape);
  }

  /** Every blow of a match is dealt to the opponent, with the action and at the zone of its dealer's own input; and a
      turn penalizes a fighter on the torso or the legs exactly when it holds a blow against that zone of the fighter.
      */
  lemma BlowsAreTheInputs(m: Match, n: nat)
    requires IsFresh(m.start) && m.Played() && n < |m.turns|
    ensures Canonical(m.runs[n].state, m.script[n].inputs).Some? && |m.Pair(n)| == 2
    ensures forall e :: e in m.turns[n].events && e.kind == DamageApplied ==>
              var f := m.runs[n].state.SlotOf(e.player);
              var input := InputFor(m.runs[n].state, m.Pair(n), f);
              && e.player == m.start.Get(f).id && e.target == m.start.Get(f.Other()).id
              && e.action == B.Declared(input.action) && e.zone == B.Aim(input.target)
              && e.action in {Strike, Grapple, Counter}
    ensures forall id ::
              && (HasMark(m.turns[n].events, id, TorsoPenalty) <==> HasBlow(m.turns[n].events, id, Torso))
              && (HasMark(m.turns[n].events, id, LegsPenalty) <==> HasBlow(m.turns[n].events, id, Legs))
  {
    hide Play, Canonical, Inv, IsFresh, InputFor, HasMark, HasBlow, B.Declared, B.Aim;
    TurnStart(m, n);
    var s, pair, tape := m.runs[n].state, m.Pair(n), m.script[n].tape;
    forall e | e in m.turns[n].events && e.kind == DamageApplied ensures Blows.AsDeclared(s, pair, e) {
      Blows.BlowsAreAimed(s, pair, tape, e);
    }
    Blows.TurnPenalizes(s, pair, tape);
  }

  /** A fighter is stunned in a turn exactly when it is hit in it and the roll after the one that hit is below a tenth,
      and another tenth for a blow at the head, and a twentieth if it has less than 20 stamina left, and half a
      hundredth for each point of the momentum lead that the blow leaves its dealer. */
  lemma BlowsStunByChance(m: Match, n: nat, s: Slot)
    requires IsFresh(m.start) && m.Played() && n < |m.turns|
    ensures Canonical(m.runs[n].state, m.script[n].inputs).Some? && |m.Pair(n)| == 2
    ensures var b, log, me, hit := m.runs[n].state, m.turns[n].events, m.start.Get(s).id, m.start.Get(s.Other()).id;
            var w := Footing(b, m.Pair(n), m.script[n].tape, s);
            var zone, dealer, other := B.Aim(InputFor(b, m.Pair(n), s).target), w.next.Get(s), w.next.Get(s.Other());
            var gain := if HasMark(log, me, ComboActive) then 13 else 8;
            var lead := (if dealer.momentum + gain > 50 then 50 else dealer.momentum + gain)
                        - (if other.momentum < 6 then 0 else other.momentum - 6);
            var odds := 1000 + (if zone == Head then 1000 else 0) + (if other.stamina < 20 then 500 else 0) + 50 * lead;
            && |w.rolls| <= 3
            && (HasMark(log, hit, StunLanded) <==> Blows.HasDealt(log, me) && m.script[n].tape[|w.rolls| + 1] < odds)
  {
    hide Play, Canonical, Inv, IsFresh, Footing, InputFor, HasMark, Blows.HasDealt, B.Aim;
    TurnStart(m, n);
    var b, pair, tape := m.runs[n].state, m.Pair(n), m.script[n].tape;
    FootingFaces(b, pair, tape, s);
    Blows.TurnStuns(b, pair, tape, s);
  }

  lemma FootingFaces(s: MatchState, pair: seq<TurnInput>, tape: Tape, f: Slot)
    requires |pair| == 2
    ensures Footing(s, pair, tape, f).next.p1.id == s.p1.id && Footing(s, pair, tape, f).next.p2.id == s.p2.id
  {
    hide Act;
    var a := s.SlotOf(pair[0].player);
    ActSpares(Begin(s), a, pair[0], Contexts(s, a, pair[1]), tape[0], tape[1], tape[2]);
  }

  /** What each fighter last did, and whether it succeeded, as the state after a turn has it. */
  lemma LastMovesAreKnown(m: Match, n: nat, s: Slot)
    requires IsFresh(m.start) && m.Played() && n < |m.turns|
    ensures Canonical(m.runs[n].state, m.script[n].inputs).Some? && |m.Pair(n)| == 2
    ensures var b, v := m.runs[n].state, m.runs[n + 1].state;
            var f, g, id := b.Get(s), v.Get(s), m.start.Get(s).id;
            if Footing(b, m.Pair(n), m.script[n].tape, s).next.outcome.finished then
              g.lastAction == f.lastAction && g.lastSuccess == f.lastSuccess
            else
              && g.lastAction == (if MarkedIn(m.runs[n].log, id, StunLanded, n) then NoAction
                                  else B.Declared(InputFor(b, m.Pair(n), s).action))
              && (g.lastSuccess <==> Won(m.turns[n].events, id, g.lastAction))
  {
    hide Play, Canonical, Inv, IsFresh, Footing, InputFor, Won, MarkedIn, Known, LastTurn, Timed;
    TurnStart(m, n);
    Linked(m, n);
    var b, pair := m.runs[n].state, m.Pair(n);
    Moves.TurnIsRemembered(b, pair, m.script[n].tape, s);
    Book.NamesAgree(InputFor(b, pair, s));
    RunIsKnown(m, n);
    RunIsKnown(m, n + 1);
    WindowsOf(m.start, m.runs[n], n, s);
    MarkedMeaning(m.runs[n].log, m.start.Get(s).id, StunLanded, n);
    SameName(m, n + 1, s);
  }

  lemma SameName(m: Match, n: nat, s: Slot)
    requires n < |m.runs| && Known(m.start, m.runs[n], n)
    ensures m.runs[n].state.Get(s).id == m.start.Get(s).id
  {
  }

  predicate MarkedIn(log: seq<Event>, id: Id, detail: Detail, turn: int) {
    exists i :: 0 <= i < |log| && Marks(log[i], id, detail) && log[i].turn == turn
  }

  lemma MarkedMeaning(log: seq<Event>, id: Id, detail: Detail, turn: int)
    requires Timed(log) && turn >= 0
    ensures LastTurn(log, id, detail) == turn ==> MarkedIn(log, id, detail, turn)
    ensures MarkedIn(log, id, detail, turn) ==> turn <= LastTurn(log, id, detail)
    ensures LastTurn(log, id, detail) == NEVER || 0 <= LastTurn(log, id, detail)
  {
    LastTurnMeaning(log, id, detail);
    if LastTurn(log, id, detail) != NEVER {
      var i :| 0 <= i < |log| && Marks(log[i], id, detail) && log[i].turn == LastTurn(log, id, detail);
      TimedOrder(log, i);
    }
    hide Timed, LastTurn;
  }

  lemma StunSkips(start: MatchState, b: Run, n: nat, pair: seq<TurnInput>, tape: Tape, s: Slot, i: nat)
    requires Known(start, b, n) && |pair| == 2
    requires i < |Play(b.state, pair, tape).events| && Play(b.state, pair, tape).events[i].player == start.Get(s).id
    ensures var stunned, e := MarkedIn(b.log, start.Get(s).id, StunLanded, n), Play(b.state, pair, tape).events[i];
            && (stunned ==> e.kind != ActionResolved)
            && (Marks(e, start.Get(s).id, StunnedSkip) ==> stunned)
  {
    hide Play, Timed, LastTurn, Fold, LossCap, Explained, MarkedIn, Marks, Inv;
    var id := start.Get(s).id;
    KnownIsSane(start, b, n);
    WindowsOf(start, b, n, s);
    MarkedMeaning(b.log, id, StunLanded, n);
    InvProper(b.state);
    TurnKeepsInvariant(b.state, pair, tape);
    ExplainedStun(b.state, Play(b.state, pair, tape).events[i], s);
  }

  /** What an explained entry tells about its fighter's stun. */
  lemma ExplainedStun(m: MatchState, e: Event, s: Slot)
    requires m.turn >= 0 && ProperIds(m) && Explained(m, e) && e.player == m.Get(s).id
    ensures m.Get(s).effects.stun > 0 ==> e.kind != ActionResolved
    ensures Marks(e, e.player, StunnedSkip) ==> m.Get(s).effects.stun > 0
  {
  }

  /** A stun in the previous turn is what makes a fighter skip, and a fighter that skips resolves nothing. Here and
      below the turn looked at is number n + 1, the one played after n turns. */
  lemma StunSkipsOneTurn(m: Match, n: nat, s: Slot)
    requires IsFresh(m.start) && m.Played() && n < |m.turns|
    ensures var id, log := m.start.Get(s).id, m.turns[n].events;
            var stunned := MarkedIn(m.runs[n].log, id, StunLanded, n);
            forall i :: 0 <= i < |log| && log[i].player == id ==>
              && (stunned ==> log[i].kind != ActionResolved)
              && (Marks(log[i], id, StunnedSkip) ==> stunned)
  {
    hide Play, Known, MarkedIn, Canonical;
    RunIsKnown(m, n);
    TurnOf(m, n);
    var log, id := m.turns[n].events, m.start.Get(s).id;
    forall i | 0 <= i < |log| && log[i].player == id
      ensures MarkedIn(m.runs[n].log, id, StunLanded, n) ==> log[i].kind != ActionResolved
      ensures Marks(log[i], id, StunnedSkip) ==> MarkedIn(m.runs[n].log, id, StunLanded, n)
    {
      StunSkips(m.start, m.runs[n], n, m.Pair(n), m.script[n].tape, s, i);
    }
  }

  /** A fighter stunned in the previous turn is logged as skipping this one, unless the opponent, acting first, has
      ended the match by then. */
  lemma StunIsLogged(m: Match, n: nat, s: Slot) returns (at: nat)
    requires IsFresh(m.start) && m.Played() && n < |m.turns|
    requires MarkedIn(m.runs[n].log, m.start.Get(s).id, StunLanded, n)
    ensures Canonical(m.runs[n].state, m.script[n].inputs).Some? && |m.Pair(n)| == 2
    ensures var w := Footing(m.runs[n].state, m.Pair(n), m.script[n].tape, s);
            if w.next.outcome.finished then
              m.Pair(n)[0].player != m.start.Get(s).id && m.turns[n].next.outcome == w.next.outcome
            else at < |m.turns[n].events| && Marks(m.turns[n].events[at], m.start.Get(s).id, StunnedSkip)
  {
    hide Play, Known, MarkedIn, Canonical, LastTurn, Footing, Marks, Inv;
    RunIsKnown(m, n);
    TurnOf(m, n);
    var b := m.runs[n];
    KnownIsSane(m.start, b, n);
    InvProper(b.state);
    WindowsOf(m.start, b, n, s);
    MarkedMeaning(b.log, m.start.Get(s).id, StunLanded, n);
    at := StunnedTurnSkips(b.state, m.Pair(n), m.script[n].tape, s);
  }

  /** A fighter stunned in the previous turn draws no roll of its own and pays nothing: the turn's rolls are all the
      opponent's, and its stamina moves by the regeneration alone. */
  lemma StunCostsNothing(m: Match, n: nat, s: Slot)
    requires IsFresh(m.start) && m.Played() && n < |m.turns|
    requires MarkedIn(m.runs[n].log, m.start.Get(s).id, StunLanded, n)
    ensures Canonical(m.runs[n].state, m.script[n].inputs).Some? && |m.Pair(n)| == 2
    ensures DrawnBy(m.runs[n].state, m.Pair(n), m.script[n].tape, s) == []
    ensures m.turns[n].rolls == DrawnBy(m.runs[n].state, m.Pair(n), m.script[n].tape, s.Other())
    ensures m.turns[n].next.Get(s).stamina == Fed(m.runs[n].state.Get(s))
  {
    hide Play, Known, MarkedIn, Canonical, LastTurn, DrawnBy, Fed;
    RunIsKnown(m, n);
    TurnOf(m, n);
    var b := m.runs[n];
    WindowsOf(m.start, b, n, s);
    MarkedMeaning(b.log, m.start.Get(s).id, StunLanded, n);
    StunnedTurn(b.state, m.Pair(n), m.script[n].tape, s);
  }

  predicate StruckIn(log: seq<Event>, id: Id, zone: Zone, turn: int) {
    exists i :: 0 <= i < |log| && IsBlow(log[i], id, zone) && log[i].turn == turn
  }

  /** The fighter was hit there in one of the last two of n turns. */
  predicate Hurting(log: seq<Event>, id: Id, zone: Zone, n: int) {
    StruckIn(log, id, zone, n) || StruckIn(log, id, zone, n - 1)
  }

  /** A penalty counter is up exactly when such a hit landed in the last two turns played. */
  lemma PenaltyWindow(start: MatchState, b: Run, n: nat, s: Slot)
    requires Known(start, b, n) && PenaltiesAreBlows(b.log)
    ensures b.state.Get(s).effects.torso > 0 <==> Hurting(b.log, start.Get(s).id, Torso, n)
    ensures b.state.Get(s).effects.legs > 0 <==> Hurting(b.log, start.Get(s).id, Legs, n)
  {
    hide Known, Timed, LastTurn, LastBlow, Hurting, LastOffense;
    WindowsOf(start, b, n, s);
    RecentBlows(b.log, start.Get(s).id, Torso, n);
    RecentBlows(b.log, start.Get(s).id, Legs, n);
  }

  lemma RecentBlows(log: seq<Event>, id: Id, zone: Zone, n: nat)
    requires Timed(log) && LastBlow(log, id, zone) <= n
    ensures Hurting(log, id, zone, n) <==> LastBlow(log, id, zone) >= n - 1
  {
    hide Timed, LastBlow;
    var t := LastBlow(log, id, zone);
    LastBlowMeaning(log, id, zone);
    forall i | 0 <= i < |log| ensures log[i].turn >= 0 {
      TimedOrder(log, i);
    }
    if t != NEVER {
      var i :| 0 <= i < |log| && IsBlow(log[i], id, zone) && log[i].turn == t;
      assert t >= n - 1 ==> StruckIn(log, id, zone, t);
    }
  }

  /**
   What hurt legs change. The chance an attempt is logged with carries the attacker's own cut, which is there
   exactly when a legs hit landed on the attacker one or two turns earlier. It is the chance with the defender's cut
   exactly when the opponent does not dodge, or both or neither were hit like that.
   */
  lemma AttemptsFollowTheLegs(m: Match, n: nat, i: nat)
    requires IsFresh(m.start) && m.Played() && n < |m.turns| && i < |m.turns[n].events|
    requires m.turns[n].events[i].kind == ActionResolved && m.turns[n].events[i].detail != InsufficientStamina
    ensures Canonical(m.runs[n].state, m.script[n].inputs).Some? && |m.Pair(n)| == 2
    ensures var b, e, pair := m.runs[n], m.turns[n].events[i], m.Pair(n);
            var s := b.state.SlotOf(e.player);
            var mine, theirs := Hurting(b.log, e.player, Legs, n),
                                Hurting(b.log, b.state.Get(s.Other()).id, Legs, n);
            var w, opponent := Footing(b.state, pair, m.script[n].tape, s), InputFor(b.state, pair, s.Other()).action;
            var actor, defender := Paid(w.next.Get(s), e.action), w.next.Get(s.Other());
            var ctx := Context(false, false, mine, opponent);
            var plain := Odds.Unlimited(actor, defender, e.action, ctx);
            && e.player == b.state.Get(s).id && e.action == NormalizeAction(InputFor(b.state, pair, s).action)
            && e.value == (if e.action == Dodge && mine then plain * 80 / 100 else plain)
            && (e.value == Odds.Intended(actor, defender, e.action, ctx, theirs) <==>
                  opponent != Dodge || theirs == mine)
  {
    hide Play, Known, Canonical, Footing, Hurting, Odds.Unlimited, Odds.Intended, Chance, Inv, Attests,
      PenaltiesAreBlows;
    RunIsKnown(m, n);
    TurnOf(m, n);
    var b, pair, tape := m.runs[n], m.Pair(n), m.script[n].tape;
    KnownIsSane(m.start, b, n);
    InvProper(b.state);
    PlayChance(b.state, pair, tape, i);
    FootingIsReady(b.state, pair, tape, b.state.SlotOf(m.turns[n].events[i].player));
    PenaltiesFollowBlows(m, n);
    PenaltyWindow(m.start, b, n, P1);
    PenaltyWindow(m.start, b, n, P2);
    AttestedChance(b.state, pair, tape, m.turns[n].events[i]);
  }

  lemma KnownIsSane(start: MatchState, b: Run, n: nat)
    requires Known(start, b, n)
    ensures Inv(b.state) && SameFaces(start, b.state)
  {
  }

  /** The chance of an attested entry, in its plain form. */
  lemma AttestedChance(s: MatchState, pair: seq<TurnInput>, tape: Tape, e: Event)
    requires |pair| == 2 && Attests(s, pair, tape, e) && e.detail != InsufficientStamina
    requires var f := s.SlotOf(e.player);
             Odds.Ready(Footing(s, pair, tape, f).next.p1) && Odds.Ready(Footing(s, pair, tape, f).next.p2)
    ensures var f := s.SlotOf(e.player);
            var mine, theirs := s.Get(f).effects.legs > 0, s.Get(f.Other()).effects.legs > 0;
            var w, opponent := Footing(s, pair, tape, f), InputFor(s, pair, f.Other()).action;
            var actor, defender := Paid(w.next.Get(f), e.action), w.next.Get(f.Other());
            var ctx := Context(false, false, mine, opponent);
            var plain := Odds.Unlimited(actor, defender, e.action, ctx);
            && e.player == s.Get(f).id && e.action == NormalizeAction(InputFor(s, pair, f).action)
            && e.value == (if e.action == Dodge && mine then plain * 80 / 100 else plain)
            && (e.value == Odds.Intended(actor, defender, e.action, ctx, theirs) <==>
                  opponent != Dodge || theirs == mine)
  {
    hide Footing, Odds.Unlimited, Odds.Intended, StaminaCost;
    var f := s.SlotOf(e.player);
    var w, opponent := Footing(s, pair, tape, f), InputFor(s, pair, f.Other()).action;
    var actor, defender := Paid(w.next.Get(f), e.action), w.next.Get(f.Other());
    var ctx := Context(false, false, s.Get(f).effects.legs > 0, opponent);
    assert Odds.Ready(actor) && Odds.Ready(defender);
    ChanceReads(actor, defender, e.action, ContextOf(s.Get(f), opponent), ctx);
    hide Chance, Odds.Ready, Paid;
    Odds.ChanceIsNeverCapped(actor, defender, e.action, ctx);
    Odds.ChanceIsIntendedExactly(actor, defender, e.action, ctx, s.Get(f.Other()).effects.legs > 0);
  }

  lemma ChanceReads(actor: Fighter, defender: Fighter, action: Action, c: Context, d: Context)
    requires c.legs == d.legs && c.opponent == d.opponent
    ensures Chance(actor, defender, action, c) == Chance(actor, defender, action, d)
  {
  }

  /** The stamina given back in a turn is cut exactly when a torso hit landed one or two turns earlier. */
  lemma RegenCutWindow(m: Match, n: nat, s: Slot)
    requires IsFresh(m.start) && m.Played() && n < |m.turns|
    ensures var id, b, w := m.start.Get(s).id, m.runs[n], m.turns[n];
            var cut := Hurting(b.log, id, Torso, n);
            && |w.events| >= 2
            && var e := w.events[|w.events| - (if s == P1 then 2 else 1)];
               var full := Regen(w.next.Get(s).stats.endurance);
               && e.kind == StaminaRestored && e.player == w.next.Get(s).id
               && w.next.Get(s).stamina
                  == Clamp(w.next.Get(s).stamina - e.value + Max(0, if cut then TruncDiv(full * 80, 100) else full),
                           0, STAMINA_MAX)
  {
    hide Play, Known, Hurting, Regen, TruncDiv, Canonical, PenaltiesAreBlows;
    RunIsKnown(m, n);
    TurnOf(m, n);
    PenaltiesFollowBlows(m, n);
    PenaltyWindow(m.start, m.runs[n], n, s);
    PlayRestores(m.runs[n].state, m.Pair(n), m.script[n].tape, s);
    PlayShape(m.runs[n].state, m.Pair(n), m.script[n].tape);
  }

  // ---------- combos ----------

  predicate OffenseIn(log: seq<Event>, id: Id, turn: int) {
    exists i :: 0 <= i < |log| && IsOffense(log[i], id) && log[i].turn == turn
  }

  lemma ComboOf(start: MatchState, b: Run, n: nat, pair: seq<TurnInput>, tape: Tape, s: Slot)
    requires Known(start, b, n) && |pair| == 2
    ensures var log, id, f := Play(b.state, pair, tape).events, start.Get(s).id, b.state.Get(s);
            var action := NormalizeAction(InputFor(b.state, pair, s).action);
            Announced(log, id) <==>
              && Won(log, id, action) && IsOffensive(action)
              && f.stamina - StaminaCost(action, f.stats.endurance) > 30
              && (n == 0 || OffenseIn(b.log, id, n))
  {
    hide Play, Timed, Fold, Won, Announced, StaminaCost, LastOffense, LastTurn, OffenseIn;
    WindowsOf(start, b, n, s);
    OffenseDates(b.log, start.Get(s).id, n);
    InvProper(b.state);
    PlayCombo(b.state, pair, tape, s);
    hide Inv;
  }

  /** From the second turn on a combo means that the fighter landed a blow or a feint in the turn before. On the first
      turn it needs no such thing: `Turn` and `LastOffensiveHitTurn` both start at 0. */
  lemma ComboNeedsFollowUp(m: Match, n: nat, s: Slot)
    requires IsFresh(m.start) && m.Played() && n < |m.turns|
    ensures Canonical(m.runs[n].state, m.script[n].inputs).Some? && |m.Pair(n)| == 2
    ensures var id, b, log := m.start.Get(s).id, m.runs[n], m.turns[n].events;
            var action, f := NormalizeAction(InputFor(b.state, m.Pair(n), s).action), b.state.Get(s);
            Announced(log, id) <==>
              && Won(log, id, action) && IsOffensive(action)
              && f.stamina - StaminaCost(action, f.stats.endurance) > 30
              && (n == 0 || OffenseIn(b.log, id, n))
  {
    hide Play, Known, Won, Announced, StaminaCost, OffenseIn, Canonical;
    RunIsKnown(m, n);
    TurnOf(m, n);
    ComboOf(m.start, m.runs[n], n, m.Pair(n), m.script[n].tape, s);
  }

  /** In a timed log the last offence is in turn `n`, the log's own last turn, exactly when there is one there. */
  lemma OffenseDates(log: seq<Event>, id: Id, n: nat)
    requires Timed(log) && Clock(log) == n
    ensures n > 0 ==> (LastOffense(log, id) == n <==> OffenseIn(log, id, n))
    ensures n == 0 ==> log == [] || LastOffense(log, id) == 0
  {
    hide Timed;
    LastOffenseMeaning(log, id);
    LastOffenseIsLast(log, id);
  }

  lemma {:induction false} LastOffenseIsLast(log: seq<Event>, id: Id)
    requires Timed(log)
    ensures 0 <= LastOffense(log, id) <= Max(0, Clock(log)) && 0 <= Clock(log)
    ensures forall i :: 0 <= i < |log| && IsOffense(log[i], id) ==> log[i].turn <= LastOffense(log, id)
  {
    if log != [] {
      var n := |log| - 1;
      LastOffenseIsLast(log[..n], id);
      forall i | 0 <= i < |log| && IsOffense(log[i], id) ensures log[i].turn <= LastOffense(log, id) {
        TimedOrder(log, i);
        if i < n {
          assert log[i] == log[..n][i];
        }
      }
    }
  }
}
