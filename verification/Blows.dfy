/** What the rulebook says of the blows in a turn: who deals them, and what they bring. */
module Blows {
  import opened CombatTypes
  import opened Rules
  import opened Turn
  import opened Order
  import opened EventLog
  import opened Invariant
  import opened Ledger
  import opened Shape
  import opened ByTheBook
  import B = Rulebook

  // ---------- what follows from a blow ----------

  /** Among these entries there is a penalty for a fighter exactly when there is a blow against that zone. */
  ghost predicate BlowsPenalize(log: seq<Event>) {
    && (forall id :: HasMark(log, id, TorsoPenalty) <==> HasBlow(log, id, Torso))
    && (forall id :: HasMark(log, id, LegsPenalty) <==> HasBlow(log, id, Legs))
  }

  /** Entries that are neither. */
  predicate Harmless(log: seq<Event>) {
    forall e :: e in log ==> e.kind != DamageApplied && e.detail != TorsoPenalty && e.detail != LegsPenalty
  }

  lemma HarmlessPenalizes(log: seq<Event>)
    requires Harmless(log)
    ensures BlowsPenalize(log)
  {
  }

  lemma MarksConcat(a: seq<Event>, b: seq<Event>, id: Id, detail: Detail, zone: Zone)
    ensures HasMark(a + b, id, detail) <==> HasMark(a, id, detail) || HasMark(b, id, detail)
    ensures HasBlow(a + b, id, zone) <==> HasBlow(a, id, zone) || HasBlow(b, id, zone)
  {
    assert forall e :: e in a + b <==> e in a || e in b;
  }

  lemma PenaltiesConcat(a: seq<Event>, b: seq<Event>)
    requires BlowsPenalize(a) && BlowsPenalize(b)
    ensures BlowsPenalize(a + b)
  {
    hide HasMark, HasBlow;
    forall id ensures HasMark(a + b, id, TorsoPenalty) <==> HasBlow(a + b, id, Torso) {
      MarksConcat(a, b, id, TorsoPenalty, Torso);
    }
    forall id ensures HasMark(a + b, id, LegsPenalty) <==> HasBlow(a + b, id, Legs) {
      MarksConcat(a, b, id, LegsPenalty, Legs);
    }
  }

  /** A blow and its penalty. */
  lemma StrikeAndPenalty(m: MatchState, a: Slot, action: Action, zone: Zone, harm: int)
    requires !zone.OtherZone?
    ensures var f, d := m.Get(a), m.Get(a.Other());
            BlowsPenalize([B.Entry(m, DamageApplied, f, d.id, action, zone, harm, DamageDealt)] + B.ZoneLog(m, d, zone))
  {
    var f, d := m.Get(a), m.Get(a.Other());
    var blow, more := B.Entry(m, DamageApplied, f, d.id, action, zone, harm, DamageDealt), B.ZoneLog(m, d, zone);
    var log := [blow] + more;
    assert blow in log && (more != [] ==> more[0] in log);
    forall id ensures HasMark(log, id, TorsoPenalty) <==> HasBlow(log, id, Torso) {
      assert HasBlow(log, id, Torso) <==> id == d.id && zone == Torso;
      assert HasMark(log, id, TorsoPenalty) <==> id == d.id && zone == Torso;
    }
    forall id ensures HasMark(log, id, LegsPenalty) <==> HasBlow(log, id, Legs) {
      assert HasBlow(log, id, Legs) <==> id == d.id && zone == Legs;
      assert HasMark(log, id, LegsPenalty) <==> id == d.id && zone == Legs;
    }
  }

  lemma SideEntries(m: MatchState, f: Fighter, d: Fighter, zone: Zone, lead: int, r1: nat, r2: nat)
    ensures BlowsPenalize(B.StunLog(m, f, d, zone, lead, r1)) && BlowsPenalize(B.ClimbLog(m, f, d))
    ensures BlowsPenalize(B.SubmissionLog(m, f, d, lead, r2)) && BlowsPenalize([])
    ensures BlowsPenalize([B.Entry(m, MatchFinished, f, d.id, NoAction, Head, 0, ByKo)])
  {
    HarmlessPenalizes(B.StunLog(m, f, d, zone, lead, r1));
    HarmlessPenalizes(B.ClimbLog(m, f, d));
    HarmlessPenalizes(B.SubmissionLog(m, f, d, lead, r2));
    HarmlessPenalizes([]);
    HarmlessPenalizes([B.Entry(m, MatchFinished, f, d.id, NoAction, Head, 0, ByKo)]);
    hide BlowsPenalize, B.SubmissionOdds, B.StunOdds;
  }

  lemma BlowPenalizes(m: MatchState, a: Slot, action: Action, zone: Zone, combo: bool, r1: nat, r2: nat)
    requires !zone.OtherZone?
    ensures BlowsPenalize(B.BlowLog(m, a, action, zone, combo, r1, r2))
  {
    hide BlowsPenalize, B.Harm, B.Encouraged, B.Lowered, B.StunLog, B.ClimbLog, B.SubmissionLog, B.ZoneLog, B.Entry;
    var f, d := m.Get(a), m.Get(a.Other());
    var harm := B.Harm(action, f.stats, f.momentum, combo);
    var lead := B.Encouraged(f.momentum, combo) - B.Lowered(d.momentum);
    var first := [B.Entry(m, DamageApplied, f, d.id, action, zone, harm, DamageDealt)] + B.ZoneLog(m, d, zone);
    var stun := B.StunLog(m, f, d, zone, lead, r1);
    var climb := if action == Grapple then B.ClimbLog(m, f, d) + B.SubmissionLog(m, f, d, lead, r2) else [];
    var last := if d.hp <= harm then [B.Entry(m, MatchFinished, f, d.id, NoAction, Head, 0, ByKo)] else [];
    StrikeAndPenalty(m, a, action, zone, harm);
    SideEntries(m, f, d, zone, lead, r1, r2);
    PenaltiesConcat(B.ClimbLog(m, f, d), B.SubmissionLog(m, f, d, lead, r2));
    PenaltiesConcat(first, stun);
    PenaltiesConcat(first + stun, climb);
    PenaltiesConcat(first + stun + climb, last);
  }

  lemma SuccessPenalizes(m: MatchState, f: Slot, action: Action, zone: Zone, left: int, r1: nat, r2: nat)
    requires !zone.OtherZone?
    ensures BlowsPenalize(B.SuccessLog(m, f, action, zone, left, r1, r2))
  {
    hide BlowsPenalize, B.BlowLog, B.Offensive, B.Blow;
    var combo := B.Offensive(action) && m.Get(f).lastHit == m.turn - 1 && left > 30;
    var first := if combo then [B.Entry(m, StatusApplied, m.Get(f), [], action, Head, 0, ComboActive)] else [];
    var escape := [B.Entry(m, StateChanged, m.Get(f), [], NoAction, Head, 0, BreakToNeutral)];
    var rest := if B.Blow(action) then B.BlowLog(m, f, action, zone, combo, r1, r2)
                else if action == Break then escape else [];
    HarmlessPenalizes(first);
    HarmlessPenalizes(escape);
    HarmlessPenalizes([]);
    BlowPenalizes(m, f, action, zone, combo, r1, r2);
    PenaltiesConcat(first, rest);
  }

  lemma ActionPenalizes(s: MatchState, m: MatchState, f: Slot, input: TurnInput, answer: Action,
                        r0: nat, r1: nat, r2: nat)
    ensures BlowsPenalize(B.ActionLog(s, m, f, input, answer, r0, r1, r2))
  {
    hide BlowsPenalize, B.SuccessLog, B.SuccessOdds, B.Price, B.Declared;
    var me, action := m.Get(f), B.Declared(input.action);
    var left := me.stamina - B.Price(action, me.stats.endurance);
    var log := B.ActionLog(s, m, f, input, answer, r0, r1, r2);
    SuccessPenalizes(m, f, action, B.Aim(input.target), left, r1, r2);
    HarmlessPenalizes([]);
    if log != [] {
      HarmlessPenalizes([log[0]]);
      PenaltiesConcat([log[0]], B.SuccessLog(m, f, action, B.Aim(input.target), left, r1, r2));
      assert log == [log[0]] || log == [log[0]] + B.SuccessLog(m, f, action, B.Aim(input.target), left, r1, r2);
    }
  }

  lemma FramePenalizes(s: MatchState, m: MatchState)
    ensures BlowsPenalize([B.Opener(s)]) && BlowsPenalize([B.RestLog(s, m, P1), B.RestLog(s, m, P2)])
  {
    HarmlessPenalizes([B.Opener(s)]);
    HarmlessPenalizes([B.RestLog(s, m, P1), B.RestLog(s, m, P2)]);
    hide BlowsPenalize, B.GivenBack;
  }

  lemma BookPenalizes(s: MatchState, pair: seq<TurnInput>, tape: Tape)
    requires |pair| == 2
    ensures BlowsPenalize(BookLog(s, pair, tape))
  {
    hide BlowsPenalize, B.ActionLog, B.RestLog, B.Opener, Fold, Blank;
    var first, both, k := FirstLog(s, pair, tape), BothLog(s, pair, tape), FirstDraws(s, pair, tape);
    var opener := [B.Opener(s.(turn := s.turn + 1))];
    var a, m := s.SlotOf(pair[0].player), Fold(Blank(s), opener);
    FramePenalizes(s.(turn := s.turn + 1), m);
    ActionPenalizes(s, m, a, pair[0], pair[1].action, tape[0], tape[1], tape[2]);
    PenaltiesConcat(opener, B.ActionLog(s, m, a, pair[0], pair[1].action, tape[0], tape[1], tape[2]));
    var n := Fold(Blank(s), first);
    ActionPenalizes(s, n, a.Other(), pair[1], pair[0].action, tape[k], tape[k + 1], tape[k + 2]);
    PenaltiesConcat(first, B.ActionLog(s, n, a.Other(), pair[1], pair[0].action, tape[k], tape[k + 1], tape[k + 2]));
    var end := Fold(Blank(s), both);
    FramePenalizes(s, end);
    PenaltiesConcat(both, [B.RestLog(s, end, P1), B.RestLog(s, end, P2)]);
  }

  /** In a turn a fighter is penalized on the torso or the legs exactly when it is hit there. */
  lemma TurnPenalizes(s: MatchState, pair: seq<TurnInput>, tape: Tape)
    requires Inv(s) && |pair| == 2
    ensures BlowsPenalize(Play(s, pair, tape).events)
  {
    hide *;
    TurnGoesByTheBook(s, pair, tape);
    BookPenalizes(s, pair, tape);
  }

  // ---------- who deals a blow ----------

  /** The blows among these entries are dealt like this. */
  predicate Dealt(log: seq<Event>, dealer: Id, hit: Id, action: Action, zone: Zone) {
    forall e :: e in log && e.kind == DamageApplied ==>
      e.player == dealer && e.target == hit && e.action == action && e.zone == zone && B.Blow(action)
  }

  /** A blow is dealt to the opponent, with the action and at the zone of the fighter's own input. */
  predicate AsDeclared(s: MatchState, pair: seq<TurnInput>, e: Event)
    requires |pair| == 2
  {
    var f := s.SlotOf(e.player);
    var input := InputFor(s, pair, f);
    && e.player == s.Get(f).id && e.target == s.Get(f.Other()).id
    && e.action == B.Declared(input.action) && e.zone == B.Aim(input.target) && B.Blow(e.action)
  }

  lemma BlowDeals(m: MatchState, f: Slot, action: Action, zone: Zone, combo: bool, r1: nat, r2: nat)
    requires B.Blow(action)
    ensures Dealt(B.BlowLog(m, f, action, zone, combo, r1, r2), m.Get(f).id, m.Get(f.Other()).id, action, zone)
  {
    hide B.Harm, B.Encouraged, B.Lowered, B.StunOdds, B.SubmissionOdds, B.Above;
  }

  /** A success is its combo, if it is one, and what it then brings. */
  function Bonus(m: MatchState, f: Slot, action: Action, combo: bool): seq<Event> {
    if combo then [B.Entry(m, StatusApplied, m.Get(f), [], action, Head, 0, ComboActive)] else []
  }

  function Upshot(m: MatchState, f: Slot, action: Action, zone: Zone, combo: bool, r1: nat, r2: nat): seq<Event> {
    if B.Blow(action) then B.BlowLog(m, f, action, zone, combo, r1, r2)
    else if action == Break then [B.Entry(m, StateChanged, m.Get(f), [], NoAction, Head, 0, BreakToNeutral)]
    else []
  }

  lemma SuccessParts(m: MatchState, f: Slot, action: Action, zone: Zone, left: int, r1: nat, r2: nat)
    returns (combo: bool)
    ensures B.SuccessLog(m, f, action, zone, left, r1, r2)
         == Bonus(m, f, action, combo) + Upshot(m, f, action, zone, combo, r1, r2)
  {
    combo := B.Offensive(action) && m.Get(f).lastHit == m.turn - 1 && left > 30;
    hide B.BlowLog, B.Offensive, B.Blow;
  }

  lemma SuccessDeals(m: MatchState, f: Slot, action: Action, zone: Zone, left: int, r1: nat, r2: nat)
    ensures Dealt(B.SuccessLog(m, f, action, zone, left, r1, r2), m.Get(f).id, m.Get(f.Other()).id, action, zone)
  {
    hide B.BlowLog, B.Blow, B.SuccessLog;
    var combo := SuccessParts(m, f, action, zone, left, r1, r2);
    if B.Blow(action) {
      BlowDeals(m, f, action, zone, combo, r1, r2);
    }
  }

  lemma ActionDeals(s: MatchState, m: MatchState, f: Slot, input: TurnInput, answer: Action, r0: nat, r1: nat, r2: nat)
    ensures Dealt(B.ActionLog(s, m, f, input, answer, r0, r1, r2), m.Get(f).id, m.Get(f.Other()).id,
                  B.Declared(input.action), B.Aim(input.target))
  {
    hide B.SuccessLog, B.SuccessOdds, B.Price;
    var left := m.Get(f).stamina - B.Price(B.Declared(input.action), m.Get(f).stats.endurance);
    SuccessDeals(m, f, B.Declared(input.action), B.Aim(input.target), left, r1, r2);
    hide B.Declared, B.Aim, B.Blow;
  }

  /** The states inside a turn are between the same fighters. */
  lemma SameIds(s: MatchState, log: seq<Event>)
    ensures Fold(Blank(s), log).p1.id == s.p1.id && Fold(Blank(s), log).p2.id == s.p2.id
  {
    FoldKeepsFighters(Blank(s), log);
    hide Fold;
  }

  lemma BookDeals(s: MatchState, pair: seq<TurnInput>, tape: Tape, e: Event)
    requires |pair| == 2 && ProperIds(s) && e in BookLog(s, pair, tape) && e.kind == DamageApplied
    ensures AsDeclared(s, pair, e)
  {
    hide B.ActionLog, Fold, Blank, B.Declared, B.Aim, B.Blow;
    var first, both, k := FirstLog(s, pair, tape), BothLog(s, pair, tape), FirstDraws(s, pair, tape);
    var opener := [B.Opener(s.(turn := s.turn + 1))];
    var a := s.SlotOf(pair[0].player);
    SameIds(s, opener);
    SameIds(s, first);
    ActionDeals(s, Fold(Blank(s), opener), a, pair[0], pair[1].action, tape[0], tape[1], tape[2]);
    ActionDeals(s, Fold(Blank(s), first), a.Other(), pair[1], pair[0].action, tape[k], tape[k + 1], tape[k + 2]);
  }

  /** Every blow of a turn is the one that its dealer's input asks for. */
  lemma BlowsAreAimed(s: MatchState, pair: seq<TurnInput>, tape: Tape, e: Event)
    requires Inv(s) && |pair| == 2 && e in Play(s, pair, tape).events && e.kind == DamageApplied
    ensures AsDeclared(s, pair, e)
  {
    ProperFromInv(s);
    hide *;
    TurnGoesByTheBook(s, pair, tape);
    BookDeals(s, pair, tape, e);
  }

  // ---------- which blows stun ----------

  predicate HasDealt(log: seq<Event>, id: Id) { exists e :: e in log && e.kind == DamageApplied && e.player == id }

  /** The chance to stun of a blow that is struck from here. */
  function BlowOdds(m: MatchState, f: Slot, zone: Zone, combo: bool): int {
    B.StunOdds(zone, m.Get(f.Other()).stamina,
               B.Encouraged(m.Get(f).momentum, combo) - B.Lowered(m.Get(f.Other()).momentum))
  }

  /** What entries say of one fighter's action: whether it deals a blow, whether that stuns, whether it is a combo. */
  predicate Reports(log: seq<Event>, me: Id, hit: Id, dealt: bool, stunned: bool, combo: bool) {
    HasDealt(log, me) == dealt && HasMark(log, hit, StunLanded) == stunned && HasMark(log, me, ComboActive) == combo
  }

  /** The entries of one fighter's action say this of it, and nothing of the other's. */
  predicate Tell(log: seq<Event>, me: Id, hit: Id, dealt: bool, stunned: bool, combo: bool) {
    Reports(log, me, hit, dealt, stunned, combo) && Reports(log, hit, me, false, false, false)
  }

  lemma ReportsConcat(a: seq<Event>, b: seq<Event>, me: Id, hit: Id, d: bool, s: bool, c: bool,
                    e: bool, t: bool, g: bool)
    requires Reports(a, me, hit, d, s, c) && Reports(b, me, hit, e, t, g)
    ensures Reports(a + b, me, hit, d || e, s || t, c || g)
  {
    MarksConcat(a, b, hit, StunLanded, Head);
    MarksConcat(a, b, me, ComboActive, Head);
    hide HasMark;
    assert forall e :: e in a + b <==> e in a || e in b;
  }

  lemma TellConcat(a: seq<Event>, b: seq<Event>, me: Id, hit: Id, d: bool, s: bool, c: bool,
                    e: bool, t: bool, g: bool)
    requires Tell(a, me, hit, d, s, c) && Tell(b, me, hit, e, t, g)
    ensures Tell(a + b, me, hit, d || e, s || t, c || g)
  {
    hide Reports;
    ReportsConcat(a, b, me, hit, d, s, c, e, t, g);
    ReportsConcat(a, b, hit, me, false, false, false, false, false, false);
  }

  lemma CalmTells(log: seq<Event>, me: Id, hit: Id)
    requires forall e :: e in log ==> e.kind != DamageApplied && e.detail != StunLanded && e.detail != ComboActive
    ensures Tell(log, me, hit, false, false, false)
  {
  }

  lemma BlowTells(e: Event, more: seq<Event>, me: Id, hit: Id)
    requires me != hit && e.kind == DamageApplied && e.player == me
    requires forall d :: d in more ==> d.kind != DamageApplied && d.detail != StunLanded && d.detail != ComboActive
    ensures Tell([e] + more, me, hit, true, false, false)
  {
    CalmTells(more, me, hit);
    assert e in [e];
    assert Tell([e], me, hit, true, false, false);
    TellConcat([e], more, me, hit, true, false, false, false, false, false);
  }

  lemma StunTells(m: MatchState, me: Fighter, hit: Fighter, zone: Zone, lead: int, roll: nat)
    requires me.id != hit.id
    ensures Tell(B.StunLog(m, me, hit, zone, lead, roll), me.id, hit.id, false,
                 roll < B.StunOdds(zone, hit.stamina, lead), false)
  {
    hide B.StunOdds;
    var log := B.StunLog(m, me, hit, zone, lead, roll);
    if log != [] {
      assert log[0] in log && Marks(log[0], hit.id, StunLanded);
    }
  }

  lemma ClimbTells(m: MatchState, me: Fighter, hit: Fighter, lead: int, roll: nat)
    ensures Tell(B.ClimbLog(m, me, hit) + B.SubmissionLog(m, me, hit, lead, roll), me.id, hit.id, false, false, false)
  {
    hide B.SubmissionOdds, Tell;
    CalmTells(B.ClimbLog(m, me, hit) + B.SubmissionLog(m, me, hit, lead, roll), me.id, hit.id);
  }

  lemma LandedTells(m: MatchState, f: Slot, action: Action, zone: Zone, combo: bool, r1: nat, r2: nat)
    requires m.p1.id != m.p2.id
    ensures Tell(B.BlowLog(m, f, action, zone, combo, r1, r2), m.Get(f).id, m.Get(f.Other()).id, true,
                 r1 < BlowOdds(m, f, zone, combo), false)
  {
    var me, hit := m.Get(f), m.Get(f.Other());
    var harm := B.Harm(action, me.stats, me.momentum, combo);
    var lead := B.Encouraged(me.momentum, combo) - B.Lowered(hit.momentum);
    hide Tell, B.StunLog, B.StunOdds, B.Harm, B.Encouraged, B.Lowered, B.ClimbLog, B.SubmissionLog;
    var first := [B.Entry(m, DamageApplied, me, hit.id, action, zone, harm, DamageDealt)] + B.ZoneLog(m, hit, zone);
    var stun := B.StunLog(m, me, hit, zone, lead, r1);
    var climb := if action == Grapple then B.ClimbLog(m, me, hit) + B.SubmissionLog(m, me, hit, lead, r2) else [];
    var last := if hit.hp <= harm then [B.Entry(m, MatchFinished, me, hit.id, NoAction, Head, 0, ByKo)] else [];
    var stuns := r1 < B.StunOdds(zone, hit.stamina, lead);
    BlowTells(first[0], B.ZoneLog(m, hit, zone), me.id, hit.id);
    StunTells(m, me, hit, zone, lead, r1);
    ClimbTells(m, me, hit, lead, r2);
    CalmTells([], me.id, hit.id);
    CalmTells(last, me.id, hit.id);
    TellConcat(first, stun, me.id, hit.id, true, false, false, false, stuns, false);
    TellConcat(first + stun, climb, me.id, hit.id, true, stuns, false, false, false, false);
    TellConcat(first + stun + climb, last, me.id, hit.id, true, stuns, false, false, false, false);
  }

  /** A blow that a fighter's action deals stuns exactly when its roll is below the chance. */
  predicate StunsByChance(log: seq<Event>, m: MatchState, f: Slot, zone: Zone, roll: nat) {
    var me, hit := m.Get(f).id, m.Get(f.Other()).id;
    var combo := HasMark(log, me, ComboActive);
    Tell(log, me, hit, HasDealt(log, me), HasDealt(log, me) && roll < BlowOdds(m, f, zone, combo), combo)
  }

  lemma BonusTells(m: MatchState, f: Slot, action: Action, combo: bool)
    requires m.p1.id != m.p2.id
    ensures Tell(Bonus(m, f, action, combo), m.Get(f).id, m.Get(f.Other()).id, false, false, combo)
  {
    if combo {
      assert Bonus(m, f, action, combo)[0] in Bonus(m, f, action, combo);
    }
  }

  lemma UpshotTells(m: MatchState, f: Slot, action: Action, zone: Zone, combo: bool, r1: nat, r2: nat)
    requires m.p1.id != m.p2.id
    ensures Tell(Upshot(m, f, action, zone, combo, r1, r2), m.Get(f).id, m.Get(f.Other()).id, B.Blow(action),
                 B.Blow(action) && r1 < BlowOdds(m, f, zone, combo), false)
  {
    hide Tell, B.BlowLog, BlowOdds, B.Blow;
    if B.Blow(action) {
      LandedTells(m, f, action, zone, combo, r1, r2);
    } else {
      CalmTells(Upshot(m, f, action, zone, combo, r1, r2), m.Get(f).id, m.Get(f.Other()).id);
    }
  }

  lemma SuccessStuns(m: MatchState, f: Slot, action: Action, zone: Zone, left: int, r1: nat, r2: nat)
    requires m.p1.id != m.p2.id
    ensures StunsByChance(B.SuccessLog(m, f, action, zone, left, r1, r2), m, f, zone, r1)
  {
    hide HasMark, HasDealt, BlowOdds, Bonus, Upshot, B.SuccessLog, B.Blow;
    var combo := SuccessParts(m, f, action, zone, left, r1, r2);
    BonusTells(m, f, action, combo);
    UpshotTells(m, f, action, zone, combo, r1, r2);
    TellConcat(Bonus(m, f, action, combo), Upshot(m, f, action, zone, combo, r1, r2), m.Get(f).id, m.Get(f.Other()).id,
               false, false, combo, B.Blow(action), B.Blow(action) && r1 < BlowOdds(m, f, zone, combo), false);
  }

  lemma ActionStuns(s: MatchState, m: MatchState, f: Slot, input: TurnInput, answer: Action, r0: nat, r1: nat, r2: nat)
    requires m.p1.id != m.p2.id
    ensures StunsByChance(B.ActionLog(s, m, f, input, answer, r0, r1, r2), m, f, B.Aim(input.target), r1)
  {
    hide HasMark, HasDealt, BlowOdds, B.SuccessLog, B.SuccessOdds, B.Price, B.Declared, B.Aim;
    var me, hit, action, zone := m.Get(f), m.Get(f.Other()), B.Declared(input.action), B.Aim(input.target);
    var left := me.stamina - B.Price(action, me.stats.endurance);
    var log, success := B.ActionLog(s, m, f, input, answer, r0, r1, r2), B.SuccessLog(m, f, action, zone, left, r1, r2);
    SuccessStuns(m, f, action, zone, left, r1, r2);
    CalmTells([], me.id, hit.id);
    if log != [] {
      CalmTells([log[0]], me.id, hit.id);
      assert log == [log[0]] || log == [log[0]] + success;
      TellConcat([log[0]], success, me.id, hit.id, false, false, false, HasDealt(success, me.id),
                 HasMark(success, hit.id, StunLanded), HasMark(success, me.id, ComboActive));
    }
  }

  lemma BlankOdds(m: MatchState, f: Slot, zone: Zone, combo: bool)
    ensures BlowOdds(Blank(m), f, zone, combo) == BlowOdds(m, f, zone, combo)
  {
    BlankKeepsFigures(m, f);
    BlankKeepsFigures(m, f.Other());
    hide Blank, B.StunOdds, B.Encouraged, B.Lowered;
  }

  /** The stun that an action of `f` from `m`, with this stun roll, brings to this log. */
  predicate StunFollowsRoll(log: seq<Event>, m: MatchState, f: Slot, zone: Zone, roll: nat) {
    var me, hit := m.Get(f).id, m.Get(f.Other()).id;
    HasMark(log, hit, StunLanded) <==>
      HasDealt(log, me) && roll < BlowOdds(m, f, zone, HasMark(log, me, ComboActive))
  }

  /** The action's own entries decide about a log that contains them and says nothing else of the fighter. */
  lemma StunsInLog(a: seq<Event>, own: seq<Event>, b: seq<Event>, m: MatchState, f: Slot, zone: Zone, roll: nat)
    requires StunsByChance(own, m, f, zone, roll)
    requires Reports(a, m.Get(f).id, m.Get(f.Other()).id, false, false, false)
    requires Reports(b, m.Get(f).id, m.Get(f.Other()).id, false, false, false)
    ensures StunFollowsRoll(a + own + b, m, f, zone, roll)
  {
    hide HasMark, HasDealt, BlowOdds;
    var me, hit := m.Get(f).id, m.Get(f.Other()).id;
    var d, s, c := HasDealt(own, me), HasMark(own, hit, StunLanded), HasMark(own, me, ComboActive);
    ReportsConcat(a, own, me, hit, false, false, false, d, s, c);
    ReportsConcat(a + own, b, me, hit, d, s, c, false, false, false);
  }

  lemma BookStuns(s: MatchState, pair: seq<TurnInput>, tape: Tape)
    requires |pair| == 2 && ProperIds(s)
    ensures var a, k := s.SlotOf(pair[0].player), FirstDraws(s, pair, tape);
            var m, n := Fold(Blank(s), [B.Opener(s.(turn := s.turn + 1))]), Fold(Blank(s), FirstLog(s, pair, tape));
            && StunFollowsRoll(BookLog(s, pair, tape), m, a, B.Aim(pair[0].target), tape[1])
            && StunFollowsRoll(BookLog(s, pair, tape), n, a.Other(), B.Aim(pair[1].target), tape[k + 1])
  {
    hide B.ActionLog, Fold, Blank, B.Aim, HasMark, HasDealt, BlowOdds, B.RestLog, StunFollowsRoll, B.Opener, FirstDraws;
    var first, both, k := FirstLog(s, pair, tape), BothLog(s, pair, tape), FirstDraws(s, pair, tape);
    var opener := [B.Opener(s.(turn := s.turn + 1))];
    var a, m, n := s.SlotOf(pair[0].player), Fold(Blank(s), opener), Fold(Blank(s), first);
    SameIds(s, opener);
    SameIds(s, first);
    var one := B.ActionLog(s, m, a, pair[0], pair[1].action, tape[0], tape[1], tape[2]);
    var two := B.ActionLog(s, n, a.Other(), pair[1], pair[0].action, tape[k], tape[k + 1], tape[k + 2]);
    ActionStuns(s, m, a, pair[0], pair[1].action, tape[0], tape[1], tape[2]);
    ActionStuns(s, n, a.Other(), pair[1], pair[0].action, tape[k], tape[k + 1], tape[k + 2]);
    var end := Fold(Blank(s), both);
    var rests := [B.RestLog(s, end, P1), B.RestLog(s, end, P2)];
    FrameTells(s, end, m.Get(a).id, n.Get(a.Other()).id);
    var me, hit := m.Get(a).id, n.Get(a.Other()).id;
    ReportsConcat(two, rests, me, hit, false, false, false, false, false, false);
    ReportsConcat(opener, one, hit, me, false, false, false, false, false, false);
    StunsInLog(opener, one, two + rests, m, a, B.Aim(pair[0].target), tape[1]);
    StunsInLog(first, two, rests, n, a.Other(), B.Aim(pair[1].target), tape[k + 1]);
    assert BookLog(s, pair, tape) == opener + one + (two + rests);
    assert BookLog(s, pair, tape) == first + two + rests;
  }

  lemma FrameTells(s: MatchState, end: MatchState, me: Id, hit: Id)
    ensures Tell([B.Opener(s.(turn := s.turn + 1))], me, hit, false, false, false)
    ensures Tell([B.RestLog(s, end, P1), B.RestLog(s, end, P2)], me, hit, false, false, false)
  {
    hide Tell, B.GivenBack;
    CalmTells([B.Opener(s.(turn := s.turn + 1))], me, hit);
    CalmTells([B.RestLog(s, end, P1), B.RestLog(s, end, P2)], me, hit);
  }

  lemma FootingFollows(s: MatchState, pair: seq<TurnInput>, tape: Tape)
    requires Inv(s) && |pair| == 2
    ensures Fold(Blank(s), [B.Opener(s.(turn := s.turn + 1))]) == Blank(Begin(s).next) && Begin(s).rolls == []
    ensures Fold(Blank(s), FirstLog(s, pair, tape)) == Blank(Opening(s, pair, tape).next)
    ensures |Opening(s, pair, tape).rolls| == FirstDraws(s, pair, tape)
  {
    ProperFromInv(s);
    hide Inv, Fold, Blank, Act, B.Opener, FirstLog, FirstDraws, Sourced, Opening;
    BeginSourced(s);
    SourcedState(Blank(s), Begin(s));
    OpenerFollows(s);
    FirstFollows(s, pair, tape);
    SourcedState(Blank(s), Opening(s, pair, tape));
  }

  lemma BlankStuns(log: seq<Event>, m: MatchState, f: Slot, zone: Zone, roll: nat)
    ensures StunFollowsRoll(log, Blank(m), f, zone, roll) <==> StunFollowsRoll(log, m, f, zone, roll)
  {
    BlankKeepsFigures(m, f);
    BlankKeepsFigures(m, f.Other());
    BlankOdds(m, f, zone, true);
    BlankOdds(m, f, zone, false);
    hide Blank, BlowOdds, HasMark, HasDealt;
  }

  lemma ExchangeStuns(s: MatchState, pair: seq<TurnInput>, tape: Tape)
    requires Inv(s) && |pair| == 2
    ensures |Opening(s, pair, tape).rolls| <= 3
    ensures var a, log, k := s.SlotOf(pair[0].player), Play(s, pair, tape).events, |Opening(s, pair, tape).rolls|;
            && StunFollowsRoll(log, Begin(s).next, a, B.Aim(pair[0].target), tape[1])
            && StunFollowsRoll(log, Opening(s, pair, tape).next, a.Other(), B.Aim(pair[1].target), tape[k + 1])
  {
    ProperFromInv(s);
    var a, k := s.SlotOf(pair[0].player), FirstDraws(s, pair, tape);
    hide *;
    FootingFollows(s, pair, tape);
    TurnGoesByTheBook(s, pair, tape);
    BookStuns(s, pair, tape);
    var log, w := BookLog(s, pair, tape), Opening(s, pair, tape);
    BlankStuns(log, Begin(s).next, a, B.Aim(pair[0].target), tape[1]);
    BlankStuns(log, w.next, a.Other(), B.Aim(pair[1].target), tape[k + 1]);
  }

  /** A fighter is stunned in a turn exactly when it is hit there and the roll after the one that hit is below the
      chance. */
  lemma TurnStuns(s: MatchState, pair: seq<TurnInput>, tape: Tape, f: Slot)
    requires Inv(s) && |pair| == 2
    ensures |Footing(s, pair, tape, f).rolls| <= 3
    ensures var w := Footing(s, pair, tape, f);
            StunFollowsRoll(Play(s, pair, tape).events, w.next, f, B.Aim(InputFor(s, pair, f).target),
                            tape[|w.rolls| + 1])
  {
    hide Inv, Play, StunFollowsRoll, Opening, B.Aim;
    ExchangeStuns(s, pair, tape);
    assert |Begin(s).rolls| == 0;
    hide Begin;
  }
}
