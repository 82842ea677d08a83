/**
 Who controls a fighter: the per-slot part of internal/matchmaking/service.go. A slot starts in human hands; a
 disconnect, or a second timeout in a row, hands it to the computer for the rest of the match.
 */
module Slots {
  import opened Words
  import opened CombatTypes
  import opened Order
  import opened Rng
  import opened Npc

  const TAKEOVER_STREAK := 2

  /** What waiting for a human's input can end in. */
  datatype Arrival = Command(action: Action, target: Zone, decisionMs: int) | Timeout | Disconnect | Cancel

  datatype Status = ByAction | ByTimeout | ByDisconnect | ByCancel | ByNpc

  datatype Reply = Reply(player: Id, input: TurnInput, status: Status)

  datatype Reason = NoTakeover | AfterTimeout | AfterDisconnect

  /** The mutable part of a slot. */
  datatype Control = Control(npc: bool, streak: nat, gen: Word)

  function Nothing(id: Id): TurnInput { TurnInput(id, NoAction, Torso, 0) }

  /** The reply `waitForTurnInput` sends for a human. */
  function WaitFor(id: Id, arrival: Arrival): Reply {
    match arrival
    case Command(a, z, ms) => Reply(id, TurnInput(id, a, z, ms), ByAction)
    case Timeout => Reply(id, Nothing(id), ByTimeout)
    case Disconnect => Reply(id, Nothing(id), ByDisconnect)
    case Cancel => Reply(id, TurnInput([], NoAction, Head, 0), ByCancel)
  }

  function NormalizeInput(input: TurnInput, id: Id): TurnInput {
    TurnInput(if input.player == [] then id else input.player,
              if input.action.OtherAction? then NoAction else input.action,
              NormalizeZone(input.target), input.decisionMs)
  }

  /** The computer's input, or doing nothing when it has none to offer. */
  function NpcInput(m: MatchState, id: Id, gen: Word): TurnInput {
    match DecideSpec(m, id, gen).0
    case None => Nothing(id)
    case Some(input) => NormalizeInput(input, id)
  }

  function NpcAfter(m: MatchState, id: Id, gen: Word): Word { DecideSpec(m, id, gen).1 }

  /** What one slot contributes to a turn. */
  function SlotTurn(m: MatchState, id: Id, c: Control, arrival: Arrival): (Control, TurnInput) {
    if c.npc then
      (Control(true, 0, NpcAfter(m, id, c.gen)), NormalizeInput(NpcInput(m, id, c.gen), id))
    else match arrival
      case Command(_, _, _) => (c.(streak := 0), NormalizeInput(WaitFor(id, arrival).input, id))
      case Timeout =>
        if c.streak + 1 >= TAKEOVER_STREAK then
          (Control(true, 0, NpcAfter(m, id, c.gen)), NpcInput(m, id, c.gen))
        else (c.(streak := c.streak + 1), Nothing(id))
      case Disconnect => (Control(true, 0, NpcAfter(m, id, c.gen)), NpcInput(m, id, c.gen))
      case Cancel => (c, Nothing(id))
  }

  lemma SlotTurnPlayer(m: MatchState, id: Id, c: Control, arrival: Arrival)
    requires id != []
    ensures SlotTurn(m, id, c, arrival).1.player == id
  {
    hide DecideSpec;
    DecideMeaning(m, id, c.gen);
  }

  // ---------- the takeover automaton over a whole match ----------

  /** The flags after a history of what the human's waits ended in, or would have ended in. */
  function Flags(history: seq<Arrival>): (bool, nat) {
    if history == [] then (false, 0)
    else
      Stepped(Flags(history[..|history| - 1]), history[|history| - 1])
  }

  lemma FlagsSnoc(history: seq<Arrival>, arrival: Arrival)
    ensures Flags(history + [arrival]) == Stepped(Flags(history), arrival)
  {
    assert (history + [arrival])[..|history|] == history;
  }

  lemma {:induction false} FlagsAtRest(history: seq<Arrival>)
    ensures Flags(history).0 ==> Flags(history).1 == 0
  {
    if history != [] {
      FlagsAtRest(history[..|history| - 1]);
    }
  }

  predicate Dropped(history: seq<Arrival>) { exists i :: 0 <= i < |history| && history[i] == Disconnect }

  predicate WentQuiet(history: seq<Arrival>) {
    exists i :: 0 < i < |history| && history[i - 1] == Timeout && history[i] == Timeout
  }

  /** No wait for a human was cancelled; once the computer plays, what the human's wait would have ended in is
      immaterial. */
  predicate Uncancelled(history: seq<Arrival>) {
    forall i :: 0 <= i < |history| && history[i] == Cancel ==> Flags(history[..i]).0
  }

  lemma UncancelledSnoc(history: seq<Arrival>, arrival: Arrival)
    ensures Uncancelled(history + [arrival]) <==> Uncancelled(history) && (arrival == Cancel ==> Flags(history).0)
  {
    hide Flags;
    var longer := history + [arrival];
    assert longer[..|history|] == history;
    forall i | 0 <= i < |history| ensures longer[..i] == history[..i] && longer[i] == history[i] {
    }
    if Uncancelled(longer) && arrival == Cancel {
      assert longer[|history|] == Cancel;
    }
  }

  /** In an uncancelled match the computer is in control exactly when the history holds a disconnect or two timeouts
      in a row; the streak counter only ever tells whether the last wait timed out. */
  lemma {:induction false} TakeoverMeaning(history: seq<Arrival>)
    requires Uncancelled(history)
    ensures Flags(history).0 <==> Dropped(history) || WentQuiet(history)
    ensures Flags(history).1 ==
            if !Flags(history).0 && history != [] && history[|history| - 1] == Timeout then 1 else 0
  {
    if history != [] {
      var n := |history| - 1;
      var before := history[..n];
      assert before + [history[n]] == history;
      UncancelledSnoc(before, history[n]);
      TakeoverMeaning(before);
      Grows(history);
      if history[n] == Timeout && n > 0 && before[n - 1] == Timeout {
        assert history[n - 1] == Timeout;
      }
    }
  }

  /** What one more arrival can add to either pattern. */
  lemma Grows(history: seq<Arrival>)
    requires history != []
    ensures var n := |history| - 1;
            && (Dropped(history) <==> Dropped(history[..n]) || history[n] == Disconnect)
            && (WentQuiet(history) <==>
                  WentQuiet(history[..n]) || (n > 0 && history[n - 1] == Timeout && history[n] == Timeout))
  {
    var n := |history| - 1;
    var before := history[..n];
    assert forall i :: 0 <= i < n ==> before[i] == history[i];
    if Dropped(history) && history[n] != Disconnect {
      var i :| 0 <= i < |history| && history[i] == Disconnect;
      assert before[i] == Disconnect;
    }
    if WentQuiet(history) && !(n > 0 && history[n - 1] == Timeout && history[n] == Timeout) {
      var i :| 0 < i < |history| && history[i - 1] == Timeout && history[i] == Timeout;
      assert before[i - 1] == Timeout && before[i] == Timeout;
    }
    if WentQuiet(before) {
      var i :| 0 < i < |before| && before[i - 1] == Timeout && before[i] == Timeout;
      assert history[i - 1] == Timeout && history[i] == Timeout;
    }
  }

  /** Control never returns to the human. */
  lemma {:induction false} TakeoverIsFinal(history: seq<Arrival>, n: nat)
    requires n <= |history| && Flags(history[..n]).0
    ensures Flags(history).0
  {
    if n == |history| {
      assert history[..n] == history;
    } else {
      assert history[..|history| - 1][..n] == history[..n];
      TakeoverIsFinal(history[..|history| - 1], n);
    }
  }

  function Stepped(flags: (bool, nat), arrival: Arrival): (bool, nat) {
    if flags.0 then (true, 0)
    else match arrival
      case Command(_, _, _) => (false, 0)
      case Timeout => if flags.1 + 1 >= TAKEOVER_STREAK then (true, 0) else (false, flags.1 + 1)
      case Disconnect => (true, 0)
      case Cancel => (false, flags.1)
  }

  /** A slot's fields follow the automaton. */
  lemma FlagsStep(m: MatchState, id: Id, c: Control, arrival: Arrival)
    requires c.npc ==> c.streak == 0
    ensures var next := SlotTurn(m, id, c, arrival).0; (next.npc, next.streak) == Stepped((c.npc, c.streak), arrival)
  {
    hide NpcInput, NpcAfter, NormalizeInput, Nothing, WaitFor;
  }

  // ---------- the slot itself ----------

  class MatchSlot {
    const id: Id
    var npcControlled: bool
    var timeoutStreak: nat
    const npcRng: DeterministicRNG

    constructor (id: Id, npcControlled: bool, seed: Word)
      ensures this.id == id && fresh(npcRng)
      ensures View() == Control(npcControlled, 0, Seeded(seed))
    {
      this.id := id;
      this.npcControlled := npcControlled;
      this.timeoutStreak := 0;
      var generator := new DeterministicRNG(seed);
      this.npcRng := generator;
    }

    ghost function View(): Control
      reads this, npcRng
    {
      Control(npcControlled, timeoutStreak, npcRng.state)
    }

    method DecideInput(m: MatchState) returns (input: TurnInput)
      modifies npcRng
      ensures input == NpcInput(m, id, old(npcRng.state))
      ensures npcRng.state == NpcAfter(m, id, old(npcRng.state))
    {
      hide DecideSpec;
      var decided := Decide(m, id, npcRng);
      if decided.Err? {
        return Nothing(id);
      }
      input := NormalizeInput(decided.value, id);
    }

    /** The computer answers at once; a human's wait is whatever `arrival` says. */
    method Collect(m: MatchState, arrival: Arrival) returns (reply: Reply)
      modifies npcRng
      ensures npcControlled ==>
                && reply == Reply(id, NpcInput(m, id, old(npcRng.state)), ByNpc)
                && npcRng.state == NpcAfter(m, id, old(npcRng.state))
      ensures !npcControlled ==> reply == WaitFor(id, arrival) && npcRng.state == old(npcRng.state)
    {
      if npcControlled {
        var input := DecideInput(m);
        return Reply(id, input, ByNpc);
      }
      reply := WaitFor(id, arrival);
    }

    method ResolveInput(m: MatchState, reply: Reply) returns (input: TurnInput, reason: Reason)
      modifies this, npcRng
      ensures reply.status == ByNpc ==>
                View() == Control(true, 0, old(npcRng.state)) && input == NormalizeInput(reply.input, id)
      ensures reply.status == ByAction ==>
                View() == old(View()).(streak := 0) && input == NormalizeInput(reply.input, id)
      ensures reply.status == ByTimeout && old(timeoutStreak) + 1 < TAKEOVER_STREAK ==>
                && View() == old(View()).(streak := old(timeoutStreak) + 1)
                && input == NormalizeInput(reply.input, id)
      ensures reply.status == ByDisconnect
              || (reply.status == ByTimeout && old(timeoutStreak) + 1 >= TAKEOVER_STREAK) ==>
                && View() == Control(true, 0, NpcAfter(m, id, old(npcRng.state)))
                && input == NpcInput(m, id, old(npcRng.state))
      ensures reply.status == ByCancel ==> View() == old(View()) && input == Nothing(id)
      ensures reason == (if reply.status == ByDisconnect then AfterDisconnect
                         else if reply.status == ByTimeout && old(timeoutStreak) + 1 >= TAKEOVER_STREAK
                         then AfterTimeout else NoTakeover)
    {
      hide DecideSpec;
      reason := NoTakeover;
      input := NormalizeInput(reply.input, id);
      match reply.status {
        case ByNpc =>
          npcControlled := true;
          timeoutStreak := 0;
        case ByAction =>
          timeoutStreak := 0;
        case ByTimeout =>
          timeoutStreak := timeoutStreak + 1;
          if timeoutStreak >= TAKEOVER_STREAK {
            npcControlled := true;
            timeoutStreak := 0;
            input := DecideInput(m);
            reason := AfterTimeout;
          }
        case ByDisconnect =>
          npcControlled := true;
          timeoutStreak := 0;
          input := DecideInput(m);
          reason := AfterDisconnect;
        case ByCancel =>
          input := Nothing(id);
      }
    }
  }

  // ---------- one turn's collection ----------

  predicate Answers(replies: seq<Reply>, id: Id, r: Reply) { r in replies && r.player == id }

  /** `orderTurnResultsBySlot`: the replies put in slot order, whatever order they came in. */
  method OrderReplies(id1: Id, id2: Id, replies: seq<Reply>) returns (ordered: Option<seq<Reply>>)
    ensures ordered.Some? ==>
              && |ordered.value| == 2
              && Answers(replies, id1, ordered.value[0]) && Answers(replies, id2, ordered.value[1])
    ensures ordered.Some? <==>
              && (forall i :: 0 <= i < |replies| ==> replies[i].player != [])
              && (forall i, j :: 0 <= i < j < |replies| ==> replies[i].player != replies[j].player)
              && (exists i :: 0 <= i < |replies| && replies[i].player == id1)
              && (exists i :: 0 <= i < |replies| && replies[i].player == id2)
  {
    var byPlayer: map<Id, Reply> := map[];
    for n := 0 to |replies|
      invariant forall i :: 0 <= i < n ==> replies[i].player != []
      invariant forall i, j :: 0 <= i < j < n ==> replies[i].player != replies[j].player
      invariant forall id :: id in byPlayer ==> Answers(replies[..n], id, byPlayer[id])
      invariant forall i :: 0 <= i < n ==> replies[i].player in byPlayer
    {
      if replies[n].player == [] {
        return None;
      }
      if replies[n].player in byPlayer {
        assert byPlayer[replies[n].player] in replies[..n];
        return None;
      }
      assert replies[..n + 1] == replies[..n] + [replies[n]];
      byPlayer := byPlayer[replies[n].player := replies[n]];
    }
    assert replies[..|replies|] == replies;
    if id1 !in byPlayer || id2 !in byPlayer {
      return None;
    }
    ordered := Some([byPlayer[id1], byPlayer[id2]]);
  }

  /** Two replies from different players are found whichever came first. */
  lemma PairAnswers(replies: seq<Reply>, r1: Reply, r2: Reply, ordered: seq<Reply>)
    requires r1.player != r2.player && |ordered| == 2
    requires replies == [r1, r2] || replies == [r2, r1]
    requires Answers(replies, r1.player, ordered[0]) && Answers(replies, r2.player, ordered[1])
    ensures ordered == [r1, r2]
  {
  }

  /** The replies of a turn in slot order, unless a wait was cancelled. */
  method GatherReplies(m: MatchState, slot1: MatchSlot, slot2: MatchSlot, a1: Arrival, a2: Arrival, swapped: bool)
    returns (r1: Reply, r2: Reply, complete: bool)
    requires slot1 != slot2 && slot1.npcRng != slot2.npcRng
    requires slot1.id != [] && slot2.id != [] && slot1.id != slot2.id
    modifies slot1.npcRng, slot2.npcRng
    ensures complete <==> !(!slot1.npcControlled && a1 == Cancel) && !(!slot2.npcControlled && a2 == Cancel)
    ensures slot1.npcControlled ==>
              && r1 == Reply(slot1.id, NpcInput(m, slot1.id, old(slot1.npcRng.state)), ByNpc)
              && slot1.npcRng.state == NpcAfter(m, slot1.id, old(slot1.npcRng.state))
    ensures !slot1.npcControlled ==> r1 == WaitFor(slot1.id, a1) && slot1.npcRng.state == old(slot1.npcRng.state)
    ensures slot2.npcControlled ==>
              && r2 == Reply(slot2.id, NpcInput(m, slot2.id, old(slot2.npcRng.state)), ByNpc)
              && slot2.npcRng.state == NpcAfter(m, slot2.id, old(slot2.npcRng.state))
    ensures !slot2.npcControlled ==> r2 == WaitFor(slot2.id, a2) && slot2.npcRng.state == old(slot2.npcRng.state)
  {
    hide NpcInput, NpcAfter;
    r1 := slot1.Collect(m, a1);
    r2 := slot2.Collect(m, a2);
    var replies := if swapped then [r2, r1] else [r1, r2];
    if replies[0].status == ByCancel || replies[1].status == ByCancel {
      complete := false;
      return;
    }
    assert replies[if swapped then 1 else 0].player == slot1.id && replies[if swapped then 0 else 1].player == slot2.id;
    var ordered := OrderReplies(slot1.id, slot2.id, replies);
    complete := ordered.Some?;
    if complete {
      PairAnswers(replies, r1, r2, ordered.value);
      r1, r2 := ordered.value[0], ordered.value[1];
    }
  }

  /** A turn's inputs; the order in which the two replies arrive does not matter. */
  method CollectTurnInputs(m: MatchState, slot1: MatchSlot, slot2: MatchSlot, a1: Arrival, a2: Arrival, swapped: bool)
    returns (inputs: Option<seq<TurnInput>>)
    requires slot1 != slot2 && slot1.npcRng != slot2.npcRng
    requires slot1.id != [] && slot2.id != [] && slot1.id != slot2.id
    modifies slot1, slot1.npcRng, slot2, slot2.npcRng
    ensures var c1, c2 := old(slot1.View()), old(slot2.View());
            && (inputs.None? <==> (!c1.npc && a1 == Cancel) || (!c2.npc && a2 == Cancel))
            && (inputs.Some? ==>
                  && inputs.value == [SlotTurn(m, slot1.id, c1, a1).1, SlotTurn(m, slot2.id, c2, a2).1]
                  && slot1.View() == SlotTurn(m, slot1.id, c1, a1).0
                  && slot2.View() == SlotTurn(m, slot2.id, c2, a2).0)
  {
    hide NpcInput, NpcAfter, NormalizeInput;
    var r1, r2, complete := GatherReplies(m, slot1, slot2, a1, a2, swapped);
    if !complete {
      return None;
    }
    NormalizeNothing(slot1.id);
    NormalizeNothing(slot2.id);
    var input1, reason1 := slot1.ResolveInput(m, r1);
    var input2, reason2 := slot2.ResolveInput(m, r2);
    inputs := Some([input1, input2]);
  }

  lemma NormalizeNothing(id: Id)
    ensures NormalizeInput(Nothing(id), id) == Nothing(id)
  {
  }
}
