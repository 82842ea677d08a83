/**
 Whole matches. A match keeps its history: the inputs that arrived in each turn, the rolls the random source would have
 yielded, the snapshot it reported, and what the resolver made of them.
 */
module Runs {
  import opened Words
  import opened CombatTypes
  import opened Rules
  import opened Turn
  import opened Order
  import opened EventLog
  import opened Invariant
  import opened Ledger
  import opened Shape
  import opened Combo

  datatype TurnScript = TurnScript(inputs: seq<TurnInput>, tape: Tape, snapshot: Word)

  datatype Run = Run(state: MatchState, log: seq<Event>)

  /** The resolver refuses a finished match and inputs that have no canonical form. */
  function Resolve(s: MatchState, inputs: seq<TurnInput>, tape: Tape): Option<Work> {
    if s.outcome.finished || Canonical(s, inputs).None? then None
    else Some(Play(s, Canonical(s, inputs).value, tape))
  }

  /** `runs[n]` is the match after n turns, `turns[n]` the turn played from there. */
  datatype Match = Match(start: MatchState, script: seq<TurnScript>, runs: seq<Run>, turns: seq<Work>) {
    /** The n-th turn was resolved, and leads from the n-th run to the next. */
    predicate Turned(n: nat) {
      && n < |script| && |runs| == |script| + 1 && |turns| == |script|
      && Resolve(runs[n].state, script[n].inputs, script[n].tape) == Some(turns[n])
      && runs[n + 1] == Run(turns[n].next.(rng := script[n].snapshot), runs[n].log + turns[n].events)
    }

    ghost predicate Played() {
      && |runs| == |script| + 1 && |turns| == |script|
      && runs[0] == Run(start, [])
      && forall n {:trigger Turned(n)} :: 0 <= n < |script| ==> Turned(n)
    }

    function Last(): Run
      requires runs != []
    {
      runs[|runs| - 1]
    }

    /** The canonical inputs of a turn. */
    function Pair(n: nat): seq<TurnInput>
      requires n < |script| && n < |runs| && Canonical(runs[n].state, script[n].inputs).Some?
    {
      Canonical(runs[n].state, script[n].inputs).value
    }

    /** The same match with one more turn. */
    function And(t: TurnScript): Match
      requires runs != [] && Resolve(Last().state, t.inputs, t.tape).Some?
    {
      var w := Resolve(Last().state, t.inputs, t.tape).value;
      Match(start, script + [t], runs + [Run(w.next.(rng := t.snapshot), Last().log + w.events)], turns + [w])
    }
  }

  function NewMatch(start: MatchState): Match { Match(start, [], [Run(start, [])], []) }

  /** Matches go on for as long as turns resolve. */
  lemma MatchesGrow(m: Match, t: TurnScript)
    requires m.Played() && Resolve(m.Last().state, t.inputs, t.tape).Some?
    ensures m.And(t).Played()
  {
    hide Resolve;
    var v := m.And(t);
    forall n {:trigger v.Turned(n)} | 0 <= n < |v.script| ensures v.Turned(n) {
      assert n < |m.script| ==> m.Turned(n);
    }
  }

  /** The links of a match, one at a time. */
  lemma Linked(m: Match, n: nat)
    requires m.Played() && n < |m.turns|
    ensures Resolve(m.runs[n].state, m.script[n].inputs, m.script[n].tape) == Some(m.turns[n])
    ensures m.runs[n + 1] == Run(m.turns[n].next.(rng := m.script[n].snapshot), m.runs[n].log + m.turns[n].events)
  {
    hide Resolve;
    assert m.Turned(n);
  }

  /** What a played turn is: its inputs had a canonical form, the match was open, and the turn was played from it. */
  lemma TurnOf(m: Match, n: nat)
    requires m.Played() && n < |m.turns|
    ensures !m.runs[n].state.outcome.finished
    ensures Canonical(m.runs[n].state, m.script[n].inputs).Some? && |m.Pair(n)| == 2
    ensures m.turns[n] == Play(m.runs[n].state, m.Pair(n), m.script[n].tape)
    ensures m.runs[n + 1] == Run(m.turns[n].next.(rng := m.script[n].snapshot), m.runs[n].log + m.turns[n].events)
  {
    hide Play, Acceptable, InputOf;
    assert m.Turned(n);
  }

  // ---------- the log accounts for the state ----------

  /** Reading the whole log, after any number of turns of a match from any state, reproduces the state it has
      reached. */
  lemma {:induction false} RunIsSourced(m: Match, n: nat)
    requires ProperIds(m.start) && m.Played() && n < |m.runs|
    ensures Fold(Blank(m.start), m.runs[n].log) == Blank(m.runs[n].state) && ProperIds(m.runs[n].state)
  {
    hide Play, Apply, Canonical;
    if n > 0 {
      RunIsSourced(m, n - 1);
      TurnOf(m, n - 1);
      TurnIsSourced(m.runs[n - 1].state, m.Pair(n - 1), m.script[n - 1].tape);
      FoldConcat(Blank(m.start), m.runs[n - 1].log, m.turns[n - 1].events);
    }
  }

  // ---------- reachable states ----------

  /** A run of a new match, as seen after any number of turns. */
  ghost predicate Sane(start: MatchState, r: Run, turns: nat) {
    && Inv(r.state) && r.state.turn == turns && SameFaces(start, r.state)
    && AllAbout(Blank(start), r.log)
    && Timed(r.log) && Clock(r.log) == turns
    && Rank(r.state.combat) == Min(4, GrapplesSinceBreak(r.log))
  }

  lemma StartIsStart(start: MatchState)
    requires IsFresh(start)
    ensures Start(Blank(start))
  {
  }

  predicate SameFaces(m: MatchState, n: MatchState) { n.p1.id == m.p1.id && n.p2.id == m.p2.id }

  lemma ExplainedAbout(start: MatchState, s: MatchState, e: Event)
    requires s.turn >= 0 && Explained(s, e) && SameFaces(start, s)
    ensures About(Blank(start), e)
  {
  }

  lemma {:induction false} ReachableStates(m: Match, n: nat)
    requires IsFresh(m.start) && m.Played() && n < |m.runs|
    ensures Sane(m.start, m.runs[n], n)
  {
    hide Play, Canonical, Explained, About, GrapplesSinceBreak, Mid;
    if n == 0 {
      FreshSane(m.start);
    } else {
      ReachableStates(m, n - 1);
      TurnOf(m, n - 1);
      TurnIsSane(m.start, m.runs[n - 1], n - 1, m.Pair(n - 1), m.script[n - 1].tape, m.script[n - 1].snapshot);
    }
  }

  /** A sane run whose log accounts for its state. */
  ghost predicate Known(start: MatchState, r: Run, turns: nat) {
    && Start(Blank(start)) && Sane(start, r, turns)
    && Fold(Blank(start), r.log) == Blank(r.state)
  }

  lemma RunIsKnown(m: Match, n: nat)
    requires IsFresh(m.start) && m.Played() && n < |m.runs|
    ensures Known(m.start, m.runs[n], n)
  {
    StartIsStart(m.start);
    ReachableStates(m, n);
    hide Sane, Fold;
    RunIsSourced(m, n);
  }

  lemma FreshSane(start: MatchState)
    requires IsFresh(start)
    ensures Sane(start, Run(start, []), 0)
  {
    FreshInv(start);
  }

  lemma InvIgnoresSnapshot(m: MatchState, snapshot: Word)
    requires Inv(m)
    ensures Inv(m.(rng := snapshot))
  {
  }

  lemma TurnIsSane(start: MatchState, b: Run, n: nat, pair: seq<TurnInput>, tape: Tape, snapshot: Word)
    requires Sane(start, b, n) && |pair| == 2
    ensures var w := Play(b.state, pair, tape);
            Sane(start, Run(w.next.(rng := snapshot), b.log + w.events), n + 1)
  {
    hide Explained, About, GrapplesSinceBreak, Mid, Play;
    var w := Play(b.state, pair, tape);
    TurnKeepsInvariant(b.state, pair, tape);
    InvIgnoresSnapshot(w.next, snapshot);
    InvProper(b.state);
    TurnIsSourced(b.state, pair, tape);
    PlayShape(b.state, pair, tape);
    PlayRung(b.log, b.state, pair, tape);
    TimedConcat(b.log, w.events);
    forall i | 0 <= i < |b.log + w.events| ensures About(Blank(start), (b.log + w.events)[i]) {
      if i >= |b.log| {
        ExplainedAbout(start, b.state, w.events[i - |b.log|]);
      }
    }
  }

  lemma InvProper(m: MatchState)
    requires Inv(m)
    ensures ProperIds(m) && m.combat != Stunned
  {
  }
}
