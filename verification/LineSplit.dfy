/**
 Reading lines: splitCRLF of cmd/server/ssh_server.go, driven the way a bufio.Scanner drives its split function. A
 line ends at CR, LF or CR LF; where the reads cut the input must not matter.
 */
module LineSplit {
  import opened Words
  import opened CombatTypes

  const LF: Byte := 10
  const CR: Byte := 13

  predicate Ends(b: Byte) {
    b == LF || b == CR
  }

  predicate Unbroken(s: seq<Byte>) {
    forall i :: 0 <= i < |s| ==> !Ends(s[i])
  }

  /** One call: the bytes to skip, and the token, if any. */
  method SplitCRLF(data: seq<Byte>, atEOF: bool) returns (advance: nat, token: Option<seq<Byte>>)
    ensures advance <= |data|
    ensures Unbroken(data) ==>
              if atEOF && data != [] then advance == |data| && token == Some(data) else advance == 0 && token == None
    ensures !Unbroken(data) ==>
              && token.Some? && Unbroken(token.value)
              && token.value < data && |token.value| < advance
              && token.value + Terminator(data[|token.value|..]) == data[..advance]
    ensures token.Some? && |token.value| < |data| ==>
              var n := |token.value|;
              && token.value == data[..n] && (forall i :: 0 <= i < n ==> data[i] != 10 && data[i] != 13)
              && (data[n] == 10 || data[n] == 13)
              && advance == n + if data[n] == 13 && n + 1 < |data| && data[n + 1] == 10 then 2 else 1
  {
    if atEOF && |data| == 0 {
      return 0, None;
    }
    var i := 0;
    while i < |data|
      invariant 0 <= i <= |data| && Unbroken(data[..i])
    {
      if !Ends(data[i]) {
        i := i + 1;
        continue;
      }
      advance := i + 1;
      if data[i] == CR && i + 1 < |data| && data[i + 1] == LF {
        advance := advance + 1;
      }
      token := Some(data[..i]);
      return;
    }
    if atEOF {
      return |data|, Some(data);
    }
    return 0, None;
  }

  /** The line ending that `s` starts with. */
  function Terminator(s: seq<Byte>): seq<Byte> {
    if s == [] || !Ends(s[0]) then []
    else if s[0] == CR && |s| > 1 && s[1] == LF then s[..2]
    else s[..1]
  }

  // ---------- what lines are ----------

  function Flatten(parts: seq<seq<Byte>>): seq<Byte> {
    if parts == [] then [] else parts[0] + Flatten(parts[1..])
  }

  function NonEmpty(tokens: seq<seq<Byte>>): seq<seq<Byte>> {
    if tokens == [] then []
    else
      var n := |tokens| - 1;
      NonEmpty(tokens[..n]) + if tokens[n] == [] then [] else [tokens[n]]
  }

  /** The length of the plain text `s` starts with. */
  function Width(s: seq<Byte>): (n: nat)
    ensures n <= |s| && Unbroken(s[..n]) && (n < |s| ==> Ends(s[n]))
  {
    if s == [] || Ends(s[0]) then 0
    else
      var n := 1 + Width(s[1..]);
      assert forall i :: 0 < i < n ==> s[..n][i] == s[1..][..n - 1][i - 1];
      n
  }

  /** Where the maximal runs of plain bytes lie in `s[from..]`, in order. */
  function Spans(s: seq<Byte>, from: nat): seq<(nat, nat)>
    requires from <= |s|
    decreases |s| - from
  {
    var n := Width(s[from..]);
    if from == |s| then []
    else if n == 0 then Spans(s, from + 1)
    else [(from, from + n)] + Spans(s, from + n)
  }

  function Runs(s: seq<Byte>): seq<seq<Byte>> {
    if s == [] then []
    else
      var n := Width(s);
      if n == 0 then Runs(s[1..]) else [s[..n]] + Runs(s[n..])
  }

  /** A stretch of plain bytes that cannot be made longer on either side. */
  predicate Maximal(s: seq<Byte>, lo: nat, hi: nat) {
    && lo < hi <= |s| && (forall i :: lo <= i < hi ==> !Ends(s[i]))
    && (lo == 0 || Ends(s[lo - 1]))
    && (hi == |s| || Ends(s[hi]))
  }

  /** `spans` lists every maximal stretch from `from` on, once and from left to right. */
  ghost predicate Lists(s: seq<Byte>, from: nat, spans: seq<(nat, nat)>) {
    && (forall lo: nat, hi: nat :: (lo, hi) in spans <==> from <= lo && Maximal(s, lo, hi))
    && (forall i, j :: 0 <= i < j < |spans| ==> spans[i].1 <= spans[j].0)
  }

  lemma {:induction false} SpansAreMaximal(s: seq<Byte>, from: nat)
    requires from <= |s|
    requires from == 0 || from == |s| || Ends(s[from - 1]) || Ends(s[from])
    ensures Lists(s, from, Spans(s, from))
    decreases |s| - from
  {
    hide Spans, Lists, Width, Unbroken, Ends;
    SpansStep(s, from);
    if from < |s| {
      var n := Width(s[from..]);
      WidthAt(s, from);
      if n == 0 {
        SpansAreMaximal(s, from + 1);
        NoSpanHere(s, from, Spans(s, from + 1));
      } else {
        SpansAreMaximal(s, from + n);
        SpanInFront(s, from, n, Spans(s, from + n));
      }
    } else {
      NoSpanAtEnd(s);
    }
  }

  lemma SpansStep(s: seq<Byte>, from: nat)
    requires from <= |s|
    ensures var n := Width(s[from..]);
            Spans(s, from) == if from == |s| then [] else if n == 0 then Spans(s, from + 1)
                              else [(from, from + n)] + Spans(s, from + n)
  {
    hide Width;
  }

  lemma NoSpanAtEnd(s: seq<Byte>)
    ensures Lists(s, |s|, [])
  {
  }

  lemma WidthAt(s: seq<Byte>, from: nat)
    requires from < |s|
    ensures var n := Width(s[from..]);
            && from + n <= |s| && (forall i :: from <= i < from + n ==> !Ends(s[i]))
            && (from + n < |s| ==> Ends(s[from + n]))
  {
    var n := Width(s[from..]);
    assert forall i :: from <= i < from + n ==> s[i] == s[from..][..n][i - from];
    assert n < |s| - from ==> s[from..][n] == s[from + n];
  }

  lemma NoSpanHere(s: seq<Byte>, from: nat, spans: seq<(nat, nat)>)
    requires from < |s| && Ends(s[from]) && Lists(s, from + 1, spans)
    ensures Lists(s, from, spans)
  {
  }

  lemma SpanInFront(s: seq<Byte>, from: nat, n: nat, spans: seq<(nat, nat)>)
    requires n > 0 && from + n <= |s| && (forall i :: from <= i < from + n ==> !Ends(s[i]))
    requires from == 0 || Ends(s[from - 1]) || Ends(s[from])
    requires from + n < |s| ==> Ends(s[from + n])
    requires Lists(s, from + n, spans)
    ensures Lists(s, from, [(from, from + n)] + spans)
  {
    FirstSpan(s, from, n);
    hide Maximal;
    forall i | 0 <= i < |spans| ensures from + n <= spans[i].0 {
      assert spans[i] in spans && spans[i] == (spans[i].0, spans[i].1);
    }
  }

  lemma FirstSpan(s: seq<Byte>, from: nat, n: nat)
    requires n > 0 && from + n <= |s| && (forall i :: from <= i < from + n ==> !Ends(s[i]))
    requires from == 0 || Ends(s[from - 1]) || Ends(s[from])
    requires from + n < |s| ==> Ends(s[from + n])
    ensures forall lo: nat, hi: nat :: Maximal(s, lo, hi) && from <= lo ==>
              (lo, hi) == (from, from + n) || from + n <= lo
    ensures Maximal(s, from, from + n)
  {
  }

  /** The runs are the bytes of the stretches. */
  predicate Slices(s: seq<Byte>, spans: seq<(nat, nat)>, runs: seq<seq<Byte>>) {
    && |runs| == |spans|
    && forall i :: 0 <= i < |spans| ==> spans[i].0 <= spans[i].1 <= |s| && runs[i] == s[spans[i].0..spans[i].1]
  }

  lemma SlicesInFront(s: seq<Byte>, lo: nat, hi: nat, spans: seq<(nat, nat)>, runs: seq<seq<Byte>>)
    requires lo <= hi <= |s| && Slices(s, spans, runs)
    ensures Slices(s, [(lo, hi)] + spans, [s[lo..hi]] + runs)
  {
  }

  lemma {:induction false} RunsAreSpans(s: seq<Byte>, from: nat)
    requires from <= |s|
    ensures Slices(s, Spans(s, from), Runs(s[from..]))
    decreases |s| - from
  {
    if from < |s| {
      var n := Width(s[from..]);
      assert s[from..][1..] == s[from + 1..] && s[from..][n..] == s[from + n..] && s[from..][..n] == s[from..from + n];
      hide Width, Slices;
      if n == 0 {
        RunsAreSpans(s, from + 1);
      } else {
        RunsAreSpans(s, from + n);
        SlicesInFront(s, from, from + n, Spans(s, from + n), Runs(s[from + n..]));
      }
    }
  }

  lemma {:induction false} WidthOf(text: seq<Byte>, rest: seq<Byte>)
    requires Unbroken(text) && (rest != [] ==> Ends(rest[0]))
    ensures Width(text + rest) == |text|
  {
    if text == [] {
      assert text + rest == rest;
    } else {
      assert (text + rest)[1..] == text[1..] + rest;
      WidthOf(text[1..], rest);
    }
  }

  lemma {:induction false} RunsSkip(ending: seq<Byte>, rest: seq<Byte>)
    requires forall i :: 0 <= i < |ending| ==> Ends(ending[i])
    ensures Runs(ending + rest) == Runs(rest)
  {
    if ending == [] {
      assert ending + rest == rest;
    } else {
      assert (ending + rest)[1..] == ending[1..] + rest;
      RunsSkip(ending[1..], rest);
    }
  }

  /** A line and its ending in front of the rest. */
  lemma RunsOfLine(text: seq<Byte>, ending: seq<Byte>, rest: seq<Byte>)
    requires Unbroken(text) && (forall i :: 0 <= i < |ending| ==> Ends(ending[i])) && (ending != [] || rest == [])
    ensures Runs(text + ending + rest) == (if text == [] then [] else [text]) + Runs(rest)
  {
    var tail := ending + rest;
    assert text + ending + rest == text + tail;
    RunsSkip(ending, rest);
    if text == [] {
      assert text + tail == tail;
    } else {
      WidthOf(text, tail);
      assert (text + tail)[..|text|] == text && (text + tail)[|text|..] == tail;
    }
  }

  lemma {:induction false} FlattenSnoc(parts: seq<seq<Byte>>, last: seq<Byte>)
    ensures Flatten(parts + [last]) == Flatten(parts) + last
  {
    if parts == [] {
      assert parts + [last] == [last];
    } else {
      assert (parts + [last])[1..] == parts[1..] + [last];
      FlattenSnoc(parts[1..], last);
    }
  }

  /** What a scanner may hand over for one piece of the input: the piece without its line ending, which only the
      last lacks. */
  predicate Line(piece: seq<Byte>, token: seq<Byte>, last: bool) {
    && token <= piece && Unbroken(token)
    && piece[|token|..] in [[LF], [CR], [CR, LF]] + if last then [[]] else []
  }

  /** One token taken from the data at hand, with `later` still to be read. */
  lemma Consume(tokens: seq<seq<Byte>>, pieces: seq<seq<Byte>>, data: seq<Byte>, later: seq<Byte>, advance: nat,
                token: seq<Byte>)
    requires advance <= |data| && token <= data && Unbroken(token)
    requires if Unbroken(data) then token == data && advance == |data| && later == []
             else |token| < advance && token + Terminator(data[|token|..]) == data[..advance]
    ensures Flatten(pieces + [data[..advance]]) + (data[advance..] + later) == Flatten(pieces) + (data + later)
    ensures NonEmpty(tokens + [token]) + Runs(data[advance..] + later) == NonEmpty(tokens) + Runs(data + later)
    ensures Line(data[..advance], token, Unbroken(data))
  {
    hide Flatten, Runs, NonEmpty, Width;
    var ending, rest := Terminator(data[|token|..]), data[advance..] + later;
    var piece := data[..advance];
    assert data == piece + data[advance..];
    FlattenSnoc(pieces, piece);
    assert Flatten(pieces) + piece + rest == Flatten(pieces) + (data + later);
    assert data + later == token + ending + rest;
    assert piece[|token|..] == ending;
    TerminatorIs(data[|token|..]);
    assert Unbroken(data) ==> rest == [];
    RunsOfLine(token, ending, rest);
    NonEmptySnoc(tokens, token);
  }

  lemma TerminatorIs(s: seq<Byte>)
    ensures Terminator(s) in [[], [LF], [CR], [CR, LF]]
  {
    assert |s| > 0 ==> s[..1] == [s[0]];
    assert |s| > 1 ==> s[..2] == [s[0], s[1]];
  }

  lemma ReadOn(cuts: seq<seq<Byte>>, next: nat)
    requires next < |cuts|
    ensures Flatten(cuts[next..]) == cuts[next] + Flatten(cuts[next + 1..])
  {
    assert cuts[next..][1..] == cuts[next + 1..];
  }

  lemma LineMayBeLast(piece: seq<Byte>, token: seq<Byte>)
    requires Line(piece, token, false)
    ensures Line(piece, token, true)
  {
  }

  lemma NothingYet(cuts: seq<seq<Byte>>)
    ensures Flatten(cuts) == Flatten([]) + ([] + Flatten(cuts[0..]))
    ensures Runs(Flatten(cuts)) == NonEmpty([]) + Runs([] + Flatten(cuts[0..]))
  {
    assert cuts[0..] == cuts && [] + Flatten(cuts) == Flatten(cuts);
  }

  lemma NonEmptySnoc(tokens: seq<seq<Byte>>, token: seq<Byte>)
    ensures NonEmpty(tokens + [token]) == NonEmpty(tokens) + if token == [] then [] else [token]
  {
    assert (tokens + [token])[..|tokens|] == tokens;
  }

  /**
   The whole input, cut into reads in any way; `together` says whether the end of file arrives with the last read.
   The tokens come from consecutive pieces that make up the input, each piece being a token and its line ending, and
   without the empty ones they are the maximal plain stretches of the input.
   */
  method Lines(cuts: seq<seq<Byte>>, together: bool) returns (tokens: seq<seq<Byte>>, ghost pieces: seq<seq<Byte>>)
    ensures NonEmpty(tokens) == Runs(Flatten(cuts))
    ensures |pieces| == |tokens| && Flatten(pieces) == Flatten(cuts)
    ensures forall i :: 0 <= i < |tokens| ==> Line(pieces[i], tokens[i], i == |tokens| - 1)
  {
    hide Flatten, Runs, NonEmpty, Line, Terminator;
    var data, next, atEOF := [], 0, false;
    tokens, pieces := [], [];
    NothingYet(cuts);
    while true
      invariant 0 <= next <= |cuts| && (atEOF ==> next == |cuts|)
      invariant Flatten(cuts) == Flatten(pieces) + (data + Flatten(cuts[next..]))
      invariant Runs(Flatten(cuts)) == NonEmpty(tokens) + Runs(data + Flatten(cuts[next..]))
      invariant |pieces| == |tokens|
      invariant forall i :: 0 <= i < |tokens| ==> Line(pieces[i], tokens[i], i == |tokens| - 1 && atEOF && data == [])
      decreases |cuts| - next + (if atEOF then 0 else 1), |data|
    {
      if data != [] || atEOF {
        var advance, token := SplitCRLF(data, atEOF);
        if token.Some? {
          NoMore(cuts, next);
          Consume(tokens, pieces, data, Flatten(cuts[next..]), advance, token.value);
          if !Unbroken(data) {
            LineMayBeLast(data[..advance], token.value);
          }
          tokens, pieces := tokens + [token.value], pieces + [data[..advance]];
          data := data[advance..];
          continue;
        }
        assert data[advance..] == data;
      }
      if atEOF {
        break;
      }
      while next < |cuts| && cuts[next] == []
        invariant 0 <= next <= |cuts|
        invariant Flatten(cuts) == Flatten(pieces) + (data + Flatten(cuts[next..]))
        invariant Runs(Flatten(cuts)) == NonEmpty(tokens) + Runs(data + Flatten(cuts[next..]))
      {
        ReadOn(cuts, next);
        assert Flatten(cuts[next..]) == Flatten(cuts[next + 1..]);
        next := next + 1;
      }
      if next < |cuts| {
        ReadOn(cuts, next);
        assert data + Flatten(cuts[next..]) == data + cuts[next] + Flatten(cuts[next + 1..]);
        data := data + cuts[next];
        next := next + 1;
        atEOF := together && next == |cuts|;
      } else {
        atEOF := true;
      }
      if tokens != [] && atEOF && data == [] {
        LineMayBeLast(pieces[|tokens| - 1], tokens[|tokens| - 1]);
      }
    }
    NoMore(cuts, next);
  }

  lemma NoMore(cuts: seq<seq<Byte>>, next: nat)
    requires next <= |cuts|
    ensures next == |cuts| ==> Flatten(cuts[next..]) == []
    ensures Runs([]) == []
  {
  }
}
