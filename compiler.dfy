/**
  The Mermaid flowchart compiler: a definition tree is turned into
  line-oriented flowchart text, one frame (a `subgraph` body or the top
  level) per graph of the tree, while a mutable context allocates frame
  numbers and records every state under its namespaced node id.

  The pure functions `GraphOut`, `StatesFrom`, `EntryOut`, `NodeOut` and
  `BranchesFrom` thread a snapshot of the context through the tree and
  specify the methods of the same shape further down; the two that walk a
  list carry the text produced so far, as the loops do.
*/
module Compiler {
  import opened Definitions
  import Correlator

  // ---------------------------------------------------------------------
  // Constants and text pieces

  /** The colour of each status. */
  function Fill(s: Correlator.Status): string
  {
    match s
    case Success => "lightgreen"
    case Fail => "lightcoral"
    case NeverRun => "gainsboro"
    case Indeterminate => "grey"
  }

  /** Four statuses, four colours. */
  lemma FillInjective(s1: Correlator.Status, s2: Correlator.Status)
    ensures Fill(s1) == Fill(s2) ==> s1 == s2
  {
    if Fill(s1) == Fill(s2) {
      assert Fill(s1)[0] == Fill(s2)[0] && |Fill(s1)| == |Fill(s2)|;
    }
  }

  const Direction := "TB"

  /**
    The kind of graph a frame renders: the top level, a Parallel branch or
    a Map iterator. `ChoiceFrame` stands for the `'choice'` option of the
    converter's frame-type parameter, which no caller ever passes.
  */
  datatype FrameType = NormalFrame | ParallelFrame | MapFrame | ChoiceFrame

  /** An opening and a closing bracket of a node shape. */
  datatype Brace = Brace(open: string, close: string)

  const Square := Brace("[", "]")
  const Hexagon := Brace("{{", "}}")
  const Stadium := Brace("([", "])")

  /** The shape of the start state of a frame of the given type. */
  function StartBrace(frame: FrameType): Brace
  {
    match frame
    case NormalFrame => Square
    case ParallelFrame => Hexagon
    case ChoiceFrame => Stadium
    case MapFrame => Square
  }

  /** The shape of a state: the start state of its frame, a Choice, or neither. */
  function ShapeBrace(isStart: bool, state: State, frame: FrameType): Brace
  {
    if isStart then (if state.Choice? then Stadium else StartBrace(frame)) else Square
  }

  /**
    The shape depends on the variant only through "is it a Choice": a
    non-start state is square, a start Choice is a stadium, any other start
    state takes its frame's start brace.
  */
  lemma ShapeBraceCases(isStart: bool, state: State, frame: FrameType)
    ensures !isStart ==> ShapeBrace(isStart, state, frame) == Brace("[", "]")
    ensures isStart && state.Choice? ==> ShapeBrace(isStart, state, frame) == Brace("([", "])")
    ensures isStart && !state.Choice? && frame == ParallelFrame ==> ShapeBrace(isStart, state, frame) == Brace("{{", "}}")
    ensures isStart && !state.Choice? && (frame == NormalFrame || frame == MapFrame) ==>
              ShapeBrace(isStart, state, frame) == Brace("[", "]")
  {
  }

  /** Two states that agree on being a Choice get the same shape in the same position. */
  lemma ShapeBraceVariantBlind(isStart: bool, s1: State, s2: State, frame: FrameType)
    requires s1.Choice? == s2.Choice?
    ensures ShapeBrace(isStart, s1, frame) == ShapeBrace(isStart, s2, frame)
  {
  }

  /** The decimal digit `d`. */
  function Digit(d: nat): (c: char)
    requires d < 10
  {
    (('0' as int) + d) as char
  }

  /** The decimal representation of `n`, without leading zeros. */
  function NatToString(n: nat): (s: string)
    ensures |s| >= 1
    ensures forall i :: 0 <= i < |s| ==> '0' <= s[i] <= '9'
  {
    if n < 10 then [Digit(n)] else NatToString(n / 10) + [Digit(n % 10)]
  }

  /** The value of a string of decimal digits, read left to right. */
  function ParseNat(s: string): int
  {
    if s == [] then 0 else ParseNat(s[..|s| - 1]) * 10 + ((s[|s| - 1] as int) - ('0' as int))
  }

  /** Reading the decimal representation of `n` gives back `n`. */
  lemma {:induction false} ParseNatToString(n: nat)
    ensures ParseNat(NatToString(n)) == n
  {
    if n >= 10 {
      ParseNatToString(n / 10);
      var s := NatToString(n);
      assert s[..|s| - 1] == NatToString(n / 10);
    }
  }

  /** The id of the frame with number `n`, as allocated by the context. */
  function FrameName(n: nat): string
  {
    "s" + NatToString(n)
  }

  /** The namespaced node id of a state key within a frame. */
  function NodeId(frame: string, key: string): string
  {
    frame + "-" + key + "_"
  }

  /** The JSON quoting of a state name; names are taken to need no escapes. */
  function Quote(s: string): string
  {
    "\"" + s + "\""
  }

  /** The characters of `s` before its first `-`. */
  function UpToDash(s: string): string
  {
    if s == [] || s[0] == '-' then [] else [s[0]] + UpToDash(s[1..])
  }

  lemma {:induction false} UpToDashOfJoin(a: string, b: string)
    requires forall i :: 0 <= i < |a| ==> a[i] != '-'
    ensures UpToDash(a + "-" + b) == a
  {
    if a != [] {
      UpToDashOfJoin(a[1..], b);
      assert (a + "-" + b)[1..] == a[1..] + "-" + b;
    }
  }

  /** The frame number a node id belongs to, read back from the id. */
  function FrameNumber(id: string): Option<int>
  {
    var f := UpToDash(id);
    if |f| >= 1 && f[0] == 's' then Some(ParseNat(f[1..])) else None
  }

  /** The frame number of a node id is the number of the frame it was made in. */
  lemma FrameNumberOfNodeId(n: nat, key: string)
    ensures FrameNumber(NodeId(FrameName(n), key)) == Some(n)
  {
    var f := FrameName(n);
    assert NodeId(f, key) == f + "-" + (key + "_");
    UpToDashOfJoin(f, key + "_");
    assert f[1..] == NatToString(n);
    ParseNatToString(n);
  }

  /** Frame ids are pairwise distinct, so the context never hands out one twice. */
  lemma FrameNameInjective(m: nat, n: nat)
    ensures FrameName(m) == FrameName(n) ==> m == n
  {
    if FrameName(m) == FrameName(n) {
      assert NatToString(m) == FrameName(m)[1..];
      ParseNatToString(m);
      ParseNatToString(n);
    }
  }

  /** Node ids of different frames never collide, and within a frame they follow the key. */
  lemma NodeIdInjective(m: nat, n: nat, k1: string, k2: string)
    ensures NodeId(FrameName(m), k1) == NodeId(FrameName(n), k2) <==> m == n && k1 == k2
  {
    if NodeId(FrameName(m), k1) == NodeId(FrameName(n), k2) {
      FrameNumberOfNodeId(m, k1);
      FrameNumberOfNodeId(n, k2);
      var p := FrameName(m) + "-";
      var id1 := NodeId(FrameName(m), k1);
      assert id1 == p + k1 + "_";
      assert k1 == id1[|p|..|id1| - 1];
      assert k2 == NodeId(FrameName(n), k2)[|p|..|id1| - 1];
    }
  }

  // ---------------------------------------------------------------------
  // Lines of a frame

  /** The line that draws a state node with the given shape. */
  function ShapeLine(frame: string, key: string, brace: Brace): string
  {
    NodeId(frame, key) + brace.open + Quote(key) + brace.close + "\n"
  }

  /** The edge from one state to another of the same frame. */
  function Edge(frame: string, from: string, to: string): string
  {
    NodeId(frame, from) + " --> " + NodeId(frame, to) + "\n"
  }

  /** A history, when present, is a log the correlator can read. */
  predicate HistoryOk(h: Option<seq<ExecutionEvent>>)
  {
    h.Some? ==> Correlator.Correlatable(h.value)
  }

  /** The colour of a state: the fill of the status of its bare key. */
  function Colour(log: seq<ExecutionEvent>, key: string): string
    requires Correlator.Correlatable(log)
  {
    Fill(Correlator.DetailsOf(log, key).status)
  }

  /** The line that fills a node with a colour. */
  function FillLine(id: string, colour: string): string
  {
    "style " + id + " fill:" + colour + "\n"
  }

  /** The styling line of a state, present only with a history. */
  function StyleLine(h: Option<seq<ExecutionEvent>>, frame: string, key: string): string
    requires HistoryOk(h)
  {
    match h
    case None => ""
    case Some(log) => FillLine(NodeId(frame, key), Colour(log, key))
  }

  /** The edge to the successor, present only when the state names one. */
  function NextLine(frame: string, key: string, next: Option<string>): string
  {
    match next
    case None => ""
    case Some(n) => Edge(frame, key, n)
  }

  /**
    A style line is emitted exactly when a history is present, and its
    colour is the same for a key in every frame.
  */
  lemma StyleLineCases(h: Option<seq<ExecutionEvent>>, f1: string, f2: string, key: string)
    requires HistoryOk(h)
    ensures StyleLine(h, f1, key) == "" <==> h.None?
    ensures h.Some? ==> StyleLine(h, f1, key) == "style " + NodeId(f1, key) + " fill:" + Colour(h.value, key) + "\n"
    ensures h.Some? ==> StyleLine(h, f2, key) == "style " + NodeId(f2, key) + " fill:" + Colour(h.value, key) + "\n"
  {
    if h.Some? {
      assert |StyleLine(h, f1, key)| > 0;
    }
  }

  /** A successor edge is emitted exactly when `Next` is present, with both ends in the frame. */
  lemma NextLineCases(n: nat, key: string, next: Option<string>)
    ensures NextLine(FrameName(n), key, next) == "" <==> next.None?
    ensures next.Some? ==>
              NextLine(FrameName(n), key, next) ==
              NodeId(FrameName(n), key) + " --> " + NodeId(FrameName(n), next.value) + "\n"
    ensures next.Some? ==>
              FrameNumber(NodeId(FrameName(n), key)) == Some(n) &&
              FrameNumber(NodeId(FrameName(n), next.value)) == Some(n)
  {
    if next.Some? {
      assert |NextLine(FrameName(n), key, next)| > 0;
      FrameNumberOfNodeId(n, key);
      FrameNumberOfNodeId(n, next.value);
    }
  }

  lemma PrefixTrans(a: string, b: string, c: string)
    requires a <= b && b <= c
    ensures a <= c
  {
    assert c[..|a|] == c[..|b|][..|a|];
  }

  lemma AppendEmpty(a: string)
    ensures a + "" == a
  {
  }

  /** The header of a subgraph for the state `key`. */
  function SubgraphHead(frame: string, key: string): string
  {
    "subgraph " + NodeId(frame, key) + " [" + Quote(key) + "]\n"
  }

  /** The fixed decoration lines of a Map subgraph. */
  function MapDecoration(frame: string, key: string): string
  {
    "style " + NodeId(frame, key) + " stroke-dasharray: 5 5\n" +
    "click " + NodeId(frame, key) + " callback\t\"tooltip\"\n"
  }

  /** The texts joined with `sep` between consecutive ones. */
  function Join(texts: seq<string>, sep: string): string
  {
    if texts == [] then ""
    else if |texts| == 1 then texts[0]
    else texts[0] + sep + Join(texts[1..], sep)
  }

  // ---------------------------------------------------------------------
  // Choice targets

  /** `s` appended to `acc` unless already there. */
  function Push(acc: seq<string>, s: string): seq<string>
  {
    if s in acc then acc else acc + [s]
  }

  /** The targets pushed one by one, each at most once, in order of first occurrence. */
  function Pushed(xs: seq<string>): seq<string>
  {
    if xs == [] then [] else Push(Pushed(xs[..|xs| - 1]), xs[|xs| - 1])
  }

  /** The `Next` of every rule, in rule order. */
  function RuleTargets(rules: seq<ChoiceRule>): (r: seq<string>)
    ensures |r| == |rules| && forall i :: 0 <= i < |rules| ==> r[i] == rules[i].next
  {
    if rules == [] then [] else RuleTargets(rules[..|rules| - 1]) + [rules[|rules| - 1].next]
  }

  /** The candidate targets of a Choice: every rule's `Next`, then the default when set. */
  function ChoiceTargets(rules: seq<ChoiceRule>, dflt: Option<string>): seq<string>
  {
    RuleTargets(rules) + (match dflt case None => [] case Some(d) => [d])
  }

  /** The targets from position `i` on pushed onto `acc`, one by one. */
  function PushFrom(acc: seq<string>, xs: seq<string>, i: nat): seq<string>
    requires i <= |xs|
    decreases |xs| - i
  {
    if i == |xs| then acc else PushFrom(Push(acc, xs[i]), xs, i + 1)
  }

  /** Pushing the rest of the targets onto the pushed prefix gives the pushed whole. */
  lemma {:induction false} PushFromPushed(xs: seq<string>, i: nat)
    requires i <= |xs|
    ensures PushFrom(Pushed(xs[..i]), xs, i) == Pushed(xs)
    decreases |xs| - i
  {
    if i < |xs| {
      assert xs[..i + 1][..i] == xs[..i];
      PushFromPushed(xs, i + 1);
    } else {
      assert xs[..i] == xs;
    }
  }

  /** The text `acc` followed by one edge from `from` per target from position `i` on. */
  function EdgesFrom(frame: string, from: string, targets: seq<string>, i: nat, acc: string): string
    requires i <= |targets|
    decreases |targets| - i
  {
    if i == |targets| then acc else EdgesFrom(frame, from, targets, i + 1, acc + Edge(frame, from, targets[i]))
  }

  /** The edges a Choice state emits. */
  function ChoiceText(frame: string, key: string, rules: seq<ChoiceRule>, dflt: Option<string>): string
  {
    EdgesFrom(frame, key, Pushed(ChoiceTargets(rules, dflt)), 0, "")
  }

  /** The position of the first occurrence of `x` in `xs`. */
  function FirstIndex(xs: seq<string>, x: string): (k: nat)
    requires x in xs
    ensures k < |xs| && xs[k] == x && x !in xs[..k]
  {
    if xs[0] == x then 0 else FirstIndex(xs[1..], x) + 1
  }

  /** Pushing keeps exactly the elements of the input. */
  lemma {:induction false} PushedElements(xs: seq<string>)
    ensures forall x :: x in Pushed(xs) <==> x in xs
  {
    if xs != [] {
      var init := xs[..|xs| - 1];
      PushedElements(init);
      assert xs == init + [xs[|xs| - 1]];
    }
  }

  /** No target is pushed twice. */
  lemma {:induction false} PushedDistinct(xs: seq<string>)
    ensures forall i, j :: 0 <= i < j < |Pushed(xs)| ==> Pushed(xs)[i] != Pushed(xs)[j]
  {
    if xs != [] {
      PushedDistinct(xs[..|xs| - 1]);
    }
  }

  lemma FirstIndexOfPrefix(xs: seq<string>, n: nat, x: string)
    requires n <= |xs| && x in xs[..n]
    ensures x in xs && FirstIndex(xs, x) == FirstIndex(xs[..n], x)
  {
    var k := FirstIndex(xs[..n], x);
    assert xs[k] == x;
    assert xs[..n][..k] == xs[..k];
  }

  /** The pushed targets appear in the order of their first occurrence in the input. */
  lemma {:induction false} PushedFirstOrder(xs: seq<string>)
    ensures forall i, j :: 0 <= i < j < |Pushed(xs)| ==>
              Pushed(xs)[i] in xs && Pushed(xs)[j] in xs &&
              FirstIndex(xs, Pushed(xs)[i]) < FirstIndex(xs, Pushed(xs)[j])
  {
    if xs == [] {
      assert Pushed(xs) == [];
    } else {
      var n := |xs| - 1;
      var init := xs[..n];
      PushedFirstOrder(init);
      PushedElements(init);
      PushedElements(xs);
      var p := Pushed(init);
      forall i, j | 0 <= i < j < |Pushed(xs)|
        ensures Pushed(xs)[i] in xs && Pushed(xs)[j] in xs &&
                FirstIndex(xs, Pushed(xs)[i]) < FirstIndex(xs, Pushed(xs)[j])
      {
        assert Pushed(xs)[i] == p[i];
        FirstIndexOfPrefix(xs, n, p[i]);
        if j < |p| {
          assert Pushed(xs)[j] == p[j];
          FirstIndexOfPrefix(xs, n, p[j]);
        } else {
          assert Pushed(xs)[j] == xs[n] && xs[n] !in init;
          assert FirstIndex(xs, xs[n]) == n;
        }
      }
    }
  }

  /** Rules `[B, C, B]` with default `D` give edges to B, C and D, in that order. */
  lemma ChoiceTargetsExample()
    ensures Pushed(ChoiceTargets([ChoiceRule("B"), ChoiceRule("C"), ChoiceRule("B")], Some("D"))) == ["B", "C", "D"]
  {
    var xs := ChoiceTargets([ChoiceRule("B"), ChoiceRule("C"), ChoiceRule("B")], Some("D"));
    assert xs == ["B", "C", "B", "D"];
    assert xs[..0] == [];
    PushFromPushed(xs, 0);
    assert "B" != "C" && "B" != "D" && "C" != "D";
    assert PushFrom([], xs, 0) == PushFrom(["B"], xs, 1);
    assert PushFrom(["B"], xs, 1) == PushFrom(["B", "C"], xs, 2);
    assert PushFrom(["B", "C"], xs, 2) == PushFrom(["B", "C"], xs, 3);
    assert PushFrom(["B", "C"], xs, 3) == PushFrom(["B", "C", "D"], xs, 4);
  }

  // ---------------------------------------------------------------------
  // Specification of the compiler

  /** A snapshot of the context: the next frame number and the registry. */
  datatype CtxState = CtxState(id: nat, states: map<string, State>)

  /** The text a conversion emits and the context it leaves. */
  datatype Out = Out(text: string, ctx: CtxState)

  /** The texts of a list of conversions and the context they leave. */
  datatype Outs = Outs(texts: seq<string>, ctx: CtxState)

  /** A whole graph in a fresh frame: the start line, then every state in key order. */
  function GraphOut(h: Option<seq<ExecutionEvent>>, c: CtxState, sf: StepFunction, frameType: FrameType): Out
    requires HistoryOk(h)
    decreases sf, 2, 0
  {
    var frame := FrameName(c.id);
    StatesFrom(h, CtxState(c.id + 1, c.states), sf, frame, frameType, 0, NodeId(frame, sf.startAt) + "\n")
  }

  /**
    One entry of a frame: its id is registered, its node is converted, then
    its shape line, its style line and its successor edge follow.
  */
  function EntryOut(h: Option<seq<ExecutionEvent>>, c: CtxState, sf: StepFunction, frame: string,
                    frameType: FrameType, i: nat): Out
    requires HistoryOk(h) && i < |sf.states|
    decreases sf, 1, |sf.states| - i, 0
  {
    var e := sf.states[i];
    var n := NodeOut(h, CtxState(c.id, c.states[NodeId(frame, e.key) := e.state]), frame, e.key, e.state);
    Out(n.text + ShapeLine(frame, e.key, ShapeBrace(sf.startAt == e.key, e.state, frameType)) +
        StyleLine(h, frame, e.key) + NextLine(frame, e.key, e.state.next), n.ctx)
  }

  /** The text `acc` followed by the entries of `sf` from position `i` on, in the frame `frame`. */
  function StatesFrom(h: Option<seq<ExecutionEvent>>, c: CtxState, sf: StepFunction, frame: string,
                      frameType: FrameType, i: nat, acc: string): Out
    requires HistoryOk(h) && i <= |sf.states|
    decreases sf, 1, |sf.states| - i, 1
  {
    if i == |sf.states| then Out(acc, c)
    else
      var e := EntryOut(h, c, sf, frame, frameType, i);
      StatesFrom(h, e.ctx, sf, frame, frameType, i + 1, acc + e.text)
  }

  /** The node text of one state; Parallel and Map states nest their graphs in new frames. */
  function NodeOut(h: Option<seq<ExecutionEvent>>, c: CtxState, frame: string, key: string, state: State): Out
    requires HistoryOk(h)
    decreases state, 2, 0
  {
    match state
    case Pass(_, _) => Out(ShapeLine(frame, key, Square), c)
    case Task(_, _) => Out(ShapeLine(frame, key, Square), c)
    case Parallel(_, _, branches) =>
      var bs := BranchesFrom(h, c, state, 0, []);
      Out(SubgraphHead(frame, key) + "direction " + Direction + "\n" + Join(bs.texts, "\n") + "\nend\n", bs.ctx)
    case Choice(_, _, rules, dflt) => Out(ChoiceText(frame, key, rules, dflt) + "\n", c)
    case Map(_, _, iter) =>
      var g := GraphOut(h, c, iter, MapFrame);
      Out(SubgraphHead(frame, key) + MapDecoration(frame, key) + "direction " + Direction + "\n" + g.text + "\nend\n",
          g.ctx)
  }

  /**
    The texts `acc` followed by the graphs of the branches of a Parallel
    state from position `j` on, each in a parallel frame.
  */
  function BranchesFrom(h: Option<seq<ExecutionEvent>>, c: CtxState, state: State, j: nat, acc: seq<string>): Outs
    requires HistoryOk(h) && state.Parallel? && j <= |state.branches|
    decreases state, 1, |state.branches| - j
  {
    if j == |state.branches| then Outs(acc, c)
    else
      var g := GraphOut(h, c, state.branches[j], ParallelFrame);
      BranchesFrom(h, g.ctx, state, j + 1, acc + [g.text])
  }

  /** The whole flowchart of a definition, compiled with a fresh context. */
  function MermaidText(h: Option<seq<ExecutionEvent>>, sf: StepFunction): string
    requires HistoryOk(h)
  {
    "flowchart " + Direction + "\n" + GraphOut(h, CtxState(0, map[]), sf, NormalFrame).text
  }

  // ---------------------------------------------------------------------
  // The number of graphs of a definition tree

  function Graphs(sf: StepFunction): nat
    decreases sf, 2, 0
  {
    1 + StatesGraphs(sf, 0)
  }

  function StatesGraphs(sf: StepFunction, i: nat): nat
    requires i <= |sf.states|
    decreases sf, 1, |sf.states| - i
  {
    if i == |sf.states| then 0 else NestedGraphs(sf.states[i].state) + StatesGraphs(sf, i + 1)
  }

  function NestedGraphs(state: State): nat
    decreases state, 2, 0
  {
    match state
    case Parallel(_, _, _) => BranchGraphs(state, 0)
    case Map(_, _, iter) => Graphs(iter)
    case _ => 0
  }

  function BranchGraphs(state: State, j: nat): nat
    requires state.Parallel? && j <= |state.branches|
    decreases state, 1, |state.branches| - j
  {
    if j == |state.branches| then 0 else Graphs(state.branches[j]) + BranchGraphs(state, j + 1)
  }

  /** Every graph of the tree takes exactly one frame number. */
  lemma {:induction false} GraphCountsFrames(h: Option<seq<ExecutionEvent>>, c: CtxState, sf: StepFunction, t: FrameType)
    requires HistoryOk(h)
    ensures GraphOut(h, c, sf, t).ctx.id == c.id + Graphs(sf)
    decreases sf, 2, 0
  {
    StatesCountFrames(h, CtxState(c.id + 1, c.states), sf, FrameName(c.id), t, 0, NodeId(FrameName(c.id), sf.startAt) + "\n");
  }

  lemma {:induction false} StatesCountFrames(h: Option<seq<ExecutionEvent>>, c: CtxState, sf: StepFunction,
                                             frame: string, t: FrameType, i: nat, acc: string)
    requires HistoryOk(h) && i <= |sf.states|
    ensures StatesFrom(h, c, sf, frame, t, i, acc).ctx.id == c.id + StatesGraphs(sf, i)
    decreases sf, 1, |sf.states| - i
  {
    if i < |sf.states| {
      var e := sf.states[i];
      var c1 := CtxState(c.id, c.states[NodeId(frame, e.key) := e.state]);
      NodeCountsFrames(h, c1, frame, e.key, e.state);
      var n := EntryOut(h, c, sf, frame, t, i);
      StatesCountFrames(h, n.ctx, sf, frame, t, i + 1, acc + n.text);
    }
  }

  lemma {:induction false} NodeCountsFrames(h: Option<seq<ExecutionEvent>>, c: CtxState, frame: string, key: string, state: State)
    requires HistoryOk(h)
    ensures NodeOut(h, c, frame, key, state).ctx.id == c.id + NestedGraphs(state)
    decreases state, 2, 0
  {
    match state
    case Parallel(_, _, _) => BranchesCountFrames(h, c, state, 0, []);
    case Map(_, _, iter) => GraphCountsFrames(h, c, iter, MapFrame);
    case _ =>
  }

  lemma {:induction false} BranchesCountFrames(h: Option<seq<ExecutionEvent>>, c: CtxState, state: State, j: nat,
                                               acc: seq<string>)
    requires HistoryOk(h) && state.Parallel? && j <= |state.branches|
    ensures BranchesFrom(h, c, state, j, acc).ctx.id == c.id + BranchGraphs(state, j)
    decreases state, 1, |state.branches| - j
  {
    if j < |state.branches| {
      var g := GraphOut(h, c, state.branches[j], ParallelFrame);
      GraphCountsFrames(h, c, state.branches[j], ParallelFrame);
      BranchesCountFrames(h, g.ctx, state, j + 1, acc + [g.text]);
    }
  }

  /** Each frame opens with the namespaced id of its start state. */
  lemma GraphFirstLine(h: Option<seq<ExecutionEvent>>, c: CtxState, sf: StepFunction, t: FrameType)
    requires HistoryOk(h)
    ensures NodeId(FrameName(c.id), sf.startAt) + "\n" <= GraphOut(h, c, sf, t).text
  {
    StatesExtendAcc(h, CtxState(c.id + 1, c.states), sf, FrameName(c.id), t, 0, NodeId(FrameName(c.id), sf.startAt) + "\n");
  }

  /** The accumulated text is a prefix of the frame's text. */
  lemma {:induction false} StatesExtendAcc(h: Option<seq<ExecutionEvent>>, c: CtxState, sf: StepFunction,
                                           frame: string, t: FrameType, i: nat, acc: string)
    requires HistoryOk(h) && i <= |sf.states|
    ensures acc <= StatesFrom(h, c, sf, frame, t, i, acc).text
    decreases |sf.states| - i
  {
    if i < |sf.states| {
      var e := EntryOut(h, c, sf, frame, t, i);
      var acc' := acc + e.text;
      assert StatesFrom(h, c, sf, frame, t, i, acc) == StatesFrom(h, e.ctx, sf, frame, t, i + 1, acc');
      StatesExtendAcc(h, e.ctx, sf, frame, t, i + 1, acc');
      assert acc <= acc' by { assert acc'[..|acc|] == acc; }
      PrefixTrans(acc, acc', StatesFrom(h, e.ctx, sf, frame, t, i + 1, acc').text);
    }
  }

  /** The flowchart is its header line followed by the text of the top-level frame `s0`. */
  lemma MermaidShape(h: Option<seq<ExecutionEvent>>, sf: StepFunction)
    requires HistoryOk(h)
    ensures "flowchart TB\n" <= MermaidText(h, sf)
    ensures MermaidText(h, sf)[13..] == GraphOut(h, CtxState(0, map[]), sf, NormalFrame).text
    ensures NodeId("s0", sf.startAt) + "\n" <= MermaidText(h, sf)[13..]
  {
    var g := GraphOut(h, CtxState(0, map[]), sf, NormalFrame).text;
    assert MermaidText(h, sf) == "flowchart TB\n" + g;
    assert MermaidText(h, sf)[..13] == "flowchart TB\n";
    assert FrameName(0) == "s0";
    GraphFirstLine(h, CtxState(0, map[]), sf, NormalFrame);
  }

  // ---------------------------------------------------------------------
  // The registry

  /** `id` belongs to a frame numbered in `[lo, hi)`. */
  predicate InFrames(id: string, lo: nat, hi: nat)
  {
    FrameNumber(id).Some? && lo <= FrameNumber(id).value < hi
  }

  /** `c0` and `c1` hold the same entry under `id`, or both hold none. */
  predicate Agree(c0: CtxState, c1: CtxState, id: string)
  {
    (id in c1.states <==> id in c0.states) && (id in c0.states ==> c1.states[id] == c0.states[id])
  }

  /** Every registry entry outside the frames `[lo, hi)` is the same in `c1` as in `c0`. */
  ghost predicate Keeps(c0: CtxState, c1: CtxState, lo: nat, hi: nat)
  {
    forall id :: !InFrames(id, lo, hi) ==> Agree(c0, c1, id)
  }

  /** Every registry entry outside frame `m` and the frames `[lo, hi)` is the same in `c1` as in `c0`. */
  ghost predicate KeepsBut(c0: CtxState, c1: CtxState, m: nat, lo: nat, hi: nat)
  {
    forall id :: !InFrames(id, lo, hi) && !InFrames(id, m, m + 1) ==> Agree(c0, c1, id)
  }

  /** Every registry entry inside the frames `[lo, hi)` is the same in `c1` as in `c0`. */
  ghost predicate SameFrames(c0: CtxState, c1: CtxState, lo: nat, hi: nat)
  {
    forall id :: InFrames(id, lo, hi) ==> Agree(c0, c1, id)
  }

  lemma KeepsWiden(c0: CtxState, c1: CtxState, lo: nat, hi: nat, lo': nat, hi': nat)
    requires Keeps(c0, c1, lo, hi) && lo' <= lo && hi <= hi'
    ensures Keeps(c0, c1, lo', hi')
  {
    forall id | !InFrames(id, lo', hi')
      ensures Agree(c0, c1, id)
    {
      assert !InFrames(id, lo, hi);
    }
  }

  lemma KeepsTrans(c0: CtxState, c1: CtxState, c2: CtxState, lo: nat, hi: nat)
    requires Keeps(c0, c1, lo, hi) && Keeps(c1, c2, lo, hi)
    ensures Keeps(c0, c2, lo, hi)
  {
  }

  lemma KeepsButOfKeeps(c0: CtxState, c1: CtxState, m: nat, lo: nat, hi: nat, lo': nat, hi': nat)
    requires Keeps(c0, c1, lo, hi) && lo' <= lo && hi <= hi'
    ensures KeepsBut(c0, c1, m, lo', hi')
  {
    forall id | !InFrames(id, lo', hi') && !InFrames(id, m, m + 1)
      ensures Agree(c0, c1, id)
    {
      assert !InFrames(id, lo, hi);
    }
  }

  lemma KeepsButWiden(c0: CtxState, c1: CtxState, m: nat, lo: nat, hi: nat, lo': nat, hi': nat)
    requires KeepsBut(c0, c1, m, lo, hi) && lo' <= lo && hi <= hi'
    ensures KeepsBut(c0, c1, m, lo', hi')
  {
    forall id | !InFrames(id, lo', hi') && !InFrames(id, m, m + 1)
      ensures Agree(c0, c1, id)
    {
      assert !InFrames(id, lo, hi);
    }
  }

  lemma KeepsButTrans(c0: CtxState, c1: CtxState, c2: CtxState, m: nat, lo: nat, hi: nat)
    requires KeepsBut(c0, c1, m, lo, hi) && KeepsBut(c1, c2, m, lo, hi)
    ensures KeepsBut(c0, c2, m, lo, hi)
  {
  }

  /** Frames that lie below everything a conversion touches keep their entries. */
  lemma SameFramesOfKeeps(c0: CtxState, c1: CtxState, lo: nat, hi: nat, a: nat, b: nat)
    requires Keeps(c0, c1, lo, hi) && b <= lo
    ensures SameFrames(c0, c1, a, b)
  {
    forall id | InFrames(id, a, b)
      ensures Agree(c0, c1, id)
    {
      assert !InFrames(id, lo, hi);
    }
  }

  lemma SameFramesOfKeepsBut(c0: CtxState, c1: CtxState, m: nat, lo: nat, hi: nat, a: nat, b: nat)
    requires KeepsBut(c0, c1, m, lo, hi) && m < a && b <= lo
    ensures SameFrames(c0, c1, a, b)
  {
    forall id | InFrames(id, a, b)
      ensures Agree(c0, c1, id)
    {
      assert !InFrames(id, lo, hi) && !InFrames(id, m, m + 1);
    }
  }

  lemma SameFramesNarrow(c0: CtxState, c1: CtxState, lo: nat, hi: nat, lo': nat, hi': nat)
    requires SameFrames(c0, c1, lo, hi) && lo <= lo' && hi' <= hi
    ensures SameFrames(c0, c1, lo', hi')
  {
    forall id | InFrames(id, lo', hi')
      ensures Agree(c0, c1, id)
    {
      assert InFrames(id, lo, hi);
    }
  }

  /**
    Converting a graph touches only the frames it allocates: every entry
    outside the `Graphs(sf)` frame numbers from the counter on is kept.
  */
  lemma {:induction false} GraphKeeps(h: Option<seq<ExecutionEvent>>, c: CtxState, sf: StepFunction, t: FrameType)
    requires HistoryOk(h)
    ensures Keeps(c, GraphOut(h, c, sf, t).ctx, c.id, c.id + Graphs(sf))
    decreases sf, 2, 0
  {
    var c' := CtxState(c.id + 1, c.states);
    var acc := NodeId(FrameName(c.id), sf.startAt) + "\n";
    var r := StatesFrom(h, c', sf, FrameName(c.id), t, 0, acc).ctx;
    StatesKeep(h, c', sf, c.id, t, 0, acc);
    forall id | !InFrames(id, c.id, c.id + Graphs(sf))
      ensures Agree(c, r, id)
    {
      assert !InFrames(id, c.id + 1, c.id + 1 + StatesGraphs(sf, 0)) && !InFrames(id, c.id, c.id + 1);
    }
  }

  /**
    The states loop in frame `m` touches only frame `m` and the frames its
    nested graphs allocate from the counter on.
  */
  lemma {:induction false} StatesKeep(h: Option<seq<ExecutionEvent>>, c: CtxState, sf: StepFunction, m: nat,
                                      t: FrameType, i: nat, acc: string)
    requires HistoryOk(h) && i <= |sf.states| && m < c.id
    ensures KeepsBut(c, StatesFrom(h, c, sf, FrameName(m), t, i, acc).ctx, m, c.id, c.id + StatesGraphs(sf, i))
    decreases sf, 1, |sf.states| - i
  {
    if i < |sf.states| {
      var hi := c.id + StatesGraphs(sf, i);
      var e := sf.states[i];
      var c1 := CtxState(c.id, c.states[NodeId(FrameName(m), e.key) := e.state]);
      FrameNumberOfNodeId(m, e.key);
      assert InFrames(NodeId(FrameName(m), e.key), m, m + 1);
      assert KeepsBut(c, c1, m, c.id, hi);
      var n := NodeOut(h, c1, FrameName(m), e.key, e.state);
      NodeKeeps(h, c1, FrameName(m), e.key, e.state);
      NodeCountsFrames(h, c1, FrameName(m), e.key, e.state);
      KeepsButOfKeeps(c1, n.ctx, m, c.id, c.id + NestedGraphs(e.state), c.id, hi);
      var acc' := acc + EntryOut(h, c, sf, FrameName(m), t, i).text;
      StatesKeep(h, n.ctx, sf, m, t, i + 1, acc');
      var r := StatesFrom(h, n.ctx, sf, FrameName(m), t, i + 1, acc').ctx;
      KeepsButWiden(n.ctx, r, m, n.ctx.id, n.ctx.id + StatesGraphs(sf, i + 1), c.id, hi);
      KeepsButTrans(c, c1, n.ctx, m, c.id, hi);
      KeepsButTrans(c, n.ctx, r, m, c.id, hi);
    }
  }

  /** The nested graphs of a node touch only the frames they allocate. */
  lemma {:induction false} NodeKeeps(h: Option<seq<ExecutionEvent>>, c: CtxState, frame: string, key: string, state: State)
    requires HistoryOk(h)
    ensures Keeps(c, NodeOut(h, c, frame, key, state).ctx, c.id, c.id + NestedGraphs(state))
    decreases state, 2, 0
  {
    match state
    case Parallel(_, _, _) => BranchesKeep(h, c, state, 0, []);
    case Map(_, _, iter) => GraphKeeps(h, c, iter, MapFrame);
    case _ =>
  }

  /** The branches from position `j` on touch only the frames they allocate. */
  lemma {:induction false} BranchesKeep(h: Option<seq<ExecutionEvent>>, c: CtxState, state: State, j: nat,
                                        acc: seq<string>)
    requires HistoryOk(h) && state.Parallel? && j <= |state.branches|
    ensures Keeps(c, BranchesFrom(h, c, state, j, acc).ctx, c.id, c.id + BranchGraphs(state, j))
    decreases state, 1, |state.branches| - j
  {
    if j < |state.branches| {
      var hi := c.id + BranchGraphs(state, j);
      var g := GraphOut(h, c, state.branches[j], ParallelFrame);
      GraphKeeps(h, c, state.branches[j], ParallelFrame);
      GraphCountsFrames(h, c, state.branches[j], ParallelFrame);
      BranchesKeep(h, g.ctx, state, j + 1, acc + [g.text]);
      var r := BranchesFrom(h, g.ctx, state, j + 1, acc + [g.text]).ctx;
      KeepsWiden(c, g.ctx, c.id, g.ctx.id, c.id, hi);
      KeepsWiden(g.ctx, r, g.ctx.id, g.ctx.id + BranchGraphs(state, j + 1), c.id, hi);
      KeepsTrans(c, g.ctx, r, c.id, hi);
    }
  }

  /** No entry of `sf` from position `i` on has the key `key`. */
  ghost predicate NotFrom(sf: StepFunction, i: nat, key: string)
  {
    forall j :: i <= j < |sf.states| ==> sf.states[j].key != key
  }

  /**
    The states of a frame from position `i` on end up registered under
    their namespaced ids, and the frame's other ids are left alone.
  */
  lemma {:induction false} StatesRegister(h: Option<seq<ExecutionEvent>>, c: CtxState, sf: StepFunction, m: nat,
                                          t: FrameType, i: nat, acc: string)
    requires HistoryOk(h) && UniqueKeys(sf) && i <= |sf.states| && m < c.id
    ensures var r := StatesFrom(h, c, sf, FrameName(m), t, i, acc).ctx;
            forall j :: i <= j < |sf.states| ==> RegisteredAt(r, m, sf.states[j])
    ensures var r := StatesFrom(h, c, sf, FrameName(m), t, i, acc).ctx;
            forall key :: NotFrom(sf, i, key) ==> Agree(c, r, NodeId(FrameName(m), key))
    decreases |sf.states| - i
  {
    if i < |sf.states| {
      var f := FrameName(m);
      var e := sf.states[i];
      var c1 := CtxState(c.id, c.states[NodeId(f, e.key) := e.state]);
      var n := NodeOut(h, c1, f, e.key, e.state);
      NodeKeeps(h, c1, f, e.key, e.state);
      NodeCountsFrames(h, c1, f, e.key, e.state);
      var acc' := acc + EntryOut(h, c, sf, f, t, i).text;
      StatesRegister(h, n.ctx, sf, m, t, i + 1, acc');
      var r := StatesFrom(h, n.ctx, sf, f, t, i + 1, acc').ctx;
      forall key | true
        ensures Agree(c1, n.ctx, NodeId(f, key))
      {
        FrameNumberOfNodeId(m, key);
        assert !InFrames(NodeId(f, key), c1.id, c1.id + NestedGraphs(e.state));
      }
      assert NotFrom(sf, i + 1, e.key);
      forall key | NotFrom(sf, i, key)
        ensures Agree(c, r, NodeId(f, key))
      {
        NodeIdInjective(m, m, key, e.key);
        assert NotFrom(sf, i + 1, key);
      }
    }
  }

  /** The registry maps the namespaced id of `e` in frame `n` to the state of `e`. */
  predicate RegisteredAt(c: CtxState, n: nat, e: Entry)
  {
    NodeId(FrameName(n), e.key) in c.states && c.states[NodeId(FrameName(n), e.key)] == e.state
  }

  /** After a graph is converted, the registry maps the namespaced id of each of its states to that state. */
  lemma GraphRegisters(h: Option<seq<ExecutionEvent>>, c: CtxState, sf: StepFunction, t: FrameType)
    requires HistoryOk(h) && UniqueKeys(sf)
    ensures var r := GraphOut(h, c, sf, t).ctx;
            forall i :: 0 <= i < |sf.states| ==> RegisteredAt(r, c.id, sf.states[i])
  {
    StatesRegister(h, CtxState(c.id + 1, c.states), sf, c.id, t, 0, NodeId(FrameName(c.id), sf.startAt) + "\n");
  }

  // ---------------------------------------------------------------------
  // The registry of a whole tree

  /** Keys are distinct in every graph of the tree, as the keys of an object are. */
  ghost predicate TreeUnique(sf: StepFunction)
    decreases sf, 1
  {
    UniqueKeys(sf) && forall i :: 0 <= i < |sf.states| ==> NestedUnique(sf.states[i].state)
  }

  ghost predicate NestedUnique(state: State)
    decreases state, 0
  {
    match state
    case Parallel(_, _, branches) => forall j :: 0 <= j < |branches| ==> TreeUnique(branches[j])
    case Map(_, _, iter) => TreeUnique(iter)
    case _ => true
  }

  /**
    Every state of every graph of the tree is registered. The graph itself
    is numbered `n`; its nested graphs are numbered on from `n + 1` in the
    order they are converted: entries in key order, branches in list order,
    each nested graph before the graphs nested in it.
  */
  predicate TreeRegistered(c: CtxState, sf: StepFunction, n: nat)
    decreases sf, 2, 0
  {
    (forall i :: 0 <= i < |sf.states| ==> RegisteredAt(c, n, sf.states[i])) &&
    StatesRegistered(c, sf, n + 1, 0)
  }

  predicate StatesRegistered(c: CtxState, sf: StepFunction, n: nat, i: nat)
    requires i <= |sf.states|
    decreases sf, 1, |sf.states| - i
  {
    i == |sf.states| ||
    (NestedRegistered(c, sf.states[i].state, n) &&
     StatesRegistered(c, sf, n + NestedGraphs(sf.states[i].state), i + 1))
  }

  predicate NestedRegistered(c: CtxState, state: State, n: nat)
    decreases state, 2, 0
  {
    match state
    case Parallel(_, _, _) => BranchesRegistered(c, state, n, 0)
    case Map(_, _, iter) => TreeRegistered(c, iter, n)
    case _ => true
  }

  predicate BranchesRegistered(c: CtxState, state: State, n: nat, j: nat)
    requires state.Parallel? && j <= |state.branches|
    decreases state, 1, |state.branches| - j
  {
    j == |state.branches| ||
    (TreeRegistered(c, state.branches[j], n) &&
     BranchesRegistered(c, state, n + Graphs(state.branches[j]), j + 1))
  }

  /** The registrations of a tree numbered from `n` survive any change outside its frames. */
  lemma {:induction false} TreeStaysRegistered(c0: CtxState, c1: CtxState, sf: StepFunction, n: nat)
    requires TreeRegistered(c0, sf, n) && SameFrames(c0, c1, n, n + Graphs(sf))
    ensures TreeRegistered(c1, sf, n)
    decreases sf, 2, 0
  {
    forall i | 0 <= i < |sf.states|
      ensures RegisteredAt(c1, n, sf.states[i])
    {
      FrameNumberOfNodeId(n, sf.states[i].key);
      assert InFrames(NodeId(FrameName(n), sf.states[i].key), n, n + Graphs(sf));
      assert RegisteredAt(c0, n, sf.states[i]);
    }
    SameFramesNarrow(c0, c1, n, n + Graphs(sf), n + 1, n + 1 + StatesGraphs(sf, 0));
    StatesStayRegistered(c0, c1, sf, n + 1, 0);
  }

  lemma {:induction false} StatesStayRegistered(c0: CtxState, c1: CtxState, sf: StepFunction, n: nat, i: nat)
    requires i <= |sf.states| && StatesRegistered(c0, sf, n, i)
    requires SameFrames(c0, c1, n, n + StatesGraphs(sf, i))
    ensures StatesRegistered(c1, sf, n, i)
    decreases sf, 1, |sf.states| - i
  {
    if i < |sf.states| {
      var s := sf.states[i].state;
      var k := n + NestedGraphs(s);
      SameFramesNarrow(c0, c1, n, n + StatesGraphs(sf, i), n, k);
      NestedStaysRegistered(c0, c1, s, n);
      SameFramesNarrow(c0, c1, n, n + StatesGraphs(sf, i), k, k + StatesGraphs(sf, i + 1));
      StatesStayRegistered(c0, c1, sf, k, i + 1);
    }
  }

  lemma {:induction false} NestedStaysRegistered(c0: CtxState, c1: CtxState, state: State, n: nat)
    requires NestedRegistered(c0, state, n) && SameFrames(c0, c1, n, n + NestedGraphs(state))
    ensures NestedRegistered(c1, state, n)
    decreases state, 2, 0
  {
    match state
    case Parallel(_, _, _) => BranchesStayRegistered(c0, c1, state, n, 0);
    case Map(_, _, iter) => TreeStaysRegistered(c0, c1, iter, n);
    case _ =>
  }

  lemma {:induction false} BranchesStayRegistered(c0: CtxState, c1: CtxState, state: State, n: nat, j: nat)
    requires state.Parallel? && j <= |state.branches| && BranchesRegistered(c0, state, n, j)
    requires SameFrames(c0, c1, n, n + BranchGraphs(state, j))
    ensures BranchesRegistered(c1, state, n, j)
    decreases state, 1, |state.branches| - j
  {
    if j < |state.branches| {
      var b := state.branches[j];
      var k := n + Graphs(b);
      SameFramesNarrow(c0, c1, n, n + BranchGraphs(state, j), n, k);
      TreeStaysRegistered(c0, c1, b, n);
      SameFramesNarrow(c0, c1, n, n + BranchGraphs(state, j), k, k + BranchGraphs(state, j + 1));
      BranchesStayRegistered(c0, c1, state, k, j + 1);
    }
  }

  /**
    With distinct keys in every graph, converting a graph numbered `c.id`
    leaves every state of its whole tree registered under its namespaced id.
  */
  lemma {:induction false} GraphRegistersTree(h: Option<seq<ExecutionEvent>>, c: CtxState, sf: StepFunction, t: FrameType)
    requires HistoryOk(h) && TreeUnique(sf)
    ensures TreeRegistered(GraphOut(h, c, sf, t).ctx, sf, c.id)
    decreases sf, 2, 0
  {
    GraphRegisters(h, c, sf, t);
    StatesRegisterTree(h, CtxState(c.id + 1, c.states), sf, c.id, t, 0, NodeId(FrameName(c.id), sf.startAt) + "\n");
  }

  lemma {:induction false} StatesRegisterTree(h: Option<seq<ExecutionEvent>>, c: CtxState, sf: StepFunction, m: nat,
                                              t: FrameType, i: nat, acc: string)
    requires HistoryOk(h) && TreeUnique(sf) && i <= |sf.states| && m < c.id
    ensures StatesRegistered(StatesFrom(h, c, sf, FrameName(m), t, i, acc).ctx, sf, c.id, i)
    decreases sf, 1, |sf.states| - i
  {
    if i < |sf.states| {
      var e := sf.states[i];
      var c1 := CtxState(c.id, c.states[NodeId(FrameName(m), e.key) := e.state]);
      var n := NodeOut(h, c1, FrameName(m), e.key, e.state);
      NodeRegistersTree(h, c1, FrameName(m), e.key, e.state);
      NodeCountsFrames(h, c1, FrameName(m), e.key, e.state);
      var acc' := acc + EntryOut(h, c, sf, FrameName(m), t, i).text;
      StatesRegisterTree(h, n.ctx, sf, m, t, i + 1, acc');
      var r := StatesFrom(h, n.ctx, sf, FrameName(m), t, i + 1, acc').ctx;
      StatesKeep(h, n.ctx, sf, m, t, i + 1, acc');
      SameFramesOfKeepsBut(n.ctx, r, m, n.ctx.id, n.ctx.id + StatesGraphs(sf, i + 1), c.id, n.ctx.id);
      NestedStaysRegistered(n.ctx, r, e.state, c.id);
    }
  }

  lemma {:induction false} NodeRegistersTree(h: Option<seq<ExecutionEvent>>, c: CtxState, frame: string, key: string,
                                             state: State)
    requires HistoryOk(h) && NestedUnique(state)
    ensures NestedRegistered(NodeOut(h, c, frame, key, state).ctx, state, c.id)
    decreases state, 2, 0
  {
    match state
    case Parallel(_, _, _) => BranchesRegisterTree(h, c, state, 0, []);
    case Map(_, _, iter) => GraphRegistersTree(h, c, iter, MapFrame);
    case _ =>
  }

  lemma {:induction false} BranchesRegisterTree(h: Option<seq<ExecutionEvent>>, c: CtxState, state: State, j: nat,
                                                acc: seq<string>)
    requires HistoryOk(h) && state.Parallel? && NestedUnique(state) && j <= |state.branches|
    ensures BranchesRegistered(BranchesFrom(h, c, state, j, acc).ctx, state, c.id, j)
    decreases state, 1, |state.branches| - j
  {
    if j < |state.branches| {
      var b := state.branches[j];
      var g := GraphOut(h, c, b, ParallelFrame);
      GraphRegistersTree(h, c, b, ParallelFrame);
      GraphCountsFrames(h, c, b, ParallelFrame);
      BranchesRegisterTree(h, g.ctx, state, j + 1, acc + [g.text]);
      var r := BranchesFrom(h, g.ctx, state, j + 1, acc + [g.text]).ctx;
      BranchesKeep(h, g.ctx, state, j + 1, acc + [g.text]);
      SameFramesOfKeeps(g.ctx, r, g.ctx.id, g.ctx.id + BranchGraphs(state, j + 1), c.id, g.ctx.id);
      TreeStaysRegistered(g.ctx, r, b, c.id);
    }
  }

  /**
    A Map state `A` whose iterator holds the Task `X`: `A` is registered in
    the top frame `s0`, and `X` in the iterator's frame `s1`.
  */
  lemma MapRegistryExample()
    ensures var x := Task(None, Some(true));
            var a := Map(None, Some(true), StepFunction("X", [Entry("X", x)]));
            var r := GraphOut(None, CtxState(0, map[]), StepFunction("A", [Entry("A", a)]), NormalFrame).ctx;
            r.id == 2 && "s0-A_" in r.states && r.states["s0-A_"] == a && "s1-X_" in r.states && r.states["s1-X_"] == x
  {
    var x := Task(None, Some(true));
    var inner := StepFunction("X", [Entry("X", x)]);
    var a := Map(None, Some(true), inner);
    var sf := StepFunction("A", [Entry("A", a)]);
    var c := CtxState(0, map[]);
    assert TreeUnique(sf) by {
      assert NestedUnique(a) by { assert TreeUnique(inner); }
    }
    GraphRegistersTree(None, c, sf, NormalFrame);
    GraphCountsFrames(None, c, sf, NormalFrame);
    var r := GraphOut(None, c, sf, NormalFrame).ctx;
    assert RegisteredAt(r, 0, sf.states[0]);
    assert StatesRegistered(r, sf, 1, 0);
    assert NestedRegistered(r, a, 1);
    assert TreeRegistered(r, inner, 1);
    assert RegisteredAt(r, 1, inner.states[0]);
    assert NatToString(0) == "0" && NatToString(1) == "1";
    assert NodeId(FrameName(0), "A") == "s0-A_" && NodeId(FrameName(1), "X") == "s1-X_";
    assert Graphs(sf) == 2 by {
      assert StatesGraphs(inner, 1) == 0 && StatesGraphs(inner, 0) == 0;
      assert Graphs(inner) == 1 && NestedGraphs(a) == 1;
      assert StatesGraphs(sf, 1) == 0 && StatesGraphs(sf, 0) == 1;
    }
  }

  // ---------------------------------------------------------------------
  // The compiler

  /** The mutable state of one compilation: the frame counter, the registry and the optional history. */
  class Context {
    var id: nat
    var states: map<string, State>
    const history: Correlator.History?

    constructor(history: Correlator.History?)
      ensures id == 0 && states == map[] && this.history == history
    {
      id := 0;
      states := map[];
      this.history := history;
    }

    /** The counter and the registry as a value. */
    function Snapshot(): CtxState
      reads this
    {
      CtxState(id, states)
    }

    /** The events of the history, when there is one. */
    function Log(): Option<seq<ExecutionEvent>>
    {
      if history == null then None else Some(history.events)
    }

    /** Hands out the next frame id and advances the counter. */
    method GetId() returns (frame: string)
      modifies this
      ensures frame == FrameName(old(id)) && id == old(id) + 1 && states == old(states)
    {
      frame := FrameName(id);
      id := id + 1;
    }

    /** Records `state` under the namespaced id `nodeId`, replacing any earlier entry. */
    method RegisterState(nodeId: string, state: State)
      modifies this
      ensures states == old(states)[nodeId := state] && id == old(id)
    {
      states := states[nodeId := state];
    }
  }

  /** The flowchart of a definition, compiled with a fresh context that is returned with it. */
  method StepFunctionToMermaid(sf: StepFunction, history: Correlator.History?) returns (flowchart: string, ctx: Context)
    requires history != null ==> Correlator.Correlatable(history.events)
    ensures fresh(ctx) && ctx.history == history
    ensures flowchart == MermaidText(ctx.Log(), sf)
    ensures ctx.Snapshot() == GraphOut(ctx.Log(), CtxState(0, map[]), sf, NormalFrame).ctx
    ensures TreeUnique(sf) ==> TreeRegistered(ctx.Snapshot(), sf, 0)
  {
    ctx := new Context(history);
    var text := ConvertStepFunction(ctx, sf, NormalFrame);
    flowchart := "flowchart " + Direction + "\n" + text;
    if TreeUnique(sf) {
      GraphRegistersTree(ctx.Log(), CtxState(0, map[]), sf, NormalFrame);
    }
  }

  /** Converts one graph in a new frame: the start line, then each state in key order. */
  method ConvertStepFunction(ctx: Context, sf: StepFunction, frameType: FrameType) returns (text: string)
    requires HistoryOk(ctx.Log())
    modifies ctx
    ensures Out(text, ctx.Snapshot()) == GraphOut(ctx.Log(), old(ctx.Snapshot()), sf, frameType)
    decreases sf, 1
  {
    ghost var h := ctx.Log();
    ghost var c0 := ctx.Snapshot();
    var frame := ctx.GetId();
    text := NodeId(frame, sf.startAt) + "\n";
    var i := 0;
    while i < |sf.states|
      invariant i <= |sf.states|
      invariant GraphOut(h, c0, sf, frameType) == StatesFrom(h, ctx.Snapshot(), sf, frame, frameType, i, text)
    {
      var piece := ConvertEntry(ctx, sf, frame, frameType, i);
      text := text + piece;
      i := i + 1;
    }
  }

  /** The body of the loop over a frame's states: converts entry `i`. */
  method ConvertEntry(ctx: Context, sf: StepFunction, frame: string, frameType: FrameType, i: nat) returns (text: string)
    requires HistoryOk(ctx.Log()) && i < |sf.states|
    modifies ctx
    ensures Out(text, ctx.Snapshot()) == EntryOut(ctx.Log(), old(ctx.Snapshot()), sf, frame, frameType, i)
    decreases sf, 0
  {
    var key := sf.states[i].key;
    var state := sf.states[i].state;
    ghost var c0 := ctx.Snapshot();
    ctx.RegisterState(NodeId(frame, key), state);
    assert ctx.Snapshot() == CtxState(c0.id, c0.states[NodeId(frame, key) := state]);
    text := ConvertNode(ctx, frame, key, state);
    var brace := ShapeBrace(sf.startAt == key, state, frameType);
    text := text + ShapeLine(frame, key, brace);
    ghost var shaped := text;
    if ctx.history != null {
      var status := ctx.history.GetStatus(key);
      text := text + FillLine(NodeId(frame, key), Fill(status));
    } else {
      AppendEmpty(shaped);
    }
    ghost var styled := text;
    assert styled == shaped + StyleLine(ctx.Log(), frame, key);
    if state.next.Some? {
      text := text + Edge(frame, key, state.next.value);
    } else {
      AppendEmpty(styled);
    }
  }

  /** Converts the node of one state; Parallel branches and Map iterators get frames of their own. */
  method ConvertNode(ctx: Context, frame: string, key: string, state: State) returns (text: string)
    requires HistoryOk(ctx.Log())
    modifies ctx
    ensures Out(text, ctx.Snapshot()) == NodeOut(ctx.Log(), old(ctx.Snapshot()), frame, key, state)
    decreases state, 0
  {
    match state
    case Pass(_, _) =>
      text := ShapeLine(frame, key, Square);
    case Task(_, _) =>
      text := ShapeLine(frame, key, Square);
    case Parallel(_, _, branches) =>
      ghost var h := ctx.Log();
      ghost var c0 := ctx.Snapshot();
      var texts: seq<string> := [];
      for j := 0 to |branches|
        invariant BranchesFrom(h, c0, state, 0, []) == BranchesFrom(h, ctx.Snapshot(), state, j, texts)
      {
        var t := ConvertStepFunction(ctx, branches[j], ParallelFrame);
        texts := texts + [t];
      }
      text := SubgraphHead(frame, key) + "direction " + Direction + "\n" + Join(texts, "\n") + "\nend\n";
    case Choice(_, _, rules, dflt) =>
      text := ConvertChoice(frame, key, rules, dflt);
      text := text + "\n";
    case Map(_, _, iter) =>
      var inner := ConvertStepFunction(ctx, iter, MapFrame);
      text := SubgraphHead(frame, key) + MapDecoration(frame, key) + "direction " + Direction + "\n" + inner + "\nend\n";
  }

  /** The edges of a Choice state: one per distinct target, rules first, then the default. */
  method ConvertChoice(frame: string, key: string, rules: seq<ChoiceRule>, dflt: Option<string>) returns (text: string)
    ensures text == ChoiceText(frame, key, rules, dflt)
  {
    ghost var targets := ChoiceTargets(rules, dflt);
    assert targets[..0] == [];
    PushFromPushed(targets, 0);
    var possible: seq<string> := [];
    for i := 0 to |rules|
      invariant PushFrom(possible, targets, i) == Pushed(targets)
    {
      var next := rules[i].next;
      if next !in possible {
        possible := possible + [next];
      }
    }
    if dflt.Some? {
      if dflt.value !in possible {
        possible := possible + [dflt.value];
      }
    }
    text := "";
    for i := 0 to |possible|
      invariant EdgesFrom(frame, key, possible, i, text) == ChoiceText(frame, key, rules, dflt)
    {
      text := text + Edge(frame, key, possible[i]);
    }
  }
}
