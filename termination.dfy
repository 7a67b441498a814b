/** The search with both corrections applied: an exhausted search answers "goal is
    not reachable", and the agent records the state it leaves on every move, a
    switch included. With these, every game ends: the agent either asks to finish
    or reports the goal unreachable. */
module Termination {
  import opened Maze
  import opened Backtracking
  import opened Exploration

  /** The decision with both reads of an empty stack answered "goal is not reachable". */
  function DecideCorrected(g: Grid, s: Search, possible: seq<Move>): (r: Choice)
    requires Placed(g, s.shadow) && Shaped(s.visited, g) && FramesOk(s.stack)
    ensures r.next == Decide(g, s, possible).next
  {
    var ch := Decide(g, s, possible);
    if ch.decision == StackUnderflow then ch.(decision := GoalUnreachable) else ch
  }

  /** The corrected agent never reads an empty stack, and it reports the goal
      unreachable exactly when the search is exhausted: nothing new in reach at the
      start, or the last frame popped with no alternative left. It then stands on
      the start tile with the switch as it began. */
  lemma {:induction false} CorrectedReportsExhaustion(g: Grid, c0: Config, world: Config, s: Search)
    requires Inv(g, c0, world, s)
    ensures var possible := PossibleMoves(g, world);
      var r := DecideCorrected(g, s, possible);
      r.decision != StackUnderflow &&
      (r.decision == GoalUnreachable <==>
         Finish !in possible &&
         ((s.mode == Forward && s.stack == [] &&
           forall m :: m in possible ==> !ReachesNewState(g, s.visited, world, m)) ||
          (s.mode == Backtrack && |s.stack| == 1 && s.stack[0].others == []))) &&
      (r.decision == GoalUnreachable ==> r.next.stack == [] && world == c0)
  {
    var possible := PossibleMoves(g, world);
    if Finish !in possible && s.mode == Backtrack && |s.stack| == 1 {
      assert s.stack[..0] == [];
    }
    if Finish !in possible && s.mode == Forward &&
       forall m :: m in possible ==> !ReachesNewState(g, s.visited, world, m) {
      NoNewStateMoves(g, s.visited, world, possible);
    }
  }

  /** percept with the state being left recorded on every move, the switch included. */
  function PerceiveCorrected(g: Grid, s: Search, m: Move): (t: Search)
    requires Placed(g, s.shadow) && Shaped(s.visited, g)
    ensures Placed(g, t.shadow) && Shaped(t.visited, g)
    ensures m != Switch ==> t == Perceive(g, s, m)
    ensures m == Switch ==>
      t == Perceive(g, s, m).(visited := Mark(s.visited, s.shadow.pos, s.shadow.passable))
    ensures m != Finish ==> Marked(t.visited, s.shadow.pos, s.shadow.passable)
  {
    if m == Switch then
      s.(visited := Mark(s.visited, s.shadow.pos, s.shadow.passable),
         shadow := Apply(g, s.shadow, Switch).after)
    else Perceive(g, s, m)
  }

  /** One pass of the driver loop with both corrections. */
  function TurnCorrected(g: Grid, world: Config, s: Search): (r: Round)
    requires Placed(g, world) && s.shadow == world && Shaped(s.visited, g) && FramesOk(s.stack)
    ensures Placed(g, r.world) && r.search.shadow == r.world
    ensures Shaped(r.search.visited, g) && FramesOk(r.search.stack)
    ensures r.decision != StackUnderflow
    ensures r.decision.Go? ==>
      r.world == Apply(g, world, r.decision.move).after &&
      r.search == PerceiveCorrected(g, DecideCorrected(g, s, PossibleMoves(g, world)).next, r.decision.move)
    ensures !r.decision.Go? ==> r.world == world
  {
    var ch := DecideCorrected(g, s, PossibleMoves(g, world));
    match ch.decision
    case Go(m) => Round(ch.decision, Apply(g, world, m).after, PerceiveCorrected(g, ch.next, m))
    case _ => Round(ch.decision, world, ch.next)
  }

  /** The states (tile and switch position) the agent has not recorded. */
  function Unrecorded(v: Visited): set<(int, int, Color)> {
    set i, j, c | 0 <= i < |v| && 0 <= j < |v[i]| && c in [Red, Green] && c !in v[i][j] :: (i, j, c)
  }

  /** Recording a state removes exactly that state from the unrecorded ones. */
  lemma MarkRecords(v: Visited, p: Pos, c: Color)
    requires 0 <= p.0 < |v| && 0 <= p.1 < |v[p.0]|
    ensures |Unrecorded(Mark(v, p, c))| == |Unrecorded(v)| - (if Marked(v, p, c) then 0 else 1)
  {
    var w := Mark(v, p, c);
    var x := (p.0, p.1, c);
    forall y | y in Unrecorded(v) ensures y in Unrecorded(w) || y == x {
      assert !Marked(v, (y.0, y.1), y.2);
    }
    forall y | y in Unrecorded(w) ensures y in Unrecorded(v) && y != x {
      assert !Marked(w, (y.0, y.1), y.2);
    }
    if Marked(v, p, c) {
      assert Unrecorded(w) == Unrecorded(v);
    } else {
      assert x in Unrecorded(v);
      assert Unrecorded(v) == Unrecorded(w) + {x};
    }
  }

  /** What is left to discover: every unrecorded state counts twice, and standing
      in a recorded state counts once more. */
  function Potential(s: Search): nat {
    2 * |Unrecorded(s.visited)| + (if Marked(s.visited, s.shadow.pos, s.shadow.passable) then 1 else 0)
  }

  /** The alternatives the stack still holds. */
  function Alternatives(st: seq<Frame>): nat
    decreases |st|
  {
    if st == [] then 0 else Alternatives(st[..|st| - 1]) + |st[|st| - 1].others|
  }

  /** What is left to do at the current level of discovery: alternatives to try,
      frames to pop, and going forward to turn round. */
  function Pending(s: Search): nat {
    3 * Alternatives(s.stack) + |s.stack| + (if s.mode == Forward then 1 else 0)
  }

  /** Pushing a frame adds its alternatives. */
  lemma AlternativesPush(st: seq<Frame>, f: Frame)
    ensures Alternatives(st + [f]) == Alternatives(st) + |f.others|
  {
    assert (st + [f])[..|st|] == st;
  }

  /** Recording the state left and moving anywhere never adds to the potential,
      and takes from it unless the state left was recorded and the state reached is. */
  lemma {:induction false} RecordAndMove(g: Grid, s: Search, m: Move)
    requires Placed(g, s.shadow) && Shaped(s.visited, g) && m != Finish
    ensures var t := PerceiveCorrected(g, s, m);
      Potential(t) <= Potential(s) &&
      (Potential(t) == Potential(s) ==>
         Marked(s.visited, s.shadow.pos, s.shadow.passable) &&
         Marked(s.visited, t.shadow.pos, t.shadow.passable))
  {
    var t := PerceiveCorrected(g, s, m);
    MarkRecords(s.visited, s.shadow.pos, s.shadow.passable);
    assert t.visited == Mark(s.visited, s.shadow.pos, s.shadow.passable);
  }

  /** Every pass that neither finishes nor gives up makes progress: it either takes
      from the potential, or keeps it and takes from what is pending. */
  lemma {:induction false} TurnProgress(g: Grid, world: Config, s: Search)
    requires Placed(g, world) && s.shadow == world && Shaped(s.visited, g) && FramesOk(s.stack)
    ensures var r := TurnCorrected(g, world, s);
      r.decision.Go? && r.decision.move != Finish ==>
        Potential(r.search) < Potential(s) ||
        (Potential(r.search) == Potential(s) && Pending(r.search) < Pending(s))
  {
    var ch := DecideCorrected(g, s, PossibleMoves(g, world));
    if ch.decision.Go? && ch.decision.move != Finish {
      RecordAndMove(g, ch.next, ch.decision.move);
      if s.mode == Forward {
        ForwardProgress(g, s, PossibleMoves(g, world));
      } else {
        BacktrackProgress(g, s, PossibleMoves(g, world));
      }
    }
  }

  /** Going forward, the agent either leaves or reaches a state it has not
      recorded, or turns round, which leaves the stack alone and takes the
      forward bonus. */
  lemma {:induction false} ForwardProgress(g: Grid, s: Search, possible: seq<Move>)
    requires Placed(g, s.shadow) && Shaped(s.visited, g) && FramesOk(s.stack)
    requires s.mode == Forward && Finish !in possible
    requires forall m :: m in possible ==> IsMovePossible(g, s.shadow, m)
    ensures var ch := Decide(g, s, possible);
      ch.decision.Go? ==>
        var t := PerceiveCorrected(g, ch.next, ch.decision.move);
        Marked(s.visited, s.shadow.pos, s.shadow.passable) &&
        Marked(s.visited, t.shadow.pos, t.shadow.passable) ==>
          ch.next.mode == Backtrack && ch.next.stack == s.stack
  {
    var pm := NewStateMoves(g, s.visited, s.shadow, possible);
    if pm != [] {
      var m := pm[0];
      assert pm[0] in pm;
      assert ReachesNewState(g, s.visited, s.shadow, m);
      if m.IsDirectional() {
        assert IsMovePossible(g, s.shadow, m);
        assert Apply(g, s.shadow, m).after == Config(PositionAfterMove(s.shadow.pos, m), s.shadow.passable);
      }
    }
  }

  /** Backtracking keeps the mode or leaves it for going forward, and takes either
      a frame with nothing left or one alternative from the stack. */
  lemma {:induction false} BacktrackProgress(g: Grid, s: Search, possible: seq<Move>)
    requires Placed(g, s.shadow) && Shaped(s.visited, g) && FramesOk(s.stack)
    requires s.mode == Backtrack && Finish !in possible
    ensures var ch := Decide(g, s, possible);
      ch.decision.Go? ==> Pending(ch.next) < Pending(s)
  {
    BacktrackStep(g, s, possible);
    var n := |s.stack|;
    if n > 0 {
      var top := s.stack[n - 1];
      var rest := s.stack[..n - 1];
      assert s.stack == rest + [top];
      AlternativesPush(rest, top);
      if top.others != [] {
        AlternativesPush(rest, Frame(top.others[0], top.others[1..]));
        assert Decide(g, s, possible).next.stack == rest + [Frame(top.others[0], top.others[1..])];
      }
    }
  }

  /** The corrected search run to its end: the last round either asks to finish or
      reports the goal unreachable. Its termination is the point: it is proved from
      the potential and the pending work above. */
  function RunCorrected(g: Grid, world: Config, s: Search): (r: Round)
    requires Placed(g, world) && s.shadow == world && Shaped(s.visited, g) && FramesOk(s.stack)
    ensures r.decision == Go(Finish) || r.decision == GoalUnreachable
    ensures Placed(g, r.world)
    ensures r.decision == Go(Finish) ==> Apply(g, r.world, Finish).outcome == Won
    decreases Potential(s), Pending(s)
  {
    var t := TurnCorrected(g, world, s);
    if t.decision == Go(Finish) || !t.decision.Go? then t
    else
      TurnProgress(g, world, s);
      RunCorrected(g, t.world, t.search)
  }
}
