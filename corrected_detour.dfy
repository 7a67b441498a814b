/** The corrected agent on the detour board, pass by pass: it walks left onto the
    switch tile, tries both switch positions there, finds nothing new, walks back
    to the start, takes the alternative it kept there, and finishes on the goal. */
module CorrectedDetour {
  import opened Maze
  import opened Backtracking
  import opened Exploration
  import opened Findings
  import opened Termination

  /** The moves the detour board offers on its two tiles right of the start. */
  predicate DetourRight(g: Grid) {
    Placed(g, Config((1, 4), Red)) && Placed(g, Config((1, 5), Red)) &&
    PossibleMoves(g, Config((1, 4), Red)) == [MoveLeft, MoveRight] &&
    PossibleMoves(g, Config((1, 5), Red)) == [MoveLeft, Finish]
  }

  /** Every tile of the detour board the agent stands on, with the moves offered there. */
  predicate DetourShape(g: Grid) {
    DetourCorridor(g) && DeadEndSwitch(g) && DetourRight(g)
  }

  /** The corrected agent in step with the real board at `w`, in the given mode,
      with the given stack, having recorded exactly the states in `seen`. */
  ghost predicate InStep(g: Grid, w: Config, s: Search, mode: Mode, stack: seq<Frame>, seen: set<(Pos, Color)>) {
    Placed(g, w) && s.shadow == w && Shaped(s.visited, g) && FramesOk(s.stack) &&
    s.mode == mode && s.stack == stack &&
    forall p, c :: Marked(s.visited, p, c) <==> (p, c) in seen
  }

  /** The frame pushed on the first step left, keeping 'move right' for later. */
  const Outward := Frame(MoveLeft, [MoveRight])
  /** The frame pushed on the step left onto the switch tile. */
  const OntoSwitch := Frame(MoveLeft, [])
  /** The frame pushed on a switch. */
  const Flipped := Frame(Switch, [])
  /** The frame of a step right with nothing else to try. */
  const Onward := Frame(MoveRight, [])

  /** The states recorded after the two steps left. */
  const SeenCorridor: set<(Pos, Color)> := {((1, 3), Red), ((1, 2), Red)}
  /** The states recorded once both switch positions were tried on the switch tile. */
  const SeenSwitch: set<(Pos, Color)> := SeenCorridor + {((1, 1), Red), ((1, 1), Green)}

  /** Recording a state adds exactly that state to those recorded. */
  lemma MarkAdds(v: Visited, p: Pos, c: Color, seen: set<(Pos, Color)>)
    requires 0 <= p.0 < |v| && 0 <= p.1 < |v[p.0]|
    requires forall q, d :: Marked(v, q, d) <==> (q, d) in seen
    ensures forall q, d :: Marked(Mark(v, p, c), q, d) <==> (q, d) in seen + {(p, c)}
  {
  }

  /** One pass of the corrected run: it goes on after any move but 'finish'. */
  lemma RunStep(g: Grid, w: Config, s: Search)
    requires Placed(g, w) && s.shadow == w && Shaped(s.visited, g) && FramesOk(s.stack)
    ensures var t := TurnCorrected(g, w, s);
      (t.decision.Go? && t.decision.move != Finish ==> RunCorrected(g, w, s) == RunCorrected(g, t.world, t.search)) &&
      (t.decision == Go(Finish) ==> RunCorrected(g, w, s) == t)
  {
  }

  /** The new-state moves among two offered moves, the first ranked before the second. */
  lemma NewStateOfTwo(g: Grid, v: Visited, c: Config, a: Move, b: Move)
    requires Placed(g, c) && Shaped(v, g) && a != Finish && b != Finish
    ensures NewStateMoves(g, v, c, [a, b]) ==
      (if ReachesNewState(g, v, c, a) then [a] else []) + (if ReachesNewState(g, v, c, b) then [b] else [])
  {
    assert [b][1..] == [];
    assert NewStateMoves(g, v, c, [b]) == if ReachesNewState(g, v, c, b) then [b] else [];
    assert [a, b][1..] == [b];
  }

  /** Going forward with a new state in reach, the agent takes the first such move
      and pushes a frame keeping the others. */
  lemma ForwardGoes(g: Grid, s: Search, possible: seq<Move>)
    requires Placed(g, s.shadow) && Shaped(s.visited, g) && FramesOk(s.stack)
    requires s.mode == Forward && Finish !in possible
    requires NewStateMoves(g, s.visited, s.shadow, possible) != []
    ensures var pm := NewStateMoves(g, s.visited, s.shadow, possible);
      Decide(g, s, possible) == Choice(Go(pm[0]), s.(stack := s.stack + [Frame(pm[0], pm[1..])]))
  {
  }

  /** A corrected pass whose decision asks for a move other than 'finish': the real
      board plays it, the agent records the state it leaves and follows the move on
      its own board, in the mode and with the stack the decision left, and the run
      goes on from there. */
  lemma Advances(g: Grid, s: Search, seen: set<(Pos, Color)>, m: Move, next: Search, seen': set<(Pos, Color)>)
    returns (r: Round)
    requires InStep(g, s.shadow, s, s.mode, s.stack, seen)
    requires m != Finish && IsMovePossible(g, s.shadow, m)
    requires next.visited == s.visited && next.shadow == s.shadow && FramesOk(next.stack)
    requires Decide(g, s, PossibleMoves(g, s.shadow)) == Choice(Go(m), next)
    requires seen' == seen + {(s.shadow.pos, s.shadow.passable)}
    ensures r == TurnCorrected(g, s.shadow, s) && r.decision == Go(m)
    ensures r.world == Apply(g, s.shadow, m).after
    ensures InStep(g, r.world, r.search, next.mode, next.stack, seen')
    ensures RunCorrected(g, s.shadow, s) == RunCorrected(g, r.world, r.search)
  {
    MarkAdds(s.visited, s.shadow.pos, s.shadow.passable, seen);
    r := TurnCorrected(g, s.shadow, s);
    RunStep(g, s.shadow, s);
  }

  /** At the start with nothing recorded, both neighbours are new states. */
  lemma StartBothNew(g: Grid, s: Search)
    requires DetourShape(g) && InStep(g, Config((1, 3), Red), s, Forward, [], {})
    ensures NewStateMoves(g, s.visited, s.shadow, [MoveLeft, MoveRight]) == [MoveLeft, MoveRight]
  {
    var w, v := s.shadow, s.visited;
    assert ReachesNewState(g, v, w, MoveLeft) && ReachesNewState(g, v, w, MoveRight);
    NewStateOfTwo(g, v, w, MoveLeft, MoveRight);
  }

  /** An offered step in a direction lands on the neighbouring tile in that direction,
      under the same switch position. */
  lemma Steps(g: Grid, c: Config, m: Move)
    requires Placed(g, c) && m.IsDirectional() && m in PossibleMoves(g, c)
    ensures IsMovePossible(g, c, m) && Apply(g, c, m).after == Config(PositionAfterMove(c.pos, m), c.passable)
  {
  }

  /** Pass 1: from the start both neighbours are new; left comes first, right is kept. */
  lemma Pass1(g: Grid, s: Search)
    requires DetourShape(g) && InStep(g, Config((1, 3), Red), s, Forward, [], {})
    ensures Decide(g, s, PossibleMoves(g, s.shadow)) == Choice(Go(MoveLeft), s.(stack := [Outward]))
    ensures IsMovePossible(g, s.shadow, MoveLeft) && Apply(g, s.shadow, MoveLeft).after == Config((1, 2), Red)
  {
    var w := s.shadow;
    StartBothNew(g, s);
    var pm := NewStateMoves(g, s.visited, w, [MoveLeft, MoveRight]);
    assert s.stack + [Frame(pm[0], pm[1..])] == [Outward];
    ForwardGoes(g, s, [MoveLeft, MoveRight]);
    Steps(g, w, MoveLeft);
  }

  /** Pass 2: back to the start is not new, on to the switch tile is. */
  lemma Pass2(g: Grid, s: Search)
    requires DetourShape(g) && InStep(g, Config((1, 2), Red), s, Forward, [Outward], {((1, 3), Red)})
    ensures Decide(g, s, PossibleMoves(g, s.shadow)) == Choice(Go(MoveLeft), s.(stack := [Outward, OntoSwitch]))
    ensures IsMovePossible(g, s.shadow, MoveLeft) && Apply(g, s.shadow, MoveLeft).after == Config((1, 1), Red)
  {
    var w, v := s.shadow, s.visited;
    var pm := NewStateMoves(g, v, w, [MoveLeft, MoveRight]);
    assert pm == [MoveLeft] by {
      assert ReachesNewState(g, v, w, MoveLeft) && !ReachesNewState(g, v, w, MoveRight);
      NewStateOfTwo(g, v, w, MoveLeft, MoveRight);
    }
    assert pm[1..] == [];
    assert s.stack + [Frame(pm[0], pm[1..])] == [Outward, OntoSwitch];
    ForwardGoes(g, s, [MoveLeft, MoveRight]);
    Steps(g, w, MoveLeft);
  }

  /** Pass 3: on the switch tile at red, the red tile is recorded and the switch is new. */
  lemma Pass3(g: Grid, s: Search)
    requires DetourShape(g) && InStep(g, Config((1, 1), Red), s, Forward, [Outward, OntoSwitch], SeenCorridor)
    ensures Decide(g, s, PossibleMoves(g, s.shadow)) ==
      Choice(Go(Switch), s.(stack := [Outward, OntoSwitch, Flipped]))
    ensures IsMovePossible(g, s.shadow, Switch) && Apply(g, s.shadow, Switch).after == Config((1, 1), Green)
  {
    var w, v := s.shadow, s.visited;
    var pm := NewStateMoves(g, v, w, [MoveRight, Switch]);
    assert pm == [Switch] by {
      assert !ReachesNewState(g, v, w, MoveRight) && ReachesNewState(g, v, w, Switch);
      NewStateOfTwo(g, v, w, MoveRight, Switch);
    }
    assert pm[1..] == [];
    assert s.stack + [Frame(pm[0], pm[1..])] == [Outward, OntoSwitch, Flipped];
    ForwardGoes(g, s, [MoveRight, Switch]);
    assert Switch in PossibleMoves(g, w);
  }

  /** Pass 4: at green only the switch is offered, and the switch tile at green is new. */
  lemma Pass4(g: Grid, s: Search)
    requires DetourShape(g)
    requires InStep(g, Config((1, 1), Green), s, Forward, [Outward, OntoSwitch, Flipped], SeenCorridor + {((1, 1), Red)})
    ensures Decide(g, s, PossibleMoves(g, s.shadow)) ==
      Choice(Go(Switch), s.(stack := [Outward, OntoSwitch, Flipped, Flipped]))
    ensures IsMovePossible(g, s.shadow, Switch) && Apply(g, s.shadow, Switch).after == Config((1, 1), Red)
  {
    var w, v := s.shadow, s.visited;
    assert ReachesNewState(g, v, w, Switch);
    assert NewStateMoves(g, v, w, [Switch]) == [Switch] by {
      assert [Switch][1..] == [];
    }
    var pm := NewStateMoves(g, v, w, [Switch]);
    assert s.stack + [Frame(pm[0], pm[1..])] == [Outward, OntoSwitch, Flipped, Flipped];
    ForwardGoes(g, s, [Switch]);
    assert Switch in PossibleMoves(g, w);
  }

  /** Pass 5: back at red nothing is new; the agent turns round and undoes the last switch. */
  lemma Pass5(g: Grid, s: Search)
    requires DetourShape(g)
    requires InStep(g, Config((1, 1), Red), s, Forward, [Outward, OntoSwitch, Flipped, Flipped], SeenSwitch)
    ensures Decide(g, s, PossibleMoves(g, s.shadow)) == Choice(Go(Switch), s.(mode := Backtrack))
    ensures IsMovePossible(g, s.shadow, Switch) && Apply(g, s.shadow, Switch).after == Config((1, 1), Green)
  {
    var w, v := s.shadow, s.visited;
    assert !ReachesNewState(g, v, w, MoveRight) && !ReachesNewState(g, v, w, Switch);
    ForwardDeadEnd(g, s, [MoveRight, Switch]);
    assert Switch in PossibleMoves(g, w);
  }

  /** Pass 6: backtracking pops the second switch and undoes the first. */
  lemma Pass6(g: Grid, s: Search)
    requires DetourShape(g)
    requires InStep(g, Config((1, 1), Green), s, Backtrack, [Outward, OntoSwitch, Flipped, Flipped], SeenSwitch)
    ensures Decide(g, s, PossibleMoves(g, s.shadow)) == Choice(Go(Switch), s.(stack := [Outward, OntoSwitch, Flipped]))
    ensures IsMovePossible(g, s.shadow, Switch) && Apply(g, s.shadow, Switch).after == Config((1, 1), Red)
  {
    BacktrackStep(g, s, [Switch]);
    assert s.stack[..3] == [Outward, OntoSwitch, Flipped];
    assert Switch in PossibleMoves(g, s.shadow);
  }

  /** Pass 7: backtracking pops the first switch and walks back right off the switch tile. */
  lemma Pass7(g: Grid, s: Search)
    requires DetourShape(g)
    requires InStep(g, Config((1, 1), Red), s, Backtrack, [Outward, OntoSwitch, Flipped], SeenSwitch)
    ensures Decide(g, s, PossibleMoves(g, s.shadow)) == Choice(Go(MoveRight), s.(stack := [Outward, OntoSwitch]))
    ensures IsMovePossible(g, s.shadow, MoveRight) && Apply(g, s.shadow, MoveRight).after == Config((1, 2), Red)
  {
    BacktrackStep(g, s, [MoveRight, Switch]);
    assert s.stack[..2] == [Outward, OntoSwitch];
    Steps(g, s.shadow, MoveRight);
  }

  /** Pass 8: backtracking pops the step onto the switch tile and walks back to the start. */
  lemma Pass8(g: Grid, s: Search)
    requires DetourShape(g)
    requires InStep(g, Config((1, 2), Red), s, Backtrack, [Outward, OntoSwitch], SeenSwitch)
    ensures Decide(g, s, PossibleMoves(g, s.shadow)) == Choice(Go(MoveRight), s.(stack := [Outward]))
    ensures IsMovePossible(g, s.shadow, MoveRight) && Apply(g, s.shadow, MoveRight).after == Config((1, 3), Red)
  {
    BacktrackStep(g, s, [MoveLeft, MoveRight]);
    assert s.stack[..1] == [Outward];
    Steps(g, s.shadow, MoveRight);
  }

  /** Pass 9: at the start the first frame still holds 'move right', which the agent
      now takes, going forward again. */
  lemma Pass9(g: Grid, s: Search)
    requires DetourShape(g)
    requires InStep(g, Config((1, 3), Red), s, Backtrack, [Outward], SeenSwitch)
    ensures Decide(g, s, PossibleMoves(g, s.shadow)) == Choice(Go(MoveRight), s.(mode := Forward, stack := [Onward]))
    ensures IsMovePossible(g, s.shadow, MoveRight) && Apply(g, s.shadow, MoveRight).after == Config((1, 4), Red)
  {
    BacktrackStep(g, s, [MoveLeft, MoveRight]);
    assert Decide(g, s, [MoveLeft, MoveRight]).next.stack == [Onward];
    Steps(g, s.shadow, MoveRight);
  }

  /** Pass 10: right of the start, going back is not new and going on to the goal is. */
  lemma Pass10(g: Grid, s: Search)
    requires DetourShape(g)
    requires InStep(g, Config((1, 4), Red), s, Forward, [Onward], SeenSwitch)
    ensures Decide(g, s, PossibleMoves(g, s.shadow)) == Choice(Go(MoveRight), s.(stack := [Onward, Onward]))
    ensures IsMovePossible(g, s.shadow, MoveRight) && Apply(g, s.shadow, MoveRight).after == Config((1, 5), Red)
  {
    var w, v := s.shadow, s.visited;
    var pm := NewStateMoves(g, v, w, [MoveLeft, MoveRight]);
    assert pm == [MoveRight] by {
      assert !ReachesNewState(g, v, w, MoveLeft) && ReachesNewState(g, v, w, MoveRight);
      NewStateOfTwo(g, v, w, MoveLeft, MoveRight);
    }
    assert pm[1..] == [];
    assert s.stack + [Frame(pm[0], pm[1..])] == [Onward, Onward];
    ForwardGoes(g, s, [MoveLeft, MoveRight]);
    Steps(g, w, MoveRight);
  }

  /** The end of a corrected run on the detour board: 'finish' on the goal tile. */
  predicate FinishesOnGoal(r: Round) {
    r.decision == Go(Finish) && r.world == Config((1, 5), Red)
  }

  /** Pass 11: on the goal 'finish' is offered, the agent takes it, and the run ends. */
  lemma Pass11(g: Grid, s: Search, mode: Mode, stack: seq<Frame>, seen: set<(Pos, Color)>)
    requires DetourShape(g) && InStep(g, Config((1, 5), Red), s, mode, stack, seen)
    ensures FinishesOnGoal(RunCorrected(g, s.shadow, s))
  {
    assert Finish in PossibleMoves(g, s.shadow);
    RunStep(g, s.shadow, s);
  }

  /** The detour board has the shape the passes above rely on. */
  lemma DetourHasShape()
    ensures DetourShape(Detour)
  {
    DetourStartMoves();
    DetourRedTileMoves();
    DetourSwitchRedMoves();
    DetourSwitchGreenMoves();
    DetourSpaceMoves();
    DetourGoalMoves();
  }

  /** From right of the start, the run wins. */
  lemma From10(g: Grid, s: Search)
    requires DetourShape(g) && InStep(g, Config((1, 4), Red), s, Forward, [Onward], SeenSwitch)
    ensures FinishesOnGoal(RunCorrected(g, s.shadow, s))
  {
    Pass10(g, s);
    var r := Advances(g, s, SeenSwitch, MoveRight, s.(stack := [Onward, Onward]), SeenSwitch + {((1, 4), Red)});
    Pass11(g, r.search, Forward, [Onward, Onward], SeenSwitch + {((1, 4), Red)});
  }

  /** Back at the start with the kept alternative, the run wins. */
  lemma From9(g: Grid, s: Search)
    requires DetourShape(g) && InStep(g, Config((1, 3), Red), s, Backtrack, [Outward], SeenSwitch)
    ensures FinishesOnGoal(RunCorrected(g, s.shadow, s))
  {
    Pass9(g, s);
    var r := Advances(g, s, SeenSwitch, MoveRight, s.(mode := Forward, stack := [Onward]), SeenSwitch);
    From10(g, r.search);
  }

  /** Backtracking from the red tile, the run wins. */
  lemma From8(g: Grid, s: Search)
    requires DetourShape(g) && InStep(g, Config((1, 2), Red), s, Backtrack, [Outward, OntoSwitch], SeenSwitch)
    ensures FinishesOnGoal(RunCorrected(g, s.shadow, s))
  {
    Pass8(g, s);
    var r := Advances(g, s, SeenSwitch, MoveRight, s.(stack := [Outward]), SeenSwitch);
    From9(g, r.search);
  }

  /** Backtracking on the switch tile at red, the run wins. */
  lemma From7(g: Grid, s: Search)
    requires DetourShape(g) && InStep(g, Config((1, 1), Red), s, Backtrack, [Outward, OntoSwitch, Flipped], SeenSwitch)
    ensures FinishesOnGoal(RunCorrected(g, s.shadow, s))
  {
    Pass7(g, s);
    var r := Advances(g, s, SeenSwitch, MoveRight, s.(stack := [Outward, OntoSwitch]), SeenSwitch);
    From8(g, r.search);
  }

  /** Backtracking on the switch tile at green, the run wins. */
  lemma From6(g: Grid, s: Search)
    requires DetourShape(g) && InStep(g, Config((1, 1), Green), s, Backtrack, [Outward, OntoSwitch, Flipped, Flipped], SeenSwitch)
    ensures FinishesOnGoal(RunCorrected(g, s.shadow, s))
  {
    Pass6(g, s);
    var r := Advances(g, s, SeenSwitch, Switch, s.(stack := [Outward, OntoSwitch, Flipped]), SeenSwitch);
    From7(g, r.search);
  }

  /** At the dead end on the switch tile, the run wins. */
  lemma From5(g: Grid, s: Search)
    requires DetourShape(g) && InStep(g, Config((1, 1), Red), s, Forward, [Outward, OntoSwitch, Flipped, Flipped], SeenSwitch)
    ensures FinishesOnGoal(RunCorrected(g, s.shadow, s))
  {
    Pass5(g, s);
    var r := Advances(g, s, SeenSwitch, Switch, s.(mode := Backtrack), SeenSwitch);
    From6(g, r.search);
  }

  /** On the switch tile at green after the first switch, the run wins. */
  lemma From4(g: Grid, s: Search)
    requires DetourShape(g) && InStep(g, Config((1, 1), Green), s, Forward, [Outward, OntoSwitch, Flipped], SeenCorridor + {((1, 1), Red)})
    ensures FinishesOnGoal(RunCorrected(g, s.shadow, s))
  {
    Pass4(g, s);
    var r := Advances(g, s, SeenCorridor + {((1, 1), Red)}, Switch, s.(stack := [Outward, OntoSwitch, Flipped, Flipped]), SeenSwitch);
    From5(g, r.search);
  }

  /** Arriving on the switch tile, the run wins. */
  lemma From3(g: Grid, s: Search)
    requires DetourShape(g) && InStep(g, Config((1, 1), Red), s, Forward, [Outward, OntoSwitch], SeenCorridor)
    ensures FinishesOnGoal(RunCorrected(g, s.shadow, s))
  {
    Pass3(g, s);
    var r := Advances(g, s, SeenCorridor, Switch, s.(stack := [Outward, OntoSwitch, Flipped]), SeenCorridor + {((1, 1), Red)});
    From4(g, r.search);
  }

  /** One step left of the start, the run wins. */
  lemma From2(g: Grid, s: Search)
    requires DetourShape(g) && InStep(g, Config((1, 2), Red), s, Forward, [Outward], {((1, 3), Red)})
    ensures FinishesOnGoal(RunCorrected(g, s.shadow, s))
  {
    Pass2(g, s);
    var r := Advances(g, s, {((1, 3), Red)}, MoveLeft, s.(stack := [Outward, OntoSwitch]), SeenCorridor);
    From3(g, r.search);
  }

  /** From the start with nothing recorded, the run wins. */
  lemma From1(g: Grid, s: Search)
    requires DetourShape(g) && InStep(g, Config((1, 3), Red), s, Forward, [], {})
    ensures FinishesOnGoal(RunCorrected(g, s.shadow, s))
  {
    Pass1(g, s);
    var r := Advances(g, s, {}, MoveLeft, s.(stack := [Outward]), {((1, 3), Red)});
    From2(g, r.search);
  }

  /** With both corrections, the agent that switched for ever on the detour board
      reaches the goal and wins: its run ends with 'finish' on the goal tile. */
  lemma DetourCorrectedWins()
    ensures Placed(Detour, Config((1, 3), Red))
    ensures var c0 := Config((1, 3), Red);
      var r := RunCorrected(Detour, c0, InitialSearch(Detour, c0));
      r.decision == Go(Finish) && r.world == Config((1, 5), Red) &&
      Apply(Detour, r.world, Finish).outcome == Won
  {
    DetourHasShape();
    From1(Detour, InitialSearch(Detour, Config((1, 3), Red)));
  }
}
