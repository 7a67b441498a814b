/** Three places where the agent as written departs from what it evidently means to
    do, each shown on a small board; the corrected agent is in `Termination`. */
module Findings {
  import opened Maze
  import opened Backtracking
  import opened Exploration
  import opened Termination

  /** A start tile with one open tile beside it and no goal. */
  const Corridor: Grid := [
    [Wall, Wall, Wall, Wall],
    [Wall, Begin, Space, Wall],
    [Wall, Wall, Wall, Wall]]

  /** A start tile walled in on every side. */
  const Boxed: Grid := [
    [Wall, Wall, Wall],
    [Wall, Begin, Wall],
    [Wall, Wall, Wall]]

  /** A switch tile at the end of a red corridor to the left of the start, and the
      goal to the right; the vocabulary order sends the agent left first. */
  const Detour: Grid := [
    [Wall, Wall, Wall, Wall, Wall, Wall, Wall],
    [Wall, SwitchTile, Colored(Red), Begin, Space, End, Wall],
    [Wall, Wall, Wall, Wall, Wall, Wall, Wall]]

  /** Under the invariant the agent is never backtracking with an empty stack, so
      the "goal is not reachable" answer of the source is never given. */
  lemma UnreachableNeverAnswered(g: Grid, c0: Config, world: Config, s: Search)
    requires Inv(g, c0, world, s)
    ensures Turn(g, world, s).decision != GoalUnreachable
  {
  }

  /** The moves offered on the corridor's start tile. */
  lemma CorridorStartMoves()
    ensures Placed(Corridor, Config((1, 1), Red))
    ensures PossibleMoves(Corridor, Config((1, 1), Red)) == [MoveRight]
  {
    var c := Config((1, 1), Red);
    assert Placed(Corridor, c);
    assert !IsMovePossible(Corridor, c, MoveUp) && !IsMovePossible(Corridor, c, MoveDown);
    assert !IsMovePossible(Corridor, c, MoveLeft) && IsMovePossible(Corridor, c, MoveRight);
    assert !IsMovePossible(Corridor, c, Switch) && !IsMovePossible(Corridor, c, Finish);
    assert InVocabularyOrder([MoveRight]);
    OrderedByMembers(PossibleMoves(Corridor, c), [MoveRight]);
  }

  /** The moves offered on the corridor's far tile. */
  lemma CorridorEndMoves()
    ensures Placed(Corridor, Config((1, 2), Red))
    ensures PossibleMoves(Corridor, Config((1, 2), Red)) == [MoveLeft]
  {
    var c := Config((1, 2), Red);
    assert Placed(Corridor, c);
    assert !IsMovePossible(Corridor, c, MoveUp) && !IsMovePossible(Corridor, c, MoveDown);
    assert IsMovePossible(Corridor, c, MoveLeft) && !IsMovePossible(Corridor, c, MoveRight);
    assert !IsMovePossible(Corridor, c, Switch) && !IsMovePossible(Corridor, c, Finish);
    assert InVocabularyOrder([MoveLeft]);
    OrderedByMembers(PossibleMoves(Corridor, c), [MoveLeft]);
  }

  /** The moves the corridor board offers on its two tiles. */
  predicate CorridorShape(g: Grid) {
    Placed(g, Config((1, 1), Red)) && Placed(g, Config((1, 2), Red)) &&
    PossibleMoves(g, Config((1, 1), Red)) == [MoveRight] &&
    PossibleMoves(g, Config((1, 2), Red)) == [MoveLeft]
  }

  /** Nothing is offered on the boxed-in start. */
  lemma BoxedMoves()
    ensures Placed(Boxed, Config((1, 1), Red))
    ensures PossibleMoves(Boxed, Config((1, 1), Red)) == []
  {
    var c := Config((1, 1), Red);
    assert Placed(Boxed, c);
    assert !IsMovePossible(Boxed, c, MoveUp) && !IsMovePossible(Boxed, c, MoveDown);
    assert !IsMovePossible(Boxed, c, MoveLeft) && !IsMovePossible(Boxed, c, MoveRight);
  }

  /** As written, going forward with nothing new in reach at an empty stack reads
      the top of the empty stack. */
  lemma ForwardAtStartUnderflows(g: Grid, s: Search, possible: seq<Move>)
    requires Placed(g, s.shadow) && Shaped(s.visited, g) && FramesOk(s.stack)
    requires s.mode == Forward && s.stack == [] && Finish !in possible
    requires forall m :: m in possible ==> !ReachesNewState(g, s.visited, s.shadow, m)
    ensures Decide(g, s, possible).decision == StackUnderflow
  {
    NoNewStateMoves(g, s.visited, s.shadow, possible);
  }

  /** As written, backtracking past the last frame with no alternative left reads
      the top of the stack it has just emptied. */
  lemma LastPopUnderflows(g: Grid, s: Search, possible: seq<Move>)
    requires Placed(g, s.shadow) && Shaped(s.visited, g) && FramesOk(s.stack)
    requires s.mode == Backtrack && |s.stack| == 1 && s.stack[0].others == [] && Finish !in possible
    ensures Decide(g, s, possible).decision == StackUnderflow
    ensures Decide(g, s, possible).next.stack == []
  {
  }

  /** The first turn on the corridor: the only move, to a tile not yet seen. */
  lemma CorridorFirstTurn(g: Grid)
    requires CorridorShape(g)
    ensures var c0 := Config((1, 1), Red);
      var r := Turn(g, c0, InitialSearch(g, c0));
      r.decision == Go(MoveRight) && r.world == Config((1, 2), Red) &&
      r.search.shadow == r.world && r.search.mode == Forward &&
      r.search.stack == [Frame(MoveRight, [])] && Marked(r.search.visited, (1, 1), Red)
  {
    var c0 := Config((1, 1), Red);
    var s0 := InitialSearch(g, c0);
    assert ReachesNewState(g, s0.visited, c0, MoveRight);
    assert NewStateMoves(g, s0.visited, c0, [MoveRight]) == [MoveRight];
  }

  /** The second turn on the corridor: the only move leads back to a state already
      seen, so the agent turns round and steps back. */
  lemma CorridorSecondTurn(g: Grid, s: Search)
    requires CorridorShape(g)
    requires s.shadow == Config((1, 2), Red) && Shaped(s.visited, g)
    requires s.mode == Forward && s.stack == [Frame(MoveRight, [])]
    requires Marked(s.visited, (1, 1), Red)
    ensures FramesOk(s.stack)
    ensures var r := Turn(g, s.shadow, s);
      r.decision == Go(MoveLeft) && r.world == Config((1, 1), Red) &&
      r.search.shadow == r.world && r.search.mode == Backtrack && r.search.stack == s.stack
  {
    assert !ReachesNewState(g, s.visited, s.shadow, MoveLeft);
    assert NewStateMoves(g, s.visited, s.shadow, [MoveLeft]) == [];
  }

  /** The third turn on the corridor: backtracking past the only frame, which has no
      alternative left, empties the stack and then reads its top. */
  lemma CorridorThirdTurn(g: Grid, s: Search)
    requires CorridorShape(g)
    requires s.shadow == Config((1, 1), Red) && Shaped(s.visited, g)
    requires s.mode == Backtrack && s.stack == [Frame(MoveRight, [])]
    ensures FramesOk(s.stack)
    ensures var r := Turn(g, s.shadow, s);
      r.decision == StackUnderflow && r.search.stack == [] &&
      DecideCorrected(g, s, PossibleMoves(g, s.shadow)).decision == GoalUnreachable
  {
    LastPopUnderflows(g, s, [MoveRight]);
  }

  /** On the corridor the agent steps right, finds nothing new and steps back; the
      next backtracking step pops the only frame and then reads the top of the
      empty stack instead of reporting that the goal is not reachable. */
  lemma CorridorExhaustionUnderflows()
    ensures Placed(Corridor, Config((1, 1), Red))
    ensures var c0 := Config((1, 1), Red);
      var r1 := Turn(Corridor, c0, InitialSearch(Corridor, c0));
      var r2 := Turn(Corridor, r1.world, r1.search);
      var r3 := Turn(Corridor, r2.world, r2.search);
      r1.decision == Go(MoveRight) && r2.decision == Go(MoveLeft) && r2.world == c0 &&
      r3.decision == StackUnderflow && r3.search.stack == [] &&
      DecideCorrected(Corridor, r2.search, PossibleMoves(Corridor, r2.world)).decision == GoalUnreachable
  {
    CorridorStartMoves();
    CorridorEndMoves();
    var c0 := Config((1, 1), Red);
    CorridorFirstTurn(Corridor);
    var r1 := Turn(Corridor, c0, InitialSearch(Corridor, c0));
    CorridorSecondTurn(Corridor, r1.search);
    var r2 := Turn(Corridor, r1.world, r1.search);
    CorridorThirdTurn(Corridor, r2.search);
  }

  /** On the boxed-in start the very first decision reads the top of an empty stack. */
  lemma BoxedStartUnderflows()
    ensures Placed(Boxed, Config((1, 1), Red))
    ensures var c0 := Config((1, 1), Red);
      Turn(Boxed, c0, InitialSearch(Boxed, c0)).decision == StackUnderflow &&
      DecideCorrected(Boxed, InitialSearch(Boxed, c0), PossibleMoves(Boxed, c0)).decision == GoalUnreachable
  {
    BoxedMoves();
    var c0 := Config((1, 1), Red);
    ForwardAtStartUnderflows(Boxed, InitialSearch(Boxed, c0), []);
  }

  /** The moves offered on the detour board's start tile. */
  lemma DetourStartMoves()
    ensures Placed(Detour, Config((1, 3), Red))
    ensures PossibleMoves(Detour, Config((1, 3), Red)) == [MoveLeft, MoveRight]
  {
    var c := Config((1, 3), Red);
    assert Placed(Detour, c);
    assert !IsMovePossible(Detour, c, MoveUp) && !IsMovePossible(Detour, c, MoveDown);
    assert IsMovePossible(Detour, c, MoveLeft) && IsMovePossible(Detour, c, MoveRight);
    assert !IsMovePossible(Detour, c, Switch) && !IsMovePossible(Detour, c, Finish);
    assert InVocabularyOrder([MoveLeft, MoveRight]);
    OrderedByMembers(PossibleMoves(Detour, c), [MoveLeft, MoveRight]);
  }

  /** The moves offered on the red tile with the switch at red. */
  lemma DetourRedTileMoves()
    ensures Placed(Detour, Config((1, 2), Red))
    ensures PossibleMoves(Detour, Config((1, 2), Red)) == [MoveLeft, MoveRight]
  {
    var c := Config((1, 2), Red);
    assert Placed(Detour, c);
    assert !IsMovePossible(Detour, c, MoveUp) && !IsMovePossible(Detour, c, MoveDown);
    assert IsMovePossible(Detour, c, MoveLeft) && IsMovePossible(Detour, c, MoveRight);
    assert !IsMovePossible(Detour, c, Switch) && !IsMovePossible(Detour, c, Finish);
    assert InVocabularyOrder([MoveLeft, MoveRight]);
    OrderedByMembers(PossibleMoves(Detour, c), [MoveLeft, MoveRight]);
  }

  /** The moves offered on the switch tile with the switch at red: the red tile is open. */
  lemma DetourSwitchRedMoves()
    ensures Placed(Detour, Config((1, 1), Red))
    ensures PossibleMoves(Detour, Config((1, 1), Red)) == [MoveRight, Switch]
  {
    var c := Config((1, 1), Red);
    assert Placed(Detour, c);
    assert !IsMovePossible(Detour, c, MoveUp) && !IsMovePossible(Detour, c, MoveDown);
    assert !IsMovePossible(Detour, c, MoveLeft) && IsMovePossible(Detour, c, MoveRight);
    assert IsMovePossible(Detour, c, Switch) && !IsMovePossible(Detour, c, Finish);
    assert InVocabularyOrder([MoveRight, Switch]);
    OrderedByMembers(PossibleMoves(Detour, c), [MoveRight, Switch]);
  }

  /** The moves offered on the switch tile with the switch at green: only the switch. */
  lemma DetourSwitchGreenMoves()
    ensures Placed(Detour, Config((1, 1), Green))
    ensures PossibleMoves(Detour, Config((1, 1), Green)) == [Switch]
  {
    var c := Config((1, 1), Green);
    assert Placed(Detour, c);
    assert !IsMovePossible(Detour, c, MoveUp) && !IsMovePossible(Detour, c, MoveDown);
    assert !IsMovePossible(Detour, c, MoveLeft) && !IsMovePossible(Detour, c, MoveRight);
    assert IsMovePossible(Detour, c, Switch) && !IsMovePossible(Detour, c, Finish);
    assert InVocabularyOrder([Switch]);
    OrderedByMembers(PossibleMoves(Detour, c), [Switch]);
  }

  /** The moves offered on the open tile right of the start. */
  lemma DetourSpaceMoves()
    ensures Placed(Detour, Config((1, 4), Red))
    ensures PossibleMoves(Detour, Config((1, 4), Red)) == [MoveLeft, MoveRight]
  {
    var c := Config((1, 4), Red);
    assert Placed(Detour, c);
    assert !IsMovePossible(Detour, c, MoveUp) && !IsMovePossible(Detour, c, MoveDown);
    assert IsMovePossible(Detour, c, MoveLeft) && IsMovePossible(Detour, c, MoveRight);
    assert !IsMovePossible(Detour, c, Switch) && !IsMovePossible(Detour, c, Finish);
    assert InVocabularyOrder([MoveLeft, MoveRight]);
    OrderedByMembers(PossibleMoves(Detour, c), [MoveLeft, MoveRight]);
  }

  /** The moves offered on the goal tile: back, or finish. */
  lemma DetourGoalMoves()
    ensures Placed(Detour, Config((1, 5), Red))
    ensures PossibleMoves(Detour, Config((1, 5), Red)) == [MoveLeft, Finish]
  {
    var c := Config((1, 5), Red);
    assert Placed(Detour, c);
    assert !IsMovePossible(Detour, c, MoveUp) && !IsMovePossible(Detour, c, MoveDown);
    assert IsMovePossible(Detour, c, MoveLeft) && !IsMovePossible(Detour, c, MoveRight);
    assert !IsMovePossible(Detour, c, Switch) && IsMovePossible(Detour, c, Finish);
    assert InVocabularyOrder([MoveLeft, Finish]);
    OrderedByMembers(PossibleMoves(Detour, c), [MoveLeft, Finish]);
  }

  /** The goal of the detour board is two steps to the right of the start. */
  lemma DetourGoalReachable()
    ensures Placed(Detour, Config((1, 3), Red))
    ensures var c0 := Config((1, 3), Red);
      var c1 := Apply(Detour, c0, MoveRight);
      var c2 := Apply(Detour, c1.after, MoveRight);
      c1.outcome == Applied && c2.outcome == Applied && Apply(Detour, c2.after, Finish).outcome == Won
  {
    var c0 := Config((1, 3), Red);
    assert Placed(Detour, c0);
    assert IsMovePossible(Detour, c0, MoveRight);
    assert IsMovePossible(Detour, Config((1, 4), Red), MoveRight);
    assert IsMovePossible(Detour, Config((1, 5), Red), Finish);
  }

  /** The moves the detour board offers on its start tile and on its red tile. */
  predicate DetourCorridor(g: Grid) {
    Placed(g, Config((1, 3), Red)) && Placed(g, Config((1, 2), Red)) &&
    PossibleMoves(g, Config((1, 3), Red)) == [MoveLeft, MoveRight] &&
    PossibleMoves(g, Config((1, 2), Red)) == [MoveLeft, MoveRight]
  }

  /** The moves the detour board offers on its switch tile, a dead end. */
  predicate DeadEndSwitch(g: Grid) {
    Placed(g, Config((1, 1), Red)) && Placed(g, Config((1, 1), Green)) &&
    PossibleMoves(g, Config((1, 1), Red)) == [MoveRight, Switch] &&
    PossibleMoves(g, Config((1, 1), Green)) == [Switch]
  }

  /** The agent on the switch tile, forward, having left the red tile at red but
      never left the switch tile at either switch position. */
  predicate OnDeadEndSwitch(g: Grid, s: Search) {
    s.shadow.pos == (1, 1) && s.mode == Forward && Shaped(s.visited, g) && FramesOk(s.stack) &&
    Marked(s.visited, (1, 2), Red) && !Marked(s.visited, (1, 1), Red) && !Marked(s.visited, (1, 1), Green)
  }

  /** The first turn on the detour board: both neighbours are new, left comes first. */
  lemma DetourFirstTurn(g: Grid)
    requires DetourCorridor(g)
    ensures var c0 := Config((1, 3), Red);
      var r := Turn(g, c0, InitialSearch(g, c0));
      r.decision == Go(MoveLeft) && r.world == Config((1, 2), Red) &&
      r.search.shadow == r.world && r.search.mode == Forward &&
      r.search.stack == [Frame(MoveLeft, [MoveRight])] &&
      Marked(r.search.visited, (1, 3), Red) &&
      !Marked(r.search.visited, (1, 1), Red) && !Marked(r.search.visited, (1, 1), Green)
  {
    var c0 := Config((1, 3), Red);
    var s0 := InitialSearch(g, c0);
    assert ReachesNewState(g, s0.visited, c0, MoveLeft);
    assert ReachesNewState(g, s0.visited, c0, MoveRight);
    assert NewStateMoves(g, s0.visited, c0, [MoveRight]) == [MoveRight];
    assert NewStateMoves(g, s0.visited, c0, [MoveLeft, MoveRight]) == [MoveLeft, MoveRight];
  }

  /** The second turn on the detour board: back to the start is not new, on to the
      switch tile is. */
  lemma DetourSecondTurn(g: Grid, s: Search)
    requires DetourCorridor(g)
    requires s.shadow == Config((1, 2), Red) && s.mode == Forward
    requires Shaped(s.visited, g) && FramesOk(s.stack)
    requires Marked(s.visited, (1, 3), Red)
    requires !Marked(s.visited, (1, 1), Red) && !Marked(s.visited, (1, 1), Green)
    ensures var r := Turn(g, s.shadow, s);
      r.decision == Go(MoveLeft) && r.world == Config((1, 1), Red) && r.search.shadow == r.world &&
      r.search.stack == s.stack + [Frame(MoveLeft, [])] && OnDeadEndSwitch(g, r.search)
  {
    var v := s.visited;
    assert ReachesNewState(g, v, s.shadow, MoveLeft);
    assert !ReachesNewState(g, v, s.shadow, MoveRight);
    assert NewStateMoves(g, v, s.shadow, [MoveRight]) == [];
    assert NewStateMoves(g, v, s.shadow, [MoveLeft, MoveRight]) == [MoveLeft];
  }

  /** As written, on the dead-end switch tile the switch always looks like a move to
      a new state: the agent switches, leaves everything it has recorded as it was,
      and is in the same situation with one more frame on its stack. */
  lemma DeadEndSwitchTurn(g: Grid, s: Search)
    requires DeadEndSwitch(g) && OnDeadEndSwitch(g, s)
    ensures Placed(g, s.shadow)
    ensures var r := Turn(g, s.shadow, s);
      r.decision == Go(Switch) && r.world == r.search.shadow &&
      r.world == Config((1, 1), Toggled(s.shadow.passable)) &&
      r.search == s.(shadow := r.world, stack := s.stack + [Frame(Switch, [])]) &&
      OnDeadEndSwitch(g, r.search)
  {
    var v := s.visited;
    if s.shadow.passable == Red {
      assert !ReachesNewState(g, v, s.shadow, MoveRight);
      assert ReachesNewState(g, v, s.shadow, Switch);
      assert NewStateMoves(g, v, s.shadow, [MoveRight, Switch]) == [Switch];
    } else {
      assert ReachesNewState(g, v, s.shadow, Switch);
      assert NewStateMoves(g, v, s.shadow, [Switch]) == [Switch];
    }
  }

  /** The game goes on after a pass that asked for a move other than 'finish'.
      Every other answer ends the driver loop through an exception: winning, "goal
      is not reachable", or reading the top of an empty stack. */
  predicate Ongoing(r: Round) {
    r.decision.Go? && r.decision.move != Finish
  }

  /** The passes of the driver loop from a given round, with at most `n` more of
      them allowed: the board and agent state when the loop stops, either because
      the allowance is used up or because a pass ended the game. */
  function Rounds(g: Grid, r: Round, n: nat): (last: Round)
    requires Placed(g, r.world) && Placed(g, r.search.shadow)
    requires Shaped(r.search.visited, g) && FramesOk(r.search.stack)
    ensures Placed(g, last.world) && Placed(g, last.search.shadow)
    ensures Shaped(last.search.visited, g) && FramesOk(last.search.stack)
    ensures n == 0 || !Ongoing(r) ==> last == r
    decreases n, 1
  {
    if n == 0 || !Ongoing(r) then r else Advance(g, r, n)
  }

  /** The passes from a round after which the game goes on, when at least one more
      is allowed: the next pass, then the others. */
  function Advance(g: Grid, r: Round, n: nat): (last: Round)
    requires Placed(g, r.world) && Placed(g, r.search.shadow)
    requires Shaped(r.search.visited, g) && FramesOk(r.search.stack)
    requires n > 0 && Ongoing(r)
    ensures Placed(g, last.world) && Placed(g, last.search.shadow)
    ensures Shaped(last.search.visited, g) && FramesOk(last.search.stack)
    decreases n, 0
  {
    Rounds(g, Turn(g, r.world, r.search), n - 1)
  }

  /** The agent forward on the dead-end switch tile, in step with the real board. */
  predicate Switching(g: Grid, r: Round) {
    Ongoing(r) && r.world == r.search.shadow && OnDeadEndSwitch(g, r.search) && Placed(g, r.world)
  }

  /** Once on the dead-end switch tile, every later pass of the driver loop is a
      switch, and the agent stays on that tile in the same situation. */
  lemma {:induction false} SwitchesForever(g: Grid, r: Round, n: nat)
    requires DeadEndSwitch(g) && Switching(g, r)
    ensures Switching(g, Rounds(g, r, n))
    ensures n > 0 ==> Rounds(g, r, n).decision == Go(Switch)
    decreases n
  {
    if n > 0 {
      var next := SwitchStep(g, r, n);
      SwitchesForever(g, next, n - 1);
      if n == 1 {
        assert Rounds(g, r, n) == next;
      } else {
        assert Rounds(g, r, n) == Rounds(g, next, n - 1);
      }
    }
  }

  /** One pass of the loop on the dead-end switch tile, as a value. */
  lemma SwitchStep(g: Grid, r: Round, n: nat) returns (next: Round)
    requires DeadEndSwitch(g) && Switching(g, r) && n > 0
    ensures next.decision == Go(Switch) && Switching(g, next)
    ensures Rounds(g, r, n) == Rounds(g, next, n - 1)
    ensures n == 1 ==> Rounds(g, r, n) == next
  {
    DeadEndSwitchTurn(g, r.search);
    next := Turn(g, r.world, r.search);
  }

  /** As written, on the detour board the agent walks left onto the switch tile and
      then switches for ever: however many passes the driver loop makes, it never
      asks to finish, although the goal is two steps from the start. */
  lemma DetourNeverFinishes(n: nat)
    ensures Placed(Detour, Config((1, 3), Red))
    ensures var c0 := Config((1, 3), Red);
      var r1 := Turn(Detour, c0, InitialSearch(Detour, c0));
      var r2 := Turn(Detour, r1.world, r1.search);
      r1.decision == Go(MoveLeft) && r2.decision == Go(MoveLeft) &&
      (n > 0 ==> Rounds(Detour, r2, n).decision == Go(Switch)) &&
      Rounds(Detour, r2, n).world.pos == (1, 1)
  {
    DetourStartMoves();
    DetourRedTileMoves();
    DetourSwitchRedMoves();
    DetourSwitchGreenMoves();
    var c0 := Config((1, 3), Red);
    DetourFirstTurn(Detour);
    var r1 := Turn(Detour, c0, InitialSearch(Detour, c0));
    DetourSecondTurn(Detour, r1.search);
    var r2 := Turn(Detour, r1.world, r1.search);
    assert Switching(Detour, r2);
    SwitchesForever(Detour, r2, n);
  }
}
