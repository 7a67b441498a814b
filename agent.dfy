/** The backtracking agent: a depth-first explorer that records, per tile, the
    switch positions in force when it left that tile by a step, keeps a stack of
    decision points, and follows its own copy of the board. */
module Backtracking {
  import opened Maze

  datatype Mode = Forward | Backtrack

  /** One decision point: the move taken there and the alternatives not yet tried. */
  datatype Frame = Frame(taken: Move, others: seq<Move>)

  /** What the agent answers when asked for a move. `GoalUnreachable` is the
      "goal is not reachable" failure; `StackUnderflow` is reading the top of an
      empty decision stack. */
  datatype Decision = Go(move: Move) | GoalUnreachable | StackUnderflow

  /** Per tile, the switch positions in force when the agent left that tile by a step,
      in the order first recorded. */
  type Visited = seq<seq<seq<Color>>>

  /** The agent's whole state; `shadow` is the configuration of its own board. */
  datatype Search = Search(visited: Visited, shadow: Config, mode: Mode, stack: seq<Frame>)

  /** A decision together with the agent state it leaves. */
  datatype Choice = Choice(decision: Decision, next: Search)

  /** The visited record has one entry per grid tile. */
  predicate Shaped(v: Visited, g: Grid) {
    |v| == |g| && forall i :: 0 <= i < |v| ==> |v[i]| == |g[i]|
  }

  /** The agent has left `p` by a step while the switch was at `c`. */
  predicate Marked(v: Visited, p: Pos, c: Color) {
    0 <= p.0 < |v| && 0 <= p.1 < |v[p.0]| && c in v[p.0][p.1]
  }

  /** One of "", "r", "g", "rg", "gr". */
  predicate CellOk(cell: seq<Color>) {
    cell in {[], [Red], [Green], [Red, Green], [Green, Red]}
  }

  predicate NoRepeats(v: Visited) {
    forall i, j :: 0 <= i < |v| && 0 <= j < |v[i]| ==> CellOk(v[i][j])
  }

  /** No frame mentions 'finish': every recorded move can be reversed. */
  predicate FramesOk(st: seq<Frame>) {
    forall k :: 0 <= k < |st| ==> st[k].taken != Finish && Finish !in st[k].others
  }

  /** A visited record with nothing marked, shaped like `g`. */
  function Unvisited(g: Grid): (v: Visited)
    ensures Shaped(v, g) && NoRepeats(v)
    ensures forall p, c :: !Marked(v, p, c)
  {
    seq(|g|, i requires 0 <= i < |g| => seq(|g[i]|, j => []))
  }

  /** The state set_board gives an agent for a board in configuration `c`. */
  function InitialSearch(g: Grid, c: Config): (s: Search)
    ensures Shaped(s.visited, g) && NoRepeats(s.visited) && FramesOk(s.stack)
    ensures s.shadow == c && s.mode == Forward && s.stack == []
    ensures forall p, d :: !Marked(s.visited, p, d)
  {
    Search(Unvisited(g), c, Forward, [])
  }

  /** Record that the agent left `p` with the switch at `c`, appending `c` to
      the tile's entry unless it is already there. */
  function Mark(v: Visited, p: Pos, c: Color): (w: Visited)
    requires 0 <= p.0 < |v| && 0 <= p.1 < |v[p.0]|
    ensures |w| == |v| && forall i :: 0 <= i < |v| ==> |w[i]| == |v[i]|
    ensures forall q, d :: Marked(w, q, d) <==> Marked(v, q, d) || (q == p && d == c)
    ensures forall i, j :: 0 <= i < |v| && 0 <= j < |v[i]| && (i, j) != p ==> w[i][j] == v[i][j]
    ensures |w[p.0][p.1]| >= |v[p.0][p.1]| && w[p.0][p.1][..|v[p.0][p.1]|] == v[p.0][p.1]
    ensures NoRepeats(v) ==> NoRepeats(w)
  {
    var cell := v[p.0][p.1];
    if c in cell then v
    else
      assert CellOk(cell) ==> CellOk(cell + [c]) by {
        if CellOk(cell) { CellGrows(cell, c); }
      }
      v[p.0 := v[p.0][p.1 := cell + [c]]]
  }

  /** A colour missing from a well-formed entry can be appended to it. */
  lemma CellGrows(cell: seq<Color>, c: Color)
    requires CellOk(cell) && c !in cell
    ensures CellOk(cell + [c])
  {
    if cell == [] {
      assert cell + [c] == [c];
    } else if cell == [Red] {
      assert cell + [c] == [Red, Green];
    } else if cell == [Green] {
      assert cell + [c] == [Green, Red];
    }
  }

  /** Whether `m` takes the actor to a tile it has not left by a step under the
      current switch position. For 'switch' that tile is the actor's own. */
  function ReachesNewState(g: Grid, v: Visited, c: Config, m: Move): (isNew: bool)
    requires Placed(g, c) && Shaped(v, g) && m != Finish
    ensures isNew <==> !Marked(v, PositionAfterMove(c.pos, m), c.passable)
  {
    var q := PositionAfterMove(c.pos, m);
    c.passable !in v[q.0][q.1]
  }

  /** The offered moves that reach a new state, in the order offered. */
  function NewStateMoves(g: Grid, v: Visited, c: Config, possible: seq<Move>): (pm: seq<Move>)
    requires Placed(g, c) && Shaped(v, g) && Finish !in possible
    ensures forall m :: m in pm <==> m in possible && ReachesNewState(g, v, c, m)
    ensures pm == [] ==> forall m :: m in possible ==> !ReachesNewState(g, v, c, m)
    ensures InVocabularyOrder(possible) ==> InVocabularyOrder(pm)
  {
    if possible == [] then []
    else
      var rest := NewStateMoves(g, v, c, possible[1..]);
      if ReachesNewState(g, v, c, possible[0]) then
        assert InVocabularyOrder(possible) ==> InVocabularyOrder([possible[0]] + rest) by {
          if InVocabularyOrder(possible) {
            HeadFirst(possible);
            PrependOrdered(possible[0], rest);
          }
        }
        [possible[0]] + rest
      else rest
  }

  /** When no offered move reaches a new state, the list of new-state moves is empty. */
  lemma {:induction false} NoNewStateMoves(g: Grid, v: Visited, c: Config, possible: seq<Move>)
    requires Placed(g, c) && Shaped(v, g) && Finish !in possible
    requires forall m :: m in possible ==> !ReachesNewState(g, v, c, m)
    ensures NewStateMoves(g, v, c, possible) == []
    decreases |possible|
  {
    if possible != [] {
      assert possible[0] in possible;
      NoNewStateMoves(g, v, c, possible[1..]);
    }
  }

  /** The decision procedure of the agent's `move`, given the moves the real board offers. */
  function Decide(g: Grid, s: Search, possible: seq<Move>): (r: Choice)
    requires Placed(g, s.shadow) && Shaped(s.visited, g) && FramesOk(s.stack)
    ensures r.next.visited == s.visited && r.next.shadow == s.shadow
    ensures FramesOk(r.next.stack)
    ensures Finish in possible ==> r == Choice(Go(Finish), s)
  {
    if Finish in possible then Choice(Go(Finish), s)
    else if s.mode == Forward then
      var pmoves := NewStateMoves(g, s.visited, s.shadow, possible);
      if |pmoves| == 0 then
        var s' := s.(mode := Backtrack);
        if |s.stack| == 0 then Choice(StackUnderflow, s')
        else Choice(Go(ReverseMove(s.stack[|s.stack| - 1].taken)), s')
      else
        Choice(Go(pmoves[0]), s.(stack := s.stack + [Frame(pmoves[0], pmoves[1..])]))
    else
      if |s.stack| == 0 then Choice(GoalUnreachable, s)
      else
        var top := s.stack[|s.stack| - 1];
        var rest := s.stack[..|s.stack| - 1];
        if |top.others| == 0 then
          if |rest| == 0 then Choice(StackUnderflow, s.(stack := rest))
          else Choice(Go(ReverseMove(rest[|rest| - 1].taken)), s.(stack := rest))
        else
          Choice(Go(top.others[0]),
                 s.(mode := Forward, stack := rest + [Frame(top.others[0], top.others[1..])]))
  }

  /** Forward with a new state in reach: the agent takes the first such move in
      vocabulary order and records all the others as alternatives. */
  lemma {:induction false} ForwardAdvance(g: Grid, s: Search, possible: seq<Move>, m: Move)
    requires Placed(g, s.shadow) && Shaped(s.visited, g) && FramesOk(s.stack)
    requires s.mode == Forward && Finish !in possible && InVocabularyOrder(possible)
    requires m in possible && ReachesNewState(g, s.visited, s.shadow, m)
    ensures var r := Decide(g, s, possible);
      r.decision.Go? && r.decision.move in possible &&
      ReachesNewState(g, s.visited, s.shadow, r.decision.move) &&
      Rank(r.decision.move) <= Rank(m) &&
      r.next.mode == Forward && |r.next.stack| == |s.stack| + 1 &&
      r.next.stack[..|s.stack|] == s.stack &&
      r.next.stack[|s.stack|].taken == r.decision.move &&
      (forall x :: x in r.next.stack[|s.stack|].others <==>
         x in possible && ReachesNewState(g, s.visited, s.shadow, x) && x != r.decision.move) &&
      InVocabularyOrder(r.next.stack[|s.stack|].others)
  {
    var pm := NewStateMoves(g, s.visited, s.shadow, possible);
    HeadFirst(pm);
    assert m in pm;
    var k :| 0 <= k < |pm| && pm[k] == m;
    assert k == 0 || Rank(pm[0]) < Rank(pm[k]);
    forall x | x in pm[1..] ensures x != pm[0] {
      var j :| 0 <= j < |pm[1..]| && pm[1..][j] == x;
      assert Rank(pm[0]) < Rank(pm[j + 1]);
    }
    var r := Decide(g, s, possible);
    assert r.next.stack == s.stack + [Frame(pm[0], pm[1..])];
    forall x | x in pm && x != pm[0] ensures x in pm[1..] {
      var j :| 0 <= j < |pm| && pm[j] == x;
      assert j != 0 && pm[1..][j - 1] == x;
    }
  }

  /** Forward with nothing new in reach: the agent turns to backtracking, keeps the
      stack and walks back along the move on top of it. */
  lemma ForwardDeadEnd(g: Grid, s: Search, possible: seq<Move>)
    requires Placed(g, s.shadow) && Shaped(s.visited, g) && FramesOk(s.stack)
    requires s.mode == Forward && Finish !in possible
    requires forall m :: m in possible ==> !ReachesNewState(g, s.visited, s.shadow, m)
    ensures var r := Decide(g, s, possible);
      r.next == s.(mode := Backtrack) &&
      r.decision == if s.stack == [] then StackUnderflow
                    else Go(ReverseMove(s.stack[|s.stack| - 1].taken))
  {
    NoNewStateMoves(g, s.visited, s.shadow, possible);
  }

  /** Backtracking pops exactly one frame; a frame with an alternative left is
      replaced by one that takes it, so the stack keeps its height. */
  lemma BacktrackStep(g: Grid, s: Search, possible: seq<Move>)
    requires Placed(g, s.shadow) && Shaped(s.visited, g) && FramesOk(s.stack)
    requires s.mode == Backtrack && Finish !in possible
    ensures var r := Decide(g, s, possible);
      var n := |s.stack|;
      (n == 0 ==> r == Choice(GoalUnreachable, s)) &&
      (n > 0 && s.stack[n - 1].others == [] ==>
         r.next == s.(stack := s.stack[..n - 1]) &&
         r.decision == if n == 1 then StackUnderflow else Go(ReverseMove(s.stack[n - 2].taken))) &&
      (n > 0 && s.stack[n - 1].others != [] ==>
         var alt := s.stack[n - 1].others;
         r.decision == Go(alt[0]) && alt[0] != Finish && r.next.mode == Forward &&
         |r.next.stack| == n && r.next.stack[..n - 1] == s.stack[..n - 1] &&
         r.next.stack[n - 1] == Frame(alt[0], alt[1..]))
  {
  }

  /** What percept does with the move that was just played. */
  function Perceive(g: Grid, s: Search, m: Move): (t: Search)
    requires Placed(g, s.shadow) && Shaped(s.visited, g)
    ensures Placed(g, t.shadow) && Shaped(t.visited, g)
    ensures NoRepeats(s.visited) ==> NoRepeats(t.visited)
    ensures t.mode == s.mode && t.stack == s.stack
    ensures forall p, c :: Marked(s.visited, p, c) ==> Marked(t.visited, p, c)
    ensures forall p, c :: Marked(t.visited, p, c) ==>
      Marked(s.visited, p, c) || (m.IsDirectional() && p == s.shadow.pos && c == s.shadow.passable)
    ensures m.IsDirectional() ==> Marked(t.visited, s.shadow.pos, s.shadow.passable)
    ensures m != Finish ==> t.shadow == Apply(g, s.shadow, m).after
    ensures m == Finish ==> t == s
  {
    if m.IsDirectional() then
      s.(visited := Mark(s.visited, s.shadow.pos, s.shadow.passable),
         shadow := Apply(g, s.shadow, m).after)
    else if m == Switch then
      s.(shadow := Apply(g, s.shadow, Switch).after)
    else s
  }

  /** The agent, with its own board that it keeps in step through `Percept`. */
  class BacktrackingAgent {
    var board: Board
    var visited: Visited
    var stateStack: seq<Frame>
    var mode: Mode

    ghost predicate Valid()
      reads this, board
    {
      board.Valid() && Shaped(visited, board.grid) && NoRepeats(visited) && FramesOk(stateStack)
    }

    function State(): Search
      reads this, board
    {
      Search(visited, board.State(), mode, stateStack)
    }

    /** An agent created with a board, which __init__ hands on to set_board. */
    constructor (initBoard: Board)
      requires initBoard.Valid()
      ensures Valid() && board == initBoard
      ensures State() == InitialSearch(initBoard.grid, initBoard.State())
    {
      board := initBoard;
      visited := Unvisited(initBoard.grid);
      stateStack := [];
      mode := Forward;
    }

    /** Adopt `initBoard` as the agent's own board and forget all exploration. */
    method SetBoard(initBoard: Board)
      requires initBoard.Valid()
      modifies this
      ensures Valid() && board == initBoard
      ensures State() == InitialSearch(initBoard.grid, initBoard.State())
    {
      board := initBoard;
      visited := Unvisited(initBoard.grid);
      stateStack := [];
      mode := Forward;
    }

    /** The agent's `move`: `env` is asked only for the moves it offers. */
    method SelectMove(env: Board) returns (d: Decision)
      requires Valid() && env.Valid()
      modifies this
      ensures Valid() && board == old(board) && visited == old(visited)
      ensures Choice(d, State()) == Decide(board.grid, old(State()), PossibleMoves(env.grid, env.State()))
    {
      var possibleMoves := PossibleMoves(env.grid, env.State());
      if Finish in possibleMoves {
        return Go(Finish);
      }
      if mode == Forward {
        var pmoves := NewStateMoves(board.grid, visited, board.State(), possibleMoves);
        if |pmoves| == 0 {
          mode := Backtrack;
          if |stateStack| == 0 {
            return StackUnderflow;
          }
          var takenMove := stateStack[|stateStack| - 1].taken;
          return Go(ReverseMove(takenMove));
        }
        stateStack := stateStack + [Frame(pmoves[0], pmoves[1..])];
        return Go(pmoves[0]);
      } else {
        if |stateStack| == 0 {
          return GoalUnreachable;
        }
        var top := stateStack[|stateStack| - 1];
        stateStack := stateStack[..|stateStack| - 1];
        var btrPossibleMoves := top.others;
        if |btrPossibleMoves| == 0 {
          if |stateStack| == 0 {
            return StackUnderflow;
          }
          return Go(ReverseMove(stateStack[|stateStack| - 1].taken));
        }
        mode := Forward;
        stateStack := stateStack + [Frame(btrPossibleMoves[0], btrPossibleMoves[1..])];
        return Go(btrPossibleMoves[0]);
      }
    }

    /** The agent's `percept`: mark the tile it stands on (before moving) and play
        the same move on its own board. */
    method Percept(m: Move)
      requires Valid()
      modifies this, board
      ensures Valid() && board == old(board)
      ensures State() == Perceive(board.grid, old(State()), m)
    {
      if m.IsDirectional() {
        visited := Mark(visited, board.actorPos, board.passable);
        var _ := board.MakeMove(m);
      } else if m == Switch {
        var _ := board.MakeMove(Switch);
      }
    }
  }
}
