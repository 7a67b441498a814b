/** One game as the driver loop plays it: ask the agent for a move, play it on the
    real board, report it to the agent. The invariant proved here says that the
    agent's decision stack is the path from the start, that its own board stays
    in step with the real one, and that every move it asks for is possible. */
module Exploration {
  import opened Maze
  import opened Backtracking

  /** The configuration reached from `c0` by playing the taken moves of `st` in order. */
  function Replay(g: Grid, c0: Config, st: seq<Frame>): (c: Config)
    requires Placed(g, c0)
    ensures Placed(g, c)
    decreases |st|
  {
    if st == [] then c0
    else Apply(g, Replay(g, c0, st[..|st| - 1]), st[|st| - 1].taken).after
  }

  /** Every move a frame records was possible where the frame was pushed. */
  predicate FrameLegalAt(g: Grid, c: Config, f: Frame)
    requires Placed(g, c)
  {
    IsMovePossible(g, c, f.taken) && forall m :: m in f.others ==> IsMovePossible(g, c, m)
  }

  /** Each frame was pushed at the configuration the frames below it lead to. */
  predicate PathConsistent(g: Grid, c0: Config, st: seq<Frame>)
    requires Placed(g, c0)
    decreases |st|
  {
    st == [] ||
    (PathConsistent(g, c0, st[..|st| - 1]) &&
     FrameLegalAt(g, Replay(g, c0, st[..|st| - 1]), st[|st| - 1]))
  }

  /** The state of a game started at `c0`, with the real board at `world`. Going
      forward, the real board stands where the stack's moves lead; backtracking,
      the top frame's move has already been undone. */
  predicate Inv(g: Grid, c0: Config, world: Config, s: Search) {
    Placed(g, c0) && Placed(g, world) && s.shadow == world &&
    Shaped(s.visited, g) && NoRepeats(s.visited) && FramesOk(s.stack) &&
    PathConsistent(g, c0, s.stack) &&
    (s.mode == Forward ==> world == Replay(g, c0, s.stack)) &&
    (s.mode == Backtrack ==> |s.stack| > 0 && world == Replay(g, c0, s.stack[..|s.stack| - 1]))
  }

  /** A decision with the real board and the agent state it leads to. */
  datatype Round = Round(decision: Decision, world: Config, search: Search)

  /** One pass of the driver loop: move, make_move on the real board, percept. */
  function Turn(g: Grid, world: Config, s: Search): (r: Round)
    requires Placed(g, world) && Placed(g, s.shadow) && Shaped(s.visited, g) && FramesOk(s.stack)
    ensures Placed(g, r.world) && Placed(g, r.search.shadow)
    ensures Shaped(r.search.visited, g) && FramesOk(r.search.stack)
    ensures NoRepeats(s.visited) ==> NoRepeats(r.search.visited)
    ensures forall p, c :: Marked(s.visited, p, c) ==> Marked(r.search.visited, p, c)
  {
    var ch := Decide(g, s, PossibleMoves(g, world));
    match ch.decision
    case Go(m) => Round(ch.decision, Apply(g, world, m).after, Perceive(g, ch.next, m))
    case _ => Round(ch.decision, world, ch.next)
  }

  /** A fresh game satisfies the invariant. */
  lemma InitialInvariant(g: Grid, c0: Config)
    requires Placed(g, c0)
    ensures Inv(g, c0, c0, InitialSearch(g, c0))
  {
  }

  /** Stepping back along the top frame's move returns to where that frame was pushed. */
  lemma {:induction false} UndoTop(g: Grid, c0: Config, st: seq<Frame>)
    requires Placed(g, c0) && |st| > 0 && FramesOk(st) && PathConsistent(g, c0, st)
    ensures var below := Replay(g, c0, st[..|st| - 1]);
      IsMovePossible(g, Replay(g, c0, st), ReverseMove(st[|st| - 1].taken)) &&
      Apply(g, Replay(g, c0, st), ReverseMove(st[|st| - 1].taken)) == Effect(Applied, below)
  {
    UndoMove(g, Replay(g, c0, st[..|st| - 1]), st[|st| - 1].taken);
  }

  /** Pushing a frame that is legal where the stack leads keeps the stack a path. */
  lemma {:induction false} PushFrame(g: Grid, c0: Config, st: seq<Frame>, f: Frame)
    requires Placed(g, c0) && PathConsistent(g, c0, st)
    requires FrameLegalAt(g, Replay(g, c0, st), f)
    ensures PathConsistent(g, c0, st + [f])
    ensures Replay(g, c0, st + [f]) == Apply(g, Replay(g, c0, st), f.taken).after
  {
    assert (st + [f])[..|st|] == st;
  }

  /** After a possible move, the invariant only needs the agent's new stack and
      mode to describe where that move leads. */
  lemma {:induction false} MoveKeeps(g: Grid, c0: Config, world: Config, s: Search, m: Move, t: Search)
    requires Inv(g, c0, world, s)
    requires m != Finish && IsMovePossible(g, world, m)
    requires t.visited == s.visited && t.shadow == world
    requires FramesOk(t.stack) && PathConsistent(g, c0, t.stack)
    requires t.mode == Forward ==> Apply(g, world, m).after == Replay(g, c0, t.stack)
    requires t.mode == Backtrack ==>
      |t.stack| > 0 && Apply(g, world, m).after == Replay(g, c0, t.stack[..|t.stack| - 1])
    ensures Inv(g, c0, Apply(g, world, m).after, Perceive(g, t, m))
  {
  }

  /** Going forward to a new state: the pushed frame is legal where the stack led. */
  lemma {:induction false} ForwardPushKeeps(g: Grid, c0: Config, world: Config, s: Search)
    requires Inv(g, c0, world, s) && s.mode == Forward
    requires Finish !in PossibleMoves(g, world)
    requires NewStateMoves(g, s.visited, world, PossibleMoves(g, world)) != []
    ensures var pm := NewStateMoves(g, s.visited, world, PossibleMoves(g, world));
      var t := s.(stack := s.stack + [Frame(pm[0], pm[1..])]);
      Decide(g, s, PossibleMoves(g, world)) == Choice(Go(pm[0]), t) &&
      IsMovePossible(g, world, pm[0]) &&
      Inv(g, c0, Apply(g, world, pm[0]).after, Perceive(g, t, pm[0]))
  {
    var possible := PossibleMoves(g, world);
    var pm := NewStateMoves(g, s.visited, world, possible);
    var f := Frame(pm[0], pm[1..]);
    assert pm[0] in pm;
    forall m | m in f.others ensures IsMovePossible(g, world, m) {
      assert m in pm;
    }
    PushFrame(g, c0, s.stack, f);
    MoveKeeps(g, c0, world, s, pm[0], s.(stack := s.stack + [f]));
  }

  /** A dead end going forward: stepping back along the top frame's move. */
  lemma {:induction false} ForwardDeadEndKeeps(g: Grid, c0: Config, world: Config, s: Search)
    requires Inv(g, c0, world, s) && s.mode == Forward && s.stack != []
    requires Finish !in PossibleMoves(g, world)
    requires NewStateMoves(g, s.visited, world, PossibleMoves(g, world)) == []
    ensures var m := ReverseMove(s.stack[|s.stack| - 1].taken);
      var t := s.(mode := Backtrack);
      Decide(g, s, PossibleMoves(g, world)) == Choice(Go(m), t) &&
      IsMovePossible(g, world, m) &&
      Inv(g, c0, Apply(g, world, m).after, Perceive(g, t, m))
  {
    UndoTop(g, c0, s.stack);
    MoveKeeps(g, c0, world, s, ReverseMove(s.stack[|s.stack| - 1].taken), s.(mode := Backtrack));
  }

  /** Backtracking past a frame with nothing left: stepping back along the next one. */
  lemma {:induction false} BacktrackPopKeeps(g: Grid, c0: Config, world: Config, s: Search)
    requires Inv(g, c0, world, s) && s.mode == Backtrack && |s.stack| > 1
    requires Finish !in PossibleMoves(g, world)
    requires s.stack[|s.stack| - 1].others == []
    ensures var rest := s.stack[..|s.stack| - 1];
      var m := ReverseMove(rest[|rest| - 1].taken);
      var t := s.(stack := rest);
      Decide(g, s, PossibleMoves(g, world)) == Choice(Go(m), t) &&
      IsMovePossible(g, world, m) &&
      Inv(g, c0, Apply(g, world, m).after, Perceive(g, t, m))
  {
    var n := |s.stack|;
    var rest := s.stack[..n - 1];
    var m := ReverseMove(rest[n - 2].taken);
    var t := s.(stack := rest);
    assert rest[n - 2] == s.stack[n - 2];
    assert PathConsistent(g, c0, rest);
    assert world == Replay(g, c0, rest);
    UndoTop(g, c0, rest);
    assert IsMovePossible(g, world, m);
    assert rest[..n - 2] == s.stack[..n - 2];
    assert Apply(g, world, m).after == Replay(g, c0, rest[..n - 2]);
    BacktrackStep(g, s, PossibleMoves(g, world));
    assert Decide(g, s, PossibleMoves(g, world)) == Choice(Go(m), t);
    MoveKeeps(g, c0, world, s, m, t);
  }

  /** Backtracking to a frame with an alternative left: taking it from the same place. */
  lemma {:induction false} BacktrackResumeKeeps(g: Grid, c0: Config, world: Config, s: Search)
    requires Inv(g, c0, world, s) && s.mode == Backtrack
    requires Finish !in PossibleMoves(g, world)
    requires s.stack[|s.stack| - 1].others != []
    ensures var rest := s.stack[..|s.stack| - 1];
      var alt := s.stack[|s.stack| - 1].others;
      var t := s.(mode := Forward, stack := rest + [Frame(alt[0], alt[1..])]);
      Decide(g, s, PossibleMoves(g, world)) == Choice(Go(alt[0]), t) &&
      IsMovePossible(g, world, alt[0]) &&
      Inv(g, c0, Apply(g, world, alt[0]).after, Perceive(g, t, alt[0]))
  {
    var n := |s.stack|;
    var top := s.stack[n - 1];
    var rest := s.stack[..n - 1];
    var f := Frame(top.others[0], top.others[1..]);
    assert FrameLegalAt(g, world, top);
    forall m | m in f.others ensures IsMovePossible(g, world, m) {
      assert m in top.others;
    }
    PushFrame(g, c0, rest, f);
    assert (rest + [f])[..n - 1] == rest;
    var t := s.(mode := Forward, stack := rest + [f]);
    BacktrackStep(g, s, PossibleMoves(g, world));
    assert Decide(g, s, PossibleMoves(g, world)) == Choice(Go(f.taken), t);
    MoveKeeps(g, c0, world, s, f.taken, t);
  }

  /** Every turn keeps the invariant, and every move the agent asks for is possible
      on the real board (so make_move never refuses it, and 'finish' wins). */
  lemma {:induction false} TurnKeepsInvariant(g: Grid, c0: Config, world: Config, s: Search)
    requires Inv(g, c0, world, s)
    ensures var r := Turn(g, world, s);
      (r.decision.Go? ==> IsMovePossible(g, world, r.decision.move)) &&
      (r.decision == Go(Finish) ==> Apply(g, world, Finish).outcome == Won) &&
      (r.decision.Go? && r.decision.move != Finish ==> Inv(g, c0, r.world, r.search))
  {
    var possible := PossibleMoves(g, world);
    if Finish in possible {
    } else if s.mode == Forward {
      if NewStateMoves(g, s.visited, world, possible) != [] {
        ForwardPushKeeps(g, c0, world, s);
      } else if s.stack != [] {
        ForwardDeadEndKeeps(g, c0, world, s);
      }
    } else if s.stack[|s.stack| - 1].others != [] {
      BacktrackResumeKeeps(g, c0, world, s);
    } else if |s.stack| > 1 {
      BacktrackPopKeeps(g, c0, world, s);
    }
  }
}
