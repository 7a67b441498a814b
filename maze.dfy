/** The maze: tiles, the six-move vocabulary, the passability switch and the
    board whose actor position and switch position change move by move. */
module Maze {

  datatype Option<T> = None | Some(value: T)

  /** The two switch positions; 'r' is the position a new board starts in. */
  datatype Color = Red | Green

  /** 'W', ' ', 'B', 'E', 'S', and the coloured tiles 'r' and 'g'. */
  datatype Tile = Wall | Space | Begin | End | SwitchTile | Colored(color: Color)

  /** The fixed move vocabulary. */
  datatype Move = MoveUp | MoveDown | MoveLeft | MoveRight | Switch | Finish
  {
    /** The moves whose name starts with "move". */
    predicate IsDirectional() {
      MoveUp? || MoveDown? || MoveLeft? || MoveRight?
    }
  }

  /** What applying a move does: refused, done, or the game is won. */
  datatype Outcome = Rejected | Applied | Won

  type Pos = (int, int)
  type Grid = seq<seq<Tile>>

  /** The mutable part of a board: where the actor stands and what is passable. */
  datatype Config = Config(pos: Pos, passable: Color)

  /** A move's outcome together with the board configuration it leaves. */
  datatype Effect = Effect(outcome: Outcome, after: Config)

  /** The vocabulary in the order every move list is produced in. */
  const AllMoves: seq<Move> := [MoveUp, MoveDown, MoveLeft, MoveRight, Switch, Finish]

  /** The index of a move in AllMoves. */
  function Rank(m: Move): (k: nat)
    ensures k < |AllMoves| && AllMoves[k] == m
  {
    match m
    case MoveUp => 0
    case MoveDown => 1
    case MoveLeft => 2
    case MoveRight => 3
    case Switch => 4
    case Finish => 5
  }

  /** The moves of `ms` come in vocabulary order, each at most once. */
  predicate InVocabularyOrder(ms: seq<Move>) {
    forall i, j :: 0 <= i < j < |ms| ==> Rank(ms[i]) < Rank(ms[j])
  }

  predicate Rectangular(g: Grid) {
    |g| > 0 && forall i :: 0 <= i < |g| ==> |g[i]| == |g[0]|
  }

  predicate InBounds(g: Grid, p: Pos) {
    0 <= p.0 < |g| && 0 <= p.1 < |g[p.0]|
  }

  /** Not on the outermost ring, so all four neighbours are in bounds. */
  predicate Interior(g: Grid, p: Pos) {
    0 < p.0 < |g| - 1 && 0 < p.1 < |g[p.0]| - 1
  }

  /** A rectangular grid whose outermost ring is all walls. */
  predicate WellFormed(g: Grid) {
    Rectangular(g) &&
    forall i, j :: 0 <= i < |g| && 0 <= j < |g[i]| && !Interior(g, (i, j)) ==> g[i][j] == Wall
  }

  /** There is a 'B' tile somewhere in the grid. */
  predicate HasBegin(g: Grid) {
    exists i, j :: 0 <= i < |g| && 0 <= j < |g[i]| && g[i][j] == Begin
  }

  /** `p` does not come after `q` in a row-by-row scan of the grid. */
  predicate ScannedNoLater(p: Pos, q: Pos) {
    p.0 < q.0 || (p.0 == q.0 && p.1 <= q.1)
  }

  /** `p` is the 'B' tile a row-by-row scan meets last. */
  predicate IsLastBegin(g: Grid, p: Pos) {
    InBounds(g, p) && g[p.0][p.1] == Begin &&
    forall i, j :: 0 <= i < |g| && 0 <= j < |g[i]| && g[i][j] == Begin ==> ScannedNoLater((i, j), p)
  }

  /** The tile at `p`; on a walled board the outer ring holds only walls. */
  function TileState(g: Grid, p: Pos): (t: Tile)
    requires InBounds(g, p)
    ensures WellFormed(g) && !Interior(g, p) ==> t == Wall
  {
    g[p.0][p.1]
  }

  /** Whether the actor may enter the tile at `p` while the switch is at `passable`. */
  function IsTileFree(g: Grid, passable: Color, p: Pos): (free: bool)
    requires InBounds(g, p)
    ensures free <==>
      TileState(g, p) != Wall &&
      (TileState(g, p).Colored? ==> TileState(g, p).color == passable)
  {
    if TileState(g, p) in [Space, Begin, End, SwitchTile] then true
    else TileState(g, p) == Colored(passable)
  }

  /** Where the actor stands after `m`; 'finish' has no destination. */
  function PositionAfterMove(p: Pos, m: Move): (q: Pos)
    requires m != Finish
    ensures m == Switch ==> q == p
    ensures m.IsDirectional() ==>
      (q.0 == p.0 && (q.1 == p.1 - 1 || q.1 == p.1 + 1)) ||
      (q.1 == p.1 && (q.0 == p.0 - 1 || q.0 == p.0 + 1))
  {
    match m
    case MoveUp => (p.0 - 1, p.1)
    case MoveDown => (p.0 + 1, p.1)
    case MoveLeft => (p.0, p.1 - 1)
    case MoveRight => (p.0, p.1 + 1)
    case Switch => p
  }

  /** The move that undoes `m`; 'finish' is one-way. */
  function ReverseMove(m: Move): (r: Move)
    requires m != Finish
    ensures r != Finish && (r == Switch <==> m == Switch)
  {
    match m
    case MoveUp => MoveDown
    case MoveDown => MoveUp
    case MoveLeft => MoveRight
    case MoveRight => MoveLeft
    case Switch => Switch
  }

  /** Reversing is an involution, and the reverse move walks back to where the actor was. */
  lemma ReverseMoveUndoes(p: Pos, m: Move)
    requires m != Finish
    ensures ReverseMove(ReverseMove(m)) == m
    ensures PositionAfterMove(PositionAfterMove(p, m), ReverseMove(m)) == p
  {
  }

  function Toggled(c: Color): (d: Color)
    ensures d != c
  {
    if c == Red then Green else Red
  }

  /** Whether `m` can be performed in configuration `c`. */
  function IsMovePossible(g: Grid, c: Config, m: Move): (ok: bool)
    requires Rectangular(g) && Interior(g, c.pos)
    ensures m.IsDirectional() ==>
      InBounds(g, PositionAfterMove(c.pos, m)) &&
      (ok <==> IsTileFree(g, c.passable, PositionAfterMove(c.pos, m)))
    ensures m == Switch ==> (ok <==> TileState(g, c.pos) == SwitchTile)
    ensures m == Finish ==> (ok <==> TileState(g, c.pos) == End)
  {
    match m
    case MoveUp => IsTileFree(g, c.passable, (c.pos.0 - 1, c.pos.1))
    case MoveDown => IsTileFree(g, c.passable, (c.pos.0 + 1, c.pos.1))
    case MoveLeft => IsTileFree(g, c.passable, (c.pos.0, c.pos.1 - 1))
    case MoveRight => IsTileFree(g, c.passable, (c.pos.0, c.pos.1 + 1))
    case Switch => TileState(g, c.pos) == SwitchTile
    case Finish => TileState(g, c.pos) == End
  }

  /** The moves of `cands` that are possible in `c`, in the order of `cands`. */
  function PossibleAmong(g: Grid, c: Config, cands: seq<Move>): (ms: seq<Move>)
    requires Rectangular(g) && Interior(g, c.pos)
    ensures forall m :: m in ms <==> m in cands && IsMovePossible(g, c, m)
    ensures InVocabularyOrder(cands) ==> InVocabularyOrder(ms)
  {
    if cands == [] then []
    else
      var rest := PossibleAmong(g, c, cands[1..]);
      if IsMovePossible(g, c, cands[0]) then
        assert InVocabularyOrder(cands) ==> InVocabularyOrder([cands[0]] + rest) by {
          if InVocabularyOrder(cands) {
            HeadFirst(cands);
            PrependOrdered(cands[0], rest);
          }
        }
        [cands[0]] + rest
      else rest
  }

  /** Every possible move, each once, in vocabulary order. */
  function PossibleMoves(g: Grid, c: Config): (ms: seq<Move>)
    requires Rectangular(g) && Interior(g, c.pos)
    ensures forall m :: m in ms <==> IsMovePossible(g, c, m)
    ensures InVocabularyOrder(ms)
  {
    AllMovesInOrder();
    PossibleAmong(g, c, AllMoves)
  }

  /** The vocabulary lists every move once, in vocabulary order. */
  lemma AllMovesInOrder()
    ensures forall m :: m in AllMoves
    ensures InVocabularyOrder(AllMoves)
  {
    forall m ensures m in AllMoves {
      assert AllMoves[Rank(m)] == m;
    }
    forall i | 0 <= i < |AllMoves| ensures Rank(AllMoves[i]) == i {
      if i == 0 {} else if i == 1 {} else if i == 2 {} else if i == 3 {} else if i == 4 {} else {}
    }
  }

  /** A move ranked before every member of a list in vocabulary order can go in front. */
  lemma PrependOrdered(x: Move, rest: seq<Move>)
    requires InVocabularyOrder(rest)
    requires forall m :: m in rest ==> Rank(x) < Rank(m)
    ensures InVocabularyOrder([x] + rest)
  {
    var a := [x] + rest;
    forall i, j | 0 <= i < j < |a| ensures Rank(a[i]) < Rank(a[j]) {
      assert a[j] == rest[j - 1];
      if i == 0 {
        assert rest[j - 1] in rest;
      } else {
        assert a[i] == rest[i - 1];
      }
    }
  }

  /** The head of a list in vocabulary order comes first among its members, and
      the tail holds all the others. */
  lemma HeadFirst(a: seq<Move>)
    requires InVocabularyOrder(a) && a != []
    ensures forall m :: m in a ==> Rank(a[0]) <= Rank(m)
    ensures forall m :: m in a[1..] <==> m in a && m != a[0]
    ensures forall m :: m in a[1..] ==> Rank(a[0]) < Rank(m)
    ensures InVocabularyOrder(a[1..])
  {
    forall m | m in a ensures Rank(a[0]) <= Rank(m) {
      var k :| 0 <= k < |a| && a[k] == m;
    }
    forall m | m in a[1..] ensures Rank(a[0]) < Rank(m) {
      var k :| 0 <= k < |a| - 1 && a[1..][k] == m;
      assert a[k + 1] == m;
    }
    assert a == [a[0]] + a[1..];
  }

  /** A list in vocabulary order is fixed by its members: so the possible-move list
      is fixed by which moves are possible. */
  lemma {:induction false} OrderedByMembers(a: seq<Move>, b: seq<Move>)
    requires InVocabularyOrder(a) && InVocabularyOrder(b)
    requires forall m :: m in a <==> m in b
    ensures a == b
    decreases |a|
  {
    if a != [] {
      assert a[0] in b;
      HeadFirst(a);
      HeadFirst(b);
      assert Rank(a[0]) == Rank(b[0]);
      assert AllMoves[Rank(a[0])] == a[0] && AllMoves[Rank(b[0])] == b[0];
      OrderedByMembers(a[1..], b[1..]);
      assert a == [a[0]] + a[1..] && b == [b[0]] + b[1..];
    } else {
      assert forall m :: m in multiset(b) <==> m in b;
      assert forall m :: multiset(b)[m] == 0;
      assert multiset(b) == multiset{};
    }
  }

  /** The board invariant: the actor stands, inside the walled border, on a tile
      it may occupy under the current switch position. */
  predicate Placed(g: Grid, c: Config) {
    WellFormed(g) && Interior(g, c.pos) && IsTileFree(g, c.passable, c.pos)
  }

  /** The walled border keeps every enterable tile off the outer ring. */
  lemma FreeIsInterior(g: Grid, passable: Color, p: Pos)
    requires WellFormed(g) && InBounds(g, p) && IsTileFree(g, passable, p)
    ensures Interior(g, p)
  {
  }

  /** What make_move does to a board, as a value. */
  function Apply(g: Grid, c: Config, m: Move): (e: Effect)
    requires Placed(g, c)
    ensures Placed(g, e.after)
    ensures e.outcome == Rejected <==> !IsMovePossible(g, c, m)
    ensures e.outcome == Won <==> m == Finish && IsMovePossible(g, c, m)
    ensures e.outcome == Rejected || m == Finish ==> e.after == c
    ensures e.outcome == Applied && m.IsDirectional() ==>
      e.after == Config(PositionAfterMove(c.pos, m), c.passable)
    ensures e.outcome == Applied && m == Switch ==>
      e.after.pos == c.pos && e.after.passable != c.passable
  {
    if !IsMovePossible(g, c, m) then Effect(Rejected, c)
    else if m.IsDirectional() then
      var q := PositionAfterMove(c.pos, m);
      FreeIsInterior(g, c.passable, q);
      Effect(Applied, c.(pos := q))
    else if m == Switch then Effect(Applied, c.(passable := Toggled(c.passable)))
    else Effect(Won, c)
  }

  /** A move the actor has just made can be undone at once: its reverse is possible
      and leads back to the same position and switch setting. */
  lemma {:induction false} UndoMove(g: Grid, c: Config, m: Move)
    requires Placed(g, c) && m != Finish && IsMovePossible(g, c, m)
    ensures IsMovePossible(g, Apply(g, c, m).after, ReverseMove(m))
    ensures Apply(g, Apply(g, c, m).after, ReverseMove(m)) == Effect(Applied, c)
  {
    ReverseMoveUndoes(c.pos, m);
  }

  /** Two switches in a row restore the board. */
  lemma SwitchTwice(g: Grid, c: Config)
    requires Placed(g, c) && TileState(g, c.pos) == SwitchTile
    ensures Apply(g, c, Switch).outcome == Applied
    ensures Apply(g, Apply(g, c, Switch).after, Switch) == Effect(Applied, c)
  {
    UndoMove(g, c, Switch);
  }

  /** The row-by-row scan of __init__ for the 'B' tile; the last one found wins. */
  method FindBegin(g: Grid) returns (found: Option<Pos>)
    ensures found.None? <==> !HasBegin(g)
    ensures found.Some? ==> IsLastBegin(g, found.value)
  {
    found := None;
    var i := 0;
    while i < |g|
      invariant 0 <= i <= |g|
      invariant found.None? <==>
        forall r, k :: 0 <= r < i && 0 <= k < |g[r]| ==> g[r][k] != Begin
      invariant found.Some? ==>
        InBounds(g, found.value) && found.value.0 < i && g[found.value.0][found.value.1] == Begin &&
        forall r, k :: 0 <= r < i && 0 <= k < |g[r]| && g[r][k] == Begin ==> ScannedNoLater((r, k), found.value)
    {
      var j := 0;
      while j < |g[i]|
        invariant 0 <= j <= |g[i]|
        invariant found.None? <==>
          (forall r, k :: 0 <= r < i && 0 <= k < |g[r]| ==> g[r][k] != Begin) &&
          (forall k :: 0 <= k < j ==> g[i][k] != Begin)
        invariant found.Some? ==>
          InBounds(g, found.value) && found.value.0 <= i && g[found.value.0][found.value.1] == Begin &&
          (found.value.0 == i ==> found.value.1 < j) &&
          (forall r, k :: 0 <= r < i && 0 <= k < |g[r]| && g[r][k] == Begin ==> ScannedNoLater((r, k), found.value)) &&
          (forall k :: 0 <= k < j && g[i][k] == Begin ==> ScannedNoLater((i, k), found.value))
      {
        if g[i][j] == Begin {
          found := Some((i, j));
        }
        j := j + 1;
      }
      i := i + 1;
    }
  }

  /** The board of one game: a fixed grid, the actor position and the switch position. */
  class Board {
    const grid: Grid
    var actorPos: Pos
    var passable: Color

    ghost predicate Valid()
      reads this
    {
      Placed(grid, State())
    }

    function State(): Config
      reads this
    {
      Config(actorPos, passable)
    }

    /** The actor starts on the last 'B' of the scan, with the switch at 'r'. */
    constructor (g: Grid)
      requires WellFormed(g) && HasBegin(g)
      ensures Valid() && grid == g
      ensures IsLastBegin(g, actorPos) && passable == Red
    {
      grid := g;
      var found := FindBegin(g);
      actorPos := found.value;
      passable := Red;
      FreeIsInterior(g, Red, found.value);
    }

    /** The only mutator: performs `m` if it is possible and reports the outcome. */
    method MakeMove(m: Move) returns (outcome: Outcome)
      requires Valid()
      modifies this
      ensures Valid()
      ensures Effect(outcome, State()) == Apply(grid, old(State()), m)
    {
      if !IsMovePossible(grid, State(), m) {
        return Rejected;
      }
      if m.IsDirectional() {
        actorPos := PositionAfterMove(actorPos, m);
        outcome := Applied;
      } else if m == Switch {
        passable := Toggled(passable);
        outcome := Applied;
      } else {
        outcome := Won;
      }
    }
  }
}
