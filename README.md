# Switch maze with a backtracking agent, in Dafny

The program is a small maze game. A rectangular board of tiles has
- walls `W`;
- open tiles ` `;
- a start tile `B` and a goal `E`;
- switch tiles `S`;
- coloured tiles `r` and `g`.

The actor moves one tile up, down, left or right. It may also flip the board's single switch while standing on an `S` tile, or finish while standing on `E`. A coloured tile can be entered only while the switch is at its colour; the switch starts at `r`.

A backtracking agent plays the game as a depth-first search. It records, per tile, the switch position in force each time it leaves that tile by a step. It keeps a stack of decision points (the move taken, the alternatives not yet tried), switches between going forward and backtracking, and follows the game on its own copy of the board, which it updates through `percept`.

The project has six modules:

- `Maze` (`maze.dfy`): tiles, the six-move vocabulary, and the board rules as functions.
  - `Apply` is `make_move` as a value.
  - The class `Board` holds the grid, the actor position and the switch position. Its constructor runs the start-tile scan as a loop. `MakeMove` is the only mutator and is proved against `Apply`.
- `Backtracking` (`agent.dfy`): the agent.
  - `Decide` is the decision procedure of `move` and `Perceive` is `percept`, both as functions of the agent state.
  - The class `BacktrackingAgent` holds the visited record, the stack, the mode and its own `Board`. Its methods `SelectMove` and `Percept` change these in place and are proved against `Decide` and `Perceive`.
- `Exploration` (`exploration.dfy`): one pass of the driver loop (ask for a move, play it on the real board, report it to the agent) as the function `Turn`, and the search invariant `Inv`. `Inv` says:
  - the stack is the path of moves from the start;
  - the agent's own board is in step with the real one;
  - the agent only ever asks for moves the real board allows.
- `Findings` (`findings.dfy`): three places where the agent as written misbehaves, each shown on a concrete board.
- `Termination` (`termination.dfy`): the corrected agent (`DecideCorrected` and `PerceiveCorrected`), and the proof that every game it plays ends.
- `CorrectedDetour` (`corrected_detour.dfy`): the corrected agent on the board where the agent as written switches for ever, followed pass by pass to the goal.

Three points of the code shape the model:
- `percept` records the tile the agent is leaving, before the move is played on its board (game.py:250-253).
- `possible_moves` returns a list in the order of `all_moves`, not a set (game.py:97).
- A win is signalled by raising an exception in `make_move` (game.py:141); here it is the outcome `Won`.

Grids must have a wall all round (the comment at game.py:306). The model proves that the actor then always stands inside that border, so no neighbour look-up leaves the grid. Python's negative indices never come into play.

## Model

| member | source | states |
|---|---|---|
| Maze.Rank | game.py:70-71 | every move has a place in the fixed vocabulary order, and that place holds the move |
| Maze.AllMovesInOrder | game.py:70-71 | the vocabulary lists every move, each once, in vocabulary order |
| Maze.TileState | game.py:32-33 | the tile at a position of the grid; on a walled board every tile of the outer ring is a wall |
| Maze.IsTileFree | game.py:36-44 | a tile can be entered iff it is not a wall and, when coloured, its colour is the switch position; so ' ', 'B', 'E', 'S' always can and 'W' never can |
| Maze.PositionAfterMove | game.py:100-115 | 'switch' keeps the position; each directional move reaches a horizontally or vertically adjacent tile |
| Maze.ReverseMove | game.py:74-90 | every move but 'finish' has a reverse, which is never 'finish'; it is 'switch' exactly for 'switch' |
| Maze.ReverseMoveUndoes | game.py:74-90 | reversing twice gives the move back, and the reverse move walks back to the position the move started from |
| Maze.Toggled | game.py:132-136 | flipping the switch always changes its position |
| Maze.IsMovePossible | game.py:48-67 | a directional move is possible iff its destination (in bounds) can be entered; 'switch' iff the actor is on 'S'; 'finish' iff on 'E' |
| Maze.PossibleAmong | game.py:96-97 | filtering a candidate list keeps exactly the possible candidates and keeps their order |
| Maze.PossibleMoves | game.py:93-97 | contains exactly the possible moves, each once, in vocabulary order |
| Maze.HeadFirst | game.py:93-97 | the head of a list in vocabulary order ranks before every other member; the tail holds exactly the other members and is itself in vocabulary order |
| Maze.PrependOrdered | game.py:93-97 | a move ranked before every member of a list in vocabulary order can be put in front and the list stays in vocabulary order |
| Maze.OrderedByMembers | game.py:93-97 | two move lists in vocabulary order with the same members are equal, so the possible-move list is fixed by which moves are possible |
| Maze.FreeIsInterior | game.py:306 | on a walled board every enterable tile is off the outer ring |
| Maze.Apply | game.py:118-145 | a move is refused iff it is not possible, and a refused move changes nothing; 'finish' wins iff possible; a directional move goes to the adjacent tile with the switch unchanged; 'switch' flips the switch in place; the actor stays on an enterable interior tile |
| Maze.UndoMove | game.py:74-90 | right after any possible move, its reverse is possible and restores the position and the switch |
| Maze.SwitchTwice | game.py:132-136 | on an 'S' tile, switching twice restores the board |
| Maze.FindBegin | game.py:10-14 | the nested scan finds nothing iff there is no 'B', and otherwise the last 'B' in row-by-row order |
| Maze.Board.constructor | game.py:5-17 | a new board places the actor on the last 'B' of the scan with the switch at 'r', and satisfies the board invariant |
| Maze.Board.MakeMove | game.py:118-145 | the outcome and the new actor and switch positions are those of Apply on the old ones; the board invariant is kept |
| Backtracking.Unvisited | game.py:175 | the fresh visited record has one entry per tile and nothing marked |
| Backtracking.InitialSearch | game.py:174-177 | set_board leaves nothing marked, an empty stack, forward mode, and the agent's board as given |
| Backtracking.Mark | game.py:250-252 | marking adds exactly the one (tile, switch) pair, appends to the entry without reordering it, touches no other tile, and keeps every entry one of "", "r", "g", "rg", "gr" |
| Backtracking.CellGrows | game.py:164-168 | appending a missing switch letter to an allowed entry gives an allowed entry |
| Backtracking.ReachesNewState | game.py:180-186 | a move is new iff its destination is not marked with the current switch position (for 'switch', the actor's own tile) |
| Backtracking.NewStateMoves | game.py:203 | keeps exactly the offered moves that reach a new state, in the offered order, and is empty iff none does |
| Backtracking.NoNewStateMoves | game.py:203-207 | when no offered move reaches a new state, the list of new-state moves is empty, so the forward step turns round |
| Backtracking.Decide | game.py:189-240 | 'finish' is answered whenever offered; the visited record and the agent's board are untouched; no frame ever records 'finish' |
| Backtracking.ForwardAdvance | game.py:203-217 | going forward with a new state in reach: the agent answers the first new-state move in vocabulary order, pushes exactly one frame for it, and records every other new-state move, and only those, as alternatives |
| Backtracking.ForwardDeadEnd | game.py:207-210 | going forward with nothing new: switch to backtracking, stack unchanged, answer the reverse of the top frame's move (an empty stack is an underflow) |
| Backtracking.BacktrackStep | game.py:219-240 | backtracking: an empty stack answers "goal is not reachable"; otherwise one frame is popped; without alternatives the answer is the reverse of the new top's move (underflow if none); with one, the stack height is kept and the first alternative is taken going forward |
| Backtracking.Perceive | game.py:243-255 | marks only grow; the only new mark is the agent's tile and switch position before a directional move; 'switch' and directional moves are played on the agent's board; 'finish' changes nothing |
| Backtracking.BacktrackingAgent.constructor | game.py:153-155 | an agent created with a board starts in the state set_board gives |
| Backtracking.BacktrackingAgent.SetBoard | game.py:158-177 | the agent adopts the board and its state becomes InitialSearch |
| Backtracking.BacktrackingAgent.SelectMove | game.py:189-240 | the answer and the new mode and stack are those of Decide on the moves the real board offers; the visited record and own board are untouched |
| Backtracking.BacktrackingAgent.Percept | game.py:243-255 | the new agent state is Perceive of the old one; the visited entries stay well formed |
| Exploration.Turn | game.py:283-287 | one pass of the driver loop keeps both boards valid, never unmarks anything and keeps the visited entries well formed |
| Exploration.InitialInvariant | game.py:275 | a game just set up satisfies the search invariant |
| Exploration.UndoTop | game.py:209-210 | walking back along the top frame's move is possible and returns to where that frame was pushed |
| Exploration.PushFrame | game.py:214-215 | pushing a frame that is legal where the stack leads keeps the stack a path from the start |
| Exploration.MoveKeeps | game.py:243-255 | after a possible move the invariant needs only the new stack and mode to describe where the move leads |
| Exploration.ForwardPushKeeps | game.py:203-217 | a forward step to a new state asks for a possible move and keeps the invariant |
| Exploration.ForwardDeadEndKeeps | game.py:207-210 | turning round at a dead end asks for a possible move and keeps the invariant |
| Exploration.BacktrackPopKeeps | game.py:228-233 | popping a frame without alternatives asks for a possible move and keeps the invariant |
| Exploration.BacktrackResumeKeeps | game.py:234-240 | taking a frame's next alternative asks for a possible move and keeps the invariant |
| Exploration.TurnKeepsInvariant | game.py:189-255 | every move the agent asks for is possible on the real board, 'finish' always wins, and every other pass keeps the search invariant |
| Findings.UnreachableNeverAnswered | game.py:224-225 | under the search invariant the "goal is not reachable" answer is never given |
| Findings.ForwardAtStartUnderflows | game.py:207-210 | going forward with nothing new at an empty stack reads the top of the empty stack |
| Findings.LastPopUnderflows | game.py:228-233 | popping the last frame with no alternative left reads the top of the emptied stack |
| Findings.CorridorFirstTurn | game.py:203-217 | on a one-way corridor the first pass steps right, pushes a frame with no alternatives, and marks the start tile |
| Findings.CorridorSecondTurn | game.py:207-210 | at the corridor's end with the start marked, the agent turns round: it answers left, switches to backtracking and keeps the stack |
| Findings.CorridorThirdTurn | game.py:228-233 | back at the start while backtracking, the agent pops the only frame and reads the empty stack, where the corrected decision reports the goal unreachable |
| Findings.CorridorExhaustionUnderflows | game.py:233 | on a start tile with one open neighbour the agent steps there and back and then reads an empty stack, where the corrected decision reports the goal unreachable |
| Findings.BoxedStartUnderflows | game.py:209 | on a walled-in start tile the first decision reads an empty stack, where the corrected decision reports the goal unreachable |
| Findings.DetourGoalReachable | game.py:118-145 | on the detour board the goal is two steps right of the start |
| Findings.DetourFirstTurn | game.py:203-217 | on the detour board the first pass goes left, keeps 'right' as the alternative, and marks only the start tile |
| Findings.DetourSecondTurn | game.py:203-217 | the second pass goes left again onto the unmarked switch tile and pushes a frame, leaving the agent forward on a dead-end switch tile |
| Findings.DeadEndSwitchTurn | game.py:250-255 | on a dead-end switch tile never left by a directional move, the agent switches, records nothing, and is in the same situation with one more frame |
| Findings.Rounds | game.py:269-287 | the driver loop plays at most `n` more passes (`max_moves`) and stops at the first answer that ends the game ('finish', "goal is not reachable", an empty-stack read), which the source ends by raising (game.py:329-332); every pass keeps both boards valid |
| Findings.SwitchesForever | game.py:277-287 | once on the dead-end switch tile, every later pass asks for 'switch' and leaves the agent there in the same situation |
| Findings.DetourNeverFinishes | game.py:184-186 | on the detour board the agent goes left twice and then switches for ever; it never asks to finish, however many passes the loop makes |
| Termination.DecideCorrected | game.py:189-240 | the decision with both empty-stack reads answered "goal is not reachable"; the new agent state is that of the code as written |
| Termination.CorrectedReportsExhaustion | game.py:224-233 | the corrected decision never reads an empty stack, reports the goal unreachable exactly when the search is exhausted, and then the stack is empty and the actor is back at the start |
| Termination.PerceiveCorrected | game.py:249-255 | percept as written for every move but 'switch'; on 'switch' it also records the state left; every move other than 'finish' records the state left |
| Termination.TurnCorrected | game.py:283-287 | a corrected pass keeps both boards valid and in step and never reads an empty stack |
| Termination.MarkRecords | game.py:250-252 | recording a state removes exactly that state from the unrecorded ones |
| Termination.AlternativesPush | game.py:214-215 | pushing a frame adds its alternatives to those the stack holds |
| Termination.RecordAndMove | game.py:249-255 | a corrected percept never increases what is left to discover, and decreases it unless both the state left and the state reached were already recorded |
| Termination.TurnProgress | game.py:189-255 | every corrected pass that neither finishes nor gives up either decreases what is left to discover, or keeps it and decreases the pending work on the stack |
| Termination.ForwardProgress | game.py:203-217 | going forward, a move that leaves and reaches already recorded states is only ever the turn-round at a dead end: the mode becomes backtracking and the stack is unchanged |
| Termination.BacktrackProgress | game.py:219-240 | every backtracking step that asks for a move strictly decreases the pending work on the stack |
| Termination.RunCorrected | game.py:277-287 | the corrected search always ends: its last answer is 'finish', which wins, or "goal is not reachable" |
| CorrectedDetour.Steps | game.py:127-131 | an offered directional move is possible and lands on the neighbouring tile in its direction, under the same switch position |
| CorrectedDetour.ForwardGoes | game.py:211-217 | going forward with a new state in reach, the answer is the first new-state move and exactly one frame is pushed, keeping the other new-state moves |
| CorrectedDetour.NewStateOfTwo | game.py:203 | of two offered moves, the new-state ones are kept in the offered order |
| CorrectedDetour.Advances | game.py:283-287 | a corrected pass whose answer is a move other than 'finish' plays it on the real board, records the state left, follows the move on the agent's board with the mode and stack the decision left, and the run goes on from there |
| CorrectedDetour.StartBothNew | game.py:180-186 | at the start with nothing recorded, both neighbours of the detour board's start reach new states |
| CorrectedDetour.Pass1 | game.py:203-217 | first pass on the detour board: left and right are new, the agent answers left and pushes a frame keeping right |
| CorrectedDetour.Pass2 | game.py:203-217 | second pass: only left is new, the agent answers left onto the switch tile and pushes a frame with no alternatives |
| CorrectedDetour.Pass3 | game.py:203-217 | on the switch tile at red only 'switch' is new; the agent switches and pushes a frame |
| CorrectedDetour.Pass4 | game.py:203-217 | on the switch tile at green 'switch' is new; the agent switches back and pushes another frame |
| CorrectedDetour.Pass5 | game.py:207-210 | back at red on the switch tile nothing is new: the agent turns to backtracking and undoes the last switch, keeping the stack |
| CorrectedDetour.Pass6 | game.py:228-233 | backtracking pops the second switch frame and answers the reverse of the first, 'switch' |
| CorrectedDetour.Pass7 | game.py:228-233 | backtracking pops the first switch frame and answers right, the reverse of the step onto the switch tile |
| CorrectedDetour.Pass8 | game.py:228-233 | backtracking pops the step onto the switch tile and answers right, back to the start |
| CorrectedDetour.Pass9 | game.py:234-240 | at the start the first frame still keeps right: the agent pops it, goes forward again and answers right |
| CorrectedDetour.Pass10 | game.py:203-217 | right of the start only right is new; the agent answers right onto the goal |
| CorrectedDetour.Pass11 | game.py:197-198 | on the goal 'finish' is offered and answered, and the run ends there |
| CorrectedDetour.From1 | game.py:277-287 | from the start with nothing recorded, the corrected run ends with 'finish' on the goal tile |
| CorrectedDetour.DetourHasShape | game.py:93-97 | the detour board offers, on each tile the agent visits, the moves the passes rely on |
| CorrectedDetour.DetourCorrectedWins | game.py:277-287 | with both corrections the agent reaches the detour board's goal and wins: the run ends with 'finish' on the goal tile, two steps right of the start |

## Left out

- `Environment.play_game` (game.py:269-294) is modelled by `Turn` for one pass and by `Rounds` for the loop, whose pass allowance `n` is `max_moves`. Timing, console output and the `input()` pauses are not modelled.
- `print_board` and the debug prints inside `move` are console output and are not modelled.
- The `elapsed` timing list and the `sum`/`mean` statistics printed on winning are floating-point telemetry and are not modelled.
- Exceptions are left out. Winning is the outcome `Won`. "Goal is not reachable" is the decision `GoalUnreachable`. Reading the top of an empty stack (game.py:209, 233) is the decision `StackUnderflow`. The unknown-move exceptions cannot arise, because moves form a closed datatype.
- The sample boards `board1`/`board2` and the `__main__` block are left out as sample data. The concrete boards used in the findings are written out in `findings.dfy`.
- `Maze.Board.constructor` requires a 'B' tile and a walled border. The source leaves `actor_pos` unset without a 'B', and relies on the border for in-bounds neighbours.
- `BacktrackingAgent.__init__` without a board (`init_board = None`) is not modelled. The agent is then unusable until `set_board`, which `Backtracking.BacktrackingAgent.SetBoard` models.
- The agent's board and the real board are separate objects. The model does not prove that they never alias. `Exploration` reasons about them as values.
- Termination of the search as written is not claimed: it does not always terminate (see Findings).

## Findings

| source | as written | input that shows it | evidently intended | confidence | as-written member | corrected member |
|---|---|---|---|---|---|---|
| game.py:233 | after popping the last frame, which has no alternatives, `move` reads `state_stack[-1]` of the now empty stack (IndexError). The "goal is not reachable" branch at game.py:224-225 is then never reached. | board `WWWW / WB W / WWWW`: the agent moves right, then left, then fails on the empty stack | report that the goal is not reachable once the search is exhausted | high; not executed | Findings.CorridorExhaustionUnderflows | Termination.CorrectedReportsExhaustion |
| game.py:209 | going forward with no new-state move and an empty stack reads `state_stack[-1]` (IndexError) | board `WWW / WBW / WWW`: the very first call of `move` fails | report that the goal is not reachable | high; not executed | Findings.BoxedStartUnderflows | Termination.CorrectedReportsExhaustion |
| game.py:250-255 | `percept` records a state only when the agent leaves a tile by a directional move, never on 'switch'. So on a switch tile it has not yet left, 'switch' always reaches a "new" state. | board `WWWWWWW / WSrB EW / WWWWWWW`: the agent goes left twice onto 'S' and then switches for ever, never reaching the goal two tiles right of the start | record the state left on every move, so that no state is re-entered as new and the search ends | medium; not executed | Findings.DetourNeverFinishes | CorrectedDetour.DetourCorrectedWins |

The classes `Board` and `BacktrackingAgent` model the code as written, with the empty-stack reads as the explicit result `StackUnderflow`. `Termination.DecideCorrected` and `Termination.PerceiveCorrected` define the corrected behaviour. `Termination.RunCorrected` runs the agent with both corrections and is proved to end. `CorrectedDetour.DetourCorrectedWins` proves that on the detour board this run reaches the goal and wins.
