# Onet tile matching, in Dafny

A model of the game logic of `script.js`. This is an Onet (Shisen-sho)
tile-matching game on an 8×8 board holding 32 pairs of animal tiles.

- **Selecting tiles.** The player clicks two tiles of the same type.
- **Connection rule.** The pair is removed when the two tiles can be joined
  by a path. The path runs through cleared cells. It changes direction at
  most twice.
- **Score.** Each pair removed is worth 10 points.
- **Winning.** The game is won when every tile has been matched.

The project has five modules:

| module | file | what it holds |
|---|---|---|
| `Board` | `board.dfy` | Tiles and the board as a value. The bounds and "clear cell" tests. Setting a cell's matched flag. Counting unmatched cells. |
| `Paths` | `paths.dfy` | The four directions and the number of turns along a path. What makes a path a legal connection: at least two cells, unit steps, every cell after the first clear, at most two turns. |
| `Search` | `search.dfy` | The breadth-first path search, imperative as in the source. It uses a FIFO queue of search states and an `array2` `visited` table that is updated in place. |
| `Deal` | `deal.dfy` | Building the pairs, the Fisher-Yates shuffle of an `array`, and the row-by-row layout of the shuffled tiles. |
| `Game` | `game.dfy` | The class `Game` holding the global state `board`, `selectedTiles` and `score`. Its methods are the page-load and button handlers, the connection check, the click handler, clearing the selection, and the win check. |

`Game.Valid()` is the class invariant:
- the board has its shape;
- at most two tiles are selected, and they are distinct;
- every selected tile is unmatched;
- twice the score is 10 points for every matched cell.

From this invariant, `WinIffFullScore` proves that the board is cleared exactly when the score reaches 320.

The source's random choice in the shuffle (`Math.floor(Math.random() * (i + 1))`) becomes a parameter. `choices[i]` is the index drawn at step `i`, and each one is at most `i`.

## Model

| member | source | states |
|---|---|---|
| Board.BoundsIndexBoard | script.js:279-281 | The bounds test accepts exactly the row and column pairs that index a cell of the board. |
| Board.IsCellClear | script.js:284-292 | A cell outside the board is never clear, so no path leaves the board. |
| Board.TileTypesDistinct | script.js:7 | There are eight tile types, and no two are the same. |
| Board.SetMatched | script.js:147-148 | Setting a cell's matched flag changes only that cell's flag. Its type and every other cell stay as they were. |
| Board.MarkClears | script.js:202-204 | Marking a tile matched makes its cell clear for the search. No other cell changes whether it is clear. |
| Board.MarkBoth | script.js:203-204 | Marking both endpoints sets both their matched flags and keeps their types. Every other cell is unchanged. |
| Board.UnmarkBoth | script.js:203-210 | Marking both endpoints and then clearing both flags leaves the board with both flags false and everything else untouched. When both endpoints were unmatched, this is the original board. |
| Board.AllMatchedIffNoneLeft | script.js:331-336 | Every cell is matched exactly when the count of unmatched cells is zero. |
| Board.FreshBoardUnmatched | script.js:56-58 | A board with no matched cell has 64 unmatched cells and is not won. |
| Board.MatchOneCell | script.js:147-148 | Matching an unmatched cell lowers the unmatched count by exactly one. |
| Paths.Neighbour | script.js:29-34 | A step in any of the four directions moves exactly one cell along a row or a column. |
| Paths.DirectionOf | script.js:29-34 | Recognises the unit steps Up, Down, Left and Right as directions 0 to 3, and nothing else. |
| Paths.NeighbourDirection | script.js:247-248 | Stepping in direction `d` is recognised as a step in direction `d`. |
| Paths.TurnsExtend | script.js:251-256 | Extending a path adds one turn exactly when the new step's direction differs from the previous step's. |
| Paths.RaysDisjoint | script.js:29-34 | The straight lines leaving a cell in different directions never meet. |
| Paths.StraightPath | script.js:251-256 | A path without turns keeps its first direction and lies on the straight line from its first cell. |
| Search.TurnAfterStep | script.js:251-256 | One more step adds a turn to a path exactly when its direction differs from the direction of the path's last step. |
| Search.TurnsAfterStep | script.js:251-256 | TurnAfterStep for every path of at least two cells at once. |
| Search.NextTurns | script.js:251-256 | For every path of at least two cells that arrives in the state's direction with the state's turn count, the counter update equals the turn count of that path extended by one step in direction `d`. |
| Search.Record | script.js:233 | Writing a record into `visited` changes that one cell and keeps the table equal to the search's ghost record updated the same way. |
| Search.SeedsQueuedNext | script.js:221-235 | After each seeding step, the queue holds, in direction order, the seed state of every earlier direction whose neighbour is clear, and nothing else. |
| Search.VisitsAreSeedsNext | script.js:233 | Recording a seed keeps every `visited` record that of a neighbour of `tile1` entered without turns. |
| Search.SeedEntry | script.js:221-234 | Each state seeded from `tile1` is a one-step path from `tile1` with no turns, lying on the straight line in its direction. |
| Search.ExtendEntry | script.js:250-270 | Extending a search state by a clear neighbour within the turn cap yields a state whose path still starts at `tile1`. That path steps cell by cell, runs through clear cells, and carries its true direction and turn count. |
| Search.QueueKeysShift | script.js:238 | Taking the queue's head removes exactly the head's state from the queued states. |
| Search.QueueKeysPush | script.js:263-269 | Pushing adds exactly the new state to the queued states. |
| Search.TicketSpent | script.js:261-262 | A cell entered with strictly fewer turns than before uses up one (cell, turns) pair that can never be reused. This bounds the search. |
| Search.EnqueueKeeps | script.js:261-270 | Queuing a neighbour keeps every queued state a legal partial path. It records the neighbour in `visited` and strictly shrinks the set of unused (cell, turns) pairs. |
| Search.EnqueueQueue | script.js:263-269 | Pushing a legal state keeps every queued state legal, and its key joins the keys queued or expanded. |
| Search.EnqueueCovers | script.js:261-262 | After a neighbour is recorded, the states already expanded and the direction just explored still have their neighbours recorded with at most the needed turns. |
| Search.SkipKeeps | script.js:250-261 | A neighbour that is blocked, over the turn cap or already entered with as few turns needs no queuing. |
| Search.ExploreDirection | script.js:247-270 | When the neighbour is clear, within two turns and not entered with as few turns, the step appends exactly the one-step extension of `current` and records it at that cell only. Otherwise the queue and `visited` are unchanged. The search facts are kept, the direction is covered, and the termination measure does not grow. |
| Search.StepsAppendedNext | script.js:246-272 | Each pass of the direction loop keeps the old queue as a prefix and appends at most the extension in the current direction. |
| Search.ExploredNext | script.js:246-272 | Each pass of the direction loop keeps these facts about the directions done so far. The extensions appended are exactly those the guard admits against `visited` as it was before the loop. Each admitted neighbour is recorded with its direction and turn count. Each rejected neighbour on the board keeps its record. No cell that is not a neighbour of `current` changes. The proof uses the fact that the four neighbours are distinct cells, so an earlier direction never changes the guard of a later one. |
| Search.Explore | script.js:246-272 | Expanding a state keeps the old queue as its prefix. It appends at most four states, each the one-step extension of `current` in its direction, in direction order. The extension in direction `d` is appended exactly when the guard admits it against `visited` as it was on entry (`QueuedIffAdmitted`). Each admitted neighbour is recorded as entered from `d` with the updated turn count (`AdmittedRecorded`). Each neighbour on the board that the guard rejects keeps its record (`RejectedKept`). Every cell that is not a neighbour of `current` keeps its record (`OnlyNeighboursChanged`). It covers all four directions out of `current` and keeps the search facts. |
| Search.SeedNeighbours | script.js:217-235 | Creates a fresh `visited` table. The queue holds exactly the seed states of the clear neighbours of `tile1`, in direction order: each is a two-cell path with no turns, and there are at most four. Every record in `visited` is such a seed, and every other cell is empty. |
| Search.ShiftKeeps | script.js:237-238 | Taking the head off the queue yields a legal state and keeps the search facts. |
| Search.StraightLineFollowed | script.js:221-273 | Once the queue is exhausted without reaching `tile2`, no straight clear line joins `tile1` to `tile2`. |
| Search.FindPathBFS | script.js:216-276 | A returned path is a legal connection from `tile1` to `tile2` on the board searched: at most two turns, through clear cells. A search that returns nothing proves that no straight clear line joins the two tiles. |
| Deal.PairedTypesStep | script.js:42-46 | Each pass of the pair loop appends two tiles of the next type in turn. |
| Deal.DoubledCount | script.js:44-45 | Pushing every type twice doubles the number of tiles of each type. |
| Deal.PicksBlock | script.js:42-43 | Every eight consecutive pairs run through all eight types. |
| Deal.PicksCount | script.js:39-46 | The 32 pairs hold each of the eight types exactly four times. |
| Deal.Swap | script.js:69 | The exchange puts each of the two elements at the other's index and leaves the rest alone. |
| Deal.SwapPermutes | script.js:69 | An exchange keeps the same elements. |
| Deal.ShuffleFromPermutes | script.js:67-70 | Every stretch of the shuffle keeps the length and the elements. |
| Deal.ShufflePermutes | script.js:66-72 | The shuffle is a permutation: same length, same elements. |
| Deal.ShuffleArray | script.js:66-72 | The in-place loop leaves the array equal to the Fisher-Yates shuffle of its old contents under the drawn choices. |
| Deal.Layout | script.js:52-62 | The layout is an 8×8 board. |
| Deal.LayoutRow | script.js:54-60 | The row built for row `row` is row `row` of the laid-out board. |
| Deal.LayoutKinds | script.js:51-62 | Reading the laid-out board row by row gives back the shuffled tiles, and no tile of it is matched. |
| Deal.DealtBoard | script.js:37-63 | A dealt board is fully unmatched (64 cells left). Every type occurs twice as often as among the pairs, so an even number of times. Each animal occurs exactly eight times, and no other type appears. |
| Game.WinIffFullScore | script.js:149 | With the score paying for the matched cells, the board is cleared exactly when the score is 320. |
| Game.ScoreBounds | script.js:149 | The score stays between 0 and 320. |
| Game.UnmatchedAtMost | script.js:52-62 | A board has at most 64 unmatched cells. |
| Game.MatchKeepsScore | script.js:145-149 | Matching two distinct unmatched tiles and adding 10 points keeps the score paying for the matched cells. |
| Game.Game.constructor | script.js:379-382 | The page load deals the board for the drawn choices, with nothing selected and a score of 0. The class invariant holds. |
| Game.Game.InitializeBoard | script.js:37-63 | Builds the pairs, shuffles them in an array and lays them out. The board becomes the board dealt under the choices, and the selection and score are untouched. |
| Game.Game.Restart | script.js:343-358 | The shuffle and reset buttons deal a new board, reset the score to 0 and clear the selection. The class invariant holds. |
| Game.Game.CanConnect | script.js:193-213 | The same tile twice yields no path and leaves the board alone. Otherwise both endpoints end unmatched and nothing else changes, so an unmatched pair leaves the board exactly as it was. A returned path is a legal connection on the board with both endpoints marked. Any straight clear line between them is found. |
| Game.Game.HandleTileClick | script.js:112-178 | Keeps the class invariant. Clicks on a matched tile, with two tiles pending, or on a selected tile change nothing. A first click selects the tile. A second click on a tile of the same type with a connection matches the pair and scores 10; it reports the win exactly when the board is cleared. Any other second click leaves both tiles selected, with board and score unchanged; for same-type tiles this means no straight connection exists. |
| Game.Game.DeselectTiles | script.js:181-185 | Clears the selection and nothing else. The class invariant holds. |
| Game.Game.CheckWinCondition | script.js:331-340 | Scans row by row and reports a win exactly when every tile is matched. |

## Left out

- Rendering and the page:
  - The page's elements: the tile elements, CSS classes, the score text, the canvas drawing of the path (`drawConnectionPath`, `getTilePosition`) and the win `alert`. These are presentation, not game state.
  - The sound effects and the volume and mute controls. These are browser audio.
- `Math.random`: the shuffle's random index is the parameter `choices`, and any choices satisfying `choices[i] <= i` are allowed.
- `setTimeout`:
  - The half-second delay before a failed pair is deselected is left out. `DeselectTiles` is the separate step the timer runs.
  - The timed removal of the `invalid` class and of the drawn path is presentation.
- Reading the clicked row and column from the element's data attributes is left out. `HandleTileClick` takes the two numbers and requires them to be on the board, as every tile element's attributes are.
- The type comparison at script.js:198-200 is not modelled. `canConnect` receives coordinate objects, which carry no type, so the comparison is between two undefined values and never fails. The type check that matters is the one at script.js:145, which is modelled.
- `Search.FindPathBFS`: completeness is proved only for straight connections.
  - A search that kept one state per (cell, incoming direction) would keep a second arrival at a cell with the same number of turns from another direction. This code keeps one `visited` record per cell (script.js:218, 261) and compares only turn counts, so such an arrival is dropped.
  - That arrival can be the only way on. Take `tile1` at (0,0) and `tile2` at (3,4), with only these cells clear: (0,1), (0,2), (1,0), (2,0), (2,1), (1,2), (2,2), (3,2) and (3,3).
    - Cell (2,2) is first entered moving right with one turn, so the arrival from above with one turn is dropped.
    - The search then ends without a path.
    - Yet right, right, down, down, down, right, right is a legal connection with two turns.
  - The model follows the code. It proves that every returned path is a legal connection. It proves that no straight connection is missed. It does not claim that connections with one or two turns are always found.
- `Game.Game.CanConnect`: likewise, it promises only that straight connections are found.
- `Game.Game.HandleTileClick`: for the same reason, after a mismatch between same-type tiles it states only that no straight connection exists.
- The shuffle and reset buttons both run the same code. `Restart` models both.
