# Connect-4 game model in Dafny

This project models the game logic of an iOS Connect-4 app: the bitboard value
type (`Bitboard.swift`) and the game object that records placements and detects
wins and draws (`Connect4GameModel.swift`). It proves what that logic promises.

- A `Bitboard` holds one player's pieces as the 64 bits of an `Int64`.
  - Bit `7 * column + row` is the cell in that column and row, counted from the bottom.
  - Bit `7 * column + 6` above each column is a guard bit.
  - `hasConnection` finds four in a line with the shift-and-AND test: the board is ANDed with itself shifted right by 1, 2 and 3 times a direction's distance (1, 7, 6 or 8).
- `Connect4GameModel` keeps three things:
  - the list of moves;
  - two bitboards;
  - each column's next free bit.

  `recordPlacement` refuses a column that is out of range or full. Otherwise it drops the piece and reports a win by the mover, or a draw once the 42nd move is played.

Modules:

- `Int64Bits` (`int64_bits.dfy`): the bits of an `Int64` as a `bv64`.
  - `IsSet` says whether bit i is 1.
  - `Bits` is the set of indices of the 1 bits.
  - There are single-place and repeated shifts, both logical and arithmetic.
  - Lemmas turn `&`, `|`, `^` and the shifts into set operations on `Bits`.
- `Bitboards` (`bitboard.dfy`): the `Bitboard` struct and its operators, including Swift's "smart" shifts.
  - The operators carry their bit-level meaning.
  - The main theorem: on a board of playable cells, `hasConnection(inDirections: allCases)` holds exactly when the board owns four grid cells in a line along one of the four axes.
- `BitboardExamples` (`bitboard_examples.dfy`): the boards of the bitboard unit tests and their expected results.
- `GameModel` (`game_model.dfy`): the game object as a class with the Swift fields.
  - Its invariant `Valid()` says:
    - the columns' heights stay between the bottom cell and the guard bit;
    - the two boards are disjoint and together hold exactly the cells below the heights;
    - each height minus the column's start equals the number of moves recorded in that column.
  - Every operation keeps the invariant.
  - From the invariant follow:
    - the playability of both boards;
    - the move bound;
    - the piece count;
    - the draw condition.
- `GameScenarios` (`game_scenarios.dfy`): the placement, spaces-left, vertical-win and horizontal-win unit tests of the game model, as client methods of the class.

## Model

| member | source | states |
|---|---|---|
| Int64Bits.AndBit | Connect-4/Models/Bitboard.swift:71-73 | bit i of `x & y` is set iff it is set in both |
| Int64Bits.OrBit | Connect-4/Models/Bitboard.swift:63-65 | bit i of the bitwise OR of x and y is set iff it is set in either |
| Int64Bits.XorBit | Connect-4/Models/Bitboard.swift:67-69 | bit i of `x ^ y` is set iff exactly one of them has it |
| Int64Bits.ShiftLeftByBit | Connect-4/Models/Bitboard.swift:55-57 | bit i of x shifted left by n is bit i - n of x, and 0 below n and at 64 or above |
| Int64Bits.ShiftRightByBit | Connect-4/Models/Bitboard.swift:59-61 | bit i of x shifted right logically by n is bit i + n of x, and 0 past bit 63 (used for `ArithmeticShiftIsLogical`) |
| Int64Bits.ArithShiftRightByBit | Connect-4/Models/Bitboard.swift:59-61 | bit i of x shifted right arithmetically by n is bit i + n of x, or the sign bit once i + n passes 63 |
| Int64Bits.ZeroIffNoBits | Connect-4/Models/Bitboard.swift:44 | a word is 0 iff none of its bits is set |
| Int64Bits.BitsInjective | Connect-4/Models/Bitboard.swift:5-26 | two raw values with the same set bits are equal (the struct's `Equatable` compares raw values) |
| Int64Bits.BitsAnd | Connect-4/Models/Bitboard.swift:71-73 | the bits of `x & y` are the intersection of the bit sets |
| Int64Bits.BitsOr | Connect-4/Models/Bitboard.swift:63-65 | the bits of the bitwise OR of x and y are the union of the bit sets |
| Int64Bits.BitsXor | Connect-4/Models/Bitboard.swift:67-69 | the bits of `x ^ y` are the symmetric difference of the bit sets |
| Int64Bits.XorDisjointIsOr | Connect-4/Models/Bitboard.swift:32-34 | on words with no common bit, XOR equals OR |
| Int64Bits.BitsSingle | Connect-4/Models/Connect4GameModel.swift:77 | the word with only bit h set has exactly bit h |
| Bitboards.Direction.Distance | Connect-4/Models/Bitboard.swift:7-12 | a direction's distance is 1 (vertical), 6, 7 or 8 bit places |
| Bitboards.RawValueIsDistance | Connect-4/Models/Bitboard.swift:37-42 | a raw value, its double and its triple, read as `Int64`, are the distance and its multiples, so the three right shifts go by d, 2d and 3d places |
| Bitboards.SmartShiftLeftBit | Connect-4/Models/Bitboard.swift:55-57 | `<<` with a non-negative distance shifts left and fills with zeros; with a negative distance it shifts right and copies the sign bit in |
| Bitboards.SmartShiftRightBit | Connect-4/Models/Bitboard.swift:59-61 | `>>` with a non-negative distance shifts right and copies the sign bit in; with a negative distance it shifts left |
| Bitboards.ArithmeticShiftIsLogical | Connect-4/Models/Bitboard.swift:59-61 | on a non-negative raw value, the arithmetic right shift equals the logical one |
| Bitboards.OperatorBits | Connect-4/Models/Bitboard.swift:63-73 | OR, XOR and AND on boards are the union, the symmetric difference and the intersection of their cells |
| Bitboards.MakeMoveTwice | Connect-4/Models/Bitboard.swift:32-34 | making the same move twice gives back the original board |
| Bitboards.MakeMoveOnFreeCell | Connect-4/Models/Bitboard.swift:32-34 | a one-bit move on a free cell adds exactly that cell, and equals the bitwise OR of board and move |
| Bitboards.ConjunctionNonZero | Connect-4/Models/Bitboard.swift:44 | the four-way AND is non-zero iff the four bit sets have a common element |
| Bitboards.ConnectedInAtDistance | Connect-4/Models/Bitboard.swift:40-44 | the shift-and-AND test for one direction holds iff some bit survives the three shifted ANDs at that distance |
| Bitboards.ConnectedInIff | Connect-4/Models/Bitboard.swift:40-46 | one direction's test holds iff the sign-extended board has four set bits at i, i+d, i+2d and i+3d, for some i |
| Bitboards.HasRunSplit | Connect-4/Models/Bitboard.swift:39-47 | a run exists along one of the listed directions iff it exists along the first direction or along the rest |
| Bitboards.HasConnectionIff | Connect-4/Models/Bitboard.swift:36-50 | `hasConnection` holds iff some listed direction has such a run of four; an empty list gives false |
| Bitboards.RunAtNonNegative | Connect-4/Models/Bitboard.swift:59-61 | on a board with the sign bit clear, a sign-extended run of four is four set bits that all lie below bit 64 |
| Bitboards.HasConnectionNonNegative | Connect-4/Models/Bitboard.swift:36-50 | on a board with the sign bit clear, `hasConnection` holds iff four bits of the board, all below bit 64 and spaced by a listed distance, are set |
| Bitboards.NoConnectionOnEmpty | Connect-4/Models/Bitboard.swift:28-30 | the default board `Bitboard()` has no connection in any direction list |
| Bitboards.HasRunMonotone | Connect-4/Models/Bitboard.swift:36-50 | a board with more bits keeps every run of four |
| Bitboards.HasConnectionMonotone | Connect-4/Models/Bitboard.swift:36-50 | adding pieces never removes a connection |
| Bitboards.DistanceIsNeighbourDelta | Connect-4/Models/Bitboard.swift:7-25 | each direction's distance is the bit distance between neighbouring cells along its axis in the column-major layout |
| Bitboards.PlayableStep | Connect-4/Models/Bitboard.swift:19-25 | between two playable bits one distance apart, column and row change by the axis's step |
| Bitboards.CellOfPlayableBit | Connect-4/Models/Bitboard.swift:19-25 | a playable bit is the cell at column i / 7, row i % 7 |
| Bitboards.PlayableRunCells | Connect-4/Models/Bitboard.swift:19-25 | four playable bits spaced by a distance are four grid cells in a line along its axis |
| Bitboards.RunIsLine | Connect-4/Models/Bitboard.swift:19-25 | on a playable board, a run of four set bits is a line of four owned cells |
| Bitboards.LineIsRun | Connect-4/Models/Bitboard.swift:19-25 | a line of four owned cells is a run of four set bits below bit 49 |
| Bitboards.HasConnectionIsLineOfFour | Connect-4/Models/Bitboard.swift:36-50 | on a playable board, `hasConnection` over a direction list holds iff the board owns four cells in a line along one of the listed axes |
| Bitboards.HasConnectionInAllDirections | Connect-4/Models/Bitboard.swift:7-12 | searching all four cases finds exactly the horizontal, vertical and diagonal lines of four |
| Bitboards.MoveBits | Connect-4/Models/Connect4GameModel.swift:77 | `1 << h` for a height below 64 has exactly bit h set |
| Bitboards.PlayableIsNonNegative | Connect-4/Models/Bitboard.swift:19-26 | a board of playable cells never sets the sign bit |
| BitboardExamples.ShiftOperators | Connect-4/Models/Bitboard.swift:55-61 | `4 << 1 == 8` and `4 >> 1 == 2`, as in `testBoardShiftLeftOperator` and `testBoardShiftRightOperator` of BitboardTests.swift |
| BitboardExamples.BitwiseOperators | Connect-4/Models/Bitboard.swift:63-73 | the expected results of OR, XOR, AND and `makeMove` on the words of the operator and `testMakeMoveReturnsNewBitboard` tests |
| BitboardExamples.VerticalConnection | Connect-4/Models/Bitboard.swift:36-50 | `0b001111` has a vertical connection (`testHasConnectionVertically`) |
| BitboardExamples.HorizontalConnection | Connect-4/Models/Bitboard.swift:36-50 | the board of `testHasConnectionHorizontally` has a horizontal connection |
| BitboardExamples.DiagonalSWNEConnection | Connect-4/Models/Bitboard.swift:36-50 | the board of `testHasConnectionDiagonallySouthWestToNorthEast` has a rising-diagonal connection |
| BitboardExamples.DiagonalNWSEConnection | Connect-4/Models/Bitboard.swift:36-50 | the board of `testHasConnectionDiagonallyNorthWestToSouthEast` has a falling-diagonal connection |
| BitboardExamples.NoVerticalConnection | Connect-4/Models/Bitboard.swift:39-46 | the three-high block of `testHasConnectionReturnsFalse_whenNoConnectionsExist` has no vertical connection |
| BitboardExamples.NoHorizontalConnection | Connect-4/Models/Bitboard.swift:39-46 | that block has no horizontal connection |
| BitboardExamples.NoDiagonalNWSEConnection | Connect-4/Models/Bitboard.swift:39-46 | that block has no falling-diagonal connection |
| BitboardExamples.NoDiagonalSWNEConnection | Connect-4/Models/Bitboard.swift:39-46 | that block has no rising-diagonal connection |
| BitboardExamples.NoConnection | Connect-4/Models/Bitboard.swift:36-50 | that block has no connection in any of the four directions |
| BitboardExamples.ShiftInSteps | Connect-4/Models/Bitboard.swift:59-61 | two arithmetic right shifts in a row are one shift by the sum |
| GameModel.Player.BitboardIndex | Connect-4/Models/Connect4GameModel.swift:11-16 | player one owns board 0 and player two owns board 1 |
| GameModel.CountAppend | Connect-4/Models/Connect4GameModel.swift:81 | appending a move raises that column's count by one and leaves the others as they were |
| GameModel.CountBelowAppend | Connect-4/Models/Connect4GameModel.swift:81 | appending a move in one of the first n columns raises their total count by one |
| GameModel.CountBelowIsLength | Connect-4/Models/Connect4GameModel.swift:31 | when every move names one of the first n columns, the per-column counts add up to the number of moves |
| GameModel.CountBelowOfEmpty | Connect-4/Models/Connect4GameModel.swift:31 | with no moves, every column's count is zero |
| GameModel.CountBelowBound | Connect-4/Models/Connect4GameModel.swift:19-23 | columns holding at most six pieces each total at most six per column, and exactly that iff every one of them holds six |
| GameModel.ColumnSpan | Connect-4/Models/Connect4GameModel.swift:28-29 | column c starts at bit 7c, and its guard bit is six above its start |
| GameModel.FilledColumn | Connect-4/Models/Connect4GameModel.swift:28-33 | a bit is filled iff it lies in its column between the start bit and the current height |
| GameModel.WellFormedBoardsArePlayable | Connect-4/Models/Connect4GameModel.swift:76-83 | in a well-formed game both boards hold only playable cells; no guard bit is ever set |
| GameModel.MovesBound | Connect-4/Models/Connect4GameModel.swift:58-59 | at most 42 moves are ever recorded, and exactly 42 iff every column has reached its guard bit |
| GameModel.RangeMember | Connect-4/Models/Connect4GameModel.swift:28-29 | the cell range a..b holds exactly the indices from a up to b - 1 |
| GameModel.RangeSize | Connect-4/Models/Connect4GameModel.swift:28-29 | the cell range a..b holds b - a cells |
| GameModel.FilledBelowStep | Connect-4/Models/Connect4GameModel.swift:28-33 | the filled cells of the first n + 1 columns are those of the first n plus column n's filled range, and the two parts are disjoint |
| GameModel.FilledBelowSize | Connect-4/Models/Connect4GameModel.swift:31-33 | the first n columns have as many filled cells as moves recorded in them |
| GameModel.PiecesMatchMoves | Connect-4/Models/Connect4GameModel.swift:31-33 | the two boards together hold exactly one piece per recorded move |
| GameModel.DisjointUnionSize | Connect-4/Models/Connect4GameModel.swift:32 | two disjoint piece sets together have the sum of their sizes |
| GameModel.FilledStep | Connect-4/Models/Connect4GameModel.swift:82 | raising a column that is not full fills exactly the cell at its old height, which was free |
| GameModel.PlacedBoardKeepsWellFormed | Connect-4/Models/Connect4GameModel.swift:76-83 | adding the cell at the column's height to the mover's board, appending the column and raising its height keeps the game well formed |
| GameModel.PlacedPiecesFillColumns | Connect-4/Models/Connect4GameModel.swift:79-82 | the two boards still cover exactly the filled cells, without overlap, after the placement |
| GameModel.CoversStep | Connect-4/Models/Connect4GameModel.swift:79-82 | either player may take the free cell of a column that is not full; the cover is then kept |
| GameModel.CoversSymmetric | Connect-4/Models/Connect4GameModel.swift:32 | the cover does not depend on the order of the two boards |
| GameModel.RaiseInRange | Connect-4/Models/Connect4GameModel.swift:82 | raising a column that is not full keeps every height between its start and its guard bit |
| GameModel.PlacedMovesMatchHeights | Connect-4/Models/Connect4GameModel.swift:81-82 | after a move is appended and its column's height raised, each column's height still counts its moves |
| GameModel.AppendInRange | Connect-4/Models/Connect4GameModel.swift:81 | appending an in-range column keeps every recorded move in range |
| GameModel.AddToOneSide | Connect-4/Models/Connect4GameModel.swift:79 | adding a free cell to one of two disjoint sets that cover the filled cells keeps them disjoint, and they then cover the filled cells plus that cell |
| GameModel.FreeCell | Connect-4/Models/Connect4GameModel.swift:72-77 | the cell at the height of a column that is not full is a playable cell on neither board |
| GameModel.DropPiece | Connect-4/Models/Connect4GameModel.swift:77-79 | the board after `makeMove(1 << height)` on a free cell has exactly that one more cell |
| GameModel.DroppedBoardIsMakeMove | Connect-4/Models/Connect4GameModel.swift:77-79 | a board with exactly one more cell is the `makeMove` result `board ^ (1 << height)`, and also the bitwise OR of `board` and `1 << height` |
| GameModel.InitialWellFormed | Connect-4/Models/Connect4GameModel.swift:28-37 | the start state is well formed: empty boards, no moves, each column at its start |
| GameModel.WinPersists | Connect-4/Models/Connect4GameModel.swift:85-89 | a board that has a connection keeps it after any later placement by either player |
| GameModel.Connect4GameModel.constructor | Connect-4/Models/Connect4GameModel.swift:31-37 | a new game has no moves, two empty boards and every column at its start height, and is valid |
| GameModel.Connect4GameModel.SpacesLeftInColumn | Connect-4/Models/Connect4GameModel.swift:65-67 | the free cells of a column are six minus the moves already played there (between 0 and 6); with `CountAppend` this drops by one for a placement in that column only |
| GameModel.Connect4GameModel.IsValidPlacement | Connect-4/Models/Connect4GameModel.swift:72-74 | a column accepts a piece iff it has a free space, iff fewer than six pieces were played there |
| GameModel.Connect4GameModel.CheckIfWon | Connect-4/Models/Connect4GameModel.swift:85-89 | the player has won iff their own board owns four cells in a horizontal, vertical or diagonal line |
| GameModel.Connect4GameModel.MakeMove | Connect-4/Models/Connect4GameModel.swift:76-83 | the mover's board gains exactly the cell at the column's height, the other board is unchanged, the column is appended to the moves, its height goes up by one, and the game stays valid |
| GameModel.Connect4GameModel.RecordPlacement | Connect-4/Models/Connect4GameModel.swift:46-63 | accepted iff the column is in range with a free space. A refusal changes nothing and notifies no one. An accepted move is `MakeMove`'s update. The outcome is a win for the mover iff the mover's board has four in a line; otherwise it is a draw iff the 42nd move was played, and a draw only happens when every column is full |
| GameScenarios.OutOfRangeColumnsAreRefused | Connect-4/Models/Connect4GameModel.swift:47-52 | columns -1 and 7 are refused (the first placement test of Connect4GameModelTests.swift) |
| GameScenarios.EdgeColumnsAreAccepted | Connect-4/Models/Connect4GameModel.swift:46-63 | columns 0 and 6 of a new game are accepted (the second placement test) |
| GameScenarios.FullColumnIsRefused | Connect-4/Models/Connect4GameModel.swift:47-52 | after six pieces in column 0, a seventh is refused (the full-column test) |
| GameScenarios.SpacesLeftFollowPlacements | Connect-4/Models/Connect4GameModel.swift:65-67 | column 0 has six spaces, and four after two placements (the spaces-left test) |
| GameScenarios.ColumnZeroLine | Connect-4/Models/Bitboard.swift:19-25 | a board holding cells 0 to 3 owns four in a line (column 0, rows 0 to 3) |
| GameScenarios.LineFromCells | Connect-4/Models/Bitboard.swift:19-25 | four cells in a line whose bits are all on the board are a line of four |
| GameScenarios.FewPiecesNoLine | Connect-4/Models/Connect4GameModel.swift:85-89 | a board with fewer than four pieces has no line of four, so `checkIfWon` is false on it |
| GameScenarios.StackInColumnZero | Connect-4/Models/Connect4GameModel.swift:46-63 | player one's placement on a stack of k < 4 in column 0 is accepted, the stack grows to k + 1 cells, and the handler is told `.success(.one)` exactly on the fourth piece |
| GameScenarios.ColumnZeroOutcome | Connect-4/Models/Connect4GameModel.swift:85-89 | a board of the bottom k + 1 cells of column 0 has won iff k is 3 |
| GameScenarios.VerticalPlacementWin | Connect-4/Models/Connect4GameModel.swift:46-63 | four placements by player one in column 0 report nothing three times and then a win for player one, as `testVerticalPlacementWin` expects |
| GameScenarios.BottomRowSize | Connect-4/Models/Bitboard.swift:19-25 | the bottom cells of columns 0 to k - 1 are k cells, all below bit 7k |
| GameScenarios.RowZeroLine | Connect-4/Models/Bitboard.swift:19-25 | a board holding cells 0, 7, 14 and 21 owns four in a line (row 0, columns 0 to 3) |
| GameScenarios.ExtendBottomRow | Connect-4/Models/Connect4GameModel.swift:46-63 | player one's placement into the empty column k < 4 is accepted, the row grows to k + 1 cells, and the handler is told `.success(.one)` exactly on the fourth piece |
| GameScenarios.BottomRowOutcome | Connect-4/Models/Connect4GameModel.swift:85-89 | a board of the bottom cells of columns 0 to k has won iff k is 3 |
| GameScenarios.HorizontalPlacementWin | Connect-4/Models/Connect4GameModel.swift:46-63 | placements by player one in columns 0, 1, 2 and 3 report nothing three times and then a win for player one, as `testHorizontalPlacementWin` expects |

## Left out

- The user interface, view model, game configuration service and colour parsing: these are not part of this model.
- The `winnerHandler` closure: it is a callback into client code. `RecordPlacement` returns the `Outcome` the closure would be called with, and `Continuing` where it is not called.
- GameModel.Connect4GameModel.SpacesLeftInColumn: out of range, Swift's array subscript traps. The model makes an in-range column a precondition instead of modelling the trap. The same holds for `IsValidPlacement`, which is private and only called after the range check.
- The `lazy` initialisation of `columnBaseHeight` cannot be observed from outside the object. The constructor sets the field at once.
- GameModel.Connect4GameModel.MakeMove: states the mover's new board by its set of cells rather than as the word `board ^ (1 << height)`. `Bits` is injective (`BitsInjective`), so this fixes the word, and `DroppedBoardIsMakeMove` turns it back into the `makeMove` formula.
- GameModel.DropPiece: states its result by its set of cells, for the same reason. `DroppedBoardIsMakeMove` gives the word.
- The diagonal-win tests and the draw test of Connect4GameModelTests.swift (`testDiagonalUpRightPlacementWin`, `testDiagonalUpLeftPlacementWin`, `testGameEndsWithDrawOnceAllTilesAreFilledWithNoOneWinning`) are not replayed move by move against the class: eleven or more chained placements with concrete positions are beyond what the verifier finishes. Only the vertical and horizontal win tests are replayed (`VerticalPlacementWin`, `HorizontalPlacementWin`). None of the boards built by the diagonal and draw tests appears in `BitboardExamples`, whose boards are those of BitboardTests.swift (only its vertical board `0xF` coincides with a game-model test board). Those tests are covered only by the general contracts: `RecordPlacement`'s outcome postconditions together with `HasConnectionInAllDirections`, and `MovesBound` for the draw.
- `Direction.allCases` order: its order only decides which direction returns first, and the result is the same. The model lists the cases in declaration order.
