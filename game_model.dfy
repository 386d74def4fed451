/**
 * `Connect4GameModel` (Connect-4/Models/Connect4GameModel.swift): the mutable
 * state of one game and the placement step that drives it.
 *
 * The `winnerHandler` callback passed to the initialiser becomes an `Outcome`
 * returned by `RecordPlacement`: `Won(p)` where the handler gets
 * `.success(p)`, `Drawn` where it gets `.failure(.draw)`, and `Continuing`
 * where it is not called.
 */
module GameModel {
  import opened Int64Bits
  import opened Bitboards

  datatype Player = One | Two {
    /** Which of the two bitboards holds this player's pieces. */
    function BitboardIndex(): (k: nat)
      ensures k < 2
      ensures (k == 0) == (this == One)
    {
      match this
      case One => 0
      case Two => 1
    }
  }

  const Columns: int := 7
  const Rows: int := 6
  const MaxMoves: int := 42

  /** The bit of the bottom cell of each column. */
  const ColumnStartHeight: seq<int> := [0, 7, 14, 21, 28, 35, 42]

  /** The guard bit above the top cell of each column: a column at this height is full. */
  const InvalidHeights: seq<int> := [6, 13, 20, 27, 34, 41, 48]

  /** What the winner handler is told after a placement, if anything. */
  datatype Outcome = Continuing | Won(winner: Player) | Drawn

  /** How many times `column` occurs in `moves`. */
  function Count(moves: seq<int>, column: int): nat
  {
    if moves == [] then 0
    else Count(moves[..|moves| - 1], column) + (if moves[|moves| - 1] == column then 1 else 0)
  }

  /** The sum of the counts of columns 0 to n - 1. */
  function CountBelow(moves: seq<int>, n: nat): nat
  {
    if n == 0 then 0 else CountBelow(moves, n - 1) + Count(moves, n - 1)
  }

  /** The bits below each column's current height: the cells already filled. */
  ghost function Filled(heights: seq<int>): set<nat>
    requires |heights| == Columns
  {
    set i: nat | i < 49 && i < heights[i / 7]
  }

  /** Every column's height lies between its bottom cell and its guard bit. */
  ghost predicate HeightsInRange(heights: seq<int>)
  {
    && |heights| == Columns
    && forall c :: 0 <= c < Columns ==> ColumnStartHeight[c] <= heights[c] <= InvalidHeights[c]
  }

  /**
   * No cell holds pieces of both players, and the pieces fill each column
   * from the bottom up to its height, and nothing else.
   */
  ghost predicate Covers(first: set<nat>, second: set<nat>, heights: seq<int>)
  {
    && HeightsInRange(heights)
    && first * second == {}
    && first + second == Filled(heights)
  }

  ghost predicate PiecesFillColumns(boards: seq<Bitboard>, heights: seq<int>)
  {
    && |boards| == 2
    && Covers(Bits(boards[0]), Bits(boards[1]), heights)
  }

  /** Every move names a column, and each column's height counts the moves played in it. */
  ghost predicate MovesMatchHeights(heights: seq<int>, moves: seq<int>)
  {
    && HeightsInRange(heights)
    && (forall k :: 0 <= k < |moves| ==> 0 <= moves[k] < Columns)
    && (forall c :: 0 <= c < Columns ==> Count(moves, c) == heights[c] - ColumnStartHeight[c])
  }

  /**
   * The invariant of every reachable state, over the values of the fields
   * `bitboards`, `columnBaseHeight` and `moves`.
   */
  ghost predicate WellFormed(boards: seq<Bitboard>, heights: seq<int>, moves: seq<int>)
  {
    && PiecesFillColumns(boards, heights)
    && MovesMatchHeights(heights, moves)
  }

  // ---------------------------------------------------------------------
  // Counting moves

  lemma CountAppend(moves: seq<int>, x: int, column: int)
    ensures Count(moves + [x], column) == Count(moves, column) + (if x == column then 1 else 0)
  {
    assert (moves + [x])[..|moves|] == moves;
  }

  lemma {:induction false} CountBelowAppend(moves: seq<int>, x: int, n: nat)
    ensures CountBelow(moves + [x], n) == CountBelow(moves, n) + (if 0 <= x < n then 1 else 0)
  {
    if n > 0 {
      CountBelowAppend(moves, x, n - 1);
      CountAppend(moves, x, n - 1);
    }
  }

  /** When every move names one of the first n columns, the per-column counts add up to all moves. */
  lemma {:induction false} CountBelowIsLength(moves: seq<int>, n: nat)
    requires forall k :: 0 <= k < |moves| ==> 0 <= moves[k] < n
    ensures CountBelow(moves, n) == |moves|
  {
    if moves != [] {
      var init, x := moves[..|moves| - 1], moves[|moves| - 1];
      assert moves == init + [x];
      CountBelowIsLength(init, n);
      CountBelowAppend(init, x, n);
    } else {
      CountBelowOfEmpty(n);
    }
  }

  lemma {:induction false} CountBelowOfEmpty(n: nat)
    ensures CountBelow([], n) == 0
  {
    if n > 0 {
      CountBelowOfEmpty(n - 1);
    }
  }

  /** With at most `Rows` moves per column, the first n columns hold at most `Rows * n`, and exactly that when all are full. */
  lemma {:induction false} CountBelowBound(moves: seq<int>, n: nat)
    requires forall c :: 0 <= c < n ==> Count(moves, c) <= Rows
    ensures CountBelow(moves, n) <= Rows * n
    ensures CountBelow(moves, n) == Rows * n <==> forall c :: 0 <= c < n ==> Count(moves, c) == Rows
  {
    if n > 0 {
      CountBelowBound(moves, n - 1);
      assert Rows * n == Rows * (n - 1) + Rows;
      assert (forall c :: 0 <= c < n ==> Count(moves, c) == Rows) <==>
        (forall c :: 0 <= c < n - 1 ==> Count(moves, c) == Rows) && Count(moves, n - 1) == Rows;
    }
  }

  /** Column c starts at bit 7c and is full six cells above. */
  lemma ColumnSpan(c: int)
    requires 0 <= c < Columns
    ensures ColumnStartHeight[c] == 7 * c
    ensures InvalidHeights[c] == ColumnStartHeight[c] + Rows
  {
    if c == 0 {} else if c == 1 {} else if c == 2 {} else if c == 3 {}
    else if c == 4 {} else if c == 5 {} else {}
  }

  // ---------------------------------------------------------------------
  // Facts about well-formed states

  lemma FilledColumn(heights: seq<int>, i: nat)
    requires HeightsInRange(heights)
    ensures i in Filled(heights) <==> i < 49 && ColumnStartHeight[i / 7] <= i < heights[i / 7]
  {
  }

  /** Every piece is on a playable cell: the guard bits are never set. */
  lemma WellFormedBoardsArePlayable(boards: seq<Bitboard>, heights: seq<int>, moves: seq<int>)
    requires WellFormed(boards, heights, moves)
    ensures IsPlayableBoard(boards[0]) && IsPlayableBoard(boards[1])
  {
    forall i | i in Filled(heights)
      ensures IsPlayableBit(i)
    {
      FilledColumn(heights, i);
    }
  }

  /** At most 42 moves are ever recorded, and exactly 42 when every column is full. */
  lemma MovesBound(boards: seq<Bitboard>, heights: seq<int>, moves: seq<int>)
    requires WellFormed(boards, heights, moves)
    ensures |moves| <= MaxMoves
    ensures |moves| == MaxMoves <==> forall c :: 0 <= c < Columns ==> heights[c] == InvalidHeights[c]
  {
    forall c | 0 <= c < Columns
      ensures Count(moves, c) <= Rows
    {
      ColumnSpan(c);
    }
    CountBelowIsLength(moves, Columns);
    CountBelowBound(moves, Columns);
    assert Rows * Columns == MaxMoves;
    assert |moves| == CountBelow(moves, Columns);
    assert |moves| == MaxMoves <==> forall c :: 0 <= c < Columns ==> Count(moves, c) == Rows;
    if forall c :: 0 <= c < Columns ==> Count(moves, c) == Rows {
      forall c | 0 <= c < Columns
        ensures heights[c] == InvalidHeights[c]
      {
        ColumnSpan(c);
      }
    }
    if forall c :: 0 <= c < Columns ==> heights[c] == InvalidHeights[c] {
      forall c | 0 <= c < Columns
        ensures Count(moves, c) == Rows
      {
        ColumnSpan(c);
      }
    }
  }

  /** The cells a..b-1. */
  ghost function Range(a: nat, b: nat): set<nat>
    decreases b
  {
    if b <= a then {} else Range(a, b - 1) + {b - 1}
  }

  lemma {:induction false} RangeMember(a: nat, b: nat, i: nat)
    ensures i in Range(a, b) <==> a <= i < b
    decreases b
  {
    if a < b {
      RangeMember(a, b - 1, i);
    }
  }

  lemma {:induction false} RangeSize(a: nat, b: nat)
    requires a <= b
    ensures |Range(a, b)| == b - a
    decreases b
  {
    if a < b {
      RangeSize(a, b - 1);
      RangeMember(a, b - 1, b - 1);
    }
  }

  /** The filled cells of the first n columns. */
  ghost function FilledBelow(heights: seq<int>, n: nat): set<nat>
    requires |heights| == Columns
  {
    set i: nat | i < 7 * n && i < 49 && i < heights[i / 7]
  }

  lemma FilledBelowStep(heights: seq<int>, n: nat)
    requires HeightsInRange(heights) && n < Columns
    ensures FilledBelow(heights, n + 1) == FilledBelow(heights, n) + Range(7 * n, heights[n])
    ensures FilledBelow(heights, n) * Range(7 * n, heights[n]) == {}
  {
    ColumnSpan(n);
    forall i: nat
      ensures i in FilledBelow(heights, n + 1) <==> i in FilledBelow(heights, n) + Range(7 * n, heights[n])
      ensures !(i in FilledBelow(heights, n) && i in Range(7 * n, heights[n]))
    {
      RangeMember(7 * n, heights[n], i);
      if 7 * n <= i < 7 * n + 7 {
        assert i / 7 == n;
      }
    }
  }

  /** The first n columns hold as many filled cells as moves were played in them. */
  lemma {:induction false} FilledBelowSize(heights: seq<int>, moves: seq<int>, n: nat)
    requires MovesMatchHeights(heights, moves) && n <= Columns
    ensures |FilledBelow(heights, n)| == CountBelow(moves, n)
  {
    if n == 0 {
      assert FilledBelow(heights, 0) == {};
    } else {
      FilledBelowSize(heights, moves, n - 1);
      FilledBelowStep(heights, n - 1);
      ColumnSpan(n - 1);
      RangeSize(7 * (n - 1), heights[n - 1]);
    }
  }

  /** The two boards together hold exactly one piece per recorded move. */
  lemma PiecesMatchMoves(boards: seq<Bitboard>, heights: seq<int>, moves: seq<int>)
    requires WellFormed(boards, heights, moves)
    ensures |Bits(boards[0])| + |Bits(boards[1])| == |moves|
  {
    FilledBelowSize(heights, moves, Columns);
    CountBelowIsLength(moves, Columns);
    assert FilledBelow(heights, Columns) == Filled(heights);
    DisjointUnionSize(Bits(boards[0]), Bits(boards[1]));
  }

  lemma DisjointUnionSize(a: set<nat>, b: set<nat>)
    requires a * b == {}
    ensures |a + b| == |a| + |b|
  {
    assert |a * b| == 0;
  }

  /** Raising a column that is not full by one fills exactly the cell at its old height. */
  lemma FilledStep(heights: seq<int>, column: int)
    requires HeightsInRange(heights)
    requires 0 <= column < Columns && heights[column] != InvalidHeights[column]
    ensures heights[column] as nat !in Filled(heights)
    ensures Filled(heights[column := heights[column] + 1]) == Filled(heights) + {heights[column] as nat}
  {
    var h := heights[column];
    var heights' := heights[column := h + 1];
    assert h / 7 == column;
    forall i: nat
      ensures i in Filled(heights') <==> i in Filled(heights) + {h as nat}
    {
      if i < 49 && i / 7 == column {
        assert heights'[i / 7] == h + 1;
      }
    }
  }

  /**
   * The invariant is kept by any new board for the mover that holds the
   * mover's old pieces plus the cell at the column's height.
   */
  lemma PlacedBoardKeepsWellFormed(boards: seq<Bitboard>, heights: seq<int>, moves: seq<int>, column: int, p: nat, mine: Bitboard)
    requires WellFormed(boards, heights, moves)
    requires 0 <= column < Columns && heights[column] != InvalidHeights[column]
    requires p < 2
    requires Bits(mine) == Bits(boards[p]) + {heights[column] as nat}
    ensures WellFormed(boards[p := mine], heights[column := heights[column] + 1], moves + [column])
  {
    PlacedPiecesFillColumns(boards, heights, column, p, mine);
    PlacedMovesMatchHeights(heights, moves, column);
    FilledStep(heights, column);
  }

  /** The pieces part of the invariant. */
  lemma PlacedPiecesFillColumns(boards: seq<Bitboard>, heights: seq<int>, column: int, p: nat, mine: Bitboard)
    requires PiecesFillColumns(boards, heights)
    requires 0 <= column < Columns && heights[column] != InvalidHeights[column]
    requires p < 2
    requires Bits(mine) == Bits(boards[p]) + {heights[column] as nat}
    ensures PiecesFillColumns(boards[p := mine], heights[column := heights[column] + 1])
  {
    var heights' := heights[column := heights[column] + 1];
    if p == 0 {
      CoversStep(Bits(boards[0]), Bits(boards[1]), heights, column);
      assert boards[p := mine] == [mine, boards[1]];
    } else {
      CoversSymmetric(Bits(boards[0]), Bits(boards[1]), heights);
      CoversStep(Bits(boards[1]), Bits(boards[0]), heights, column);
      assert boards[p := mine] == [boards[0], mine];
    }
  }

  /** Either side of a cover may take the cell at the height of a column that is not full. */
  lemma CoversStep(mine: set<nat>, theirs: set<nat>, heights: seq<int>, column: int)
    requires Covers(mine, theirs, heights)
    requires 0 <= column < Columns && heights[column] != InvalidHeights[column]
    ensures Covers(mine + {heights[column] as nat}, theirs, heights[column := heights[column] + 1])
    ensures Covers(theirs, mine + {heights[column] as nat}, heights[column := heights[column] + 1])
  {
    FilledStep(heights, column);
    AddToOneSide(mine, theirs, Filled(heights), heights[column]);
    RaiseInRange(heights, column);
  }

  lemma RaiseInRange(heights: seq<int>, column: int)
    requires HeightsInRange(heights)
    requires 0 <= column < Columns && heights[column] != InvalidHeights[column]
    ensures HeightsInRange(heights[column := heights[column] + 1])
  {
  }

  lemma CoversSymmetric(first: set<nat>, second: set<nat>, heights: seq<int>)
    requires Covers(first, second, heights)
    ensures Covers(second, first, heights)
  {
    assert second * first == first * second;
    assert second + first == first + second;
  }

  /** The moves part of the invariant. */
  lemma PlacedMovesMatchHeights(heights: seq<int>, moves: seq<int>, column: int)
    requires MovesMatchHeights(heights, moves)
    requires 0 <= column < Columns && heights[column] != InvalidHeights[column]
    ensures MovesMatchHeights(heights[column := heights[column] + 1], moves + [column])
  {
    forall c | 0 <= c < Columns
      ensures Count(moves + [column], c) == heights[column := heights[column] + 1][c] - ColumnStartHeight[c]
    {
      CountAppend(moves, column, c);
    }
    AppendInRange(moves, column);
  }

  lemma AppendInRange(moves: seq<int>, column: int)
    requires forall k :: 0 <= k < |moves| ==> 0 <= moves[k] < Columns
    requires 0 <= column < Columns
    ensures forall k :: 0 <= k < |moves + [column]| ==> 0 <= (moves + [column])[k] < Columns
  {
  }

  /** Adding a cell outside `filled` to one of two disjoint sets that cover `filled`. */
  lemma AddToOneSide(mine: set<nat>, theirs: set<nat>, filled: set<nat>, h: nat)
    requires mine * theirs == {} && mine + theirs == filled && h !in filled
    ensures (mine + {h}) * theirs == {} && theirs * (mine + {h}) == {}
    ensures (mine + {h}) + theirs == filled + {h} && theirs + (mine + {h}) == filled + {h}
    ensures |filled + {h}| == |filled| + 1
  {
  }

  /** The cell at the height of a column that is not full is a free cell of the grid. */
  lemma FreeCell(boards: seq<Bitboard>, heights: seq<int>, moves: seq<int>, column: int)
    requires WellFormed(boards, heights, moves)
    requires 0 <= column < Columns && heights[column] != InvalidHeights[column]
    ensures IsPlayableBit(heights[column])
    ensures heights[column] as nat !in Bits(boards[0]) && heights[column] as nat !in Bits(boards[1])
  {
    FilledStep(heights, column);
    ColumnSpan(column);
  }

  /**
   * The board after dropping a piece onto the free cell `height`: the move
   * word has exactly that bit set, and the board gains exactly that cell.
   */
  method DropPiece(board: Bitboard, height: int) returns (board': Bitboard)
    requires 0 <= height < 64 && height as nat !in Bits(board)
    ensures Bits(board') == Bits(board) + {height as nat}
  {
    var move := SmartShiftLeft(1, height);
    MoveBits(height);
    MakeMoveOnFreeCell(board, move, height);
    board' := Bitboards.MakeMove(board, move);
  }

  /** A board with exactly one more cell, `height`, is the board with the move `1 << height` made. */
  lemma DroppedBoardIsMakeMove(board: Bitboard, height: nat, board': Bitboard)
    requires height < 64 && height !in Bits(board)
    requires Bits(board') == Bits(board) + {height}
    ensures board' == Bitboards.MakeMove(board, SmartShiftLeft(1, height))
    ensures board' == board | SmartShiftLeft(1, height)
  {
    MoveBits(height);
    MakeMoveOnFreeCell(board, SmartShiftLeft(1, height), height);
    BitsInjective(board', Bitboards.MakeMove(board, SmartShiftLeft(1, height)));
  }

  /** The state of a new game. */
  lemma InitialWellFormed()
    ensures WellFormed([Empty, Empty], ColumnStartHeight, [])
    ensures Bits(Empty) == {} && Filled(ColumnStartHeight) == {}
  {
    ZeroIffNoBits(Empty);
    assert Filled(ColumnStartHeight) == {} by {
      forall i: nat | i in Filled(ColumnStartHeight)
        ensures false
      {
        FilledColumn(ColumnStartHeight, i);
      }
    }
  }

  /** A player who has four in a line keeps having it after any later placement, by either player. */
  lemma WinPersists(boards: seq<Bitboard>, heights: seq<int>, moves: seq<int>, column: int, p: nat, mine: Bitboard, q: nat)
    requires WellFormed(boards, heights, moves)
    requires 0 <= column < Columns && heights[column] != InvalidHeights[column]
    requires p < 2 && q < 2
    requires Bits(mine) == Bits(boards[p]) + {heights[column] as nat}
    requires HasConnection(boards[q], AllDirections)
    ensures HasConnection(boards[p := mine][q], AllDirections)
  {
    assert Bits(boards[q]) <= Bits(boards[p := mine][q]);
    HasConnectionMonotone(boards[q], boards[p := mine][q], AllDirections);
  }

  // ---------------------------------------------------------------------
  // The game model object

  class Connect4GameModel {
    /** The columns of the accepted placements, in order. */
    var moves: seq<int>
    /** Player one's board, then player two's. */
    var bitboards: seq<Bitboard>
    /** Per column, the bit the next piece dropped there will take. */
    var columnBaseHeight: seq<int>

    ghost predicate Valid()
      reads this
    {
      WellFormed(bitboards, columnBaseHeight, moves)
    }

    constructor ()
      ensures Valid()
      ensures moves == [] && bitboards == [Empty, Empty] && columnBaseHeight == ColumnStartHeight
      ensures Bits(bitboards[0]) == {} && Bits(bitboards[1]) == {}
    {
      moves := [];
      bitboards := [Empty, Empty];
      columnBaseHeight := ColumnStartHeight;
      InitialWellFormed();
    }

    /** Free cells left in `column`: six minus the pieces already played there. */
    function SpacesLeftInColumn(column: int): (spaces: int)
      reads this
      requires Valid()
      requires 0 <= column < Columns
      ensures spaces == Rows - Count(moves, column)
      ensures 0 <= spaces <= Rows
    {
      InvalidHeights[column] - columnBaseHeight[column]
    }

    /** Whether `column` still has a free cell. */
    function IsValidPlacement(column: int): (valid: bool)
      reads this
      requires Valid()
      requires 0 <= column < Columns
      ensures valid <==> SpacesLeftInColumn(column) > 0
      ensures valid <==> Count(moves, column) < Rows
    {
      columnBaseHeight[column] != InvalidHeights[column]
    }

    /** Whether `player`'s own board holds four in a line; the other board is not looked at. */
    function CheckIfWon(player: Player): (won: bool)
      reads this
      requires Valid()
      ensures won <==> HasLineOfFour(bitboards[player.BitboardIndex()])
    {
      WellFormedBoardsArePlayable(bitboards, columnBaseHeight, moves);
      HasConnectionInAllDirections(bitboards[player.BitboardIndex()]);
      HasConnection(bitboards[player.BitboardIndex()], AllDirections)
    }

    /** Drops `player`'s piece into `column`, which is in range and not full. */
    method MakeMove(column: int, player: Player)
      requires Valid()
      requires 0 <= column < Columns && IsValidPlacement(column)
      modifies this
      ensures Valid()
      ensures |bitboards| == 2
      ensures Bits(bitboards[player.BitboardIndex()]) == Bits(old(bitboards)[player.BitboardIndex()]) + {old(columnBaseHeight)[column] as nat}
      ensures bitboards[1 - player.BitboardIndex()] == old(bitboards)[1 - player.BitboardIndex()]
      ensures moves == old(moves) + [column]
      ensures columnBaseHeight == old(columnBaseHeight)[column := old(columnBaseHeight)[column] + 1]
    {
      var p, h := player.BitboardIndex(), columnBaseHeight[column];
      FreeCell(bitboards, columnBaseHeight, moves, column);
      var mine := DropPiece(bitboards[p], h);
      PlacedBoardKeepsWellFormed(bitboards, columnBaseHeight, moves, column, p, mine);
      var boards', moves', heights' := bitboards[p := mine], moves + [column], columnBaseHeight[column := h + 1];
      assert WellFormed(boards', heights', moves');
      bitboards, moves, columnBaseHeight := boards', moves', heights';
    }

    /**
     * Records `player`'s piece in `column` if the column is in range and not
     * full, and reports a win by the mover or a full board.
     */
    method RecordPlacement(column: int, player: Player) returns (placed: bool, outcome: Outcome)
      requires Valid()
      modifies this
      ensures Valid()
      ensures placed <==> 0 <= column < Columns && old(SpacesLeftInColumn(column)) > 0
      // a rejected placement changes nothing and notifies nobody
      ensures !placed ==> unchanged(this) && outcome == Continuing
      ensures placed ==> Bits(bitboards[player.BitboardIndex()]) == Bits(old(bitboards)[player.BitboardIndex()]) + {old(columnBaseHeight)[column] as nat}
      ensures placed ==> bitboards[1 - player.BitboardIndex()] == old(bitboards)[1 - player.BitboardIndex()]
      ensures placed ==> moves == old(moves) + [column]
      ensures placed ==> columnBaseHeight == old(columnBaseHeight)[column := old(columnBaseHeight)[column] + 1]
      ensures placed && HasLineOfFour(bitboards[player.BitboardIndex()]) ==> outcome == Won(player)
      ensures placed && !HasLineOfFour(bitboards[player.BitboardIndex()]) && |moves| == MaxMoves ==> outcome == Drawn
      ensures placed && !HasLineOfFour(bitboards[player.BitboardIndex()]) && |moves| != MaxMoves ==> outcome == Continuing
      // a draw is announced only once every column is full
      ensures outcome == Drawn ==> forall c :: 0 <= c < Columns ==> SpacesLeftInColumn(c) == 0
    {
      if !(0 <= column < Columns) || !IsValidPlacement(column) {
        return false, Continuing;
      }
      MakeMove(column, player);
      if CheckIfWon(player) {
        outcome := Won(player);
      } else if |moves| == MaxMoves {
        outcome := Drawn;
        MovesBound(bitboards, columnBaseHeight, moves);
      } else {
        outcome := Continuing;
      }
      placed := true;
    }
  }
}
