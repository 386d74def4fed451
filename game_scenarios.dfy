/**
 * Client scenarios for `Connect4GameModel`: the placement, position-checking,
 * vertical-win and horizontal-win cases of Connect4GameModelTests.swift,
 * each stating the observed results as its postcondition. A scenario's
 * outcomes list what the winner handler is told after each placement.
 */
module GameScenarios {
  import opened Int64Bits
  import opened Bitboards
  import opened GameModel

  /** Columns -1 and 7 are outside the grid and are refused. */
  method OutOfRangeColumnsAreRefused() returns (left: bool, right: bool)
    ensures !left && !right
  {
    var game := new Connect4GameModel();
    var outcome;
    left, outcome := game.RecordPlacement(-1, One);
    right, outcome := game.RecordPlacement(7, One);
  }

  /** The two edge columns of an empty grid accept a piece. */
  method EdgeColumnsAreAccepted() returns (left: bool, right: bool)
    ensures left && right
  {
    var game := new Connect4GameModel();
    var outcome;
    left, outcome := game.RecordPlacement(0, One);
    right, outcome := game.RecordPlacement(6, Two);
  }

  /** After six pieces in column 0 a seventh is refused. */
  method FullColumnIsRefused() returns (placed: bool)
    ensures !placed
  {
    var game := new Connect4GameModel();
    for i := 0 to 6
      invariant game.Valid()
      invariant game.SpacesLeftInColumn(0) == Rows - i
    {
      var _, _ := game.RecordPlacement(0, Two);
    }
    var outcome;
    placed, outcome := game.RecordPlacement(0, Two);
  }

  /** Column 0 has six free cells, and four after two pieces. */
  method SpacesLeftFollowPlacements() returns (before: int, after: int)
    ensures before == 6 && after == 4
  {
    var game := new Connect4GameModel();
    before := game.SpacesLeftInColumn(0);
    var _, _ := game.RecordPlacement(0, One);
    var _, _ := game.RecordPlacement(0, One);
    after := game.SpacesLeftInColumn(0);
  }

  /** A board holding the bottom four cells of column 0 has four in a line. */
  lemma ColumnZeroLine(board: Bitboard)
    requires {0, 1, 2, 3} <= Bits(board)
    ensures HasLineOfFour(board)
  {
    LineFromCells(board, Vertical, 0, 0);
  }

  /** Four grid cells in a line along d, all in the board, are a line of four. */
  lemma LineFromCells(board: Bitboard, d: Direction, column: int, row: int)
    requires OnGrid(column, row) && OnGrid(column + 3 * d.ColumnStep(), row + 3 * d.RowStep())
    requires Index(column, row) in Bits(board)
    requires Index(column + d.ColumnStep(), row + d.RowStep()) in Bits(board)
    requires Index(column + 2 * d.ColumnStep(), row + 2 * d.RowStep()) in Bits(board)
    requires Index(column + 3 * d.ColumnStep(), row + 3 * d.RowStep()) in Bits(board)
    ensures LineOfFour(board, d, column, row)
  {
  }

  /** A board with fewer than four pieces has no line of four. */
  lemma FewPiecesNoLine(board: Bitboard)
    requires |Bits(board)| < 4
    ensures !HasLineOfFour(board)
  {
    if HasLineOfFour(board) {
      var d, column, row :| LineOfFour(board, d, column, row);
      LineIsRun(board, d, column, row);
      RunInBits(board, d.Distance(), Index(column, row));
    }
  }

  /** Four set bits spaced by s >= 1 make at least four pieces. */
  lemma RunInBits(board: Bitboard, s: nat, i: nat)
    requires 1 <= s && i + 3 * s < 64 && Run(board, s, i)
    ensures |Bits(board)| >= 4
  {
    var line := {i, i + s, i + 2 * s, i + 3 * s};
    assert line <= Bits(board);
    FourApart(i, s);
    SubsetSize(line, Bits(board));
  }

  /** A subset is no larger than the set. */
  lemma SubsetSize(a: set<nat>, b: set<nat>)
    requires a <= b
    ensures |a| <= |b|
  {
    assert b == a + (b - a);
  }

  /** Four indices spaced by s >= 1 are distinct. */
  lemma FourApart(i: nat, s: nat)
    requires 1 <= s
    ensures |{i, i + s, i + 2 * s, i + 3 * s}| == 4
  {
  }

  /** After k moves, player one's board holds exactly the bottom k cells of column 0. */
  ghost predicate OneStackedInColumnZero(game: Connect4GameModel, k: nat)
    reads game
  {
    game.Valid() && |game.moves| == k && game.columnBaseHeight[0] == k &&
    Bits(game.bitboards[0]) == Range(0, k)
  }

  /** Player one drops one more piece onto a stack of k < 4 in column 0. */
  method StackInColumnZero(game: Connect4GameModel, k: nat) returns (outcome: Outcome)
    requires k < 4 && OneStackedInColumnZero(game, k)
    modifies game
    ensures OneStackedInColumnZero(game, k + 1)
    ensures outcome == if k == 3 then Won(One) else Continuing
  {
    var placed;
    placed, outcome := game.RecordPlacement(0, One);
    ColumnZeroOutcome(game.bitboards[0], k);
  }

  /** A board of the bottom k + 1 cells of column 0 has four in a line exactly when k is 3. */
  lemma ColumnZeroOutcome(board: Bitboard, k: nat)
    requires k < 4 && Bits(board) == Range(0, k + 1)
    ensures HasLineOfFour(board) <==> k == 3
  {
    if k == 3 {
      forall i: nat | i < 4
        ensures i in Range(0, 4)
      {
        RangeMember(0, 4, i);
      }
      ColumnZeroLine(board);
    } else {
      RangeSize(0, k + 1);
      FewPiecesNoLine(board);
    }
  }

  /** Four pieces of player one in column 0: only the fourth wins. */
  method VerticalPlacementWin() returns (outcomes: seq<Outcome>)
    ensures outcomes == [Continuing, Continuing, Continuing, Won(One)]
  {
    var game := new Connect4GameModel();
    assert Range(0, 0) == {};
    var o1 := StackInColumnZero(game, 0);
    var o2 := StackInColumnZero(game, 1);
    var o3 := StackInColumnZero(game, 2);
    var o4 := StackInColumnZero(game, 3);
    outcomes := [o1, o2, o3, o4];
  }

  /** The bottom cells of columns 0 to k - 1. */
  ghost function BottomRow(k: nat): set<nat>
  {
    if k == 0 then {} else BottomRow(k - 1) + {7 * (k - 1)}
  }

  /** The bottom cells of columns 0 to k - 1 are k cells, all below the bit of column k. */
  lemma {:induction false} BottomRowSize(k: nat)
    ensures |BottomRow(k)| == k
    ensures forall i :: i in BottomRow(k) ==> i < 7 * k
  {
    if k > 0 {
      BottomRowSize(k - 1);
    }
  }

  /** A board holding the bottom cells of columns 0 to 3 has four in a line. */
  lemma RowZeroLine(board: Bitboard)
    requires {0, 7, 14, 21} <= Bits(board)
    ensures HasLineOfFour(board)
  {
    LineFromCells(board, Horizontal, 0, 0);
  }

  /** Player one holds the bottom cells of columns 0 to k - 1, and columns k onwards are empty. */
  ghost predicate OneAlongBottomRow(game: Connect4GameModel, k: nat)
    reads game
  {
    game.Valid() && |game.moves| == k && Bits(game.bitboards[0]) == BottomRow(k) &&
    forall c :: k <= c < Columns ==> game.columnBaseHeight[c] == ColumnStartHeight[c]
  }

  /** Player one drops a piece into the empty column k < 4, next to the k pieces already in a row. */
  method ExtendBottomRow(game: Connect4GameModel, k: nat) returns (outcome: Outcome)
    requires k < 4 && OneAlongBottomRow(game, k)
    modifies game
    ensures OneAlongBottomRow(game, k + 1)
    ensures outcome == if k == 3 then Won(One) else Continuing
  {
    ColumnSpan(k);
    var placed;
    placed, outcome := game.RecordPlacement(k, One);
    BottomRowOutcome(game.bitboards[0], k);
  }

  /** A board of the bottom cells of columns 0 to k has four in a line exactly when k is 3. */
  lemma BottomRowOutcome(board: Bitboard, k: nat)
    requires k < 4 && Bits(board) == BottomRow(k + 1)
    ensures HasLineOfFour(board) <==> k == 3
  {
    if k == 3 {
      assert BottomRow(4) == {0, 7, 14, 21} by {
        assert BottomRow(1) == {0};
        assert BottomRow(2) == {0, 7};
        assert BottomRow(3) == {0, 7, 14};
      }
      RowZeroLine(board);
    } else {
      BottomRowSize(k + 1);
      FewPiecesNoLine(board);
    }
  }

  /** Player one fills the bottom cells of columns 0 to 3: only the fourth piece wins. */
  method HorizontalPlacementWin() returns (outcomes: seq<Outcome>)
    ensures outcomes == [Continuing, Continuing, Continuing, Won(One)]
  {
    var game := new Connect4GameModel();
    var o1 := ExtendBottomRow(game, 0);
    var o2 := ExtendBottomRow(game, 1);
    var o3 := ExtendBottomRow(game, 2);
    var o4 := ExtendBottomRow(game, 3);
    outcomes := [o1, o2, o3, o4];
  }
}
