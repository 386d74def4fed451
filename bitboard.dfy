/**
 * `Bitboard` (Connect-4/Models/Bitboard.swift): one player's pieces packed into
 * the bits of an `Int64`. Bit `7 * column + row` stands for the cell in that
 * column and row, row 0 at the bottom. Rows 0 to 5 are playable. Bit
 * `7 * column + 6` is a guard bit that legal play never sets.
 *
 * Every operation returns a new value, as the Swift struct does.
 */
module Bitboards {
  import opened Int64Bits

  /** The four connection axes and their shift distances. Swift's `allCases` keeps declaration order. */
  datatype Direction = Vertical | Horizontal | DiagonalNWSE | DiagonalSWNE {
    /** The `Int64` raw value of the case. */
    function RawValue(): bv64
    {
      match this
      case Vertical => 1
      case Horizontal => 7
      case DiagonalNWSE => 6
      case DiagonalSWNE => 8
    }

    /**
     * The raw value as a number of bit places, for the proofs; kept as a
     * table of its own so that no proof converts bit-vector to integer
     * (`RawValueIsDistance` ties the two).
     */
    function Distance(): (s: nat)
      ensures 6 <= s <= 8 || s == 1
    {
      match this
      case Vertical => 1
      case Horizontal => 7
      case DiagonalNWSE => 6
      case DiagonalSWNE => 8
    }

    /** How far one step along the axis moves in columns (to the right). */
    function ColumnStep(): int
    {
      if Vertical? then 0 else 1
    }

    /** How far one step along the axis moves in rows (upward). */
    function RowStep(): int
    {
      match this
      case Vertical => 1
      case Horizontal => 0
      case DiagonalNWSE => -1
      case DiagonalSWNE => 1
    }
  }

  const AllDirections: seq<Direction> := [Vertical, Horizontal, DiagonalNWSE, DiagonalSWNE]

  /**
   * The struct's only stored property is its `Int64` raw value, so a board is
   * its 64 bits. `Bitboard(rawValue:)` is the identity on them.
   */
  type Bitboard = bv64

  /** `Bitboard()`: the default raw value is 0. */
  const Empty: Bitboard := 0

  /** The two's-complement reading of 64 bits as a Swift `Int64`. */
  function SignedValue(x: bv64): int
  {
    if x & SignBit == 0 then x as int else x as int - 0x1_0000_0000_0000_0000
  }

  /**
   * Swift's "smart" left shift of an `Int64` by n places. A negative n shifts
   * right instead. A shift by 64 places or more leaves no bits.
   */
  function SmartShiftLeft(x: bv64, n: int): bv64
  {
    if n >= 0 then ShiftLeftBy(x, n) else ArithShiftRightBy(x, -n)
  }

  /**
   * Swift's "smart" right shift of an `Int64` by n places. It is arithmetic:
   * the sign bit is copied in. A negative n shifts left instead.
   */
  function SmartShiftRight(x: bv64, n: int): bv64
  {
    if n >= 0 then ArithShiftRightBy(x, n) else ShiftLeftBy(x, -n)
  }

  /** `lhs << rhs`: the raw values shifted, with the distance read as a signed `Int64`. */
  function ShiftLeft(lhs: Bitboard, rhs: Bitboard): Bitboard
  {
    SmartShiftLeft(lhs, SignedValue(rhs))
  }

  /** `lhs >> rhs`: the raw values shifted, with the distance read as a signed `Int64`. */
  function ShiftRight(lhs: Bitboard, rhs: Bitboard): Bitboard
  {
    SmartShiftRight(lhs, SignedValue(rhs))
  }

  /** Adds a move to the board: exclusive or with the move's bit. */
  function MakeMove(board: Bitboard, move: Bitboard): Bitboard
  {
    board ^ move
  }

  /** The four-way `&` of the test: the words' common bits. */
  function Conjunction(a: Bitboard, b: Bitboard, c: Bitboard, d: Bitboard): Bitboard
  {
    a & b & c & d
  }

  /** The shift-and-AND test for one direction. */
  function ConnectedIn(board: Bitboard, d: Direction): bool
  {
    var direction := d.RawValue();
    var singleShift := ShiftRight(board, direction);
    var doubleShift := ShiftRight(board, 2 * direction);
    var tripleShift := ShiftRight(board, 3 * direction);
    Conjunction(board, singleShift, doubleShift, tripleShift) != 0
  }

  /** True as soon as one of the given directions has a connection, in list order. */
  function HasConnection(board: Bitboard, directions: seq<Direction>): bool
  {
    if directions == [] then false
    else ConnectedIn(board, directions[0]) || HasConnection(board, directions[1..])
  }

  // ---------------------------------------------------------------------
  // The operators, bit by bit

  /** A non-negative distance shifts right, copying the sign bit in; a negative one shifts left. */
  lemma SmartShiftRightBit(x: bv64, n: int, i: nat)
    ensures n >= 0 ==> (IsSet(SmartShiftRight(x, n), i) <==> i < 64 && IsSet(x, Min(i + n, 63)))
    ensures n < 0 ==> (IsSet(SmartShiftRight(x, n), i) <==> -n <= i < 64 && IsSet(x, i + n))
  {
    if n >= 0 {
      ArithShiftRightByBit(x, n, i);
    } else {
      ShiftLeftByBit(x, -n, i);
    }
  }

  /** A non-negative distance shifts left, filling with zeros; a negative one shifts right arithmetically. */
  lemma SmartShiftLeftBit(x: bv64, n: int, i: nat)
    ensures n >= 0 ==> (IsSet(SmartShiftLeft(x, n), i) <==> n <= i < 64 && IsSet(x, i - n))
    ensures n < 0 ==> (IsSet(SmartShiftLeft(x, n), i) <==> i < 64 && IsSet(x, Min(i - n, 63)))
  {
    if n >= 0 {
      ShiftLeftByBit(x, n, i);
    } else {
      ArithShiftRightByBit(x, -n, i);
    }
  }

  /** The bits of `a | b`, `a ^ b` and `a & b`. */
  lemma OperatorBits(a: Bitboard, b: Bitboard)
    ensures Bits(a | b) == Bits(a) + Bits(b)
    ensures Bits(a ^ b) == (Bits(a) - Bits(b)) + (Bits(b) - Bits(a))
    ensures Bits(a & b) == Bits(a) * Bits(b)
  {
    BitsOr(a, b);
    BitsXor(a, b);
    BitsAnd(a, b);
  }

  // ---------------------------------------------------------------------
  // What the shift-and-AND test detects

  /** Bit j of x after sign extension: bits past 63 read as the sign bit. */
  ghost predicate ExtendedBit(x: bv64, j: nat)
  {
    IsSet(x, Min(j, 63))
  }

  /** Bits i, i+s, i+2s and i+3s of the sign-extended x are all set. */
  ghost predicate RunAt(x: bv64, s: nat, i: nat)
  {
    i < 64 && ExtendedBit(x, i) && ExtendedBit(x, i + s) && ExtendedBit(x, i + 2 * s) && ExtendedBit(x, i + 3 * s)
  }

  /** Bits i, i+s, i+2s and i+3s of x are all set (none of them past bit 63). */
  ghost predicate Run(x: bv64, s: nat, i: nat)
  {
    IsSet(x, i) && IsSet(x, i + s) && IsSet(x, i + 2 * s) && IsSet(x, i + 3 * s)
  }

  /** A distance given as a word the source shifts by, read as a number of places. */
  lemma ShiftRightByDistance(board: Bitboard, n: bv64, k: nat)
    requires SignedValue(n) == k
    ensures ShiftRight(board, n) == ArithShiftRightBy(board, k)
  {
  }

  lemma ArithShiftMember(x: bv64, n: nat, i: nat)
    ensures i in Bits(ArithShiftRightBy(x, n)) <==> i < 64 && ExtendedBit(x, i + n)
  {
    ArithShiftRightByBit(x, n, i);
  }

  /** The bits that survive the three ANDs. */
  ghost function RunStarts(x: bv64, s: nat): set<nat>
  {
    Bits(x) * Bits(ArithShiftRightBy(x, s)) * Bits(ArithShiftRightBy(x, 2 * s)) * Bits(ArithShiftRightBy(x, 3 * s))
  }

  /** The raw value and its double and triple, read as `Int64`, are the distance and its multiples. */
  lemma RawValueIsDistance(d: Direction)
    ensures SignedValue(d.RawValue()) == d.Distance()
    ensures SignedValue(2 * d.RawValue()) == 2 * d.Distance()
    ensures SignedValue(3 * d.RawValue()) == 3 * d.Distance()
  {
    match d
    case Vertical =>
    case Horizontal =>
    case DiagonalNWSE =>
    case DiagonalSWNE =>
  }

  /** The four-way AND is non-zero exactly when the four bit sets share an index. */
  lemma ConjunctionNonZero(a: Bitboard, b: Bitboard, c: Bitboard, d: Bitboard)
    ensures Conjunction(a, b, c, d) != 0 <==> Bits(a) * Bits(b) * Bits(c) * Bits(d) != {}
  {
    And4NonZero(a, b, c, d);
  }

  /** The test in direction d, with the distance s that its raw value stands for. */
  lemma ConnectedInAtDistance(board: Bitboard, d: Direction, s: nat)
    requires SignedValue(d.RawValue()) == s
    requires SignedValue(2 * d.RawValue()) == 2 * s
    requires SignedValue(3 * d.RawValue()) == 3 * s
    ensures ConnectedIn(board, d) <==> RunStarts(board, s) != {}
  {
    var r := d.RawValue();
    ShiftRightByDistance(board, r, s);
    ShiftRightByDistance(board, 2 * r, 2 * s);
    ShiftRightByDistance(board, 3 * r, 3 * s);
    ConjunctionNonZero(board, ShiftRight(board, r), ShiftRight(board, 2 * r), ShiftRight(board, 3 * r));
  }

  lemma ConnectedInIsRunStarts(board: Bitboard, d: Direction)
    ensures ConnectedIn(board, d) <==> RunStarts(board, d.Distance()) != {}
  {
    RawValueIsDistance(d);
    ConnectedInAtDistance(board, d, d.Distance());
  }

  lemma RunStartsMember(x: bv64, s: nat, i: nat)
    ensures i in RunStarts(x, s) <==> RunAt(x, s, i)
  {
    ArithShiftMember(x, s, i);
    ArithShiftMember(x, 2 * s, i);
    ArithShiftMember(x, 3 * s, i);
    if i < 64 {
      assert Min(i, 63) == i;
    }
  }

  lemma RunStartsNonEmpty(x: bv64, s: nat)
    ensures RunStarts(x, s) != {} <==> exists i: nat :: RunAt(x, s, i)
  {
    if RunStarts(x, s) != {} {
      var i :| i in RunStarts(x, s);
      RunStartsMember(x, s, i);
    } else {
      forall i: nat
        ensures !RunAt(x, s, i)
      {
        RunStartsMember(x, s, i);
      }
    }
  }

  /** One direction's test is non-zero exactly when a sign-extended run of four exists. */
  lemma ConnectedInIff(board: Bitboard, d: Direction)
    ensures ConnectedIn(board, d) <==> exists i: nat :: RunAt(board, d.Distance(), i)
  {
    ConnectedInIsRunStarts(board, d);
    RunStartsNonEmpty(board, d.Distance());
  }

  /** Some listed direction has a sign-extended run of four. */
  ghost predicate HasRun(board: Bitboard, directions: seq<Direction>)
  {
    exists k, i: nat :: 0 <= k < |directions| && RunAt(board, directions[k].Distance(), i)
  }

  lemma HasRunSplit(board: Bitboard, directions: seq<Direction>)
    requires directions != []
    ensures HasRun(board, directions) <==>
      (exists i: nat :: RunAt(board, directions[0].Distance(), i)) || HasRun(board, directions[1..])
  {
    if HasRun(board, directions[1..]) {
      var k, i: nat :| 0 <= k < |directions[1..]| && RunAt(board, directions[1..][k].Distance(), i);
      assert RunAt(board, directions[k + 1].Distance(), i);
    }
    if HasRun(board, directions) {
      var k, i: nat :| 0 <= k < |directions| && RunAt(board, directions[k].Distance(), i);
      if k > 0 {
        assert RunAt(board, directions[1..][k - 1].Distance(), i);
      }
    }
  }

  /** `hasConnection` is an existential search over the listed directions. */
  lemma {:induction false} HasConnectionIff(board: Bitboard, directions: seq<Direction>)
    ensures HasConnection(board, directions) <==> HasRun(board, directions)
  {
    if directions != [] {
      HasConnectionIff(board, directions[1..]);
      ConnectedInIff(board, directions[0]);
      HasRunSplit(board, directions);
    }
  }

  /** On a board whose sign bit is clear, a run is four set bits below bit 64. */
  lemma RunAtNonNegative(x: bv64, s: nat, i: nat)
    requires !IsSet(x, 63) && 1 <= s
    ensures RunAt(x, s, i) <==> i + 3 * s < 64 && Run(x, s, i)
  {
    if i + 3 * s >= 64 {
      assert !ExtendedBit(x, i + 3 * s);
    } else if i < 64 {
      assert Min(i + 3 * s, 63) == i + 3 * s;
    }
  }

  /**
   * For a non-negative board, `hasConnection` holds exactly when some listed
   * direction d and some bit b have bits b, b+d, b+2d and b+3d all set.
   */
  lemma HasConnectionNonNegative(board: Bitboard, directions: seq<Direction>)
    requires !IsSet(board, 63)
    ensures HasConnection(board, directions) <==>
      exists k, i: nat :: 0 <= k < |directions| && i + 3 * directions[k].Distance() < 64 &&
        Run(board, directions[k].Distance(), i)
  {
    HasConnectionIff(board, directions);
    var x := board;
    forall k, i: nat | 0 <= k < |directions|
      ensures RunAt(x, directions[k].Distance(), i) <==>
        i + 3 * directions[k].Distance() < 64 && Run(x, directions[k].Distance(), i)
    {
      RunAtNonNegative(x, directions[k].Distance(), i);
    }
  }

  /** No direction list finds a connection on the empty board. */
  lemma NoConnectionOnEmpty(directions: seq<Direction>)
    ensures !HasConnection(Empty, directions)
  {
    HasConnectionIff(Empty, directions);
    forall k, i: nat | 0 <= k < |directions|
      ensures !RunAt(0, directions[k].Distance(), i)
    {
      ZeroBit(Min(i, 63));
    }
  }

  lemma HasRunMonotone(a: Bitboard, b: Bitboard, directions: seq<Direction>)
    requires Bits(a) <= Bits(b)
    requires HasRun(a, directions)
    ensures HasRun(b, directions)
  {
    var k, i: nat :| 0 <= k < |directions| && RunAt(a, directions[k].Distance(), i);
    var s := directions[k].Distance();
    assert Min(i, 63) in Bits(a);
    assert Min(i + s, 63) in Bits(a);
    assert Min(i + 2 * s, 63) in Bits(a);
    assert Min(i + 3 * s, 63) in Bits(a);
    assert RunAt(b, s, i);
  }

  /** Setting more bits never removes a connection. */
  lemma HasConnectionMonotone(a: Bitboard, b: Bitboard, directions: seq<Direction>)
    requires Bits(a) <= Bits(b)
    requires HasConnection(a, directions)
    ensures HasConnection(b, directions)
  {
    HasConnectionIff(a, directions);
    HasConnectionIff(b, directions);
    HasRunMonotone(a, b, directions);
  }

  // ---------------------------------------------------------------------
  // makeMove

  /** Playing the same move twice gives back the original board. */
  lemma MakeMoveTwice(board: Bitboard, move: Bitboard)
    ensures MakeMove(MakeMove(board, move), move) == board
  {
    assert (board ^ move) ^ move == board;
  }

  /** A one-bit move on a free cell sets exactly that bit, and equals `board | move`. */
  lemma MakeMoveOnFreeCell(board: Bitboard, move: Bitboard, h: nat)
    requires Bits(move) == {h}
    requires h !in Bits(board)
    ensures Bits(MakeMove(board, move)) == Bits(board) + {h}
    ensures MakeMove(board, move) == board | move
  {
    assert Bits(board) * Bits(move) == {};
    XorDisjointIsOr(board, move);
    BitsOr(board, move);
  }

  // ---------------------------------------------------------------------
  // The 7 x 6 grid

  /** The bit of the cell in `column`, `row` (the layout drawn in the `rawValue` comment of `Bitboard.swift`). */
  function Index(column: int, row: int): int
  {
    7 * column + row
  }

  predicate OnGrid(column: int, row: int)
  {
    0 <= column < 7 && 0 <= row < 6
  }

  /** A bit that stands for a cell of the grid, not a guard bit or a bit above column 6. */
  predicate IsPlayableBit(i: nat)
  {
    i < 49 && i % 7 < 6
  }

  ghost predicate Owns(board: Bitboard, column: int, row: int)
  {
    OnGrid(column, row) && IsSet(board, Index(column, row))
  }

  /** Four cells of the grid in a line along d, starting at (column, row), all owned. */
  ghost predicate LineOfFour(board: Bitboard, d: Direction, column: int, row: int)
  {
    var dc, dr := d.ColumnStep(), d.RowStep();
    Owns(board, column, row) && Owns(board, column + dc, row + dr) &&
    Owns(board, column + 2 * dc, row + 2 * dr) && Owns(board, column + 3 * dc, row + 3 * dr)
  }

  ghost predicate IsPlayableBoard(board: Bitboard)
  {
    forall i :: i in Bits(board) ==> IsPlayableBit(i)
  }

  /** Each shift distance is the bit distance between neighbouring cells along its axis. */
  lemma DistanceIsNeighbourDelta(d: Direction, column: int, row: int)
    ensures Index(column + d.ColumnStep(), row + d.RowStep()) == Index(column, row) + d.Distance()
  {
  }

  /**
   * Between two playable bits a distance d apart, the guard bits make the
   * step a genuine step along d on the grid: no wrap into the next column.
   */
  lemma PlayableStep(d: Direction, i: nat)
    requires IsPlayableBit(i) && IsPlayableBit(i + d.Distance())
    ensures (i + d.Distance()) / 7 == i / 7 + d.ColumnStep()
    ensures (i + d.Distance()) % 7 == i % 7 + d.RowStep()
  {
  }

  lemma CellOfPlayableBit(i: nat)
    requires IsPlayableBit(i)
    ensures OnGrid(i / 7, i % 7) && Index(i / 7, i % 7) == i
  {
  }

  /** Four playable bits a distance d apart are four cells in a line along d. */
  lemma PlayableRunCells(d: Direction, i: nat)
    requires IsPlayableBit(i) && IsPlayableBit(i + d.Distance())
    requires IsPlayableBit(i + 2 * d.Distance()) && IsPlayableBit(i + 3 * d.Distance())
    ensures var c, r, dc, dr := i / 7, i % 7, d.ColumnStep(), d.RowStep();
      OnGrid(c, r) && OnGrid(c + dc, r + dr) && OnGrid(c + 2 * dc, r + 2 * dr) && OnGrid(c + 3 * dc, r + 3 * dr) &&
      Index(c + dc, r + dr) == i + d.Distance() &&
      Index(c + 2 * dc, r + 2 * dr) == i + 2 * d.Distance() &&
      Index(c + 3 * dc, r + 3 * dr) == i + 3 * d.Distance()
  {
    var s := d.Distance();
    PlayableStep(d, i);
    PlayableStep(d, i + s);
    PlayableStep(d, i + 2 * s);
    CellOfPlayableBit(i);
    CellOfPlayableBit(i + s);
    CellOfPlayableBit(i + 2 * s);
    CellOfPlayableBit(i + 3 * s);
  }

  lemma RunIsLine(board: Bitboard, d: Direction, i: nat)
    requires IsPlayableBoard(board)
    requires i + 3 * d.Distance() < 64 && Run(board, d.Distance(), i)
    ensures LineOfFour(board, d, i / 7, i % 7)
  {
    var s := d.Distance();
    assert i in Bits(board) && i + s in Bits(board);
    assert i + 2 * s in Bits(board) && i + 3 * s in Bits(board);
    PlayableRunCells(d, i);
  }

  lemma LineIsRun(board: Bitboard, d: Direction, column: int, row: int)
    requires LineOfFour(board, d, column, row)
    ensures Index(column, row) + 3 * d.Distance() < 49
    ensures Run(board, d.Distance(), Index(column, row))
  {
  }

  /**
   * On a board whose set bits are all playable cells, `hasConnection` holds
   * exactly when four owned cells lie in a line on the grid along one of the
   * listed directions.
   */
  lemma HasConnectionIsLineOfFour(board: Bitboard, directions: seq<Direction>)
    requires IsPlayableBoard(board)
    ensures HasConnection(board, directions) <==>
      exists k, column, row :: 0 <= k < |directions| && LineOfFour(board, directions[k], column, row)
  {
    var x := board;
    assert !IsSet(x, 63) by {
      assert 63 !in Bits(x);
    }
    HasConnectionNonNegative(board, directions);
    if HasConnection(board, directions) {
      var k, i: nat :| 0 <= k < |directions| && i + 3 * directions[k].Distance() < 64 &&
        Run(x, directions[k].Distance(), i);
      RunIsLine(board, directions[k], i);
    }
    if exists k, column, row :: 0 <= k < |directions| && LineOfFour(board, directions[k], column, row) {
      var k, column, row :| 0 <= k < |directions| && LineOfFour(board, directions[k], column, row);
      LineIsRun(board, directions[k], column, row);
      var i: nat := Index(column, row);
      assert i + 3 * directions[k].Distance() < 64 && Run(x, directions[k].Distance(), i);
    }
  }

  /** Four owned cells in a line along some direction. */
  ghost predicate HasLineOfFour(board: Bitboard)
  {
    exists d: Direction, column, row :: LineOfFour(board, d, column, row)
  }

  /** Searching `Direction.allCases` finds exactly the lines of four along any axis. */
  lemma HasConnectionInAllDirections(board: Bitboard)
    requires IsPlayableBoard(board)
    ensures HasConnection(board, AllDirections) <==> HasLineOfFour(board)
  {
    HasConnectionIsLineOfFour(board, AllDirections);
    if HasLineOfFour(board) {
      var d: Direction, column, row :| LineOfFour(board, d, column, row);
      var k := match d
        case Vertical => 0
        case Horizontal => 1
        case DiagonalNWSE => 2
        case DiagonalSWNE => 3;
      assert AllDirections[k] == d;
    }
  }

  /** `1 << h`, the move of a piece dropped onto bit h, has exactly bit h set. */
  lemma MoveBits(h: nat)
    requires h < 64
    ensures Bits(SmartShiftLeft(1, h)) == {h}
  {
    BitsSingle(h);
  }

  /** No playable cell is bit 63, so a playable board is a non-negative `Int64`. */
  lemma PlayableIsNonNegative(board: Bitboard)
    requires IsPlayableBoard(board)
    ensures !IsSet(board, 63)
  {
    assert 63 !in Bits(board);
  }

  /** On a non-negative word the arithmetic right shift agrees with the logical one. */
  lemma ArithmeticShiftIsLogical(x: bv64, n: nat)
    requires !IsSet(x, 63)
    ensures ArithShiftRightBy(x, n) == ShiftRightBy(x, n)
  {
    forall i: nat
      ensures i in Bits(ArithShiftRightBy(x, n)) <==> i in Bits(ShiftRightBy(x, n))
    {
      ArithShiftRightByBit(x, n, i);
      ShiftRightByBit(x, n, i);
      if i + n >= 64 {
        HighBit(x, i + n);
      }
    }
    BitsInjective(ArithShiftRightBy(x, n), ShiftRightBy(x, n));
  }
}
