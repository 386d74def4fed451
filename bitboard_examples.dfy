/**
 * The boards of the Bitboard unit tests (Connect-4Tests/Model Tests/BitboardTests.swift),
 * with their expected results, written in hexadecimal.
 */
module BitboardExamples {
  import opened Int64Bits
  import opened Bitboards

  /** Chains two literal shifts, so each is evaluated on its own. */
  lemma ShiftInSteps(x: bv64, a: nat, b: nat, y: bv64, z: bv64)
    requires ArithShiftRightBy(x, a) == y && ArithShiftRightBy(y, b) == z
    ensures ArithShiftRightBy(x, a + b) == z
  {
    ArithShiftRightByAdd(x, a, b);
  }

  /** On a non-negative word an 8-place right shift is Dafny's logical `>>`. */
  lemma LogicalShift8(x: bv64)
    requires x & SignBit == 0
    ensures ArithShiftRightBy(x, 8) == x >> 8
  {
    TopBit(x);
    ArithmeticShiftIsLogical(x, 8);
    ShiftRightBy8(x);
  }

  lemma ShiftOperators()
    ensures ShiftLeft(4, 1) == 8
    ensures ShiftRight(4, 1) == 2
  {
  }

  lemma BitwiseOperators()
    ensures 0x2D | 0x25 == 0x2D as Bitboard
    ensures 0x33 ^ 0x0F == 0x3C as Bitboard
    ensures 0x33 & 0x0F == 0x03 as Bitboard
    ensures MakeMove(0x33, 0x0F) == 0x3C
  {
  }

  lemma VerticalConnection()
    ensures HasConnection(0xF, [Vertical])
  {
  }

  lemma HorizontalConnection()
    ensures HasConnection(0x810_2040, [Horizontal])
  {
    ArithShiftRightByAdd(0x810_2040, 14, 7);
  }

  lemma DiagonalSWNEConnection()
    ensures HasConnection(0x808_0808, [DiagonalSWNE])
  {
    LogicalShift8(0x808_0808);
    LogicalShift8(0x8_0808);
    LogicalShift8(0x808);
    ShiftInSteps(0x808_0808, 8, 8, 0x8_0808, 0x808);
    ShiftInSteps(0x808_0808, 16, 8, 0x808, 0x8);
  }

  lemma DiagonalNWSEConnection()
    ensures HasConnection(0x104_1040, [DiagonalNWSE])
  {
    ArithShiftRightByAdd(0x104_1040, 12, 6);
  }

  lemma NoVerticalConnection()
    ensures !ConnectedIn(0xE1C_3800, Vertical)
  {
  }

  lemma NoHorizontalConnection()
    ensures !ConnectedIn(0xE1C_3800, Horizontal)
  {
    ArithShiftRightByAdd(0xE1C_3800, 14, 7);
  }

  lemma NoDiagonalNWSEConnection()
    ensures !ConnectedIn(0xE1C_3800, DiagonalNWSE)
  {
    ArithShiftRightByAdd(0xE1C_3800, 12, 6);
  }

  lemma NoDiagonalSWNEConnection()
    ensures !ConnectedIn(0xE1C_3800, DiagonalSWNE)
  {
    LogicalShift8(0xE1C_3800);
    LogicalShift8(0xE_1C38);
    LogicalShift8(0xE1C);
    ShiftInSteps(0xE1C_3800, 8, 8, 0xE_1C38, 0xE1C);
    ShiftInSteps(0xE1C_3800, 16, 8, 0xE1C, 0xE);
  }

  lemma NoConnection()
    ensures !HasConnection(0xE1C_3800, AllDirections)
  {
    NoVerticalConnection();
    NoHorizontalConnection();
    NoDiagonalNWSEConnection();
    NoDiagonalSWNEConnection();
    assert AllDirections[1..][1..][1..][1..] == [];
  }
}
