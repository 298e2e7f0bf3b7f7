/**
 * The level map of src/App.jsx:302-317: the levels are laid out on a grid of
 * four columns in "snake" order, left to right on even rows and right to
 * left on odd rows, so that the pipe joining consecutive levels never jumps.
 */
module MapLayout {

  const Cols: nat := 4

  /** `Math.ceil(levels.length / COLS) * COLS`: the number of grid slots. */
  function TotalSlots(levelCount: nat): (r: nat)
    ensures r % Cols == 0
    ensures levelCount <= r < levelCount + Cols
  {
    ((levelCount + Cols - 1) / Cols) * Cols
  }

  function Row(index: nat): nat { index / Cols }
  function Col(index: nat): nat { index % Cols }

  /** The position in `levels` shown by grid slot `index`. */
  function LogicalIndex(index: nat): (r: nat)
    ensures Row(r) == Row(index)
    ensures Row(index) % 2 == 0 ==> r == index
    ensures Row(index) % 2 != 0 ==> Col(r) == Cols - 1 - Col(index)
  {
    var row := index / Cols;
    var col := index % Cols;
    if row % 2 != 0 then row * Cols + (Cols - 1 - col) else row * Cols + col
  }

  /** Mapping twice gives the slot back: the layout is a bijection of each
      row onto itself, and the slot showing level position `j` is
      `LogicalIndex(j)`. */
  lemma LogicalIndexInvolution(index: nat)
    ensures LogicalIndex(LogicalIndex(index)) == index
  {
  }

  /** Every level position below the slot count is shown by exactly one slot. */
  lemma EveryLevelHasOneSlot(levelCount: nat, j: nat)
    requires j < TotalSlots(levelCount)
    ensures LogicalIndex(j) < TotalSlots(levelCount) && LogicalIndex(LogicalIndex(j)) == j
    ensures forall i: nat :: LogicalIndex(i) == j ==> i == LogicalIndex(j)
  {
    LogicalIndexInvolution(j);
    forall i: nat | LogicalIndex(i) == j ensures i == LogicalIndex(j) {
      LogicalIndexInvolution(i);
    }
  }

  /** The snake property: the slots of consecutive levels are neighbours,
      side by side in one row, or one above the other at a row's end. */
  lemma ConsecutiveLevelsAdjacent(j: nat)
    ensures var a, b := LogicalIndex(j), LogicalIndex(j + 1);
            || (Row(a) == Row(b) && (Col(a) + 1 == Col(b) || Col(b) + 1 == Col(a)))
            || (Row(b) == Row(a) + 1 && Col(a) == Col(b))
  {
    LogicalIndexInvolution(j);
    LogicalIndexInvolution(j + 1);
  }
}
