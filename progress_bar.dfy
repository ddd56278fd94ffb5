/**
 * The cells of `progressbar_draw` (UNFLoader/helper.cpp): two `for` loops
 * share the counter `i`, the first drawing a filled cell while
 * `i < blocks_done`, the second an empty one while `i < 16`.
 */
module ProgressBar {

  const ProgSize := 16

  datatype Cell = Filled | Empty

  /** `blocksDone` is `(int)(percent * prog_size)`, already truncated. */
  method DrawCells(blocksDone: int) returns (cells: seq<Cell>)
    ensures |cells| == if blocksDone > ProgSize then blocksDone else ProgSize
    ensures forall k :: 0 <= k < |cells| ==> cells[k] == (if k < blocksDone then Filled else Empty)
    ensures 0 <= blocksDone <= ProgSize ==>
      cells == seq(blocksDone, _ => Filled) + seq(ProgSize - blocksDone, _ => Empty)
    ensures blocksDone > ProgSize ==> cells == seq(blocksDone, _ => Filled)
    ensures blocksDone < 0 ==> cells == seq(ProgSize, _ => Empty)
  {
    cells := [];
    var i := 0;
    while i < blocksDone
      invariant 0 <= i <= (if blocksDone > 0 then blocksDone else 0)
      invariant cells == seq(i, _ => Filled)
    {
      cells := cells + [Filled];
      i := i + 1;
    }
    ghost var filled := i;
    while i < ProgSize
      invariant filled == (if blocksDone > 0 then blocksDone else 0)
      invariant filled <= i && (if filled <= ProgSize then i <= ProgSize else i == filled)
      invariant cells == seq(filled, _ => Filled) + seq(i - filled, _ => Empty)
    {
      cells := cells + [Empty];
      i := i + 1;
    }
  }
}
