/**
  Both extractors build their output the same way: an outer loop over the
  entries of a mapping, an inner loop over the entries of each value, one
  record appended per inner entry. The output is the per-entry blocks laid
  end to end; this module states where each block's records land.
 */
module Runs {

  /** The blocks laid end to end: all but the last, then the last. */
  function Concat<T>(blocks: seq<seq<T>>): seq<T>
    decreases |blocks|
  {
    if |blocks| == 0 then []
    else Concat(blocks[..|blocks| - 1]) + blocks[|blocks| - 1]
  }

  /** The summed length of the blocks: where the block after them starts. */
  function TotalLength<T>(blocks: seq<seq<T>>): nat
    decreases |blocks|
  {
    if |blocks| == 0 then 0
    else TotalLength(blocks[..|blocks| - 1]) + |blocks[|blocks| - 1]|
  }

  /** Appending a block appends its elements. */
  lemma ConcatSnoc<T>(blocks: seq<seq<T>>, x: seq<T>)
    ensures Concat(blocks + [x]) == Concat(blocks) + x
  {
    assert (blocks + [x])[..|blocks|] == blocks;
  }

  lemma {:induction false} ConcatLength<T>(blocks: seq<seq<T>>)
    ensures |Concat(blocks)| == TotalLength(blocks)
    decreases |blocks|
  {
    if |blocks| > 0 {
      ConcatLength(blocks[..|blocks| - 1]);
    }
  }

  /** Element `j` of block `i` sits right after the blocks before `i`. */
  lemma {:induction false} ConcatAt<T>(blocks: seq<seq<T>>, i: nat, j: nat)
    requires i < |blocks| && j < |blocks[i]|
    ensures TotalLength(blocks[..i]) + j < |Concat(blocks)|
    ensures Concat(blocks)[TotalLength(blocks[..i]) + j] == blocks[i][j]
    decreases |blocks|
  {
    var n := |blocks|;
    var front := blocks[..n - 1];
    ConcatLength(front);
    if i == n - 1 {
      assert blocks[..i] == front;
    } else {
      assert blocks[..i] == front[..i];
      assert front[i] == blocks[i];
      ConcatAt(front, i, j);
    }
  }

  /** Every position of the output is element `j` of some block `i`. */
  lemma {:induction false} ConcatOrigin<T>(blocks: seq<seq<T>>, k: nat) returns (i: nat, j: nat)
    requires k < |Concat(blocks)|
    ensures i < |blocks| && j < |blocks[i]|
    ensures k == TotalLength(blocks[..i]) + j
    decreases |blocks|
  {
    var n := |blocks|;
    var front := blocks[..n - 1];
    ConcatLength(front);
    if k < |Concat(front)| {
      i, j := ConcatOrigin(front, k);
      assert blocks[..i] == front[..i];
    } else {
      i, j := n - 1, k - |Concat(front)|;
      assert blocks[..i] == front;
    }
  }

  /** A longer run of blocks is at least as long in total. */
  lemma {:induction false} TotalGrows<T>(blocks: seq<seq<T>>, a: nat, b: nat)
    requires a <= b <= |blocks|
    ensures TotalLength(blocks[..a]) <= TotalLength(blocks[..b])
    decreases b - a
  {
    if a < b {
      TotalGrows(blocks, a, b - 1);
      assert blocks[..b][..b - 1] == blocks[..b - 1];
    }
  }

  /** Positions are ordered by block first and by position within the block second. */
  lemma ConcatInOrder<T>(blocks: seq<seq<T>>, i1: nat, j1: nat, i2: nat, j2: nat)
    requires i1 < |blocks| && j1 < |blocks[i1]|
    requires i2 < |blocks| && j2 < |blocks[i2]|
    ensures TotalLength(blocks[..i1]) + j1 < TotalLength(blocks[..i2]) + j2
        <==> i1 < i2 || (i1 == i2 && j1 < j2)
  {
    if i1 < i2 {
      TotalGrows(blocks, i1 + 1, i2);
      assert blocks[..i1 + 1][..i1] == blocks[..i1];
    } else if i2 < i1 {
      TotalGrows(blocks, i2 + 1, i1);
      assert blocks[..i2 + 1][..i2] == blocks[..i2];
    }
  }
}
