/**
 * Small facts about sequences shared by the planner and the transformer:
 * indexing a concatenation, and positions in a key-major layout where every
 * key owns a block of `n` consecutive entries.
 */
module Seqs {

  /** Indexing the left operand of a concatenation. */
  lemma IndexLeft<T>(a: seq<T>, b: seq<T>, i: nat)
    requires i < |a|
    ensures i < |a + b| && (a + b)[i] == a[i]
  {
  }

  /** Indexing the right operand of a concatenation. */
  lemma IndexRight<T>(a: seq<T>, b: seq<T>, j: nat)
    requires j < |b|
    ensures |a| + j < |a + b| && (a + b)[|a| + j] == b[j]
  {
  }

  /** Concatenation is associative. */
  lemma ConcatAssoc<T>(a: seq<T>, b: seq<T>, c: seq<T>)
    ensures (a + b) + c == a + (b + c)
  {
  }

  /** The position of entry `j` of block `k` when every block has `n` entries, counted out block by block. */
  function Slot(k: nat, j: nat, n: nat): nat
    decreases k
  {
    if k == 0 then j else n + Slot(k - 1, j, n)
  }

  /** The slot is k × n + j. */
  lemma {:induction false} SlotIsProduct(k: nat, j: nat, n: nat)
    ensures Slot(k, j, n) == k * n + j
    decreases k
  {
    if k > 0 {
      SlotIsProduct(k - 1, j, n);
      assert k * n == (k - 1) * n + n;
    }
  }

  /** Entry `j` of block `k` sits `j` places after the block's start. */
  lemma {:induction false} SlotShift(k: nat, j: nat, n: nat)
    ensures Slot(k, j, n) == Slot(k, 0, n) + j
    decreases k
  {
    if k > 0 {
      SlotShift(k - 1, j, n);
    }
  }

  /** The block and the place within it of position `i`: the inverse of `Slot`. */
  function Unslot(i: nat, n: nat): (r: (nat, nat))
    requires n > 0
    ensures r.1 < n && Slot(r.0, r.1, n) == i
    decreases i
  {
    if i < n then (0, i)
    else
      var r := Unslot(i - n, n);
      (r.0 + 1, r.1)
  }

  /** A position before the start of block `m` lies in one of the first `m` blocks. */
  lemma {:induction false} SlotBelow(k: nat, j: nat, m: nat, n: nat)
    requires Slot(k, j, n) < Slot(m, 0, n)
    ensures k < m
    decreases m
  {
    if m > 0 && k > 0 {
      SlotBelow(k - 1, j, m - 1, n);
    }
  }

  /** Different (block, entry) pairs with entries inside their blocks have different slots. */
  lemma {:induction false} SlotInjective(k1: nat, j1: nat, k2: nat, j2: nat, n: nat)
    requires j1 < n && j2 < n && Slot(k1, j1, n) == Slot(k2, j2, n)
    ensures k1 == k2 && j1 == j2
    decreases k1
  {
    if k1 > 0 && k2 > 0 {
      SlotInjective(k1 - 1, j1, k2 - 1, j2, n);
    }
  }
}
