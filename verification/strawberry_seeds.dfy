/**
 * Placement of the seeds on the 3D strawberry: seed i of 26 is assigned a
 * row r and a slot idx within that row by walking the row sizes
 * [4, 5, 6, 6, 5, 4] from the top. Only this index arithmetic is modelled;
 * the trigonometry that turns (row, slot) into a position is not.
 */
module StrawberrySeeds {

  /** How many seeds each of the six rows holds. */
  const PerRow: seq<nat> := [4, 5, 6, 6, 5, 4]

  /** How many seeds the strawberry has. */
  const SeedCount: nat := 26

  /** The index of the first seed of row r: the sum of the sizes of the
      rows above it. RowStart(|PerRow|) is the capacity of all rows. */
  function RowStart(r: nat): (s: nat)
    requires r <= |PerRow|
    ensures 4 * r <= s <= 6 * r
  {
    if r == 0 then 0 else RowStart(r - 1) + PerRow[r - 1]
  }

  lemma RowStarts()
    ensures RowStart(0) == 0 && RowStart(1) == 4 && RowStart(2) == 9 && RowStart(3) == 15
    ensures RowStart(4) == 21 && RowStart(5) == 26 && RowStart(6) == 30
  {
  }

  /** Row starts grow with the row. */
  lemma {:induction false} RowStartMonotone(a: nat, b: nat)
    requires a <= b <= |PerRow|
    ensures RowStart(a) <= RowStart(b)
    decreases b - a
  {
    if a < b {
      RowStartMonotone(a, b - 1);
    }
  }

  /** Seed i sits in slot idx of row r. */
  predicate IsSlot(i: nat, r: nat, idx: nat) {
    r < |PerRow| && idx < PerRow[r] && i == RowStart(r) + idx
  }

  /** The seed loop: subtract row sizes while the remaining index does not
      fit in the current row. Reading past the last row yields undefined in
      JavaScript, and a comparison with undefined is false, so the loop also
      stops there. */
  method SeedSlot(i: nat) returns (r: nat, idx: nat)
    ensures r <= |PerRow| && i == RowStart(r) + idx
    ensures i < RowStart(|PerRow|) ==> IsSlot(i, r, idx)
    ensures i >= RowStart(|PerRow|) ==> r == |PerRow|
  {
    r, idx := 0, i;
    while r < |PerRow| && idx >= PerRow[r]
      invariant r <= |PerRow|
      invariant i == RowStart(r) + idx
      decreases |PerRow| - r
    {
      idx := idx - PerRow[r];
      r := r + 1;
    }
    if r < |PerRow| {
      RowStartMonotone(r + 1, |PerRow|);
    }
  }

  /** A seed index has only one slot, so the loop's answer is the slot. */
  lemma SlotUnique(i: nat, r1: nat, idx1: nat, r2: nat, idx2: nat)
    requires IsSlot(i, r1, idx1) && IsSlot(i, r2, idx2)
    ensures r1 == r2 && idx1 == idx2
  {
    if r1 < r2 {
      RowStartMonotone(r1 + 1, r2);
    } else if r2 < r1 {
      RowStartMonotone(r2 + 1, r1);
    }
  }

  /** No two seeds share a slot. */
  lemma SlotsInjective(i: nat, j: nat, r: nat, idx: nat)
    requires IsSlot(i, r, idx) && IsSlot(j, r, idx)
    ensures i == j
  {
  }

  /** The row each of the 26 seeds lands in: rows fill from the top, and the
      last row stays empty. */
  function ExpectedRow(i: nat): nat {
    if i < 4 then 0 else if i < 9 then 1 else if i < 15 then 2 else if i < 21 then 3 else 4
  }

  lemma RowsFillInOrder(i: nat, r: nat, idx: nat)
    requires i < SeedCount && IsSlot(i, r, idx)
    ensures r == ExpectedRow(i) && r != 5
  {
    RowStarts();
    var r' := ExpectedRow(i);
    SlotUnique(i, r, idx, r', i - RowStart(r'));
  }

  /** The slots of all seeds, in seed order, as the seed list maps them. */
  method SeedSlots() returns (slots: seq<(nat, nat)>)
    ensures |slots| == SeedCount
    ensures forall i :: 0 <= i < SeedCount ==> IsSlot(i, slots[i].0, slots[i].1)
    ensures forall i, j :: 0 <= i < j < SeedCount ==> slots[i] != slots[j]
  {
    RowStarts();
    slots := [];
    var i := 0;
    while i < SeedCount
      invariant i <= SeedCount && |slots| == i
      invariant forall k :: 0 <= k < i ==> IsSlot(k, slots[k].0, slots[k].1)
    {
      var r, idx := SeedSlot(i);
      slots := slots + [(r, idx)];
      i := i + 1;
    }
  }
}
