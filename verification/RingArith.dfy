/** Numbering the entries ever put into a ring of n slots: entry j sits in slot j mod n. */
module RingArith {

  function SlotOf(j: int, n: int): int
    requires n > 0
  {
    j % n
  }

  lemma ScaledGap(k: int, n: int)
    requires n > 0
    ensures k >= 1 ==> k * n >= n
    ensures k <= 0 ==> k * n <= 0
  {
  }

  lemma ScaledUnique(k: int, n: int, d: int)
    requires n > 0 && k * n == d && -n < d < n
    ensures k == 0
  {
    ScaledGap(k, n);
    ScaledGap(-k, n);
    assert (-k) * n == -(k * n);
  }

  lemma DivModUnique(x: int, n: int, q: int, r: int)
    requires n > 0 && x == q * n + r && 0 <= r < n
    ensures x / n == q && x % n == r
  {
    var q', r' := x / n, x % n;
    assert x == n * q' + r';
    Distribute(q, q', n);
    ScaledUnique(q - q', n, r' - r);
  }

  lemma Distribute(a: int, b: int, n: int)
    ensures (a - b) * n == a * n - b * n
    ensures a * n == n * a && b * n == n * b
  {
  }

  /** Two entries less than a lap apart never share a slot. */
  lemma DistinctSlots(i: int, j: int, n: int)
    requires n > 0 && i < j < i + n
    ensures SlotOf(i, n) != SlotOf(j, n)
  {
    if i % n == j % n {
      var a, b := i / n, j / n;
      assert i == n * a + i % n && j == n * b + j % n;
      Distribute(b, a, n);
      ScaledUnique(b - a, n, j - i);
    }
  }

  /** No entry of the lap before j (j excluded) uses the slot of j, except the one exactly a lap back. */
  lemma LapSlots(j: int, n: int)
    requires n > 0
    ensures forall i :: j - n < i < j ==> SlotOf(i, n) != SlotOf(j, n)
  {
    forall i | j - n < i < j
      ensures SlotOf(i, n) != SlotOf(j, n)
    {
      DistinctSlots(i, j, n);
    }
  }

  /** A whole number of laps does not change the slot. */
  lemma LapBackSlot(j: int, n: int)
    requires n > 0
    ensures SlotOf(j - n, n) == SlotOf(j, n)
  {
    assert j == n * (j / n) + j % n;
    assert j - n == (j / n - 1) * n + j % n;
    DivModUnique(j - n, n, j / n - 1, j % n);
  }

  /** next := (next + 1) % n follows the slots of consecutive entries. */
  lemma NextSlot(j: int, n: int)
    requires n > 0
    ensures SlotOf(SlotOf(j, n) + 1, n) == SlotOf(j + 1, n)
  {
    var q, r := j / n, j % n;
    assert j == n * q + r;
    if r + 1 == n {
      assert j + 1 == (q + 1) * n + 0;
      DivModUnique(j + 1, n, q + 1, 0);
      DivModUnique(n, n, 1, 0);
    } else {
      DivModUnique(j + 1, n, q, r + 1);
      DivModUnique(r + 1, n, 0, r + 1);
    }
  }
}
