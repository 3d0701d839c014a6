/** Quotient and remainder of positions by a block size. */
module BlockArithmetic {
  lemma DivFact(n: int, size: int)
    requires size > 0
    ensures n == (n / size) * size + n % size && 0 <= n % size < size
  {
  }

  lemma MulGrow(k: int, size: int)
    requires k >= 1 && size > 0
    ensures k * size >= size
  {
  }

  lemma NextMultiple(q: int, size: int)
    ensures (q + 1) * size == q * size + size
  {
  }

  lemma Distribute(a: int, b: int, c: int)
    ensures (a - b) * c == a * c - b * c
  {
  }

  lemma UniqueQuotient(size: int, a: int, b: int, q: int, r: int)
    requires size > 0 && a * size + b == q * size + r && 0 <= b < size && 0 <= r < size
    ensures a == q && b == r
  {
    if q > a {
      Distribute(q, a, size);
      MulGrow(q - a, size);
    } else if a > q {
      Distribute(a, q, size);
      MulGrow(a - q, size);
    }
  }

  lemma QuotientOrder(size: int, a: int, b: int, q: int, r: int)
    requires size > 0 && a * size + b <= q * size + r && 0 <= b < size && 0 <= r < size
    ensures a <= q
  {
    if a > q {
      Distribute(a, q, size);
      MulGrow(a - q, size);
    }
  }

  lemma DivisionUnique(n: int, size: int, q: int, r: int)
    requires size > 0 && n == q * size + r && 0 <= r < size
    ensures n / size == q && n % size == r
  {
    DivFact(n, size);
    UniqueQuotient(size, n / size, n % size, q, r);
  }

  lemma BlockOrder(a: int, b: int, size: int)
    requires size > 0 && a <= b
    ensures a / size <= b / size
  {
    DivFact(a, size);
    DivFact(b, size);
    QuotientOrder(size, a / size, a % size, b / size, b % size);
  }

  /** Positions up to the end of a block share its quotient. */
  lemma SameBlock(start: int, k: nat, size: int)
    requires size > 0 && start % size + k < size
    ensures (start + k) / size == start / size
    ensures (start + k) % size == start % size + k
  {
    DivFact(start, size);
    DivisionUnique(start + k, size, start / size, start % size + k);
  }

  /** Stepping to the end of a block enters the next one. */
  lemma NextBlock(start: int, k: int, size: int)
    requires size > 0 && start % size + k == size
    ensures (start + k) / size == start / size + 1
  {
    DivFact(start, size);
    NextMultiple(start / size, size);
    DivisionUnique(start + k, size, start / size + 1, 0);
  }

  /** A slot determines its block id and offset. */
  lemma SlotParts(size: nat, x: nat, a: nat, y: nat, b: nat)
    requires size > 0 && a < size && b < size && x * size + a == y * size + b
    ensures x == y && a == b
  {
    UniqueQuotient(size, x, a, y, b);
  }

  /** A position is determined by its block and offset. */
  lemma SamePosition(p: int, q: int, size: int)
    requires size > 0 && p / size == q / size && p % size == q % size
    ensures p == q
  {
    DivFact(p, size);
    DivFact(q, size);
  }
}
