/** Arithmetic of one station's ring: eight slots filled in turn, each write
    adding two to the `seq` of the slot it lands in. */
module Ring {

  /** How many of the first `n` events of a station land in slot `j`. */
  function Count(n: nat, j: nat): (c: nat)
    requires j < 8
    ensures c == 0 <==> n <= j
  {
    (n + 7 - j) / 8
  }

  /** The event that leaves slot `j` at `seq == 2 * c`. */
  function EventAt(j: nat, c: nat): (k: nat)
    requires j < 8 && c >= 1
    ensures k % 8 == j && k / 8 + 1 == c
  {
    8 * (c - 1) + j
  }

  /** One more event moves exactly one slot forward, by one. */
  lemma CountStep(n: nat, j: nat)
    requires j < 8
    ensures Count(n + 1, j) == Count(n, j) + (if n % 8 == j then 1 else 0)
    ensures n % 8 == j ==> EventAt(j, Count(n, j) + 1) == n
  {
  }

  /** The event a slot holds is one of the first `n`, and the last of them to land there. */
  lemma CountBounds(n: nat, j: nat, k: nat)
    requires j < 8 && k % 8 == j
    ensures k < n <==> k / 8 + 1 <= Count(n, j)
    ensures EventAt(j, k / 8 + 1) == k
  {
  }
}
