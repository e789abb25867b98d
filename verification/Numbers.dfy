/** Small arithmetic shared by the protocols. */
module Numbers {

  function Max(a: int, b: int): int { if a < b then b else a }

  function Min(a: int, b: int): int { if a < b then a else b }

  /** Milliseconds as seconds, rounded up. */
  function CeilSeconds(ms: int): (s: int)
    ensures 1000 * (s - 1) < ms <= 1000 * s
  {
    (ms + 999) / 1000
  }

  /** A stored count; a missing one reads as zero. */
  function Get<K>(counts: map<K, int>, k: K): int {
    if k in counts then counts[k] else 0
  }
}
