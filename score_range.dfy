/** The fixed 300..900 band that every score and every training label is
    pinned to, written `max(300, min(900, x))` in all the sources. */
module ScoreRange {
  const MinScore: int := 300
  const MaxScore: int := 900

  /** `max(300, min(900, x))` on integers. */
  function Clamp(x: int): (r: int)
    ensures MinScore <= r <= MaxScore
    ensures MinScore <= x <= MaxScore ==> r == x
    ensures x < MinScore ==> r == MinScore
    ensures x > MaxScore ==> r == MaxScore
  {
    if x > MaxScore then MaxScore else if x < MinScore then MinScore else x
  }

  /** Clamping never reverses the order of two scores. */
  lemma ClampMonotone(x: int, y: int)
    requires x <= y
    ensures Clamp(x) <= Clamp(y)
  {
  }

  /** A clamped score is a fixed point of the clamp. */
  lemma ClampIdempotent(x: int)
    ensures Clamp(Clamp(x)) == Clamp(x)
  {
  }
}
