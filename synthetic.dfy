/** The synthetic tenant profiles both training scripts draw, with the
    random draws turned into parameters. */
module Synthetic {
  /** The number of profiles each training script generates. */
  const SampleCount: nat := 1000

  /** One random draw: `streak`, `delay`, `utility` and `linkedin`. */
  datatype Sample = Sample(streak: int, delay: int, utility: real, linkedin: int)

  /** The ranges the random generators produce: `randint(0, 24)`,
      `randint(-5, 30)` (upper bounds exclusive), `rand()` in [0, 1) and
      `choice([0, 1])`. */
  predicate Drawn(s: Sample) {
    && 0 <= s.streak < 24
    && -5 <= s.delay < 30
    && 0.0 <= s.utility < 1.0
    && (s.linkedin == 0 || s.linkedin == 1)
  }

  /** The feature row appended to `X`, in training order. */
  function Row(s: Sample): (row: seq<real>)
    ensures |row| == 4
    ensures row[0] == s.streak as real && row[1] == s.delay as real
    ensures row[2] == s.utility && row[3] == s.linkedin as real
  {
    [s.streak as real, s.delay as real, s.utility, s.linkedin as real]
  }

  /** Python's `int(x)` on a float: truncation toward zero. */
  function PyInt(x: real): (r: int)
    ensures 0.0 <= x ==> r as real <= x < r as real + 1.0
    ensures x < 0.0 ==> r as real - 1.0 < x <= r as real
  {
    if x >= 0.0 then x.Floor else -((-x).Floor)
  }

  /** Truncation never reverses the order of two values. */
  lemma PyIntMonotone(x: real, y: real)
    requires x <= y
    ensures PyInt(x) <= PyInt(y)
  {
  }
}
