/** The fundamentals record the scorer reads, and the scorer's result.

    Every field of the record comes from a provider dictionary where a
    missing entry is replaced by the placeholder string "N/A", so a field
    is a Python `int`, a Python `float`, or something else (the placeholder,
    `None`, a string). The tags below follow the `isinstance` tests the
    scorer makes. */
module Fundamentals {

  /** One field of the record: an `int`, a `float` (modelled as an exact
      real), or any other value such as the "N/A" placeholder. */
  datatype Value = IntV(i: int) | FloatV(f: real) | Other {

    /** `isinstance(v, (int, float))`: anything but the placeholder. */
    predicate IsNumber()
      ensures IsNumber() <==> !Other?
    {
      IntV? || FloatV?
    }

    /** `isinstance(v, int) and v > 0`: a positive int, never a float. */
    predicate IsPositiveInt()
      ensures IsPositiveInt() ==> IsNumber() && !FloatV? && AsReal() > 0.0
    {
      IntV? && i > 0
    }

    /** The numeric value of an `int` or a `float`. */
    function AsReal(): (r: real)
      requires IsNumber()
      ensures IntV? ==> r == i as real
      ensures FloatV? ==> r == f
    {
      if IntV? then i as real else f
    }
  }

  /** The four entries of the summary dictionary that the scorer reads. */
  datatype Summary = Summary(
    marketCap: Value,
    peRatio: Value,
    revenue: Value,
    netIncome: Value)

  /** What the scorer returns: an integer score, or the whole
      "N/A (<reason>)" text produced when an exception escapes the
      computation. */
  datatype ScoreResult = Score(points: int) | Unavailable(text: string)
}
