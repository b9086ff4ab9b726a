/** Age groups and dependency indices shared by the mock generator and the SIDRA processing. */
module Demografia {

  /** Children (0 to 14), working-age population "PEA" (15 to 59), elderly (60 and over). */
  datatype Grupo = Criancas | Pea | Idosos

  /** `r` is `x / pea`: multiplied back by `pea` it gives `x`. */
  predicate Quociente(r: real, x: int, pea: int) {
    r * (pea as real) == x as real
  }

  /**
   * A dependency index `x / pea`, or 0 when there is no working-age population.
   * The value is the exact quotient; the rounding to 2 or 4 decimal places that
   * follows it in the source is not modelled.
   */
  function IndicePea(x: int, pea: int): (r: real)
    ensures pea <= 0 ==> r == 0.0
    ensures pea > 0 ==> Quociente(r, x, pea)
    ensures pea > 0 && x >= 0 ==> r >= 0.0
  {
    if pea > 0 then x as real / pea as real else 0.0
  }
}
