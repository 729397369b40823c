/** Values of `Math.random()`, which the generators and the map take as inputs. */
module Random {

  /** A draw of `Math.random()`: a real in [0, 1). */
  predicate IsDraw(u: real) {
    0.0 <= u < 1.0
  }
}
