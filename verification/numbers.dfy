/** Integer helpers shared by the progress and query models. */
module Numbers {

  /** The smaller of two integers, as `Math.min` and a capped count use it. */
  function Min(a: int, b: int): (r: int)
    ensures r <= a && r <= b
    ensures r == a || r == b
  {
    if a <= b then a else b
  }
}
