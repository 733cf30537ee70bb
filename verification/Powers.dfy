/** Powers of two, as the back-off and the retry delay use them. */
module Powers {
  function Power2(exponent: nat): (p: nat)
    ensures p >= 1
  {
    if exponent == 0 then 1 else 2 * Power2(exponent - 1)
  }
}
