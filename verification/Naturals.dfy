/** The smaller of two numbers, as the models need it. */
module Naturals {
  function Min(a: nat, b: nat): nat {
    if a <= b then a else b
  }
}
