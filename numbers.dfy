/** Real-number helpers standing for `Math.abs`, `Math.min` and `Math.max` on percentages and ratios. */
module Numbers {

  function Abs(x: real): real { if x < 0.0 then -x else x }

  function MinReal(a: real, b: real): real { if a <= b then a else b }

  function MaxReal(a: real, b: real): real { if a >= b then a else b }
}
