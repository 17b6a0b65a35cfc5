/** The source's Math.abs and Math.max, on exact reals and integers. */
module Numbers {
  function Abs(x: real): real { if x < 0.0 then -x else x }

  function Max(a: real, b: real): real { if a < b then b else a }

  function MaxInt(a: int, b: int): int { if a < b then b else a }
}
