/** Gas compressibility (Z) factor correlations of lib/petro.py that are
    rational in the reduced temperature Tr and reduced pressure Pr: Gopal's
    piecewise-linear table and Sarem's double Legendre series. */
module ZFactor {
  import opened Common

  /** Gopal's pressure bands, taken first-match in the order the source tests
      them: 0 for Pr <= 1.2, 1 for 1.2 < Pr < 2.8, 2 for 2.8 <= Pr < 5.4,
      3 for the high-pressure formula. A boundary value goes to the lower band. */
  function PressureBand(pr: real): (band: nat)
    ensures band <= 3
    ensures band == 0 <==> pr <= 1.2
    ensures band == 1 <==> 1.2 < pr < 2.8
    ensures band == 2 <==> 2.8 <= pr < 5.4
    ensures band == 3 <==> pr >= 5.4
  {
    if pr <= 1.2 then 0
    else if 1.2 <= pr < 2.8 then 1
    else if 2.8 <= pr < 5.4 then 2
    else 3
  }

  /** Gopal's temperature rows: 0 for Tr <= 1.2, 1 for 1.2 < Tr < 1.4,
      2 for 1.4 <= Tr < 2.0, 3 for 2.0 <= Tr < 3.0, none from Tr = 3.0 on. */
  function TemperatureBand(tr: real): (row: Option<nat>)
    ensures row.None? <==> tr >= 3.0
    ensures row.Some? ==> row.value <= 3
    ensures row == Some(0) <==> tr <= 1.2
    ensures row == Some(1) <==> 1.2 < tr < 1.4
    ensures row == Some(2) <==> 1.4 <= tr < 2.0
    ensures row == Some(3) <==> 2.0 <= tr < 3.0
  {
    if tr <= 1.2 then Some(0)
    else if 1.2 <= tr < 1.4 then Some(1)
    else if 1.4 <= tr < 2.0 then Some(2)
    else if 2.0 <= tr < 3.0 then Some(3)
    else None
  }

  /** One cell of Gopal's table: Z = Pr*(a*Tr + b) + c*Tr + d. */
  datatype Cell = Cell(a: real, b: real, c: real, d: real)

  function GopalCell(band: nat, row: nat): Cell
    requires band <= 2 && row <= 3
  {
    [[Cell(1.6643, -2.2114, -0.3647, 1.4385),
      Cell(0.0522, -0.8511, -0.0364, 1.0490),
      Cell(0.1391, -0.2988, 0.0007, 0.9969),
      Cell(0.0295, -0.0825, 0.0009, 0.9967)],
     [Cell(-1.3570, 1.4942, 4.6315, -4.7009),
      Cell(0.1717, -0.3232, 0.5869, 0.1229),
      Cell(0.0984, -0.2053, 0.0621, 0.8580),
      Cell(0.0211, -0.0527, 0.0127, 0.9549)],
     [Cell(-0.3278, 0.4752, 1.8223, -1.9036),
      Cell(-0.2521, 0.3871, 1.6087, -1.6635),
      Cell(-0.0284, 0.0625, 0.4714, -0.0011),
      Cell(0.0041, 0.0039, 0.0607, 0.7927)]][band][row]
  }

  function Apply(cell: Cell, tr: real, pr: real): real {
    pr * (cell.a * tr + cell.b) + cell.c * tr + cell.d
  }

  /** `Z_Gopal(Tr, Pr)` as written: nested first-match tests, each leaf one
      cell of the table. The value of the high-pressure formula (Pr >= 5.4),
      which uses a non-integer power, is the parameter `zHigh`. Where no
      branch applies the function falls off its end and returns None. */
  function ZGopal(tr: real, pr: real, zHigh: real): (z: Option<real>)
    ensures z.None? <==> pr < 5.4 && tr >= 3.0
    ensures pr >= 5.4 ==> z == Some(zHigh)
    ensures z.Some? && pr < 5.4 ==>
      TemperatureBand(tr).Some? &&
      z == Some(Apply(GopalCell(PressureBand(pr), TemperatureBand(tr).value), tr, pr))
  {
    if pr <= 1.2 then
      if tr <= 1.2 then Some(Apply(GopalCell(0, 0), tr, pr))
      else if 1.2 <= tr < 1.4 then Some(Apply(GopalCell(0, 1), tr, pr))
      else if 1.4 <= tr < 2.0 then Some(Apply(GopalCell(0, 2), tr, pr))
      else if 2.0 <= tr < 3.0 then Some(Apply(GopalCell(0, 3), tr, pr))
      else None
    else if 1.2 <= pr < 2.8 then
      if tr <= 1.2 then Some(Apply(GopalCell(1, 0), tr, pr))
      else if 1.2 <= tr < 1.4 then Some(Apply(GopalCell(1, 1), tr, pr))
      else if 1.4 <= tr < 2.0 then Some(Apply(GopalCell(1, 2), tr, pr))
      else if 2.0 <= tr < 3.0 then Some(Apply(GopalCell(1, 3), tr, pr))
      else None
    else if 2.8 <= pr < 5.4 then
      if tr <= 1.2 then Some(Apply(GopalCell(2, 0), tr, pr))
      else if 1.2 <= tr < 1.4 then Some(Apply(GopalCell(2, 1), tr, pr))
      else if 1.4 <= tr < 2.0 then Some(Apply(GopalCell(2, 2), tr, pr))
      else if 2.0 <= tr < 3.0 then Some(Apply(GopalCell(2, 3), tr, pr))
      else None
    else
      Some(zHigh)
  }

  /** Boundary values go to the lower band: at Pr = 1.2 and Tr = 1.2 the first
      cell applies, and the values the second row and the second band would
      give there differ from it. */
  lemma ZGopalBoundaryGoesLow(zHigh: real)
    ensures ZGopal(1.2, 1.2, zHigh) == Some(Apply(GopalCell(0, 0), 1.2, 1.2))
    ensures Apply(GopalCell(0, 0), 1.2, 1.2) != Apply(GopalCell(1, 0), 1.2, 1.2)
    ensures Apply(GopalCell(0, 0), 1.2, 1.2) != Apply(GopalCell(0, 1), 1.2, 1.2)
  {
  }

  // ----- Sarem -----

  /** Sarem's coefficient matrix A[i][j]. */
  const SaremA: seq<seq<real>> :=
    [[2.1433504, 0.0831762, -0.0214670, -0.0008714, 0.0042846, -0.0016595],
     [0.3312352, -0.1340361, 0.0668810, -0.0271743, 0.0088512, -0.002152],
     [0.1057287, -0.0503937, 0.0050925, 0.0105513, -0.0073182, 0.0026960],
     [0.0521840, 0.0443121, -0.0193294, 0.0058973, 0.0015367, -0.0028327],
     [0.0197040, -0.0263834, 0.019262, -0.0115354, 0.0042910, -0.0081303],
     [0.0053096, 0.0089178, -0.0108948, 0.0095594, -0.0060114, 0.0031175]]

  /** The normalised Legendre polynomials P0..P5 of the source's lambda list. */
  function Legendre(i: nat, a: real): real
    requires i < 6
  {
    if i == 0 then 0.7071068
    else if i == 1 then 1.224745 * a
    else if i == 2 then 0.7905695 * (3.0 * a * a - 1.0)
    else if i == 3 then 0.9354145 * (5.0 * a * a * a - 3.0 * a)
    else if i == 4 then 0.265165 * (35.0 * a * a * a * a - 30.0 * a * a + 3.0)
    else 0.293151 * (63.0 * a * a * a * a * a - 70.0 * a * a * a + 15.0 * a)
  }

  function Term(i: nat, j: nat, x: real, y: real): real
    requires i < 6 && j < 6
  {
    SaremA[i][j] * Legendre(i, x) * Legendre(j, y)
  }

  /** Sum of the first m terms of row i. */
  function RowSum(i: nat, m: nat, x: real, y: real): real
    requires i < 6 && m <= 6
  {
    if m == 0 then 0.0 else RowSum(i, m - 1, x, y) + Term(i, m - 1, x, y)
  }

  /** Sum of the first n complete rows. */
  function TableSum(n: nat, x: real, y: real): real
    requires n <= 6
  {
    if n == 0 then 0.0 else TableSum(n - 1, x, y) + RowSum(n - 1, 6, x, y)
  }

  /** Sarem's scaled pressure x = (2 Pr - 15)/14.8: the table's range
      0.1 <= Pr <= 14.9 is mapped onto the Legendre interval [-1, 1]. */
  function SaremX(pr: real): (x: real)
    ensures 0.1 <= pr <= 14.9 <==> -1.0 <= x <= 1.0
  {
    (2.0 * pr - 15.0) / 14.8
  }

  /** Sarem's scaled temperature y = (2 Tr - 4)/1.9: the table's range
      1.05 <= Tr <= 2.95 is mapped onto [-1, 1]. */
  function SaremY(tr: real): (y: real)
    ensures 1.05 <= tr <= 2.95 <==> -1.0 <= y <= 1.0
  {
    (2.0 * tr - 4.0) / 1.9
  }

  /** `Z_Sarem(Tr, Pr)`: the nested loop accumulates the 36 terms row by row. */
  method ZSarem(tr: real, pr: real) returns (z: real)
    ensures z == TableSum(6, SaremX(pr), SaremY(tr))
  {
    var x := SaremX(pr);
    var y := SaremY(tr);
    z := 0.0;
    for i := 0 to 6
      invariant z == TableSum(i, x, y)
    {
      for j := 0 to 6
        invariant z == TableSum(i, x, y) + RowSum(i, j, x, y)
      {
        z := z + Term(i, j, x, y);
      }
    }
  }
}
