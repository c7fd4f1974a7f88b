/** Pseudo-critical properties of a natural gas of known specific gravity
    (lib/petro.py, `Natural_Gas.__init__` and
    `Critical_Carr_Kobayashi_Burrows`). Temperatures in degrees Rankine,
    pressures in psi; CO2, H2S and N2 are mole fractions. */
module NaturalGas {

  datatype PseudoCritical = PseudoCritical(tpc: real, ppc: real)

  /** The hydrocarbon base quadratics in SG, one pair for wet and one for dry gas. */
  function BaseCritical(sg: real, wet: bool): PseudoCritical {
    if wet then PseudoCritical(187.0 + 330.0 * sg - 72.5 * sg * sg, 706.0 - 51.7 * sg - 11.1 * sg * sg)
    else PseudoCritical(168.0 + 325.0 * sg - 12.5 * sg * sg, 677.0 + 15.0 * sg - 37.5 * sg * sg)
  }

  /** Carr, Kobayashi and Burrows' linear correction for non-hydrocarbons:
      carbon dioxide and nitrogen lower the pseudo-critical temperature,
      hydrogen sulphide raises it; nitrogen alone lowers both the temperature
      and the pressure; a gas without them is left as it is. */
  function CarrKobayashiBurrows(c: PseudoCritical, co2: real, h2s: real, n2: real): (r: PseudoCritical)
    ensures co2 == 0.0 && h2s == 0.0 && n2 == 0.0 ==> r == c
    ensures h2s == 0.0 && co2 >= 0.0 && n2 >= 0.0 ==> r.tpc <= c.tpc
    ensures co2 == 0.0 && n2 == 0.0 && h2s >= 0.0 ==> r.tpc >= c.tpc && r.ppc >= c.ppc
    ensures co2 == 0.0 && h2s == 0.0 && n2 > 0.0 ==> r.tpc < c.tpc && r.ppc < c.ppc
  {
    PseudoCritical(c.tpc - 80.0 * co2 + 130.0 * h2s - 250.0 * n2,
                   c.ppc + 440.0 * co2 + 600.0 * h2s - 170.0 * n2)
  }

  /** Two corrections in a row are one correction by the summed fractions,
      so the shift is additive in the composition. */
  lemma CarrKobayashiBurrowsAdditive(c: PseudoCritical, co2: real, h2s: real, n2: real,
                                     co2': real, h2s': real, n2': real)
    ensures CarrKobayashiBurrows(CarrKobayashiBurrows(c, co2, h2s, n2), co2', h2s', n2') ==
            CarrKobayashiBurrows(c, co2 + co2', h2s + h2s', n2 + n2')
  {
  }

  /** A correction is undone by the correction for the opposite fractions. */
  lemma CarrKobayashiBurrowsInverse(c: PseudoCritical, co2: real, h2s: real, n2: real)
    ensures CarrKobayashiBurrows(CarrKobayashiBurrows(c, co2, h2s, n2), -co2, -h2s, -n2) == c
  {
    CarrKobayashiBurrowsAdditive(c, co2, h2s, n2, -co2, -h2s, -n2);
  }

  /** The constructed gas: its inputs, its pseudo-critical point and its
      molecular weight. */
  datatype Gas = Gas(sg: real, wet: bool, co2: real, h2s: real, n2: real,
                     critical: PseudoCritical, m: real)

  /** `Natural_Gas(SG, wet=..., CO2=..., H2S=..., N2=...)`. The Wichert-Aziz
      sour-gas correction uses non-integer powers; it is the parameter
      `wichertAziz`, applied to the point reached so far. */
  function NewGas(sg: real, wet: bool, co2: real, h2s: real, n2: real,
                  wichertAziz: PseudoCritical -> PseudoCritical): (g: Gas)
    ensures g.m == 28.96 * sg
    ensures g.sg == sg && g.wet == wet && g.co2 == co2 && g.h2s == h2s && g.n2 == n2
    ensures co2 + h2s == 0.0 && n2 == 0.0 ==> g.critical == BaseCritical(sg, wet)
    ensures co2 + h2s == 0.0 && n2 != 0.0 ==>
      g.critical == CarrKobayashiBurrows(BaseCritical(sg, wet), co2, h2s, n2)
    ensures co2 + h2s != 0.0 && n2 != 0.0 ==>
      g.critical == wichertAziz(CarrKobayashiBurrows(BaseCritical(sg, wet), co2, h2s, n2))
    ensures co2 + h2s != 0.0 && n2 == 0.0 ==> g.critical == wichertAziz(BaseCritical(sg, wet))
  {
    var c0 := BaseCritical(sg, wet);
    var c1 := if n2 != 0.0 then CarrKobayashiBurrows(c0, co2, h2s, n2) else c0;
    var c2 := if co2 + h2s != 0.0 then wichertAziz(c1) else c1;
    Gas(sg, wet, co2, h2s, n2, c2, 28.96 * sg)
  }

  /** For a sweet gas with only nitrogen the shift lowers the pseudo-critical
      temperature by 250 R and the pressure by 170 psi per unit N2. */
  lemma NitrogenOnlyShift(sg: real, wet: bool, n2: real, wa: PseudoCritical -> PseudoCritical)
    requires n2 != 0.0
    ensures NewGas(sg, wet, 0.0, 0.0, n2, wa).critical.tpc == BaseCritical(sg, wet).tpc - 250.0 * n2
    ensures NewGas(sg, wet, 0.0, 0.0, n2, wa).critical.ppc == BaseCritical(sg, wet).ppc - 170.0 * n2
  {
  }

  /** Over the physical gravity range 0 <= SG <= 2 the pseudo-critical
      temperature rises with SG for both wet and dry gas. */
  lemma BaseTemperatureIncreasing(wet: bool, sg1: real, sg2: real)
    requires 0.0 <= sg1 < sg2 <= 2.0
    ensures BaseCritical(sg1, wet).tpc < BaseCritical(sg2, wet).tpc
  {
    var d := sg2 - sg1;
    // t(sg2) - t(sg1) = (sg2 - sg1) * (b - a*(sg1 + sg2))
    if wet {
      assert 72.5 * sg2 * sg2 - 72.5 * sg1 * sg1 == 72.5 * d * (sg1 + sg2);
      assert 72.5 * (sg1 + sg2) < 330.0;
      assert 330.0 * d - 72.5 * d * (sg1 + sg2) > 0.0 by {
        assert d * (330.0 - 72.5 * (sg1 + sg2)) > 0.0;
      }
    } else {
      assert 12.5 * sg2 * sg2 - 12.5 * sg1 * sg1 == 12.5 * d * (sg1 + sg2);
      assert 325.0 * d - 12.5 * d * (sg1 + sg2) > 0.0 by {
        assert d * (325.0 - 12.5 * (sg1 + sg2)) > 0.0;
      }
    }
  }
}
