/** Empirical viscosity scales of lib/petro.py: Saybolt Universal and Saybolt
    Furol seconds from kinematic viscosity (`SUS`, `SUF`) and the conversions
    between kinematic viscosity (cSt) and the Redwood, Engler and Saybolt
    scales (`Viscosidad_to_kinematic`, `Viscosidad_from_kinematic`).
    Temperatures are in degrees Fahrenheit. */
module Viscosity {
  import opened Common

  /** Saybolt Universal seconds at the 100 F reference. The cubic denominator
      has a negative root, where the source divides by zero. */
  function SayboltEquivalent(v: real): (r: Result<real>)
    ensures r.Err? ==> r.fault == ZeroDivision
    ensures v >= 0.0 ==> r.Ok? && r.value > 0.0
  {
    var den := 3930.2 + 262.7 * v + 23.97 * (v * v) + 1.646 * (v * v * v);
    if den == 0.0 then Err(ZeroDivision)
    else
      assert v >= 0.0 ==> v * v >= 0.0 && v * v * v >= 0.0 && den > 0.0;
      Ok(4.6324 * v + (1.0 + 0.03264 * v) / den * 100000.0)
  }

  /** The temperature factor of `SUS`: 1 at 100 F. */
  function SayboltTemperatureFactor(tF: real): real {
    1.0 + 0.000061 * (tF - 100.0)
  }

  /** `SUS(T, v)`: Saybolt Universal seconds at temperature tF. */
  function SUS(tF: real, v: real): (r: Result<real>)
    ensures r.Ok? <==> SayboltEquivalent(v).Ok?
    ensures r.Ok? ==> r.value == SayboltTemperatureFactor(tF) * SayboltEquivalent(v).value
  {
    var equivalent :- SayboltEquivalent(v);
    Ok(SayboltTemperatureFactor(tF) * equivalent)
  }

  /** At 100 F SUS is the reference value; at any other temperature it is the
      reference value scaled by the linear factor. */
  lemma SUSScalesFromReference(tF: real, v: real)
    requires v >= 0.0
    ensures SUS(100.0, v).Ok? && SUS(100.0, v).value == SayboltEquivalent(v).value
    ensures SUS(tF, v).Ok? && SUS(tF, v).value == SayboltTemperatureFactor(tF) * SUS(100.0, v).value
  {
  }

  /** Above -16293 F (where the factor vanishes) SUS of a non-negative
      viscosity is positive. */
  lemma SUSPositive(tF: real, v: real)
    requires v >= 0.0 && SayboltTemperatureFactor(tF) > 0.0
    ensures SUS(tF, v).Ok? && SUS(tF, v).value > 0.0
  {
    var s := SayboltEquivalent(v).value;
    assert SayboltTemperatureFactor(tF) * s > 0.0;
  }

  /** `SUF(T, v)`: Saybolt Furol seconds, with the 122 F formula when T is
      exactly 122 and the 210 F formula for any other T. Both denominators are
      positive for every real v, so the result is always defined. */
  function SUF(tF: real, v: real): (s: real)
    ensures v >= 0.0 ==> s > 0.0
  {
    if tF == 122.0 then
      var den := v * v - 72.59 * v + 6816.0;
      assert den == (v - 36.295) * (v - 36.295) + (6816.0 - 36.295 * 36.295);
      assert den > 0.0;
      0.4717 * v + 13.924 / den
    else
      assert v * v + 2130.0 > 0.0;
      0.4792 * v + 5612.0 / (v * v + 2130.0)
  }

  /** Coefficients [a, b, c] of `a*mu - b*mu/(mu^3 + c)` per scale:
      1 Redwood No.1, 2 Redwood No.2, 3 Engler degrees, 4 Saybolt Furol at
      122 F, 5 Saybolt Furol at 210 F, 6 Saybolt Universal. */
  function ToKinematicParameters(kind: int): (p: Option<(real, real, real)>)
    ensures p.Some? <==> 1 <= kind <= 6
    ensures p.Some? ==> p.value.2 > 0.0
  {
    if kind == 1 then Some((0.244, 8.0, 12.5))
    else if kind == 2 then Some((2.44, 3.410, 9.55))
    else if kind == 3 then Some((7.6, 18.0, 1.7273))
    else if kind == 4 then Some((2.12, 1.0, 8.001))
    else if kind == 5 then Some((2.09, 2.088, 5.187))
    else if kind == 6 then Some((0.22, 7.336, 12.816))
    else None
  }

  function KinematicFormula(p: (real, real, real), mu: real): (r: Result<real>)
    ensures r.Err? <==> mu * mu * mu + p.2 == 0.0
  {
    var den := mu * mu * mu + p.2;
    if den == 0.0 then Err(ZeroDivision) else Ok(p.0 * mu - p.1 * mu / den)
  }

  /** `Viscosidad_to_kinematic(tipo, mu, T)`: kinematic viscosity in cSt. A
      Saybolt Universal reading is first brought to 100 F by the SUS factor.
      An unknown scale leaves the coefficients unbound. */
  function ToKinematic(kind: int, mu: real, tF: real): (r: Result<real>)
    ensures r == Err(UnknownKind) <==> !(1 <= kind <= 6)
    ensures 1 <= kind <= 5 && mu >= 0.0 ==> r.Ok?
    ensures kind == 6 && mu >= 0.0 && SayboltTemperatureFactor(tF) > 0.0 ==> r.Ok?
  {
    var mu' := if kind == 6 then
        (if SayboltTemperatureFactor(tF) == 0.0 then Err(ZeroDivision) else Ok(mu / SayboltTemperatureFactor(tF)))
      else Ok(mu);
    match ToKinematicParameters(kind)
    case None => Err(UnknownKind)
    case Some(p) =>
      match mu'
      case Err(f) => Err(f)
      case Ok(m) =>
        assert m >= 0.0 ==> m * m * m >= 0.0;
        assert mu >= 0.0 && kind == 6 && SayboltTemperatureFactor(tF) > 0.0 ==> m >= 0.0;
        KinematicFormula(p, m)
  }

  /** A Saybolt Universal reading taken at 100 F needs no correction. */
  lemma SayboltAt100Uncorrected(mu: real)
    ensures ToKinematic(6, mu, 100.0) == KinematicFormula((0.22, 7.336, 12.816), mu)
  {
    assert SayboltTemperatureFactor(100.0) == 1.0;
    assert mu / 1.0 == mu;
  }

  /** Coefficients [a, b, c, d, e] of `a*v + 1/(b + c*v + d*v^2 + e*v^3)`. */
  function FromKinematicParameters(kind: int): (p: Option<(real, real, real, real, real)>)
    ensures p.Some? <==> 1 <= kind <= 3
  {
    if kind == 1 then Some((4.0984, 0.038014, 0.001919, 0.0000278, 0.00000521))
    else if kind == 2 then Some((0.40984, 0.38014, 0.01919, 0.000278, 0.0000521))
    else if kind == 3 then Some((0.13158, 1.1326, 0.0104, 0.00656, 0.0))
    else None
  }

  /** `Viscosidad_from_kinematic(tipo, v)`: Redwood seconds or Engler degrees
      from kinematic viscosity. All coefficients are non-negative and the
      constant is positive, so a non-negative v is always converted. */
  function FromKinematic(kind: int, v: real): (r: Result<real>)
    ensures r == Err(UnknownKind) <==> !(1 <= kind <= 3)
    ensures 1 <= kind <= 3 && v >= 0.0 ==> r.Ok? && r.value > 0.0
  {
    match FromKinematicParameters(kind)
    case None => Err(UnknownKind)
    case Some(p) =>
      var den := FromKinematicDenominator(p, v);
      if den == 0.0 then Err(ZeroDivision)
      else
        assert v >= 0.0 ==> v * v >= 0.0 && v * v * v >= 0.0 && den > 0.0;
        Ok(p.0 * v + 1.0 / den)
  }

  function FromKinematicDenominator(p: (real, real, real, real, real), v: real): real {
    p.1 + p.2 * v + p.3 * (v * v) + p.4 * (v * v * v)
  }

  /** Redwood No.2 seconds are exactly one tenth of Redwood No.1 seconds: the
      two coefficient rows differ by a factor of ten throughout. */
  lemma RedwoodTwoIsTenthOfOne(v: real)
    ensures FromKinematic(1, v).Ok? <==> FromKinematic(2, v).Ok?
    ensures FromKinematic(1, v).Ok? ==> FromKinematic(2, v).value * 10.0 == FromKinematic(1, v).value
  {
    var p1 := FromKinematicParameters(1).value;
    var p2 := FromKinematicParameters(2).value;
    var d1 := FromKinematicDenominator(p1, v);
    var d2 := FromKinematicDenominator(p2, v);
    TenfoldDenominator(v, v * v, v * v * v);
    assert d2 == 10.0 * d1;
    if d1 != 0.0 {
      TenfoldQuotient(d1, d2);
      assert (p2.0 * v + 1.0 / d2) * 10.0 == p1.0 * v + 1.0 / d1;
    }
  }

  lemma TenfoldDenominator(v: real, v2: real, v3: real)
    ensures 0.38014 + 0.01919 * v + 0.000278 * v2 + 0.0000521 * v3
         == 10.0 * (0.038014 + 0.001919 * v + 0.0000278 * v2 + 0.00000521 * v3)
  {
  }

  lemma TenfoldQuotient(d1: real, d2: real)
    requires d1 != 0.0 && d2 == 10.0 * d1
    ensures (1.0 / d2) * 10.0 == 1.0 / d1
  {
  }
}
