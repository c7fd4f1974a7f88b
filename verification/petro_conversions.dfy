/** Exact conversions of the petroleum-fraction library (lib/petro.py):
    API gravity and specific gravity, refractive index and the Huang
    refraction parameter I, and the closing of a PNA composition. */
module PetroConversions {
  import opened Common

  /** API gravity from specific gravity, `141.5/SG - 131.5`; the source only
      takes this branch when SG is truthy, i.e. nonzero. */
  function ApiFromSG(sg: real): (api: real)
    requires sg != 0.0
    ensures sg * (api + 131.5) == 141.5
  {
    141.5 / sg - 131.5
  }

  /** Specific gravity from API gravity, `141.5/(API + 131.5)`, which divides
      by zero at API = -131.5. */
  function SGFromApi(api: real): (r: Result<real>)
    ensures r.Err? <==> api == -131.5
    ensures r.Err? ==> r.fault == ZeroDivision
    ensures r.Ok? ==> r.value != 0.0 && r.value * (api + 131.5) == 141.5
  {
    if api + 131.5 == 0.0 then Err(ZeroDivision) else Ok(141.5 / (api + 131.5))
  }

  /** Converting SG to API and back gives the same SG. */
  lemma ApiSGRoundTrip(sg: real)
    requires sg != 0.0
    ensures SGFromApi(ApiFromSG(sg)) == Ok(sg)
  {
    var api := ApiFromSG(sg);
    assert api + 131.5 == 141.5 / sg;
    assert 141.5 / (141.5 / sg) == sg;
  }

  /** Converting API to SG and back gives the same API. */
  lemma SGApiRoundTrip(api: real)
    requires api != -131.5
    ensures SGFromApi(api).Ok? && ApiFromSG(SGFromApi(api).value) == api
  {
    var sg := SGFromApi(api).value;
    assert sg == 141.5 / (api + 131.5);
    assert 141.5 / sg == api + 131.5;
  }

  /** Positive specific gravities and API gravities above -131.5 correspond. */
  lemma PositiveGravityCorrespondence(sg: real)
    requires sg > 0.0
    ensures ApiFromSG(sg) > -131.5
  {
    assert 141.5 / sg > 0.0;
  }

  /** Huang's refraction parameter `I = (n^2 - 1)/(n^2 + 2)`; the denominator
      is at least 2, so the division is always defined. */
  function HuangI(n: real): (i: real)
    ensures i < 1.0
    ensures i * (n * n + 2.0) == n * n - 1.0
  {
    var n2 := n * n;
    assert n2 + 2.0 > 0.0;
    (n2 - 1.0) / (n2 + 2.0)
  }

  /** The square of the refractive index from I, `(1 + 2I)/(1 - I)`. The source
      then takes its square root (`**0.5`): I = 1 divides by zero and a
      negative ratio is a ValueError. The root itself is not computed here. */
  function NSquaredFromI(i: real): (r: Result<real>)
    ensures r.Err? <==> i == 1.0 || (1.0 + 2.0 * i) / (1.0 - i) < 0.0
    ensures i == 1.0 ==> r == Err(ZeroDivision)
    ensures r.Ok? ==> r.value >= 0.0 && r.value * (1.0 - i) == 1.0 + 2.0 * i
  {
    if 1.0 - i == 0.0 then Err(ZeroDivision)
    else
      var ratio := (1.0 + 2.0 * i) / (1.0 - i);
      if ratio < 0.0 then Err(NegativeRoot) else Ok(ratio)
  }

  /** For a refractive index of at least 1, I lies in [0, 1). */
  lemma HuangIBounds(n: real)
    requires n >= 1.0
    ensures 0.0 <= HuangI(n) < 1.0
  {
    var n2 := n * n;
    assert n2 >= 1.0 by {
      assert n * n >= 1.0 * n;
    }
    assert HuangI(n) * (n2 + 2.0) == n2 - 1.0;
  }

  /** The reverse formula recovers n^2 from I for every real n. */
  lemma HuangRoundTrip(n: real)
    ensures NSquaredFromI(HuangI(n)) == Ok(n * n)
  {
    var n2 := n * n;
    var i := HuangI(n);
    assert n2 >= 0.0;
    assert 1.0 - i == 3.0 / (n2 + 2.0);
    assert 1.0 + 2.0 * i == 3.0 * n2 / (n2 + 2.0);
    assert (1.0 + 2.0 * i) / (1.0 - i) == n2;
  }

  /** Any square root of the recovered n^2 gives back the I it came from. */
  lemma HuangInverse(i: real, n: real)
    requires NSquaredFromI(i).Ok? && n * n == NSquaredFromI(i).value
    ensures HuangI(n) == i
  {
    var n2 := n * n;
    assert n2 * (1.0 - i) == 1.0 + 2.0 * i;
    assert (n2 - 1.0) == i * (n2 + 2.0);
  }

  /** The aromatic fraction closes a PNA analysis: `xa = 1 - xp - xn`. */
  function AromaticFraction(xp: real, xn: real): (xa: real)
    ensures xp + xn + xa == 1.0
    ensures xp >= 0.0 && xn >= 0.0 && xp + xn <= 1.0 ==> 0.0 <= xa <= 1.0
  {
    1.0 - xp - xn
  }
}
