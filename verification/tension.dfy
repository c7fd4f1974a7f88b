/** The temperature interpolation of Baker and Swerdloff's surface tension of
    a petroleum fraction (lib/petro.py, `Tension_Baker_Swerdloff`). Tensions
    are in dyn/cm, temperatures in degrees Fahrenheit. */
module SurfaceTension {

  /** Base tension at 68 F. */
  function S68(api: real): real { 39.0 - 0.2571 * api }

  /** Base tension at 100 F. */
  function S100(api: real): real { 37.5 - 0.2571 * api }

  /** The two anchors always differ by 1.5 dyn/cm, whatever the gravity. */
  lemma AnchorGap(api: real)
    ensures S68(api) - S100(api) == 1.5
  {
  }

  /** The base tension before the pressure factor: s68 up to 68 F, s100 from
      100 F on, and between them the straight line through the two anchors,
      each anchor weighted by the temperature's distance from the other. */
  function BaseTension(api: real, tF: real): (s: real)
    ensures S100(api) <= s <= S68(api)
    ensures tF <= 68.0 ==> s == S68(api)
    ensures tF >= 100.0 ==> s == S100(api)
    ensures 68.0 < tF < 100.0 ==> 32.0 * s == (100.0 - tF) * S68(api) + (tF - 68.0) * S100(api)
  {
    var s68 := S68(api);
    var s100 := S100(api);
    if tF <= 68.0 then s68
    else if tF < 100.0 then s68 - ((tF - 68.0) * (s68 - s100)) / 32.0
    else s100
  }

  /** The tension does not increase with temperature. */
  lemma BaseTensionNonIncreasing(api: real, t1: real, t2: real)
    requires t1 <= t2
    ensures BaseTension(api, t2) <= BaseTension(api, t1)
  {
    AnchorGap(api);
    if 68.0 < t1 < 100.0 && 68.0 < t2 < 100.0 {
      assert (t1 - 68.0) * 1.5 <= (t2 - 68.0) * 1.5;
    }
  }

  /** The piecewise tension is continuous at both anchors: within `delta` =
      64/3 eps degrees of 68 F it lies within eps of s68, and within the same
      distance of 100 F it lies within eps of s100, since between the anchors
      it moves by 1.5/32 dyn/cm per degree. */
  lemma BaseTensionContinuous(api: real, t: real, eps: real)
    requires eps > 0.0
    ensures 68.0 - eps * 64.0 / 3.0 < t < 68.0 + eps * 64.0 / 3.0 ==>
      S68(api) - eps < BaseTension(api, t) <= S68(api)
    ensures 100.0 - eps * 64.0 / 3.0 < t < 100.0 + eps * 64.0 / 3.0 ==>
      S100(api) <= BaseTension(api, t) < S100(api) + eps
  {
    AnchorGap(api);
    if 68.0 < t < 100.0 {
      assert S68(api) - BaseTension(api, t) == (t - 68.0) * 1.5 / 32.0;
      assert BaseTension(api, t) - S100(api) == (100.0 - t) * 1.5 / 32.0;
    }
  }
}
