/** The component split of the shortcut column's `calculo`
    (equipment/distillation.py, class `ColumnFUG`): the initial allocation of
    each component's feed flow to bottoms (b) and distillate (d), the molar
    compositions of the two products, one Fenske redistribution pass and the
    division of the trays around the feed. Flows are molar flows per
    component; `lk` and `hk` are the indices of the light and heavy key. */
module ComponentSplit {
  import opened Common

  // ----- sums and compositions -----

  /** A nonzero factor cancels. */
  lemma Cancel(a: real, c: real, q: real)
    requires q != 0.0 && a * q == c * q
    ensures a == c
  {
    calc {
      a;
      (a * q) / q;
      (c * q) / q;
      c;
    }
  }

  function Sum(xs: seq<real>): real {
    if xs == [] then 0.0 else Sum(xs[..|xs| - 1]) + xs[|xs| - 1]
  }

  lemma {:induction false} SumNonNegative(xs: seq<real>)
    requires forall i :: 0 <= i < |xs| ==> xs[i] >= 0.0
    ensures Sum(xs) >= 0.0
  {
    if xs != [] {
      SumNonNegative(xs[..|xs| - 1]);
    }
  }

  /** The quotients of every entry by the same nonzero divisor. */
  function Divided(xs: seq<real>, total: real): (ys: seq<real>)
    requires total != 0.0
    ensures |ys| == |xs|
    ensures forall i :: 0 <= i < |xs| ==> ys[i] * total == xs[i]
  {
    seq(|xs|, i requires 0 <= i < |xs| => xs[i] / total)
  }

  lemma {:induction false} SumDivided(xs: seq<real>, total: real)
    requires total != 0.0
    ensures Sum(Divided(xs, total)) * total == Sum(xs)
  {
    if xs != [] {
      var init := xs[..|xs| - 1];
      var ys := Divided(xs, total);
      SumDivided(init, total);
      assert ys[..|ys| - 1] == Divided(init, total);
      calc {
        Sum(ys) * total;
        (Sum(Divided(init, total)) + xs[|xs| - 1] / total) * total;
        Sum(Divided(init, total)) * total + (xs[|xs| - 1] / total) * total;
        Sum(init) + xs[|xs| - 1];
      }
    }
  }

  /** `[Q/sum(d) for Q in d]`: the molar composition of a product. An empty
      list stays empty; a nonempty list whose total is zero divides by zero. */
  function Composition(flows: seq<real>): (x: Result<seq<real>>)
    ensures x.Err? <==> flows != [] && Sum(flows) == 0.0
    ensures x.Ok? ==> |x.value| == |flows|
    ensures x.Ok? && flows != [] ==>
      Sum(x.value) == 1.0 && forall i :: 0 <= i < |flows| ==> x.value[i] * Sum(flows) == flows[i]
  {
    if flows == [] then Ok([])
    else if Sum(flows) == 0.0 then Err(ZeroDivision)
    else
      var total := Sum(flows);
      DividedByTotalSumsToOne(flows, total);
      Ok(Divided(flows, total))
  }

  lemma DividedByTotalSumsToOne(flows: seq<real>, total: real)
    requires total != 0.0 && total == Sum(flows)
    ensures Sum(Divided(flows, total)) == 1.0
  {
    SumDivided(flows, total);
    UnitFactor(Sum(Divided(flows, total)), total);
  }

  lemma UnitFactor(s: real, total: real)
    requires total != 0.0 && s * total == total
    ensures s == 1.0
  {
    Cancel(s, 1.0, total);
  }

  /** With non-negative flows and a positive total, every mole fraction lies
      in [0, 1]. */
  lemma {:induction false} CompositionBounds(flows: seq<real>)
    requires forall i :: 0 <= i < |flows| ==> flows[i] >= 0.0
    requires Sum(flows) > 0.0
    ensures Composition(flows).Ok?
    ensures forall i :: 0 <= i < |flows| ==> 0.0 <= Composition(flows).value[i] <= 1.0
  {
    var x := Composition(flows).value;
    forall i | 0 <= i < |flows|
      ensures 0.0 <= x[i] <= 1.0
    {
      EntryAtMostSum(flows, i);
      FractionBounds(x[i], flows[i], Sum(flows));
    }
  }

  lemma FractionBounds(x: real, f: real, total: real)
    requires total > 0.0 && 0.0 <= f <= total && x * total == f
    ensures 0.0 <= x <= 1.0
  {
    assert x == f / total;
  }

  lemma {:induction false} EntryAtMostSum(xs: seq<real>, i: nat)
    requires forall j :: 0 <= j < |xs| ==> xs[j] >= 0.0
    requires i < |xs|
    ensures xs[i] <= Sum(xs)
  {
    var init := xs[..|xs| - 1];
    if i == |xs| - 1 {
      SumNonNegative(init);
    } else {
      EntryAtMostSum(init, i);
    }
  }

  // ----- the initial split -----

  /** Where the initial split sends component i: the keys by their specified
      recoveries, a lighter component than the light key wholly to the
      distillate, a heavier one than the heavy key wholly to the bottoms,
      anything between half and half. The key tests come first. */
  function DistillateShare(K: seq<real>, lk: nat, hk: nat, lkSplit: real, hkSplit: real, i: nat): real
    requires lk < |K| && hk < |K| && i < |K|
  {
    if i == lk then lkSplit
    else if i == hk then 1.0 - hkSplit
    else if K[i] > K[lk] then 1.0
    else if K[i] < K[hk] then 0.0
    else 0.5
  }

  /** A feed flow `f` divided into bottoms `bi` and distillate `di` with the
      share `share` sent to the distillate, nothing lost or created. */
  predicate Allocated(f: real, share: real, bi: real, di: real) {
    bi + di == f && di == f * share
  }

  /** The allocation loop before the Fenske iteration. `K` holds the feed's
      equilibrium ratios. Each component's feed is divided exactly: bottoms
      and distillate add up to the feed. */
  method InitialSplit(feed: seq<real>, K: seq<real>, lk: nat, hk: nat, lkSplit: real, hkSplit: real)
    returns (b: seq<real>, d: seq<real>)
    requires |K| == |feed| && lk < |feed| && hk < |feed| && lk != hk
    ensures |b| == |feed| && |d| == |feed|
    ensures forall i :: 0 <= i < |feed| ==> Allocated(feed[i], DistillateShare(K, lk, hk, lkSplit, hkSplit, i), b[i], d[i])
  {
    b, d := [], [];
    for i := 0 to |feed|
      invariant |b| == i && |d| == i
      invariant forall j :: 0 <= j < i ==> Allocated(feed[j], DistillateShare(K, lk, hk, lkSplit, hkSplit, j), b[j], d[j])
    {
      var flow := feed[i];
      if i == lk {
        b := b + [flow * (1.0 - lkSplit)];
        d := d + [flow * lkSplit];
      } else if i == hk {
        d := d + [flow * (1.0 - hkSplit)];
        b := b + [flow * hkSplit];
      } else if K[i] > K[lk] {
        b := b + [0.0];
        d := d + [flow];
      } else if K[i] < K[hk] {
        d := d + [0.0];
        b := b + [flow];
      } else {
        d := d + [flow * 0.5];
        b := b + [flow * 0.5];
      }
    }
  }

  /** In an initial split that divides every feed by `DistillateShare`, the
      light key's distillate and the heavy key's bottoms are the specified
      recoveries of their feeds. */
  lemma InitialSplitKeys(feed: seq<real>, K: seq<real>, lk: nat, hk: nat, lkSplit: real, hkSplit: real,
                               b: seq<real>, d: seq<real>)
    requires |K| == |feed| && lk < |feed| && hk < |feed| && lk != hk
    requires |b| == |feed| && |d| == |feed|
    requires forall i :: 0 <= i < |feed| ==> Allocated(feed[i], DistillateShare(K, lk, hk, lkSplit, hkSplit, i), b[i], d[i])
    ensures d[lk] == feed[lk] * lkSplit && b[hk] == feed[hk] * hkSplit
  {
    assert DistillateShare(K, lk, hk, lkSplit, hkSplit, hk) == 1.0 - hkSplit;
    assert d[hk] == feed[hk] * (1.0 - hkSplit) == feed[hk] - feed[hk] * hkSplit;
  }

  /** A component more volatile than the light key goes wholly to the
      distillate; one less volatile than the heavy key (and not more volatile
      than the light key) wholly to the bottoms. */
  lemma InitialSplitByVolatility(feed: seq<real>, K: seq<real>, lk: nat, hk: nat, lkSplit: real, hkSplit: real,
                               b: seq<real>, d: seq<real>)
    requires |K| == |feed| && lk < |feed| && hk < |feed| && lk != hk
    requires |b| == |feed| && |d| == |feed|
    requires forall i :: 0 <= i < |feed| ==> Allocated(feed[i], DistillateShare(K, lk, hk, lkSplit, hkSplit, i), b[i], d[i])
    ensures forall i :: 0 <= i < |feed| && i != lk && i != hk && K[i] > K[lk] ==> b[i] == 0.0 && d[i] == feed[i]
    ensures forall i :: 0 <= i < |feed| && i != lk && i != hk && !(K[i] > K[lk]) && K[i] < K[hk] ==>
      d[i] == 0.0 && b[i] == feed[i]
  {
    forall i | 0 <= i < |feed| && i != lk && i != hk && K[i] > K[lk]
      ensures b[i] == 0.0 && d[i] == feed[i]
    {
      assert DistillateShare(K, lk, hk, lkSplit, hkSplit, i) == 1.0;
    }
    forall i | 0 <= i < |feed| && i != lk && i != hk && !(K[i] > K[lk]) && K[i] < K[hk]
      ensures d[i] == 0.0 && b[i] == feed[i]
    {
      assert DistillateShare(K, lk, hk, lkSplit, hkSplit, i) == 0.0;
    }
  }

  /** With non-negative feeds and recoveries in [0, 1] no flow of the initial
      split is negative. */
  lemma InitialSplitNonNegative(feed: seq<real>, K: seq<real>, lk: nat, hk: nat, lkSplit: real, hkSplit: real,
                               b: seq<real>, d: seq<real>)
    requires |K| == |feed| && lk < |feed| && hk < |feed| && lk != hk
    requires |b| == |feed| && |d| == |feed|
    requires forall i :: 0 <= i < |feed| ==> Allocated(feed[i], DistillateShare(K, lk, hk, lkSplit, hkSplit, i), b[i], d[i])
    requires forall i :: 0 <= i < |feed| ==> feed[i] >= 0.0
    requires 0.0 <= lkSplit <= 1.0 && 0.0 <= hkSplit <= 1.0
    ensures forall i :: 0 <= i < |feed| ==> b[i] >= 0.0 && d[i] >= 0.0
  {
    forall i | 0 <= i < |feed|
      ensures b[i] >= 0.0 && d[i] >= 0.0
    {
      PartsNonNegative(feed[i], DistillateShare(K, lk, hk, lkSplit, hkSplit, i), b[i], d[i]);
    }
  }

  /** A non-negative flow divided by a share in [0, 1] gives two
      non-negative parts. */
  lemma PartsNonNegative(f: real, share: real, bi: real, di: real)
    requires f >= 0.0 && 0.0 <= share <= 1.0
    requires bi + di == f && di == f * share
    ensures bi >= 0.0 && di >= 0.0
  {
    ScaledPartBounds(f, share);
  }

  lemma ScaledPartBounds(f: real, share: real)
    requires f >= 0.0 && 0.0 <= share <= 1.0
    ensures 0.0 <= f * share <= f
  {
    assert f * share <= f * 1.0;
  }

  // ----- one Fenske pass -----

  /** The new split of a non-key component whose distillate/bottoms ratio is
      `phi`: b = f/(1 + phi), d = f*phi/(1 + phi). */
  function FenskeShare(f: real, phi: real): (bd: (real, real))
    requires 1.0 + phi != 0.0
    ensures bd.0 + bd.1 == f
    ensures bd.1 == phi * bd.0
    ensures f >= 0.0 && phi >= 0.0 ==> bd.0 >= 0.0 && bd.1 >= 0.0
  {
    var q := 1.0 + phi;
    var b := f / q;
    var d := f * phi / q;
    DivisionParts(f, phi, q);
    (b, d)
  }

  lemma DivisionParts(f: real, phi: real, q: real)
    requires q == 1.0 + phi && q != 0.0
    ensures f / q + f * phi / q == f
    ensures f * phi / q == phi * (f / q)
    ensures f >= 0.0 && phi >= 0.0 ==> f / q >= 0.0 && f * phi / q >= 0.0
  {
    var b := f / q;
    var d := f * phi / q;
    assert b * q == f;
    assert d * q == f * phi;
    assert (b + d) * q == f * q;
    Cancel(b + d, f, q);
    assert (phi * b) * q == phi * (b * q);
    Cancel(d, phi * b, q);
    if f >= 0.0 && phi >= 0.0 {
      assert q > 0.0;
      assert f * phi >= 0.0;
    }
  }

  /** The new split of a non-key component with relative volatility power
      `a` when the heavy key's previous flows are `bHK` and `dHK`:
      `phi = dHK/bHK*a`. */
  function FenskeComponent(f: real, bHK: real, dHK: real, a: real): (bd: (real, real))
    requires bHK > 0.0 && dHK >= 0.0 && a >= 0.0
    ensures bd.0 + bd.1 == f
    ensures bd.1 * bHK == dHK * a * bd.0
    ensures f >= 0.0 ==> bd.0 >= 0.0 && bd.1 >= 0.0
  {
    var phi := dHK / bHK * a;
    assert dHK / bHK >= 0.0;
    var share := FenskeShare(f, phi);
    RatioTimesDivisor(dHK, bHK, a, share.0);
    share
  }

  lemma RatioTimesDivisor(dHK: real, bHK: real, a: real, x: real)
    requires bHK != 0.0
    ensures (dHK / bHK * a * x) * bHK == dHK * a * x
  {
    assert (dHK / bHK) * bHK == dHK;
  }

  datatype Split = Split(b: seq<real>, d: seq<real>)

  /** What one pass does to a single component: a key keeps its previous
      flows `bOld`, `dOld`; any other component is divided as
      `FenskeComponent` divides it. */
  predicate Redistributed(isKey: bool, f: real, bOld: real, dOld: real, bHK: real, dHK: real, a: real,
                          bi: real, di: real)
  {
    if isKey then bi == bOld && di == dOld
    else bi + di == f && di * bHK == dHK * a * bi && (f >= 0.0 ==> bi >= 0.0 && di >= 0.0)
  }

  /** One pass of the Fenske redistribution. The keys keep their previous
      flows; a non-key component i gets the distillate/bottoms ratio
      `phi_i = (d_HK/b_HK) * alfa_i^Nmin`. The relative volatility raised to
      the minimum number of stages uses non-integer powers, so
      `alfaPow[i] = alfa_i^Nmin` is a parameter, non-negative as a power of a
      square root. The previous heavy key flows are non-negative (as the
      initial split and every pass keep them). The pass divides by the
      previous bottoms flow of the heavy key as soon as it meets a non-key. */
  method FenskeStep(feed: seq<real>, bPrev: seq<real>, dPrev: seq<real>, lk: nat, hk: nat, alfaPow: seq<real>)
    returns (r: Result<Split>)
    requires |bPrev| == |feed| && |dPrev| == |feed| && |alfaPow| == |feed|
    requires lk < |feed| && hk < |feed| && lk != hk
    requires bPrev[hk] >= 0.0 && dPrev[hk] >= 0.0
    requires forall i :: 0 <= i < |alfaPow| ==> alfaPow[i] >= 0.0
    ensures r.Err? <==> bPrev[hk] == 0.0 && |feed| > 2
    ensures r.Err? ==> r.fault == ZeroDivision
    ensures r.Ok? ==> |r.value.b| == |feed| && |r.value.d| == |feed|
    ensures r.Ok? ==> forall i :: 0 <= i < |feed| ==>
      Redistributed(i == lk || i == hk, feed[i], bPrev[i], dPrev[i], bPrev[hk], dPrev[hk], alfaPow[i],
                    r.value.b[i], r.value.d[i])
  {
    var b, d := [], [];
    for i := 0 to |feed|
      invariant |b| == i && |d| == i
      invariant bPrev[hk] == 0.0 ==>
        i <= 2 && (i >= 1 ==> 0 == lk || 0 == hk) && (i >= 2 ==> 1 == lk || 1 == hk)
      invariant forall j :: 0 <= j < i ==>
        Redistributed(j == lk || j == hk, feed[j], bPrev[j], dPrev[j], bPrev[hk], dPrev[hk], alfaPow[j], b[j], d[j])
    {
      if i == lk || i == hk {
        b := b + [bPrev[i]];
        d := d + [dPrev[i]];
      } else {
        if bPrev[hk] == 0.0 {
          return Err(ZeroDivision);
        }
        var share := FenskeComponent(feed[i], bPrev[hk], dPrev[hk], alfaPow[i]);
        b := b + [share.0];
        d := d + [share.1];
      }
    }
    return Ok(Split(b, d));
  }

  /** What a successful pass gives: the keys keep their flows, every other
      component is split so that its distillate/bottoms ratio is
      `(d_HK/b_HK) * alfa_i^Nmin` and nothing is lost or created, no flow
      turns negative, and a split in which every component's products add up
      to its feed stays that way. */
  lemma FenskePassOutcome(feed: seq<real>, bPrev: seq<real>, dPrev: seq<real>, lk: nat, hk: nat,
                          alfaPow: seq<real>, b: seq<real>, d: seq<real>)
    requires |bPrev| == |feed| && |dPrev| == |feed| && |alfaPow| == |feed| && |b| == |feed| && |d| == |feed|
    requires lk < |feed| && hk < |feed| && lk != hk
    requires forall i :: 0 <= i < |feed| ==>
      Redistributed(i == lk || i == hk, feed[i], bPrev[i], dPrev[i], bPrev[hk], dPrev[hk], alfaPow[i], b[i], d[i])
    ensures b[lk] == bPrev[lk] && d[lk] == dPrev[lk] && b[hk] == bPrev[hk] && d[hk] == dPrev[hk]
    ensures forall i :: 0 <= i < |feed| && i != lk && i != hk ==>
      b[i] + d[i] == feed[i] && d[i] * bPrev[hk] == dPrev[hk] * alfaPow[i] * b[i]
    ensures forall i :: 0 <= i < |feed| && i != lk && i != hk && feed[i] >= 0.0 ==> b[i] >= 0.0 && d[i] >= 0.0
    ensures (forall i :: 0 <= i < |feed| ==> bPrev[i] + dPrev[i] == feed[i]) ==>
      forall i :: 0 <= i < |feed| ==> b[i] + d[i] == feed[i]
  {
    assert Redistributed(true, feed[lk], bPrev[lk], dPrev[lk], bPrev[hk], dPrev[hk], alfaPow[lk], b[lk], d[lk]);
    assert Redistributed(true, feed[hk], bPrev[hk], dPrev[hk], bPrev[hk], dPrev[hk], alfaPow[hk], b[hk], d[hk]);
  }

  // ----- the feed stage -----

  datatype Stages = Stages(ns: real, nr: real, nFeed: real)

  /** `Ns = NTray/(ratio + 1)`, `Nr = NTray - Ns`, `N_feed = Ns + 1`, where
      `ratio` is the Fenske or Kirkbride estimate of Nr/Ns (a parameter: both
      use logarithms or non-integer powers). */
  function FeedStage(nTray: real, ratio: real): (s: Result<Stages>)
    ensures s.Err? <==> ratio == -1.0
    ensures s.Ok? ==> s.value.ns + s.value.nr == nTray
    ensures s.Ok? ==> s.value.nr == ratio * s.value.ns
    ensures s.Ok? ==> s.value.nFeed == s.value.ns + 1.0
    ensures s.Ok? && nTray >= 0.0 && ratio >= 0.0 ==> 0.0 <= s.value.ns <= nTray && s.value.nr >= 0.0
  {
    if ratio + 1.0 == 0.0 then Err(ZeroDivision)
    else
      var ns := nTray / (ratio + 1.0);
      assert ns * (ratio + 1.0) == nTray;
      assert nTray >= 0.0 && ratio >= 0.0 ==> ns >= 0.0 && ns <= ns * (ratio + 1.0);
      Ok(Stages(ns, nTray - ns, ns + 1.0))
  }
}
