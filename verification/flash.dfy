/** The flash drum of equipment/distillation.py (class `Flash`): whether a
    separation and a cost can be computed from its keywords, and the
    head-factor lookup of its weight estimate. */
module FlashDrum {
  import opened Common

  /** The keywords of a flash drum. */
  datatype FlashKey =
    | entrada | flash | f_install | Base_index | Current_index | orientacion
    | material | densidad | diametro | longitud | espesor | cabeza
    | espesor_cabeza | reborde

  /** The input stream is a stream object or None; everything else is a number. */
  predicate Fits(k: FlashKey, v: Value) {
    if k.entrada? then v.Nothing? || v.Stream? else v.Num?
  }

  predicate WellFormed(kw: Kwargs<FlashKey>) {
    forall k: FlashKey :: k in kw && Fits(k, kw[k])
  }

  /** The six keywords a cost estimate needs. */
  const CostKeys: set<FlashKey> :=
    {f_install, Base_index, Current_index, diametro, longitud, espesor}

  /** A cost can be computed when all six cost keywords are nonzero. */
  predicate CostAvailable(kw: Kwargs<FlashKey>)
    requires WellFormed(kw)
  {
    forall k :: k in CostKeys ==> Given(kw, k)
  }

  class Flash {
    var kwargs: Kwargs<FlashKey>
    var statusCoste: bool
    var status: int
    var msg: Message

    constructor (kw: Kwargs<FlashKey>)
      requires WellFormed(kw)
      ensures kwargs == kw && !statusCoste && status == 0 && msg == NoMessage
    {
      kwargs := kw;
      statusCoste := false;
      status := 0;
      msg := NoMessage;
    }

    /** `isCalculable`: the cost status is decided first and independently;
        the drum itself is calculable exactly when an input stream is given. */
    method IsCalculable() returns (ok: bool)
      requires WellFormed(kwargs)
      modifies this
      ensures kwargs == old(kwargs)
      ensures statusCoste == CostAvailable(kwargs)
      ensures ok <==> Given(kwargs, entrada)
      ensures status == (if ok then 1 else 0)
      ensures msg == (if ok then NoMessage else UndefinedInput)
    {
      if Given(kwargs, f_install) && Given(kwargs, Base_index) && Given(kwargs, Current_index)
         && Given(kwargs, diametro) && Given(kwargs, longitud) && Given(kwargs, espesor)
      {
        statusCoste := true;
      } else {
        statusCoste := false;
      }

      if !Given(kwargs, entrada) {
        msg := UndefinedInput;
        status := 0;
        return false;
      }

      msg := NoMessage;
      status := 1;
      return true;
    }
  }

  /** The head factor hb of `peso`, by head type (0 ellipsoidal, 1
      hemispherical, 2 bumped, 3 flat) and the ratio of outer diameter to
      head thickness. A flat head has no factor; every type other than 0, 2
      and 3 uses the hemispherical column. */
  function HeadFactor(head: int, ratio: real): (hb: Option<real>)
    ensures hb.None? <==> head == 3
    ensures hb.Some? ==> 1.09 <= hb.value <= 1.70
    ensures head == 0 ==> hb == Some(if ratio > 20.0 then 1.24 else 1.3)
    ensures head == 2 ==> hb == Some(if ratio > 50.0 then 1.09 else if ratio > 30.0 then 1.11 else 1.15)
    ensures head == 1 ==> hb == Some(if ratio > 30.0 then 1.6 else if ratio > 18.0 then 1.65 else 1.70)
  {
    if head == 3 then None
    else if head == 0 then
      if ratio > 20.0 then Some(1.24) else Some(1.3)
    else if head == 2 then
      if ratio > 50.0 then Some(1.09)
      else if ratio > 30.0 then Some(1.11)
      else Some(1.15)
    else
      if ratio > 30.0 then Some(1.6)
      else if ratio > 18.0 then Some(1.65)
      else Some(1.70)
  }

  /** A thinner head relative to its diameter never needs a larger factor:
      for a fixed head type the factor does not increase with the ratio. */
  lemma HeadFactorNonIncreasing(head: int, r1: real, r2: real)
    requires head != 3 && r1 <= r2
    ensures HeadFactor(head, r2).value <= HeadFactor(head, r1).value
  {
  }

  /** The hemispherical column also serves every head type outside the four
      listed ones. */
  lemma HeadFactorDefaultsToHemispherical(head: int, ratio: real)
    requires head != 0 && head != 2 && head != 3
    ensures HeadFactor(head, ratio) == HeadFactor(1, ratio)
  {
  }
}
