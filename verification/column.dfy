/** The input logic of the shortcut (Fenske-Underwood-Gilliland) distillation
    column of equipment/distillation.py (class `ColumnFUG` and the cost check
    it inherits from `Tower`): which keywords make the column, its cost and
    its McCabe-Thiele plot computable, in which order the inputs are checked,
    and how a new reflux specification replaces the old one. */
module ShortcutColumn {
  import opened Common

  /** The keywords of the shortcut column. `LK` and `HK` are component
      indices, -1 when unset. */
  datatype ColumnKey =
    | entrada | feed | LK | LKsplit | HK | HKsplit | condenser | R | R_Rmin
    | Pd | DeltaP | f_install | Base_index | Current_index | proceso | tipo
    | tipo_pisos | material_columna | material_pisos | C_unitario | Di | h | W | Wb

  predicate Fits(k: ColumnKey, v: Value) {
    if k.entrada? then v.Nothing? || v.Stream? else v.Num?
  }

  predicate WellFormed(kw: Kwargs<ColumnKey>) {
    forall k: ColumnKey :: k in kw && Fits(k, kw[k])
  }

  predicate Conforms(passed: Kwargs<ColumnKey>) {
    forall k :: k in passed ==> Fits(k, passed[k])
  }

  /** The number stored under a numeric keyword. */
  function NumAt(kw: Kwargs<ColumnKey>, k: ColumnKey): real
    requires WellFormed(kw) && !k.entrada?
  {
    kw[k].x
  }

  // ----- availability rules -----

  /** `Tower.isCalculable`: a packed column (`tipo` nonzero) needs a unit
      packing cost; beyond that the diameter, height and both wall
      thicknesses must be nonzero. */
  predicate TowerCostAvailable(kw: Kwargs<ColumnKey>)
    requires WellFormed(kw)
  {
    !(Given(kw, tipo) && !Given(kw, C_unitario)) &&
    Given(kw, Di) && Given(kw, h) && Given(kw, W) && Given(kw, Wb)
  }

  /** A reflux condition is specified by R or by R/Rmin. */
  predicate RefluxGiven(kw: Kwargs<ColumnKey>)
    requires WellFormed(kw)
  {
    Given(kw, R) || Given(kw, R_Rmin)
  }

  /** The McCabe-Thiele plot needs a reflux condition and both key splits. */
  predicate McCabeAvailable(kw: Kwargs<ColumnKey>)
    requires WellFormed(kw)
  {
    RefluxGiven(kw) && Given(kw, LKsplit) && Given(kw, HKsplit)
  }

  /** The seven input checks of `isCalculable`, in the order they run: 1 input
      stream, 2 reflux condition, 3 light key split, 4 heavy key split,
      5 light key chosen, 6 heavy key chosen, 7 heavy key after light key. */
  predicate Check(j: nat, kw: Kwargs<ColumnKey>)
    requires WellFormed(kw)
  {
    if j == 1 then Given(kw, entrada)
    else if j == 2 then RefluxGiven(kw)
    else if j == 3 then Given(kw, LKsplit)
    else if j == 4 then Given(kw, HKsplit)
    else if j == 5 then NumAt(kw, LK) != -1.0
    else if j == 6 then NumAt(kw, HK) != -1.0
    else if j == 7 then NumAt(kw, HK) > NumAt(kw, LK)
    else true
  }

  /** The message each check reports when it fails. */
  function CheckMessage(j: nat): Message {
    if j == 1 then UndefinedInput
    else if j == 2 then UndefinedReflux
    else if j == 3 then UndefinedLightKeySplit
    else if j == 4 then UndefinedHeavyKeySplit
    else if j == 5 then UndefinedLightKey
    else if j == 6 then UndefinedHeavyKey
    else BadKeys
  }

  /** The number of the first failing check, 0 when all pass. */
  function FirstFailure(kw: Kwargs<ColumnKey>): (j: nat)
    requires WellFormed(kw)
    ensures j <= 7
    ensures j != 0 ==> !Check(j, kw)
    ensures forall i :: 1 <= i < j ==> Check(i, kw)
    ensures j == 0 ==> forall i :: 1 <= i <= 7 ==> Check(i, kw)
  {
    if !Given(kw, entrada) then 1
    else if !RefluxGiven(kw) then 2
    else if !Given(kw, LKsplit) then 3
    else if !Given(kw, HKsplit) then 4
    else if NumAt(kw, LK) == -1.0 then 5
    else if NumAt(kw, HK) == -1.0 then 6
    else if NumAt(kw, HK) <= NumAt(kw, LK) then 7
    else 0
  }

  /** A column that passes every check also has what the McCabe-Thiele plot
      needs. */
  lemma CalculableImpliesMcCabe(kw: Kwargs<ColumnKey>)
    requires WellFormed(kw) && FirstFailure(kw) == 0
    ensures McCabeAvailable(kw)
  {
    assert Check(2, kw) && Check(3, kw) && Check(4, kw);
  }

  /** Whether the plot is available does not depend on the input stream. */
  lemma McCabeIgnoresInput(kw: Kwargs<ColumnKey>, v: Value)
    requires WellFormed(kw) && (v.Nothing? || v.Stream?)
    ensures WellFormed(kw[entrada := v])
    ensures McCabeAvailable(kw[entrada := v]) == McCabeAvailable(kw)
  {
    var kw' := kw[entrada := v];
    assert kw'[R] == kw[R] && kw'[R_Rmin] == kw[R_Rmin];
    assert kw'[LKsplit] == kw[LKsplit] && kw'[HKsplit] == kw[HKsplit];
  }

  // ----- the reflux specification -----

  /** The reflux specification `calculo` acts on: R when it is nonzero,
      otherwise a multiple of the minimum reflux when R/Rmin is nonzero. */
  datatype Reflux = Ratio(r: real) | MultipleOfMinimum(m: real) | Unspecified

  function EffectiveReflux(kw: Kwargs<ColumnKey>): (spec: Reflux)
    requires WellFormed(kw)
    ensures spec.Unspecified? <==> !RefluxGiven(kw)
    ensures Given(kw, R) ==> spec == Ratio(NumAt(kw, R))
    ensures !Given(kw, R) && Given(kw, R_Rmin) ==> spec == MultipleOfMinimum(NumAt(kw, R_Rmin))
  {
    if Given(kw, R) then Ratio(NumAt(kw, R))
    else if Given(kw, R_Rmin) then MultipleOfMinimum(NumAt(kw, R_Rmin))
    else Unspecified
  }

  /** `cleanOldValues` as written: passing R clears R/Rmin, and passing R/Rmin
      (without R) clears R/Rmin again, which the update then overwrites. */
  function CleanAsWritten(kw: Kwargs<ColumnKey>, passed: Kwargs<ColumnKey>): (r: Kwargs<ColumnKey>)
    requires WellFormed(kw) && Conforms(passed)
    ensures WellFormed(r)
    ensures forall k :: k in passed ==> r[k] == passed[k]
    ensures R_Rmin !in passed && R in passed ==> r[R_Rmin] == Num(0.0)
    ensures R !in passed && R_Rmin !in passed ==> r[R_Rmin] == kw[R_Rmin]
    ensures forall k :: k !in passed && k != R_Rmin ==> r[k] == kw[k]
  {
    var cleared :=
      if R in passed then kw[R_Rmin := Num(0.0)]
      else if R_Rmin in passed then kw[R_Rmin := Num(0.0)]
      else kw;
    Update(cleared, passed)
  }

  /** As written, a new R/Rmin does not displace an R set earlier: R stays
      in force and the R/Rmin just passed is ignored. */
  lemma CleanAsWrittenKeepsOldRatio(kw: Kwargs<ColumnKey>)
    requires WellFormed(kw) && kw[R] == Num(2.0)
    ensures EffectiveReflux(CleanAsWritten(kw, map[R_Rmin := Num(1.5)])) == Ratio(2.0)
  {
    var r := CleanAsWritten(kw, map[R_Rmin := Num(1.5)]);
    assert r[R] == Num(2.0);
  }

  /** The reflux specification in force after the cleaning as written, for
      every dictionary and every set of passed keywords: a passed R decides
      it; a passed R/Rmin decides it only when no R is stored; with neither
      passed, the old specification stays. */
  lemma CleanAsWrittenReflux(kw: Kwargs<ColumnKey>, passed: Kwargs<ColumnKey>)
    requires WellFormed(kw) && Conforms(passed)
    ensures R in passed && Truthy(passed[R]) ==>
      EffectiveReflux(CleanAsWritten(kw, passed)) == Ratio(passed[R].x)
    ensures R !in passed && R_Rmin in passed ==>
      EffectiveReflux(CleanAsWritten(kw, passed)) ==
        if Given(kw, R) then Ratio(NumAt(kw, R))
        else if Truthy(passed[R_Rmin]) then MultipleOfMinimum(passed[R_Rmin].x)
        else Unspecified
    ensures R !in passed && R_Rmin !in passed ==>
      EffectiveReflux(CleanAsWritten(kw, passed)) == EffectiveReflux(kw)
  {
    var r := CleanAsWritten(kw, passed);
    if R !in passed {
      assert r[R] == kw[R];
    }
  }

  /** `cleanOldValues` with the evident intent: passing either reflux
      specification clears the other one. */
  function CleanCorrected(kw: Kwargs<ColumnKey>, passed: Kwargs<ColumnKey>): (r: Kwargs<ColumnKey>)
    requires WellFormed(kw) && Conforms(passed)
    ensures WellFormed(r)
    ensures forall k :: k in passed ==> r[k] == passed[k]
    ensures R_Rmin !in passed && R in passed ==> r[R_Rmin] == Num(0.0)
    ensures R !in passed && R_Rmin in passed ==> r[R] == Num(0.0)
    ensures R !in passed && R_Rmin !in passed ==> r[R] == kw[R] && r[R_Rmin] == kw[R_Rmin]
    ensures forall k :: k !in passed && k != R && k != R_Rmin ==> r[k] == kw[k]
  {
    var cleared :=
      if R in passed then kw[R_Rmin := Num(0.0)]
      else if R_Rmin in passed then kw[R := Num(0.0)]
      else kw;
    Update(cleared, passed)
  }

  /** After the corrected cleaning, the reflux specification just passed is
      the one in force, whichever of the two it is. */
  lemma CleanCorrectedLastSpecificationWins(kw: Kwargs<ColumnKey>, passed: Kwargs<ColumnKey>)
    requires WellFormed(kw) && Conforms(passed)
    ensures R in passed && R_Rmin !in passed && Truthy(passed[R]) ==>
      EffectiveReflux(CleanCorrected(kw, passed)) == Ratio(passed[R].x)
    ensures R_Rmin in passed && R !in passed && Truthy(passed[R_Rmin]) ==>
      EffectiveReflux(CleanCorrected(kw, passed)) == MultipleOfMinimum(passed[R_Rmin].x)
  {
    var r := CleanCorrected(kw, passed);
    if R_Rmin in passed && R !in passed {
      assert r[R] == Num(0.0);
    }
  }

  /** The two cleanings differ only when R/Rmin is passed without R. */
  lemma CleanVersionsAgreeOtherwise(kw: Kwargs<ColumnKey>, passed: Kwargs<ColumnKey>)
    requires WellFormed(kw) && Conforms(passed)
    requires !(R_Rmin in passed && R !in passed)
    ensures CleanAsWritten(kw, passed) == CleanCorrected(kw, passed)
  {
  }

  // ----- the object -----

  class ColumnFUG {
    var kwargs: Kwargs<ColumnKey>
    var statusCoste: bool
    var statusMcCabe: bool
    var status: int
    var msg: Message

    constructor (kw: Kwargs<ColumnKey>)
      requires WellFormed(kw)
      ensures kwargs == kw && !statusCoste && !statusMcCabe && status == 0 && msg == NoMessage
    {
      kwargs := kw;
      statusCoste := false;
      statusMcCabe := false;
      status := 0;
      msg := NoMessage;
    }

    /** The inherited `Tower.isCalculable`: it decides only the cost status,
        leaving early for a packed column without a unit cost. */
    method TowerIsCalculable()
      requires WellFormed(kwargs)
      modifies this
      ensures kwargs == old(kwargs) && statusMcCabe == old(statusMcCabe)
      ensures statusCoste == TowerCostAvailable(kwargs)
      ensures status == old(status) && msg == old(msg)
    {
      if Given(kwargs, tipo) {
        if !Given(kwargs, C_unitario) {
          statusCoste := false;
          return;
        }
      }

      if Given(kwargs, Di) && Given(kwargs, h) && Given(kwargs, W) && Given(kwargs, Wb) {
        statusCoste := true;
      } else {
        statusCoste := false;
      }
    }

    /** `isCalculable`: the cost and McCabe statuses are decided first; then
        the first failing check sets status 0 and its message, and the
        column is calculable only when every check passes. */
    method IsCalculable() returns (ok: bool)
      requires WellFormed(kwargs)
      modifies this
      ensures kwargs == old(kwargs)
      ensures statusCoste == TowerCostAvailable(kwargs)
      ensures statusMcCabe == McCabeAvailable(kwargs)
      ensures ok <==> FirstFailure(kwargs) == 0
      ensures status == (if ok then 1 else 0)
      ensures msg == (if ok then NoMessage else CheckMessage(FirstFailure(kwargs)))
    {
      TowerIsCalculable();
      var kw := kwargs;

      statusMcCabe := true;
      if !Given(kw, R) && !Given(kw, R_Rmin) {
        statusMcCabe := false;
      } else if !Given(kw, LKsplit) || !Given(kw, HKsplit) {
        statusMcCabe := false;
      }
      assert statusMcCabe == McCabeAvailable(kw);

      if !Given(kw, entrada) {
        msg := UndefinedInput;
        status := 0;
        return false;
      }
      if !Given(kw, R) && !Given(kw, R_Rmin) {
        msg := UndefinedReflux;
        status := 0;
        return false;
      }
      if !Given(kw, LKsplit) {
        msg := UndefinedLightKeySplit;
        status := 0;
        return false;
      }
      if !Given(kw, HKsplit) {
        msg := UndefinedHeavyKeySplit;
        status := 0;
        return false;
      }
      if kw[LK].x == -1.0 {
        msg := UndefinedLightKey;
        status := 0;
        return false;
      }
      if kw[HK].x == -1.0 {
        msg := UndefinedHeavyKey;
        status := 0;
        return false;
      }
      if kw[HK].x <= kw[LK].x {
        msg := BadKeys;
        status := 0;
        return false;
      }

      msg := NoMessage;
      status := 1;
      return true;
    }

    /** `cleanOldValues(**kwargs)`: the passed keywords are stored, and a
        passed R or R/Rmin first clears the stored R/Rmin, so an R stored
        earlier survives a new R/Rmin (`CleanAsWrittenReflux`). */
    method CleanOldValues(passed: Kwargs<ColumnKey>)
      requires WellFormed(kwargs) && Conforms(passed)
      modifies this`kwargs
      ensures kwargs == CleanAsWritten(old(kwargs), passed)
      ensures WellFormed(kwargs)
    {
      if R in passed {
        kwargs := kwargs[R_Rmin := Num(0.0)];
      } else if R_Rmin in passed {
        kwargs := kwargs[R_Rmin := Num(0.0)];
      }
      kwargs := Update(kwargs, passed);
    }
  }
}
