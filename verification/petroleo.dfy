/** The input-definition logic of a petroleum fraction (lib/petro.py, class
    `Petroleo`): keyword inputs accumulate in one dictionary that belongs to
    the class, `isCalculable` derives what was given and picks one of nine
    characterisation routes by a fixed priority, and `calculo` first settles
    the specific gravity / API gravity and the refraction parameters. */
module Petroleum {
  import opened Common
  import opened PetroConversions

  /** The keyword names of the class-level dictionary, spelled as in the
      source: `n` is the refractive index, `N` the nitrogen content. */
  datatype Key =
    | Name | M | Tb | SG | API | CH | n | I | Nc | Kw | v100 | v210 | H | S | N
    | P_dist | T_dist | D86 | TBP | EFV | SD | D1160 | oleffin | TEL | TML

  /** The kind of value a keyword holds: curves are lists, the name a string,
      everything else a number. */
  predicate Fits(k: Key, v: Value) {
    match k
    case Name => v.Text?
    case D86 | TBP | EFV | SD | D1160 => v.Series?
    case _ => v.Num?
  }

  /** A keyword set whose values have the kinds of their keys. */
  predicate Conforms(passed: Kwargs<Key>) {
    forall k :: k in passed ==> Fits(k, passed[k])
  }

  /** The dictionary holds every keyword, each with a value of its kind. */
  predicate WellFormed(kw: Kwargs<Key>) {
    (forall k: Key :: k in kw) && Conforms(kw)
  }

  /** The class-level default of one keyword: an empty name, zero numbers,
      empty curves. */
  function DefaultValue(k: Key): Value {
    if k == Name then Text("") else if Fits(k, Series([])) then Series([]) else Num(0.0)
  }

  /** The class-level dictionary, every keyword at its default. */
  function Defaults(): (kw: Kwargs<Key>)
    ensures WellFormed(kw)
    ensures forall k :: k in kw ==> !Truthy(kw[k])
    ensures forall k :: kw[k] == DefaultValue(k)
  {
    map k: Key :: DefaultValue(k)
  }

  /** A well-formed dictionary stays well-formed under an update with
      conforming keywords. */
  lemma UpdateKeepsWellFormed(kw: Kwargs<Key>, passed: Kwargs<Key>)
    requires WellFormed(kw) && Conforms(passed)
    ensures WellFormed(Update(kw, passed))
  {
  }

  /** The number stored under a numeric keyword. */
  function NumAt(kw: Kwargs<Key>, k: Key): real
    requires WellFormed(kw) && Fits(k, Num(0.0))
  {
    kw[k].x
  }

  // ----- what was given -----

  /** A gravity is known from SG, from API, or from a Watson factor together
      with a boiling point. */
  predicate HasSG(kw: Kwargs<Key>)
    requires WellFormed(kw)
  {
    Given(kw, SG) || Given(kw, API) || (Given(kw, Kw) && Given(kw, Tb))
  }

  predicate HasRefraction(kw: Kwargs<Key>)
    requires WellFormed(kw)
  {
    Given(kw, n) || Given(kw, I)
  }

  /** A distillation curve is known from D86, TBP, EFV or D1160; an SD curve
      alone does not count. */
  predicate HasCurve(kw: Kwargs<Key>)
    requires WellFormed(kw)
  {
    Given(kw, D86) || Given(kw, TBP) || Given(kw, EFV) || Given(kw, D1160)
  }

  /** What the keywords make known, as `isCalculable` reads them: five
      direct inputs and the three derived flags. */
  datatype Known = Known(tb: bool, m: bool, ch: bool, v100: bool, nc: bool,
                         sg: bool, refraction: bool, curve: bool)

  function KnownOf(kw: Kwargs<Key>): Known
    requires WellFormed(kw)
  {
    Known(Given(kw, Tb), Given(kw, M), Given(kw, CH), Given(kw, v100), Given(kw, Nc),
          HasSG(kw), HasRefraction(kw), HasCurve(kw))
  }

  /** The nine characterisation rules, each on its own. */
  predicate Rule(j: nat, k: Known) {
    match j
    case 1 => k.tb && k.sg
    case 2 => k.m && k.sg
    case 3 => k.tb && k.refraction
    case 4 => k.m && k.refraction
    case 5 => k.tb && k.ch
    case 6 => k.m && k.ch
    case 7 => k.v100 && k.refraction
    case 8 => k.nc
    case 9 => k.curve
    case _ => false
  }

  /** The elif chain of `isCalculable`, 0 when no branch applies. */
  function Select(k: Known): (r: nat)
    ensures r <= 9
  {
    if k.tb && k.sg then 1
    else if k.m && k.sg then 2
    else if k.tb && k.refraction then 3
    else if k.m && k.refraction then 4
    else if k.tb && k.ch then 5
    else if k.m && k.ch then 6
    else if k.v100 && k.refraction then 7
    else if k.nc then 8
    else if k.curve then 9
    else 0
  }

  /** The route `isCalculable` selects for a dictionary. */
  function Route(kw: Kwargs<Key>): (r: nat)
    requires WellFormed(kw)
    ensures r <= 9
  {
    Select(KnownOf(kw))
  }

  /** The route is the first rule, in priority order, that holds; it is 0
      only when no rule holds. */
  lemma RouteIsFirstRule(kw: Kwargs<Key>)
    requires WellFormed(kw)
    ensures Route(kw) != 0 ==> Rule(Route(kw), KnownOf(kw))
    ensures forall j :: 1 <= j < Route(kw) ==> !Rule(j, KnownOf(kw))
    ensures Route(kw) == 0 ==> forall j :: 1 <= j <= 9 ==> !Rule(j, KnownOf(kw))
  {
  }

  /** Changing the SD curve never changes whether a curve is known, nor the
      route. */
  lemma RouteIgnoresSD(kw: Kwargs<Key>, sd: seq<real>)
    requires WellFormed(kw)
    ensures WellFormed(kw[SD := Series(sd)])
    ensures HasCurve(kw[SD := Series(sd)]) == HasCurve(kw)
    ensures Route(kw[SD := Series(sd)]) == Route(kw)
  {
    var kw' := kw[SD := Series(sd)];
    assert KnownOf(kw') == KnownOf(kw);
  }

  // ----- the SG/API and refraction blocks of calculo -----

  /** The SG and API found by the gravity block; either can be None, the
      value a correlation returns outside its routes. */
  datatype Gravity = Gravity(sg: Option<real>, api: Option<real>)
  datatype Refraction = Refraction(i: real, nSquared: real)
  datatype Characterisation = Characterisation(gravity: Gravity, refraction: Refraction)

  /** Whether the SG correlation the preferences select returns a number for
      the route: Riazi-Daubert (`SG_Riazi_Daubert`) covers routes 3 to 7 and
      returns None otherwise; Riazi-Alsahhaf (`SG_Riazi_Alsahhaf`) uses the
      molecular weight when one is given and defers to Riazi-Daubert when
      not. */
  predicate SGCorrelationDefined(route: nat, mGiven: bool, alsahhaf: bool) {
    (3 <= route <= 7) || (alsahhaf && mGiven)
  }

  /** The SG estimate: the correlation's value `value` where it is defined,
      None elsewhere. */
  function SGEstimate(route: nat, mGiven: bool, alsahhaf: bool, value: real): Option<real> {
    if SGCorrelationDefined(route, mGiven, alsahhaf) then Some(value) else None
  }

  /** `I_Riazi_Daubert_ext` returns a number on routes 1, 2, 5 and 6 and None
      on every other route. */
  predicate ICorrelationDefined(route: nat) {
    route == 1 || route == 2 || route == 5 || route == 6
  }

  function IEstimate(route: nat, value: real): Option<real> {
    if ICorrelationDefined(route) then Some(value) else None
  }

  /** Specific gravity and API gravity, as `calculo` finds them from the
      object's `hasSG` flag. SG takes precedence over API. When the flag is
      set by a Watson factor and a boiling point alone, the source refers to
      names it never binds, so that branch always fails. Without the flag the
      SG is the correlation estimate `sgEstimate`, possibly None, and API is
      left unassigned. */
  function GravityOf(kw: Kwargs<Key>, hasSG: bool, sgEstimate: Option<real>): (r: Result<Gravity>)
    requires WellFormed(kw)
    ensures hasSG && Given(kw, SG) ==> r == Ok(Gravity(Some(NumAt(kw, SG)), Some(ApiFromSG(NumAt(kw, SG)))))
    ensures hasSG && !Given(kw, SG) && Given(kw, API) ==>
      (r.Ok? <==> NumAt(kw, API) != -131.5) &&
      (r.Ok? ==> r.value.sg.Some? && r.value.api == Some(NumAt(kw, API)))
    ensures hasSG && !Given(kw, SG) && !Given(kw, API) ==> r == Err(UndefinedName)
    ensures !hasSG ==> r == Ok(Gravity(sgEstimate, None))
  {
    if hasSG then
      if Given(kw, SG) then
        var sg := NumAt(kw, SG);
        Ok(Gravity(Some(sg), Some(ApiFromSG(sg))))
      else if Given(kw, API) then
        var api := NumAt(kw, API);
        var sg :- SGFromApi(api);
        Ok(Gravity(Some(sg), Some(api)))
      else
        Err(UndefinedName)
    else
      Ok(Gravity(sgEstimate, None))
  }

  /** Whichever of SG and API was given, the pair the gravity block finds
      is consistent: the API converts back to the SG. */
  lemma GravityConsistent(kw: Kwargs<Key>, hasSG: bool, sgEstimate: Option<real>)
    requires WellFormed(kw)
    ensures GravityOf(kw, hasSG, sgEstimate).Ok? && GravityOf(kw, hasSG, sgEstimate).value.api.Some? ==>
      GravityOf(kw, hasSG, sgEstimate).value.sg.Some? &&
      SGFromApi(GravityOf(kw, hasSG, sgEstimate).value.api.value) == Ok(GravityOf(kw, hasSG, sgEstimate).value.sg.value)
  {
    if hasSG && Given(kw, SG) {
      ApiSGRoundTrip(NumAt(kw, SG));
    }
  }

  /** For a fraction whose flags come from its own keywords, the failing
      branch is exactly the gravity given by a Watson factor and a boiling
      point, without SG or API. */
  lemma WatsonGravityFails(kw: Kwargs<Key>, sgEstimate: Option<real>)
    requires WellFormed(kw)
    ensures GravityOf(kw, HasSG(kw), sgEstimate).Err? && !Given(kw, API) <==>
      Given(kw, Kw) && Given(kw, Tb) && !Given(kw, SG) && !Given(kw, API)
  {
  }

  /** I together with the n^2 it gives, `(1 + 2I)/(1 - I)`. */
  function RefractionFromI(i: real): (r: Result<Refraction>)
    ensures r.Ok? <==> NSquaredFromI(i).Ok?
    ensures r.Ok? ==> r.value.i == i && r.value.nSquared * (1.0 - i) == 1.0 + 2.0 * i
  {
    var nSquared :- NSquaredFromI(i);
    Ok(Refraction(i, nSquared))
  }

  /** I and n^2, as `calculo` finds them from the object's `hasRefraction`
      flag. With the flag, a given n is kept and I derived from it, else the
      given I gives n^2; without it the correlation estimate `iEstimate` gives
      n^2, and an estimate of None fails in the arithmetic. n^2 from I fails
      at I = 1 and when the ratio is negative. Whichever way they were found,
      the two satisfy the reverse formula. */
  function RefractionOf(kw: Kwargs<Key>, hasRefraction: bool, iEstimate: Option<real>): (r: Result<Refraction>)
    requires WellFormed(kw)
    ensures hasRefraction && Given(kw, n) ==> r == Ok(Refraction(HuangI(NumAt(kw, n)), NumAt(kw, n) * NumAt(kw, n)))
    ensures hasRefraction && !Given(kw, n) ==> r == RefractionFromI(NumAt(kw, I))
    ensures !hasRefraction && iEstimate.Some? ==> r == RefractionFromI(iEstimate.value)
    ensures !hasRefraction && iEstimate.None? ==> r == Err(NoneOperand)
    ensures r.Ok? ==> NSquaredFromI(r.value.i) == Ok(r.value.nSquared)
  {
    if hasRefraction then
      if Given(kw, n) then
        var index := NumAt(kw, n);
        var refraction := Refraction(HuangI(index), index * index);
        HuangRoundTrip(index);
        assert NSquaredFromI(refraction.i) == Ok(refraction.nSquared);
        assert refraction == Refraction(HuangI(NumAt(kw, n)), NumAt(kw, n) * NumAt(kw, n));
        Ok(refraction)
      else
        RefractionFromI(NumAt(kw, I))
    else if iEstimate.Some? then
      RefractionFromI(iEstimate.value)
    else
      Err(NoneOperand)
  }

  /** The refraction block does not read the gravity keywords. */
  lemma RefractionUnaffectedBySG(kw: Kwargs<Key>, sg: real, hasRefraction: bool, iEstimate: Option<real>)
    requires WellFormed(kw)
    ensures WellFormed(kw[SG := Num(sg)])
    ensures RefractionOf(kw[SG := Num(sg)], hasRefraction, iEstimate) == RefractionOf(kw, hasRefraction, iEstimate)
  {
    var kw' := kw[SG := Num(sg)];
    assert kw'[n] == kw[n] && kw'[I] == kw[I];
  }

  /** The modelled part of `calculo`: the gravity block, then the refraction
      block; the first exception ends the computation. */
  function Characterise(kw: Kwargs<Key>, hasSG: bool, hasRefraction: bool,
                        sgEstimate: Option<real>, iEstimate: Option<real>)
    : (r: Result<Characterisation>)
    requires WellFormed(kw)
    ensures r.Ok? <==> GravityOf(kw, hasSG, sgEstimate).Ok? && RefractionOf(kw, hasRefraction, iEstimate).Ok?
    ensures GravityOf(kw, hasSG, sgEstimate).Err? ==> r == Err(GravityOf(kw, hasSG, sgEstimate).fault)
    ensures GravityOf(kw, hasSG, sgEstimate).Ok? && RefractionOf(kw, hasRefraction, iEstimate).Err? ==>
      r == Err(RefractionOf(kw, hasRefraction, iEstimate).fault)
    ensures r.Ok? ==>
      r.value == Characterisation(GravityOf(kw, hasSG, sgEstimate).value, RefractionOf(kw, hasRefraction, iEstimate).value)
  {
    var g :- GravityOf(kw, hasSG, sgEstimate);
    var refraction :- RefractionOf(kw, hasRefraction, iEstimate);
    Ok(Characterisation(g, refraction))
  }

  /** The characterisation a fraction's own keywords lead to on route
      `route`, with the correlations' values `sgValue` and `iValue` and the
      preferred SG correlation. */
  function CharacteriseOnRoute(kw: Kwargs<Key>, route: nat, alsahhaf: bool, sgValue: real, iValue: real)
    : Result<Characterisation>
    requires WellFormed(kw)
  {
    Characterise(kw, HasSG(kw), HasRefraction(kw),
                 SGEstimate(route, Given(kw, M), alsahhaf, sgValue), IEstimate(route, iValue))
  }

  /** On routes 8 and 9 (carbon number or distillation curve) without n or I,
      the I correlation returns None and the refraction block fails with a
      TypeError, unless the gravity block has already failed. */
  lemma CurveRoutesLackRefraction(kw: Kwargs<Key>, alsahhaf: bool, sgValue: real, iValue: real)
    requires WellFormed(kw) && (Route(kw) == 8 || Route(kw) == 9) && !HasRefraction(kw)
    ensures CharacteriseOnRoute(kw, Route(kw), alsahhaf, sgValue, iValue).Err?
    ensures GravityOf(kw, HasSG(kw), SGEstimate(Route(kw), Given(kw, M), alsahhaf, sgValue)).Ok? ==>
      CharacteriseOnRoute(kw, Route(kw), alsahhaf, sgValue, iValue) == Err(NoneOperand)
  {
    var route := Route(kw);
    assert !ICorrelationDefined(route);
    assert RefractionOf(kw, false, IEstimate(route, iValue)) == Err(NoneOperand);
  }

  /** On routes 8 and 9 without a gravity keyword, the Riazi-Daubert SG
      correlation leaves SG as None, and so does Riazi-Alsahhaf when no
      molecular weight is given; on routes 3 to 7 the estimate is used. */
  lemma SGEstimateDomain(kw: Kwargs<Key>, alsahhaf: bool, sgValue: real)
    requires WellFormed(kw) && !HasSG(kw)
    ensures (Route(kw) == 8 || Route(kw) == 9) && !(alsahhaf && Given(kw, M)) ==>
      GravityOf(kw, false, SGEstimate(Route(kw), Given(kw, M), alsahhaf, sgValue)) == Ok(Gravity(None, None))
    ensures 3 <= Route(kw) <= 7 ==>
      GravityOf(kw, false, SGEstimate(Route(kw), Given(kw, M), alsahhaf, sgValue)) == Ok(Gravity(Some(sgValue), None))
  {
  }

  /** On the routes the I correlation covers, a fraction without n or I
      takes I from the correlation. */
  lemma EstimatedRefraction(kw: Kwargs<Key>, alsahhaf: bool, sgValue: real, iValue: real)
    requires WellFormed(kw) && ICorrelationDefined(Route(kw)) && !HasRefraction(kw)
    ensures RefractionOf(kw, HasRefraction(kw), IEstimate(Route(kw), iValue)) == RefractionFromI(iValue)
  {
  }

  /** With the gravity flag set on a nonzero stored SG and the refraction
      flag clear, the outcome depends on that SG and the estimate of I alone. */
  lemma CharacteriseFromStoredSG(kw: Kwargs<Key>, sg: real, sgEstimate: Option<real>, iEstimate: real)
    requires WellFormed(kw) && kw[SG] == Num(sg) && sg != 0.0
    ensures Characterise(kw, true, false, sgEstimate, Some(iEstimate)) ==
      if RefractionFromI(iEstimate).Ok?
      then Ok(Characterisation(Gravity(Some(sg), Some(ApiFromSG(sg))), RefractionFromI(iEstimate).value))
      else Err(RefractionFromI(iEstimate).fault)
  {
  }

  // ----- the objects -----

  class Petroleo {
    const kwargs: InputTable<Key>
    var received: bool        // `_bool`: some keyword has been passed
    var hasSG: bool
    var hasRefraction: bool
    var hasCurve: bool
    var definicion: nat
    var status: int
    var msg: Message

    ghost predicate Valid()
      reads this, kwargs
    {
      WellFormed(kwargs.entries) && definicion <= 9
    }

    /** A fraction object on the shared dictionary, with the class-level
        defaults of the other attributes. */
    constructor (table: InputTable<Key>)
      requires WellFormed(table.entries)
      ensures Valid() && kwargs == table
      ensures !received && definicion == 0 && status == 0 && msg == NoMessage
    {
      kwargs := table;
      received := false;
      hasSG, hasRefraction, hasCurve := false, false, false;
      definicion := 0;
      status := 0;
      msg := NoMessage;
    }

    /** The first step of `isCalculable`: the three flags, derived from the
        shared dictionary. */
    method DeriveFlags()
      requires Valid()
      modifies this`hasSG, this`hasRefraction, this`hasCurve
      ensures hasSG == HasSG(kwargs.entries)
      ensures hasRefraction == HasRefraction(kwargs.entries)
      ensures hasCurve == HasCurve(kwargs.entries)
    {
      var kw := kwargs.entries;
      hasSG := HasSG(kw);
      hasRefraction := HasRefraction(kw);
      hasCurve := HasCurve(kw);
    }

    /** The elif chain of `isCalculable`, on the flags just derived: the first
        rule that holds sets the route. When none holds, the status and the
        message report insufficient input and the route of an earlier call
        stays. */
    method ChooseRoute()
      requires Valid()
      requires hasSG == HasSG(kwargs.entries) && hasRefraction == HasRefraction(kwargs.entries)
      requires hasCurve == HasCurve(kwargs.entries)
      modifies this`definicion, this`status, this`msg
      ensures Valid()
      ensures definicion == if Route(kwargs.entries) != 0 then Route(kwargs.entries) else old(definicion)
      ensures Route(kwargs.entries) == 0 ==> status == 0 && msg == InsufficientInput
      ensures Route(kwargs.entries) != 0 ==> status == old(status) && msg == old(msg)
    {
      var kw := kwargs.entries;
      if Given(kw, Tb) && hasSG {
        definicion := 1;
      } else if Given(kw, M) && hasSG {
        definicion := 2;
      } else if Given(kw, Tb) && hasRefraction {
        definicion := 3;
      } else if Given(kw, M) && hasRefraction {
        definicion := 4;
      } else if Given(kw, Tb) && Given(kw, CH) {
        definicion := 5;
      } else if Given(kw, M) && Given(kw, CH) {
        definicion := 6;
      } else if Given(kw, v100) && hasRefraction {
        definicion := 7;
      } else if Given(kw, Nc) {
        definicion := 8;
      } else if hasCurve {
        definicion := 9;
      } else {
        status := 0;
        msg := InsufficientInput;
      }
    }

    /** `isCalculable`: derives the flags, picks the route and reports. When no
        rule applies the route chosen by an earlier call is kept, and then the
        object still reports itself calculable. */
    method IsCalculable() returns (ok: bool)
      requires Valid()
      modifies this`hasSG, this`hasRefraction, this`hasCurve, this`definicion, this`status, this`msg
      ensures Valid()
      ensures hasSG == HasSG(kwargs.entries)
      ensures hasRefraction == HasRefraction(kwargs.entries)
      ensures hasCurve == HasCurve(kwargs.entries)
      ensures definicion == if Route(kwargs.entries) != 0 then Route(kwargs.entries) else old(definicion)
      ensures ok <==> definicion != 0
      ensures status == (if ok then 1 else 0)
      ensures msg == (if ok then NoMessage else InsufficientInput)
    {
      DeriveFlags();
      ChooseRoute();
      ok := false;
      if definicion != 0 {
        status := 1;
        msg := NoMessage;
        ok := true;
      }
    }

    /** `__call__(**kwargs)`: merge the passed keywords into the shared
        dictionary, note that input arrived, and run the modelled part of
        `calculo` when the fraction is calculable. The values the SG and I
        correlations would compute are the parameters `sgValue` and `iValue`;
        whether they apply depends on the route, and `alsahhaf` is the
        preferred SG correlation. */
    method Call(passed: Kwargs<Key>, alsahhaf: bool, sgValue: real, iValue: real)
      returns (outcome: Option<Result<Characterisation>>)
      requires Valid() && Conforms(passed)
      modifies this, kwargs
      ensures Valid()
      ensures kwargs.entries == Update(old(kwargs.entries), passed)
      ensures received == (old(received) || passed != map[])
      ensures hasSG == HasSG(kwargs.entries)
      ensures hasRefraction == HasRefraction(kwargs.entries)
      ensures hasCurve == HasCurve(kwargs.entries)
      ensures definicion == if Route(kwargs.entries) != 0 then Route(kwargs.entries) else old(definicion)
      ensures status == (if definicion != 0 then 1 else 0)
      ensures msg == (if definicion != 0 then NoMessage else InsufficientInput)
      ensures outcome == if definicion != 0
        then Some(CharacteriseOnRoute(kwargs.entries, definicion, alsahhaf, sgValue, iValue))
        else None
    {
      UpdateKeepsWellFormed(kwargs.entries, passed);
      kwargs.entries := Update(kwargs.entries, passed);
      if passed != map[] {
        received := true;
      }
      var calculable := IsCalculable();
      outcome := None;
      if calculable {
        var kw := kwargs.entries;
        var sgEstimate := SGEstimate(definicion, Given(kw, M), alsahhaf, sgValue);
        var iEstimate := IEstimate(definicion, iValue);
        outcome := Some(Characterise(kw, hasSG, hasRefraction, sgEstimate, iEstimate));
      }
    }
  }

  /** Two fraction objects share one dictionary: the keywords passed to one
      make the other calculable, by the same route, without input of its own. */
  method SharedDictionaryExample() returns (a: Petroleo, b: Petroleo, ok: bool)
    ensures a != b && a.kwargs == b.kwargs
    ensures !b.received && ok && b.definicion == 1
  {
    var table := new InputTable(Defaults());
    a := new Petroleo(table);
    b := new Petroleo(table);
    var given := map[Tb := Num(600.0), SG := Num(0.8)];
    RouteOfGiven(given);
    var outcome := a.Call(given, false, 0.0, 0.0);
    ok := b.IsCalculable();
  }

  lemma RouteOfGiven(given: Kwargs<Key>)
    requires given == map[Tb := Num(600.0), SG := Num(0.8)]
    ensures WellFormed(Update(Defaults(), given)) && Route(Update(Defaults(), given)) == 1
  {
    var kw := Update(Defaults(), given);
    UpdateKeepsWellFormed(Defaults(), given);
    assert kw[Tb] == Num(600.0) && kw[SG] == Num(0.8);
    assert KnownOf(kw).tb && KnownOf(kw).sg;
  }

  /** With no keyword given, no rule applies. */
  lemma RouteOfNothingGiven(kw: Kwargs<Key>)
    requires WellFormed(kw) && forall k :: !Truthy(kw[k])
    ensures Route(kw) == 0
  {
    assert KnownOf(kw) == Known(false, false, false, false, false, false, false, false);
  }

  lemma RouteOfCleared(kw: Kwargs<Key>, cleared: Kwargs<Key>)
    requires WellFormed(kw) && (forall k :: k != Tb && k != SG ==> !Truthy(kw[k]))
    requires cleared == map[Tb := Num(0.0), SG := Num(0.0)]
    ensures WellFormed(Update(kw, cleared)) && Route(Update(kw, cleared)) == 0
  {
    var r := Update(kw, cleared);
    UpdateKeepsWellFormed(kw, cleared);
    forall k
      ensures !Truthy(r[k])
    {
      if k != Tb && k != SG {
        assert r[k] == kw[k];
      }
    }
    RouteOfNothingGiven(r);
  }

  /** Once a route has been chosen, clearing the inputs that selected it does
      not make the fraction incalculable again: the old route is kept. */
  method ClearAfterRoute(p: Petroleo) returns (ok: bool)
    requires p.Valid() && p.definicion == 1
    requires forall k :: k != Tb && k != SG ==> !Truthy(p.kwargs.entries[k])
    modifies p, p.kwargs
    ensures p.Valid() && Route(p.kwargs.entries) == 0
    ensures ok && p.definicion == 1 && p.status == 1 && p.msg == NoMessage
  {
    var cleared := map[Tb := Num(0.0), SG := Num(0.0)];
    RouteOfCleared(p.kwargs.entries, cleared);
    var outcome := p.Call(cleared, false, 0.0, 0.0);
    ok := p.IsCalculable();
  }
}
