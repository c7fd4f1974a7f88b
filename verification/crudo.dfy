/** A crude oil taken from the crude database (lib/petro.py, class `Crudo`):
    its keyword dictionary is a copy of the petroleum fraction's, made once
    when the class is defined, extended with the database index and the
    fractionation options. It is calculable as soon as an index is given. */
module Crude {
  import opened Common
  import opened PetroConversions
  import Petroleum

  /** The keywords of a crude: those of a petroleum fraction and five more. */
  datatype CrudeKey = Petro(key: Petroleum.Key) | indice | Cplus | Rgo | gas | water

  /** `gas` and `water` hold a stream or None; the rest are numbers except
      where the fraction's keywords say otherwise. */
  predicate Fits(k: CrudeKey, v: Value) {
    match k
    case Petro(key) => Petroleum.Fits(key, v)
    case gas => v.Nothing? || v.Stream?
    case water => v.Nothing? || v.Stream?
    case _ => v.Num?
  }

  predicate Conforms(passed: Kwargs<CrudeKey>) {
    forall k :: k in passed ==> Fits(k, passed[k])
  }

  ghost predicate WellFormed(kw: Kwargs<CrudeKey>) {
    (forall k: CrudeKey :: k in kw) && Conforms(kw)
  }

  lemma UpdateKeepsWellFormed(kw: Kwargs<CrudeKey>, passed: Kwargs<CrudeKey>)
    requires WellFormed(kw) && Conforms(passed)
    ensures WellFormed(Update(kw, passed))
  {
    var r := Update(kw, passed);
    assert forall k :: k in r ==> Fits(k, r[k]) by {
      forall k | k in r
        ensures Fits(k, r[k])
      {
        if k in passed {
          assert r[k] == passed[k];
        } else {
          assert r[k] == kw[k];
        }
      }
    }
  }

  /** Storing a value of the right kind keeps a dictionary well-formed. */
  lemma StoreKeepsWellFormed(kw: Kwargs<CrudeKey>, k: CrudeKey, v: Value)
    requires WellFormed(kw) && Fits(k, v)
    ensures WellFormed(kw[k := v])
  {
    var r := kw[k := v];
    forall k' | k' in r
      ensures Fits(k', r[k'])
    {
      if k' != k {
        assert r[k'] == kw[k'];
      }
    }
  }

  /** The database row of a crude, as `calculo` reads it: the two name
      fields joined, the API gravity, the sulphur and nitrogen contents and
      the kinematic viscosity at 100 F. */
  datatype Row = Row(name: string, api: real, sulfur: real, nitrogen: real, v100: real)

  /** The fraction keywords `calculo` overwrites with the row's values. */
  const RowKeys: set<Petroleum.Key> :=
    {Petroleum.Name, Petroleum.SG, Petroleum.Tb, Petroleum.S, Petroleum.N, Petroleum.v100}

  /** The dictionary after `calculo` has stored the row's values, the SG
      derived from its API gravity and the boiling point `tb` estimated from
      it. */
  function Stored(kw: Kwargs<CrudeKey>, row: Row, sg: real, tb: real): (r: Kwargs<CrudeKey>)
    ensures r.Keys == kw.Keys + (set key | key in RowKeys :: Petro(key))
    ensures r[Petro(Petroleum.Name)] == Text(row.name)
    ensures r[Petro(Petroleum.SG)] == Num(sg)
    ensures r[Petro(Petroleum.Tb)] == Num(tb)
    ensures r[Petro(Petroleum.S)] == Num(row.sulfur)
    ensures r[Petro(Petroleum.N)] == Num(row.nitrogen)
    ensures r[Petro(Petroleum.v100)] == Num(row.v100)
    ensures forall k :: k in kw && !(k.Petro? && k.key in RowKeys) ==> r[k] == kw[k]
  {
    kw[Petro(Petroleum.Name) := Text(row.name)][Petro(Petroleum.Tb) := Num(tb)]
      [Petro(Petroleum.S) := Num(row.sulfur)][Petro(Petroleum.N) := Num(row.nitrogen)]
      [Petro(Petroleum.v100) := Num(row.v100)][Petro(Petroleum.SG) := Num(sg)]
  }

  lemma StoredKeepsWellFormed(kw: Kwargs<CrudeKey>, row: Row, sg: real, tb: real)
    requires WellFormed(kw)
    ensures WellFormed(Stored(kw, row, sg, tb))
  {
    var k1 := kw[Petro(Petroleum.Name) := Text(row.name)];
    StoreKeepsWellFormed(kw, Petro(Petroleum.Name), Text(row.name));
    var k2 := k1[Petro(Petroleum.Tb) := Num(tb)];
    StoreKeepsWellFormed(k1, Petro(Petroleum.Tb), Num(tb));
    var k3 := k2[Petro(Petroleum.S) := Num(row.sulfur)];
    StoreKeepsWellFormed(k2, Petro(Petroleum.S), Num(row.sulfur));
    var k4 := k3[Petro(Petroleum.N) := Num(row.nitrogen)];
    StoreKeepsWellFormed(k3, Petro(Petroleum.N), Num(row.nitrogen));
    var k5 := k4[Petro(Petroleum.v100) := Num(row.v100)];
    StoreKeepsWellFormed(k4, Petro(Petroleum.v100), Num(row.v100));
    StoreKeepsWellFormed(k5, Petro(Petroleum.SG), Num(sg));
  }

  const AllKeys: set<CrudeKey> :=
    (set key: Petroleum.Key :: Petro(key)) + {indice, Cplus, Rgo, gas, water}

  lemma AllKeysComplete()
    ensures forall k: CrudeKey :: k in AllKeys
  {
    forall k: CrudeKey
      ensures k in AllKeys
    {
      if k.Petro? {
        assert k == Petro(k.key);
      }
    }
  }

  /** The class-level dictionary: the fraction's defaults, index 0, no
      fractionation, no gas/oil ratio, no gas and no water stream. */
  function Defaults(): (kw: Kwargs<CrudeKey>)
    ensures WellFormed(kw)
    ensures forall k :: k in kw ==> !Truthy(kw[k])
    ensures forall key :: kw[Petro(key)] == Petroleum.Defaults()[key]
    ensures forall k: CrudeKey :: !k.Petro? ==> kw[k] == DefaultOf(k)
  {
    AllKeysComplete();
    var kw := map k | k in AllKeys :: DefaultOf(k);
    DefaultOfFits(kw);
    DefaultOfCopies(kw);
    kw
  }

  /** The class-level default of one keyword: the fraction's default for
      its keywords, index 0, no fractionation, no gas/oil ratio, no gas and
      no water stream. */
  function DefaultOf(k: CrudeKey): Value {
    match k
    case Petro(key) => Petroleum.DefaultValue(key)
    case gas => Nothing
    case water => Nothing
    case _ => Num(0.0)
  }

  /** Such a dictionary copies the fraction's defaults. */
  lemma DefaultOfCopies(kw: Kwargs<CrudeKey>)
    requires forall k :: k in kw && kw[k] == DefaultOf(k)
    ensures forall key :: kw[Petro(key)] == Petroleum.Defaults()[key]
  {
    var d := Petroleum.Defaults();
    forall key
      ensures kw[Petro(key)] == d[key]
    {
      assert kw[Petro(key)] == DefaultOf(Petro(key));
    }
  }

  /** A dictionary holding every keyword's default is well-formed and has
      nothing truthy. */
  lemma DefaultOfFits(kw: Kwargs<CrudeKey>)
    requires forall k :: k in kw && kw[k] == DefaultOf(k)
    ensures WellFormed(kw) && forall k :: !Truthy(kw[k])
  {
    var d := Petroleum.Defaults();
    forall k
      ensures Fits(k, kw[k]) && !Truthy(kw[k])
    {
      if k.Petro? {
        assert kw[k] == d[k.key];
      }
    }
  }

  /** The fraction keywords of a crude's dictionary, as the inherited
      `calculo` of the petroleum fraction reads them. */
  function FractionKeywords(kw: Kwargs<CrudeKey>): (r: Kwargs<Petroleum.Key>)
    requires WellFormed(kw)
    ensures Petroleum.WellFormed(r)
    ensures forall key :: r[key] == kw[Petro(key)]
  {
    map key: Petroleum.Key :: kw[Petro(key)]
  }

  /** The modelled part of the crude's `calculo`: the SG derived from the
      row's API gravity is stored under SG together with the row's values,
      and the fraction's gravity and refraction blocks run on the result. A
      crude never derives its flags: `hasSG` is set and `hasRefraction` is
      not, as the class declares them. So the stored SG gives the gravity,
      and I is always the correlation estimate `iEstimate`, whatever n or I
      the keywords hold. */
  function CrudeCalculo(kw: Kwargs<CrudeKey>, row: Row, tb: real, iEstimate: real): (r: Result<Petroleum.Characterisation>)
    requires WellFormed(kw)
    ensures row.api == -131.5 ==> r == Err(ZeroDivision)
    ensures row.api != -131.5 ==> (r.Ok? <==> NSquaredFromI(iEstimate).Ok?)
    ensures r.Ok? ==> r.value.gravity.sg.Some? && SGFromApi(row.api) == Ok(r.value.gravity.sg.value)
    ensures r.Ok? ==> r.value.gravity.api == Some(row.api)
    ensures r.Ok? ==> r.value.refraction == Petroleum.Refraction(iEstimate, NSquaredFromI(iEstimate).value)
  {
    var sg :- SGFromApi(row.api);
    StoredKeepsWellFormed(kw, row, sg, tb);
    var fraction := FractionKeywords(Stored(kw, row, sg, tb));
    SGApiRoundTrip(row.api);
    Petroleum.CharacteriseFromStoredSG(fraction, sg, None, iEstimate);
    Petroleum.Characterise(fraction, true, false, None, Petroleum.IEstimate(1, iEstimate))
  }

  /** The refraction keywords of a crude are never read. */
  lemma CrudeIgnoresRefractionKeywords(kw: Kwargs<CrudeKey>, index: real, i: real, row: Row, tb: real, iEstimate: real)
    requires WellFormed(kw)
    ensures WellFormed(kw[Petro(Petroleum.n) := Num(index)][Petro(Petroleum.I) := Num(i)])
    ensures CrudeCalculo(kw[Petro(Petroleum.n) := Num(index)][Petro(Petroleum.I) := Num(i)], row, tb, iEstimate)
         == CrudeCalculo(kw, row, tb, iEstimate)
  {
    var k1 := kw[Petro(Petroleum.n) := Num(index)];
    StoreKeepsWellFormed(kw, Petro(Petroleum.n), Num(index));
    var kw' := k1[Petro(Petroleum.I) := Num(i)];
    StoreKeepsWellFormed(k1, Petro(Petroleum.I), Num(i));
    if row.api != -131.5 {
      var sg := SGFromApi(row.api).value;
      StoredKeepsWellFormed(kw, row, sg, tb);
      StoredKeepsWellFormed(kw', row, sg, tb);
      var f := FractionKeywords(Stored(kw, row, sg, tb));
      var f' := FractionKeywords(Stored(kw', row, sg, tb));
      Petroleum.CharacteriseFromStoredSG(f, sg, None, iEstimate);
      Petroleum.CharacteriseFromStoredSG(f', sg, None, iEstimate);
    }
  }

  class Crudo {
    const kwargs: InputTable<CrudeKey>
    var received: bool
    var definicion: nat
    var status: int
    var msg: Message

    ghost predicate Valid()
      reads this, kwargs
    {
      WellFormed(kwargs.entries)
    }

    constructor (table: InputTable<CrudeKey>)
      requires WellFormed(table.entries)
      ensures Valid() && kwargs == table
      ensures !received && definicion == 0 && status == 0 && msg == NoMessage
    {
      kwargs := table;
      received := false;
      definicion := 0;
      status := 0;
      msg := NoMessage;
    }

    /** `isCalculable`: a crude is calculable exactly when a database index
        is given. */
    method IsCalculable() returns (ok: bool)
      requires Valid()
      modifies this`status, this`msg
      ensures Valid()
      ensures ok <==> Given(kwargs.entries, indice)
      ensures status == (if ok then 1 else 0)
      ensures msg == (if ok then NoMessage else UndefinedPetrol)
    {
      if Given(kwargs.entries, indice) {
        status := 1;
        msg := NoMessage;
        ok := true;
      } else {
        status := 0;
        msg := UndefinedPetrol;
        ok := false;
      }
    }

    /** The start of `calculo`: the crude reads the database row its index
        selects, stores the SG derived from the row's API gravity with the
        row's name, sulphur, nitrogen and viscosity and the boiling point
        `tb` estimated from them, marks itself as characterised by route 1
        and runs the fraction's gravity and refraction blocks
        (`CrudeCalculo`). The database is not part of the model: the row is
        the parameter `row`. An API gravity of -131.5 raises before anything
        is stored. */
    method Calculo(row: Row, tb: real, iEstimate: real) returns (outcome: Result<Petroleum.Characterisation>)
      requires Valid()
      modifies this`definicion, kwargs
      ensures Valid()
      ensures outcome == CrudeCalculo(old(kwargs.entries), row, tb, iEstimate)
      ensures kwargs.entries ==
        if row.api != -131.5 then Stored(old(kwargs.entries), row, SGFromApi(row.api).value, tb)
        else old(kwargs.entries)
      ensures definicion == if row.api != -131.5 then 1 else old(definicion)
    {
      var kw := kwargs.entries;
      outcome := CrudeCalculo(kw, row, tb, iEstimate);
      var sg := SGFromApi(row.api);
      if sg.Ok? {
        definicion := 1;
        StoredKeepsWellFormed(kw, row, sg.value, tb);
        kwargs.entries := Stored(kw, row, sg.value, tb);
      }
    }

    /** `__call__(**kwargs)`: the keywords are merged into the shared
        dictionary and a calculable crude runs `calculo`. */
    method Call(passed: Kwargs<CrudeKey>, row: Row, tb: real, iEstimate: real)
      returns (outcome: Option<Result<Petroleum.Characterisation>>)
      requires Valid() && Conforms(passed)
      modifies this, kwargs
      ensures Valid()
      ensures received == (old(received) || passed != map[])
      ensures outcome.Some? <==> Given(Update(old(kwargs.entries), passed), indice)
      ensures outcome.Some? ==> outcome.value == CrudeCalculo(Update(old(kwargs.entries), passed), row, tb, iEstimate)
      ensures kwargs.entries ==
        if outcome.Some? && row.api != -131.5
        then Stored(Update(old(kwargs.entries), passed), row, SGFromApi(row.api).value, tb)
        else Update(old(kwargs.entries), passed)
      ensures definicion == if outcome.Some? && row.api != -131.5 then 1 else old(definicion)
      ensures status == (if outcome.Some? then 1 else 0)
      ensures msg == (if outcome.Some? then NoMessage else UndefinedPetrol)
    {
      UpdateKeepsWellFormed(kwargs.entries, passed);
      kwargs.entries := Update(kwargs.entries, passed);
      if passed != map[] {
        received := true;
      }
      var calculable := IsCalculable();
      outcome := None;
      if calculable {
        var result := Calculo(row, tb, iEstimate);
        outcome := Some(result);
      }
    }
  }
}
