# Petroleum fractions and shortcut distillation in pychemqt: a Dafny model

This project models the discrete and exactly rational core of two pychemqt
modules.

From `lib/petro.py`:

- **The petroleum fraction object `Petroleo`.** Its keyword dictionary is a
  class attribute, so every instance shares it. `__call__` merges new
  keywords into that dictionary. `isCalculable` derives the flags `hasSG`,
  `hasRefraction` and `hasCurve`, then picks one of nine characterisation
  routes by a fixed priority order and sets `status` and `msg`.
- **The gravity and refraction blocks of `calculo`.** SG and API gravity
  follow from whichever is given; n and the Huang parameter I follow from
  whichever is given. When neither is given, a correlation estimate is
  used. The SG and I correlations only cover some routes and return None
  on the others; arithmetic on that None raises a `TypeError`.
- **The crude-oil object `Crudo`.** It keeps its own shared copy of the
  dictionary. It is calculable once a database index is given. Its
  `calculo` stores the database row's values and runs the fraction
  blocks with `hasSG` set and `hasRefraction` clear.
- **The unit and correlation helpers:**
  - Saybolt and furol viscosities, and conversions to and from kinematic
    viscosity;
  - the Sarem and Gopal Z-factor tables;
  - the Baker–Swerdloff base surface tension;
  - natural-gas pseudo-critical properties with the Carr–Kobayashi–Burrows
    correction;
  - the aromatic fraction `xa = 1 - xp - xn`.

From `equipment/distillation.py`:

- **`Flash` and `Tower` availability checks.** These decide whether a drum
  or column and its cost can be computed. The flash drum's weight uses a
  head-factor table, which is also modelled.
- **The FUG shortcut column `ColumnFUG`:**
  - its ordered input checks and the McCabe–Thiele availability flag;
  - the cleaning of the two mutually exclusive reflux specifications;
  - the initial split of every feed component between distillate and
    bottoms;
  - one Fenske redistribution pass;
  - the normalisation of product compositions;
  - the split of the trays around the feed stage.

Modelling conventions:

- Python keyword dictionaries are Dafny maps from one key type per class to
  a `Value`: nothing, a number, a text, a list or a stream. Python
  truthiness is the predicate `Common.Truthy`.
- The shared class dictionary of `Petroleo` and of `Crudo` is an
  `InputTable` object that several instances reference. `Flash` and
  `ColumnFUG` also declare their dictionaries at class level, but their
  base class `equipment` is not part of this model; they are assumed to
  give each instance its own dictionary, held in a field of the object.
- Objects whose fields change in place (`Petroleo`, `Crudo`, `Flash`,
  `ColumnFUG`) are Dafny classes. Their methods carry `modifies` clauses
  and state the whole new state.
- An exception the code raises becomes `Result.Err` with a `Fault`:
  - division by zero;
  - a name the code never binds;
  - a negative number raised to the power 0.5;
  - a viscosity type outside the table;
  - arithmetic on None.
- Loops that build lists (the initial split, a Fenske pass, the Sarem double
  sum) are methods with loop invariants. The formulas they compute are
  functions with named results.

One behaviour of the source is modelled as written and documented rather
than corrected. In `calculo`, the branch that derives SG from a Watson
factor and a boiling point (lib/petro.py:1359) tests the bare name `Kw`
before `Tb`. `Kw` is never assigned in `calculo` (only `self.kwargs["Kw"]`
exists), so evaluating the condition raises a `NameError` before `Tb`, a
local of `calculo`, is read. So whenever `hasSG` holds only because of the
`Kw` and `Tb` keywords, the calculation fails.
`Petroleum.GravityOf` returns `Err(UndefinedName)` there, and
`Petroleum.WatsonGravityFails` characterises exactly the inputs that reach it.

## Model

| member | source | states |
|---|---|---|
| Common.Update | lib/petro.py:1154 | `dict.update`: the result has the union of both key sets, every passed key holds its passed value, and every other key keeps its old value |
| Petroleum.Defaults | lib/petro.py:1114-1141 | the initial class dictionary holds every keyword at its default (empty name, zero numbers, empty curves); it is well formed, and none of its values is truthy |
| Petroleum.Select | lib/petro.py:1177-1194 | the route number chosen from the known inputs is between 0 and 9 |
| Petroleum.Route | lib/petro.py:1172-1194 | the route of a dictionary is between 0 and 9 |
| Petroleum.RouteIsFirstRule | lib/petro.py:1177-1197 | a nonzero route's rule holds, and every earlier rule in the order Tb+SG, M+SG, Tb+refraction, M+refraction, Tb+CH, M+CH, v100+refraction, Nc, curve fails; route 0 means that no rule holds |
| Petroleum.RouteIgnoresSD | lib/petro.py:1174 | setting a simulated-distillation curve SD changes neither `hasCurve` nor the route |
| Petroleum.GravityOf | lib/petro.py:1352-1364 | SG takes precedence over API, with API = 141.5/SG − 131.5. Given API alone, it fails exactly when API = −131.5, and otherwise keeps that API. The Kw+Tb branch fails with an unbound name. Without the flag, SG is the correlation estimate, which may be None, and API stays unassigned |
| Petroleum.GravityConsistent | lib/petro.py:1352-1358 | any API the gravity block returns comes with an SG, and converts back to it |
| Petroleum.WatsonGravityFails | lib/petro.py:1352-1364 | with the flags derived from the dictionary, the gravity block fails without API given exactly when Kw and Tb are given and neither SG nor API is |
| Petroleum.RefractionFromI | lib/petro.py:1394-1398 | from I, n² = (1+2I)/(1−I) is found exactly when that quotient is defined and non-negative |
| Petroleum.RefractionOf | lib/petro.py:1389-1398 | n takes precedence over I, with I = (n²−1)/(n²+2); otherwise the given I is used, or the estimate when the flag is clear, and an estimate of None fails with a TypeError. The returned I and n² always satisfy the reverse formula |
| Petroleum.RefractionUnaffectedBySG | lib/petro.py:1389-1398 | storing an SG does not change the refraction block's outcome |
| Petroleum.Characterise | lib/petro.py:1352-1398 | succeeds exactly when both the gravity and the refraction blocks do; a gravity failure is reported first, then a refraction failure; on success it holds both results |
| Petroleum.CurveRoutesLackRefraction | lib/petro.py:1596-1604 | on routes 8 and 9 without n or I, the I correlation gives None and the calculation fails; once the gravity block succeeds, the failure is the TypeError |
| Petroleum.SGEstimateDomain | lib/petro.py:1496-1512 | without a gravity keyword, SG is None on routes 8 and 9 unless Riazi–Alsahhaf is preferred and M is given; on routes 3 to 7 it is the correlation's value |
| Petroleum.EstimatedRefraction | lib/petro.py:1596-1604 | on routes 1, 2, 5 and 6 without n or I, the refraction comes from the correlation's value of I |
| Petroleum.CharacteriseFromStoredSG | lib/petro.py:1352-1398 | with `hasSG` set on a stored nonzero SG and `hasRefraction` clear, the outcome is that SG, its API and the refraction from a numeric I estimate |
| Petroleum.Petroleo.constructor | lib/petro.py:1143-1146 | a fraction on the given shared dictionary, with the class-level attribute values `_bool` false, route 0, status 0 and no message: the state `__init__` starts from before it runs `__call__` |
| Petroleum.Petroleo.DeriveFlags | lib/petro.py:1172-1174 | `hasSG` holds iff SG, API, or both Kw and Tb are truthy; `hasRefraction` iff n or I; `hasCurve` iff D86, TBP, EFV or D1160 |
| Petroleum.Petroleo.ChooseRoute | lib/petro.py:1177-1198 | `definicion` becomes the first matching route, and status and message are untouched. When none matches, `definicion` keeps its previous value, and status becomes 0 with "Insufficient input" |
| Petroleum.Petroleo.IsCalculable | lib/petro.py:1160-1202 | flags as derived; `definicion` is the route or its old value; the object is calculable iff `definicion` is nonzero, so an earlier route survives; status 1 with no message, or 0 with "Insufficient input" |
| Petroleum.Petroleo.Call | lib/petro.py:1153-1158 | the shared dictionary becomes the old one updated with exactly the passed keys; `_bool` is set only when something is passed; the three flags, status, message and route follow `isCalculable`; `calculo` runs exactly when calculable, with the correlation estimates the route admits |
| Petroleum.SharedDictionaryExample | lib/petro.py:1153-1158 | a second fraction that was never called becomes calculable by route 1 through the keywords passed to the first |
| Petroleum.RouteOfGiven | lib/petro.py:1177-1178 | Tb and SG given on the defaults select route 1 |
| Petroleum.RouteOfNothingGiven | lib/petro.py:1195-1197 | a dictionary with nothing truthy matches no route |
| Petroleum.RouteOfCleared | lib/petro.py:1195-1197 | zeroing Tb and SG, when nothing else is given, leaves no route |
| Petroleum.ClearAfterRoute | lib/petro.py:1195-1202 | after the inputs are cleared no route matches, yet the object still reports itself calculable by route 1 with status 1 and no message |
| PetroConversions.ApiFromSG | lib/petro.py:1355 | API = 141.5/SG − 131.5, stated as SG·(API+131.5) = 141.5 |
| PetroConversions.SGFromApi | lib/petro.py:1356-1358 | fails with a division by zero exactly at API = −131.5; otherwise returns a nonzero SG with SG·(API+131.5) = 141.5 |
| PetroConversions.ApiSGRoundTrip | lib/petro.py:1353-1358 | converting SG to API and back gives the same SG |
| PetroConversions.SGApiRoundTrip | lib/petro.py:1353-1358 | converting API to SG and back gives the same API |
| PetroConversions.PositiveGravityCorrespondence | lib/petro.py:1355 | a positive SG gives an API above −131.5 |
| PetroConversions.HuangI | lib/petro.py:1392 | I = (n²−1)/(n²+2) is below 1 for every n |
| PetroConversions.NSquaredFromI | lib/petro.py:1395 | (1+2I)/(1−I) fails exactly at I = 1 or when it is negative; otherwise it is a non-negative n² |
| PetroConversions.HuangIBounds | lib/petro.py:1392 | for n ≥ 1, I lies in [0, 1) |
| PetroConversions.HuangRoundTrip | lib/petro.py:1390-1395 | the reverse formula applied to I(n) gives back n² |
| PetroConversions.HuangInverse | lib/petro.py:1390-1395 | any n whose square is the n² recovered from I maps back to that I |
| PetroConversions.AromaticFraction | lib/petro.py:1889 | xp + xn + xa = 1, and xa lies in [0, 1] when xp and xn are non-negative with sum at most 1 |
| Viscosity.SayboltEquivalent | lib/petro.py:451 | the 100 °F Saybolt equivalent is defined and positive for every non-negative kinematic viscosity |
| Viscosity.SUS | lib/petro.py:446-453 | the Saybolt universal viscosity at t °F is the temperature factor times the 100 °F equivalent |
| Viscosity.SUSScalesFromReference | lib/petro.py:451-452 | at 100 °F SUS equals the equivalent, and at any t it is that value scaled by the temperature factor |
| Viscosity.SUSPositive | lib/petro.py:451-452 | SUS is positive for a non-negative viscosity when the temperature factor is positive |
| Viscosity.SUF | lib/petro.py:455-463 | the Saybolt furol viscosity at either temperature is positive for every non-negative viscosity |
| Viscosity.ToKinematicParameters | lib/petro.py:477-488 | coefficients exist exactly for types 1 to 6, and the third one is positive |
| Viscosity.KinematicFormula | lib/petro.py:491 | a·μ − b·μ/(μ³+c) fails exactly when μ³ + c = 0 |
| Viscosity.ToKinematic | lib/petro.py:465-491 | an unknown type fails with an unbound coefficient list exactly outside 1 to 6; types 1 to 5 always succeed for μ ≥ 0; type 6 succeeds when its temperature correction is positive |
| Viscosity.SayboltAt100Uncorrected | lib/petro.py:487-491 | a Saybolt universal value at 100 °F goes through the formula uncorrected |
| Viscosity.FromKinematicParameters | lib/petro.py:501-506 | coefficients exist exactly for types 1 to 3 |
| Viscosity.FromKinematic | lib/petro.py:493-508 | fails exactly for types outside 1 to 3; otherwise the result is positive for every non-negative kinematic viscosity |
| Viscosity.RedwoodTwoIsTenthOfOne | lib/petro.py:501-508 | the Redwood No. 2 time is exactly a tenth of the Redwood No. 1 time, and both are defined together |
| ZFactor.PressureBand | lib/petro.py:598-626 | the first-match bands of Pr are Pr ≤ 1.2, 1.2 < Pr < 2.8, 2.8 ≤ Pr < 5.4 and Pr ≥ 5.4, so boundaries go to the lower band |
| ZFactor.TemperatureBand | lib/petro.py:599-606 | the first-match rows of Tr are Tr ≤ 1.2, 1.2 < Tr < 1.4, 1.4 ≤ Tr < 2.0 and 2.0 ≤ Tr < 3.0; there is no row for Tr ≥ 3 |
| ZFactor.ZGopal | lib/petro.py:596-626 | no value exactly when Pr < 5.4 and Tr ≥ 3; the high-pressure formula for Pr ≥ 5.4; otherwise the linear cell of the band and row selected |
| ZFactor.ZGopalBoundaryGoesLow | lib/petro.py:598-611 | at Tr = Pr = 1.2 the first cell applies, and it differs from both neighbouring cells there |
| ZFactor.SaremX | lib/petro.py:581 | x = (2Pr−15)/14.8 lies in [−1, 1] exactly for Pr in [0.1, 14.9] |
| ZFactor.SaremY | lib/petro.py:582 | y = (2Tr−4)/1.9 lies in [−1, 1] exactly for Tr in [1.05, 2.95] |
| ZFactor.ZSarem | lib/petro.py:579-594 | the double loop accumulates the full 6×6 sum of A[i][j]·P_i(x)·P_j(y) |
| SurfaceTension.AnchorGap | lib/petro.py:2215-2216 | s68 − s100 = 1.5 for every API |
| SurfaceTension.BaseTension | lib/petro.py:2217-2222 | equals s68 for t ≤ 68 °F and s100 for t ≥ 100 °F; strictly between, it is the linear interpolation ((100 − t)·s68 + (t − 68)·s100)/32; always in [s100, s68] |
| SurfaceTension.BaseTensionNonIncreasing | lib/petro.py:2217-2222 | the base tension does not increase with temperature |
| SurfaceTension.BaseTensionContinuous | lib/petro.py:2217-2222 | the base tension is continuous at 68 °F and 100 °F: within 64ε/3 degrees of an anchor it lies within ε of that anchor's value |
| NaturalGas.CarrKobayashiBurrows | lib/petro.py:2847-2850 | no impurity leaves the point unchanged; CO2 and N2 lower tpc; H2S raises tpc and ppc; N2 alone lowers both |
| NaturalGas.CarrKobayashiBurrowsAdditive | lib/petro.py:2847-2850 | two corrections in a row equal one correction by the summed fractions |
| NaturalGas.CarrKobayashiBurrowsInverse | lib/petro.py:2847-2850 | the correction for the opposite fractions undoes a correction |
| NaturalGas.NewGas | lib/petro.py:2814-2837 | M = 28.96·SG; with no impurities the wet or dry base quadratics; N2 applies the Carr–Kobayashi–Burrows shift before any Wichert–Aziz correction, which applies when CO2 + H2S ≠ 0 |
| NaturalGas.NitrogenOnlyShift | lib/petro.py:2827-2850 | with only nitrogen, tpc drops by 250·N2 and ppc by 170·N2 from the base values |
| NaturalGas.BaseTemperatureIncreasing | lib/petro.py:2827-2832 | for SG in [0, 2] the base pseudo-critical temperature increases with SG, for wet and dry gas |
| Crude.Defaults | lib/petro.py:2442-2449 | every fraction keyword holds the fraction's class default; the crude's own keys hold index 0, no fractions, no gas/oil ratio, no gas and no water; well formed and nothing truthy |
| Crude.Stored | lib/petro.py:2484-2489 | the row's name, the derived SG, the estimated Tb and the row's S, N and v100 are stored under their keys; every other key keeps its value |
| Crude.CrudeCalculo | lib/petro.py:2474-2490 | fails with a division by zero at API = −131.5; otherwise succeeds exactly when n² can be found from the I estimate, which route 1 admits; SG = 141.5/(API+131.5) with that API kept, and refraction from the estimate alone |
| Crude.CrudeIgnoresRefractionKeywords | lib/petro.py:2454-2455 | since `hasRefraction` is fixed false, the n and I keywords never change the crude's outcome |
| Crude.Crudo.constructor | lib/petro.py:2450-2455 | a crude on the given shared dictionary, with `_bool` false, route 0, status 0 and no message, before the inherited `__init__` runs `__call__` |
| Crude.Crudo.IsCalculable | lib/petro.py:2464-2471 | calculable iff an index is given; status 1 with no message, or 0 with "Undefined petrol" |
| Crude.Crudo.Calculo | lib/petro.py:2474-2490 | the outcome is the crude characterisation; the row's name, SG, Tb, S, N and v100 are stored; route 1 is set (unless the SG division fails first) |
| Crude.Crudo.Call | lib/petro.py:2457-2462 | the merge and `_bool` as for a fraction; the calculation runs exactly when an index is given, with its stored keys, route and outcome as above |
| FlashDrum.Flash.IsCalculable | equipment/distillation.py:96-109 | the cost flag holds iff all six cost keywords are nonzero; the drum is calculable iff an input stream is given, otherwise status 0 with "undefined input" |
| FlashDrum.HeadFactor | equipment/distillation.py:155-177 | a flat head has no factor; every factor lies in [1.09, 1.70]; the ellipsoidal, hemispherical and bumped tables as given |
| FlashDrum.HeadFactorNonIncreasing | equipment/distillation.py:159-177 | for a fixed head type, the factor does not increase with the diameter-to-thickness ratio |
| FlashDrum.HeadFactorDefaultsToHemispherical | equipment/distillation.py:171-177 | any head type other than 0, 2 and 3 uses the hemispherical column |
| ShortcutColumn.FirstFailure | equipment/distillation.py:551-581 | the index of the first failing check in the order input, reflux, LKsplit, HKsplit, LK ≠ −1, HK ≠ −1, HK > LK; every earlier check passes; 0 iff all pass |
| ShortcutColumn.CalculableImpliesMcCabe | equipment/distillation.py:545-581 | a column that passes all checks also has the McCabe–Thiele flag set |
| ShortcutColumn.McCabeIgnoresInput | equipment/distillation.py:545-549 | the McCabe–Thiele flag does not depend on the input stream |
| ShortcutColumn.EffectiveReflux | equipment/distillation.py:659-660 | R wins when given; otherwise R/Rmin is used; unspecified iff neither is given |
| ShortcutColumn.CleanAsWritten | equipment/distillation.py:534-539 | passed keys take their values; R/Rmin is zeroed when R alone is passed; with neither reflux key passed R/Rmin is kept; R is never reset |
| ShortcutColumn.CleanAsWrittenReflux | equipment/distillation.py:534-539 | after the cleaning as written, a passed R is in force; a passed R/Rmin is in force only when no R is stored; with neither passed the old specification stays |
| ShortcutColumn.CleanAsWrittenKeepsOldRatio | equipment/distillation.py:534-539 | with R = 2 stored, passing R/Rmin = 1.5 leaves R = 2 in force |
| ShortcutColumn.CleanCorrected | equipment/distillation.py:534-539 | as written, except that passing R/Rmin alone zeroes R; with neither reflux key passed both are kept |
| ShortcutColumn.CleanCorrectedLastSpecificationWins | equipment/distillation.py:534-539 | after cleaning, the reflux specification just passed is the one in force |
| ShortcutColumn.CleanVersionsAgreeOtherwise | equipment/distillation.py:534-539 | the two cleanings agree unless R/Rmin is passed without R |
| ShortcutColumn.ColumnFUG.TowerIsCalculable | equipment/distillation.py:285-294 | the cost flag is false for a packed column (`tipo` nonzero) without a unit packing cost, and otherwise holds iff Di, h, W and Wb are nonzero; nothing else changes |
| ShortcutColumn.ColumnFUG.IsCalculable | equipment/distillation.py:541-585 | tower cost flag; McCabe–Thiele flag; calculable iff every check passes; otherwise status 0 with the message of the first failing check |
| ShortcutColumn.ColumnFUG.CleanOldValues | equipment/distillation.py:534-539 | the dictionary becomes the cleaning as written of the old one; only the dictionary changes |
| ComponentSplit.Divided | equipment/distillation.py:624-625 | each entry divided by the total, entry by entry |
| ComponentSplit.SumDivided | equipment/distillation.py:624-625 | the divided entries sum to the original sum over the total |
| ComponentSplit.Composition | equipment/distillation.py:624-625 | fails exactly for a nonempty list with zero sum; otherwise each fraction times the total is its flow and the fractions sum to 1 |
| ComponentSplit.DividedByTotalSumsToOne | equipment/distillation.py:624-625 | dividing by the list's own nonzero sum gives fractions that sum to 1 |
| ComponentSplit.CompositionBounds | equipment/distillation.py:624-625 | with non-negative flows and a positive total, every fraction lies in [0, 1] |
| ComponentSplit.InitialSplit | equipment/distillation.py:600-618 | one bottoms and one distillate entry per component; each feed is split exactly with the distillate share the rules give |
| ComponentSplit.InitialSplitKeys | equipment/distillation.py:604-609 | the light key sends LKsplit of its feed to the distillate; the heavy key keeps HKsplit in the bottoms, whatever their K values |
| ComponentSplit.InitialSplitByVolatility | equipment/distillation.py:610-615 | a non-key more volatile than LK goes wholly to the distillate; one (otherwise) less volatile than HK goes wholly to the bottoms |
| ComponentSplit.InitialSplitNonNegative | equipment/distillation.py:600-618 | non-negative feeds and splits in [0, 1] give non-negative entries |
| ComponentSplit.FenskeShare | equipment/distillation.py:645-646 | f/(1+φ) and f·φ/(1+φ) add up to f, their ratio is φ, and both are non-negative for f, φ ≥ 0 |
| ComponentSplit.FenskeComponent | equipment/distillation.py:644-646 | a non-key's bottoms and distillate add up to its feed, d·b_HK = d_HK·α^Nmin·b, and both are non-negative for a non-negative feed |
| ComponentSplit.FenskeStep | equipment/distillation.py:637-646 | fails with a division by zero exactly when the previous heavy-key bottoms is 0 and a non-key is present; otherwise the keys keep their flows and each non-key is redistributed |
| ComponentSplit.FenskePassOutcome | equipment/distillation.py:639-646 | after a pass the keys are unchanged; each non-key conserves its feed with the Fenske ratio and stays non-negative; a split that conserved every feed still does |
| ComponentSplit.FeedStage | equipment/distillation.py:674-676 | fails exactly when ratio = −1; otherwise Ns + Nr = N, Nr = ratio·Ns, the feed stage is Ns + 1, and Ns lies in [0, N] for non-negative inputs |

## Left out

- Transcendental correlations are parameters of the model, not
  computations. They use exp, log or non-integer powers:
  - the values `sgValue` and `iValue` of the SG and I correlations, on the
    routes where they return a number, and the preference between the two
    SG correlations (`alsahhaf`);
  - Crudo's boiling point `tb`, from an exponential of v100;
  - the Wichert–Aziz correction `wichertAziz`;
  - Gopal's Pr ≥ 5.4 value `zHigh`;
  - the Fenske factors `alfaPow`;
  - the Fenske/Kirkbride feed `ratio`.
- The remaining correlations of `lib/petro.py` are not modelled. This
  covers Riazi–Daubert, Twu, Lee–Kesler, vapour pressure, enthalpy,
  viscosity, the Baker–Swerdloff pressure factor and the PNA solvers.
- Petroleum.RefractionOf: the square root `n = (...)**0.5` is not taken,
  so the model returns n². A negative quotient is reported as a failure
  rather than Python 2's `ValueError`.
- The rest of `Petroleo.calculo` is not modelled: Tb, M, Nc, the
  `prop_Ahmed` route and the distillation-curve branch.
- Crude.Crudo.Calculo: the database `crudo` is not part of this model; the
  selected row is a parameter. The vanadium and other properties stored
  after the inherited calculation are not modelled.
- Unit conversion through `unidades` is not modelled. Temperatures are
  taken directly in °F (SUS, Baker–Swerdloff) and the tables in °R/psi.
- Keyword names outside each class's dictionary are not representable,
  because keys are enumerations. A keyword the dictionary never declares
  cannot be passed.
- ShortcutColumn.EffectiveReflux: the Underwood minimum reflux that turns
  R/Rmin into a ratio is not modelled.
- The Fenske loop `while True ... res < 1e-10`: only one pass is modelled
  (FenskeStep). Convergence is a floating-point tolerance that is not
  modelled.
- Costs, sizing, weights other than the head factor, McCabe–Thiele and the
  Gilliland and Underwood equations are not modelled.
- Qt translation, preferences (`ConfigParser`) and the user interface are
  not modelled. Messages are enumeration values.
- Petroleum.Petroleo.constructor / Crude.Crudo.constructor: `__init__`
  (lib/petro.py:1148-1151) always ends by running `__call__` with its
  keywords. Here construction is `new` followed by `Call`; the
  constructors alone give the state before that call, not the status,
  route and calculation `__init__` leaves.
- Petroleum.SGEstimate / Petroleum.IEstimate: the correlations read
  `self.Tb`, `self.M`, `self.I`, `self.CH` and `self.v100`, which `calculo`
  assigns only later in the same call (lib/petro.py:1366-1425). On a fresh
  object that is an `AttributeError` unless the base class defines them,
  and on a later call the correlations use the previous call's values. The
  model takes the correlations' values as the free parameters `sgValue`
  and `iValue` and does not capture either effect.
- ComponentSplit.InitialSplit / ComponentSplit.FenskeStep: the key indices
  must lie inside the component list and the heavy-key flows must be
  non-negative. `isCalculable` (equipment/distillation.py:560-581) does
  not check this: an index past the list raises `IndexError`, and a
  recovery outside [0, 1] can make a Fenske denominator zero. Such inputs
  are outside the meaning of a recovery and are not modelled.
- NaturalGas.NewGas: `Natural_Gas()` with its default `SG=None` raises a
  `TypeError` in the base quadratics (lib/petro.py:2814-2832); the model
  takes a numeric SG.
- Floating-point rounding is not modelled; all arithmetic is exact over
  the reals.
- Numeric keywords are taken as floats. Under Python 2 an integer keyword
  makes some divisions integer divisions: `n=2` gives
  I = (4 − 1)/(4 + 2) = 0 at lib/petro.py:1392, where the model gives 0.5.
- Petroleum.SGEstimateDomain: a None SG is carried in the result; the
  later steps of `calculo` that fail on it are not part of this model.

## Findings

| source | as written | input that shows it | evidently intended | confidence | as-written member | corrected member |
|---|---|---|---|---|---|---|
| equipment/distillation.py:537-538 | passing only `R_Rmin` resets `R_Rmin` (which the update then overwrites) and leaves the old `R` in place; `calculo` then uses that R and ignores the new R/Rmin | stored R = 2, then `cleanOldValues(R_Rmin=1.5)` | passing `R_Rmin` resets `R`, so the last reflux specification given is the one used | not executed | ShortcutColumn.CleanAsWrittenKeepsOldRatio | ShortcutColumn.CleanCorrectedLastSpecificationWins |

`ShortcutColumn.ColumnFUG.CleanOldValues` behaves as written
(`CleanAsWritten`). The intended behaviour is `CleanCorrected`, and
`CleanVersionsAgreeOtherwise` shows the two differ only when R/Rmin is
passed without R.
