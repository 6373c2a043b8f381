# Port calibration: one-port OSL and two-port TOSL error models

This project models the core of `port_calibration`, a small library for calibrating a
vector network analyser. All arithmetic is on exact complex numbers. The library does
two things:

- **One-port calibration (Open, Short, Load).** Every frequency point has three error
  terms: the directivity D, the source match S and the reflection tracking R. A
  reflection γ is read as `m = D + R γ / (1 − S γ)`. Measuring three standards of known
  reflection gives a 3 × 3 linear system per point. `calculate_error_matrix` solves it,
  and the terms are read off the solution `x` as `D = x1`, `S = x2` and
  `R = x0 + x1 x2`. `calibrate_measure` inverts the model:
  `γ = (m − D) / (R + S (m − D))`.
- **Two-port calibration (Through, Open, Short, Load).** Twelve error terms per point,
  found in three steps:
  1. a one-port calibration of each port gives e00, e11, e10e01 and e33', e22', e23'e32';
  2. the load transmissions give the leakage terms e30 and e03';
  3. the through readings give the load match e22 and the transmission trackings
     e10e32 and e23'e01'. Step 3 also computes the reverse load match e11', but only
     into a local variable: the field keeps its initial 0 (see "## Findings").

  `calc_D` and `calc_S11`, `calc_S21`, `calc_S22`, `calc_S12` de-embed raw readings into
  corrected S-parameters.

Modules:

- `wrappers.dfy` (`Wrappers`): `Option` and `Result`.
- `complex.dfy` (`ComplexNumbers`): exact complex arithmetic over `real`, with field
  lemmas. Division requires a nonzero divisor.
- `linalg.dfy` (`LinearAlgebra`): 3 × 3 matrices, the determinant, and Cramer's rule with
  its uniqueness.
- `one_port.dfy` (`OnePort`): the error model and its inverse, the per-point solve, the
  sweep of solves, and the class `OnePortCalibration`.
- `two_port_terms.dfy` (`TwoPortTerms`): the twelve terms of one point, the step 3
  formulas, the de-embedding formulas, and the through identities.
- `two_port.dfy` (`TwoPort`): the state of the calibration object, the three steps as
  state transformers, exact recovery of a sweep, and the class `TwoPortCalibration`.

The code is modelled as written. Two places where it disagrees with its own test and
with the symmetry of the error model are listed under "## Findings". For each one the
model gives both the as-written version and a corrected one, with the intended property
proved about the corrected one.

## Model

| member | source | states |
|---|---|---|
| OnePort.Measured | tests/test_one_port_calibration.py:6-7 | The reading m of a standard with reflection g through terms D, S, R satisfies (m − D)(1 − S g) = R g. |
| OnePort.Corrected | port_calibration/one_port.py:47-49 | The corrected reflection g satisfies g · (R + S (m − D)) = m − D. |
| OnePort.CorrectMeasured | port_calibration/one_port.py:45-51 | With R ≠ 0, correcting the reading of any reflection g gives back g, and the denominator is nonzero. |
| OnePort.MeasuredCorrected | port_calibration/one_port.py:45-51 | With R ≠ 0, the model reading of the corrected value of m is m again. |
| OnePort.CorrectAllMeasuredAll | tests/test_one_port_calibration.py:34-54 | Over a whole sweep, correcting the readings of the reflections g returns g point by point, as the test of calibrate_measure expects. |
| OnePort.MeasuredAllCorrectAll | port_calibration/one_port.py:45-51 | The converse round trip over a sweep: re-measuring the corrected sweep gives back the readings. |
| OnePort.TermsOf | port_calibration/one_port.py:40-43 | D = x1, S = x2, R = x0 + x1 x2 are read off the solution vector. Mapping back to the unknowns (x0 = R − D S) returns x, so no information is lost. |
| OnePort.TermsOfUnknowns | port_calibration/one_port.py:40-43 | Reading terms off the unknowns of t gives back t: the two maps are inverse. |
| OnePort.RowMeaning | port_calibration/one_port.py:56-63 | A row [g, 1, g m] · x = m of the system holds iff m is the model reading of the terms read off x. |
| OnePort.SolvePoint | port_calibration/one_port.py:56-64 | A point solves iff its system's determinant is nonzero. The solved terms reproduce each of the three standard readings. |
| OnePort.SolvePointUnique | port_calibration/one_port.py:56-64 | If the readings come from terms t and the system is regular, the solve returns exactly t. |
| OnePort.OnePortCalibration.CalculateErrorMatrix | port_calibration/one_port.py:33-38 | The result exists iff det C ≠ 0, and then C x = V (the exact solve; see "Left out" for the normal equations). |
| OnePort.ErrorMatrixOfSolution | port_calibration/one_port.py:33-38 | For regular C, any x with C x = V is what the solve returns. |
| OnePort.ErrorMatrixSingular | port_calibration/one_port.py:33-38 | For singular C the solve fails: the inversion raises. |
| OnePort.DefaultRegular | port_calibration/one_port.py:12-14 | With the default ideals (open 1, short −1, load 0), distinct open and short readings give a regular system, solved in closed form. |
| OnePort.DefaultSingular | port_calibration/one_port.py:12-14 | With the default ideals, equal open and short readings make the system singular. |
| OnePort.DefaultSolves | port_calibration/one_port.py:56-63 | The closed form satisfies the three rows of the default system. |
| OnePort.DefaultReadingsDistinct | tests/test_one_port_calibration.py:15-17 | Terms with R ≠ 0 and S ≠ ±1 give distinct open and short readings. |
| OnePort.DefaultExactRecovery | tests/test_one_port_calibration.py:10-31 | With the default ideals, the readings of such terms solve back to exactly those terms. |
| OnePort.FirstSingular | port_calibration/one_port.py:55-64 | The loop's stopping point: every earlier point solves, and the point it names (if any) is singular. |
| OnePort.CalibrationUpTo | port_calibration/one_port.py:54-64 | The table after k passes has k rows, and row j is the solution of point j. |
| OnePort.Calibration | port_calibration/one_port.py:53-67 | For a sweep with no singular point, the table has one row per load reading, and row j is the solve of point j. |
| OnePort.SolutionOfPoint | port_calibration/one_port.py:56-64 | The solve of point i is the error matrix of the system built from entry i of the three readings. |
| OnePort.SingularStops | port_calibration/one_port.py:55-64 | A singular point reached by the loop is the first singular point. |
| OnePort.RegularContinues | port_calibration/one_port.py:55-64 | A regular point reached by the loop extends the table by exactly its own row. |
| OnePort.PointsIndependent | port_calibration/one_port.py:55-64 | Point i depends only on entry i of the three readings. |
| OnePort.GeneratedReadings | tests/test_one_port_calibration.py:15-17 | The sweep of readings the three standards give through per-point terms covers the sweep. |
| OnePort.CalibrationRecovers | tests/test_one_port_calibration.py:10-31 | For any ideals: readings generated from per-point terms, with every system regular, calibrate back to exactly those terms. |
| OnePort.DefaultRegularAt | port_calibration/one_port.py:12-14 | With the default ideals, R ≠ 0 and S ≠ ±1 make a point measurable and its system regular. |
| OnePort.CalibrationRecoversDefault | tests/test_one_port_calibration.py:10-31 | With the default ideals, a sweep of such terms is solvable and recovered exactly. |
| OnePort.OnePortCalibration.constructor | port_calibration/one_port.py:7-31 | Stores the readings and ideals (defaults 1, −1, 0). The result and the table start empty. |
| OnePort.OnePortCalibration.AppendErrorCoeffs | port_calibration/one_port.py:40-43 | Appends the terms read off x as one new row, and changes nothing else. |
| OnePort.OnePortCalibration.CalculateCalibration | port_calibration/one_port.py:53-67 | Reset, then one row per point. ok iff no point is singular. The table holds the solves of the points before the first singular one. |
| OnePort.OnePortCalibration.SolveNext | port_calibration/one_port.py:56-64 | One loop pass: a regular point extends the table to k + 1 rows; a singular one leaves it and reports it. |
| OnePort.OnePortCalibration.CalibrateMeasure | port_calibration/one_port.py:45-51 | None gives the assertion's failure and leaves the state unchanged. Otherwise returns and stores the pointwise correction; the table is unchanged. |
| TwoPortTerms.LoadMatch | port_calibration/two_port.py:120-121 | The load-match formula (m − D)/(m S − (D S − R)) is the one-port correction of m. |
| TwoPortTerms.ThroughReflectionMeasured | tests/test_two_port_calibration.py:24-25 | The test's through reflection equals the one-port model reading of the far port's load match. |
| TwoPortTerms.ThroughReading | tests/test_two_port_calibration.py:24-30 | The through readings S11 and S22 are the model readings of e22 through the port 1 terms and of e11' through the port 2 terms. |
| TwoPortTerms.LoadMatchRecovers | port_calibration/two_port.py:120-121 | For nonzero tracking, the load-match formula returns the load match the reading was taken with. |
| TwoPortTerms.TrackingRecovers | port_calibration/two_port.py:122 | (m − e30)(1 − e11 e22) returns the transmission tracking the through transmission was taken with. |
| TwoPortTerms.PortNormalised | port_calibration/two_port.py:137-138 | On the through: (m − D)/R = l X and 1 + S l X = X, with X = (n − leakage)/tracking = 1/(1 − S l). |
| TwoPortTerms.ThroughRecovery | tests/test_two_port_calibration.py:101-104 | Per point, step 3's formulas on the through readings give back e22, e11', e10e32 and e23'e01', with nonzero denominators. |
| TwoPortTerms.ThroughNormalised | port_calibration/two_port.py:136-145 | On the through, the normalised transmissions X and Y are nonzero, and the port factors 1 + e11(…)/e10e01 and 1 + e22'(…)/e23'e32' reduce to X and Y. |
| TwoPortTerms.ThroughDeembeds | tests/test_two_port_calibration.py:106-114 | With the true terms, including e11', the through de-embeds to the ideal through: D ≠ 0, S11 = 0, S21 = 1, S12 = 1, and the mirrored S22 = 0. |
| TwoPortTerms.ThroughDeembedsWithoutE11R | port_calibration/two_port.py:126-129 | With e11' replaced by 0, the through de-embeds to S11 = 0, S12 = 1 and S21 = 1 − e22 e11'. S22 (line 167's formula) satisfies S22 · X = e11' · b, with b = 1 + e22 (sm22 − e00)/e10e01, so it is 0 iff e11' = 0 or b = 0. |
| TwoPortTerms.ThroughS22WithoutE11R | port_calibration/two_port.py:164-173 | With e11' left at 0 as calibrate leaves it, S22 of the through as written satisfies S22 · X = e11' · b. It is 0 iff e11' = 0 or b = 0. |
| TwoPortTerms.MatchedS22WithoutE11R | port_calibration/two_port.py:164-173 | For ports with no directivity or source match and unit trackings, and with e11' left at 0, S22 of the through is e11' (1 + e22 e11') instead of 0. |
| TwoPortTerms.ExampleS22WithoutE11R | port_calibration/two_port.py:164-173 | On ExampleTerms(h, q) with e11' left at 0, S22 of the through is q (1 + h q): 9/32 for h = 1/2, q = 1/4. |
| TwoPortTerms.WithoutE11RCounterexample | port_calibration/two_port.py:126-129 | If e22 and e11' are both nonzero, S21 of the through with e11' = 0 is not 1. |
| TwoPortTerms.S22AsWrittenVanishes | port_calibration/two_port.py:164-173 | For a table that holds the true e11' (which calibrate as written does not store), S22 of the through as written is 0 iff e11' = 0 or e22 (sm22 − e00) = e11 (sm11 − e00). |
| TwoPortTerms.S22Counterexample | port_calibration/two_port.py:167 | On a family with no directivity or source match and e22, e11' ≠ 0: the mirrored S22 is 0, but the S22 as written is not. |
| TwoPortTerms.ExampleTerms | port_calibration/two_port.py:126 | A hand-built witness for both findings: from two reals h and q, unit trackings, no leakage, e22 = h, e11' = q and all other terms 0. |
| TwoPortTerms.ExampleInS21Family | port_calibration/two_port.py:126 | For nonzero h, q the example terms meet the preconditions of WithoutE11RCounterexample. |
| TwoPortTerms.ExampleInS22Family | port_calibration/two_port.py:167 | For nonzero h, q with h q ≠ 1, the example terms are in the S22 counterexample family. |
| TwoPort.Report | port_calibration/two_port.py:61-75 | The report has exactly the twelve keys E00 … E23'E01'. |
| TwoPort.CalsReportsAll | port_calibration/two_port.py:61-75 | The report determines every field: two states with the same report are equal. |
| TwoPort.Step1Both | port_calibration/two_port.py:77-105 | When both one-port solves succeed, step 1 sets exactly the six one-port fields to the two tables and keeps the other six. |
| TwoPort.Step1Half | port_calibration/two_port.py:89-102 | When port 1 solves and port 2 does not, only the three port-1 fields are set: the failed solve stops the step. |
| TwoPort.ForwardLoadMatch | port_calibration/two_port.py:120-121 | Point by point, e22 is the one-port correction of the through S11 with the port-1 terms. |
| TwoPort.ReverseLoadMatch | port_calibration/two_port.py:125-128 | Point by point, the local e11_r is the one-port correction of the through S22 with the port-2 terms. |
| TwoPort.Step1SolvesForward | port_calibration/two_port.py:80-92 | When port 1 solves, e00, e11, e10e01 hold its one-port solve at every point. |
| TwoPort.Step1SolvesReverse | port_calibration/two_port.py:94-105 | When both solve, e33', e22', e23'e32' hold port 2's one-port solve at every point. |
| TwoPort.Step3ReadsOnly | port_calibration/two_port.py:116-129 | Step 3 reads only the one-port terms, the leakage terms and the through readings. It writes e22, e10e32 and e23'e01', and never e11'. |
| TwoPort.Step3Solves | port_calibration/two_port.py:116-129 | After step 3, e22 is the forward load match and e10e32, e23'e01' are the trackings from those readings; e11' is unchanged. |
| TwoPort.SolvedFrame | port_calibration/two_port.py:107-129 | Steps 2 and 3 leave the six one-port fields alone, so they keep the one-port solves. |
| TwoPort.CalibrateSolvesOnePorts | port_calibration/two_port.py:131-134 | After a successful calibrate, both ports hold their one-port solves, e30 = load S21 and e03' = load S12. |
| TwoPort.CalibrateSolvesThrough | port_calibration/two_port.py:131-134 | After a successful calibrate, the through terms solve the through equations. |
| TwoPort.CalibrateKeepsE11R | port_calibration/two_port.py:126 | Calibrate never changes e11', so after construction it stays the scalar 0. |
| TwoPort.CalibrateForgetsState | port_calibration/two_port.py:131-134 | After a successful calibrate, the result depends only on the inputs and on the earlier e11'. |
| TwoPort.CalibrateIdempotent | port_calibration/two_port.py:131-134 | Calibrating twice gives the same fields as calibrating once. |
| TwoPort.GeneratedInputs | tests/test_two_port_calibration.py:49-75 | The test's readings, generated from per-point terms, have the one-port readings of both ports, load transmissions equal to the leakage terms, and the through readings. |
| TwoPort.GeneratedOnePorts | tests/test_two_port_calibration.py:93-99 | On generated readings both solves succeed. Steps 1 and 2 store the true one-port and leakage terms of every point. |
| TwoPort.GeneratedThroughReady | port_calibration/two_port.py:116-129 | On generated readings, no step 3 denominator vanishes. |
| TwoPort.GeneratedForward | tests/test_two_port_calibration.py:101-102 | On generated readings step 3 returns the true e22 and e10e32 of every point. |
| TwoPort.GeneratedReverse | tests/test_two_port_calibration.py:103-104 | On generated readings step 3 computes the true e11' (as a local) and stores the true e23'e01' of every point. |
| TwoPort.GeneratedThrough | port_calibration/two_port.py:116-129 | Step 3 on generated readings yields the true table with e11' unchanged; the corrected step 3 yields the true table. |
| TwoPort.CalibrationRecoversTerms | tests/test_two_port_calibration.py:93-104 | Exact recovery from a new object: calibrate gives the true table except e11' = 0. The corrected calibrate gives all twelve true terms. |
| TwoPort.TableAt | tests/test_two_port_calibration.py:93-104 | The table of a sweep holds the terms of each point. |
| TwoPort.CorrectedCalibrationAt | tests/test_two_port_calibration.py:93-104 | After the corrected calibrate on generated readings, point i holds its true terms. |
| TwoPort.CalibrationAtWithoutE11R | port_calibration/two_port.py:126 | After calibrate as written on generated readings, point i holds its true terms except e11' = 0. |
| TwoPort.CorrectedCalibrationDeembedsThrough | tests/test_two_port_calibration.py:106-114 | After the corrected calibrate, every through point de-embeds to S11 = 0, S21 = 1, S12 = 1 and the mirrored S22 = 0. |
| TwoPort.CalibrationDeembedsThroughWithoutE11R | port_calibration/two_port.py:126-129 | After calibrate as written, every through point de-embeds to S11 = 0, S21 = 1 − e22 e11', S12 = 1, and S22 with S22 · X = e11' · b (0 iff e11' = 0 or b = 0), where the test expects S21 = 1 and S22 = 0. |
| TwoPort.TwoPortCalibration.constructor | port_calibration/two_port.py:7-59 | Stores the twelve readings and the ideals (defaults load 0, open 1, short −1). All twelve terms start as the scalar 0. |
| TwoPort.TwoPortCalibration.Cals | port_calibration/two_port.py:61-75 | The twelve keys, each mapped to its own field. |
| TwoPort.TwoPortCalibration.SolvePort | port_calibration/two_port.py:81-89 | A fresh one-port object with the object's ideals solves iff the sweep has no singular point, and then returns the sweep's table. |
| TwoPort.TwoPortCalibration.Step1 | port_calibration/two_port.py:77-105 | ok iff both ports solve. The new fields are Step1Of of the old ones. |
| TwoPort.TwoPortCalibration.SetForward | port_calibration/two_port.py:90-92 | Sets e00, e11, e10e01 to the table's D, S, R columns and nothing else. |
| TwoPort.TwoPortCalibration.SetReverse | port_calibration/two_port.py:103-105 | Sets e33', e22', e23'e32' to the table's D, S, R columns and nothing else. |
| TwoPort.TwoPortCalibration.Step2 | port_calibration/two_port.py:107-114 | e30 := load S21 and e03' := load S12; nothing else changes. |
| TwoPort.TwoPortCalibration.Step3 | port_calibration/two_port.py:116-129 | The new fields are Step3Of of the old ones: e22, e10e32 and e23'e01' are set, and e11_r stays a local. |
| TwoPort.TwoPortCalibration.Calibrate | port_calibration/two_port.py:131-134 | ok iff both one-port solves succeed. The fields are the three steps applied in order, or those of step 1 when a solve fails. |
| TwoPort.TwoPortCalibration.CalcD | port_calibration/two_port.py:136-145 | At each point, D = a b − e22 e11' X Y from that point's terms and readings. ThroughNormalised gives its value on the through. |
| TwoPort.TwoPortCalibration.CalcS11 | port_calibration/two_port.py:147-156 | S11 at each point; CorrectedCalibrationDeembedsThrough and CalibrationDeembedsThroughWithoutE11R show it is 0 on the through. |
| TwoPort.TwoPortCalibration.CalcS21 | port_calibration/two_port.py:158-162 | S21 at each point: 1 on the through with the true terms, 1 − e22 e11' after calibrate as written. |
| TwoPort.TwoPortCalibration.CalcS22 | port_calibration/two_port.py:164-173 | S22 at each point, with line 167's factor as written. On the through after calibrate as written (e11' = 0), CalibrationDeembedsThroughWithoutE11R gives S22 · X = e11' · b, which is nonzero unless e11' = 0 or b = 0. S22AsWrittenVanishes covers a table that holds the true e11'. |
| TwoPort.TwoPortCalibration.CalcS12 | port_calibration/two_port.py:175-179 | S12 at each point: 1 on the through, with or without e11'. |

## Left out

- Floating point. Every value is an exact complex number. The tolerances of the tests (`rtol=1e-9`) have no counterpart.
- The noisy-standard tests (tests/test_one_port_calibration.py:57-92 and tests/test_two_port_calibration.py:117-196). They compare against random data with loose bounds and have no exact counterpart.
- numpy internals. `np.linalg.inv` of CᴴC followed by (CᴴC)⁻¹CᴴVᵀ is modelled as the exact solution of the square system C x = V, which it equals whenever C is regular. A singular C, where the inversion raises `LinAlgError`, is modelled as a failed solve.
- Exceptions as control flow. A failed solve stops the one-port loop with the rows appended so far, and `ok` is false. In the two-port object it stops step 1 and the calibration. `calibrate_measure(None)` returns a `Failure` carrying the assertion's message.
- Conversion of the `cals` lists to numpy arrays at one_port.py:66-67. A table is a sequence in both states.
- numpy broadcasting. A term that is still the scalar 0 combines with a sweep of any length (`Term.Scalar`). Shapes other than "scalar" or "one value per point" are not modelled.
- Division by zero. numpy gives `inf`/`nan`; here every division requires a nonzero divisor. Step 3, `calibrate_measure` and the `calc_*` functions therefore carry preconditions on their denominators and trackings.
- TwoPort.TwoPortCalibration.CalcD: defined only when the four tracking terms are nonzero at every point. numpy would divide by zero and return `inf`/`nan`, for instance on an object that was never calibrated.
- TwoPort.TwoPortCalibration.CalcS11: additionally requires D ≠ 0 at every point; the same holds for CalcS21, CalcS22 and CalcS12.
- port_calibration/utils.py (reading and writing measurement files) and setup.py are not part of this model.
- The source passes its standards' ideals as plain numbers; the model takes any complex ideals. The default ideals are 1, −1 and 0.

## Findings

| source | as written | input that shows it | evidently intended | confidence | as-written member | corrected member |
|---|---|---|---|---|---|---|
| port_calibration/two_port.py:126 | Step 3 assigns the reverse load match to a local `e11_r`, so the field `self.e11_r` keeps the 0 set at line 58. The test at tests/test_two_port_calibration.py:103 expects the true e11'. calc_D, calc_S11, calc_S21, calc_S22 and calc_S12 then use e11' = 0. | `ExampleTerms(1/2, 1/4)`: e22 = 1/2, e11' = 1/4, unit trackings, all other terms 0. calc_S21 of the through is 1 − (1/2)(1/4) = 7/8 instead of 1, and calc_S22 is (1/4)(1 + 1/8) = 9/32 instead of 0. | `self.e11_r = …`, storing the reverse load match. Calibrate then recovers all twelve terms, and the through de-embeds to S21 = S12 = 1 and S11 = 0, and to S22 = 0 with the S22 factor of the next row. | not executed | TwoPort.CalibrationDeembedsThroughWithoutE11R, TwoPortTerms.WithoutE11RCounterexample, TwoPortTerms.ExampleInS21Family, TwoPortTerms.ExampleS22WithoutE11R | TwoPort.CalibrationRecoversTerms, TwoPort.CorrectedCalibrationDeembedsThrough, TwoPortTerms.ThroughDeembeds |
| port_calibration/two_port.py:167 | The second factor of S22 is `1 + e22 (sm22 − e00) / e10e01`. Every other factor pairs a port's terms with that port's own reading, and the mirror of calc_S11's second factor is `1 + e11 (sm11 − e00) / e10e01`. | `ExampleTerms(1/2, 1/4)` with the true e11' (as the corrected step 3 stores it): calc_S22 of the through is 1/28 instead of 0. | `b = 1 + self.e11 * (sm11 - self.e00) / self.e10e01`. Then S22 of the through is 0 for every admissible set of terms. | not executed | TwoPortTerms.S22Counterexample, TwoPortTerms.S22AsWrittenVanishes, TwoPortTerms.ExampleInS22Family | TwoPortTerms.ThroughDeembeds |
