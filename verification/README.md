# Verified model of the KBO workbench core

Dafny models of the parts of the workbench whose correctness spans whole runs or whole data structures, with
proofs of what they promise. `dafny verify dfyconfig.toml` checks everything.

- **Numerics** over exact reals. `CountRegression` inverts the information matrix of the count regression by
  pivoted Gauss–Jordan elimination in place. `PitchCalibrationMatrix` diagonalises a symmetric matrix by Jacobi
  rotations and forms its pseudo-inverse. `Covariance`, `PitchExpectation` and `PitchClustering` factor regularised
  covariances and calibrate the reference bands. `PitchCalibration` builds the network of comparable parks, demeans
  within groups and centres the park effects. `LinearAlgebra` holds the shared sums and products.
- **Run values.** `CountRunValue` partitions the plays of a half-inning into transitions and accounts for the runs.
- **Canonical JSON.** `JsonText` is the printer with a parser for its texts; `CanonicalJson` normalises a graph of
  runtime values, with the recursive serializer that tracks its ancestors.
- **Corrections.** `GameDocument` is the ledger, `Commands` and `TrackingCommands` the edit language over it,
  `CommandEffects` what each command does to it, and `RecordCorrection` the proposals built from official notices.
- **Sessions.** `CorrectionSnapshot`, `CorrectionSession` and `CorrectionSessionStore` are the editing sessions:
  history, prepared view, versions, locks and capacity.
- **Concurrency.** `ComputationPool`, `BoundedReadCache`, `BatterDiscipline` with `WorkerRowTransport`, and
  `HttpTransport` are state machines: each callback, resumption or clock reading is one event, and the theorems hold
  for every sequence of events. A class beside each machine has the fields of the original; every method is proved
  to make exactly the step of its event.

Things the proofs brought to light:

- Following a plate appearance (`tracking-commands.ts:76-114`) does not keep every agreeing candidate in agreement:
  a repair inside the same batch can leave it behind. `TrackingCommands.FollowAgrees` gives the exact condition,
  `Commands.RepairDefeatsFollow` an instance, `Commands.AgreementSurvives` the case without repairs. The compiler of
  the instance gives a pitch the last start row before it, as the start rows of `derived-facts.ts:30-41` do.
- The iteration for eigenvalues never reports convergence for a matrix without rows; every other matrix the
  calibration builds converges (`PitchCalibration.NormalEquationsConverge`).
- A second repair finds nothing only if the compiler names rows of the ledger (`TrackingCommands.ReconcileSettles`).
- The hash recorded as known (`batter-discipline-service.ts:33`) can be out of date while a job is running, never
  between jobs (`BatterDiscipline.BeliefExactly`).
- A row moved before itself is accepted even if it does not exist (`commands.ts:222`, `Commands.MoveDefined`).
- A comment speaks of code-point order (`canonical-json.ts:15`); the code, and the model, compare UTF-16 code units,
  as section 3.2.3 of RFC 8785 does.

## Model
| member | source | states |
|---|---|---|
| CountRegression.InvertCountInformation | packages/game-core/src/count-regression.ts:13-38 | For every square matrix: a returned matrix is a two-sided inverse (X·M = I and M·X = I); without one, changing one column by less than the pivot tolerance makes the input singular. The input is unchanged |
| CountRegression.InverseHasNoKernel | packages/game-core/src/count-regression.ts:12-38 | A singular design has no inverse: whatever M sends to zero is zero |
| CountRegression.NewtonDirectionSolves | packages/game-core/src/count-regression.ts:99-101 | The Newton direction inverse·gradient solves information·delta = gradient |
| CountRegression.InverseOfSymmetric | packages/game-core/src/count-regression.ts:13-57 | The inverse of a symmetric information matrix is symmetric |
| CountRegression.CountInformation | packages/game-core/src/count-regression.ts:39-57 | The accumulated matrix has the closed form of the weighted design product in every entry, and is symmetric |
| CountRegression.InformationIsAverage | packages/game-core/src/count-regression.ts:39-57 | Each entry of the information matrix, times the number of rows, is the sum of what the single rows add |
| CountRegression.OneContribution | packages/game-core/src/count-regression.ts:39-57 | A single row adds its design product times mean / (1 + alpha·mean) |
| CountRegression.RepeatedSample | packages/game-core/src/count-regression.ts:39-57 | Repeating the whole sample leaves every entry of the information matrix as it is |
| PitchCalibrationMatrix.RotationKeepsDecomposition | packages/game-core/src/pitch-calibration-matrix.ts:28-59 | A rotation keeps the vectors orthonormal and keeps vectors·a·transposed vectors equal to the input |
| PitchCalibrationMatrix.RotationConserves | packages/game-core/src/pitch-calibration-matrix.ts:34-59 | A rotation at (p, q) keeps the trace and lowers the off-diagonal squares by exactly 2·pq² |
| PitchCalibrationMatrix.HalfAngleAnnihilates | packages/game-core/src/pitch-calibration-matrix.ts:31-36 | The half-angle of atan2(2pq, qq − pp) makes the rotated entry (p, q) zero |
| PitchCalibrationMatrix.Rotate | packages/game-core/src/pitch-calibration-matrix.ts:28-59 | The in-place row and column updates compute the plane rotation of `a` and of the vectors |
| PitchCalibrationMatrix.LargestOffDiagonal | packages/game-core/src/pitch-calibration-matrix.ts:11-23 | The double loop finds the entry above the diagonal with the largest magnitude |
| PitchCalibrationMatrix.RotationDecays | packages/game-core/src/pitch-calibration-matrix.ts:11-59 | A rotation at the largest entry leaves at most the share 1 − 2/(n(n−1)) of the off-diagonal squares |
| PitchCalibrationMatrix.Diagonalise | packages/game-core/src/pitch-calibration-matrix.ts:9-60 | Every iterate is an orthogonal decomposition of the input with its trace; convergence means all off-diagonal entries are below the scaled bound; without convergence the input has no rows, or so many off-diagonal squares that 100·n² − 1 such shares of them still reach the bound |
| PitchCalibrationMatrix.SemidefiniteConverges | packages/game-core/src/pitch-calibration-matrix.ts:8-27 | A positive semidefinite input with 1 to 10^8 rows never runs out of rounds |
| PitchCalibrationMatrix.SymmetricInverse | packages/game-core/src/pitch-calibration-matrix.ts:2-82 | Inverse and projection are the spectral sums over the values above the cutoff, rank counts those values, the vectors diagonalise the input, and `converged` is true for every positive semidefinite input with 1 to 10^8 rows |
| PitchCalibrationMatrix.ProjectionIdempotent | packages/game-core/src/pitch-calibration-matrix.ts:61-81 | projection·projection = projection, and the projection changes the pseudo-inverse on neither side |
| PitchCalibrationMatrix.RankIsTrace | packages/game-core/src/pitch-calibration-matrix.ts:61-81 | The rank is the trace of the projection |
| PitchCalibrationMatrix.ValuesSumToTrace | packages/game-core/src/pitch-calibration-matrix.ts:10-61 | The returned values add up to the trace of the input |
| PitchCalibrationMatrix.VectorsDiagonalise | packages/game-core/src/pitch-calibration-matrix.ts:10-61 | The input acts on each returned vector as the last iterate does |
| PitchCalibrationMatrix.PseudoInverseSolves | packages/game-core/src/pitch-calibration-matrix.ts:61-81 | input·inverse is the projection plus an explicit residual, made of what the last iterate holds off its diagonal |
| PitchCalibrationMatrix.ResidualBound | packages/game-core/src/pitch-calibration-matrix.ts:25-81 | After convergence each residual is at most n² · scale · 1e-14 over the smallest kept value |
| Covariance.CholeskySucceeds | packages/game-core/src/pitch-expectation.ts:72-79 | A matrix whose quadratic form is at least reg·|u|² with reg > 0 always has positive pivots, and L·transpose(L) gives it back |
| Covariance.SolutionNorm | packages/game-core/src/pitch-expectation.ts:20-25 | Forward substitution yields a vector whose squared length is the quadratic form of the inverse matrix |
| PitchExpectation.FitPitchReferenceDistribution | packages/game-core/src/pitch-expectation.ts:41-107 | Fewer than four points and only those give no fit; the invalid-covariance error is unreachable over the reals; the fit is the mean, the factor of the regularised covariance, and the two quantile contours |
| PitchExpectation.ContoursCover | packages/game-core/src/pitch-expectation.ts:92-105 | The 50% radius is at most the 90% radius, and each contour holds at least its share of the sample |
| PitchExpectation.BandsMatchContours | packages/game-core/src/pitch-expectation.ts:28-39 | Classifying the sample gives exactly the counts the contours report: the three bands partition it |
| PitchExpectation.DistanceIsMahalanobis | packages/game-core/src/pitch-expectation.ts:16-26 | The reference distance is the Mahalanobis distance of the regularised covariance |
| PitchExpectation.CenterBalances | packages/game-core/src/pitch-expectation.ts:49-54 | Deviations from the center cancel |
| PitchExpectation.CovarianceIsSpread | packages/game-core/src/pitch-expectation.ts:55-71 | In every direction the covariance is the mean square of the deviations plus the regularisation 1e-4 |
| PitchExpectation.BandExactly | packages/game-core/src/pitch-expectation.ts:11-39 | The band of a point is decided by its distance alone: within a contour up to 1e-10, or that share of a radius above one |
| PitchExpectation.NeededIsLeast | packages/game-core/src/pitch-expectation.ts:92-100 | The rank of a contour is the least integer that reaches its share of the sample |
| PitchExpectation.QuantileUnique | packages/game-core/src/pitch-expectation.ts:92-100 | The calibrated radius is determined by the distances and the rank alone |
| PitchClustering.EstimateComponent | packages/game-core/src/pitch-clustering.ts:96-128 | The accumulation loops compute the weighted mean and regularised weighted covariance of one column, or the default of an empty component |
| PitchClustering.Maximize | packages/game-core/src/pitch-clustering.ts:92-133 | Component weights are positive multiples of their mass that add up to one, and every component is the estimate of its column |
| PitchClustering.EstimateAtLeast | packages/game-core/src/pitch-clustering.ts:103-128 | Every estimated covariance, of an empty component or not, has a quadratic form of at least reg·|u|² |
| PitchClustering.MaximisedFactorises | packages/game-core/src/pitch-clustering.ts:135-156 | After maximisation no factorisation fails, each factor gives back its covariance, and no weight is zero |
| PitchClustering.MeanBalances | packages/game-core/src/pitch-clustering.ts:96-128 | The weighted deviations of the points from the mean of a component with mass cancel |
| PitchClustering.CovarianceIsSpread | packages/game-core/src/pitch-clustering.ts:103-128 | In every direction the covariance of a component with mass is the weighted mean square of the deviations plus the regularisation 1e-5 |
| PitchClustering.EmptyComponent | packages/game-core/src/pitch-clustering.ts:96-128 | A component without mass sits on one of the points, with a unit covariance and the weight 1e-12 before scaling |
| PitchClustering.WeightsAreProportional | packages/game-core/src/pitch-clustering.ts:92-133 | The weights of two components with mass are in the proportion of their masses |
| PitchCalibration.BuildGroups | packages/game-core/src/pitch-calibration.ts:78-84 | Each group holds exactly the parks of its cells, and the list of keys names exactly the groups |
| PitchCalibration.ConnectedParks | packages/game-core/src/pitch-calibration.ts:85-93 | The bounded closure loop ends at exactly the parks reachable from the anchor through shared groups |
| PitchCalibration.TrainingFrame | packages/game-core/src/pitch-calibration.ts:78-96 | Groups, closure and filter together keep, in order, exactly the cells whose group has another park and whose park a chain of cells sharing a group joins to the anchor |
| PitchCalibration.FrameStaysConnected | packages/game-core/src/pitch-calibration.ts:85-96 | The kept cells alone still join each of these parks to the anchor |
| PitchCalibration.Demean | packages/game-core/src/pitch-calibration.ts:202-220 | Demeaning fails exactly when some row has a group without positive weight; otherwise each row is shifted by its group mean |
| PitchCalibration.CentredSumsVanish | packages/game-core/src/pitch-calibration.ts:202-220 | Every demeaned column has weighted sum zero in every group |
| PitchCalibration.ShiftInvisible | packages/game-core/src/pitch-calibration.ts:202-220 | Adding a constant to one column of one group changes no demeaned row |
| PitchCalibration.BiasesSumToZero | packages/game-core/src/pitch-calibration.ts:163-175 | On each axis the fitted park biases sum to exactly zero, whatever the coefficients |
| PitchCalibration.BiasDifference | packages/game-core/src/pitch-calibration.ts:163-175 | The bias of a park exceeds that of the last park by exactly its own coefficient |
| PitchCalibration.NormalEquations | packages/game-core/src/pitch-calibration.ts:149-157 | The nested accumulation computes the weighted cross products of all rows |
| PitchCalibration.NormalEquationsConverge | packages/game-core/src/pitch-calibration.ts:149-172 | The normal matrix is symmetric and positive semidefinite, so the solver always converges on it and a fit is never refused for lack of rounds |
| PitchCalibration.ContrastValue | packages/game-core/src/pitch-calibration.ts:162-175 | The fitted value of any contrast is its value at any solution of the normal equations plus two explicit error terms, the change the projection makes and the residual of the solver |
| PitchCalibration.ContrastIdentified | packages/game-core/src/pitch-calibration.ts:168-175 | A contrast that passes the 1e-7 test has one value over all solutions of a bounded size, the fitted one, up to n · 1e-7 · size and the bound of the residual |
| CountRunValue.CountValueTransitions | packages/game-core/src/count-run-value.ts:17-83 | The look-ahead loop computes the transitions of the half, which `CountRunValue.TransitionsExactly` describes |
| CountRunValue.TransitionsPartition | packages/game-core/src/count-run-value.ts:26-81 | The transitions put together are exactly the half: nothing lost, duplicated or reordered; each starts and ends with its own plays |
| CountRunValue.LinkedShape | packages/game-core/src/count-run-value.ts:32-61 | A linked transition is a pitch, annotations that change no state, and the plate result that ends its plate appearance |
| CountRunValue.LinkedExactly | packages/game-core/src/count-run-value.ts:26-61 | The look-ahead from a pitch ends at a plate result exactly when both are applied, the pitch is no no_pitch, only annotations that change no state are between, plate appearance, batter and pitcher are the same, and count or call completes the result |
| CountRunValue.TransitionsExactly | packages/game-core/src/count-run-value.ts:17-83 | Each transition fits its plays, and every pitch that a plate result completes is in one transition with it |
| CountRunValue.IndexIsOrder | packages/game-core/src/count-run-value.ts:10-16 | The 288 count states are numbered in the order of outs, bases, balls and strikes, each with its own number |
| CountRunValue.ExpectancyExactly | packages/game-core/src/count-run-value.ts:14-97 | A state has a run expectancy exactly after three outs, where it is zero, or for a valid count of the season after the training, where it is the cell of the model |
| CountRunValue.RowExactly | packages/game-core/src/count-run-value.ts:107-141 | Kind, runs, expectancies, status and value of a row, each from the transition alone |
| CountRunValue.EvaluateExactly | packages/game-core/src/count-run-value.ts:99-169 | A half is reported exactly when it has an applied play; it has a value sum exactly when it is whole, its start has an expectancy and every applied transition a value; the sums are those of the rows and `conserved` compares them with the runs |
| CountRunValue.EvaluateCountRunValues | packages/game-core/src/count-run-value.ts:84-187 | The rows of the response hold every play of every half that has an applied play, once and in order; when all halves are sealed, none is reported as not conserved |
| CountRunValue.ResponseConserved | packages/game-core/src/count-run-value.ts:99-187 | No half of the response of sealed halves has `conserved` false |
| CountRunValue.ValuesConserved | packages/game-core/src/count-run-value.ts:99-169 | In a half with chained states, whenever a value sum is produced it equals runs minus the starting expectancy, so `conserved` is never false |
| CountRunValue.ValuesSplit | packages/game-core/src/count-run-value.ts:150-156 | Pitch value, non-pitch value and starting expectancy add up to the runs |
| JsonText.NumeralsExist | packages/contracts/src/canonical-json.ts:22-39 | Doubles have a printer whose texts are read back to them, so what is assumed of the number printer can be met |
| JsonText.SameNumberSameDouble | packages/contracts/src/canonical-json.ts:22-39 | Equal numbers have one representation as a double |
| JsonText.ParsePrint | packages/contracts/src/canonical-json.ts:22-55 | A parser of JSON text (RFC 8259, sections 6 and 7) gives back every printed value and stops where it ends |
| JsonText.PrintInjective | packages/contracts/src/canonical-json.ts:22-55 | Different JSON values have different texts |
| JsonText.EscapesExactly | packages/contracts/src/canonical-json.ts:22-55 | Control characters, quotation marks, backslashes and lone surrogates are escaped as JSON.stringify does: the short form, or four hexadecimal digits of the code unit |
| JsonText.PlainStays | packages/contracts/src/canonical-json.ts:22-55 | Text without any of these is not changed |
| JsonText.QuotedIsClean | packages/contracts/src/canonical-json.ts:22-55 | A quoted text holds no control character and no surrogate on its own, and begins and ends with a quotation mark |
| CanonicalJson.RuntimeExists | packages/contracts/src/canonical-json.ts:11-39 | All that the model assumes of NFC and of number printing can be met at once |
| CanonicalJson.CompareIsOrder | packages/contracts/src/canonical-json.ts:15-20 | The comparison is antisymmetric and zero exactly for strings with equal NFC forms |
| CanonicalJson.CompareBySign | packages/contracts/src/canonical-json.ts:15-20 | The comparison is negative exactly when the NFC form on the left is a proper prefix of the other or has the smaller code unit at the first difference, and positive the other way round |
| CanonicalJson.TextIsInOrder | packages/contracts/src/canonical-json.ts:83-95 | In the value that the text of any accepted value denotes, every object lists its keys in ascending order of code units |
| CanonicalJson.NumberExactly | packages/contracts/src/canonical-json.ts:46-55 | A number is accepted exactly when it is finite and has a fraction or lies within the safe integers; only minus zero changes |
| CanonicalJson.SortIgnoresOrder | packages/contracts/src/canonical-json.ts:83-95 | The order of the printed keys depends only on which keys there are |
| CanonicalJson.CanonIffDenotes | packages/contracts/src/canonical-json.ts:22-110 | A value is accepted with a result exactly when it unfolds, without cycles, to that normalised tree |
| CanonicalJson.SameTextIffSameValue | packages/contracts/src/canonical-json.ts:11-110 | Two accepted values have the same text exactly when their normal forms (NFC, sorted keys, no minus zero) are equal |
| CanonicalJson.ParseInvertsStringify | packages/contracts/src/canonical-json.ts:11-13 | Parsing the text of an accepted value gives its normal form |
| CanonicalJson.StringifyFixedPoint | packages/contracts/src/canonical-json.ts:11-13 | Serialising what was parsed from a text gives the text again |
| CanonicalJson.KeyOrderIrrelevant | packages/contracts/src/canonical-json.ts:82-106 | Reordering the keys of any objects changes neither the text nor the error |
| CanonicalJson.CanonicalStringify | packages/contracts/src/canonical-json.ts:11-13 | The entry point computes the specified text or first error; `CanonicalJson.TextIsInOrder` and `CanonicalJson.SameTextIffSameValue` say which text that is |
| CanonicalJson.Serializer.Serialize | packages/contracts/src/canonical-json.ts:22-39 | The recursive serializer computes the text or first error with its path, and gives the set of ancestors back unchanged |
| CanonicalJson.Serializer.SerializeObject | packages/contracts/src/canonical-json.ts:57-110 | A value among its own ancestors is refused as a cycle; the ancestor added for an object is removed on every way out |
| CanonicalJson.Serializer.NormalizeKeys | packages/contracts/src/canonical-json.ts:83-90 | The key map is built exactly when the normalised keys are different |
| TrackingCommands.ExclusionDetaches | packages/correction/src/tracking-commands.ts:126-152 | After excluding a pitch no candidate resolves to it, every other candidate is unchanged, identifiers and order stay |
| TrackingCommands.ReconcileContexts | packages/correction/src/tracking-commands.ts:33-61 | The counting loop repairs every repairable candidate, and refuses when there is none |
| TrackingCommands.RepairKeepsDuplicates | packages/correction/src/tracking-commands.ts:63-74 | A duplicate that shares the plate appearance of its canonical still shares it after a repair |
| TrackingCommands.ReconcileSettles | packages/correction/src/tracking-commands.ts:33-61 | A second repair finds nothing to do exactly when every repair of the first named a row of the ledger |
| TrackingCommands.FollowContexts | packages/correction/src/tracking-commands.ts:76-114 | The loop with its flag follows every stable candidate and returns the same ledger when none moved |
| TrackingCommands.FollowAgrees | packages/correction/src/tracking-commands.ts:90-112 | A candidate that agreed with the compiler before and kept its pitch agrees afterwards exactly when the edit left its plate appearance alone or already set the new one |
| TrackingCommands.FollowKeepsDuplicates | packages/correction/src/tracking-commands.ts:90-124 | A duplicate that shared the plate appearance of its canonical, and still does, follows with it |
| CommandEffects.LinkExactly | packages/correction/src/tracking-commands.ts:4-31 | Linking is refused exactly without the pitch or the candidate; otherwise that candidate becomes linked, stands for that pitch, and nothing else in the ledger changes |
| CommandEffects.DuplicateExactly | packages/correction/src/commands.ts:127-135 | Marking a duplicate is refused exactly for itself or without one of the two; otherwise that candidate alone changes and stands for what its canonical is linked to |
| CommandEffects.ReleaseExactly | packages/correction/src/commands.ts:136-143 | Excluding and unlinking are refused exactly without the candidate; otherwise that candidate alone becomes excluded with the reason and note, or pending |
| CommandEffects.ReconcileExactly | packages/correction/src/tracking-commands.ts:33-74 | A repair is refused exactly when there is nothing to repair, and changes only the plate appearances of lost candidates |
| CommandEffects.FollowExactly | packages/correction/src/tracking-commands.ts:76-114 | After an edit a candidate takes the compiled plate appearance of its pitch exactly when it stood for that actual pitch before and after, in the one compiled before; every other candidate stays |
| Commands.InsertEvent | packages/correction/src/commands.ts:149-166 | Only a manual row with a new identifier is inserted, directly before the named row or last |
| Commands.MoveRow | packages/correction/src/commands.ts:217-230 | The two splices compute the moved ledger, with the errors of the original |
| Commands.MoveReorders | packages/correction/src/commands.ts:217-230 | A move keeps every row and the order of the others, and puts the row directly before the named one or last |
| Commands.MoveDefined | packages/correction/src/commands.ts:217-230 | A move succeeds exactly when both rows exist, or when a row is moved before itself, which is not even looked up |
| Commands.RecordUpdated | packages/correction/src/commands.ts:263-289 | Updating an official record changes exactly the line of that player, adding it if missing |
| Commands.CommandKeepsValid | packages/correction/src/commands.ts:82-147 | Every command keeps event identifiers unique, sequence equal to index, the tracking list and its order, and every link naming a recorded pitch |
| Commands.DetachedFromLostPitch | packages/correction/src/commands.ts:168-215 | After a pitch row is deleted or turned into another row, no candidate resolves to it and the others are unchanged |
| Commands.ResolvedPitchExists | packages/correction/src/tracking-commands.ts:116-124 | In a valid ledger whatever a candidate resolves to is a recorded pitch |
| Commands.AddThenDelete | packages/correction/src/commands.ts:149-177 | Adding a row and deleting it gives back the whole ledger, tracking included |
| CommandEffects.AddExactly | packages/correction/src/commands.ts:149-166 | Each refusal exactly under its condition; otherwise the row stands directly before the named one or last, and nothing else changes |
| CommandEffects.DeleteExactly | packages/correction/src/commands.ts:168-177 | Deleting is refused exactly without the row; otherwise that row goes, candidates that resolved to a lost pitch are excluded, and nothing else changes |
| CommandEffects.MoveExactly | packages/correction/src/commands.ts:217-230 | Each refusal exactly under its condition; otherwise the others keep their order and the row stands where it was asked for |
| CommandEffects.ReplaceExactly | packages/correction/src/commands.ts:179-215 | Each refusal exactly under its condition; otherwise the row takes the replacement with the kept fields of the old row, and only candidates of a lost pitch change beside it |
| CommandEffects.ObserveExactly | packages/correction/src/commands.ts:96-108 | Each refusal exactly under its condition; otherwise the observed state of that source row changes and nothing else |
| CommandEffects.RosterExactly | packages/correction/src/commands.ts:232-248 | Each refusal exactly under its condition; otherwise that player of that side is replaced and nothing else changes |
| CommandEffects.PositionExactly | packages/correction/src/commands.ts:250-261 | Refused exactly without the player; otherwise the positions of that player change and nothing else |
| CommandEffects.RecordExactly | packages/correction/src/commands.ts:263-289 | Refused exactly for another player; otherwise the line of that player is the given one and the others stay |
| Commands.BatchKeepsValid | packages/correction/src/commands.ts:55-58 | Every batch keeps the ledger valid and the tracking list in order |
| Commands.StructureNeverRefused | packages/correction/src/commands.ts:59-59 | The final resequencing changes nothing and the decoder can refuse a batch only for the contents of a row |
| Commands.CorrectionKeepsValid | packages/correction/src/commands.ts:46-80 | A correction yields a valid ledger with the same candidates in order, together with the compile of exactly that ledger |
| CommandEffects.BatchExactly | packages/correction/src/commands.ts:55-58 | A batch is accepted with a result exactly when each command is accepted on the ledger the ones before it left |
| CommandEffects.CorrectionExactly | packages/correction/src/commands.ts:46-80 | Each refusal of a correction in its order; an accepted one is the decoded result of the batch with its candidates following, and the compile of that ledger |
| Commands.AgreementSurvives | packages/correction/src/commands.ts:60-69 | Without a repair in the batch, every candidate that agreed with the compiler and kept its pitch agrees after the whole correction |
| Commands.RepairDefeatsFollow | packages/correction/src/tracking-commands.ts:99-107 | A concrete valid ledger and batch in which a repair inside the batch leaves an agreeing candidate with a stable pitch disagreeing, for a compiler that gives a pitch the last start row before it |
| RecordCorrection.BuildProposal | packages/correction/src/record-correction-proposal.ts:94-387 | The loops over statistics and records compute the proposal |
| RecordCorrection.VerifyAfterState | packages/correction/src/record-correction-proposal.ts:389-445 | The check loop computes every reason why the corrected ledger misses the notice |
| RecordCorrection.EligibleExactly | packages/correction/src/record-correction-proposal.ts:94-387 | A proposal is eligible exactly when the notice fits the ledger, the batch is accepted, and the corrected ledger has the new decision, every statistic and no new blocking finding |
| RecordCorrection.EventPartDecides | packages/correction/src/record-correction-proposal.ts:114-180 | The bound play can be edited exactly when some play is the one the notice decides: result by decision, rising sacrifice bunts and total bases, the bunt flag, the event RBI and the base of the batter; and then it becomes that play |
| RecordCorrection.TargetDecided | packages/correction/src/record-correction-proposal.ts:460-507 | The plate result is decided by the notice alone: a fielder choice, a sacrifice bunt exactly when the sacrifice bunts of the batter rise, an error otherwise, a hit that stays or is worth the first change of total bases |
| RecordCorrection.ScanAccepts | packages/correction/src/record-correction-proposal.ts:182-331 | No statistic is objected to exactly when each can be taken after those before it, and then the edited lines hold exactly the corrected values |
| RecordCorrection.EventReasons | packages/correction/src/record-correction-proposal.ts:114-180 | The play gives at most one reason, each exactly in its case |
| RecordCorrection.EligibleShows | packages/correction/src/record-correction-proposal.ts:114-387 | The preview shows the play before and after and every statistic of the notice, in order |
| RecordCorrection.SupportIsLimited | packages/contracts/src/record-correction.ts:438-486 | A statistic is corrected directly, or derived, exactly when both the tables and the notice allow it |
| RecordCorrection.DirectMeansField | packages/contracts/src/record-correction.ts:438-486 | The list of statistics corrected directly and the tables of official record fields agree in every scope; which statistics are derived and which only evidence is stated outright |
| RecordCorrection.BatterFieldIsNamed | packages/correction/src/record-correction-proposal.ts:43-58 | The record field of a batter statistic is the camel case of the statistic of the notice |
| RecordCorrection.PitcherFieldIsNamed | packages/correction/src/record-correction-proposal.ts:60-73 | The record field of a pitcher statistic is the camel case of the statistic without a last "allowed" or "pitched", but for outsRecorded and hitByPitch |
| RecordCorrection.TargetIsStable | packages/correction/src/record-correction-proposal.ts:460-507 | The plate result a notice asks for is its own target |
| RecordCorrection.EligibleSettles | packages/correction/src/record-correction-proposal.ts:94-387 | Proposing again on the ledger of an eligible proposal gives no batch, no reasons and no change or conflict |
| RecordCorrection.RebuildProposesNothing | packages/correction/src/record-correction-proposal.ts:75-92 | The same through the public builder, which decodes and compiles, for any compiler |
| RecordCorrection.EligibleIsLocal | packages/correction/src/record-correction-proposal.ts:114-387 | An eligible batch changes no row but the bound one, no roster, no player and no field the notice does not name, and every blocking finding afterwards was one before |
| RecordCorrection.NoReasonMeansReached | packages/correction/src/record-correction-proposal.ts:389-458 | The check of the corrected ledger finds no reason exactly when the statistic has its corrected value in the official line and in the compiled one |
| RecordCorrection.EligibleReaches | packages/correction/src/record-correction-proposal.ts:136-157 | An eligible batch reaches every statistic and the decision of the notice; the bound play becomes the result, bunt flag, event RBI and base that the notice decides, stated on the notice alone |
| RecordCorrection.TotalBasesWeighHits | packages/correction/src/record-correction-proposal.ts:208-210 | The derived total is singles + 2·doubles + 3·triples + 4·home runs |
| RecordCorrection.UpsertedFinds | packages/correction/src/record-correction-proposal.ts:333-348 | Applying the record commands gives each named player the corrected line and leaves the others |
| CorrectionSnapshot.MergePersistentSourceFindings | apps/server/src/correction-snapshot.ts:105-134 | The filter with its set of seen keys computes the merged findings |
| CorrectionSnapshot.MergeIsIdempotent | apps/server/src/correction-snapshot.ts:105-146 | Merging again on the same ledger changes nothing |
| CorrectionSnapshot.MergeHoldsExactly | apps/server/src/correction-snapshot.ts:105-146 | Every stored finding that is persistent or whose row is still unresolved is kept by key, every compiled finding is there by key, nothing else is, and no key is there twice |
| CorrectionSnapshot.StoredComeFirst | apps/server/src/correction-snapshot.ts:105-134 | Kept stored findings come before the compiled ones |
| CorrectionSnapshot.PreparedExactly | apps/server/src/correction-snapshot.ts:24-103 | A prepared view shows the ledger, its hash, both lists of findings in order, the compiled lines, and how many findings block and warn |
| CorrectionSnapshot.CommitPreparation | apps/server/src/correction-session-manager.ts:266-271 | After a commit, showing the current findings as the stored ones is all that a fresh preparation would change |
| CorrectionSession.EveryRunIsSound | apps/server/src/correction-session-manager.ts:145-278 | After any requests: one linked chain of ledgers through the current one, the base hash at its bottom, a prepared view equal to a recomputed one, a history that compiles and an honest cached snapshot |
| CorrectionSession.VersionCounts | apps/server/src/correction-session-manager.ts:145-278 | After any requests the version has risen by exactly the number of those that were answered and change the session |
| CorrectionSession.CreatedIsSound | apps/server/src/correction-session-manager.ts:83-141 | A new session starts with all of that |
| CorrectionSession.AnswerKeeps | apps/server/src/correction-session-manager.ts:145-357 | Each successful mutation raises the version by exactly one, everything else leaves it |
| CorrectionSession.UndoKeeps | apps/server/src/correction-session-manager.ts:172-195 | Undo never fails while there is history, and keeps the chain |
| CorrectionSession.RedoKeeps | apps/server/src/correction-session-manager.ts:196-219 | Redo never fails while there is something to redo, and keeps the chain |
| CorrectionSession.CommitKeeps | apps/server/src/correction-session-manager.ts:220-278 | The in-place update of a commit keeps the prepared view equal to a recomputed one and the base hash right |
| CorrectionSession.CommitExactly | apps/server/src/correction-session-manager.ts:220-278 | A commit is accepted exactly with something to save, blocking findings only if allowed, an identifier to supersede and a saved ledger; then authority, base, stored findings and version are stated outright |
| CorrectionSession.BlockingIsNeverStaged | apps/server/src/correction-session-manager.ts:220-278 | With a blocking finding that outlives recomputation or is compiled, no commit ends in staging, none is accepted unless blocking ones are allowed, and the finding stays stored |
| CorrectionSession.RedosRestore | apps/server/src/correction-session-manager.ts:172-219 | k undos followed by k redos give back the session, 2k versions later |
| CorrectionSession.UndoingAllReachesBase | apps/server/src/correction-session-manager.ts:172-195 | Undoing everything reaches the ledger of the base hash with nothing left to save |
| CorrectionSession.LookKeeps | apps/server/src/correction-session-state.ts:38-55 | A snapshot taken through the version-keyed cache equals a freshly built one |
| CorrectionSession.InternalSession.TakeSnapshot | apps/server/src/correction-session-state.ts:38-55 | Fills and uses the cache; the returned view is the fresh one |
| CorrectionSession.InternalSession.Command | apps/server/src/correction-session-manager.ts:145-171 | Pushes history and clears redo on success, changes nothing on failure or preview; the caller gets the refusal, or the view now cached, which is the fresh one |
| CorrectionSession.InternalSession.UndoOne | apps/server/src/correction-session-manager.ts:172-195 | Moves one entry to the redo stack and compiles the ledger before it; the caller gets the refusal, or the view now cached, which is the fresh one |
| CorrectionSession.InternalSession.RedoOne | apps/server/src/correction-session-manager.ts:196-219 | Moves one entry back and compiles the ledger after it; the caller gets the refusal, or the view now cached, which is the fresh one |
| CorrectionSession.InternalSession.CommitTo | apps/server/src/correction-session-manager.ts:220-278 | All refusals in order, then the new base; the caller gets the refusal, or the view now cached, which is the fresh one |
| CorrectionSession.InternalSession.LoadFrom | apps/server/src/correction-session-manager.ts:326-357 | The original ledger, kept on the revision base of the session, becomes an undoable step; the caller gets the refusal, or the view now cached, which is the fresh one |
| CorrectionSessionStore.MutexSteps | apps/server/src/correction-session-store.ts:84-107 | Chained promises let exactly the next ticket in, only when no one is inside; a waiting or running operation makes the lock busy |
| CorrectionSessionStore.EveryRunIsSound | apps/server/src/correction-session-store.ts:9-107 | In every interleaving: at most 64 sessions, each with its lock, running operations at the current version, successes in strictly rising versions |
| CorrectionSessionStore.ExclusionAndVersions | apps/server/src/correction-session-store.ts:62-81 | At most one operation of a session runs at a time, and no two successes had the same expected version |
| CorrectionSessionStore.EvictionIsSafe | apps/server/src/correction-session-store.ts:43-60 | Making room drops only sessions without history, without waiting or running work, and unused for half an hour |
| CorrectionSessionStore.SessionsStay | apps/server/src/correction-session-store.ts:17-60 | Only a delete, an eviction or a clear removes a session |
| CorrectionSessionStore.EvictedExactly | apps/server/src/correction-session-store.ts:43-60 | Making room drops exactly the sessions without history, work and recent use, each with its lock and access time |
| CorrectionSessionStore.AddExactly | apps/server/src/correction-session-store.ts:17-22 | A session is added last with a free lock exactly when fewer than 64 are left |
| CorrectionSessionStore.StartsExactly | apps/server/src/correction-session-store.ts:62-107 | An operation starts exactly when it is next, nobody is inside, and its session is there with the expected version |
| CorrectionSessionStore.LeavesExactly | apps/server/src/correction-session-store.ts:62-107 | Leaving lets the next one in; the version rises by one exactly when the session was changed and stays |
| CorrectionSessionStore.Store.MakeRoom | apps/server/src/correction-session-store.ts:43-60 | The loop drops exactly the idle sessions with their locks, then refuses at capacity |
| CorrectionSessionStore.Store.Register | apps/server/src/correction-session-store.ts:17-22 | A session is added after making room, unless the store is full |
| CorrectionSessionStore.Store.Queue | apps/server/src/correction-session-store.ts:71-80 | An operation joins the line of its session, or finds no lock |
| CorrectionSessionStore.Store.Start | apps/server/src/correction-session-store.ts:62-80 | The operation starts only if the session is there and has the expected version |
| CorrectionSessionStore.Store.Finish | apps/server/src/correction-session-store.ts:23-29 | The operation ends, its effect is recorded and the next ticket may enter |
| ComputationPool.EveryRunIsSound | apps/server/src/computation-pool.ts:48-196 | In every interleaving the unsettled promises are exactly the queued and the running jobs, disjointly; slots and queue stay within their limits; dispatch is in order of submission; a non-empty queue means all workers busy or a pump owed; no outcome is ever replaced |
| ComputationPool.ClosedRunSettlesAll | apps/server/src/computation-pool.ts:179-196 | Once closed, every promise ever handed out is settled |
| ComputationPool.NoStrayTimer | apps/server/src/computation-pool.ts:171-196 | In no interleaving does the timer of a removed slot keep running |
| ComputationPool.ResolvedByOwnReply | apps/server/src/computation-pool.ts:135-162 | A promise is resolved only by a reply to its own job, from its own worker, with a result of its kind |
| ComputationPool.RunningSettles | apps/server/src/computation-pool.ts:104-196 | The promise of a running job is settled by exactly these events, each with its outcome: an expected reply of its own worker resolves it, a wrong or failed one, its timer, its cancellation, a stopped worker or closing rejects it |
| ComputationPool.QueuedSettles | apps/server/src/computation-pool.ts:63-113 | The promise of a queued job is settled only by its own cancellation, by closing, or when no worker could be started for it |
| ComputationPool.PumpKeeps | apps/server/src/computation-pool.ts:84-113 | Pumping ends with an empty queue or with every allowed worker busy |
| ComputationPool.Pool.Run | apps/server/src/computation-pool.ts:48-78 | Closed, cancelled and busy requests are refused in that order; others are queued and pumped |
| ComputationPool.Pool.Cancel | apps/server/src/computation-pool.ts:63-73 | A queued job is removed and rejected; a running one fails its worker |
| ComputationPool.Pool.Pump | apps/server/src/computation-pool.ts:84-113 | The loop hands queued jobs to idle or new workers, rejecting a job whose worker cannot start |
| ComputationPool.Pool.FailSlot | apps/server/src/computation-pool.ts:171-177 | The slot leaves the set, its job is rejected and a pump is owed after termination |
| ComputationPool.Pool.OnMessage | apps/server/src/computation-pool.ts:135-162 | An expected reply settles the job and frees the slot, another one fails it; late replies of removed slots settle nothing new |
| ComputationPool.Pool.OnTimeout | apps/server/src/computation-pool.ts:104-108 | The timer of a running job fails its slot |
| ComputationPool.Pool.OnTerminated | apps/server/src/computation-pool.ts:176-176 | A terminated worker pays the owed pump |
| ComputationPool.Pool.Shutdown | apps/server/src/computation-pool.ts:179-196 | Queue and running jobs are rejected and no slot is left |
| BoundedReadCache.EveryRunIsSound | apps/server/src/bounded-read-cache.ts:33-96 | In every interleaving `bytes` is the sum of the entry sizes, both limits hold, one loader runs per key and generation, and every entry was loaded after the last clear |
| BoundedReadCache.MapOrderIsTouchOrder | apps/server/src/bounded-read-cache.ts:33-83 | With a monotone clock the map lists entries from least to most recently used |
| BoundedReadCache.EvictsOldestFirst | apps/server/src/bounded-read-cache.ts:55-59 | Eviction leaves the longest run of newest entries that fits both limits |
| BoundedReadCache.NewestStays | apps/server/src/bounded-read-cache.ts:52-59 | The entry just stored is the last one to be evicted |
| BoundedReadCache.OldLoadStoresNothing | apps/server/src/bounded-read-cache.ts:46-67 | A load that started before a clear changes neither entries nor pending loads afterwards |
| BoundedReadCache.LoadByAge | apps/server/src/bounded-read-cache.ts:33-68 | An entry younger than the limit is returned and becomes the newest unless a refresh is asked for; any other is dropped and a load flies for the key |
| BoundedReadCache.GetByAge | apps/server/src/bounded-read-cache.ts:71-83 | The same without a refresh and without starting a load |
| BoundedReadCache.LoadedExactly | apps/server/src/bounded-read-cache.ts:46-62 | An arriving value is stored exactly when its size is known and fits and nothing was cleared since its load began; then the longest fitting run of newest entries stays |
| BoundedReadCache.Cache.Load | apps/server/src/bounded-read-cache.ts:33-68 | An entry younger than the limit is touched and returned; otherwise the load in flight or a new one |
| BoundedReadCache.Cache.Get | apps/server/src/bounded-read-cache.ts:71-83 | An entry younger than the limit, the load in flight, or nothing; no load is started |
| BoundedReadCache.Cache.OnLoaded | apps/server/src/bounded-read-cache.ts:49-62 | The value is stored only in its own generation and within the byte limit, then old entries go |
| BoundedReadCache.Cache.Evict | apps/server/src/bounded-read-cache.ts:55-59 | The loop removes the first entry while a limit is exceeded |
| BoundedReadCache.Cache.OnFinally | apps/server/src/bounded-read-cache.ts:63-65 | A finished load leaves the pending map only if it is still the one for its key |
| BoundedReadCache.Cache.Clear | apps/server/src/bounded-read-cache.ts:85-90 | Everything is dropped and the generation rises |
| WorkerRowTransport.SendWorkerRows | apps/server/src/worker-row-transport.ts:12-30 | What is sent is a prefix of the chunks, the whole of it unless the receiver became inactive |
| WorkerRowTransport.ChunksCover | apps/server/src/worker-row-transport.ts:17-29 | The chunks put together are the rows in order; only the first replaces, only the last completes, none has more than 5000 rows, and no rows are one chunk |
| WorkerRowTransport.ChunksAreFull | apps/server/src/worker-row-transport.ts:12-29 | Every chunk but the last has 5000 rows |
| WorkerRowTransport.PrefixIsShorter | apps/server/src/worker-row-transport.ts:22-29 | A proper prefix of the chunks never amounts to all rows |
| BatterDiscipline.DisciplineWorker.OnMessage | apps/server/src/batter-discipline-worker.ts:32-53 | The handler replaces or extends the cached season, throws on a mismatch and answers the completing chunk |
| BatterDiscipline.EveryRunIsSound | apps/server/src/batter-discipline-service.ts:39-181 | In every interleaving the worker between jobs holds nothing or one whole snapshot, and during a job exactly the chunks read so far |
| BatterDiscipline.ResolvedFromWholeSnapshot | apps/server/src/batter-discipline-service.ts:62-94 | A resolved job was computed from all rows, in order, of the snapshot whose hash it reports |
| BatterDiscipline.EveryRequestIsAccounted | apps/server/src/batter-discipline-service.ts:39-181 | In every interleaving a promise is unsettled and its key pending exactly while its job is current or queued; identifiers are served in order; closing settles all of them |
| BatterDiscipline.AskExactly | apps/server/src/batter-discipline-service.ts:39-60 | A request changes nothing exactly when closed, already pending, or 16 jobs are queued; otherwise it joins the end of the line |
| BatterDiscipline.AskedExactly | apps/server/src/batter-discipline-service.ts:62-72 | The first job of the line starts, and the repository is offered a hash exactly if it is known for the season of that job |
| BatterDiscipline.ReplyExactly | apps/server/src/batter-discipline-service.ts:74-93 | A matching answer resolves its job, records the hash and moves the line; any other answer loses the worker and settles nothing yet |
| BatterDiscipline.HonestReplyResolves | apps/server/src/batter-discipline-service.ts:74-83 | The answer of the worker to a running job always matches, so a decoded one resolves it with all rows of the snapshot |
| BatterDiscipline.TerminatedExactly | apps/server/src/batter-discipline-service.ts:84-93 | The end of a lost worker rejects its job and moves the line |
| BatterDiscipline.LossExactly | apps/server/src/batter-discipline-service.ts:98-171 | Time-out, failed sending, worker error and worker exit lose the worker exactly while a job runs; error and exit forget the known hash in any case |
| BatterDiscipline.CloseExactly | apps/server/src/batter-discipline-service.ts:173-181 | Closing rejects every open promise and no other, and stops the worker |
| BatterDiscipline.ReadExactly | apps/server/src/batter-discipline-worker.ts:32-53 | The handler throws exactly when it must extend or reuse a snapshot other than the one it holds; otherwise cache and answer are stated outright |
| BatterDiscipline.BeliefExactly | apps/server/src/batter-discipline-service.ts:68-82 | A live worker holds the snapshot recorded as known exactly when the running job has not yet sent it rows, sends none, or has completed that same snapshot |
| BatterDiscipline.BeliefHoldsBetweenJobs | apps/server/src/batter-discipline-service.ts:82-88 | With no job running, a known hash means the live worker holds that whole snapshot |
| BatterDiscipline.BeliefCanFail | apps/server/src/batter-discipline-service.ts:142-166 | A concrete run in which a job of another season replaces the cache while the old hash is still recorded as known |
| BatterDiscipline.Service.RequestAnalysis | apps/server/src/batter-discipline-service.ts:39-60 | A closed service refuses, an equal request joins the running one, a full queue refuses, others are queued |
| BatterDiscipline.Service.Pump | apps/server/src/batter-discipline-service.ts:62-72 | One job at a time starts, offering the known hash only for its own season |
| BatterDiscipline.Service.OnReply | apps/server/src/batter-discipline-service.ts:74-83 | Only an answer to this job and this snapshot resolves it; any other loses the worker |
| BatterDiscipline.Service.OnTerminated | apps/server/src/batter-discipline-service.ts:84-93 | The lost job is rejected and the next one starts |
| BatterDiscipline.Service.OnWorkerExit | apps/server/src/batter-discipline-service.ts:105-111 | An exited worker is forgotten together with what it was known to hold |
| BatterDiscipline.Service.Shutdown | apps/server/src/batter-discipline-service.ts:173-181 | Queued and current jobs are rejected and the run is cancelled |
| HttpTransport.EveryRunIsSpaced | packages/collection/src/http-transport.ts:102-117 | With a monotone clock and sleeps that never end early, grants to all concurrent requests are at least one interval apart |
| HttpTransport.WindowBound | packages/collection/src/http-transport.ts:102-117 | Any window of length T sees at most ⌊T/interval⌋ + 1 grants |
| HttpTransport.AbortsTakeNoSlot | packages/collection/src/http-transport.ts:102-117 | In every run the waiters that left are exactly the grants plus those that gave up, the others still wait, and the next slot is one interval after the last grant however many gave up |
| HttpTransport.Request | packages/collection/src/http-transport.ts:69-100 | At most maxAttempts fetches, at most base·(2^(maxAttempts−1) − 1) of requested pauses, with equality when exhausted; each way of ending is tied to what the attempts returned |
| HttpTransport.RateLimiter.TakeTurn | packages/collection/src/http-transport.ts:108-116 | An aborted waiter gives up, an early one sleeps until the next slot, another one takes it |
| HttpTransport.RateLimiter.WakeUp | packages/collection/src/http-transport.ts:112-113 | Waking takes the slot at the clock reading of that moment |

## Left out
- Floating point: rounding, NaN and infinities. The numerics are over exact reals; finiteness checks disappear.
- exp and log: the mean of a count, the likelihoods, and the convergence of the Newton, EM and logit fits. The mean enters as a positive parameter of each row.
- sqrt, atan2, cos and sin enter through s·s = x and the half-angle equations.
- PitchCalibrationMatrix.SemidefiniteConverges: for at most 10^8 rows, far more than fit in memory; a much larger matrix could run out of its 100·n² rounds.
- PitchCalibrationMatrix.Rotate: updates `a` and the vectors in two loops where the source has one.
- PitchCalibration.Demean: the x and y columns of an observation are one list of values. The design columns, the right-hand sides and the clustered covariance are not modelled.
- Matrices with rows of different lengths and indices out of range, which the source reads as zero.
- CountRunValue.ValuesConserved: assumes a half as the game compiler seals it: states chain, rejected plays change nothing, and the half start is the first play only and carries no pitch.
- Grouping plays into halves, the training of the run model, and the response header.
- CountRegression.CountInformation: the rows carry their mean; only rows with indices inside the matrix.
- The order of input points in the pitch fits: over the reals it does not change a sum.
- NFC normalisation is an idempotent function. Numbers are the finite doubles; their printer is any function whose texts are numerals and can be read back, and that prints zero as 0.
- Getters and proxies on serialised objects: reading a property has no effect.
- The game compiler, document hashing and the row schemas are functions of their input that may refuse it. Date normalisation by the decoder is the identity.
- Commands.AgreementSurvives: assumes that the facts about pitches do not depend on tracking.
- Coordinates and measurements of tracking candidates, rosters beyond identifiers and positions, document metadata.
- Command and batch identifiers, the correction preview and the wording of reasons and errors.
- TrackingCommands.ReconcileSettles: the second compile must report the same pitch facts as the first.
- Workspace storage, source bundles and source evidence of a session: answers of the workspace are part of a request.
- CorrectionSession.EveryRunIsSound: a request is one step, which the lock of `CorrectionSessionStore` justifies.
- CorrectionSessionStore.Store.Register: session identifiers are never used twice.
- ComputationPool.EveryRunIsSound: worker threads, timers and promises are events; which worker starts fail is a parameter, and sending rows in chunks is `WorkerRowTransport`.
- BoundedReadCache.EveryRunIsSound: a loader is two events, its result and its last callback; the clock may go backwards except where a lemma says otherwise.
- BatterDiscipline.ResolvedFromWholeSnapshot: the repository answers for the season asked, and the rows of a hash are a function of it. Preparing a row for analysis and the analysis itself are not modelled.
- HttpTransport.WindowBound: waiters pass in order because each waits for the promise of the one before; the events say so directly.
- Response bodies, cookies, timeouts of single fetches, routes, database access and the user interface.
