# SwiftHBV in Dafny

SwiftHBV is a Swift implementation of the HBV rainfall–runoff model used in
hydrology. It is calibrated with a Nelder–Mead simplex search. The model
takes a daily series of precipitation and temperature observed at one
weather station. It moves that weather up to ten elevation bands of a
catchment. It then routes the water through a cascade of tanks:

- a snow tank per band (snow depth SN and free water SW);
- a soil moisture tank (SM);
- an upper zone tank (UZ) with quick flow, slow flow and percolation;
- a lower zone tank (LZ) that also receives rain on lakes and loses lake
  evaporation.

The output is a simulated river discharge in m³/s.
`OptimizableHBVModel` scores one parameter vector against an observed
discharge series. The score combines the Nash–Sutcliffe efficiency of the
discharge with a normalized absolute error of the accumulated discharge,
and ignores a 30-step warm-up. `SimplexSearcher` minimises that score over
the 16 model parameters. Around the model sit these helpers:

- a small `Vector` type with element-wise arithmetic;
- array arithmetic and statistics;
- the objective functions;
- approximate equality;
- a CSV splitter and joiner;
- the parser that turns a CSV text into observation records.

The Dafny project mirrors the Swift sources file by file, in one module per
file:

- `Vectors`, `VectorUtils`, `ApproxEqual`, `Helpers`, `MathFunctions`,
  `MathOperators`, `Objectives` and `Csv` are pure functions. Where the
  Swift code loops or mutates locally, they are methods whose contracts tie
  them to those functions.
- `Catchment` and `CatchmentData` hold the catchment characteristics, the
  observation rows and their parser.
- `Parameters` holds the 16 model parameters: a class with the Swift
  fields, plus a value snapshot `Params`.
- `Snow`, `SoilMoisture`, `UpperZone` and `LowerZone` each define the
  tank's step as a function of its state. Each also has a class whose
  fields the step updates in place. `UpperZone` also writes back the
  shared `perc` parameter, as the Swift class does.
- `HBV` is the full model as a class over the tank objects. It is proved
  against a pure specification of a step (`CascadeStep`) and of a whole
  run (`Run`).
- `OptimizableHBV` is the cost function.
- `SimplexSteps` holds the pure Nelder–Mead step, the sort by cost and
  the termination test.
- `Simplex` is the `SimplexSearcher` class with its loops.

Values the Swift code takes from outside are parameters of the Dafny
members:

- **Random draws.** The initial vertices take `draw(i, j)`, or
  `draws(run, i, j)` per run. The shake-up factors take `noise(t, i, j)`,
  or `noise(run, t, i, j)` per run.
- **Foundation's non-integer `pow`.** This is `pow: (real, real) -> real`.
- **`Double(String)`.** This is `parseDouble: string -> Option<real>`.

Swift `Double` is modelled as an exact `real`. A `fatalError` guard becomes
a `requires` clause. A thrown error becomes a `Result`.

## Model

| member | source | states |
|---|---|---|
| Vectors.RepeatedValue | Sources/SwiftHBV/helpers/Vector.swift:19-26 | a vector of the requested positive dimension whose every element is the value |
| Vectors.FromArray | Sources/SwiftHBV/helpers/Vector.swift:29-42 | a non-empty array becomes a vector of its length holding exactly its elements |
| Vectors.Set | Sources/SwiftHBV/helpers/Vector.swift:56-69 | setting a valid index changes that element to the new value and leaves every other element and the dimension unchanged |
| Vectors.SetGetIdentity | Sources/SwiftHBV/helpers/Vector.swift:56-69 | writing back the element read at a valid index gives the same vector |
| Vectors.Get | Sources/SwiftHBV/helpers/Vector.swift:56-62 | the getter returns the element at a valid index; an invalid index is fatal and excluded |
| Vectors.IsAlmostEqual | Sources/SwiftHBV/helpers/Vector.swift:73-88 | true exactly when the dimensions agree and no element of self exceeds the other's by more than the accuracy (a one-sided test) |
| Vectors.CloseFrom | Sources/SwiftHBV/helpers/Vector.swift:79-84 | the loop from index i on passes exactly when every later element difference is within the accuracy |
| Vectors.IsAlmostEqualOneSided | Sources/SwiftHBV/helpers/Vector.swift:73-88 | the comparison is not symmetric: [0] is almost equal to [10] at accuracy 0.1, but [10] is not almost equal to [0] |
| Vectors.PlusMinusInverse | Sources/SwiftHBV/helpers/Vector.swift:173-221 | subtracting a vector undoes adding it |
| Vectors.NegatedInvolution | Sources/SwiftHBV/helpers/Vector.swift:246-252 | negating twice gives the vector back |
| Vectors.Plus | Sources/SwiftHBV/helpers/Vector.swift:173-182 | vectors of equal dimension add element by element; the dimension is kept |
| Vectors.Minus | Sources/SwiftHBV/helpers/Vector.swift:212-221 | vectors of equal dimension subtract element by element; the dimension is kept |
| Vectors.Times | Sources/SwiftHBV/helpers/Vector.swift:262-271 | vectors of equal dimension multiply element by element; the dimension is kept |
| Vectors.TimesCommutes | Sources/SwiftHBV/helpers/Vector.swift:262-271 | the element-wise product does not depend on the order of its operands |
| Vectors.Shifted | Sources/SwiftHBV/helpers/Vector.swift:190-197 | the scalar is added to every element; the dimension is kept |
| Vectors.ShiftedUndone | Sources/SwiftHBV/helpers/Vector.swift:190-241 | shifting by -s undoes shifting by s |
| Vectors.Scaled | Sources/SwiftHBV/helpers/Vector.swift:274-281 | every element is multiplied by the scalar; the dimension is kept |
| Vectors.ScaledUndone | Sources/SwiftHBV/helpers/Vector.swift:274-281 | scaling by 1/s undoes scaling by a non-zero s |
| Vectors.Negated | Sources/SwiftHBV/helpers/Vector.swift:246-252 | every element is negated; the dimension is kept |
| Vectors.Add | Sources/SwiftHBV/helpers/Vector.swift:173-182 | element-wise sum of two vectors of equal dimension |
| Vectors.AddAssign | Sources/SwiftHBV/helpers/Vector.swift:185-187 | `+=` with a vector leaves the left side equal to the element-wise sum |
| Vectors.AddScalar | Sources/SwiftHBV/helpers/Vector.swift:190-197 | the scalar is added to every element; the dimension is kept |
| Vectors.ScalarAdd | Sources/SwiftHBV/helpers/Vector.swift:200-202 | scalar plus vector equals vector plus scalar |
| Vectors.AddAssignScalar | Sources/SwiftHBV/helpers/Vector.swift:205-207 | `+=` with a scalar shifts every element by it |
| Vectors.Subtract | Sources/SwiftHBV/helpers/Vector.swift:212-221 | element-wise difference of two vectors of equal dimension |
| Vectors.SubtractAssign | Sources/SwiftHBV/helpers/Vector.swift:224-226 | `-=` with a vector leaves the left side equal to the element-wise difference |
| Vectors.SubtractScalar | Sources/SwiftHBV/helpers/Vector.swift:229-231 | the scalar is subtracted from every element |
| Vectors.ScalarSubtract | Sources/SwiftHBV/helpers/Vector.swift:234-236 | every element becomes the scalar minus that element |
| Vectors.SubtractAssignScalar | Sources/SwiftHBV/helpers/Vector.swift:239-241 | `-=` with a scalar shifts every element by its negation |
| Vectors.Negate | Sources/SwiftHBV/helpers/Vector.swift:246-252 | every element is negated |
| Vectors.Multiply | Sources/SwiftHBV/helpers/Vector.swift:262-271 | element-wise product (not a dot product, despite the comment) |
| Vectors.MultiplyScalar | Sources/SwiftHBV/helpers/Vector.swift:274-281 | every element is scaled by the scalar |
| Vectors.ScalarMultiply | Sources/SwiftHBV/helpers/Vector.swift:284-286 | scalar times vector equals vector times scalar |
| Vectors.MultiplyAssignScalar | Sources/SwiftHBV/helpers/Vector.swift:289-291 | `*=` with a scalar scales every element |
| VectorUtils.SumVectors | Sources/SwiftHBV/helpers/VectorUtils.swift:5-19 | component j of the sum of equal-dimension vectors is the sum of their j-th components |
| VectorUtils.Column | Sources/SwiftHBV/helpers/VectorUtils.swift:9-16 | coordinate j of every vector, one per vector and in list order |
| VectorUtils.SumPrefix | Sources/SwiftHBV/helpers/VectorUtils.swift:9-16 | the fold after n vectors holds, per component, the sum over the first n vectors |
| VectorUtils.ColumnOfPrefix | Sources/SwiftHBV/helpers/VectorUtils.swift:9-16 | one more step of the fold adds the next vector's component to each column sum |
| VectorUtils.MeanVectors | Sources/SwiftHBV/helpers/VectorUtils.swift:21-26 | component j of the mean vector is the mean of the j-th components |
| VectorUtils.MeanOfOneVector | Sources/SwiftHBV/helpers/VectorUtils.swift:21-26 | the mean of a single vector is that vector |
| VectorUtils.VectorsAlmostEqual | Sources/SwiftHBV/helpers/VectorUtils.swift:28-30 | the free function agrees with the vector method |
| VectorUtils.ListsAlmostEqual | Sources/SwiftHBV/helpers/VectorUtils.swift:32-45 | equal list lengths and every rhs vector almost equal to the lhs vector at the same index (the arguments are swapped) |
| VectorUtils.ListCloseFrom | Sources/SwiftHBV/helpers/VectorUtils.swift:37-41 | the loop from index i on passes exactly when every later pair passes |
| VectorUtils.ListTestIsReversed | Sources/SwiftHBV/helpers/VectorUtils.swift:32-45 | because of the swap, lists [[10]] and [[0]] compare almost equal although the vectors [10] and [0] do not |
| ApproxEqual.ScalarIsOneSided | Sources/SwiftHBV/helpers/isAlmostEqual.swift:4-7 | the scalar test is one-sided: a smaller lhs always passes, while the same pair the other way fails once the gap reaches the accuracy |
| ApproxEqual.ArraysAlmostEqual | Sources/SwiftHBV/helpers/isAlmostEqual.swift:9-21 | true exactly when the lengths agree and every pair passes the strict scalar test |
| ApproxEqual.StrictPairsFrom | Sources/SwiftHBV/helpers/isAlmostEqual.swift:14-16 | the loop from index i on passes exactly when every later pair passes |
| ApproxEqual.ExtensionAlmostEqual | Sources/SwiftHBV/helpers/isAlmostEqual.swift:23-40 | true exactly when the lengths agree and no lhs element exceeds the rhs one by more than the accuracy (non-strict) |
| ApproxEqual.NonStrictPairsFrom | Sources/SwiftHBV/helpers/isAlmostEqual.swift:32-35 | the loop from index i on passes exactly when every later difference is at most the accuracy |
| ApproxEqual.StrictImpliesNonStrict | Sources/SwiftHBV/helpers/isAlmostEqual.swift:9-40 | whatever passes the free array function also passes the Array extension |
| ApproxEqual.BoundaryDiffers | Sources/SwiftHBV/helpers/isAlmostEqual.swift:4-40 | a difference exactly equal to the accuracy passes the extension but not the free function |
| ApproxEqual.SelfComparisonPasses | Sources/SwiftHBV/helpers/isAlmostEqual.swift:9-40 | with a positive accuracy an array is almost equal to itself under both tests |
| ApproxEqual.LengthMismatchFails | Sources/SwiftHBV/helpers/isAlmostEqual.swift:10-12 | arrays of different lengths are never almost equal |
| Helpers.Unzipped | Sources/SwiftHBV/helpers/helpers.swift:16-29 | the keys and the values of the pairs, in order and of the same length |
| Helpers.Unzip | Sources/SwiftHBV/helpers/helpers.swift:16-29 | the appending loop yields exactly the key sequence and the value sequence |
| Helpers.UnzipZip | Sources/SwiftHBV/helpers/helpers.swift:16-29 | unzipping zipped equal-length sequences gives them back |
| Helpers.ZipUnzip | Sources/SwiftHBV/helpers/helpers.swift:16-29 | zipping the unzipped halves gives the pairs back |
| Helpers.Zip | Sources/SwiftHBV/searcher/SimplexSearcher.swift:332 | as many pairs as the shorter sequence has elements, pair i holding element i of each |
| Helpers.Scan | Sources/SwiftHBV/helpers/helpers.swift:31-40 | one more element than the input, starting at the initial value, each next one f of the previous and the input element |
| MathFunctions.SumAppend | Sources/SwiftHBV/helpers/mathFunctions.swift:10-12 | the sum of an array with one more element grows by that element |
| MathFunctions.MaxMinBounds | Sources/SwiftHBV/models/1-SnowTank.swift:68-70 | `max` returns one of its arguments and is at least both; `min` returns one of its arguments and is at most both |
| MathFunctions.SumConcat | Sources/SwiftHBV/helpers/mathFunctions.swift:10-12 | the sum is additive over concatenation |
| MathFunctions.SumNonNegative | Sources/SwiftHBV/helpers/mathFunctions.swift:10-12 | non-negative elements have a non-negative sum |
| MathFunctions.SumOfNonNegatives | Sources/SwiftHBV/helpers/mathFunctions.swift:10-12 | non-negative elements have a non-negative sum, and all-zero elements sum to zero |
| MathFunctions.SumZeros | Sources/SwiftHBV/helpers/mathFunctions.swift:10-12 | all-zero elements sum to zero |
| MathFunctions.SumConstant | Sources/SwiftHBV/helpers/mathFunctions.swift:10-12 | n copies of c sum to n times c |
| MathFunctions.SumPointwiseAdd | Sources/SwiftHBV/helpers/mathFunctions.swift:10-12 | the sum of an element-wise sum is the sum of the sums |
| MathFunctions.SumScaled | Sources/SwiftHBV/helpers/mathFunctions.swift:10-12 | scaling every element scales the sum |
| MathFunctions.Mean | Sources/SwiftHBV/helpers/mathFunctions.swift:15-21 | zero for an empty array, otherwise the value that times the count gives the sum |
| MathFunctions.MeanOfConstant | Sources/SwiftHBV/helpers/mathFunctions.swift:15-21 | the mean of a non-empty constant array is the constant |
| MathFunctions.MeanNonNegative | Sources/SwiftHBV/helpers/mathFunctions.swift:15-21 | the mean of non-negative values is non-negative |
| MathFunctions.AsReals | Sources/SwiftHBV/helpers/mathFunctions.swift:24-30 | the integer array converted element by element |
| MathFunctions.MeanOfInts | Sources/SwiftHBV/helpers/mathFunctions.swift:24-30 | the mean of integers equals the mean of their real values |
| MathFunctions.SumOfInts | Sources/SwiftHBV/helpers/mathFunctions.swift:10-12 | the integer sum equals the sum of the real values |
| MathFunctions.SquaredDeviations | Sources/SwiftHBV/helpers/mathFunctions.swift:33-37 | the squared distance of every element from the given mean |
| MathFunctions.StDev | Sources/SwiftHBV/helpers/mathFunctions.swift:33-37 | the sample variance (no square root is taken) is never negative and is zero for a constant array |
| MathFunctions.StDevOfInts | Sources/SwiftHBV/helpers/mathFunctions.swift:39-43 | the integer version equals the real version on the converted values |
| MathFunctions.SquaredDeviationsFacts | Sources/SwiftHBV/helpers/mathFunctions.swift:33-37 | the sum of squared deviations from the mean is non-negative, and zero when all elements are equal |
| MathFunctions.Cumsum | Sources/SwiftHBV/helpers/mathFunctions.swift:46-49 | same length; element i is the sum of the first i+1 elements; the last element is the total |
| MathFunctions.ScanOfAddIsPrefixSums | Sources/SwiftHBV/helpers/mathFunctions.swift:46-49 | scanning with + from zero gives every prefix sum, so dropping the first element gives the cumulative sum |
| MathFunctions.PrefixSum | Sources/SwiftHBV/helpers/mathFunctions.swift:46-49 | element i of the scan from zero is the sum of the first i elements |
| MathFunctions.CumsumOfTail | Sources/SwiftHBV/helpers/mathFunctions.swift:46-49 | the cumulative sum past index k is the sum of the first k elements plus the cumulative sum of the tail |
| MathOperators.IntTimes | Sources/SwiftHBV/helpers/mathOperators.swift:6-12 | Int times Double equals Double times Int |
| MathOperators.TimesIntRepeatsAddition | Sources/SwiftHBV/helpers/mathOperators.swift:6-8 | Double times Int is repeated addition: times 0 gives 0, one more factor adds the Double once more |
| MathOperators.DivideByInt | Sources/SwiftHBV/helpers/mathOperators.swift:14-16 | the quotient that times the non-zero integer gives the dividend |
| MathOperators.IntDividedBy | Sources/SwiftHBV/helpers/mathOperators.swift:18-20 | the quotient that times the non-zero divisor gives the integer |
| MathOperators.DivideByIntUndoesTimesInt | Sources/SwiftHBV/helpers/mathOperators.swift:6-16 | dividing by a non-zero integer undoes multiplying by it |
| MathOperators.PlusScalar | Sources/SwiftHBV/helpers/mathOperators.swift:40-42 | the scalar added to every element |
| MathOperators.ScalarPlus | Sources/SwiftHBV/helpers/mathOperators.swift:44-46 | scalar plus array equals array plus scalar |
| MathOperators.MinusScalar | Sources/SwiftHBV/helpers/mathOperators.swift:48-50 | the scalar subtracted from every element |
| MathOperators.ScalarMinus | Sources/SwiftHBV/helpers/mathOperators.swift:52-54 | every element subtracted from the scalar |
| MathOperators.TimesScalar | Sources/SwiftHBV/helpers/mathOperators.swift:56-58 | every element times the scalar |
| MathOperators.ScalarTimes | Sources/SwiftHBV/helpers/mathOperators.swift:60-62 | scalar times array equals array times scalar |
| MathOperators.DividedBy | Sources/SwiftHBV/helpers/mathOperators.swift:72-74 | every element divided by the non-zero denominator |
| MathOperators.DividedByInt | Sources/SwiftHBV/helpers/mathOperators.swift:76-78 | dividing by an integer equals dividing by its real value |
| MathOperators.PowerEach | Sources/SwiftHBV/helpers/mathOperators.swift:68-70 | every element raised to the Int exponent, negative exponents included; a negative exponent needs non-zero elements, since Swift would give an infinity |
| MathOperators.Power | Sources/SwiftHBV/helpers/mathOperators.swift:34-36 | a non-negative Int exponent gives the repeated product; a negative one gives the number that times the product for -n is 1, for a non-zero base |
| MathOperators.PowerNegativeIsReciprocal | Sources/SwiftHBV/helpers/mathOperators.swift:34-36 | raising a non-zero base to -n undoes raising it to n |
| MathOperators.PowerTwoSquares | Sources/SwiftHBV/helpers/mathOperators.swift:34-36 | exponent 2 squares every element |
| MathOperators.PowerExamples | Tests/SwiftHBVTests/helpers/mathOperatorsTests.swift:17 | [2, 4] to the power 2 is [4, 16]; to the power -1 it is [0.5, 0.25] |
| MathOperators.MinusScalarUndoesPlusScalar | Sources/SwiftHBV/helpers/mathOperators.swift:40-50 | subtracting a scalar undoes adding it, on either side |
| MathOperators.ScalarMinusIsNegatedMinusScalar | Sources/SwiftHBV/helpers/mathOperators.swift:48-58 | scalar minus array is the negation of array minus scalar |
| MathOperators.DividedByUndoesTimesScalar | Sources/SwiftHBV/helpers/mathOperators.swift:56-74 | dividing by a non-zero scalar undoes multiplying by it, on either side |
| Objectives.Differences | Sources/SwiftHBV/helpers/objectiveFunctions.swift:35-37 | the pairwise differences over the shorter of the two arrays, as `zip` gives |
| Objectives.Squares | Sources/SwiftHBV/helpers/objectiveFunctions.swift:35-42 | every element squared, never negative |
| Objectives.Abs | Sources/SwiftHBV/helpers/objectiveFunctions.swift:103-105 | every element's absolute value: non-negative and equal to the element or its negation |
| Objectives.SquaredError | Sources/SwiftHBV/helpers/objectiveFunctions.swift:35-37 | the sum of squared differences is non-negative, and zero for identical arrays |
| Objectives.SquaredErrorTo | Sources/SwiftHBV/helpers/objectiveFunctions.swift:40-42 | the squared error against a number is non-negative, and zero when every element equals it |
| Objectives.SquaredErrorFrom | Sources/SwiftHBV/helpers/objectiveFunctions.swift:45-47 | a number against an array gives the same as the array against the number |
| Objectives.AbsoluteError | Sources/SwiftHBV/helpers/objectiveFunctions.swift:52-54 | the sum of absolute differences is non-negative, and zero for identical arrays |
| Objectives.AbsoluteErrorTo | Sources/SwiftHBV/helpers/objectiveFunctions.swift:57-59 | the absolute error against a number is non-negative, and zero when every element equals it |
| Objectives.AbsoluteErrorFrom | Sources/SwiftHBV/helpers/objectiveFunctions.swift:62-64 | a number against an array gives the same as the array against the number |
| Objectives.AbsoluteErrorSymmetric | Sources/SwiftHBV/helpers/objectiveFunctions.swift:52-54 | the absolute error does not depend on the order of its arguments |
| Objectives.ConstantPredictionErrors | Sources/SwiftHBV/helpers/objectiveFunctions.swift:35-59 | the error of a constant prediction equals the error of the observations against that constant |
| Objectives.NonConstantHasSpread | Sources/SwiftHBV/helpers/objectiveFunctions.swift:8-30 | observations with two different values have a positive squared and absolute spread about their mean, so both scores are defined |
| Objectives.ConstantHasNoSpread | Sources/SwiftHBV/helpers/objectiveFunctions.swift:8-30 | a constant series has no squared and no absolute spread about its mean, so both scores divide by zero |
| Objectives.R2 | Sources/SwiftHBV/helpers/objectiveFunctions.swift:8-11 | when the observations spread about their mean: finite, at most 1, and 1 exactly when the squared error is zero; on constant observations the IEEE quotient by zero: NaN for a perfect simulation and minus infinity otherwise |
| Objectives.R2WithMean | Sources/SwiftHBV/helpers/objectiveFunctions.swift:16-18 | with the true mean passed in it equals R2; for any given mean the same cases hold with the spread about that mean |
| Objectives.R2OfMeanPrediction | Sources/SwiftHBV/helpers/objectiveFunctions.swift:8-11 | predicting the observed mean scores exactly 0 when the observations spread, and NaN (0/0) when they are constant |
| Objectives.NormalizedAbsoluteError | Sources/SwiftHBV/helpers/objectiveFunctions.swift:23-25 | when the observations spread about their mean: finite, at most 1, and 1 exactly when the absolute error is zero; on constant observations NaN for a perfect simulation and minus infinity otherwise |
| Objectives.NormalizedAbsoluteErrorWithMean | Sources/SwiftHBV/helpers/objectiveFunctions.swift:28-30 | with the true mean passed in it equals the normalized absolute error; for any given mean the same cases hold with the spread about that mean |
| Objectives.NormalizedAbsoluteErrorOfMeanPrediction | Sources/SwiftHBV/helpers/objectiveFunctions.swift:23-25 | predicting the observed mean scores exactly 0 when the observations spread, and NaN (0/0) when they are constant |
| Objectives.Mse | Sources/SwiftHBV/helpers/objectiveFunctions.swift:69-71 | non-negative; times the number of compared pairs it gives the squared error (zero pairs give 0) |
| Objectives.MseTo | Sources/SwiftHBV/helpers/objectiveFunctions.swift:74-76 | non-negative; times the length it gives the squared error against the number |
| Objectives.MseFrom | Sources/SwiftHBV/helpers/objectiveFunctions.swift:79-81 | a number against an array gives the same as the array against the number |
| Objectives.Mae | Sources/SwiftHBV/helpers/objectiveFunctions.swift:86-88 | non-negative; times the number of compared pairs it gives the absolute error (zero pairs give 0) |
| Objectives.MaeTo | Sources/SwiftHBV/helpers/objectiveFunctions.swift:91-93 | non-negative; times the length it gives the absolute error against the number |
| Objectives.MaeFrom | Sources/SwiftHBV/helpers/objectiveFunctions.swift:96-98 | a number against an array gives the same as the array against the number |
| Csv.Split | Sources/SwiftHBV/helpers/parseCSV.swift:6 | splitting always gives at least one piece, and no piece contains a separator |
| Csv.SplitOn | Sources/SwiftHBV/helpers/parseCSV.swift:10 | splitting on a separator string gives at least one piece; an empty separator leaves the text whole; the first piece is a prefix of the text and no piece contains the separator |
| Csv.SplitOnChar | Sources/SwiftHBV/helpers/parseCSV.swift:6-10 | a one-character separator string splits exactly like a split at that character |
| Csv.MultiCharacterSeparatorExample | Sources/SwiftHBV/helpers/parseCSV.swift:10 | "a;;b;;;c" split on ";;" gives "a", "b" and ";c": occurrences are taken left to right |
| Csv.JoinSplit | Sources/SwiftHBV/helpers/parseCSV.swift:10-21 | joining the pieces of a split on any separator string, empty or multi-character included, with that separator gives the text back |
| Csv.SplitAfterPiece | Sources/SwiftHBV/helpers/parseCSV.swift:6-10 | a separator-free piece followed by a separator splits off as the first piece |
| Csv.SplitJoin | Sources/SwiftHBV/helpers/parseCSV.swift:10-21 | splitting the join of separator-free pieces gives the pieces back |
| Csv.SplitNoSeparator | Sources/SwiftHBV/helpers/parseCSV.swift:6-10 | a text without separators is a single piece |
| Csv.CsvRows | Sources/SwiftHBV/helpers/parseCSV.swift:4-14 | one row per newline-separated segment, each row with at least one cell |
| Csv.RowsJoinToLines | Sources/SwiftHBV/helpers/parseCSV.swift:4-14 | nothing of a line is lost: joining a parsed row with the separator gives back the line it came from |
| Csv.ParseCSV | Sources/SwiftHBV/helpers/parseCSV.swift:4-14 | the loop appends exactly the column split of every line, in order |
| Csv.LinesAppend | Sources/SwiftHBV/helpers/parseCSV.swift:20-21 | one more row appends its joined line and a newline |
| Csv.MakeCSV | Sources/SwiftHBV/helpers/parseCSV.swift:16-23 | the header line when there are headers, then every row's line; no headers and no rows give the empty text |
| Csv.JoinHasNoNewline | Sources/SwiftHBV/helpers/parseCSV.swift:19-21 | joining newline-free cells with a non-newline separator gives a newline-free line |
| Csv.SplitLines | Sources/SwiftHBV/helpers/parseCSV.swift:4-23 | the text of plain rows splits at newlines into their lines plus one empty trailing segment |
| Csv.RoundTrip | Sources/SwiftHBV/helpers/parseCSV.swift:4-23 | parsing the CSV of plain rows without headers gives the rows back, followed by one row holding a single empty cell |
| Csv.EmptyText | Sources/SwiftHBV/helpers/parseCSV.swift:4-23 | the empty text parses to one row with one empty cell, and no rows and no headers make the empty text |
| Catchment.Example | Sources/SwiftHBV/CatchmentParameters.swift:99-120 | the example catchment has eleven elevation levels, a positive area and a positive time step |
| Catchment.SnowLevels | Sources/SwiftHBV/CatchmentParameters.swift:37-39 | eleven elevation levels, from the lowest height of the catchment to its highest |
| CatchmentData.ParseRow | Sources/SwiftHBV/parser/ParseCatchmentData.swift:18-41 | a row is skipped exactly when it has at most one cell or an empty first cell; it is rejected for its size exactly when it is not skipped and does not have 5 cells; a parsed row had 5 non-empty, numeric cells and yields the date, the precipitation, the mean of the two temperatures and the discharge |
| CatchmentData.EmptyFirstColumnUnreachable | Sources/SwiftHBV/parser/ParseCatchmentData.swift:18-26 | the empty-first-column error can never be thrown; an empty-value error names the first empty cell among columns 1 to 4 |
| CatchmentData.ParseRowsSucceeds | Sources/SwiftHBV/parser/ParseCatchmentData.swift:11-45 | the parse succeeds exactly when no row is rejected, and then returns the records of all non-skipped rows in order |
| CatchmentData.ParseRowsFailsAtFirst | Sources/SwiftHBV/parser/ParseCatchmentData.swift:11-45 | a failed parse reports the error of the first rejected row |
| CatchmentData.ParseCatchmentData | Sources/SwiftHBV/parser/ParseCatchmentData.swift:11-45 | the loop over the comma-split rows gives exactly the all-or-nothing parse of those rows |
| CatchmentData.PrefixFailureIsFinal | Sources/SwiftHBV/parser/ParseCatchmentData.swift:15-45 | once the rows so far have failed, the rest of the rows cannot change the outcome, which justifies the early throw |
| Parameters.ToVector | Sources/SwiftHBV/models/ModelParameters.swift:37-56 | the 16 values in the documented order: P_corr, S_corr, Cx, Cfr, Cpro, Tx, Ts, FC, ET, beta, epot, KUZ1, KUZ0, UZ1, perc, KLZ |
| Parameters.FromVector | Sources/SwiftHBV/models/ModelParameters.swift:59-80 | the parameters read from a 16-vector turn back into exactly that vector |
| Parameters.FromToVector | Sources/SwiftHBV/models/ModelParameters.swift:37-80 | reading back the vector of a parameter set gives the same parameters |
| Parameters.DefaultVector | Sources/SwiftHBV/models/ModelParameters.swift:6-30 | the default parameters as a vector, all 16 positive |
| Parameters.ModelParameters.constructor | Sources/SwiftHBV/models/ModelParameters.swift:4-30 | a new parameter object holds the defaults |
| Parameters.ModelParameters.AsVector | Sources/SwiftHBV/models/ModelParameters.swift:37-56 | the object's 16 fields in order, which read back give its values |
| Parameters.ModelParameters.SetAsVector | Sources/SwiftHBV/models/ModelParameters.swift:59-80 | after setting, the fields are the vector's values and `asVector` returns the vector; setting the current vector changes nothing |
| Parameters.ModelParameters.SetValues | Sources/SwiftHBV/models/ModelParameters.swift:59-80 | every field takes the given value |
| Parameters.ModelParameters.SetFirstEight | Sources/SwiftHBV/models/ModelParameters.swift:64-71 | the fields from P_corr to FC take the given values; no other field is written |
| Parameters.ModelParameters.SetLastEight | Sources/SwiftHBV/models/ModelParameters.swift:72-79 | the fields from ET to KLZ take the given values; no other field is written |
| Parameters.ModelParameters2.constructor | Sources/SwiftHBV/models/ModelParameters.swift:106-132 | the duplicate class starts from the same defaults |
| Parameters.ModelParameters2.AsVector | Sources/SwiftHBV/models/ModelParameters.swift:139-158 | the object's 16 fields in order |
| Parameters.ModelParameters2.SetAsVector | Sources/SwiftHBV/models/ModelParameters.swift:161-182 | after setting, the fields are the vector's values and `asVector` returns the vector |
| Parameters.ModelParameters2.SetValues | Sources/SwiftHBV/models/ModelParameters.swift:161-182 | every field takes the given value |
| Parameters.ModelParameters2.SetFirstEight | Sources/SwiftHBV/models/ModelParameters.swift:166-173 | the fields from P_corr to FC take the given values; no other field is written |
| Parameters.ModelParameters2.SetLastEight | Sources/SwiftHBV/models/ModelParameters.swift:174-181 | the fields from ET to KLZ take the given values; no other field is written |
| Snow.SnowStepBalance | Sources/SwiftHBV/models/1-SnowTank.swift:45-77 | water is conserved: new SN + SW + insoil is old SN + SW plus the band's precipitation; insoil is never negative and is positive exactly when the free water exceeds Cpro times the snow; melt is at most the snow after the input and refreeze at most the free water after the input |
| Snow.MeltRefreezeExclusive | Sources/SwiftHBV/models/1-SnowTank.swift:69-70 | with non-negative melt and freeze constants, melt and refreeze never both happen in one step |
| Snow.SnowDepthNonNegative | Sources/SwiftHBV/models/1-SnowTank.swift:64-73 | the snow depth stays non-negative when the free water after the input is non-negative |
| Snow.NegativeStorageIsReachable | Sources/SwiftHBV/models/1-SnowTank.swift:64-74 | with the tests' catchment and default parameters, two steps from SN=100, SW=10 leave SN at -6: negative storage is reachable |
| Snow.HigherBandsColderAndWetter | Sources/SwiftHBV/models/1-SnowTank.swift:53-61 | with non-positive temperature gradients a higher band is no warmer; with a non-negative precipitation gradient and non-negative precipitation it is no drier |
| Snow.ObservationHeightUnchanged | Sources/SwiftHBV/models/1-SnowTank.swift:53-61 | at the observation elevation temperature and precipitation are unchanged |
| Snow.BandTemperature | Sources/SwiftHBV/models/1-SnowTank.swift:50-58 | the band temperature is the observed one at the observation height; with non-positive gradients it is no warmer above it and no colder below it |
| Snow.BandPrecipitation | Sources/SwiftHBV/models/1-SnowTank.swift:61 | the band precipitation is the observed one at the observation height and zero when nothing is observed; with a non-negative gradient and observation it is no less above the observation height |
| Snow.AfterInput | Sources/SwiftHBV/models/1-SnowTank.swift:64-65 | the precipitation is added to SN below Tx and to SW otherwise; the other store is unchanged |
| Snow.Release | Sources/SwiftHBV/models/1-SnowTank.swift:68 | insoil is never negative and leaves at most Cpro times SN in the free water; it is positive exactly when SW exceeds that, and then leaves exactly that |
| Snow.PotentialMelt | Sources/SwiftHBV/models/1-SnowTank.swift:69 | the degree-day melt is not positive at or below Ts when Cx is non-negative |
| Snow.PotentialRefreeze | Sources/SwiftHBV/models/1-SnowTank.swift:70 | the degree-day refreeze is not positive at or above Ts when Cfr is non-negative |
| Snow.Melt | Sources/SwiftHBV/models/1-SnowTank.swift:69 | melt never exceeds SN, is non-negative on non-negative snow, and with non-negative Cx happens only above Ts |
| Snow.Refreeze | Sources/SwiftHBV/models/1-SnowTank.swift:70 | refreeze never exceeds SW, is non-negative on non-negative free water, and with non-negative Cfr happens only below Ts |
| Snow.DegreeDayCaps | Sources/SwiftHBV/models/1-SnowTank.swift:69-70 | melt never exceeds the positive part of Cx(T - Ts), and refreeze never exceeds the positive part of Cfr(Ts - T) |
| Snow.SnowStep | Sources/SwiftHBV/models/1-SnowTank.swift:45-77 | insoil is never negative, and new SN + SW + insoil is old SN + SW plus the band precipitation |
| Snow.SnowStepFluxes | Sources/SwiftHBV/models/1-SnowTank.swift:67-74 | in a step melt is at most the snow after the input and refreeze at most the free water after the input, both non-negative when those are |
| Snow.SnowStepRelease | Sources/SwiftHBV/models/1-SnowTank.swift:64-68 | in a step the soil gets water exactly when the free water after the input exceeds Cpro times the snow after the input |
| Snow.RainOnSnowExample | Tests/SwiftHBVTests/models/1-SnowTankTests.swift:46-57 | rain on 100 mm of snow at 4.5 °C: insoil 16, SN 80, SW 24 |
| Snow.RefreezeExample | Tests/SwiftHBVTests/models/1-SnowTankTests.swift:72-86 | at -0.5 °C, 3 of the 4 mm of free water refreeze: SN 103, SW 1, no insoil |
| Snow.RefreezeLimitedExample | Tests/SwiftHBVTests/models/1-SnowTankTests.swift:88-101 | at -9.5 °C the refreeze is limited to the 4 mm there are: SN 104, SW 0, no insoil |
| Snow.SnowAtElevationExample | Tests/SwiftHBVTests/models/1-SnowTankTests.swift:34-44 | 7 mm at 1000 m falls as snow raised by the gradient to 10.5 mm, with no insoil |
| Snow.SnowTank.constructor | Sources/SwiftHBV/models/1-SnowTank.swift:34-38 | a new band tank at its elevation is empty |
| Snow.SnowTank.ResetState | Sources/SwiftHBV/models/1-SnowTank.swift:40-43 | both stores are emptied |
| Snow.SnowTank.SimulateTimestepAndGetOutput | Sources/SwiftHBV/models/1-SnowTank.swift:45-77 | the new SN and SW and the returned insoil are the snow step of the old state |
| SoilMoisture.SoilStepBalance | Sources/SwiftHBV/models/2-SoilMoistureTank.swift:30-51 | water is conserved: new SM + dUZ + evaporation is old SM + insoil; dUZ is at most the water there is; SM never goes negative |
| SoilMoisture.SoilStep | Sources/SwiftHBV/models/2-SoilMoistureTank.swift:30-51 | new SM + dUZ + evaporation is old SM + insoil; dUZ is at most the water there is; SM never goes negative |
| SoilMoisture.Recharge | Sources/SwiftHBV/models/2-SoilMoistureTank.swift:39-40 | dUZ is at most the moisture and at most (SM/FC)^beta times the input, and equals the latter whenever it is below the moisture |
| SoilMoisture.Evaporation | Sources/SwiftHBV/models/2-SoilMoistureTank.swift:43-45 | evaporation never exceeds what the recharge leaves nor a non-negative potential, and from SM at or above ET it is the potential capped by what is left |
| SoilMoisture.RechargeNonNegative | Sources/SwiftHBV/models/2-SoilMoistureTank.swift:36-40 | with non-negative storage and input and a non-negative power, the recharge is between 0 and the storage |
| SoilMoisture.EvaporationBounded | Sources/SwiftHBV/models/2-SoilMoistureTank.swift:43-45 | evaporation never exceeds the potential, and is non-negative on non-negative storage |
| SoilMoisture.EmptyTankIsQuiet | Sources/SwiftHBV/models/2-SoilMoistureTank.swift:30-51 | an empty tank with no input stays empty and gives nothing |
| SoilMoisture.EvaporationExamples | Tests/SwiftHBVTests/models/2-SoilMoistureTankTests.swift:28-38 | full evaporation 4 mm at SM 30, partial 2 mm at SM 10 |
| SoilMoisture.RechargeExamples | Tests/SwiftHBVTests/models/2-SoilMoistureTankTests.swift:48-71 | the outflow cases at SM 30 and SM 0 with 10 mm input, given the two powers they use |
| SoilMoisture.SoilMoistureTank.constructor | Sources/SwiftHBV/models/2-SoilMoistureTank.swift:21-24 | a new tank is empty |
| SoilMoisture.SoilMoistureTank.ResetState | Sources/SwiftHBV/models/2-SoilMoistureTank.swift:26-28 | the tank is emptied |
| SoilMoisture.SoilMoistureTank.SimulateTimestepAndGetOutput | Sources/SwiftHBV/models/2-SoilMoistureTank.swift:30-51 | the new SM and the returned dUZ and evaporation are the soil step of the old state |
| UpperZone.UpperStepBalance | Sources/SwiftHBV/models/3-UpperZoneTank.swift:30-54 | water is conserved: new UZ + perc + Q1 + Q0 is old UZ + dUZ; UZ never goes negative; percolation never rises above the parameter, and drops below it only by emptying the tank |
| UpperZone.UpperStep | Sources/SwiftHBV/models/3-UpperZoneTank.swift:30-54 | new UZ + perc + Q1 + Q0 is old UZ + dUZ; UZ never goes negative; perc never rises, and drops only by emptying the store |
| UpperZone.OnlyFilledLevelMatters | Sources/SwiftHBV/models/3-UpperZoneTank.swift:36-53 | the step depends only on the level after the input, not on how it was reached |
| UpperZone.QuickFlowBounded | Sources/SwiftHBV/models/3-UpperZoneTank.swift:40 | with KUZ1 in [0, 1] quick flow is between 0 and the water above UZ1 |
| UpperZone.NoQuickFlowUpToUZ1 | Sources/SwiftHBV/models/3-UpperZoneTank.swift:40 | up to UZ1 there is no quick flow |
| UpperZone.SlowFlowBounded | Sources/SwiftHBV/models/3-UpperZoneTank.swift:41 | with KUZ0 in [0, 1] slow flow is between 0 and the smaller of UZ1 and the level |
| UpperZone.SlowFlowSaturates | Sources/SwiftHBV/models/3-UpperZoneTank.swift:41 | above UZ1 the slow flow is that at UZ1: it no longer grows with the store |
| UpperZone.OutflowsBounded | Sources/SwiftHBV/models/3-UpperZoneTank.swift:40-44 | quick plus slow flow never exceed the water in the tank |
| UpperZone.PercNeverRises | Sources/SwiftHBV/models/3-UpperZoneTank.swift:46-51 | over any run of steps the written-back percolation never exceeds its starting value |
| UpperZone.FastResponseExample | Tests/SwiftHBVTests/models/3-UpperZoneTankTests.swift:49-65 | UZ 30 with no input and UZ 0 with 30 mm input give the same perc 1.5, Q1 10 and Q0 2 |
| UpperZone.PercTurnOffExample | Tests/SwiftHBVTests/models/3-UpperZoneTankTests.swift:30-35 | 0.5 mm cannot supply 1.5 mm of percolation: perc drops to 0.45 and the store empties |
| UpperZone.PercStaysLoweredExample | Tests/SwiftHBVTests/models/3-UpperZoneTankTests.swift:39-45 | after the drop, 10 mm of new water percolates only the lowered 0.45 mm and leaves 8.55 mm |
| UpperZone.UpperZoneTank.constructor | Sources/SwiftHBV/models/3-UpperZoneTank.swift:21-24 | a new tank is empty |
| UpperZone.UpperZoneTank.ResetState | Sources/SwiftHBV/models/3-UpperZoneTank.swift:26-28 | the tank is emptied |
| UpperZone.UpperZoneTank.SimulateTimestepAndGetOutput | Sources/SwiftHBV/models/3-UpperZoneTank.swift:30-54 | the new UZ and outputs are the upper step of the old state, and the shared parameter object's perc is overwritten with the step's percolation |
| LowerZone.LowerStepBalance | Sources/SwiftHBV/models/4-LowerZoneTank.swift:32-50 | water is conserved: new LZ + Q_lz + lake evaporation is old LZ + lake rain + percolation; lake evaporation is the lake fraction times epot |
| LowerZone.LowerStep | Sources/SwiftHBV/models/4-LowerZoneTank.swift:32-50 | new LZ + QLZ + lake evaporation is old LZ plus the lake precipitation and the percolation |
| LowerZone.LakeFraction | Sources/SwiftHBV/models/4-LowerZoneTank.swift:37-38 | the lake fraction is the percentage over 100, and lies in [0, 1] for a percentage in [0, 100] |
| LowerZone.LakePrecipitation | Sources/SwiftHBV/models/4-LowerZoneTank.swift:37 | without lakes no precipitation reaches the lower zone |
| LowerZone.LakePrecipitationShare | Sources/SwiftHBV/models/4-LowerZoneTank.swift:37 | the lake precipitation is the lake fraction of the precipitation, and for a percentage in [0, 100] lies between 0 and a non-negative precipitation |
| LowerZone.NoLakes | Sources/SwiftHBV/models/4-LowerZoneTank.swift:37-47 | without lakes there is no lake evaporation and all inflow is percolation |
| LowerZone.OutflowBounded | Sources/SwiftHBV/models/4-LowerZoneTank.swift:44 | with KLZ in [0, 1] the outflow is between 0 and the water in the tank |
| LowerZone.LowerStepExamples | Tests/SwiftHBVTests/models/4-LowerZoneTankTests.swift:20-53 | the four lower zone test cases with 2 % lakes and KLZ 0.15 |
| LowerZone.LowerZoneTank.constructor | Sources/SwiftHBV/models/4-LowerZoneTank.swift:23-26 | a new tank is empty |
| LowerZone.LowerZoneTank.ResetState | Sources/SwiftHBV/models/4-LowerZoneTank.swift:28-30 | the tank is emptied |
| LowerZone.LowerZoneTank.SimulateTimestepAndGetOutput | Sources/SwiftHBV/models/4-LowerZoneTank.swift:32-50 | the new LZ and outputs are the lower step of the old state |
| HBV.TruncateTowardZero | Sources/SwiftHBV/models/0-HBVModel.swift:43 | Swift's `Int(Double)`: the integer part, rounded toward zero |
| HBV.HalfTruncates | Sources/SwiftHBV/models/0-HBVModel.swift:43 | halving an integer sum and truncating equals integer division toward zero |
| HBV.BandElevations | Sources/SwiftHBV/models/0-HBVModel.swift:40-45 | one elevation per pair of adjacent levels, lying between them when they are ordered |
| HBV.Midpoint | Sources/SwiftHBV/models/0-HBVModel.swift:43 | the truncated mean of two ordered breakpoints lies between them |
| HBV.HalfTruncatesBetween | Sources/SwiftHBV/models/0-HBVModel.swift:43 | the truncated midpoint of two ordered levels lies between them |
| HBV.ExampleBandElevations | Sources/SwiftHBV/CatchmentParameters.swift:104-114 | the ten band elevations of the example catchment |
| HBV.CorrectedPrecipitation | Sources/SwiftHBV/models/0-HBVModel.swift:86-96 | the observed precipitation times S_corr or P_corr; zero stays zero, and equal corrections give P_corr times the observation |
| HBV.ConvertToQmmPerTimestep | Sources/SwiftHBV/models/0-HBVModel.swift:152-155 | zero maps to zero, and converting the result back to m³/s gives the input |
| HBV.ConvertToQm3PerS | Sources/SwiftHBV/models/0-HBVModel.swift:157-160 | for a positive area and time step the discharge is positive exactly when the depth is; for a non-zero area it is zero exactly when the depth is |
| HBV.ConversionRoundTrip | Sources/SwiftHBV/models/0-HBVModel.swift:152-160 | the two discharge conversions are inverse to each other for a non-zero area and step length |
| HBV.ExampleConversion | Sources/SwiftHBV/models/0-HBVModel.swift:157-160 | 86.4 mm per day over the example catchment is 3059.5 m³/s |
| HBV.InitialState | Sources/SwiftHBV/models/0-HBVModel.swift:71-79 | the start state of a model with n snow bands has n bands |
| HBV.BandOutputs | Sources/SwiftHBV/models/0-HBVModel.swift:101-106 | one snow step per band |
| HBV.Insoils | Sources/SwiftHBV/models/0-HBVModel.swift:101-106 | the insoil of every band |
| HBV.NewBands | Sources/SwiftHBV/models/0-HBVModel.swift:101-106 | the new state of every band |
| HBV.TankStep | Sources/SwiftHBV/models/0-HBVModel.swift:98-127 | a step after correction keeps the number of bands and changes only perc among the tanks' parameters |
| HBV.ZoneStep | Sources/SwiftHBV/models/0-HBVModel.swift:110-123 | the zones conserve water: new SM + UZ + LZ plus discharge and evaporation is old SM + UZ + LZ plus the mean insoil and the lake precipitation; SM and UZ stay non-negative and perc never rises |
| HBV.TankStepBalance | Sources/SwiftHBV/models/0-HBVModel.swift:98-127 | for a given corrected precipitation, the storage changes by the mean band precipitation plus the lake precipitation less the recorded outflow, and the inflow accumulator grows by that precipitation |
| HBV.CascadeStepIsTankStep | Sources/SwiftHBV/models/0-HBVModel.swift:84-98 | a step is the tank step at the corrected precipitation |
| HBV.CascadeStep | Sources/SwiftHBV/models/0-HBVModel.swift:84-128 | a full step keeps the number of bands and changes only perc among the tanks' parameters |
| HBV.BandStorages | Sources/SwiftHBV/models/0-HBVModel.swift:101-108 | the water held by every band |
| HBV.Storage | Sources/SwiftHBV/models/0-HBVModel.swift:98-123 | the water held in the catchment is non-negative when every store is, and zero in the initial state |
| HBV.BandStoragesMean | Sources/SwiftHBV/models/0-HBVModel.swift:101-108 | bands holding no negative amounts hold a non-negative mean, and empty bands hold nothing |
| HBV.BandPrecipitations | Sources/SwiftHBV/models/1-SnowTank.swift:61 | the precipitation reaching every band |
| HBV.MeanOfPointwiseSum | Sources/SwiftHBV/models/0-HBVModel.swift:108 | the mean of an element-wise sum is the sum of the means |
| HBV.BandsBalance | Sources/SwiftHBV/models/0-HBVModel.swift:101-108 | averaged over the bands, new storage plus insoil equals old storage plus band precipitation |
| HBV.CascadeBalance | Sources/SwiftHBV/models/0-HBVModel.swift:84-128 | water in grows by the corrected precipitation; the storage changes by the band-mean precipitation plus lake rain minus the water out |
| HBV.ClosedBalance | Sources/SwiftHBV/models/0-HBVModel.swift:84-128 | without a precipitation gradient and without lakes, storage change equals accumulated water in minus accumulated water out |
| HBV.NextRun | Sources/SwiftHBV/models/0-HBVModel.swift:141-147 | one more time step adds one discharge and keeps the bands |
| HBV.Run | Sources/SwiftHBV/models/0-HBVModel.swift:132-150 | a run gives one discharge per time step and changes only perc among the tanks' parameters |
| HBV.RunStep | Sources/SwiftHBV/models/0-HBVModel.swift:141-147 | the run over i+1 steps is one more step of the run over i steps |
| HBV.PercNeverRises | Sources/SwiftHBV/models/3-UpperZoneTank.swift:46-51 | over a model run the shared perc parameter never rises: it is never larger at the end than after any prefix |
| HBV.DryFirstStep | Sources/SwiftHBV/models/0-HBVModel.swift:132-147 | with UZ1 non-negative, a first step without precipitation from empty tanks sets perc to zero or below |
| HBV.DryStartSwitchesOffPercolation | Sources/SwiftHBV/models/0-HBVModel.swift:132-147 | a run that starts dry from empty tanks ends with no percolation: the calibration candidate's perc is lost |
| HBV.CorrectionOnlyReadsThreeFields | Sources/SwiftHBV/models/0-HBVModel.swift:89-96 | the model's own parameter object influences a step only through Tx, S_corr and P_corr |
| HBV.MeanElevations | Sources/SwiftHBV/models/0-HBVModel.swift:40-45 | the loop builds exactly the band elevations |
| HBV.NewSnowTanks | Sources/SwiftHBV/models/0-HBVModel.swift:47-51 | one distinct empty snow tank per elevation, all reading the same catchment and parameter object |
| HBV.TankStepAssembled | Sources/SwiftHBV/models/0-HBVModel.swift:98-127 | the separately computed band, zone and accumulator results assemble to the tank step |
| HBV.HBVModel.Elevations | Sources/SwiftHBV/models/0-HBVModel.swift:17 | one elevation per snow tank |
| HBV.HBVModel.Bands | Sources/SwiftHBV/models/0-HBVModel.swift:17 | one band state per snow tank |
| HBV.HBVModel.State | Sources/SwiftHBV/models/0-HBVModel.swift:17-23 | the full state has one band per snow tank |
| HBV.HBVModel.constructor | Sources/SwiftHBV/models/0-HBVModel.swift:35-56 | ten distinct snow tanks at the band elevations, all tanks sharing `mp`, everything empty |
| HBV.HBVModel.WithDefaultParameters | Sources/SwiftHBV/models/0-HBVModel.swift:31-33 | the same on a fresh default parameter object |
| HBV.HBVModel.SetNewModelParameters | Sources/SwiftHBV/models/0-HBVModel.swift:58-60 | only the model's reference changes; the tanks keep their object |
| HBV.HBVModel.SetNewModelParametersFromVector | Sources/SwiftHBV/models/0-HBVModel.swift:62-64 | the model's parameter object is overwritten with the vector's values |
| HBV.HBVModel.SetNewModelParametersFromArray | Sources/SwiftHBV/models/0-HBVModel.swift:66-68 | the model's parameter object is overwritten with the array's values |
| HBV.HBVModel.ResetState | Sources/SwiftHBV/models/0-HBVModel.swift:71-79 | every tank and both accumulators are empty; the parameters are untouched |
| HBV.HBVModel.StepSnowTanks | Sources/SwiftHBV/models/0-HBVModel.swift:101-106 | every snow tank takes its step; the returned insoils and new bands are the band outputs |
| HBV.HBVModel.StepZones | Sources/SwiftHBV/models/0-HBVModel.swift:111-121 | soil, upper and lower tanks take their steps; perc is written back |
| HBV.HBVModel.StepTanks | Sources/SwiftHBV/models/0-HBVModel.swift:98-125 | the new state, the accumulators, perc and the discharge are the tank step of the old state |
| HBV.HBVModel.SimulateTimestepAndGetDischarge | Sources/SwiftHBV/models/0-HBVModel.swift:84-128 | the new state, perc and the returned discharge are the full step, including the correction, of the old state |
| HBV.HBVModel.RecordDischarge | Sources/SwiftHBV/models/0-HBVModel.swift:144-146 | slot i holds the discharge, the running sum grows by it and the recorded prefix is kept |
| HBV.HBVModel.StepRun | Sources/SwiftHBV/models/0-HBVModel.swift:142-143 | one time step of the loop advances the model to the next run state and yields its discharge |
| HBV.HBVModel.SimulateAndRecord | Sources/SwiftHBV/models/0-HBVModel.swift:141-147 | one loop pass advances the run and records discharge and running sum |
| HBV.HBVModel.SimulateSeries | Sources/SwiftHBV/models/0-HBVModel.swift:140-149 | the discharges, final state and perc are those of the run over the series; the accumulated discharges are their cumulative sum |
| HBV.HBVModel.ResetHBVAndSimulateDischarge | Sources/SwiftHBV/models/0-HBVModel.swift:132-150 | from empty tanks with the new parameters, the returned discharges are the run over the series and the accumulated ones their cumulative sum |
| OptimizableHBV.Discharges | Sources/SwiftHBV/searcher/OptimizableHBVModel.swift:39 | the observed discharge of every time step |
| OptimizableHBV.WeightedCostZeroIffPerfect | Sources/SwiftHBV/searcher/OptimizableHBVModel.swift:64-67 | with both scores at most 1, the weighted cost is non-negative and zero exactly when both scores are 1 |
| OptimizableHBV.WeightedCost | Sources/SwiftHBV/searcher/OptimizableHBVModel.swift:64-67 | two finite scores give 0.8(1 - R2) + 0.2(1 - NAE); a NaN score gives NaN |
| OptimizableHBV.WeightedCostIsIeee | Sources/SwiftHBV/searcher/OptimizableHBVModel.swift:64-67 | in every case, finite or not, the cost is the IEEE evaluation of the weighted sum |
| OptimizableHBV.WeightedCostZeroIffNoError | Sources/SwiftHBV/searcher/OptimizableHBVModel.swift:64-67 | two finite scores at most 1 that are perfect exactly when their errors vanish give a zero cost exactly when both errors vanish |
| OptimizableHBV.WeightedCostOfUndefinedScore | Sources/SwiftHBV/searcher/OptimizableHBVModel.swift:59-67 | when a score is not finite the cost is NaN if a score is NaN and plus infinity otherwise |
| OptimizableHBV.AccumulationOffset | Sources/SwiftHBV/searcher/OptimizableHBVModel.swift:55-57 | the cumulative sum cut after the warm-up is the cumulative sum of the tail shifted by the warm-up total |
| OptimizableHBV.ShiftedSeriesDiffer | Sources/SwiftHBV/helpers/objectiveFunctions.swift:52-54 | series that differ by a non-zero constant have a positive absolute error |
| OptimizableHBV.ExactTailAccumulationError | Sources/SwiftHBV/searcher/OptimizableHBVModel.swift:39-57 | the accumulated discharge matches the observed one exactly when the tail is exact and the warm-up sums to zero |
| OptimizableHBV.BoundsEnclose | Sources/SwiftHBV/searcher/OptimizableHBVModel.swift:33-35 | the initial box keeps the dimension and is 0.6 to 1.9 times each parameter, so it encloses every non-negative parameter |
| OptimizableHBV.DefaultBoundsProper | Sources/SwiftHBV/searcher/OptimizableHBVModel.swift:33-35 | with the default parameters every dimension of the box has positive width |
| OptimizableHBV.OptimizableHBVModel.constructor | Sources/SwiftHBV/searcher/OptimizableHBVModel.swift:30-45 | the box comes from the parameter values, the observations after the warm-up are stored with their running sums and means, and the model is fresh and runs on the given object |
| OptimizableHBV.OptimizableHBVModel.WithDefaults | Sources/SwiftHBV/searcher/OptimizableHBVModel.swift:26-28 | the same with a fresh default parameter object |
| OptimizableHBV.OptimizableHBVModel.CostOfDischarges | Sources/SwiftHBV/searcher/OptimizableHBVModel.swift:55-67 | a finite, non-negative cost when both stored series spread about their means; plus infinity or NaN otherwise |
| OptimizableHBV.OptimizableHBVModel.CostIsPlainScores | Sources/SwiftHBV/searcher/OptimizableHBVModel.swift:39-62 | with the stored means the cost is the weighted plain R2 and normalized absolute error |
| OptimizableHBV.OptimizableHBVModel.ConstantObservationsCannotBeScored | Sources/SwiftHBV/searcher/OptimizableHBVModel.swift:39-62 | a constant observed discharge after the warm-up makes every candidate cost plus infinity or NaN |
| OptimizableHBV.OptimizableHBVModel.TrainingCost | Sources/SwiftHBV/searcher/OptimizableHBVModel.swift:51-68 | the cost of a candidate is finite and non-negative when the observations can be scored, and plus infinity or NaN otherwise |
| OptimizableHBV.OptimizableHBVModel.CostZeroIffPerfectFit | Sources/SwiftHBV/searcher/OptimizableHBVModel.swift:51-68 | the stored means make the cost the plain weighted scores; it is never negative and is zero exactly when the discharge and the accumulated discharge after the warm-up are both reproduced |
| OptimizableHBV.OptimizableHBVModel.ExactDischargeStillCosts | Sources/SwiftHBV/searcher/OptimizableHBVModel.swift:55-67 | an exact discharge after the warm-up still costs something unless the warm-up discharges sum to zero |
| OptimizableHBV.OptimizableHBVModel.Score | Sources/SwiftHBV/searcher/OptimizableHBVModel.swift:56-67 | the scoring part returns the cost of the simulated series: finite and non-negative when the observations can be scored, plus infinity or NaN otherwise |
| OptimizableHBV.OptimizableHBVModel.TestCost | Sources/SwiftHBV/searcher/OptimizableHBVModel.swift:51-68 | the cost is that of a run from empty tanks with the candidate's values over the training series; afterwards the model holds that run: `qs` is its discharges and `qsAcc` their running sum, the tanks and accumulators hold its final state, and the shared parameter object holds the candidate's values with perc as the run lowered it |
| SimplexSteps.PairsSortedOrdered | Sources/SwiftHBV/searcher/SimplexSearcher.swift:333 | adjacent order by cost gives order between any two positions |
| SimplexSteps.Costs | Sources/SwiftHBV/searcher/SimplexSearcher.swift:127 | every vertex paired with its cost under f |
| SimplexSteps.InsertByCost | Sources/SwiftHBV/searcher/SimplexSearcher.swift:333 | one more element, and the cheaper of the new pair and the old head comes first |
| SimplexSteps.InsertByCostPermutes | Sources/SwiftHBV/searcher/SimplexSearcher.swift:333 | insertion adds exactly the new pair |
| SimplexSteps.InsertByCostSorted | Sources/SwiftHBV/searcher/SimplexSearcher.swift:333 | inserting into a sorted list keeps it sorted |
| SimplexSteps.SortByCost | Sources/SwiftHBV/searcher/SimplexSearcher.swift:333 | sorting by cost gives a permutation of the pairs, ordered by cost |
| SimplexSteps.SortByCostOfSorted | Sources/SwiftHBV/searcher/SimplexSearcher.swift:333 | an already sorted list is left as it is |
| SimplexSteps.SortXandY | Sources/SwiftHBV/searcher/SimplexSearcher.swift:331-335 | both sequences keep their length and the costs come out in increasing order |
| SimplexSteps.SortXandYPermutes | Sources/SwiftHBV/searcher/SimplexSearcher.swift:331-335 | the sorted vertex–cost pairs are a permutation of the input pairs |
| SimplexSteps.SortXandYOfSorted | Sources/SwiftHBV/searcher/SimplexSearcher.swift:331-335 | a simplex already sorted by cost is unchanged |
| SimplexSteps.SortXandYKeeps | Sources/SwiftHBV/searcher/SimplexSearcher.swift:331-335 | every cost still belongs to its vertex, the dimension is kept and the first cost is the minimum |
| SimplexSteps.SortXandYVertices | Sources/SwiftHBV/searcher/SimplexSearcher.swift:331-335 | every sorted vertex is one of the input vertices |
| SimplexSteps.SortXandYDimensions | Sources/SwiftHBV/searcher/SimplexSearcher.swift:331-335 | sorting keeps every vertex's dimension |
| SimplexSteps.Towards | Sources/SwiftHBV/searcher/SimplexSearcher.swift:259-317 | the point `from + k·(to − from)`, element by element |
| SimplexSteps.TowardsFacts | Sources/SwiftHBV/searcher/SimplexSearcher.swift:259-301 | step 0 stays put, step 1 reaches the target, and halfway towards the reflection is the centroid |
| SimplexSteps.Centroid | Sources/SwiftHBV/searcher/SimplexSearcher.swift:255 | component j is the mean of component j over all vertices but the worst |
| SimplexSteps.LinePoint | Sources/SwiftHBV/searcher/SimplexSearcher.swift:259-301 | a point on the line from the worst vertex through the centroid has dimension p |
| SimplexSteps.ChooseMove | Sources/SwiftHBV/searcher/SimplexSearcher.swift:264-317 | reflection keeps a point no worse than the worst; expansion only beats both the reflection and the best; contraction only beats the worst; shrink only when neither the reflection beats the best nor the contraction the worst; a reflection better than the best always leads to reflection or expansion |
| SimplexSteps.NextSimplex | Sources/SwiftHBV/searcher/SimplexSearcher.swift:249-323 | one step keeps a simplex of p + 1 costed vertices and leaves the best vertex and its cost untouched |
| SimplexSteps.NextSimplexReplacesWorst | Sources/SwiftHBV/searcher/SimplexSearcher.swift:249-323 | a step keeps a costed simplex and the best vertex; a shrink moves only vertex 1 halfway to the best; an expansion puts the expansion point last; otherwise only the worst vertex changes, and never to a higher cost |
| SimplexSteps.BestNeverRises | Sources/SwiftHBV/searcher/SimplexSearcher.swift:249-335 | after a step and a sort the best cost is no higher than before |
| SimplexSteps.ContractionAssertion | Sources/SwiftHBV/searcher/SimplexSearcher.swift:298 | when the step contracts, the debug assertion holds exactly when the reflection cost differs from the best cost |
| SimplexSteps.ExampleStartCosts | Tests/SwiftHBVTests/searcher/SimplexSearcherTests.swift:127-133 | the test objective costs the start vertices 0, −3.36 and −0.16 |
| SimplexSteps.ExampleSortOrder | Tests/SwiftHBVTests/searcher/SimplexSearcherTests.swift:137-141 | those costs sort into the order vertex 2, vertex 3, vertex 1 |
| SimplexSteps.ExampleSort | Tests/SwiftHBVTests/searcher/SimplexSearcherTests.swift:132-141 | the test's start simplex sorts to the expected vertices and costs |
| SimplexSteps.ExampleSortPairs | Tests/SwiftHBVTests/searcher/SimplexSearcherTests.swift:137-141 | the sort by cost of the test's three pairs |
| SimplexSteps.ExampleInsertions | Tests/SwiftHBVTests/searcher/SimplexSearcherTests.swift:137-141 | each insertion of that sort |
| SimplexSteps.ExampleCentroid | Tests/SwiftHBVTests/searcher/SimplexSearcherTests.swift:146-147 | the first centroid is (0.6, 0.4) |
| SimplexSteps.ExampleLinePoints | Tests/SwiftHBVTests/searcher/SimplexSearcherTests.swift:149-159 | the first reflection point is (1.2, 0.8) and the expansion point (1.8, 1.2) |
| SimplexSteps.ExampleFirstStep | Tests/SwiftHBVTests/searcher/SimplexSearcherTests.swift:154-159 | the first step expands, putting (1.8, 1.2) with cost −5.88 in place of the worst vertex |
| SimplexSteps.TerminationGating | Sources/SwiftHBV/searcher/SimplexSearcher.swift:343-366 | termination needs a full look-back window and an iteration that is a multiple of 10·(p+1); with those, a constant non-zero simplex and no change over the window terminate |
| SimplexSteps.Lookback | Sources/SwiftHBV/searcher/SimplexSearcher.swift:347 | the look-back window is at least 10 iterations and a multiple of p + 1 |
| SimplexSteps.TerminationTest | Sources/SwiftHBV/searcher/SimplexSearcher.swift:343-366 | termination needs a full look-back window, an iteration that is a multiple of it, and a non-zero best cost |
| Simplex.RandomVertices | Sources/SwiftHBV/searcher/SimplexSearcher.swift:136-143 | p+1 vertices of dimension p |
| Simplex.RandomVerticesInBox | Sources/SwiftHBV/searcher/SimplexSearcher.swift:136-143 | when every draw lies in the box, every vertex lies in the box |
| Simplex.ShakenVertex | Sources/SwiftHBV/searcher/SimplexSearcher.swift:221-223 | every element x becomes x + x·noise·noisePercent |
| Simplex.Shaken | Sources/SwiftHBV/searcher/SimplexSearcher.swift:220-225 | every vertex is shaken with its own noise |
| Simplex.ShakenWithinNoise | Sources/SwiftHBV/searcher/SimplexSearcher.swift:219-223 | with noise in [−1, 1] every element moves by at most noisePercent of its magnitude; zero noise changes nothing |
| Simplex.ShakeSimplex | Sources/SwiftHBV/searcher/SimplexSearcher.swift:219-227 | the shaken, re-costed and sorted simplex is a costed simplex sorted by cost |
| Simplex.NoisePercentFalls | Sources/SwiftHBV/searcher/SimplexSearcher.swift:205-206 | the noise is positive; beyond the first three shake periods it falls strictly with the iteration, and there it is below 0.1 exactly when the iteration exceeds 50 |
| Simplex.ShakePeriod | Sources/SwiftHBV/searcher/SimplexSearcher.swift:205 | the shake period is at least 5 iterations and a multiple of p + 1 |
| Simplex.NoisePercent | Sources/SwiftHBV/searcher/SimplexSearcher.swift:206 | the noise is positive and never above the larger of 0.1 and its value right after the third period |
| Simplex.Iterate | Sources/SwiftHBV/searcher/SimplexSearcher.swift:204-211 | one pass of the loop body (shake when due, step, sort) keeps a simplex |
| Simplex.IterateKeepsCosts | Sources/SwiftHBV/searcher/SimplexSearcher.swift:204-211 | a pass keeps the costs those of the vertices and sorted; without a shake the best cost never rises |
| Simplex.SimplexSearcher.constructor | Sources/SwiftHBV/searcher/SimplexSearcher.swift:85-97 | p is the box's dimension; the simplex is the sorted random vertices, all in the box; the stored best solution is the first vertex drawn and its value the lowest cost, which is at most that vertex's cost; all records are empty |
| Simplex.SimplexSearcher.FromTo | Sources/SwiftHBV/searcher/SimplexSearcher.swift:99-103 | both box corners are `from` repeated, so every vertex, and the stored best solution, is that point |
| Simplex.SimplexSearcher.Spread | Sources/SwiftHBV/searcher/SimplexSearcher.swift:105-109 | the box is base ∓ spread·base and every vertex lies in it; the stored best solution is the first vertex drawn, with the lowest cost as its value |
| Simplex.SimplexSearcher.WithInits | Sources/SwiftHBV/searcher/SimplexSearcher.swift:112-133 | the simplex is the given vertices sorted by cost; the box corners are the best and worst vertex; no best solution yet |
| Simplex.SimplexSearcher.SetRandomSolutions | Sources/SwiftHBV/searcher/SimplexSearcher.swift:135-149 | the simplex is the sorted random vertices, all in the box; the stored best solution is the first vertex drawn, as the local `X` hides the sorted one, and its value is the lowest cost, at most that vertex's cost |
| Simplex.FirstDrawnIsStoredAsBest | Sources/SwiftHBV/searcher/SimplexSearcher.swift:135-147 | with p = 1, draws 1.0 then 0.0 and the cost v[0], the stored best solution is [1.0] while its value 0.0 is the cost of [0.0], so the two do not match |
| Simplex.SimplexSearcher.SortXandY | Sources/SwiftHBV/searcher/SimplexSearcher.swift:326-328 | the simplex is replaced by its sort by cost |
| Simplex.SimplexSearcher.NextIteration | Sources/SwiftHBV/searcher/SimplexSearcher.swift:249-323 | the simplex becomes the Nelder–Mead step of the old one, keeping the best vertex |
| Simplex.SimplexSearcher.ShakeVertex | Sources/SwiftHBV/searcher/SimplexSearcher.swift:221-223 | only vertex i changes, to its shaken value |
| Simplex.SimplexSearcher.ShakeUpSolutions | Sources/SwiftHBV/searcher/SimplexSearcher.swift:219-227 | the simplex becomes the shaken, re-costed and sorted one |
| Simplex.SimplexSearcher.RecordProgress | Sources/SwiftHBV/searcher/SimplexSearcher.swift:230-236 | the best vertex and its cost are appended to the records |
| Simplex.SimplexSearcher.IsTerminationTime | Sources/SwiftHBV/searcher/SimplexSearcher.swift:343-366 | the answer is the termination test on the records, the iteration and the costs |
| Simplex.SimplexSearcher.Advance | Sources/SwiftHBV/searcher/SimplexSearcher.swift:204-211 | the simplex becomes one pass of the loop body and the iteration count grows by one; without a shake the best cost never rises |
| Simplex.SimplexSearcher.OptimizePass | Sources/SwiftHBV/searcher/SimplexSearcher.swift:193-212 | the pass records the best vertex; it stops exactly when the test fires or the cap is reached, and then changes nothing else; otherwise it advances one iteration, the simplex becomes `Iterate` of the old one (shake when due, step, sort), and the best cost does not rise unless it shook |
| Simplex.SimplexSearcher.Optimize | Sources/SwiftHBV/searcher/SimplexSearcher.swift:191-216 | the iteration count stays between its start and the cap; at the end the cap is reached or the termination test fires; one record per iteration is appended, the last being the best vertex; the best solution is the first vertex |
| Simplex.SimplexSearcher.OptimizeRun | Sources/SwiftHBV/searcher/SimplexSearcher.swift:157-184 | one run appends the best vertex and cost it ends with to the solutions, and that vertex is then the best solution |
| Simplex.SimplexSearcher.OptimizeMultipleRuns | Sources/SwiftHBV/searcher/SimplexSearcher.swift:153-186 | one solution per run is appended, the earlier ones are kept, and the best solution is that of the last run |

## Left out

- Console output is not modelled: `printFeedback` and the
  `shouldPrintFeedback`/`printFeedbackInterval` fields. The `x_mean`,
  `x_r`, `x_e`, `x_c`, `y_r`, `y_e` and `y_c` fields, which only serve
  debugging, are computed as locals and not stored.
- Randomness (`Double.random`) is a parameter. The model states what
  holds for any draws inside the box and any noise in [−1, 1].
  `Vector.random(dimensions:from:to:)` is not modelled.
- I/O is not modelled: the YAML reader `CatchmentParameters.fromYAML`,
  `readWriteToFile.swift`, the `SwiftHBV` façade class and the example
  program. They only read files, print and write results.
- Foundation's `pow` with a real exponent has no counterpart in Dafny.
  Where the model needs it, in the soil recharge, it is the parameter
  `pow`. The `pow` functions on arrays and vectors in
  `VectorUtils.swift:47-63` and `**` with a `Double` exponent in
  `mathOperators.swift:30-32` are not modelled. `pow(x, 2.0)` in the
  statistics is written as `x * x`. `**` with an `Int` exponent is
  `Power` (and `PowerEach` on arrays), negative exponents included.
- Floating-point rounding, overflow and signed zero are not modelled:
  a finite `Double` is an exact real. Infinities and NaN are modelled
  only where the scores divide by a zero spread (`FloatingPoint.Float`):
  `R2`, `NormalizedAbsoluteError`, their `WithMean` forms and the cost
  built from them.
- Simplex.SimplexSearcher.OptimizeRun: the searcher takes a real-valued
  cost, so it never sees the infinite or NaN cost of observations that
  cannot be scored; Swift's comparisons with NaN are not modelled.
- Simplex.SimplexSearcher.IsTerminationTime: a zero divisor follows the
  IEEE result. A zero best cost gives an infinite or NaN ratio, so the
  spread test fails. A zero cost at the start of the look-back window
  gives minus infinity or NaN, so the improvement test passes exactly when
  the last cost is positive.
- Division by zero traps in the model but not in Swift. These are
  preconditions:
  - FC and ET non-zero for the soil tank;
  - a non-zero time step length and catchment area for the discharge
    conversions;
  - `stDev` of a single element;
  - the denominator of the array division;
  - MathOperators.Power, MathOperators.PowerEach: a zero base with a
    negative exponent, where Swift returns an infinity.
- The `Int` arithmetic of `SumOfInts`/`MeanOfInts` and of the elevation
  midpoints is unbounded: Swift's overflow trap is not modelled.
- The `Vector` conformances to `Sequence`, `Collection`,
  `CustomStringConvertible` and `CustomDebugStringConvertible`, and
  `ModelParameters.description`, are left out as iteration and printing
  helpers. So are `NSObject.propertyNames`, which uses reflection, and the
  `Dataset` enum.
- Csv.Split: `.newlines` is modelled as a set of single characters, so a
  CR LF pair ends one line and starts an empty one, as Foundation's
  character-set split does.
- The prefix `-` on a scalar (`Vector.swift:255-257`) is plain negation.
- `sorted(by:)` in `sortXandY` is not guaranteed stable. The model uses a
  stable insertion sort, so equal costs keep their input order, where
  Swift may order them otherwise.
- The debug `assert` in the contraction branch (`SimplexSearcher.swift:298`)
  is modelled as a release build: it never traps.
  SimplexSteps.ContractionAssertion states when it would fire.
- The commented-out weighted restart in `optimizeMultipleRuns`
  (`SimplexSearcher.swift:160-169`) is not code and is not modelled.
- `init(optimizableModel:)` of `SimplexSearcher` is the primary
  constructor applied to `testCost` and the box. The searcher takes the
  cost as a pure function `f`. The model's `TestCost` mutates the HBV
  model, so the two are not composed into one object; `TestCost` states
  the function it computes.
- A simplex of dimension 0 (`p = 0`) is excluded by precondition,
  because Swift cannot build one: `Vector.init(repeatedValue:dimensions:)`
  and `Vector.init(_:)` call `fatalError` on a dimension of 0 or less
  (`Sources/SwiftHBV/helpers/Vector.swift:20-21, 31-32`), so neither box
  corner nor any vertex of dimension 0 exists. The model's `Vectors.Vector`
  datatype is a plain sequence and admits the empty vector, which Swift
  forbids; only `Vectors.RepeatedValue` and `Vectors.FromArray` carry
  Swift's guard, and the simplex operations state `p >= 1` themselves.
- Simplex.SimplexSearcher.Optimize: the contract states the stopping
  condition, the records and the best solution. It does not give the final
  simplex as a function of the start. Simplex.SimplexSearcher.OptimizePass
  and Simplex.SimplexSearcher.Advance state that function pass by pass as
  `Iterate`.
- Swift's default arguments are not modelled as defaults: the model takes
  every one as an ordinary parameter. They are `seperator: String = ","` of
  `parseCSV` and `headers: [String] = []`, `separator: String = ","` of
  `makeCSV` (`Sources/SwiftHBV/helpers/parseCSV.swift:4, 16`),
  `spread: Double = 1.0` of the spread initializer
  (`Sources/SwiftHBV/searcher/SimplexSearcher.swift:105`),
  `maxIterationsEachRun: Int = 10000000` of `optimizeMultipleRuns`
  (`SimplexSearcher.swift:153`) and `maxIterations: Int = 10000000` of
  `optimize` (`SimplexSearcher.swift:191`).
- Simplex.SimplexSearcher.OptimizeMultipleRuns: the comparison that would
  keep the better of the runs cannot change anything in Swift, because
  `optimize` has just set the best cost to the run's own. The model
  therefore states that the best solution is the last run's.
- HBV.HBVModel.SetNewModelParameters: the object overload rebinds the
  model's reference only. The tanks keep reading the object they were
  built with, as in Swift.
