# jetreader core, modelled in Dafny

jetreader reads per-collision detector records (pico events), selects events, charged tracks and
calorimeter towers with configurable cuts, corrects tower energies for the charged tracks that point
at them, and hands out the surviving four-vectors together with a provenance tag. It also assigns
each event a centrality class from a calibration table. This project models that core:

- **Cut selectors** (`EventSelection`, `TrackSelection`, `TowerSelection`, with their cut values in
  `CutTypes`): classes that keep the source's activation flags, thresholds, ranges and id sets,
  whose setters carry the source's assertions as preconditions, and whose `select` is proved
  against a pure decision function on the cut values. The event decision is three-valued
  (accept, reject the event, reject the run). A failure of the bad-run cut gives "reject the run"
  ahead of any other failure, which is how `reader/reader.cc` consumes it. The `select` in
  `reader/event_selector.cc` as shipped returns a boolean; the model follows the reader.
- **Reader pipeline** (`ReaderPipeline.Reader`, specified by `ReaderSpec` and `ReaderWalk`): the
  store of entries is a sequence of events and the branch status a `map<string, bool>`. Reading an
  entry clears the output vectors and the tower-to-track slots, updates centrality, runs the event,
  track and tower selection, applies the MIP or hadronic correction and re-selects the corrected
  tower. `next()` walks the store, fast-forwarding past rejected runs with the branch status saved
  and restored. The walk is modelled as written, and a corrected walk is proved against a reference
  definition (see Findings).
- **Centrality** (`CentralityCalc`, `CentralityDefinitions`): the reference class `CentralityRun14`
  (validity gate, polynomial ZDC and vertex-z corrections, 16- and 9-bin assignment, weight) and
  the calibration table, one record per definition id. The Run 14 low/mid record as tabulated
  differs from the values its unit test expects (`CentralityDefinitions.Run14LowMidDiffersFromTestValues`);
  the model keeps the table's values.
- **Trigger lookup** (`TriggerLookup`): token to trigger-id set, matched after lowercasing.
- **Config helpers** (`ConfigDocument`, `EventSelectorConfig`, `TrackSelectorConfig`,
  `TowerSelectorConfig`, `ReaderConfig`, `ConfigManagement`): a document is an ordered list of
  keys with scalar, list or section values. Loading applies a section to a selector or the reader
  through its setters; reading writes one back. Each helper is proved to round-trip.
- **Utilities** (`Csv`, `StringUtils`, `PathUtils`, `Assertion`, `VectorInformation`): CSV line
  filtering over a sequence of lines, `RemoveIf`, `ParseArgString`, `MakeString`, file name and
  path splitting, the assertion message stack and the vector provenance tag.

Doubles are modelled as reals, with no rounding. Values the store or the calorimeter geometry
compute with transcendental functions (the DCA magnitude, cosh of a tower's pseudorapidity, sin of
its polar angle) are carried as given numbers in the records (`Records`). `Wrappers` holds the
`Result` type used for every failure the source signals by an assertion or exception.

## Model

| member | source | states |
|---|---|---|
| Assertion.Accumulate | jetreader/lib/assert.cc:19-22 | the fold of the stack onto a seed string keeps the seed as its prefix |
| Assertion.AccumulateAppend | jetreader/lib/assert.cc:19-27 | folding a stack with parts pushed on is folding the pushed parts onto the old fold, which is why `append` can extend the cached message instead of recomputing it |
| Assertion.MessageStartsWithHeader | jetreader/lib/assert.cc:12-17 | the message of a new failure is a space, the header naming the file's basename and line, the failure text, a space and the user message, in that order |
| Assertion.AssertionFailure.constructor | jetreader/lib/assert.cc:12-17 | the stack is exactly [header with `GetFileName(file)` and the line, failure, " ", message] and the cached message is its fold |
| Assertion.AssertionFailure.Msg | jetreader/lib/assert.cc:19-22 | `msg()` always begins with the single space it is seeded with |
| Assertion.AssertionFailure.Append | jetreader/lib/assert.cc:24-27 | the string is pushed at the end with earlier entries unchanged, and the cached message grows by exactly that string and still equals the fold |
| Assertion.AssertionFailure.What | jetreader/lib/assert.cc:29 | `what()` equals `msg()` of the current stack |
| PathUtils.LastIndexOf | jetreader/lib/path_utils.cc:7 | `rfind`: a found position holds the character and no later position does; nothing is found iff the character does not occur |
| PathUtils.GetFileName | jetreader/lib/path_utils.cc:5-12 | the result holds no '/'; a path without '/' is returned unchanged |
| PathUtils.GetPath | jetreader/lib/path_utils.cc:14-21 | the result is no longer than the path; a path without '/' is returned unchanged |
| PathUtils.SplitReassembles | jetreader/lib/path_utils.cc:5-21 | for a path holding '/', `GetPath(p) + "/" + GetFileName(p) == p` |
| PathUtils.FileNameIsSuffix | jetreader/lib/path_utils.cc:8-9 | the file name is a suffix of the path |
| PathUtils.FileNameIdempotent | jetreader/lib/path_utils.cc:5-12 | taking the file name twice gives the file name |
| StringUtils.Filter | jetreader/lib/string_utils.h:44-50 | what `RemoveIf` keeps: no longer than the input, and no kept element matches the predicate |
| StringUtils.FilterAppend | jetreader/lib/string_utils.h:44-50 | filtering distributes over concatenation, so the kept elements stay in their original order |
| StringUtils.FilterIdempotent | jetreader/lib/string_utils.h:44-50 | removing the same elements twice changes nothing the second time |
| StringUtils.RemoveIf | jetreader/lib/string_utils.h:44-50 | in place: the front `dest` cells hold exactly the non-matching elements in their original order, and the cells from `dest` on are untouched |
| StringUtils.StripSpaces | jetreader/lib/string_utils.h:57-59 | the erase-after-`RemoveIf(isspace)` idiom leaves the string with every whitespace character removed |
| StringUtils.DigitValue | jetreader/lib/string_cast.h:10-24 | a decimal digit stands for a value below ten |
| StringUtils.Digit | jetreader/lib/string_cast.h:10-24 | the digit written for a value below ten reads back as that value |
| StringUtils.NatToString | jetreader/lib/string_utils.h:21-24 | the text of a number can be cast back and holds no comma |
| StringUtils.CastInvertsNatToString | jetreader/lib/string_cast.h:19-24 | casting the text of a number below 2^32 gives the number |
| StringUtils.CanCast | jetreader/lib/string_cast.h:10-15 | a castable token is non-empty, starts with a digit or a sign and has only digits after it |
| StringUtils.CastTo | jetreader/lib/string_cast.h:19-24 | the value read into an unsigned int is below 2^32 |
| StringUtils.Magnitude | jetreader/lib/string_cast.h:13 | the digits after the one sign `>>` accepts are no longer than the token |
| StringUtils.DecimalInvertsNatToString | jetreader/lib/string_cast.h:19-24 | the decimal value of the text of a number is that number, for every size |
| StringUtils.OverflowDoesNotCast | jetreader/lib/string_cast.h:10-15 | digits whose value is 2^32 or more do not cast, signed or not |
| StringUtils.WideNumberDoesNotCast | jetreader/lib/string_cast.h:10-15 | the text of a number of 2^32 or more does not cast |
| StringUtils.SignedTokens | jetreader/lib/string_cast.h:10-24 | "+5" casts to 5 and "-1" to 4294967295; a lone sign and the empty token do not cast |
| StringUtils.Collect | jetreader/lib/string_utils.h:53-74 | the values already collected stay in front, at most one value is added per character, and values below 2^32 stay below 2^32 |
| StringUtils.Terminates | jetreader/lib/string_utils.h:62-69 | a string without a comma always terminates; one that starts with a comma never does, its empty first token not casting |
| StringUtils.MakeString | jetreader/lib/string_utils.h:19-37 | no arguments give the empty string |
| StringUtils.MakeStringAppend | jetreader/lib/string_utils.h:26-37 | the arguments' texts are concatenated in order: the string of `a + b` is the string of `a` followed by that of `b` |
| StringUtils.NumberTextRoundTrip | jetreader/lib/string_utils.h:21-24 | a number below 2^32 streamed by `MakeString` casts back to itself |
| StringUtils.IndexOf | jetreader/lib/string_utils.h:62-63 | `find(",")`: a found position holds the character and none before it does; nothing is found iff it does not occur |
| StringUtils.ParseStepStuck | jetreader/lib/string_utils.h:62-69 | a token before a comma that cannot be cast is never erased: one pass of the loop leaves `str` and `ret` unchanged and a comma still present, so the loop never ends |
| StringUtils.ParseStepAdvances | jetreader/lib/string_utils.h:62-69 | on input that terminates, a pass shortens `str`, keeps it terminating, and does not change what is collected in the end |
| StringUtils.ParseArgString | jetreader/lib/string_utils.h:53-74 | after stripping whitespace, the result is the castable comma-separated tokens in order, the final segment included when castable, a token being castable when it is an optional sign and digits whose value is below 2^32 (a minus sign wraps modulo 2^32); required: the stripped text terminates |
| StringUtils.TokensInvertJoin | jetreader/lib/string_utils.h:53-74 | numbers below 2^32 written comma-separated parse back to the same list, in order |
| StringUtils.CollectJoin | jetreader/lib/string_utils.h:61-71 | parsing comma-joined numbers appends them, in order, to what was collected |
| StringUtils.CollectAfterHead | jetreader/lib/string_utils.h:62-68 | a castable head before the first comma is appended and the rest parsed after it |
| StringUtils.JoinHasNoSpace | jetreader/lib/string_utils.h:57-59 | comma-joined numbers are unchanged by the whitespace strip |
| Csv.FirstNonSpace | jetreader/lib/parse_csv.h:31 | `find_first_not_of` on a non-blank line: a position holding a non-space, with only spaces before it |
| Csv.Values | jetreader/lib/parse_csv.h:38-44 | every number of every row is among the values |
| Csv.ParseCsv | jetreader/lib/parse_csv.h:16-47 | a file that cannot be opened is fatal; otherwise the rows are exactly one per data line (not blank, not a comment), in order, each the parsed whitespace-stripped line, every value below 2^32 |
| Csv.Rows | jetreader/lib/parse_csv.h:25-45 | no more rows than lines, every value of every row below 2^32 |
| Csv.RowsAppend | jetreader/lib/parse_csv.h:25-45 | the rows of two blocks of lines are the rows of the first followed by those of the second |
| Csv.RowsSnoc | jetreader/lib/parse_csv.h:25-45 | one more line adds one row iff it is a data line |
| Csv.RowLines | jetreader/lib/parse_csv.h:38-44 | one written line per row |
| Csv.RowsInvertRowLines | jetreader/lib/parse_csv.h:25-45 | non-empty rows of numbers below 2^32 written one per line as comma-separated numbers parse back to the same rows |
| Csv.RowLineIsData | jetreader/lib/parse_csv.h:27-44 | a written row is a data line and parses back to the row |
| Csv.ExampleFile | jetreader/lib/parse_csv.h:25-45 | the lines "", "  ", "5,  3", "# comment", "4,3,2" give [[5,3],[4,3,2]] |
| Csv.ExampleSkippedLines | jetreader/lib/parse_csv.h:27-32 | empty, whitespace-only and '#' lines yield no row |
| Csv.ExampleSpacedLine | jetreader/lib/parse_csv.h:35-39 | "5,  3" yields [5, 3] |
| Csv.ExampleSpacesDropped | jetreader/lib/parse_csv.h:35-36 | stripping "5,  3" gives "5,3" |
| Csv.ExampleCompactLine | jetreader/lib/parse_csv.h:38-44 | "4,3,2" yields [4, 3, 2] |
| Csv.RowOfJoined | jetreader/lib/parse_csv.h:38-44 | the comma-joined numbers of a row parse back to the row |
| TriggerLookup.LowerChar | jetreader/reader/trigger_lookup.h:38 | `::tolower`: a capital letter becomes its lower-case letter and every other character is unchanged |
| TriggerLookup.Lowercase | jetreader/reader/trigger_lookup.h:38 | the token keeps its length and every character is lower-cased in place |
| TriggerLookup.LowercaseIdempotent | jetreader/reader/trigger_lookup.h:38 | lower-casing twice is lower-casing once |
| TriggerLookup.LookupIgnoresCase | jetreader/reader/trigger_lookup.h:36-43 | a token and its lower-case form give the same ids, so the lookup is case-insensitive |
| TriggerLookup.LowerTokenLookup | jetreader/reader/trigger_lookup.h:38-165 | a token without capital letters is matched against the table as it is |
| TriggerLookup.SpecialEntries | jetreader/reader/trigger_lookup.h:65-71 | "y11mb" gives no ids, and "y14ht23" and "y14ht" give the same set |
| TriggerLookup.Y12AllHasEightIds | jetreader/reader/trigger_lookup.h:110-112 | the y12ppall listing names 370621 twice, so its set holds eight ids |
| TriggerLookup.CombinedSetsAreUnions | jetreader/reader/trigger_lookup.h:43-165 | every combined token is the union of its parts (y7all, y11all = y11ht = npe15 ∪ npe18 ∪ npe25, y14all, y14mb, y12ppall, y8dauall, y8dauht, …) and the y18 Zr and Ru tokens share their ids |
| TriggerLookup.Y15AllDiffersFromParts | jetreader/reader/trigger_lookup.h:139-149 | y15pauall is not y15pautriggered ∪ y15paumb: it lacks the JP2 id 500401 and holds 500405, which neither part names |
| VectorInformation.ForParticle | jetreader/reader/vector_info.cc:18-25 | a particle tag is the only kind set, is neither primary, global nor a tower, takes its vertex ids from the track, and keeps no track or tower fields |
| VectorInformation.ForTrack | jetreader/reader/vector_info.cc:27-38 | a track tag is the only kind set, is primary exactly when asked and global otherwise, is not a tower, and keeps no tower or particle fields |
| VectorInformation.ForTower | jetreader/reader/vector_info.cc:40-51 | a tower tag is the only kind set, is a BEMC tower, neither primary nor global, has charge 0 and keeps no track or particle fields |
| VectorInformation.VectorInfo.Particle | jetreader/reader/vector_info.cc:5-7 | the particle constructor gives the tag of `setParticle`; its vertex arguments are ignored |
| VectorInformation.VectorInfo.Track | jetreader/reader/vector_info.cc:9-11 | the track constructor gives the tag of `setTrack` |
| VectorInformation.VectorInfo.Tower | jetreader/reader/vector_info.cc:13-16 | the tower constructor gives the tag of `setTower` |
| VectorInformation.VectorInfo.SetParticle | jetreader/reader/vector_info.cc:18-25 | after `clear()` and the assignments the state is exactly the particle tag: nothing from an earlier assignment survives |
| VectorInformation.VectorInfo.SetTrack | jetreader/reader/vector_info.cc:27-38 | after `clear()` and the assignments the state is exactly the track tag |
| VectorInformation.VectorInfo.SetTower | jetreader/reader/vector_info.cc:40-51 | after `clear()` and the assignments the state is exactly the tower tag |
| VectorInformation.VectorInfo.Clear | jetreader/reader/vector_info.cc:53-71 | every flag false, every number zero, the matched-track list empty |
| VectorInformation.PrimaryAndGlobalExclusive | jetreader/reader/vector_info.h:32-33 | `isPrimary` and `isGlobal` are never both true, and one of them holds iff the tag is a TPC track |
| VectorInformation.SettersRecordTheirOrigin | jetreader/reader/vector_info.cc:18-51 | each setter records its own origin's quantities: track id, hit counts, matched tower and charge; tower id, ADC, raw eta, raw energy and matched tracks; the particle's vertex ids and charge |
| VectorInformation.OriginsAreDistinct | jetreader/reader/vector_info.cc:18-51 | a track, a tower and a particle tag are never equal, whatever their arguments |
| CentralityDefinitions.AscendingPairwise | jetreader/reader/centrality_def.cc:28-30 | neighbour-wise ascending bin edges are ascending between any two positions |
| CentralityDefinitions.Def | jetreader/reader/centrality_def.cc:10-93 | every definition supplies 2 ZDC, 7 vertex and 7 weight parameters and 16 strictly ascending edges; its run, ZDC and vertex ranges are non-empty with the normalisation points inside; its weight bound is 400 |
| CentralityDefinitions.Run14LowMidWellFormed | jetreader/reader/centrality_def.cc:13-30 | the Run 14 low/mid record is well formed |
| CentralityDefinitions.Run14WellFormed | jetreader/reader/centrality_def.cc:33-50 | the Run 14 record is well formed |
| CentralityDefinitions.Run18RuWellFormed | jetreader/reader/centrality_def.cc:53-70 | the Run 18 Ru record is well formed |
| CentralityDefinitions.Run18ZrWellFormed | jetreader/reader/centrality_def.cc:73-90 | the Run 18 Zr record is well formed |
| CentralityDefinitions.Run14LowMidDiffersFromTestValues | jetreader/reader/centrality_def.cc:13-30 | the Run 14 low/mid ranges, normalisation points and weight bound are those its unit test expects, but its ZDC, vertex and weight parameters and its first edge are not |
| CentralityDefinitions.Run18SharesRangesAndWeights | jetreader/reader/centrality_def.cc:53-90 | the Ru and Zr definitions share the run range and reuse the Run 14 low/mid weights, but differ in their ZDC fit |
| ConfigDocument.AsReal | jetreader/reader/config/event_selector_config_helper.cc:30-31 | `as<double>` succeeds iff the scalar is a number, giving its value, a whole number read as a real |
| ConfigDocument.AsCount | jetreader/reader/config/event_selector_config_helper.cc:14 | `as<unsigned>` succeeds iff the scalar is a whole number, giving it |
| ConfigDocument.AsFlag | jetreader/reader/config/tower_selector_config_helper.cc:15 | `as<bool>` succeeds iff the scalar is a boolean, giving it |
| ConfigDocument.AsText | jetreader/reader/config/event_selector_config_helper.cc:17 | `as<std::string>` succeeds iff the scalar is a string, giving it |
| ConfigDocument.NodeScalar | jetreader/reader/config/event_selector_config_helper.cc:48 | a node converts as a scalar iff it is not a sequence |
| ConfigDocument.NodeReal | jetreader/reader/config/event_selector_config_helper.cc:48-50 | a whole node converts to a number iff it is a single number |
| ConfigDocument.NodeCount | jetreader/reader/config/event_selector_config_helper.cc:60 | a whole node converts to a whole number iff it is a single whole number |
| ConfigDocument.NodeFlag | jetreader/reader/config/track_selector_config_helper.cc:23 | a whole node converts to a flag iff it is a single boolean |
| ConfigDocument.PositiveOf | jetreader/reader/config/tower_selector_config_helper.cc:10-13 | a bound loads iff the node is a single number above zero, which the setters assert |
| ConfigDocument.Size | jetreader/reader/config/event_selector_config_helper.cc:27 | `size()` is a sequence's length and zero for a scalar |
| ConfigDocument.Items | jetreader/reader/config/event_selector_config_helper.cc:13 | iterating a node visits a sequence's items in order, and nothing for a scalar |
| ConfigDocument.Lookup | jetreader/reader/config/event_selector_config_helper.cc:57 | `node[key]` finds nothing iff no entry has the key, and otherwise the node of an entry with that key |
| ConfigDocument.LookupAppend | jetreader/reader/config/reader_config_helper.cc:14-15 | in two sections one after the other, a key of the first is found there and otherwise in the second |
| ConfigDocument.ListSet | jetreader/reader/config/event_selector_config_helper.cc:101-106 | writing a set out element by element lists every element exactly once and nothing else |
| CentralityCalc.BinFrom | jetreader/reader/centrality_test.cc:391-405 | the scan from position i gives -1 iff the corrected multiplicity lies below every remaining edge; otherwise the first position whose edge (counted from the top) it reaches |
| CentralityCalc.BinOf | jetreader/reader/centrality_test.cc:391-405 | the class is -1 or a position of the table; -1 iff the value lies below every edge, else the first edge from the top that the value reaches |
| CentralityCalc.WeightOf | jetreader/reader/centrality_test.cc:408-422 | the weight is 1 unless weights are set, both classes are valid and the value is below the bound; the calculation fails exactly there when fewer than 7 weights are set or the shifted value is zero |
| CentralityCalc.Calculate | jetreader/reader/centrality_test.cc:354-423 | a result carries the corrected multiplicity and its 16- and 9-bin classes; it fails exactly for an unset ZDC fit, a zero ZDC scaling or a failing weight |
| CentralityCalc.Evaluate | jetreader/reader/centrality_test.cc:260-273 | only an event that passes the gate can fail; both classes lie in -1 up to the table size; an event failing the gate keeps its raw multiplicity and gets weight 0 |
| CentralityCalc.GateFailureMarksInvalid | jetreader/reader/centrality_test.cc:260-273 | an event that fails the gate keeps its raw multiplicity, gets -1 in both classes and weight 0 |
| CentralityCalc.CheckEvent | jetreader/reader/centrality_test.cc:341-352 | the gate holds iff refmult ≥ 0, the run id is in range (checked only when the upper run bound is positive), and vz and zdc lie in their closed ranges |
| CentralityCalc.NormalisationPointIsIdentity | jetreader/reader/centrality_test.cc:371-388 | at the ZDC and vertex normalisation points both corrections are 1 and the corrected multiplicity is the raw one |
| CentralityCalc.VzCorrectionOne | jetreader/reader/centrality_test.cc:376-386 | with no vertex parameters, or a fit value ≤ 0 at vz, the vertex correction is 1 |
| CentralityCalc.BinAntitone | jetreader/reader/centrality_test.cc:391-405 | among valid classes, a larger corrected multiplicity never gets a larger class index |
| CentralityCalc.BinBelowLowestEdge | jetreader/reader/centrality_test.cc:391-405 | with ascending edges the class is -1 iff there are no edges or the value lies below the lowest edge |
| CentralityCalc.BinLocatesEdge | jetreader/reader/centrality_test.cc:391-405 | with ascending edges the class is k iff the value reaches edge k (from the top) and stays below edge k-1 |
| CentralityCalc.NineBinsWithin | jetreader/reader/centrality_test.cc:320-325 | the 9-bin table is no longer than the 16-bin one and takes its entries from it |
| CentralityCalc.NineBinsAscending | jetreader/reader/centrality_test.cc:320-325 | ascending 16-bin edges give ascending 9-bin edges |
| CentralityCalc.NineBinsPositions | jetreader/reader/centrality_test.cc:320-325 | the 9-bin table is the 16-bin entries at even positions followed by position 15 |
| CentralityCalc.DefaultNineBins | jetreader/reader/centrality_test.cc:251-253 | the default 16 edges give the nine edges 7, 15, 31, 58, 100, 163, 249, 366, 441 that the `cent9` helper lists |
| CentralityCalc.ClassOf | jetreader/reader/centrality_test.cc:173-194 | corrected class as the helpers compute it: the class when the value reaches an edge and the sentinel `|bins|` (16 for the 16 edges) otherwise |
| CentralityCalc.ClassOfAntitone | jetreader/reader/centrality_test.cc:173-194 | with the sentinel, a larger corrected multiplicity never gets a larger class, for all inputs |
| CentralityCalc.ClassOfLowest | jetreader/reader/centrality_test.cc:173-194 | the sentinel is given iff the value lies below the lowest edge |
| CentralityCalc.BinNoneBelowAll | jetreader/reader/centrality_test.cc:391-405 | a value below a lower bound of every edge gets -1 |
| CentralityCalc.DefaultsBelowLowestEdge | jetreader/reader/centrality_test.cc:391-405 | with the default edges, every corrected value below 7 gets -1 in both tables |
| CentralityCalc.PeripheralEventMarkedInvalid | jetreader/reader/centrality_test.cc:260-273 | as written: an event that passes the gate with refmult 5 at the normalisation points gets -1 in both classes, the marker of a gate failure, while 441 gets class 0 |
| CentralityCalc.ReferenceDefaultsVersusTable | jetreader/reader/centrality_test.cc:239-253 | the reference defaults agree with the table's Run 14 low/mid ranges, normalisation points and weight bound, and differ in every fit and in the edges |
| CentralityCalc.HelperZdcCorr | jetreader/reader/centrality_test.cc:147-151 | `zdcCorr` is the ZDC correction of the default calibration |
| CentralityCalc.CentralityRun14.constructor | jetreader/reader/centrality_test.cc:239-256 | the defaults, with the 9-bin table derived from the 16 edges; outputs at refmultcorr -1, classes -1, weight 0 |
| CentralityCalc.CentralityRun14.SetEvent | jetreader/reader/centrality_test.cc:260-273 | the outputs become those of the gate and the calculation on the current parameters; fatal exactly where the calculation is |
| CentralityCalc.CentralityRun14.CalculateCentrality | jetreader/reader/centrality_test.cc:354-423 | the outputs become the corrected multiplicity, both classes and the weight computed from the parameters; fatal for an unset ZDC fit, a zero ZDC scaling or a zero weight divisor |
| CentralityCalc.CentralityRun14.Compute | jetreader/reader/centrality_test.cc:359-422 | the loop-based computation agrees with the calculation on the parameters |
| CentralityCalc.CentralityRun14.PolyPair | jetreader/reader/centrality_test.cc:376-381 | the accumulation loop gives the vertex polynomial at vz and at the normalisation point |
| CentralityCalc.CentralityRun14.ScanBins | jetreader/reader/centrality_test.cc:391-405 | the scan-and-break loop gives the class of the value |
| CentralityCalc.CentralityRun14.HelperVzCorr | jetreader/reader/centrality_test.cc:153-166 | `vzCorr` is the vertex correction of the default calibration |
| CentralityCalc.CentralityRun14.HelperRefMultCorr | jetreader/reader/centrality_test.cc:168-171 | `refmultCorr` is the corrected multiplicity of the default calibration |
| CentralityCalc.CentralityRun14.HelperCent | jetreader/reader/centrality_test.cc:173-194 | `cent16`/`cent9`: the class when the value reaches an edge, 16 otherwise (for `cent9` too) |
| CentralityCalc.CentralityRun14.SetZdcParameterValues | jetreader/reader/centrality_test.cc:275-277 | only the ZDC fit changes, to the two values |
| CentralityCalc.CentralityRun14.SetZdcParameters | jetreader/reader/centrality_test.cc:278-288 | the ZDC fit becomes the list when it has exactly 2 entries and is cleared otherwise |
| CentralityCalc.CentralityRun14.SetVzParameterValues | jetreader/reader/centrality_test.cc:289-293 | only the vertex fit changes, to the seven values |
| CentralityCalc.CentralityRun14.SetVzParameters | jetreader/reader/centrality_test.cc:295-307 | the vertex fit becomes the list when it has exactly 7 entries and is cleared otherwise |
| CentralityCalc.CentralityRun14.SetZdcRange | jetreader/reader/centrality_test.cc:341-352 | only the ZDC range changes |
| CentralityCalc.CentralityRun14.SetZdcNormalizationPoint | jetreader/reader/centrality_test.cc:371-374 | only the ZDC normalisation point changes |
| CentralityCalc.CentralityRun14.SetVzRange | jetreader/reader/centrality_test.cc:341-352 | only the vertex range changes |
| CentralityCalc.CentralityRun14.SetVzNormalizationPoint | jetreader/reader/centrality_test.cc:376-386 | only the vertex normalisation point changes |
| CentralityCalc.CentralityRun14.SetRunRange | jetreader/reader/centrality_test.cc:341-346 | only the run range changes |
| CentralityCalc.CentralityRun14.SetCentralityBounds16Bin | jetreader/reader/centrality_test.cc:309-326 | with 16 edges, the 16-bin table is the edges and the 9-bin table their even positions plus position 15; any other size leaves both empty |
| CentralityCalc.CentralityRun14.SetWeightParameters | jetreader/reader/centrality_test.cc:328-339 | with 7 entries the weights and the bound are set; otherwise the weights are cleared and the bound is 0 |
| EventSelection.WithVxRange | jetreader/reader/event_selector.cc:24-29 | the vx setter keeps the selector's invariant (non-empty ranges, positive maxima, id cuts active exactly when they hold ids) |
| EventSelection.WithVyRange | jetreader/reader/event_selector.cc:31-36 | the vy setter keeps the invariant |
| EventSelection.WithVzRange | jetreader/reader/event_selector.cc:37-42 | the vz setter keeps the invariant |
| EventSelection.WithDVzMax | jetreader/reader/event_selector.cc:44-48 | the dVz setter keeps the invariant |
| EventSelection.WithVrMax | jetreader/reader/event_selector.cc:50-54 | the Vr setter keeps the invariant |
| EventSelection.WithRefMultRange | jetreader/reader/event_selector.cc:56-62 | the refmult setter keeps the invariant |
| EventSelection.WithTriggerId | jetreader/reader/event_selector.cc:64-67 | adding a trigger id keeps the invariant |
| EventSelection.WithTriggerIds | jetreader/reader/event_selector.cc:68-77 | adding a token's ids keeps the invariant |
| EventSelection.WithBadRuns | jetreader/reader/event_selector.cc:79-84 | adding bad runs keeps the invariant |
| EventSelection.WithBadRunFile | jetreader/reader/event_selector.cc:85-95 | adding a bad-run file's runs keeps the invariant |
| EventSelection.EventSelector.constructor | jetreader/reader/event_selector.cc:11 | a new selector is cleared and has recorded no trigger token |
| EventSelection.EventSelector.SetVxRange | jetreader/reader/event_selector.cc:24-29 | requires max > min (the assertion); only the vx cut changes, to active with these bounds |
| EventSelection.EventSelector.SetVyRange | jetreader/reader/event_selector.cc:31-36 | requires max > min; only the vy cut changes |
| EventSelection.EventSelector.SetVzRange | jetreader/reader/event_selector.cc:37-42 | requires max > min; only the vz cut changes |
| EventSelection.EventSelector.SetDVzMax | jetreader/reader/event_selector.cc:44-48 | requires max > 0; only the dVz cut changes |
| EventSelection.EventSelector.SetVrMax | jetreader/reader/event_selector.cc:50-54 | requires max > 0; only the Vr cut changes |
| EventSelection.EventSelector.SetRefMultRange | jetreader/reader/event_selector.cc:56-62 | requires max > min; only the refmult cut changes, to active with these bounds and this variant |
| EventSelection.EventSelector.AddTriggerId | jetreader/reader/event_selector.cc:64-67 | the id joins the trigger set and the trigger cut is on |
| EventSelection.EventSelector.AddTriggerIds | jetreader/reader/event_selector.cc:68-77 | the ids the lookup gives for the token join the set, the cut is on iff the set is non-empty or was on, and the token is recorded even when it names no id |
| EventSelection.EventSelector.AddBadRuns | jetreader/reader/event_selector.cc:79-84 | the listed runs join the bad-run set, and the cut is on iff the set is non-empty or was on |
| EventSelection.EventSelector.AddBadRunFile | jetreader/reader/event_selector.cc:85-95 | a file that cannot be opened is fatal and changes nothing; otherwise every number of every row joins the set and the file is recorded |
| EventSelection.EventSelector.Clear | jetreader/reader/event_selector.cc:97-122 | as written: every cut off and zeroed and the id sets and file list emptied, but the recorded trigger tokens kept |
| EventSelection.EventSelector.ClearAll | jetreader/reader/event_selector.cc:97-122 | corrected clear: the state of a new selector, trigger tokens forgotten too |
| EventSelection.EventSelector.CheckTriggerId | jetreader/reader/event_selector.cc:173-179 | the scan finds a fired trigger iff some registered id fired (a logical OR) |
| EventSelection.EventSelector.Select | jetreader/reader/event_selector.cc:13-22 | the three-valued verdict: a run on the active bad-run list gives rejectRun, any other failed active cut rejectEvent, otherwise acceptEvent |
| EventSelection.ClearedAcceptsEveryEvent | jetreader/reader/event_selector.cc:97-122 | a cleared selector is valid and accepts every event |
| EventSelection.DecideOnQuantities | jetreader/reader/event_selector.cc:13-184 | rejectRun iff the run is on the active bad-run list; acceptEvent iff in addition every active cut passes with strict bounds: open vx, vy, vz and refmult windows, abs(vzVpd − vz) < dVz max, vx²+vy² < Vr max², and a registered trigger fired |
| EventSelection.Decide | jetreader/reader/event_selector.cc:13-22 | rejectRun iff the run is on the active bad-run list; acceptEvent iff it is not and every other active cut passes |
| EventSelection.VrCutMatchesRadius | jetreader/reader/event_selector.cc:144-149 | the squared form of the Vr cut agrees with sqrt(vx²+vy²) < max for the non-negative root |
| EventSelection.VxRangeReplacesOnlyVx | jetreader/reader/event_selector.cc:24-29 | after setting the vx range an event is accepted iff the rest of the cuts accept it and min < vx < max |
| EventSelection.RefMultRangeReplacesOnlyRefMult | jetreader/reader/event_selector.cc:56-62 | after setting the refmult range an event is accepted iff the rest of the cuts accept it and the chosen variant lies strictly inside |
| EventSelection.MoreTriggerIdsAcceptMore | jetreader/reader/event_selector.cc:68-77 | with an active trigger cut, adding a token's ids never rejects an accepted event |
| EventSelection.UnknownTokenOnlyRecorded | jetreader/reader/event_selector.cc:68-77 | a token the lookup does not know adds no ids and leaves the cut as it was, but is recorded |
| EventSelection.BadRunsOnlyNarrow | jetreader/reader/event_selector.cc:79-84 | adding bad runs never accepts a rejected event, and an event of a listed run gives rejectRun |
| TrackSelection.WithDcaMax | jetreader/reader/track_selector.cc:31-35 | the DCA setter keeps the selector's invariant (every active maximum positive, an active hit fraction in (0, 1]) |
| TrackSelection.WithNHitsMin | jetreader/reader/track_selector.cc:37-40 | the nHits setter keeps the invariant |
| TrackSelection.WithNHitsFracMin | jetreader/reader/track_selector.cc:42-48 | the hit-fraction setter keeps the invariant |
| TrackSelection.WithChi2Max | jetreader/reader/track_selector.cc:50-54 | the chi2 setter keeps the invariant |
| TrackSelection.WithPtMax | jetreader/reader/track_selector.cc:56-60 | the maximum-pT setter keeps the invariant |
| TrackSelection.WithPtMin | jetreader/reader/track_selector.cc:62-66 | the minimum-pT setter keeps the invariant |
| TrackSelection.WithRejectEventOnPtFailure | jetreader/reader/track_selector.cc:68-70 | the flag setter keeps the invariant |
| TrackSelection.TrackSelector.constructor | jetreader/reader/track_selector.cc:7 | a new selector is cleared |
| TrackSelection.TrackSelector.SetDcaMax | jetreader/reader/track_selector.cc:31-35 | requires max > 0 (the assertion); only the DCA cut changes, to active with this maximum |
| TrackSelection.TrackSelector.SetNHitsMin | jetreader/reader/track_selector.cc:37-40 | only the nHits cut changes, to active with this minimum |
| TrackSelection.TrackSelector.SetNHitsFracMin | jetreader/reader/track_selector.cc:42-48 | requires 0 < min <= 1; only the hit-fraction cut changes |
| TrackSelection.TrackSelector.SetChi2Max | jetreader/reader/track_selector.cc:50-54 | requires max > 0; only the chi2 cut changes |
| TrackSelection.TrackSelector.SetPtMax | jetreader/reader/track_selector.cc:56-60 | requires max > 0; only the maximum-pT cut changes |
| TrackSelection.TrackSelector.SetPtMin | jetreader/reader/track_selector.cc:62-66 | requires min > 0; only the minimum-pT cut changes |
| TrackSelection.TrackSelector.RejectEventOnPtFailure | jetreader/reader/track_selector.cc:68-70 | only the flag changes |
| TrackSelection.TrackSelector.Clear | jetreader/reader/track_selector.cc:72-88 | every cut off with a zero bound and the flag back to true |
| TrackSelection.ClearedKeepsEveryTrack | jetreader/reader/track_selector.cc:9-29 | a cleared selector is valid and keeps every track except a global-only track in primary mode |
| TrackSelection.SelectOnQuantities | jetreader/reader/track_selector.cc:9-125 | a track is accepted iff it has a primary fit when primary tracks are asked for and every active cut passes: DCA < max, nHits > min, nHits/nHitsPoss > min (a track with no possible hits passes when it has hits), chi2 < max, min < pT < max, pT primary or global as asked |
| TrackSelection.Select | jetreader/reader/track_selector.cc:9-29 | acceptTrack iff the track has a primary fit when primary is asked for, every active quality cut passes and the active maximum pT holds; rejectEvent only when the flag is set and the active maximum pT fails |
| TrackSelection.FractionAbove | jetreader/reader/track_selector.cc:99-102 | comparing the hit fraction with its minimum is comparing nHits with min × nHitsPoss |
| TrackSelection.OnlyPtMaxRejectsEvent | jetreader/reader/track_selector.cc:21-26 | rejectEvent iff the flag is set, the maximum-pT cut fails, and every other cut passes |
| TrackSelection.FlagKeepsAcceptance | jetreader/reader/track_selector.cc:21-26 | the flag never changes whether a track is accepted, and with the flag off no track rejects the event |
| TrackSelection.GlobalOnlyTrackRejectedInPrimaryMode | jetreader/reader/track_selector.cc:11-12 | in primary mode a track without a primary fit is rejected whatever the cuts |
| TrackSelection.HigherPtMinKeepsFewer | jetreader/reader/track_selector.cc:62-66 | raising the minimum pT never accepts a track the lower minimum rejected |
| TowerSelection.WithBadTower | jetreader/reader/tower_selector.cc:28-31 | masking one tower keeps the selector's invariant (the mask is active exactly when it holds towers, active E_T bounds positive) |
| TowerSelection.WithBadTowers | jetreader/reader/tower_selector.cc:33-38 | masking a list keeps the invariant |
| TowerSelection.WithBadTowerFile | jetreader/reader/tower_selector.cc:40-50 | masking a file's towers keeps the invariant |
| TowerSelection.WithEtMax | jetreader/reader/tower_selector.cc:52-56 | the maximum-E_T setter keeps the invariant |
| TowerSelection.WithEtMin | jetreader/reader/tower_selector.cc:62-66 | the minimum-E_T setter keeps the invariant |
| TowerSelection.WithRejectEventOnEtFailure | jetreader/reader/tower_selector.cc:58-60 | the flag setter keeps the invariant |
| TowerSelection.TowerSelector.constructor | jetreader/reader/tower_selector.cc:11 | a new selector is cleared |
| TowerSelection.TowerSelector.AddBadTower | jetreader/reader/tower_selector.cc:28-31 | the id joins the mask and the mask is on |
| TowerSelection.TowerSelector.AddBadTowers | jetreader/reader/tower_selector.cc:33-38 | every listed id joins the mask, which is on iff it is non-empty or was on; nothing else changes |
| TowerSelection.TowerSelector.AddBadTowerFile | jetreader/reader/tower_selector.cc:40-50 | a file that cannot be opened is fatal and changes nothing; otherwise every number of every row joins the mask and the file is recorded |
| TowerSelection.TowerSelector.SetEtMax | jetreader/reader/tower_selector.cc:52-56 | requires max > 0 (the assertion); only the maximum-E_T cut changes |
| TowerSelection.TowerSelector.RejectEventOnEtFailure | jetreader/reader/tower_selector.cc:58-60 | only the flag changes |
| TowerSelection.TowerSelector.SetEtMin | jetreader/reader/tower_selector.cc:62-66 | requires min > 0; only the minimum-E_T cut changes |
| TowerSelection.TowerSelector.Clear | jetreader/reader/tower_selector.cc:68-79 | every cut off with zero bounds, mask and file list empty, flag back to true |
| TowerSelection.ClearedKeepsEveryTower | jetreader/reader/tower_selector.cc:11-26 | a cleared selector is valid and accepts every tower |
| TowerSelection.MaskedTowerRejected | jetreader/reader/tower_selector.cc:15-17 | a masked tower is rejected (never the event) whatever its energy |
| TowerSelection.SelectOnQuantities | jetreader/reader/tower_selector.cc:13-93 | a tower is accepted iff it is not masked and min·cosh η < E < max·cosh η for the active bounds; the event is rejected iff the flag is set, the maximum fails and the other cuts pass |
| TowerSelection.Select | jetreader/reader/tower_selector.cc:13-26 | acceptTower iff the tower is not masked by the active list and the active ET bounds hold; rejectEvent only when the flag is set and the active maximum ET fails |
| TowerSelection.ScaledBound | jetreader/reader/tower_selector.cc:85-93 | comparing E / cosh η with a bound is comparing E with bound·cosh η |
| TowerSelection.EtAtMostEnergy | jetreader/reader/tower_selector.cc:86-91 | E_T of a tower with non-negative energy lies between zero and the energy |
| TowerSelection.MoreBadTowersKeepFewer | jetreader/reader/tower_selector.cc:33-38 | masking more towers never accepts a tower the smaller mask rejected |
| EventSelectorConfig.RangeOf | jetreader/reader/config/event_selector_config_helper.cc:26-32 | a vertex range entry loads iff it is a sequence of exactly two numbers with max > min, and then gives those two numbers |
| EventSelectorConfig.CountRangeOf | jetreader/reader/config/event_selector_config_helper.cc:51-56 | a multiplicity range entry loads iff it is a sequence of two whole numbers with max > min, and then gives them |
| EventSelectorConfig.RefMultKind | jetreader/reader/config/event_selector_config_helper.cc:57-62 | the multiplicity variant is the section's `refMultType` entry wherever it stands (converted as a whole number), refMult when there is none |
| EventSelectorConfig.AddTriggerIdItems | jetreader/reader/config/event_selector_config_helper.cc:12-14 | each listed id is added in order, and the first item that is not a whole number ends the entry with an error |
| EventSelectorConfig.AddTokenItems | jetreader/reader/config/event_selector_config_helper.cc:15-17 | each listed token is added in order through the trigger table, and the first item that is not a string ends the entry with an error |
| EventSelectorConfig.CollectRuns | jetreader/reader/config/event_selector_config_helper.cc:18-21 | the run ids are gathered in order before they are added at once, and the first item that is not a whole number is an error |
| EventSelectorConfig.AddFileItems | jetreader/reader/config/event_selector_config_helper.cc:23-25 | each listed bad-run file is read and added in order; a non-string item or a file that cannot be opened ends the entry with an error |
| EventSelectorConfig.LoadEntry | jetreader/reader/config/event_selector_config_helper.cc:11-66 | one entry takes the branch its key selects; an unknown key changes nothing |
| EventSelectorConfig.LoadConfig | jetreader/reader/config/event_selector_config_helper.cc:9-67 | the entries are applied in document order and the first failing entry ends the load with an error |
| EventSelectorConfig.ReadConfig | jetreader/reader/config/event_selector_config_helper.cc:69-130 | the section written is the selector's cuts: active windows as `[min, max]`, active limits as numbers, the variant code before the multiplicity range, each non-empty id or name set listed once per element, inactive cuts omitted |
| EventSelectorConfig.LoadIds | jetreader/reader/config/event_selector_config_helper.cc:12-14 | loading a list of ids adds exactly those ids, and switches the cut on when there is at least one |
| EventSelectorConfig.LoadTokens | jetreader/reader/config/event_selector_config_helper.cc:15-17 | loading tokens whose ids the cut already holds only records the tokens |
| EventSelectorConfig.TokenAlreadyCovered | jetreader/reader/event_selector.cc:68-77 | a token whose ids the cut already holds is only recorded |
| EventSelectorConfig.CollectAllRuns | jetreader/reader/config/event_selector_config_helper.cc:18-21 | a list of whole numbers is gathered unchanged |
| EventSelectorConfig.LoadFiles | jetreader/reader/config/event_selector_config_helper.cc:23-25 | loading files whose runs the cut already holds only records the files |
| EventSelectorConfig.FileAlreadyCovered | jetreader/reader/event_selector.cc:85-95 | a file whose runs the cut already holds is only recorded |
| EventSelectorConfig.LoadVxPart | jetreader/reader/config/event_selector_config_helper.cc:26-32 | the written vx entry loads back as the vx window |
| EventSelectorConfig.LoadVyPart | jetreader/reader/config/event_selector_config_helper.cc:33-39 | the written vy entry loads back as the vy window |
| EventSelectorConfig.LoadVzPart | jetreader/reader/config/event_selector_config_helper.cc:40-46 | the written vz entry loads back as the vz window |
| EventSelectorConfig.LoadVrPart | jetreader/reader/config/event_selector_config_helper.cc:47-48 | the written Vr entry loads back as the Vr limit |
| EventSelectorConfig.LoadDVzPart | jetreader/reader/config/event_selector_config_helper.cc:49-50 | the written dVz entry loads back as the dVz limit |
| EventSelectorConfig.LoadMultPart | jetreader/reader/config/event_selector_config_helper.cc:51-62 | the written variant and range entries load back as the multiplicity cut; the variant entry alone changes nothing |
| EventSelectorConfig.LoadIdsPart | jetreader/reader/config/event_selector_config_helper.cc:101-106 | the written trigger-id list loads back as the trigger cut |
| EventSelectorConfig.IdsEntryLoads | jetreader/reader/config/event_selector_config_helper.cc:12-14 | a `triggerIds` entry adds all its ids |
| EventSelectorConfig.LoadTokensPart | jetreader/reader/config/event_selector_config_helper.cc:108-113 | the written token list loads back as the recorded tokens when their ids are already held |
| EventSelectorConfig.LoadRunsPart | jetreader/reader/config/event_selector_config_helper.cc:115-120 | the written bad-run list loads back as the bad-run cut |
| EventSelectorConfig.RunsEntryLoads | jetreader/reader/config/event_selector_config_helper.cc:18-22 | a `badRunIds` entry adds all its runs at once |
| EventSelectorConfig.LoadFilesPart | jetreader/reader/config/event_selector_config_helper.cc:122-127 | the written file list loads back as the recorded files when their runs are already held |
| EventSelectorConfig.FilesEntryLoads | jetreader/reader/config/event_selector_config_helper.cc:23-25 | a `badRunIdFile` entry naming covered files only records them |
| EventSelectorConfig.WrittenMultKind | jetreader/reader/config/event_selector_config_helper.cc:95-99 | in a written section the variant a multiplicity range reads is the one written |
| EventSelectorConfig.VertexOmitsMultKind | jetreader/reader/config/event_selector_config_helper.cc:72-93 | the vertex entries never carry a variant key |
| EventSelectorConfig.LoadVertexPart | jetreader/reader/config/event_selector_config_helper.cc:72-93 | the written vertex entries load back as the vertex cuts |
| EventSelectorConfig.LoadListsPart | jetreader/reader/config/event_selector_config_helper.cc:101-127 | the written lists load back as the id and name sets |
| EventSelectorConfig.LoadDescription | jetreader/reader/config/event_selector_config_helper.cc:69-130 | loading a written section into a cleared selector rebuilds the cuts it was written from, keeping the tokens the cleared selector still held |
| EventSelectorConfig.WrittenSectionReloads | jetreader/reader/config/event_selector_config_helper.cc:69-130 | round trip: what readConfig writes for consistent cuts, in any listing order, loads into a fresh selector as exactly those cuts |
| EventSelectorConfig.IdStepKeepsConsistent | jetreader/reader/event_selector.cc:64-67 | adding an id keeps the cuts consistent (valid, tokens and files reflected in the id sets) |
| EventSelectorConfig.TokenStepKeepsConsistent | jetreader/reader/event_selector.cc:68-77 | adding a token keeps the cuts consistent |
| EventSelectorConfig.FileStepKeepsConsistent | jetreader/reader/event_selector.cc:85-95 | adding a bad-run file keeps the cuts consistent |
| EventSelectorConfig.IdItemsKeepConsistent | jetreader/reader/config/event_selector_config_helper.cc:12-14 | a `triggerIds` entry keeps the cuts consistent |
| EventSelectorConfig.TokenItemsKeepConsistent | jetreader/reader/config/event_selector_config_helper.cc:15-17 | a `triggerIdStrings` entry keeps the cuts consistent |
| EventSelectorConfig.FileItemsKeepConsistent | jetreader/reader/config/event_selector_config_helper.cc:23-25 | a `badRunIdFile` entry keeps the cuts consistent |
| EventSelectorConfig.EntryKeepsConsistent | jetreader/reader/config/event_selector_config_helper.cc:11-66 | every entry that loads keeps the cuts consistent |
| EventSelectorConfig.LoadKeepsConsistent | jetreader/reader/config/event_selector_config_helper.cc:9-67 | a successful load keeps the cuts consistent |
| EventSelectorConfig.LoadedSelectorReloads | jetreader/reader/config/event_selector_config_helper.cc:9-130 | load, write, load gives what the first load gave |
| EventSelectorConfig.ClearedTokenRevivesTriggers | jetreader/reader/event_selector.cc:97-122 | as written: a cleared selector that still records a token accepts every event, but the section written for it loads back with the trigger cut on |
| EventSelectorConfig.WrittenClearedSelector | jetreader/reader/config/event_selector_config_helper.cc:108-113 | the section written for such a cleared selector is the token list alone |
| EventSelectorConfig.FullyClearedReloads | jetreader/reader/config/event_selector_config_helper.cc:69-130 | corrected: the section written for a fully cleared selector loads back as a cleared selector |
| TowerSelectorConfig.TowerEntry | jetreader/reader/config/tower_selector_config_helper.cc:10-24 | an entry whose key the helper does not know changes nothing |
| TowerSelectorConfig.AddTowerItems | jetreader/reader/config/tower_selector_config_helper.cc:16-18 | each listed tower is masked in order, and the first item that is not a whole number ends the entry with an error |
| TowerSelectorConfig.AddTowerFileItems | jetreader/reader/config/tower_selector_config_helper.cc:19-21 | each listed bad-tower file is read and masked in order; a non-string item or a file that cannot be opened ends the entry with an error |
| TowerSelectorConfig.LoadEntry | jetreader/reader/config/tower_selector_config_helper.cc:10-24 | one entry calls the setter its key selects, and fails exactly when the conversion or the setter's assertion does |
| TowerSelectorConfig.LoadConfig | jetreader/reader/config/tower_selector_config_helper.cc:7-26 | the entries are applied in document order and the first failing entry ends the load with an error |
| TowerSelectorConfig.ReadConfig | jetreader/reader/config/tower_selector_config_helper.cc:28-50 | the section written is the selector's cuts: active E_T bounds, the flag always, the mask while it is on and the file list when non-empty, each set listed once per element |
| TowerSelectorConfig.LoadTowers | jetreader/reader/config/tower_selector_config_helper.cc:16-18 | loading a list of towers masks exactly those towers, and switches the mask on when there is at least one |
| TowerSelectorConfig.LoadTowerFiles | jetreader/reader/config/tower_selector_config_helper.cc:19-21 | loading files whose towers the mask already holds only records the files |
| TowerSelectorConfig.FileAlreadyCovered | jetreader/reader/tower_selector.cc:40-50 | a file whose towers the mask already holds is only recorded |
| TowerSelectorConfig.LoadEnergyPart | jetreader/reader/config/tower_selector_config_helper.cc:30-34 | the written E_T bounds and flag load back as those of the cuts |
| TowerSelectorConfig.LoadTowersPart | jetreader/reader/config/tower_selector_config_helper.cc:36-41 | the written tower list loads back as the mask |
| TowerSelectorConfig.TowersEntryLoads | jetreader/reader/config/tower_selector_config_helper.cc:16-18 | a `badTowers` entry masks all its towers |
| TowerSelectorConfig.LoadFilesPart | jetreader/reader/config/tower_selector_config_helper.cc:42-47 | the written file list loads back as the recorded files when their towers are already masked |
| TowerSelectorConfig.FilesEntryLoads | jetreader/reader/config/tower_selector_config_helper.cc:19-21 | a `badTowerFiles` entry naming covered files only records them |
| TowerSelectorConfig.LoadEnergyAndTowers | jetreader/reader/config/tower_selector_config_helper.cc:30-41 | the written energy entries and mask load into a cleared selector as those of the cuts |
| TowerSelectorConfig.LoadDescription | jetreader/reader/config/tower_selector_config_helper.cc:28-50 | loading a written section into a cleared selector rebuilds the cuts it was written from |
| TowerSelectorConfig.WrittenSectionReloads | jetreader/reader/config/tower_selector_config_helper.cc:28-50 | round trip: what readConfig writes for consistent cuts, in any listing order, loads into a fresh selector as exactly those cuts |
| TowerSelectorConfig.TowerItemsKeepConsistent | jetreader/reader/config/tower_selector_config_helper.cc:16-18 | a `badTowers` entry keeps the cuts consistent (valid, every recorded file's towers masked) |
| TowerSelectorConfig.FileStepKeepsConsistent | jetreader/reader/tower_selector.cc:40-50 | masking a file's towers keeps the cuts consistent |
| TowerSelectorConfig.FileItemsKeepConsistent | jetreader/reader/config/tower_selector_config_helper.cc:19-21 | a `badTowerFiles` entry keeps the cuts consistent |
| TowerSelectorConfig.EntryKeepsConsistent | jetreader/reader/config/tower_selector_config_helper.cc:10-24 | every entry that loads keeps the cuts consistent |
| TowerSelectorConfig.LoadKeepsConsistent | jetreader/reader/config/tower_selector_config_helper.cc:7-26 | a successful load keeps the cuts consistent |
| TowerSelectorConfig.LoadedSelectorReloads | jetreader/reader/config/tower_selector_config_helper.cc:7-50 | load, write, load gives what the first load gave |
| TrackSelectorConfig.FractionOf | jetreader/reader/config/track_selector_config_helper.cc:14-15 | a hit-fraction entry loads iff it is a number in (0, 1], and then gives that number |
| TrackSelectorConfig.TrackEntry | jetreader/reader/config/track_selector_config_helper.cc:9-27 | an unknown key changes nothing, and every entry that loads keeps the cuts valid |
| TrackSelectorConfig.LoadEntry | jetreader/reader/config/track_selector_config_helper.cc:9-27 | one entry calls the setter its key selects, and fails exactly when the conversion or the setter's assertion does |
| TrackSelectorConfig.LoadConfig | jetreader/reader/config/track_selector_config_helper.cc:7-28 | the entries are applied in document order and the first failing entry ends the load with an error |
| TrackSelectorConfig.CountPart | jetreader/reader/config/track_selector_config_helper.cc:33-34 | the minimum hit count is written only while that cut is on |
| TrackSelectorConfig.ReadConfig | jetreader/reader/config/track_selector_config_helper.cc:29-46 | the section written is the selector's active cuts in key order, then the flag |
| TrackSelectorConfig.LookupInDocument | jetreader/reader/config/track_selector_config_helper.cc:29-46 | looking a key up in a written section finds the part that wrote it |
| TrackSelectorConfig.WrittenKeys | jetreader/reader/config/track_selector_config_helper.cc:29-46 | a written section names a key iff the cut it sets is on, and always names the flag |
| TrackSelectorConfig.LoadThresholds | jetreader/reader/config/track_selector_config_helper.cc:31-36 | the written DCA, hit-count and hit-fraction entries load back as those cuts |
| TrackSelectorConfig.LoadMomentum | jetreader/reader/config/track_selector_config_helper.cc:37-40 | the written pT bounds load back as those cuts |
| TrackSelectorConfig.LoadFitAndFlag | jetreader/reader/config/track_selector_config_helper.cc:41-43 | the written chi2 bound and flag load back as those of the cuts |
| TrackSelectorConfig.WrittenSectionReloads | jetreader/reader/config/track_selector_config_helper.cc:29-46 | round trip: the section written for valid cuts loads into a cleared selector as exactly those cuts |
| TrackSelectorConfig.LoadKeepsValid | jetreader/reader/config/track_selector_config_helper.cc:7-28 | a successful load keeps the cuts valid |
| TrackSelectorConfig.LoadedSelectorReloads | jetreader/reader/config/track_selector_config_helper.cc:7-46 | load, write, load gives what the first load gave |
| ReaderConfig.Fraction | jetreader/reader/config/reader_config_helper.cc:13-15 | the hadronic fraction is the section's fraction entry wherever it stands, converted as a number, and 1.0 when there is none |
| ReaderConfig.ReaderEntry | jetreader/reader/config/reader_config_helper.cc:6-22 | the primary-track key sets the track mode to its flag; the hadronic key switches the hadronic correction with the section's fraction and fails on a fraction outside [0, 1] while on; the MIP key switches the MIP correction; each fails iff its value is not a flag; any other key changes nothing; a sane state stays sane |
| ReaderConfig.LoadEntry | jetreader/reader/config/reader_config_helper.cc:6-22 | one entry calls the reader setter its key selects, and fails exactly when the conversion or the setter does |
| ReaderConfig.LoadConfig | jetreader/reader/config/reader_config_helper.cc:5-23 | the entries are applied in document order and the first failing entry ends the load with an error |
| ReaderConfig.ReaderDocument | jetreader/reader/config/reader_config_helper.cc:25-34 | the section written holds the track-mode, hadronic and MIP flags in that order, with the fraction after the hadronic flag exactly while that correction is on |
| ReaderConfig.ReadConfig | jetreader/reader/config/reader_config_helper.cc:25-34 | readConfig writes that section for the reader's settings |
| ReaderConfig.Reloaded | jetreader/reader/config/reader_config_helper.cc:28-32 | a write and a load keep the three flags, and keep the fraction too while the hadronic correction is on |
| ReaderConfig.WrittenSettingsReload | jetreader/reader/config/reader_config_helper.cc:5-34 | round trip: the section written for sane settings loads, into any reader, as those settings, the fraction aside when the hadronic correction is off |
| ReaderConfig.LoadKeepsSane | jetreader/reader/config/reader_config_helper.cc:5-23 | a successful load keeps the settings sane (at most one correction on, the fraction in [0, 1]) |
| ReaderConfig.LoadedSettingsReload | jetreader/reader/config/reader_config_helper.cc:5-34 | load, write, load gives what the first load gave, the fraction aside when the hadronic correction is off |
| ReaderConfig.LastCorrectionWins | jetreader/reader/reader.cc:110-130 | with both corrections requested, the key that comes last decides which correction is on |
| ConfigManagement.PartEntry | jetreader/reader/config/config_manager.cc:24-98 | an empty section or an unknown top-level key changes nothing; each known key changes only its own part of the configuration, and a selector section loads through that selector's helper into the existing selector or, when there is none, a fresh one |
| ConfigManagement.ConfigManager.constructor | jetreader/reader/config/config_manager.cc:15 | the manager holds the reader it was given, possibly none |
| ConfigManagement.ConfigManager.LoadReaderConfig | jetreader/reader/config/config_manager.cc:56-62 | an empty section changes nothing; otherwise the reader's helper loads it |
| ConfigManagement.ConfigManager.LoadTowerSelectorConfig | jetreader/reader/config/config_manager.cc:64-74 | an empty section changes nothing; otherwise a missing tower selector is replaced by a new one and the helper loads the section into it |
| ConfigManagement.ConfigManager.LoadTrackSelectorConfig | jetreader/reader/config/config_manager.cc:76-86 | the same for the track selector |
| ConfigManagement.ConfigManager.LoadEventSelectorConfig | jetreader/reader/config/config_manager.cc:88-98 | the same for the event selector |
| ConfigManagement.ConfigManager.LoadPart | jetreader/reader/config/config_manager.cc:25-34 | one top-level entry is dispatched on its key; any other key is skipped; a selector is kept or replaced by a new one |
| ConfigManagement.ConfigManager.LoadAt | jetreader/reader/config/config_manager.cc:24-35 | after the entries before `i` have been applied, applying entry `i` extends the load by one entry, or the whole load fails |
| ConfigManagement.ConfigManager.LoadConfig | jetreader/reader/config/config_manager.cc:17-36 | without a reader the load fails; otherwise the top-level entries are applied in document order and the first failing one ends the load |
| ConfigManagement.ConfigManager.WriteConfig | jetreader/reader/config/config_manager.cc:38-54 | without a reader the write fails; otherwise the document holds the reader, tower, track and event sections in that order, each what its helper writes |
| ConfigManagement.WrittenConfigReloads | jetreader/reader/config/config_manager.cc:17-54 | round trip: a document writeConfig wrote loads into a newly constructed reader as the configuration it was written from, the hadronic fraction aside while that correction is off |
| ConfigManagement.FourSteps | jetreader/reader/config/config_manager.cc:24-35 | four top-level entries that each succeed take the configuration through each in turn |
| ConfigManagement.ReaderSectionReloads | jetreader/reader/config/config_manager.cc:56-62 | a written reader section loads over any settings as the settings it was written from, the unused fraction aside |
| ConfigManagement.TowerSectionReloads | jetreader/reader/config/config_manager.cc:64-74 | a written tower section loads into a cleared tower selector as the cuts it was written from, an empty section included |
| ConfigManagement.TrackSectionReloads | jetreader/reader/config/config_manager.cc:76-86 | a written track section loads into a cleared track selector as the cuts it was written from |
| ConfigManagement.EventSectionReloads | jetreader/reader/config/config_manager.cc:88-98 | a written event section loads into a cleared event selector as the cuts it was written from, an empty section included |
| ReaderSpec.WithMipCorrection | jetreader/reader/reader.cc:110-115 | the MIP flag is set, switching it on switches the hadronic correction off, at most one correction stays on, and nothing else changes |
| ReaderSpec.WithHadronicCorrection | jetreader/reader/reader.cc:117-130 | the hadronic flag and fraction are stored either way, switching it on switches MIP off, at most one correction stays on, and the settings are sane when the fraction check passes |
| ReaderSpec.FractionCheck | jetreader/reader/reader.cc:121-129 | useHadronicCorrection fails iff the correction is on and the fraction lies outside [0, 1] |
| ReaderSpec.TrackVectors | jetreader/reader/reader.cc:185-201 | at most one vector per track, each from a track of the event in the reader's track mode |
| ReaderSpec.Matched | jetreader/reader/reader.cc:194-196 | a tower's slot only holds indexes of tracks already processed |
| ReaderSpec.SlotsIndexTracks | jetreader/reader/reader.cc:194-196 | once the event is made, every slot indexes tracks of the event |
| ReaderSpec.Slot | jetreader/reader/reader.cc:161-196 | slot k once the event is made indexes tracks of the event |
| ReaderSpec.ReadResults | jetreader/reader/reader.cc:72-100 | one read result per entry, each what readEvent reports for it |
| ReaderSpec.Decisions | jetreader/reader/reader.cc:290-300 | one selector decision per entry, each the event selector's verdict alone |
| ReaderSpec.RunRejectionIsTheSelectors | jetreader/reader/reader.cc:161-169 | readEvent reports a rejected run only when the selector rejects the run, never accepts an event whose run is rejected, and accepts only events the selector accepts |
| ReaderSpec.StoreCoherent | jetreader/reader/reader.cc:161-169 | the reads and selector decisions over a whole store agree as the walk needs: a rejected run is the selector's and is never accepted |
| ReaderSpec.CorrectedNextOverStore | jetreader/reader/reader.cc:42-70 | corrected next(): over any store whose every read succeeds, next() stops exactly at the next entry readEvent accepts |
| ReaderSpec.MatchedExactly | jetreader/reader/reader.cc:185-196 | slot k holds exactly the accepted tracks that point to tower k, in increasing order |
| ReaderSpec.TrackVectorsExactly | jetreader/reader/reader.cc:185-191 | a track yields a vector iff the track selector accepts it, and the vectors follow track order |
| ReaderSpec.TowerVectorsSound | jetreader/reader/reader.cc:209-233 | every tower vector comes from a tower that passes, whose corrected energy is positive and passes again, carrying that energy, its id (index + 1) and its slot |
| ReaderSpec.TowerVectorsComplete | jetreader/reader/reader.cc:209-233 | every tower that passes, and whose corrected energy is positive and passes again, yields its vector |
| ReaderSpec.TowerVectorsSameSlots | jetreader/reader/reader.cc:230-232 | a tower's vector depends on its own slot alone |
| ReaderSpec.TracksKeepExactly | jetreader/reader/reader.cc:182-203 | selectTracks keeps the event iff no track asks for it to be rejected |
| ReaderSpec.TowersKeepExactly | jetreader/reader/reader.cc:205-239 | selectTowers keeps the event iff no tower asks for it to be rejected |
| ReaderSpec.HadCorrectedSubtractsFraction | jetreader/reader/reader.cc:254-269 | the hadronic correction takes the fraction of the matched tracks' total momentum off the tower energy |
| ReaderSpec.HadCorrected | jetreader/reader/reader.cc:254-269 | the corrected energy is the raw energy less the fraction of the total momentum of the matched tracks |
| ReaderSpec.MipCorrected | jetreader/reader/reader.cc:241-252 | the corrected energy never exceeds the raw one, and equals it iff no track is matched |
| ReaderSpec.TowerVerdict | jetreader/reader/reader.cc:218-219 | a tower whose id is on the active bad-tower list is rejected; a tower asks to reject the event only when the flag is set and the maximum ET is active |
| ReaderSpec.Status | jetreader/reader/reader.cc:161-180 | rejectRun iff the selector rejects the run; acceptEvent iff the selector accepts and no read track and no read tower asks for the event to be rejected |
| ReaderSpec.ReadResult | jetreader/reader/reader.cc:72-100 | fatal iff the loaded centrality calculation fails or makeEvent would index past the slots; otherwise makeEvent's status |
| ReaderSpec.MipCorrectionLowers | jetreader/reader/reader.cc:241-252 | with no matched track the MIP correction keeps the energy, and each further matched track strictly lowers it |
| ReaderWalk.FastForward | jetreader/reader/reader.cc:292-310 | the scan stops strictly after the current entry and inside the chain, every entry it passes has a rejected run, and it reports a good run iff the entry it stops at is not a rejected run |
| ReaderWalk.GoodRunSearch | jetreader/reader/reader.cc:288-310 | the search stops at or after the current entry, passes only rejected runs, and a good run it reports is not rejected |
| ReaderWalk.FindNextGoodRun | jetreader/reader/reader.cc:271-318 | findNextGoodRun succeeds only where the search does, and only when the reload of the entry it stopped at succeeds |
| ReaderWalk.NextAsWritten | jetreader/reader/reader.cc:42-70 | next() as written stops at its position or a later entry of the chain |
| ReaderWalk.NextAccepted | jetreader/reader/reader.cc:42-70 | the reference walk: the next accepted entry with nothing accepted in between, or the last entry with no event |
| ReaderWalk.FastForwardChecked | jetreader/reader/reader.cc:292-310 | the corrected scan stops within the chain and passes only rejected runs |
| ReaderWalk.SkipUnaccepted | jetreader/reader/reader.cc:55-62 | entries that are not accepted can be passed over without changing where the reference walk stops |
| ReaderWalk.CorrectedFindsNextAccepted | jetreader/reader/reader.cc:42-70 | corrected next(): when every read succeeds, next() stops exactly where the reference walk does |
| ReaderWalk.AsWrittenSkipsNoAccepted | jetreader/reader/reader.cc:42-70 | next() as written never passes over an accepted entry, and an entry it reports was read and has a good run, though perhaps rejected by its tracks or towers |
| ReaderWalk.BadRunAtEndIsFatal | jetreader/reader/reader.cc:292-310 | as written: a rejected run at the last entry makes next() fail with a load past the end; the corrected walk ends with no event |
| ReaderWalk.LandedRejectedEventReported | jetreader/reader/reader.cc:63-65 | as written: the first entry after a rejected run is reported as an event even when its tracks reject it; the corrected and reference walks report nothing |
| ReaderPipeline.Reader.constructor | jetreader/reader/reader.cc:12-20 | a new reader reads primary tracks with the full hadronic correction and no MIP correction, has three new cleared selectors, no vectors, empty slots, and stands before the first entry |
| ReaderPipeline.Reader.UsePrimaryTracks | jetreader/reader/reader.h:63 | only the track mode changes, to primary |
| ReaderPipeline.Reader.UseGlobalTracks | jetreader/reader/reader.h:64 | only the track mode changes, to global |
| ReaderPipeline.Reader.UseMIPCorrection | jetreader/reader/reader.cc:110-115 | the settings become those of useMIPCorrection |
| ReaderPipeline.Reader.UseHadronicCorrection | jetreader/reader/reader.cc:117-130 | the settings become those of useHadronicCorrection, and the result is its fraction check |
| ReaderPipeline.Reader.SetEventSelector | jetreader/reader/reader.cc:143-145 | the reader now holds the given event selector |
| ReaderPipeline.Reader.SetTrackSelector | jetreader/reader/reader.cc:147-149 | the reader now holds the given track selector |
| ReaderPipeline.Reader.SetTowerSelector | jetreader/reader/reader.cc:151-153 | the reader now holds the given tower selector |
| ReaderPipeline.Reader.Clear | jetreader/reader/reader.cc:155-159 | no vectors are left and every slot is empty |
| ReaderPipeline.Reader.SelectTracks | jetreader/reader/reader.cc:182-203 | the vectors of the accepted tracks are appended in track order, each accepted track that points to a tower joins that tower's slot, and the event is kept iff no track rejects it |
| ReaderPipeline.Reader.TowerHadronicCorrection | jetreader/reader/reader.cc:254-269 | the tower energy less the fraction of each matched track's momentum, primary or global as the reader reads |
| ReaderPipeline.Reader.TowerMIPCorrection | jetreader/reader/reader.cc:241-252 | the tower energy less one MIP energy at the tower's uncorrected pseudorapidity per matched track |
| ReaderPipeline.Reader.SelectTower | jetreader/reader/reader.cc:211-236 | one tower's verdict, and its vector when its corrected energy is positive and passes again |
| ReaderPipeline.Reader.SelectTowers | jetreader/reader/reader.cc:205-239 | the vectors of the towers that pass twice are appended in tower order, and the event is kept iff no tower rejects it |
| ReaderPipeline.Reader.MakeEvent | jetreader/reader/reader.cc:161-180 | the status is the selector's when it does not accept, else a rejection asked for by a read track or tower, else acceptance; the slots and vectors are those the event yields |
| ReaderPipeline.Reader.MakeTracks | jetreader/reader/reader.cc:182-203 | the track flag is kept iff no read track asks for the event to be rejected; the slots and vectors are those the tracks of the event yield |
| ReaderPipeline.Reader.ReadEvent | jetreader/reader/reader.cc:72-100 | an entry past the end fails and leaves the reader cleared; otherwise the reader stands at that entry, runs the centrality calculation first when a definition is loaded, and reports makeEvent's status; fatal where makeEvent would index past the 4800 tower-to-track slots |
| ReaderPipeline.Reader.SwitchToEventBranch | jetreader/reader/reader.cc:274-286 | every array's branch status is recorded, then only the event branch is read; other branches are untouched |
| ReaderPipeline.Reader.RestoreBranches | jetreader/reader/reader.cc:313-314 | every recorded branch status is put back |
| ReaderPipeline.Reader.ScanForGoodRun | jetreader/reader/reader.cc:288-310 | the scan is the good-run search over the selector's decisions, and the reader stands where it stopped |
| ReaderPipeline.Reader.SearchEventBranch | jetreader/reader/reader.cc:274-314 | the search runs with the event branch alone, and on success every branch status is as before |
| ReaderPipeline.Reader.FindNextGoodRun | jetreader/reader/reader.cc:271-318 | findNextGoodRun is the walk's, the reader stands at the entry it stopped at with that entry read and the branches restored |
| ReaderPipeline.Reader.NextStep | jetreader/reader/reader.cc:55-68 | one pass of next()'s loop either finishes next() with its result or moves it forward without changing where it stops |
| ReaderPipeline.Reader.StepPastBadRun | jetreader/reader/reader.cc:63-66 | after a rejected run, findNextGoodRun either finishes next() or leaves it to go on from where the search stopped |
| ReaderPipeline.Reader.Next | jetreader/reader/reader.cc:42-70 | next() as written: the result and final position are those of the walk over the store's reads and selector decisions, and a reported event leaves the reader holding that event's vectors and slots |

## Left out

- Reading the pico event store (entry loading, entry counts, branch status calls, reader initialisation) is not modelled: the store is a sequence of `Event` values and the branch status a map from branch names to flags.
- YAML parsing and the file streams that read and write configuration files are not modelled: a document is a list of sections of typed scalars and lists, and a file of bad runs or bad towers is a sequence of lines given by `Csv.FileSystem`.
- Four-vector construction (`MakePseudoJet` in the fastjet library) and the calorimeter geometry helper are not modelled: an emitted vector is its energy, tower or track index and provenance tag, and tower positions and the functions of pseudorapidity are inputs (`Records.Geometry`).
- Transcendental functions (cosh, atan, exp, sin, sqrt and the DCA magnitude) are inputs carried by the records; all other arithmetic is on reals with no floating-point rounding, so the source's numeric regression tolerances are not modelled.
- `StPicoArrays` is not part of this model; the branch names the reader uses are constants.
- `centrality.cc` and `centrality.h` are not part of this model; the centrality engine is the reference class `CentralityRun14` of `reader/centrality_test.cc`.
- `centrality_def.h` declares only the Run 14 low/mid identifier while the table has more records; the model uses every record in the table.
- `ReaderPipeline.Reader`: `pseudojets()` is the field `pseudojets`, and the re-read it performs when the current entry is not the loaded one is not modelled.
- `ReaderPipeline.Reader`: `init()` and a reader built without an input chain are not modelled; the store is fixed when the reader is built.
- `ReaderSpec.Overflows`: an index beyond the 4800 tower-to-track slots is undefined behaviour in the source and fatal here; more than 4800 tower hits is fatal once the towers are processed, whereas the source only indexes the slots of the towers it accepts.
- `ReaderPipeline.Reader.ReadEvent`: a load failure of an entry inside the store is not modelled; every entry of the store loads.
- `ReaderPipeline.Reader.UseHadronicCorrection`: the failure message for a fraction outside [0, 1] is a fixed text rather than the formatted one.
- `ConfigManagement.ConfigManager.WriteConfig`: requires that the reader's three selectors are present, which the source dereferences without a check.
- `ConfigManagement.ConfigManager.LoadConfig`: on failure the new state is not stated; the sections before the failing one stay applied.
- `ConfigManagement.ConfigManager.LoadPart`: every top-level value is a section; a top-level scalar or list is not modelled.
- Lists written from a `std::set` (trigger ids, bad runs, bad towers) are stated as some enumeration of the set; their ascending order is not stated.
- `config_manager.h` and the selector headers declare signatures the `.cc` files no longer have; the model follows the `.cc` files.
- Unknown keys in a configuration section are accepted and skipped; the message the source writes to the error stream is not modelled.
- `StringUtils.ParseArgString`: requires that every comma-terminated token casts, because the source's loop does not end on a token it cannot convert.
- The string-to-number conversion (`string_cast.h`) is modelled for `unsigned`, the only instantiation the CSV reader uses: an optional sign, decimal digits below 2^32, a minus sign wrapping modulo 2^32 as the standard library's unsigned extraction does.
- `StringUtils.CanCast`: leading whitespace, which `>>` skips, is not accepted; every caller strips whitespace before casting.
- `ConfigDocument.AsText`: a number or boolean scalar is fatal, whereas the YAML library's string conversion returns the text of any scalar; the model's scalars do not keep the text a number or boolean was written with, so an entry such as `triggerIdStrings: [15]` or `badTowerFiles: [123]` fails to load.
- `ReaderPipeline.Reader`: the centrality engine's `loadCentralityDef` belongs to `centrality.cc`, which is not part of this model; `centralityOn` stands for `centrality_.isValid()` and no operation of the model switches it on.
- `CentralityCalc.CentralityRun14.CalculateCentrality`: an unset ZDC fit (an out-of-range index in the source), a zero ZDC scaling and a zero weight divisor (an infinite weight in IEEE arithmetic) are fatal.
- The unused random engine of the centrality reference class and the benchmark files are not modelled.

## Findings

| source | as written | input that shows it | evidently intended | confidence | as-written member | corrected member |
|---|---|---|---|---|---|---|
| jetreader/reader/centrality_test.cc:391-405 | `CentralityRun14` gives class -1 when the corrected multiplicity lies below the lowest edge | run 15076125 with refmult 5, ZDC rate 30000 and vertex z 0 under the default calibration | the sentinel 16 that the `cent16`/`cent9` helpers and the reader documentation use, so that a lower multiplicity never gets a smaller class | not executed | CentralityCalc.PeripheralEventMarkedInvalid | CentralityCalc.ClassOfAntitone |
| jetreader/reader/event_selector.cc:97-122 | `clear` resets every cut but keeps the recorded trigger tokens | add a trigger token the lookup knows, clear, then write and reload the configuration: the reloaded selector has the trigger cut on | `clear` forgets the tokens too, so a cleared selector reloads as a cleared selector | not executed | EventSelectorConfig.ClearedTokenRevivesTriggers | EventSelectorConfig.FullyClearedReloads |
| jetreader/reader/reader.cc:292-310 | the bad-run fast-forward loads the next entry before checking for the end of the store | a store whose last entry belongs to a bad run | the walk ends with no event when the store is exhausted | not executed | ReaderWalk.BadRunAtEndIsFatal | ReaderWalk.CorrectedFindsNextAccepted |
| jetreader/reader/reader.cc:63-65 | after a fast-forward `next()` reports an event without looking at the landed entry's read result | a rejected run followed by an entry whose tracks reject the event | `next()` stops only at an entry that the read accepts | not executed | ReaderWalk.LandedRejectedEventReported | ReaderSpec.CorrectedNextOverStore |
