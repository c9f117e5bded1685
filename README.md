# kubectl-vpa in Dafny

kubectl-vpa is a kubectl plugin. It compares the resource requests of running pods with the
recommendations of the VerticalPodAutoscaler (VPA) objects that target their workloads.
It can also turn a VPA's recommendation into a `resources:` block, and write a VPA manifest
for a named workload. This project models the pure and the state-changing logic behind those
commands and proves what they promise. The cluster listings and GETs are inputs and
function parameters.

Two versions of the program live in the repository:

- The current one is under `internal/app/`.
- An older one is in the top-level package.

Both are modelled. They share the indexing, owner-normalisation and join code, which is
identical, and each version keeps its own emit decision and argument validators.

| module | file | models |
|---|---|---|
| `Wrappers` | wrappers.dfy | `Option`, `Result`, and `Unmarshalled` (the receiver after an `UnmarshalText` together with its error) |
| `Text` | text.dfy | ASCII `strings.ToLower` / `EqualFold`, and `strings.Index` / `LastIndex` on one character |
| `Collections` | collections.dfy | map building by a loop of assignments in which the last write wins, the keys of a map in `range` order, lists built by appending, and a print-once list |
| `Args` | args.dfy | `modeEnum` and `getParts` of internal/app/args.go |
| `Encode` | encode.dfy | `formatEnum` of internal/app/encode.go |
| `Compare` | compare.dfy | `compareArgs` of internal/app/compare.go: Verify, the VPA index, pod normalisation and join, the diffs, the emit decision, and the brief and table output |
| `Suggest` | suggest.dfy | internal/app/suggest.go: `getValue`, `calcValue`, and the scales used by `Exec` |
| `LegacyArgs` | legacy_args.dfy | `CompareArgs.Verify` and `ModeArgs.Verify` of args.go |
| `LegacyEncode` | legacy_encode.dfy | `FormatEnum` of encode.go |
| `LegacyCompare` | legacy_compare.dfy | `compare` of compare.go |
| `Create` | create.dfy | `CreateArgs` of create.go: the lookup chain, the owner mapping, the kind table, and the VPA document |

Modelling choices:

- **Go division.** Go's `/` on integers truncates toward zero. `Compare.TruncDiv` models it on top of Dafny's Euclidean division.
- **Workload keys.** The source keys VPAs and pods by the string `api:kind@ns/name` (`Key()`). The model keys them by the tuple `WorkloadKey`. The two agree exactly when no api contains ':', no kind contains '@' and no namespace contains '/' (`Compare.KeyStringInjective`); otherwise the string key can merge two workloads (`Compare.KeyStringCollision`).
- **Rounding in `mem2mb`.** `math.Round` of `v*10/1048576` is modelled on exact integers (`Compare.RoundHalfAway`). This is exact for byte counts up to 2^53/10. Above that, Go's int64 product and its float64 conversion can differ (see Compare.MemTenths under "## Left out").
- **Magnitudes in `suggest`.** They are exact reals. `math.RoundToEven` is modelled on reals.
- **Division by zero.** A zero recommendation divides by zero and panics the Go program. It is the `fault` outcome of `Exec`.
- **Container order.** The Go program visits a pod's containers in map order, which is unspecified. `Collections.MapKeys` picks the keys one by one by choice, so any order is possible, and `Exec` returns the order it used. Every statement about rows is made relative to that order.

## Model

| member | source | states |
|---|---|---|
| Args.ModeString | internal/app/args.go:40-49 | the result is one of Off/Initial/Auto; it is "Initial" exactly for modeInitial and "Auto" exactly for modeAuto, so every other value, the zero value included, reads "Off" |
| Args.UnmarshalMode | internal/app/args.go:51-64 | the text is accepted iff it equals, ignoring case, "off", "initial", "init" or "auto"; each accepted text sets its own mode ("init" is an alias of initial); unknown text leaves the receiver unchanged and errors (corrected message: it quotes the input) |
| Args.UnmarshalModeAsWritten | internal/app/args.go:51-64 | as written: like UnmarshalMode, but the error message quotes the receiver's current mode, not the text |
| Args.UnmarshalModeAsWrittenHidesInput | internal/app/args.go:61 | for the input "bogus" on a zero receiver, the message as written is the unknown-mode message for 'Off', which differs from the corrected message |
| Args.UnmarshalModeNamesInput | internal/app/args.go:61 | the corrected message for "bogus" names "bogus" and leaves the receiver unchanged |
| Args.UnmarshalModeQuotesInput | internal/app/args.go:60-61 | every error of the corrected parser contains the rejected text between quotes |
| Args.ModeRoundTrip | internal/app/args.go:40-64 | UnmarshalText(String(m)) == m for off, initial and auto, whatever the receiver held |
| Args.ZeroModeReadsBackAsOff | internal/app/args.go:40-64 | the zero value prints "Off", and that reads back as modeOff, not as the zero value |
| Args.SplitN2 | internal/app/args.go:103 | strings.SplitN(s, "/", 2): one part, the whole text, iff there is no separator; otherwise the part before the first separator (which has none) and the rest, which rejoin to the text |
| Args.GetParts | internal/app/args.go:101-114 | the namespace is never empty; the input splits at its first "/", with the namespace before it; without "/", the name is the whole input and the namespace is the default one, or "default" when that is empty |
| Args.GetPartsFirstSlash | internal/app/args.go:103-106 | "a/b/c" gives namespace "a" and name "b/c" |
| Args.GetPartsLeadingSlash | internal/app/args.go:110-112 | "/y" gives namespace "default" |
| Args.GetPartsBareName | internal/app/args.go:107-112 | a bare name keeps the given namespace; an empty given namespace becomes "default" |
| Args.GetPartsEmptyName | internal/app/args.go:103-106 | "ns/" gives an empty name |
| Encode.FormatString | internal/app/encode.go:36-46 | the result is a format name; "json" exactly for formatJSON and "toml" exactly for formatTOML, so formatYAML and every other value give "yaml" |
| Encode.UnmarshalFormat | internal/app/encode.go:21-34 | the text is accepted iff it is yaml/json/toml ignoring case, and each sets its own format; unknown text errors with the lower-cased text and leaves the receiver unchanged |
| Encode.FormatRoundTrip | internal/app/encode.go:15-46 | the zero value prints "yaml"; UnmarshalText(String(f)) == f for the three formats |
| Text.ToLowerMatches | internal/app/args.go:52-53 | lower-casing a text and comparing it with a lower-case literal is a case-insensitive comparison |
| Text.IndexOf | internal/app/args.go:103 | the first index of the character, -1 iff it is absent |
| Text.LastIndexOf | internal/app/compare.go:124 | the last index of the character: it holds the character and no later position does; -1 iff it is absent |
| Text.SplitUnique | internal/app/args.go:103 | a text splits at a separator in one way only, when the part before it has none |
| Collections.Assign | internal/app/compare.go:88-100 | the map built by a loop of `m[key] = v` over the kept elements, as Exec builds `vpas` and each VPA's container map; its contract is AssignDomain, AssignValue and AssignLastWins |
| Collections.AssignDomain | internal/app/compare.go:100 | a key is in the map built by the assignment loop iff some kept element has that key |
| Collections.AssignValue | internal/app/compare.go:100 | each key's value in that map comes from one element with that key |
| Collections.AssignLastWins | internal/app/compare.go:100 | an element that no later kept element shares a key with supplies its key's value |
| Collections.AddOnce | internal/app/compare.go:224-230 | printing once keeps the list free of duplicates and adds exactly the new line: what was printed stays in place, a name not yet printed goes at the end, a name already printed changes nothing |
| Collections.MapKeys | internal/app/compare.go:171 | the keys of a map in the order a `range` over it visits them: every key, each once, in some order |
| Collections.MappedAt | create.go:39-52 | the list of f(x) for each element, appended in turn, has one entry per element, each the image of the element at its index |
| Compare.KeyString | internal/app/compare.go:312-318 | the `api:kind@ns/name` key of `Key()`; KeyStringInjective states when it is as precise as the tuple key, and KeyStringCollision shows two workloads sharing it otherwise |
| Compare.KeyStringInjective | internal/app/compare.go:312-318 | when the api has no ':', the kind no '@' and the namespace no '/', two string keys are equal iff the tuple keys are |
| Compare.KeyStringCollision | internal/app/compare.go:312-318 | without that condition two different workloads can share a string key |
| Compare.ApplyMode | internal/app/compare.go:38-50 | one iteration of the mode loop: filtering on and that mode's flag set; its contract is ApplyModesFromNone |
| Compare.ApplyModes | internal/app/compare.go:38-50 | the mode loop over every given mode; its contract is ApplyModesFromNone |
| Compare.ApplyModesFromNone | internal/app/compare.go:38-50 | from a fresh filter, filtering is on iff a named mode was given, and each show flag is set iff its own mode was given |
| Compare.VerifiedFilter | internal/app/compare.go:37-58 | the filter Verify leaves: the mode loop, then the invert rule of lines 51-56; its contract is VerifiedFilterFromNone, and CompareArgs.Verify computes it |
| Compare.VerifiedFilterFromNone | internal/app/compare.go:37-58 | after Verify, filtering is on iff a mode was given or invert is set; each flag is set iff its mode was given, or invert with no mode sets all three |
| Compare.CompareArgs.Verify | internal/app/compare.go:37-58 | the loop and the invert rule leave exactly the filter VerifiedFilter describes; Verify always returns nil |
| Compare.CompareArgs.constructor | internal/app/compare.go:18-28 | the user's flags, with the filter still off |
| Compare.VpaIndex | internal/app/compare.go:72-107 | the `vpas` map of Exec; its contract is stated by VpaIndexSpec (exactly the VPAs with a target), VpaIndexWellKeyed and VpaIndexLastWins, and IndexVpas computes it |
| Compare.VpaIndexSpec | internal/app/compare.go:72-107 | a key is indexed iff some VPA with a target has it (api, lower-cased kind, the VPA's namespace, target name); every stored entry carries its own key |
| Compare.VpaIndexWellKeyed | internal/app/compare.go:72-107 | every indexed entry sits under its own key |
| Compare.VpaIndexLastWins | internal/app/compare.go:100 | a VPA that no later VPA with a target shares a key with is the one stored under that key |
| Compare.RecContainersLastWins | internal/app/compare.go:89-98 | the same for container recommendations and their names; a missing cpu or memory is stored as 0 |
| Compare.CollectRecommendations | internal/app/compare.go:88-99 | the recommendation loop builds the container map RecContainers describes |
| Compare.IndexVpas | internal/app/compare.go:72-107 | the VPA loop builds the index VpaIndex describes, and that index is well keyed |
| Compare.TrimGenerated | internal/app/compare.go:124-126 | the result is a prefix of the name; it is the whole name iff there is no '-' after index 0; otherwise the name is cut at its last '-', which must be at an index above 0 |
| Compare.NormalizeOwner | internal/app/compare.go:122-133 | the api is kept; job becomes cronjob and replicaset becomes deployment, each with the generated suffix cut; every other owner is unchanged; the result is never job or replicaset |
| Compare.NormalizeOwnerIdempotent | internal/app/compare.go:122-133 | normalising twice is the same as normalising once |
| Compare.TrimGeneratedSuffix | internal/app/compare.go:124-126 | "stem-suffix", where the stem is non-empty and the suffix has no '-', trims to the stem |
| Compare.NormalizeReplicaSetExample | internal/app/compare.go:128-132 | replicaset "foo-7d8f9c6b5" is deployment "foo" |
| Compare.NormalizeJobExample | internal/app/compare.go:122-126 | job "mycron-1699999999" is cronjob "mycron" |
| Compare.NormalizeNoSuffixExample | internal/app/compare.go:128-132 | a replicaset name without '-' is kept |
| Compare.PodRecord | internal/app/compare.go:112-142 | the record of one running pod: owner normalised, VPA looked up by key, containers joined; its contract is stated by PodRecordJoin, NormalizeOwnerRefs and JoinPodContainers |
| Compare.PodRecordJoin | internal/app/compare.go:134-144 | a pod gets a VPA iff its normalised key is indexed, and then the VPA's key is the pod's; each container of the pod is present, and it gets a recommendation iff the pod matched and the VPA has one under exactly that container name |
| Compare.NormalizeOwnerRefs | internal/app/compare.go:117-133 | the owner loop keeps the last owner reference with its kind lower-cased, and the two rewrites turn it into NormalizeOwner of that owner |
| Compare.JoinPodContainers | internal/app/compare.go:135-144 | the container loop builds the map JoinContainers describes |
| Compare.NormalizePod | internal/app/compare.go:110-144 | the owner loop, the kind rewrites, the lookup and the container loop build the record PodRecord describes |
| Compare.PodList | internal/app/compare.go:109-150 | the `podList` of Exec; its contract is stated by PodListSpec, PodListHas, PodListSource and PodListLength, and CollectPods computes it |
| Compare.PodListSpec | internal/app/compare.go:109-150 | the list holds exactly the records of the Running pods; it is no longer than the pod list, and as long when every pod runs |
| Compare.PodListHas | internal/app/compare.go:110-145 | every Running pod's record is in the list |
| Compare.PodListSource | internal/app/compare.go:110-145 | every record in the list is the record of some Running pod |
| Compare.PodListLength | internal/app/compare.go:110-145 | the list is no longer than the pod list, and as long when every pod runs |
| Compare.CollectPods | internal/app/compare.go:109-150 | the pod loop builds PodList |
| Compare.TruncDiv | internal/app/compare.go:182-183 | Go's truncating quotient: the remainder has the sign of the dividend and is smaller than the divisor |
| Compare.PercentDiff | internal/app/compare.go:182-183 | the diff `(req-rec)*100/rec` with Go's truncating division; its contract is PercentDiffSign, with PercentDiffExamples |
| Compare.PercentDiffSign | internal/app/compare.go:182-183 | for a positive recommendation, a positive diff means the request is above it and a negative one means below; the diff is 0 iff the gap is under 1 %; magnitude × rec ≤ 100 × the gap |
| Compare.PercentDiffExamples | internal/app/compare.go:182 | 150 against 100 is 50; 1 against 3 is -66, where Euclidean division would give -67 |
| Compare.RoundHalfAway | internal/app/compare.go:321 | math.Round of n/d: the nearest integer, with halves going away from zero |
| Compare.RoundUpBounds | internal/app/compare.go:321 | for n ≥ 0, (2n + d) div 2d is within half a unit of n/d, and below it by exactly a half only when n > 0 |
| Compare.MemTenths | internal/app/compare.go:320-322 | the memory cell is bytes×10/MiB rounded, within half a tenth of a MiB |
| Compare.MemTenthsExamples | internal/app/compare.go:320-322 | 2 MiB is 20 tenths; 52428 bytes round to 0 and 52429 to 1 |
| Compare.HaveVpa | internal/app/compare.go:178 | `haveVPA`: the pod matched a VPA and the VPA has a recommendation for this container; its meaning in the gate is stated by EmitDecisionTable |
| Compare.Faults | internal/app/compare.go:182-183 | the diff divisions panic: a matched container with a zero cpu or memory recommendation; VisitContainers and CompareArgs.Exec state that a fault is reported iff some container has it |
| Compare.PodFaults | internal/app/compare.go:171-183 | some container of the pod faults; ReportAll states that Exec faults iff some pod has it |
| Compare.BuildRow | internal/app/compare.go:172-195 | namespace, name and container; the VPA mode when the pod matched, else "---"; the VPA and diff cells are all present iff both pod and container matched; each diff is the truncating percentage; the score is their sum |
| Compare.SelectedTextsSpec | internal/app/compare.go:200-208 | each mode text is selected iff its mode was given, and nothing else is selected |
| Compare.Show | internal/app/compare.go:197-210 | the `show` flag: with filtering on, only a matched pod whose VPA mode is selected; its contract is stated through SelectedTextsSpec and EmitDecisionTable |
| Compare.Emits | internal/app/compare.go:196-213 | the gate `(AllPods or haveVPA or invert) and show != invert`; its contract is EmitDecisionTable |
| Compare.EmitDecisionTable | internal/app/compare.go:178-213 | the four cases: no modes and no invert emit the matched rows, or every row with all-pods; modes select matched rows by mode; invert alone emits the rows with no VPA, or a VPA whose mode is none of the three; invert with modes emits every row the modes do not select |
| Compare.BriefLines | internal/app/compare.go:214-230 | the brief output over the pods in order; its contract is BriefLinesSpec, BriefLinesPrefix, BriefFirstEmission and BriefRepeatSilent, and ReportAll prints it |
| Compare.BriefLinesSpec | internal/app/compare.go:214-230 | the brief output has no duplicates, and a line is in it iff some emitting pod has that brief name |
| Compare.BriefLinesPrefix | internal/app/compare.go:214-230 | lines once printed stay printed, in place: the brief output for the first k pods is a prefix of the output for all of them |
| Compare.BriefFirstEmission | internal/app/compare.go:224-228 | a pod that emits an identity not printed for the pods before it has that line printed directly after theirs, which is its first emission in visiting order |
| Compare.BriefRepeatSilent | internal/app/compare.go:224-228 | a pod whose identity was already printed for earlier pods leaves the brief output unchanged |
| Compare.BriefName | internal/app/compare.go:216-223 | the brief line `ns/vpa name`, else `ns/owner name`, else `ns/pod name`; its contract is BriefNameOfMatchedPod, and BriefLinesSpec states which names are printed |
| Compare.BriefNameOfMatchedPod | internal/app/compare.go:216-218 | a matched pod's brief name is its namespace and the VPA's target name, which is the pod's normalised owner |
| Compare.PodRows | internal/app/compare.go:171-233 | the `cw.Write` calls for one pod, its containers visited in the given order; its contract is PodRowsSpec, and VisitContainers writes it |
| Compare.PodRowsSpec | internal/app/compare.go:171-233 | a row is written for a pod iff some visited container is emitted and the row is built from it |
| Compare.PodRowsOf | internal/app/compare.go:171-233 | a pod whose containers are all visited writes exactly the rows of its emitted containers |
| Compare.TableRows | internal/app/compare.go:169-235 | the `cw.Write` calls of the whole table, pod by pod in listing order (the older engine of compare.go:117-164 writes the same shape under its own decision); its contract is TableRowsSpec, and ReportAll and LegacyExec write it |
| Compare.TableRowsSpec | internal/app/compare.go:169-235 | a row is in the table iff it is the row of some pod's emitted container, for every visiting order of the containers |
| Compare.RenderCalls | internal/app/compare.go:239-252 | Head(head) iff head ≥ 0 and then Tail(tail) iff tail ≥ 0, each at most once and in that order, and always one final Sort by the given columns, else by (1, 2, 4) |
| Compare.VisitStep | internal/app/compare.go:171-233 | visiting one more non-faulting container keeps the visited containers valid, extends a pod's rows by that container's emitted row, and records whether it emitted |
| Compare.OrdersStep | internal/app/compare.go:169-171 | each pod's visiting order enumerates exactly its containers |
| Compare.PlanRender | internal/app/compare.go:239-252 | the Head/Tail/Sort calls RenderCalls describes |
| Compare.PrintOnce | internal/app/compare.go:222-228 | the `printed` check: the brief line is added only if it was not printed before, and the printed set stays the set of lines |
| Compare.VisitContainers | internal/app/compare.go:171-233 | over the containers in the given order: a fault iff one of them has a zero matched recommendation; otherwise every container is valid, brief mode adds the brief name once if one of them emits, and table mode appends their emitted rows |
| Compare.VisitOne | internal/app/compare.go:172-232 | one pass of the inner loop over a container that does not fault: the visited prefix grows by that container, the brief line is printed once or its row appended when it is emitted, and the printed set stays the set of lines |
| Compare.VisitedAll | internal/app/compare.go:171-233 | once every container has been visited without a fault, the pod has no faulting container, and it emits iff one of the visited containers did |
| Compare.ReportPod | internal/app/compare.go:171-236 | for one pod: its containers in some order, each once; a fault iff a matched container has a zero recommendation; otherwise brief mode adds the brief name once if some row emits, and table mode appends the emitted rows in that order |
| Compare.ReportAll | internal/app/compare.go:169-235 | the pods in listing order: a fault iff some pod faults; otherwise brief mode prints BriefLines, and table mode writes TableRows in the visiting orders |
| Compare.CompareArgs.Exec | internal/app/compare.go:60-253 | a fault iff some running pod has a zero recommendation; otherwise brief mode prints BriefLines of the emitted rows, while table mode writes TableRows in the visiting order and then the RenderCalls requests |
| Suggest.SplitPoint | internal/app/suggest.go:115-123 | the split index is the first position that is neither a digit nor '.', or the length when there is none |
| Suggest.Value | internal/app/suggest.go:113-139 | getValue with a nil error: the prefix up to SplitPoint parsed and scaled by the suffix; its contract is stated by SplitSpec, ParseDecimalFraction, ValueOfDigits and ValueNonNegative, and GetValue computes it |
| Suggest.SplitSpec | internal/app/suggest.go:125-129 | the prefix is all digits and dots, the suffix does not start with either, and prefix + suffix is the input |
| Suggest.SplitPointUnique | internal/app/suggest.go:115-123 | only one index has that property |
| Suggest.ParseDecimal | internal/app/suggest.go:126 | ParseFloat of digits and dots, as a real: non-negative; without a dot it succeeds iff the prefix is non-empty; on digits it is their value |
| Suggest.ParseDecimalFraction | internal/app/suggest.go:126 | with a dot, ParseFloat succeeds iff there is no second dot and at least one digit, and the value is the whole part plus the fraction digits over ten to their count |
| Suggest.ParseOneAndAHalf | internal/app/suggest.go:126 | "1.5" is 1.5 |
| Suggest.ParseLoneDot | internal/app/suggest.go:126 | "." fails |
| Suggest.ParseTwoDots | internal/app/suggest.go:126 | "1.2.3" fails |
| Suggest.ScaleSuffix | internal/app/suggest.go:131-136 | "m" divides by 1000, "Mi" multiplies by 1048576, and any other suffix leaves the value as it is |
| Suggest.ValueOfDigits | internal/app/suggest.go:113-139 | digits followed by a non-numeric suffix read as their value, scaled by the suffix |
| Suggest.ValueMilliExample | internal/app/suggest.go:131-133 | "250m" is 0.25 |
| Suggest.ValueMebiExample | internal/app/suggest.go:134-135 | "128Mi" is 128 × 1048576 |
| Suggest.ValueGibiExample | internal/app/suggest.go:131-136 | "2Gi" is read as 2, unscaled |
| Suggest.ValueEmptyPrefixExample | internal/app/suggest.go:126 | an empty prefix does not parse |
| Suggest.GetValue | internal/app/suggest.go:113-139 | the scan loop, split and suffix switch compute Value |
| Suggest.Unit | internal/app/suggest.go:97-108 | "m" iff the value is under 10; "Mi" iff it is above 1048576; no suffix otherwise |
| Suggest.UnitRoundTrip | internal/app/suggest.go:97-136 | scaling the chosen magnitude back by its suffix gives the value again |
| Suggest.RoundHalfEven | internal/app/suggest.go:109 | math.RoundToEven: within half of the input, ties to the even integer, non-negative for a non-negative input |
| Suggest.NatToString | internal/app/suggest.go:109 | %d of a natural number is a non-empty digit string whose value is the number, with no leading zero |
| Suggest.ValueOfFormatted | internal/app/suggest.go:109-139 | getValue reads a written number and suffix back as that number, scaled by the suffix |
| Suggest.SuggestionReadsBack | internal/app/suggest.go:91-111 | a parsable quantity always gives a suggestion, and reading it back gives the scaled value to within half of its unit |
| Suggest.Format | internal/app/suggest.go:97-110 | the unit choice and `Sprintf("%d%s", …)` of calcValue; its contract is FormatReadsBack, with Unit and UnitRoundTrip for the unit |
| Suggest.FormatReadsBack | internal/app/suggest.go:97-139 | a non-negative value written by calcValue reads back through getValue to within half of its unit |
| Suggest.ValueNonNegative | internal/app/suggest.go:113-139 | parsed values are never negative |
| Suggest.CalcValue | internal/app/suggest.go:91-111 | calcValue: nil exactly when getValue fails (CalcValueNilIffUnparsed); otherwise text that reads back within half a unit of the scaled value (SuggestionReadsBack) |
| Suggest.CalcValueNilIffUnparsed | internal/app/suggest.go:91-95 | calcValue returns nil exactly when getValue fails |
| Suggest.CalcValueMilliExample | internal/app/suggest.go:91-111 | "250m" at scale 1 is written "250m" |
| Suggest.CalcValueMebiExample | internal/app/suggest.go:91-111 | "128Mi" at scale 1.5 is written "192Mi" |
| Suggest.SuggestFor | internal/app/suggest.go:60-73 | requests come from Target at scale 1 and limits from UpperBound at scale 1.5; a field is set only when its key is present, and, for each of the four fields, always when its quantity parses |
| Suggest.SuggestContainer | internal/app/suggest.go:60-73 | one container's block, filled field by field as SuggestFor describes |
| Suggest.SuggestAll | internal/app/suggest.go:58-82 | one resources block per container recommendation, in order, each SuggestFor of that recommendation (SuggestsEach) |
| Suggest.SuggestVerify | internal/app/suggest.go:31-36 | an error iff the name is empty |
| Suggest.Exec | internal/app/suggest.go:38-85 | the VPA is fetched by getParts of the name; a lookup error or a missing recommendation stops the command; otherwise there is one resources block per container recommendation, in order |
| LegacyArgs.ParseLegacyMode | args.go:76-85 | off, initial and auto, ignoring case, each to its mode; everything else is unknown |
| LegacyArgs.InitAliasOnlyInCurrentParser | args.go:76-85 | "init" is unknown here but accepted by the current parser |
| LegacyArgs.FirstUnknown | args.go:75-88 | the index of the first unknown mode: all before it are known |
| LegacyArgs.Parsed | args.go:76-85 | each known mode text parsed to its mode |
| LegacyArgs.ApplyLegacyMode | args.go:76-85 | one mode of the loop: an unknown mode yields nothing, and a known one applies its flag to the filter |
| LegacyArgs.LegacyCompareArgs.Verify | args.go:74-91 | nil iff every mode is known; otherwise the error quotes the first unknown one; the filter is the known modes before it applied in turn, so earlier flags stay set |
| LegacyArgs.LegacyCompareArgs.constructor | args.go:12-19 | the flags, with the filter off |
| LegacyArgs.ParsedStep | args.go:75-89 | one more known mode applies after the earlier ones |
| LegacyArgs.FirstUnknownAt | args.go:75-88 | the first unknown index is the only one with all earlier modes known |
| LegacyArgs.LegacyVerifyFromNone | args.go:74-91 | with known modes only, filtering is on iff a mode was given, and each flag is set iff its mode was given in some letter case |
| LegacyArgs.EarlierFlagsStaySet | args.go:86-88 | ["off", "bogus"] errors at index 1 with showOff already set |
| LegacyArgs.ModeArgsVerifyAsWritten | args.go:93-103 | as written: the same verdict as ModeArgsVerify, but an unknown mode's message quotes the whole argument struct |
| LegacyArgs.ModeArgsVerifyAsWrittenQuotesStruct | args.go:97 | mode "bogus" with names [web] reads "&{bogus [web]}", which is not the corrected message |
| LegacyArgs.ModeArgsVerify | args.go:93-103 | nil iff the mode is known and some name is given; the mode is checked first (corrected message: it quotes the mode); then "no names specified" |
| LegacyArgs.ModeCheckedBeforeNames | args.go:93-103 | an unknown mode without names reports the mode; "Auto" without names reports the names; "Auto" with a name passes |
| LegacyEncode.FormatString | encode.go:36-46 | yaml, json and toml each by name, every other value "yaml" |
| LegacyEncode.UnmarshalFormat | encode.go:21-34 | yaml/json/toml ignoring case, each to its format; unknown text errors with the lower-cased text and leaves the receiver unchanged |
| LegacyEncode.FormatRoundTrip | encode.go:15-46 | UnmarshalText(String(f)) == f for the three formats |
| LegacyEncode.AgreesWithCurrent | encode.go:21-46 | the older and the current format enumerations behave alike on every value and every text |
| LegacyCompare.LegacyShow | compare.go:145-158 | the older `show`: with filtering on, a matched pod needs a selected mode and a pod without a VPA passes; its contract is LegacyDecisionTable |
| LegacyCompare.LegacyEmits | compare.go:144-161 | the older gate `(AllPods or haveVPA) and show`, with no invert; its contract is LegacyDecisionTable, and LegacyVersusCurrent compares it with Compare.Emits |
| LegacyCompare.LegacyDecisionTable | compare.go:126-161 | with no modes, the matched rows are written (every row with all-pods); with modes, a matched pod needs a selected mode, and a pod without a VPA is written whenever all-pods admits it |
| LegacyCompare.LegacyVersusCurrent | compare.go:144-161 | with invert off, the older engine writes a row iff the current one does, or the row belongs to a pod without a VPA under all-pods and a mode filter, which only the older engine writes |
| LegacyCompare.LegacyExec | compare.go:18-178 | the shared index and pod loops; a fault iff a running pod has a zero recommendation; otherwise the rows written are TableRows under the legacy decision, followed by the Head/Tail/Sort requests |
| Create.CreateVerify | create.go:20-25 | an error iff there are no names |
| Create.KindTarget | create.go:213-230 | the kind table: ReplicaSet and Deployment go to Deployment with apps/v1; Job and CronJobBeta go to CronJob with batch/v1beta1; StatefulSet and DaemonSet keep their kind with apps/v1; CronJob uses batch/v1; no other kind is accepted, and every accepted kind has a non-empty version (the check at 232-235 never fires) |
| Create.Document | create.go:210-276 | no document for an unsupported kind; otherwise an autoscaling.k8s.io/v1 VerticalPodAutoscaler named and placed like the target, pointing at it with the mapped kind and version, with the mode's name and the policies "*" then one per container, in order, 1 + n in all |
| Create.CreateVpa | create.go:210-276 | the kind switch and the policy loop build the Document |
| Create.PodTarget | create.go:182-199 | the last owner's kind and name, or "Pod" and the pod's own name; ReplicaSet is asked for as Deployment and Job as CronJob; the pod's namespace and containers |
| Create.PodTargetKeepsName | create.go:186-199 | the owner name is not cut, unlike in the comparison engine |
| Create.CreateForPod | create.go:171-208 | the owner loop, the switch and the container loop compute PodTarget |
| Create.TryLookup | create.go:91-208 | one createForX GET: the target found for that kind, or none; FirstFound and FirstFoundAt state which lookup decides |
| Create.FirstFound | create.go:42-51 | the first lookup that succeeds: every earlier one failed; none at all iff every lookup fails |
| Create.FirstFoundAt | create.go:42-51 | a successful lookup after only failures is the one found |
| Create.OwnerlessPodStopsChain | create.go:42-51 | a pod without owners is found first, and its kind "Pod" is unsupported, so no document results and no workload lookup follows |
| Create.DeploymentLookupOrder | create.go:42-46 | with no pod, DaemonSet or StatefulSet of that name, a Deployment is found and targeted with apps/v1 |
| Create.Locate | create.go:42-51 | the lookups Pod, DaemonSet, StatefulSet, Deployment, CronJob, CronJobBeta are tried in that order and the first success is kept |
| Create.OutcomeFor | create.go:42-51 | one name's outcome: the first lookup found, then createVPA's document or an unsupported kind, or "unable to locate"; its contract is stated by FirstFoundAt, OwnerlessPodStopsChain and KindTarget, and CreateFor computes it |
| Create.ArgOutcome | create.go:39-52 | one iteration of Exec's loop: getParts of the argument, then OutcomeFor; CreateFor computes it, and CreateAll maps it over the names |
| Create.CreateFor | create.go:39-51 | one name: getParts, the lookup chain and createVPA give OutcomeFor of that namespace and name |
| Create.CreateArgs.constructor | create.go:14-18 | the names and the mode |
| Create.CreateAll | create.go:27-53 | the loop over the names: one outcome per name, in order, each the chain's outcome for that name |
| Create.CreateArgs.Exec | create.go:27-53 | one outcome per name, in order, each that of getParts of the name: a document, an unsupported kind, or "unable to locate" for that namespace and name |

## Left out

- Cluster access: listing pods and VPAs, the GETs of single objects, and the REST client. The listings are inputs; the GETs are function parameters. What happens on a listing error is not modelled (the Go program panics).
- getCPU and getMemory wrap `resource.Quantity`; their int64 results are inputs to the model.
- Compare.TruncDiv: int64 overflow of `(req-rec)*100` is not modelled; integers are unbounded.
- Compare.MemTenths: the final division by 10 in floating point is not modelled; the cell is the integer number of tenths of a MiB.
- Compare.MemTenths: byte counts are unbounded integers, so the model is exact only up to 2^53/10 bytes. Above that, `float64(v*10)` rounds to 53 bits, and near 2^54 a count just below a half can round onto it, so that `math.Round` rounds up where the model rounds down. Above 922337203685477580 bytes, `v*10` also wraps in int64.
- Suggest.ParseDecimal: float64 precision and range are not modelled (ParseFloat rounding and overflow). Magnitudes are exact reals. Only the prefixes getValue can produce matter, since they are digits and dots only.
- Suggest.GetValue: getValue returns ParseFloat's partial value together with its error. The model keeps only whether the parse succeeded, since calcValue discards the value on error.
- Suggest.RoundHalfEven: `int(...)` of a float64 beyond the int64 range is not modelled.
- Text.ToLower: ASCII letters only, whereas strings.ToLower is Unicode-aware. Indices count characters, not bytes.
- The `columns` rendering library: headers, sum footers, and what Head, Tail, Sort and Flush do. The model keeps the sequence of calls the program makes (`RenderCalls`) and the rows it writes.
- Row order before sorting: each pod's containers are visited in an unspecified order, and the model states its results relative to that order.
- colorDiff (styling only), all Debug output, and the `printed`/`fmt.Println` I/O. The printed lines are the model's `lines` result.
- Output encoding: the yaml/json/toml encoders of `Encoder()`, their errors, and printing the encoded bytes (create.go:278-285, internal/app/suggest.go:52-56, 75-81). The document and the resources block are modelled as values.
- Partial output before a panic is not modelled: a fault ends the run with no further output.
- The version strings, ParseArgs/parseArgs (command-line parsing and exit), main.go, vpa_v1/register.go, and k8.go (the client) are not part of this model.
- mode.go is not part of this model. It is a patch-per-name loop of cluster I/O, and it calls `PatchString`, which k8.go does not define.
- create.go uses `ModeEnum`, `args.getParts` and `CmdArgs`, which the older package does not define. The model uses the `Args` module (internal/app/args.go) for the mode's name and for splitting `ns/name`.
- Create.FirstFound: each lookup's success is an abstract result of the GET functions, which the model takes as parameters.

## Findings

| source | as written | input that shows it | evidently intended | confidence | as-written member | corrected member |
|---|---|---|---|---|---|---|
| internal/app/args.go:61 | the error message formats the receiver, which prints its current mode, not the rejected text | `UnmarshalText("bogus")` on a zero receiver reads "unknown mode: 'Off', …" | quote the text given, as the older `CompareArgs.Verify` quotes the mode at args.go:87 | not executed | Args.UnmarshalModeAsWritten, Args.UnmarshalModeAsWrittenHidesInput | Args.UnmarshalMode, Args.UnmarshalModeNamesInput |
| args.go:97 | the error message formats the whole `*ModeArgs` struct, which prints as "&{mode [names]}" | mode "bogus" with names [web] reads "unknown mode: '&{bogus [web]}', …" | quote the mode, as `CompareArgs.Verify` does at args.go:87 | not executed | LegacyArgs.ModeArgsVerifyAsWritten, LegacyArgs.ModeArgsVerifyAsWrittenQuotesStruct | LegacyArgs.ModeArgsVerify, LegacyArgs.ModeCheckedBeforeNames |
