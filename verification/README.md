# Decision kernels of k3d-gpu, modelled and proved in Dafny

Five parts of the repository decide things from numbers and strings alone. This project models them
and proves what they are for.

- **Fitting a model to a host** (`console/fit.py`). How many sequences of which context fit, on which
  cards or in host RAM; how llama.cpp's layers are split over cards; and the guard that walks a
  running server down and up a ladder of smaller settings. Modules `LlamaSplit`, `KvSize`,
  `LlamaLayers`, `LlamaSearch`, `Placement`, `HostPlacement`, `Rungs` and `Guard`.
- **Reading a GGUF header** (`console/fit.py`). A buffered reader over a source that answers in chunks
  of any size, and the binary header parsed through it. `Gguf` is the parser over whole files,
  `GgufLayout` the layout of a header as an encoder and both directions of the round trip, `GgufSizes`
  the tensor sizes, `GgufRead` the reader (a class) and the parse on top of it.
- **Orders of versions** (`hack/pinver.py`). dpkg's comparison loop (`DpkgOrder`, against section
  5.6.12 of the Debian Policy Manual), prerelease identifiers (`Identifiers`), the tuple keys of every
  scheme (`Keys`, `Versions`) and the precedence they stand for (`SemverPrecedence`: section 11 of SemVer
  2.0.0; `Precedence`: the "Summary of permitted suffixes and relative ordering" of PEP 440, and apt),
  types of updates and breaking changes (`VersionRules`), ranges and the latest version
  (`VersionSelect`).
- **Tuning** (`console/tune.py`). The exact Mann-Whitney test (`MannWhitney`), the acceptance gates and
  the neighbours of a config (`TuneGates`), what a verdict means (`TuneVerdicts`), the interleaved
  confirmation under a deadline (`TuneConfirm`), one run of the incremental search (`TuneStep`), its runs
  over a stored profile (`TuneHistory`) and which of them get anything done (`TuneProgress`).
- **Shared prompt prefixes** (`console/shared_prefix.py`). The greedy grouping over groups that are
  mutated in place (`SharedPrefix`) and the whole blocks that agents can reuse (`PrefixReuse`).

`dafny verify dfyconfig.toml` checks everything. Loops and classes follow the source's own; each is
proved equal to a small specification function, or against what it promises outright, and the main
results are about those specifications: over every input, every run of samples, or every history of
tuning runs.

## Main results

- `LlamaSplit.Split` with `LlamaSplit.CardsAreLoads`: the greedy splitter is exact about feasibility and
  within 1 MiB of the optimum, and llama.cpp's own rule puts every layer where the splitter counted it.
- `HostPlacement.NeverOverCommits` with the `Place*` methods and `Rungs.LimitsFor`: no placement passes
  a card's budget or the host's, after the slack, the GiB rounding and every step down the ladder.
- `Guard`: over whole runs, when the guard stops, how often it moves, and how soon it reacts, exactly.
- `GgufLayout.ReadIffLaidOut` with `GgufRead.GgufHeader`: the header read is the one laid out, however
  the source chunks its answers.
- `DpkgOrder.Verrevcmp`, `DpkgOrder.CompareTrans` and `Precedence`: the orders of apt and pep440 are
  orders, and the ones their standards define; `SemverPrecedence.AgreesIff`: semver's is the standard's
  exactly without hyphens. `VersionRules.SplitLawIff` and `VersionRules.BreakingIff`: exactly when
  splitting a bump hides nothing.
- `MannWhitney.PIsShare`, `MannWhitney.TiesErrTowardRejecting` and `MannWhitney.ResolvableIff`: the
  p-value is the share of arrangements, and the cap on finalists is exact.
- `TuneHistory.DecidedAtMostOnce`, `TuneHistory.WaitingIsKept` and `TuneHistory.StoredMeansWaiting`, over
  any number of runs, `TuneConfirm.CutShortIff`: exactly when a confirmation cut short decides nothing, and
  `TuneProgress.ProgressIff`: exactly when a run gets something done, at most twice per neighbour
  (`TuneProgress.ProgressIsBounded`).
- `SharedPrefix.GroupingIsSound` and `SharedPrefix.ChoiceIsLongest`.

## What is false of the code

- SemVer 2.0.0 divides a prerelease at its dots; the code divides it at hyphens too. So 1.0.0-rc-10 is
  above 1.0.0-rc-9 here and below it there (`SemverPrecedence.HyphensMisorder`). A version is ordered as the
  standard does against all versions without hyphens exactly when its own prerelease has none
  (`SemverPrecedence.AgreesIff`), and two of them without hyphens always are
  (`SemverPrecedence.SemverKeyIsPrecedence`). For the same reason 1.0.0-a--b is no version here
  (`Identifiers.DoubleHyphenIsRejected`).
- The documentation of `incremental` says that every run makes progress. One that has nothing to confirm
  first, and whose incumbent takes more than half of the working time to try, makes none
  (`TuneProgress.SlowRunStalls`, `TuneProgress.RoomIff`) and, made again, never will
  (`TuneProgress.SlowRunsNeverEnd`). `TuneProgress.ProgressIff` says exactly which runs do.
- Splitting a bump can hide its type, and a breaking change, across pep440 epochs
  (`VersionRules.EpochsHideMajors`), and its type for apt even in one epoch
  (`VersionRules.LettersHideMinors`), because release numbers there do not follow the order.
  `VersionRules.SplitLawIff` and `VersionRules.BreakingIff` give the exact conditions, for every scheme.
- A confirmation cut short is documented to decide nothing. A trial stopped at the deadline counts as
  failed, and only a later look at the clock returns undecided: when it is the last trial of all, which
  is the challenger's if the number of rounds is odd, as the default 5 is, the challenger is decided
  against and no longer waits (`TuneStep.FiveRoundsDropTheWaiting`). `TuneConfirm.CutShortIff` says exactly
  when; a trial of the incumbent cut short raises.
- Moving experts of a model whose config does not say how many of them a token reads raises a TypeError
  where the unknown decode bound is printed (`HostPlacement.UnreadExpertsRaise`);
  `HostPlacement.PlaceLlamaMulti` says exactly when.
- vLLM's per-rank KV share, the floor of heads over ranks, counts less than a whole sequence over all
  ranks (`Placement.RanksLoseHeads`) exactly unless the heads divide over the ranks or are fewer than them
  (`Placement.RanksCountTheWholeKv`).
- The KV that `llama_layer_bytes` spreads is less than seqs times one sequence's
  (`LlamaLayers.ExtraKindsLoseKv`) exactly when there is a sequence and a layer kind past the trunk holds
  bytes (`LlamaLayers.KvConserved`).
- The comment on `llama_split` says its largest load is as small as it can be; the search stops within
  1 MiB of that (`LlamaSplit.SplitMissesTheLightest`). `LlamaSplit.Split` states the bound, and that the
  split is the lightest where different sums of neighbouring layers are more than 1 MiB apart;
  `LlamaSplit.LightestIff` says exactly for which layers, cards and room it is.

## Model

| member | source | states |
|---|---|---|
| `DpkgOrder.Verrevcmp` | hack/pinver.py:250-277 | the two-pointer loop returns the sign of comparing the two strings' token lists (non-digit run by weight, then number by value, a missing tail as an empty run and 0); every index is in bounds and the loops end |
| `DpkgOrder.CompareRuns` | hack/pinver.py:255-261 | the first inner loop compares the two non-digit runs and, when they are equal, stops exactly behind both |
| `DpkgOrder.CompareNumbers` | hack/pinver.py:262-276 | zero skipping, the common walk and the first difference give the sign of the difference of the two numbers |
| `DpkgOrder.WalkDigits` | hack/pinver.py:266-276 | without leading zeros, more digits left over is the larger number and otherwise the first difference decides |
| `DpkgOrder.LongerIsLarger` | hack/pinver.py:271-274 | why digits left over decide: without leading zeros, the longer digit run spells the larger number |
| `DpkgOrder.CompareFlip` | hack/pinver.py:250-277 | swapping the sides flips the sign, and every string equals itself |
| `DpkgOrder.CompareTrans` | hack/pinver.py:250-277 | transitive, and a chain is equal at its ends only when it is equal at every step |
| `DpkgOrder.EqualIffCanonical` | hack/pinver.py:250-277 | two strings compare equal exactly when their canonical token lists (trailing empty tokens dropped) are the same |
| `DpkgOrder.TildeBeforeEnd` | hack/pinver.py:242-247 | whatever follows a tilde sorts before the string it extends, even before the end |
| `LlamaSplit.Fill` | console/fit.py:1180-1190 | the greedy fill finds a split under a cap exactly when one exists, and the one it returns is under the cap |
| `LlamaSplit.StaysAhead` | console/fit.py:1180-1190 | the greedy invariant: a split under the cap that starts card c no later than the greedy one cannot start card c+1 later than it |
| `LlamaSplit.Split` | console/fit.py:1174-1198 | None exactly when no contiguous split over k cards keeps every card within room; otherwise within room, within 1 MiB of the smallest possible largest load, the greedy fill at the cap where the halving ends, and the lightest split wherever any two different sums of neighbouring layers are more than 1 MiB apart |
| `LlamaSplit.MaxIsLowerBound` | console/fit.py:1194 | why the search may start at the heaviest layer: no split has a smaller largest load |
| `LlamaSplit.LightestIff` | console/fit.py:1174-1198 | the split returned for any layers, cards and room is the lightest if and only if, under every sum of neighbouring layers below the halving's final cap that some split keeps, fill returns the same |
| `LlamaSplit.GreedyFits` | console/fit.py:1180-1190 | under every cap that some split keeps, the greedy counts are a split that keeps it |
| `LlamaSplit.SameFill` | console/fit.py:1180-1190 | a fill whose loads stay under a smaller cap is the fill under that cap too |
| `LlamaSplit.SplitMissesTheLightest` | console/fit.py:1192-1198 | three one-byte layers on three cards with room for three bytes: the split [2, 0, 1] is returned, with twice the load of [1, 1, 1] |
| `LlamaSplit.SplittableLighter` | console/fit.py:1195-1197 | lighter layers keep a split feasible, the fact both searches rest on |
| `LlamaSplit.LayerDevices` | console/fit.py:1129-1138 | the cumulative sums and bisect_right give every layer the first device whose share of the layers ends past it |
| `LlamaSplit.UpperBound` | console/fit.py:1138 | bisect_right of il / layers in the cumulative fractions, cross-multiplied: all devices before it end at or before il, it ends past il |
| `LlamaSplit.DeviceExists` | console/fit.py:1138 | whatever the counts, as long as they are not all 0, no layer falls past the last device |
| `LlamaSplit.DevicesMatchCounts` | console/fit.py:1132-1133 | for counts that add up to the layers, layer il is on card c if and only if il lies in segment c, cards of count 0 included |
| `LlamaSplit.OutputLayerOnLast` | console/fit.py:1132-1133 | the output layer is on the last card |
| `LlamaSplit.Cards` | console/fit.py:1201-1206 | each card's entry is the sum of the layers whose device it is |
| `LlamaSplit.CardsAreLoads` | console/fit.py:1201-1206 | the device rule and the greedy segments agree: what llama_cards adds up on a card is that segment's load |
| `KvSize.TimesIsProduct` | console/fit.py:1123-1125 | the n-fold sums used for bytes per layer and slot are products |
| `KvSize.SwaTokensMono` | console/fit.py:1105-1115 | a longer context never has fewer sliding-window tokens, in each of the three engines' modes |
| `KvSize.PerSeqMono` | console/fit.py:1123-1125 | a longer context never takes fewer KV bytes, and never a negative number |
| `KvSize.CkptSeqMono` | console/fit.py:1342-1346 | a longer context never takes fewer checkpoint bytes |
| `LlamaLayers.WeightsConserved` | console/fit.py:1149-1171 | for every n_cpu_moe and MTP block count, the per-layer weights, the experts in DRAM and the lookup tables add up to serve_bytes plus the output copy of tied embeddings |
| `LlamaLayers.WeightsNonNegative` | console/fit.py:965-972 | for every profile of llama_profile the output layer holds lm_head or its copy, and no entry is negative |
| `LlamaLayers.LayersHoldOneSequence` | console/fit.py:1162-1165 | the layers of a kv_profile hold one sequence's KV between them, a kind without layers holding nothing |
| `LlamaLayers.KvSum` | console/fit.py:1168 | in general the KV entries below layer j add up to those of the layer kinds that fall on the trunk |
| `LlamaLayers.KvConserved` | console/fit.py:1162-1168 | the KV entries add up to seqs times one sequence's KV if and only if seqs is 0 or no layer kind past the trunk holds any bytes |
| `LlamaLayers.ExtraKindsLoseKv` | console/fit.py:853-900 | a config with two layer types and one hidden layer spreads half of a sequence's KV |
| `LlamaLayers.LayerBytesNonNegative` | console/fit.py:1149-1171 | weights and KV together are never negative, as llama_split needs |
| `LlamaLayers.LayerBytesMono` | console/fit.py:1149-1171 | fewer sequences and more experts in DRAM never make a layer heavier |
| `LlamaSearch.SplitsAntitone` | console/fit.py:1217-1230 | split feasibility is antitone in the sequence count and monotone in n_cpu_moe, so the bisection is right |
| `LlamaSearch.SplitFor` | console/fit.py:1217-1219 | the closure split(n): Some exactly when the sequences fit layer by layer, and then a best split |
| `LlamaSearch.CountSeqs` | console/fit.py:1223-1230 | the bisection ends at a count that splits while one more does not, or at MAX_SEQS |
| `LlamaSearch.Search` | console/fit.py:1209-1232 | the first ladder context that admits the needed sequences, the first n_cpu_moe there, the count asked for or the largest, and a best split; None exactly when no rung admits |
| `Placement.PodLimitInside` | console/fit.py:1605 | host bytes within the room that _placements leaves have a pod limit, after 10% and rounding up to GiB, inside the host's free bytes |
| `Placement.RoundUpStaysInside` | console/fit.py:1576-1584 | what fits under a whole number of GiB still does after rounding up to one |
| `Placement.PoolInsideLeft` | console/fit.py:1571-1584 | the KV pool, whole GiB or not, holds the sequences and stays inside what was left for it |
| `Placement.SlotsAddUp` | console/fit.py:1368 | n slots are n sequences, their checkpoints where counted, and the extra bytes: what size_kv divides by is what the placement books |
| `Placement.SizeKv` | console/fit.py:1359-1372 | the first context that admits the needed sequences and the count that fits there, the budget holding them and one more not fitting; None exactly when no context admits |
| `Placement.SizedOnce` | console/fit.py:1359-1372 | size_kv's answer is unique: one first admitting context and one count |
| `Placement.PlaceOnGpu` | console/fit.py:1632-1682 | a placement on one GPU, or on vLLM's ranks, at the ladder's first admitting context with the count that fits there, keeps every card within its budget and the host within its room and books the KV it sized; refused exactly when nothing is left, no context admits or the host side is too large |
| `Placement.RanksCountTheWholeKv` | console/fit.py:1642 | vLLM's ranks together count a whole sequence's KV if and only if the heads divide over the ranks or there are fewer heads than ranks |
| `Placement.RanksLoseHeads` | console/fit.py:1642 | six KV heads on four ranks count four sixths of a sequence's KV |
| `HostPlacement.PlaceOnCpu` | console/fit.py:1713-1745 | a CPU placement, at the ladder's first admitting context, stays inside the host room with no check after the count; refused exactly when nothing is left, DRAM is too slow or no context admits |
| `HostPlacement.PlaceLlamaCpu` | console/fit.py:1760-1822 | at the ladder's first admitting context llama.cpp's mapped weights, buffers, KV, checkpoints and logits stay inside the host room; refused exactly when the smallest context's fixed bytes do not fit, DRAM is too slow or no context admits |
| `HostPlacement.PlaceOnCards` | console/fit.py:1842-1845 | every entry of card_bytes is the load of its greedy segment plus the overhead, and at most the smallest card budget |
| `HostPlacement.PlaceLlamaMulti` | console/fit.py:1825-1876 | the plan of the search, each card within the smallest budget and the host within its room; when it refuses, and when it raises: exactly when the plan moves experts of which a token reads none |
| `HostPlacement.UnreadExpertsRaise` | console/fit.py:1859-1862 | a model whose config does not say how many experts a token reads has a plan, so the attempt raises |
| `HostPlacement.NeverOverCommits` | console/fit.py:1047-1095 | a placement in the room of _placements never over-commits: pod limit plus host reserve within MemAvailable and the cgroup, and use plus reserve plus placement within each card's total |
| `Rungs.GuardRungs` | console/fit.py:1913-1922 | the ladder starts at the fit, each step halves sequences to 1 and then the context, and it stops only where halving would pass the floor |
| `Rungs.LadderDescends` | console/fit.py:1913-1922 | no rung has more sequences or a longer context than one above it |
| `Rungs.RungLimits` | console/fit.py:1508-1518 | each rung's limit, starting at the placement's own pod limit and never increasing down the ladder |
| `Rungs.FirstRung` | console/fit.py:1512-1516 | trading a placement's KV and checkpoints for the first rung's gives its own host bytes back |
| `Rungs.RungHostMono` | console/fit.py:1512-1516 | fewer sequences and a shorter context never take more host bytes |
| `Rungs.FixedMono` | console/fit.py:1767-1771 | llama.cpp's fixed host bytes never grow as the context shrinks |
| `Rungs.EveryRungHolds` | console/fit.py:1508-1518 | for every rung of the ladder below a llama.cpp placement on the CPU, what the server takes there fits that rung's limit |
| `Rungs.EveryCpuRungHolds` | console/fit.py:1508-1518 | the same for vLLM's and OVMS's CPU placements |
| `Rungs.LimitsFor` | console/fit.py:1508-1518 | ladder and limits of a llama.cpp placement on the CPU: the first limit is the placement's own, limits never increase, and each holds its rung |
| `Guard.InvAlways` | console/fit.py:1940-1990 | every reachable state has 0 <= rung <= last, and rung 0 with no cooldown for a VRAM-KV server |
| `Guard.HotIsStreak` | console/fit.py:1955-1966 | hot is exactly the length of the current streak of emergencies, through cooldowns and moves |
| `Guard.StopIff` | console/fit.py:1954-1976 | when a run stops, both ways: a host-KV server only at the lowest rung, a VRAM-KV server after emergency_samples emergencies in a row, never one that is not sheddable |
| `Guard.VramStaysAtTop` | console/fit.py:1967-1982 | a VRAM-KV server never leaves rung 0 |
| `Guard.CoolAfterMove` | console/fit.py:1954-1962 | after a move the cooldown loses at most one per sample |
| `Guard.MovesAreSpaced` | console/fit.py:1954-1988 | over any run, at least cooldown_samples samples that do not move lie between two moves |
| `Guard.MovesBound` | console/fit.py:1954-1988 | a window of L samples holds at most ceil(L / (cooldown_samples + 1)) moves |
| `Guard.CalmCounts` | console/fit.py:1985-1989 | calm counts the last samples, all of them calm, outside a cooldown and held |
| `Guard.UpAfterCalm` | console/fit.py:1985-1988 | every step up ends calm_samples calm samples in a row outside a cooldown |
| `Guard.EmergencyStops` | console/fit.py:1954-1976 | from any reachable state, emergencies alone stop a sheddable server at an exact sample, at most the larger of emergency_samples and cooldown_samples + 2 |
| `Guard.CalmRestores` | console/fit.py:1954-1989 | from any reachable state, calm samples alone reach rung 0 at an exact sample, within rung * (cooldown_samples + calm_samples), and stay there |
| `Guard.NoEmergencyNoStop` | console/fit.py:1926-1990 | a run without an emergency is never stopped |
| `GgufRead.Buf.Take` | console/fit.py:509-518 | however the source chunks its answers, a take returns the next n bytes, fails only past the end of the file and then moves nothing; the ranges fetched tile the prefix, no byte twice |
| `GgufRead.ReadValueAt` | console/fit.py:553-565 | value(t) over the reader returns the parse of the whole file at that position |
| `GgufRead.ReadKv` | console/fit.py:567-573 | the key loop returns the parse of n pairs, keeping the wanted keys that have a value |
| `GgufRead.ReadInfoAt` | console/fit.py:577-584 | one take for all dimensions reads the same numbers as one take for each |
| `GgufRead.ReadWholeHeader` | console/fit.py:537-584 | the reader's header is the parse of the whole file, whatever the chunks |
| `GgufRead.GgufHeader` | console/fit.py:529-595 | the parse, the aligned data start and the sizes of the tensors in order of offset, with each error case; no byte is fetched twice |
| `GgufLayout.LeReadsBack` | console/fit.py:540-543 | a number laid out little-endian reads back as itself |
| `GgufLayout.ValueReads` | console/fit.py:547-565 | every laid-out value, nested arrays included, is read as what the header keeps of it, to its last byte |
| `GgufLayout.ValueWrites` | console/fit.py:547-565 | whatever value(t) accepts is the layout of some value of that type |
| `GgufLayout.HeaderReads` | console/fit.py:529-584 | round trip: a file that begins with a laid-out document is read as that document |
| `GgufLayout.HeaderWrites` | console/fit.py:529-584 | every file that is read begins with a laid-out document, and is read as it |
| `GgufLayout.ReadIffLaidOut` | console/fit.py:529-584 | the parser accepts exactly the files that begin with a well-formed document and returns what it says |
| `GgufSizes.DataStartRoundsUp` | console/fit.py:585 | a positive alignment rounds the position up, by less than the alignment |
| `GgufSizes.ByOffsetAscends` | console/fit.py:586 | the infos are sorted by offset |
| `GgufSizes.SizesTelescope` | console/fit.py:588-590 | the sizes of the first n tensors telescope to an offset difference, of all of them to what the file holds after the first offset |
| `GgufSizes.SizesNonNegative` | console/fit.py:588-590 | with the last offset inside the file no size is negative |
| `GgufSizes.AddToAdds` | console/fit.py:594 | mm[key] = mm.get(key, 0) + v adds v to the total and to that key's entry, and to no other |
| `GgufSizes.Sizes` | console/fit.py:587-594 | each tensor's size, and a table whose total is the bytes of the 2-D and 3-D tensors and whose entries are those of each kind |
| `GgufRead.HeaderTelescopes` | console/fit.py:529-595 | the sizes of a header's tensors add up to file size less data start less the first offset |
| `Keys.CmpTrans` | hack/pinver.py:330-336 | tuple keys of any shape compare transitively, equal only where every step is equal |
| `Keys.TrimmedOrder` | hack/pinver.py:182-185 | tuples without trailing zeros compare as if padded with zeros for ever |
| `Versions.KeysTyped` | hack/pinver.py:107-295 | keys of one scheme and flavour never raise a type error in a comparison |
| `Versions.CompareIsPreorder` | hack/pinver.py:330-336 | within a scheme and flavour compare is reflexive, antisymmetric in sign and transitive |
| `Versions.PepReleaseOrder` | hack/pinver.py:182-185 | pep440 keys with their zeros trimmed compare as the releases padded to any common length |
| `Identifiers.AcceptsIff` | hack/pinver.py:98-104 | _pre_ids raises if and only if a dot or a hyphen is at either end of the prerelease or next to another; the standard's identifiers are all there if and only if no dot is |
| `Identifiers.DoubleHyphenIsRejected` | hack/pinver.py:98-104 | a--b is a prerelease of SemVer 2.0.0 and raises |
| `SemverPrecedence.SemverKeyIsPrecedence` | hack/pinver.py:98-117 | where neither prerelease has a hyphen, the keys of semver and zerover order versions as section 11 of SemVer 2.0.0 does, the prerelease text split at its dots |
| `SemverPrecedence.HyphenDisagrees` | hack/pinver.py:98-117 | for every version with a hyphen in its prerelease there is one without, of the same numbers, that the keys order above it and SemVer 2.0.0 below it |
| `SemverPrecedence.AgreesIff` | hack/pinver.py:98-117 | a version is ordered against every version without a hyphen as SemVer 2.0.0 does if and only if its own prerelease has none |
| `SemverPrecedence.HyphensMisorder` | hack/pinver.py:98-117 | 1.0.0-rc-10 is above 1.0.0-rc-9, where SemVer 2.0.0 has it below |
| `Precedence.PepKeyIsPrecedence` | hack/pinver.py:177-205 | the keys of pep440 order versions as PEP 440 does: epoch, padded release, .dev, a, b, rc, none, .post, local label |
| `Versions.LastDashSplits` | hack/pinver.py:289 | the rest is the upstream, a dash and a revision without one, or has no dash and the revision is 0 |
| `Precedence.DebKeyIsPrecedence` | hack/pinver.py:283-295 | the keys of apt order versions as section 5.6.12 of the Debian Policy Manual does, by epoch, upstream and revision, for the upstream and revision that are any division of the rest at a dash with none behind it |
| `VersionRules.SplitLawIff` | hack/pinver.py:397-410 | for any versions of any scheme in order, the type of a bump is the worse of its two steps if and only if they are llama builds or no release number leaves and comes back |
| `VersionRules.BreakingIff` | hack/pinver.py:413-423 | ... and the bump breaks exactly when a step does, if and only if they are llama builds or the major number does not leave and come back |
| `VersionRules.BuildSplitLaw` | hack/pinver.py:403-404 | the same law for llama build numbers |
| `VersionRules.ReleaseFollowsOrder` | hack/pinver.py:107-234 | a version that sorts no later has no higher first two release numbers (all schemes but apt, pep440 with equal epochs) |
| `VersionRules.EqualUpstreams` | hack/pinver.py:292-294 | upstream versions that dpkg counts as equal have the same first two numbers, however spelled |
| `VersionRules.EpochsHideMajors` | hack/pinver.py:397-423 | both laws are false across epochs: 1.0, 1!2.0, 2!1.0 is a patch made of two majors, and does not break though both steps do |
| `VersionRules.LettersHideMinors` | hack/pinver.py:292-295 | the law is false of apt in one epoch: 1.0 < 1.5 < 1.a hides a minor |
| `VersionSelect.Latest` | hack/pinver.py:430-442 | the result is eligible and no eligible candidate exceeds it, the first of equals; None exactly when none is eligible |
| `VersionSelect.LatestIsFinal` | hack/pinver.py:430-442 | run again from its own result, latest finds nothing |
| `VersionSelect.RangeReadsTheOrder` | hack/pinver.py:387-392 | versions that compare equal are in the same ranges and raise on the same ones |
| `VersionSelect.AllHoldIff` | hack/pinver.py:392 | a clause holds exactly when each of its comparators passes, in spite of the short cut |
| `VersionSelect.ClauseIsConvex` | hack/pinver.py:375-392 | a clause without != that holds at both ends of v1 <= v2 <= v3 holds between, also where pep440 bounds ignore the local label and docker-suffix bounds read only the core |
| `MannWhitney.Memo.CountOf` | console/tune.py:418-426 | the memoised recursion returns the count of the plain recursion and keeps the memo right |
| `MannWhitney.CountIsArrangements` | console/tune.py:418-426 | the count is the number of arrangements of m x's and n y's with exactly u pairs of an x above a y |
| `MannWhitney.ArrangementsSize` | console/tune.py:428 | there are C(m + n, m) arrangements |
| `MannWhitney.TailIsArrangements` | console/tune.py:429-430 | the counts from u up are the number of arrangements with at least u such pairs |
| `MannWhitney.TailBounds` | console/tune.py:428-430 | all the counts add up to C(m + n, m), and a larger u has a smaller tail |
| `MannWhitney.TopCountIsOne` | console/tune.py:418-426 | exactly one arrangement puts every x above every y |
| `MannWhitney.MannWhitneyP` | console/tune.py:405-430 | 1 for an empty side, otherwise the tail from the number of strict wins over C(m + n, m) |
| `MannWhitney.PBounds` | console/tune.py:405-430 | p is antitone in U, lies in [1/C(m + n, m), 1] and reaches both ends |
| `MannWhitney.PIsShare` | console/tune.py:405-430 | p is the share of the arrangements that have at least as many wins |
| `MannWhitney.TiesErrTowardRejecting` | console/tune.py:408-410 | no way of breaking the ties has a larger p than counting strict wins |
| `MannWhitney.SomeBreakingAttains` | console/tune.py:408-410 | ... and some breaking of the ties has exactly that p, so strict wins are the worst case |
| `MannWhitney.ResolvableIff` | console/tune.py:661-664 | a full separation passes alpha over k finalists if and only if k is at most floor(alpha * C(2n, n)) |
| `MannWhitney.PastTheCapNonePass` | console/tune.py:661-668 | with more finalists than the cap no outcome of n runs against n passes |
| `TuneGates.TooManyCandidates` | console/tune.py:709-732 | past the cap every measurement is rejected on its p-value, whatever the other gates say |
| `TuneVerdicts.MedianInMiddle` | console/tune.py:720 | the median has as many samples on either side |
| `TuneVerdicts.SpreadIsLargest` | console/tune.py:400-402 | the spread is the largest difference of two samples |
| `TuneVerdicts.AcceptedBeatsNoise` | console/tune.py:716-730 | an accepted candidate has enough samples and is better by at least k times the difference of any two runs of one config |
| `TuneVerdicts.SwappedIsRejected` | console/tune.py:710-740 | no measurement accepts each of two configs over the other |
| `TuneVerdicts.MirrorKeepsVerdict` | console/tune.py:721-732 | a metric that is better when smaller is judged as the mirror image: the same gates fail |
| `TuneGates.Neighbours` | console/tune.py:791-811 | the feasible configs one knob away and the other devices at their default, all of them, no others, without duplicates and without the incumbent itself |
| `TuneConfirm.Confirm` | console/tune.py:673-719 | the rounds of _confirm for one challenger, in rotated order with the clock checked before every trial, compute the specification's outcome |
| `TuneConfirm.MeasuredIff` | console/tune.py:677-726 | a challenger is measured if and only if every trial of every round ran before the deadline and was done and the incumbent has its samples; the measurement is that of all rounds |
| `TuneConfirm.CutShortIff` | console/tune.py:656-658 | exactly when a trial cut short at the deadline leaves the challenger undecided: unless it is the last trial of all; the incumbent's raises |
| `TuneConfirm.LastIsChallengers` | console/tune.py:677-679 | the last trial is the challenger's if and only if the number of rounds is odd |
| `TuneConfirm.LastTrialCutDecides` | console/tune.py:683-708 | with an odd number of rounds and every trial measured but the last, cut short, the challenger is decided against |
| `TuneStep.Incremental` | console/tune.py:835-940 | the loop and the confirmation compute the step of the specification for any clock and any trials, errors included |
| `TuneStep.ScreenBest` | console/tune.py:907-929 | screening keeps the best gain: the waiting challenger gives way only to a config screened in this run that gained more |
| `TuneStep.StepIsSensible` | console/tune.py:863-940 | what any step leaves: new untried neighbours screened, a challenger that waited or was screened here, a winner that passed every gate, convergence exactly when nothing is left |
| `TuneStep.PassedMeansMeasured` | console/tune.py:863-875 | a winner's every trial of every round ran and was done |
| `TuneStep.CutShortWaitsIff` | console/tune.py:869-871 | a waiting challenger's confirmation cut short at a trial leaves it waiting if and only if the trial is the challenger's and not the last of all |
| `TuneStep.LastCutDropsTheWaiting` | console/tune.py:869-875 | with an odd number of rounds the waiting challenger is dropped when its last trial is cut short |
| `TuneStep.FiveRoundsDropTheWaiting` | console/tune.py:835-875 | such a run: five rounds and a budget of ten minutes |
| `TuneHistory.RunsMakeHistory` | console/tune.py:1091-1118 | any sequence of cmd_step runs with one objective on one host is such a history, from no profile, one for another objective or one that a whole search wrote, a run that raises leaving the profile |
| `TuneHistory.ScreenedGrows` | console/tune.py:1067-1072 | over any history the list screened against an incumbent only grows, has no duplicates and stays inside its neighbours |
| `TuneHistory.DecidedAtMostOnce` | console/tune.py:1062-1108 | over any history each pair of incumbent and challenger is decided at most once |
| `TuneHistory.IncumbentChanges` | console/tune.py:1081-1083 | the incumbent changes only to the challenger just decided, which passed every gate on trials that all ran |
| `TuneHistory.NoStepTwice` | console/tune.py:1081-1099 | over any history the same step from one incumbent to another is never taken twice |
| `TuneHistory.WaitingIsKept` | console/tune.py:1062-1108 | over any runs of a history a waiting challenger keeps waiting, or gives way to one that gained more, until a run decides on the one that waits; until then the incumbent stays |
| `TuneHistory.StoredMeansWaiting` | console/tune.py:1101-1108 | a stored challenger always belongs to the current incumbent, so reading the profile back never drops it |
| `TuneHistory.ConvergedStays` | console/tune.py:879-888 | a converged step changes neither incumbent nor lists, and the next one converges too |
| `TuneProgress.ProgressIff` | console/tune.py:869-940 | a run screens or decides something if and only if it does not raise and the confirmation that it starts with is not cut short or, where it starts with none, there is an untried neighbour, room for a trial as slow as the incumbent's and that neighbour's trial is not cut short |
| `TuneProgress.RoomIff` | console/tune.py:851-911 | where only trials take time, with two rounds or more there is room for the first neighbour if and only if the incumbent's trial takes at most half of the working time |
| `TuneProgress.SlowRunStalls` | console/tune.py:846-911 | an incumbent's trial of five of ten minutes: nothing is screened or decided, whatever is left to try, with a waiting challenger as slow or with none |
| `TuneProgress.StallKeepsState` | console/tune.py:1062-1108 | a run that screens and decides nothing leaves the incumbent, every screened list and the waiting challenger as they were |
| `TuneProgress.StallRepeats` | console/tune.py:1062-1118 | such a run, made again any number of times, does the same |
| `TuneProgress.SlowRunsNeverEnd` | console/tune.py:846-911 | the slow run never screens or decides anything, however often it is made |
| `TuneProgress.ProgressIsBounded` | console/tune.py:1062-1108 | over any history at most two runs per neighbour of an incumbent screen or decide something against it |
| `SharedPrefix.CommonPrefix` | console/shared_prefix.py:77-82 | the index loop returns the length of the longest common prefix |
| `SharedPrefix.LcpIsLongest` | console/shared_prefix.py:77-82 | two heads agree on k characters if and only if k is at most that length |
| `SharedPrefix.Group.Join` | console/shared_prefix.py:127-129 | the in-place update of one group: its length shrinks to the offer and the agent is appended |
| `SharedPrefix.FindBest` | console/shared_prefix.py:121-126 | the inner loop finds the first group with the longest offer |
| `SharedPrefix.PlaceHead` | console/shared_prefix.py:121-131 | one turn overwrites exactly one group in place or appends a fresh one |
| `SharedPrefix.GroupHeads` | console/shared_prefix.py:116-132 | the groups, mutated in place, are those of the specification after every agent |
| `SharedPrefix.OfferIsExact` | console/shared_prefix.py:123-124 | the smaller of what a newcomer shares with the first member and the stored length is exactly what it shares with all members |
| `SharedPrefix.GroupingIsSound` | console/shared_prefix.py:116-132 | the groups partition the agents, in input order, each stores exactly the longest prefix all its members share, and at least min_chars once two have joined |
| `SharedPrefix.ChoiceIsLongest` | console/shared_prefix.py:116-131 | an agent joins a group that, with it, shares as much as any group would, and starts its own exactly when none would share min_chars |
| `PrefixReuse.Analyse` | console/shared_prefix.py:150-201 | the reports are those of the grouping, with two agents or more and min_tokens reusable tokens by the tokenizer's count or the estimate, and the fixes those of every pair; one engine is planned if and only if some group shares enough, and sorted keys if and only if some pair gains; an error for a minimum under 1 |
| `PrefixReuse.ReportsIff` | console/shared_prefix.py:168-181 | a report is listed if and only if it is that of a group of two agents or more that reaches min_tokens of whole blocks |
| `PrefixReuse.FixesIff` | console/shared_prefix.py:183-191 | a pair is listed if and only if sorted keys gain it a whole block and leave min_tokens shared |
| `PrefixReuse.ReportsAreShared` | console/shared_prefix.py:163-181 | any two agents of a report agree on all its characters, every member counts the same tokens, and the reusable ones are whole blocks among them |

## Left out

- Floating point: bytes that the source divides, bandwidth, pressure averages, scores, medians and the
  10% slack are reals; the device rule is cross-multiplied.
- Characters: the dpkg order is stated with ASCII letters and digits, which is all that the apt pattern
  admits; Python's `isalpha` and `isdigit` accept more.
- Text: regular expressions, explanations, summaries, reasons, flag spelling and JSON are not modelled;
  version strings are taken as the parts their pattern finds, and ranges as parsed clauses.
- Input and output: hosts, weights, files, HTTP, clocks and trials are parameters. A `Source` may answer
  a read with any non-empty part of what was asked for; a source that answers nothing would never end.
- Versions.CompareIsPreorder: not for hf-sha, whose revisions have no order in the source either.
- VersionSelect.Latest: returns the place of the version among the candidates, not its text.
- LlamaSplit.Split: needs layer bytes that are not negative and at least one card, as its callers give it.
- HostPlacement.PlaceLlamaMulti: moving experts needs a known DRAM bandwidth, a routed expert and expert
  bytes, the guards its caller applies; without an expert the source divides by zero.
- HostPlacement.PlaceLlamaCpu: the bytes the CPU backend copies (`llama_cpu_copies`), the drafter's sizes
  and the activation estimates are parameters.
- Placement.PlaceOnGpu: covers one GPU and vLLM's ranks; which card counts are tried, in what order, and
  the choice of the best of several expert offloads are not modelled.
- TuneConfirm.Confirm: is for one challenger, as the incremental step confirms it; the confirmation of
  several finalists that a whole search makes, which has no deadline, is not modelled.
- TuneHistory.RunsMakeHistory: a whole search that overwrites the profile between two steps starts a new
  history.
- TuneGates.Neighbours: a config is identified by its canonical form and feasibility is a parameter.
- PrefixReuse.Analyse: the prompt heads, and the same with sorted keys, are parameters; names, sizes in MiB
  and the plan's constant entries are not modelled.
- GgufRead.GgufHeader: string bytes are kept as they are, not decoded; a matrix kind holds the ggml type's
  number, not its name; the table keeps the order in which kinds came, and is not sorted. Python's
  recursion limit on nested arrays is not modelled.
- The rest of the repository: probing a host, fetching weights, schema checks, audits, the trial matrix,
  Pareto fronts, reports, remote and canary tooling.
