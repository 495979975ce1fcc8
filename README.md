# vpdCalibration in Dafny

A model of the calibration engine of the VPD (vertex position detector)
calibration program, and of the named-histogram store it relies on.

The detector has 38 timing channels in two banks:
- west, channels 0..18;
- east, channels 19..37.

For every channel, the engine derives two tables:
- the bin edges of the time-over-threshold (TOT) range;
- a time-walk correction per TOT bin.

A run goes like this:
1. `binTOT` collects the TOT samples of every channel over the event chain. It gives each channel either equal-width edges or equal-population edges, and marks channels with too few samples as dead.
2. Each `step` books the iteration's histograms. It then passes over the events:
   - outlier rejection pairs west and east channels whose vertex agrees with the TPC vertex;
   - the event cuts are applied;
   - the channel times are aliased;
   - the leave-one-out bank averages are formed;
   - the `avgN`, `cutAvgN`, `tdctot`, `tdccor` and `tdc` histograms are filled.
3. `makeCorrections` then refits every live channel's correction row from the slice fit of its `tdctot` (or `tdccor`) histogram.
4. `loop` repeats `step`.
5. `writeParameters` and `readParameters` persist the two tables as a text file of per-channel records.
6. The script `adjustStartTime` rewrites such a file:
   - it clamps the bin edges to 40 ns;
   - it shifts every non-zero correction by minus the mean start time.

The histogram store (`histoBook`) maps a directory-qualified name to a histogram:
- a degenerate name or a taken name is ignored, so the first writer wins;
- a directory cursor is switched by `cd`;
- `get` looks a name up, and `fill` records samples;
- `set` changes a style attribute of the histogram named by `style`, with the tag lower-cased.

The class `HistoBook.Book` holds the state declared in `include/histoBook.h` (lines 18-26): the cursor, the map and the style target. Its methods keep the default arguments declared there: `cd` without `subd`, `get` with the current directory, `fill` with weight 1.

The modules follow the program:
- `HistoBook` (`histo_book.dfy`): the store, a class whose methods update its map and cursor. It uses `Text` for decimal rendering and lower-casing.
- `CalibData`: the channel layout, the events, the configuration, the cut schedules and the histogram keys.
- `TotBinning`: the two binnings of `binTOT`.
- `StepSpec`: one event of `step` as functions on values (outlier rejection, aliasing, averages, the fill list).
- `Booking`: the bookings of `prepareStepHistograms` and the table update of `makeCorrections`.
- `EngineSpec`: a whole step and the loop.
- `Tokens` and `Parameters`: the parameter file as a token sequence, its writer and its reader, and the round trip.
- `Calibration` (`calib.dfy`): the class `Calib`. Its arrays and fields are updated in place. Each method is proved against the value-level functions above.
- `AdjustStartTime`: the script. Its loops are proved against a function on the token stream.

Two behaviours of the code worth noting:
- Outlier rejection clears the west entries of `useDetector` for every event, but never the east ones.
- The adaptive bin edges are non-decreasing. They need not be strictly increasing.

## Model

| member | source | states |
|---|---|---|
| Text.NatToString | src/calib.cpp:363 | the decimal rendering `<<` writes for a count: non-empty and all digits |
| Text.IntToString | src/calib.cpp:365 | an integer's rendering starts with '-' exactly when it is negative, and is the natural rendering otherwise |
| Text.LowerChar | src/histoBook.cpp:153 | `::tolower` changes exactly the letters 'A'..'Z', each to its lower-case letter |
| Text.LowerAt | src/histoBook.cpp:153 | the transformed tag has the same length and is lower-cased character by character |
| Text.LowerIdempotent | src/histoBook.cpp:151-158 | lower-casing a lower-cased tag changes nothing, so tag matching is case-insensitive |
| Text.ContainsSuffix | src/histoBook.cpp:8-11 | a name with ".root" appended mentions ".root" |
| Text.NatToStringInjective | src/calib.cpp:655-658 | different channel or iteration numbers render differently |
| Text.IntPrefixUnique | src/calib.cpp:655-658 | a number followed by a non-digit suffix can be read back: number and suffix are determined |
| Text.NegativePrefixUnique | src/calib.cpp:655-658 | a '-' and a number followed by a non-digit suffix are read back: number and suffix are determined |
| HistoBook.NewHist | src/histoBook.cpp:76-106 | a made histogram has the given kind, name, title and axes, and nothing filled |
| HistoBook.AxisEdges | src/histoBook.cpp:76-106 | a fixed-width axis has at least one bin edge |
| HistoBook.FirstAtLeast | src/calib.cpp:369 | the `std::lower_bound` position: every earlier edge is below x and the edge there, if any, is at least x |
| HistoBook.BinarySearch | src/calib.cpp:369 | `TMath::BinarySearch`: every earlier edge is below x; the edge found is at most x; when it differs from x the next edge is above x, so a repeated edge equal to x is found at its first copy |
| HistoBook.FindBinIn | src/calib.cpp:369 | bin 0 is exactly the underflow, bin \|e\| exactly the overflow, and bin b in between has e[b-1] <= x |
| HistoBook.FindBinInRange | src/calib.cpp:369 | an in-range bin b has every edge before e[b-1] below x, and x < e[b] unless x equals e[b-1], which is then the first copy of that edge |
| HistoBook.FindBinRepeatedEdge | src/calib.cpp:369 | on the edges 0, 1, 1, 2 the value 1 falls in bin 2, the empty bin starting at the first copy of 1 |
| HistoBook.OutputFileName | src/histoBook.cpp:8-11 | the file name always mentions ".root"; it is the given name when that already does, else the name with ".root" appended |
| HistoBook.OutputFileNameIdempotent | src/histoBook.cpp:8-11 | normalising a normalised file name changes nothing |
| HistoBook.AddEntry | src/histoBook.cpp:33-50 | `add` never removes or replaces an entry; a name of length at most 1 or a null object is ignored; otherwise the key is present afterwards and holds the new object if it was free |
| HistoBook.FillEntry | src/histoBook.cpp:115-118 | a fill keeps every key, appends the sample to exactly the named histogram, and does nothing when the name is missing |
| HistoBook.AddTwiceFirstWins | src/histoBook.cpp:37-47 | adding under a taken name leaves the store as it was, so the first histogram stays |
| HistoBook.ApplyStyle | src/histoBook.cpp:158-187 | each known tag changes only its own attribute; an unknown tag changes nothing; the data (axes, fills, contents) never change |
| HistoBook.Book.constructor | src/histoBook.cpp:6-20 | an empty store in "/" whose file name is the normalised given name |
| HistoBook.Book.Add | src/histoBook.cpp:33-50 | the store after `add` is `AddEntry` of the current directory; the cursor, the style target and the directories are unchanged |
| HistoBook.Book.Cd | src/histoBook.cpp:55-74 | returns the previous cursor, moves it to `dir` and creates the directory; no entry changes |
| HistoBook.Book.Get | src/histoBook.cpp:109-113 | the stored object exactly when the qualified name is a key, absent otherwise |
| HistoBook.Book.Fill | src/histoBook.cpp:115-118 | one fill of the named histogram in the current directory, with weight 1 by default; nothing else changes |
| HistoBook.Book.Make1F | src/histoBook.cpp:76-82 | adds a fresh TH1F with a fixed-width axis, first writer wins |
| HistoBook.Book.Make1D | src/histoBook.cpp:85-91 | adds a fresh TH1D with a fixed-width axis, first writer wins |
| HistoBook.Book.Make2D | src/histoBook.cpp:92-99 | adds a fresh TH2D with two fixed-width axes, first writer wins |
| HistoBook.Book.Make2DEdges | src/histoBook.cpp:100-106 | adds a fresh TH2D whose x axis has the first nBinsX + 1 given edges |
| HistoBook.Book.Style | src/histoBook.cpp:147-150 | names the histogram later `set` calls act on and returns the store itself |
| HistoBook.Book.Set | src/histoBook.cpp:151-194 | the style target, when stored, gets `ApplyStyle` under the lower-cased tag; a missing target changes nothing |
| CalibData.BankStart | src/calib.cpp:919-934 | a channel lies in its bank's range, which starts at 0 exactly for west channels |
| CalibData.BankEnd | src/calib.cpp:919-934 | the bank of a west channel ends at 19, that of an east channel at 38 |
| CalibData.TOTBinCount | src/calib.cpp:25-29 | the configured bin count when it is at least 1, else the default |
| CalibData.VzCut | src/calib.cpp:523-533 | the vertex cut is 40, 20, 15, 8 and then 5 cm by iteration |
| CalibData.OutlierCut | src/calib.cpp:769-773 | the bank-average cut is 2, 1 and then 0.6 ns by iteration |
| CalibData.SchedulesTighten | src/calib.cpp:523-533 | both cut schedules never widen as the iteration grows |
| CalibData.ChannelKeySplit | src/calib.cpp:655-658 | a channel key is its directory followed by the iteration name |
| CalibData.ChannelKeyInjective | src/calib.cpp:655-658 | channel, iteration and suffix can be read back from a key |
| CalibData.ItNameInjective | src/calib.cpp:658 | iteration and suffix can be read back from an iteration name |
| CalibData.ChannelKeysDiffer | src/calib.cpp:655-658 | keys of different channels, iterations or suffixes differ |
| Tokens.RealTokens | src/calib.cpp:1114 | one token written per value |
| Tokens.RealTokensAt | src/calib.cpp:1114 | the i-th token written is the real token of the i-th value |
| TotBinning.EventSample | src/calib.cpp:265-289 | an event gives a channel at most one sample, strictly inside the TOT window |
| TotBinning.Samples | src/calib.cpp:254-291 | a channel collects at most one sample per event, all strictly inside the window |
| TotBinning.Insert | src/calib.cpp:319 | insertion adds one element |
| TotBinning.InsertMultiset | src/calib.cpp:319 | insertion adds exactly that element to the multiset |
| TotBinning.InsertSorted | src/calib.cpp:319 | inserting into a sorted sequence keeps it sorted |
| TotBinning.SortSeq | src/calib.cpp:319 | `std::sort`: the result is sorted and a permutation of the samples |
| TotBinning.SortSeqValues | src/calib.cpp:319 | every sorted value is a sample, and the first is the smallest |
| TotBinning.UniformEdges | src/calib.cpp:300-311 | n + 1 equal-width edges |
| TotBinning.StepIndexInRange | src/calib.cpp:322-327 | with at least three samples per bin the quantile step is positive and every `step * j` indexes the samples |
| TotBinning.AdaptiveEdges | src/calib.cpp:313-331 | n + 1 equal-population edges |
| TotBinning.ChannelEdges | src/calib.cpp:300-331 | the edges of a channel have n + 1 entries |
| TotBinning.UniformEdgesShape | src/calib.cpp:300-311 | equal-width edges start at minTOT, end at maxTOT and strictly increase |
| TotBinning.AdaptiveEdgeBetween | src/calib.cpp:322-328 | interior edge j lies between the sorted samples at positions step·(j-1) and step·j |
| TotBinning.AdaptiveEdgeBounds | src/calib.cpp:313-331 | every edge before the last is at least the smallest sample and below maxTOT |
| TotBinning.AdaptiveEdgesOrdered | src/calib.cpp:313-331 | the equal-population edges never decrease |
| TotBinning.QuantileMonotone | src/calib.cpp:326-327 | the quantile samples never decrease |
| TotBinning.AdaptiveEdgesShape | src/calib.cpp:313-331 | first edge the smallest sample, last edge maxTOT, never decreasing |
| TotBinning.ChannelEdgesShape | src/calib.cpp:300-331 | a dead channel gets the equal-width edges; a live one starts at its smallest sample, its edges lie in (minTOT, maxTOT] and the last is maxTOT |
| StepSpec.LookupWithoutHistogram | src/calib.cpp:345-377 | without last iteration's `totcor` histogram the lookup reads bin 0 |
| StepSpec.SamplesFor | src/calib.cpp:841-974 | a key receives at most one sample per fill |
| StepSpec.SamplesForAppend | src/calib.cpp:841-974 | the samples of two fill lists in a row are those of the first, then those of the second |
| StepSpec.ApplyFillsEffect | src/histoBook.cpp:115-118 | fills keep every key; each histogram gains exactly the samples aimed at it, in order |
| StepSpec.LookupUnchangedByFills | src/calib.cpp:345-377 | the correction lookups of a step are not moved by the step's own fills |
| StepSpec.PairingOf | src/calib.cpp:553-608 | the pairing of an event is well formed: a live flag and a time per channel |
| StepSpec.PairingOfPrefixes | src/calib.cpp:553-608 | the pairing built channel by channel, one live flag and one time per channel in order, is the pairing of the event |
| StepSpec.PairingIgnoresRejection | src/calib.cpp:507-518 | the pairing does not depend on the rejection switch |
| StepSpec.PairOkOf | src/calib.cpp:553-604 | a pair is accepted exactly when both channels are live and the vertex of their corrected times agrees with the TPC vertex |
| StepSpec.OutlierUse | src/calib.cpp:507-634 | one usable flag per channel after outlier rejection |
| StepSpec.RejectionUses | src/calib.cpp:540-608 | one usable flag per channel after the pairing loops |
| StepSpec.NotLiveNoPartner | src/calib.cpp:555-560 | a channel that is not live pairs with nothing |
| StepSpec.EastPartnerIff | src/calib.cpp:566-604 | a west channel has an east partner exactly when some east channel forms an accepted pair with it |
| StepSpec.WestPartnerIff | src/calib.cpp:566-604 | an east channel has a west partner exactly when some west channel forms an accepted pair with it |
| StepSpec.RejectionWest | src/calib.cpp:540-604 | with rejection on, a west channel is usable exactly when it forms an accepted pair |
| StepSpec.RejectionEast | src/calib.cpp:596-604 | with rejection on, an east channel is usable exactly when it was before or forms an accepted pair |
| StepSpec.RejectionFlagsPairs | src/calib.cpp:596-604 | both bank flags are set exactly when some pair is accepted |
| StepSpec.RejectionFlagsWest | src/calib.cpp:540-604 | both bank flags are set exactly when some west channel is left usable |
| StepSpec.NoRejection | src/calib.cpp:510-518 | with rejection off every channel is usable and both flags are set |
| StepSpec.UsableAfterRejectionIsLive | src/calib.cpp:553-604 | a channel that rejection made usable is live |
| StepSpec.AliasChan | src/calib.cpp:822-837 | an unusable channel keeps last event's values; a usable one takes this event's TOT, tdc and offset |
| StepSpec.Aliased | src/calib.cpp:822-837 | one set of locals per channel |
| StepSpec.AliasedTime | src/calib.cpp:822-837 | with offsets removed, an in-window usable channel's time is its tdc less offset and correction, the time pairing uses |
| StepSpec.BankCount | src/calib.cpp:855-872 | the count over a range is at most the range's size |
| StepSpec.CutCountAtMostCount | src/calib.cpp:883-904 | the mean cut only removes channels |
| StepSpec.AveragesBounds | src/calib.cpp:855-934 | the cut count is at most the count, and the count is below the bank's size (leave one out) |
| StepSpec.BankCountLeavesOut | src/calib.cpp:855-872 | channel j never counts itself |
| StepSpec.SumsAgree | src/calib.cpp:855-904 | the sums and the cut counts depend only on the counted channels |
| StepSpec.AveragesDependOnCountedOnly | src/calib.cpp:855-934 | channel j's averages depend only on the other usable, live channels of its own bank |
| StepSpec.AvgNFills | src/calib.cpp:941-958 | every `avgN` fill of channel j goes to j's own `avgN` histogram |
| StepSpec.OffsetFill | src/calib.cpp:907-914 | the offset check only fills the corrected-offsets histogram |
| StepSpec.AvgNPart | src/calib.cpp:941-958 | the `avgN` part only fills j's `avgN` histogram |
| StepSpec.CutAvgNFill | src/calib.cpp:960-961 | the `cutAvgN` part only fills j's `cutAvgN` histogram |
| StepSpec.ChannelParts | src/calib.cpp:841-974 | one fill list per channel |
| StepSpec.ConcatOnly | src/calib.cpp:841-974 | a key that only one channel's part touches receives exactly that part's samples |
| StepSpec.TdcTotKeyIsNotOffsetKey | src/calib.cpp:912-913 | no channel histogram is the corrected-offsets histogram |
| StepSpec.ChannelFillsTdcTot | src/calib.cpp:941-972 | a channel's fills never touch another channel's `tdctot`, and only its gated fill touches its own |
| StepSpec.GatedFillsOtherChannel | src/calib.cpp:963-972 | the gated fills of one channel miss another channel's `tdctot` |
| StepSpec.TdcTotGating | src/calib.cpp:841-974 | per event, channel j's `tdctot` gets exactly one sample (tot, tdc − offset − cut mean) when j is handled, more than `minHits` channels were counted and some passed the cut, and none otherwise |
| StepSpec.OwnTdcTotValue | src/calib.cpp:960-966 | the gated `tdctot` sample of a handled channel |
| StepSpec.EventStep | src/calib.cpp:792-974 | one event keeps the step state well formed |
| StepSpec.Steps | src/calib.cpp:792-975 | the event loop keeps the step state well formed |
| StepSpec.StepsPrefix | src/calib.cpp:792-975 | the loop over i + 1 events is one more event step after the loop over i |
| StepSpec.StepsKeepTables | src/calib.cpp:792-975 | across the event loop the store keeps its keys and axes, every correction lookup gives the same value, and the two bank flags agree once an event was seen |
| Booking.OffsetCheckBook | src/calib.cpp:636-645 | the corrected-offsets histogram is present afterwards, and nothing else is added or replaced |
| Booking.TdcTotTitle | src/calib.cpp:655-663 | the `tdctot` title of the first channel is its own; later ones start with the previous channel's last title, because the buffer is not cleared |
| Booking.ChannelNames | src/calib.cpp:655-716 | seven names per channel |
| Booking.ChannelHists | src/calib.cpp:655-716 | seven histograms per channel |
| Booking.OutlierNames | src/calib.cpp:723-746 | four outlier-rejection names |
| Booking.OutlierHists | src/calib.cpp:723-746 | four outlier-rejection histograms |
| Booking.AddPrefixExtends | src/calib.cpp:655-716 | a channel's bookings never remove or replace an entry, add every name and nothing else |
| Booking.AddPrefixFresh | src/calib.cpp:655-716 | a booking under a fresh key leaves exactly its histogram there |
| Booking.ChannelsBookExtend | src/calib.cpp:647-718 | the channel loop never removes or replaces an entry |
| Booking.ChannelsBookKeys | src/calib.cpp:647-718 | after the channel loop every channel's seven histograms are in the store |
| Booking.PreparedBookKeys | src/calib.cpp:636-758 | after `prepareStepHistograms` nothing is lost or replaced; the offset check, every channel histogram and the outlier histograms are booked; the cursor is in "OutlierRejection" |
| Booking.FitInputsBooked | src/calib.cpp:655-670 | the `tdctot` and `tdccor` histograms of every channel are booked |
| Booking.DirKeysDiffer | src/calib.cpp:655-658 | histograms of different channels never share a key |
| Booking.ChannelNameFacts | src/calib.cpp:655-716 | the seven names of a channel are pairwise different |
| Booking.OtherChannelsDiffer | src/calib.cpp:647-718 | a channel's names are no names of another channel |
| Booking.ChannelsBookMisses | src/calib.cpp:647-718 | a key the loop does not book stays absent |
| Booking.ChannelsBookValue | src/calib.cpp:647-718 | a fresh channel key holds exactly the histogram booked for it |
| Booking.PreparedBookValue | src/calib.cpp:636-758 | after the booking every fresh channel key holds exactly its booked histogram |
| Booking.FitSuffix | src/calib.cpp:1030-1036 | the fitted histogram is `tdccor` in differential mode, else `tdctot` |
| Booking.FitHistAxis | src/calib.cpp:655-670 | the fitted histogram is binned in TOT on the channel's current edges |
| Booking.CorrectedRow | src/calib.cpp:1055-1065 | the corrected row keeps its length and its bin 0 (underflow) |
| Booking.Corrections | src/calib.cpp:1026-1065 | `makeCorrections` never removes or replaces a histogram and keeps rows of n + 1 entries |
| Booking.CorrectionsTable | src/calib.cpp:1026-1065 | live channels are refitted from the histogram they had before the loop; dead channels and channels not reached keep their row |
| Booking.CorrectionsUntouchedAt | src/calib.cpp:1026-1065 | a dead channel or one not yet reached keeps its correction row |
| Booking.CorrectionsRefittedAt | src/calib.cpp:1026-1065 | a live channel reached by the loop gets the row refitted from the histogram it had before the loop |
| Booking.CorrectionsKeys | src/calib.cpp:1048-1053 | the only keys added are the `totcor` keys of live channels |
| Booking.CorrectionsLast | src/calib.cpp:1039-1053 | a live channel adds the clone of its fit under `totcor` |
| Booking.TotcorFreshBelow | src/calib.cpp:1048-1053 | a channel's `totcor` key is not added by the channels before it |
| Booking.CorrectionsBooked | src/calib.cpp:1048-1053 | every live channel has its `totcor` histogram afterwards, the clone of this fit when it was new |
| Booking.NextLookup | src/calib.cpp:360-377 | next iteration, a live channel's bin comes from the x axis of the fitted histogram, and a dead channel reads bin 0 |
| Booking.DifferentialSums | src/calib.cpp:1055-1063 | in differential mode a bin is the sum of all fits; otherwise it is the last fit |
| Parameters.ExportOffset | src/calib.cpp:1117-1125 | the folded-in offset is 0 without `removeOffset`, the initial offset for west channels, and that plus west-minus-east for east channels |
| Parameters.ExportedCorrections | src/calib.cpp:1117-1127 | n + 1 values: entry i is correction bin i + 1 plus the offset, the last one the word past the row |
| Parameters.Records | src/calib.cpp:1108-1128 | one record per channel, in channel order |
| Parameters.RecordsFromStep | src/calib.cpp:1108-1128 | the records from channel lo on start with channel lo's record |
| Parameters.Export | src/calib.cpp:1096-1132 | nothing is written exactly when the output name has at most four characters; otherwise the file has that name |
| Parameters.ReadReals | src/calib.cpp:1162-1172 | one stored value per extraction |
| Parameters.ReadRealsStep | src/calib.cpp:1162-1172 | the values of an extraction loop are the first value, then those of the rest |
| Parameters.Overwrite | src/calib.cpp:1162-1172 | the row starts with the values read and keeps its other entries |
| Parameters.ReadRecord | src/calib.cpp:1148-1181 | one pass of the read loop keeps the tables well formed |
| Parameters.ReadRecords | src/calib.cpp:1148-1181 | the read loop keeps the tables well formed |
| Parameters.ReadRealsTokens | src/calib.cpp:1108-1172 | a written list of values reads back as itself |
| Parameters.RecordReadBack | src/calib.cpp:1148-1172 | with at most 50 bins an exported record is read into exactly its channel's rows |
| Parameters.RecordsReadBack | src/calib.cpp:1148-1181 | reading the exported records replaces exactly their channels' rows and flags nothing as bad |
| Parameters.ExportWrites | src/calib.cpp:1096-1132 | for a name longer than four characters the written file is the channel records in order |
| Parameters.RoundTripEdges | src/calib.cpp:1096-1192 | importing an exported file restores every edge row and sets iteration 5 |
| Parameters.RoundTripCorrections | src/calib.cpp:1096-1192 | importing an exported file gives every correction row the exported list: shifted down one bin, plus the offset |
| Parameters.BadRecord | src/calib.cpp:1157-1177 | a record with a wrong channel or bin count changes no table, clears `good` and consumes the two numbers |
| Parameters.BadIsSticky | src/calib.cpp:1174-1188 | once a record was bad the import stays bad |
| Parameters.ImportIteration | src/calib.cpp:1134-1192 | the iteration becomes 5 exactly when no record was bad (or it already was 5); a missing file also sets 5 |
| EngineSpec.EnvOf | src/calib.cpp:760-986 | the tables a step reads are well formed |
| EngineSpec.ZeroChans | src/calib.cpp:776-779 | one set of step locals per channel |
| EngineSpec.LoopStart | src/calib.cpp:788-792 | the event loop starts from a well-formed state |
| EngineSpec.EventLoop | src/calib.cpp:792-975 | the event loop ends in a well-formed state |
| EngineSpec.PreparedFitInputs | src/calib.cpp:636-758 | after the booking every channel has the histogram `makeCorrections` fits |
| EngineSpec.EventLoopFitInputs | src/calib.cpp:792-980 | the histograms to fit are still there after the event loop |
| EngineSpec.StepCorrections | src/calib.cpp:980 | the correction update keeps rows of n + 1 entries |
| EngineSpec.StepEngine | src/calib.cpp:760-986 | a step keeps the engine state well formed |
| EngineSpec.StepKeepsKeys | src/calib.cpp:760-986 | a step advances the iteration by one and loses no histogram |
| EngineSpec.StepDeadRows | src/calib.cpp:1026-1030 | a step leaves the rows of dead channels alone |
| EngineSpec.StepKeepsUnderflow | src/calib.cpp:1055-1065 | a step keeps bin 0 of every row |
| EngineSpec.StepBooksTotcor | src/calib.cpp:1048-1053 | a step stores a `totcor` histogram for every live channel |
| EngineSpec.StepRows | src/calib.cpp:760-986 | live rows are refitted from the histogram the event loop filled |
| EngineSpec.PreparedBookMissesTotcor | src/calib.cpp:636-758 | the booking adds no `totcor` histogram |
| EngineSpec.StepEngineStore | src/calib.cpp:980-983 | the store and rows after a step are those the correction update leaves, and the iteration is the next one |
| EngineSpec.EventLoopAxis | src/calib.cpp:792-975 | the event loop keeps the fitted histogram's axis and adds no `totcor` |
| EngineSpec.NextStepLookup | src/calib.cpp:360-377 | after a step a live channel's TOT is binned on its current edges and a dead channel reads bin 0 |
| EngineSpec.LoopLookup | src/calib.cpp:360-377 | the next iteration's lookup in the store the correction update leaves |
| EngineSpec.RepeatAdvances | src/calib.cpp:1001-1008 | a repeated step keeps the state well formed, advances the iteration by the count and loses no histogram |
| EngineSpec.RepeatKeepsRow | src/calib.cpp:1001-1008 | a row every step keeps is kept by the loop |
| EngineSpec.IterateKeys | src/calib.cpp:1001-1008 | after `count` steps the iteration has advanced by `count` and no histogram was lost |
| EngineSpec.IterateDeadRows | src/calib.cpp:1001-1008 | after any number of steps a dead channel's row is as it was |
| Calibration.Row | src/calib.cpp:32-37 | a row of a table holds that row's cells |
| Calibration.Rows | src/calib.cpp:32-37 | the rows of a table, one per channel |
| Calibration.Calib.StepEnv | src/calib.cpp:760-986 | the tables a step reads are well formed |
| Calibration.Calib.RunOf | src/calib.cpp:760-986 | what a step never changes is well formed |
| Calibration.Calib.EngineOf | src/calib.cpp:760-986 | what a step changes is well formed |
| Calibration.Calib.ExportTables | src/calib.cpp:1096-1132 | the tables `writeParameters` reads are well formed |
| Calibration.Calib.constructor | src/calib.cpp:19-68 | the bin count is the configured one or the default; corrections and offsets are zero; no channel is dead; the iteration is 0; the store is empty and named from the configuration |
| Calibration.Calib.BinForTOT | src/calib.cpp:360-377 | the bin of `tot` on last iteration's `totcor` of the channel, or 0; the cursor is restored |
| Calibration.Calib.GetCorrection | src/calib.cpp:345-358 | the correction of the channel's bin of `tot`; the store is unchanged |
| Calibration.Calib.SetUniformRow | src/calib.cpp:300-311 | the row takes the equal-width edges; no other row changes |
| Calibration.Calib.SetAdaptiveRow | src/calib.cpp:313-331 | the row takes the equal-population edges; no other row changes |
| Calibration.Calib.BinTOT | src/calib.cpp:224-343 | fixed binning: every row is equal-width and the dead flags are unchanged; variable binning: every row is the channel's edges and a channel is dead exactly when it has too few samples |
| Calibration.Calib.CollectSamples | src/calib.cpp:254-291 | every channel's collected samples, in event order |
| Calibration.Calib.AddEventSamples | src/calib.cpp:265-289 | one event appends each channel's sample |
| Calibration.Calib.OutlierRejection | src/calib.cpp:507-634 | the usable flags and the equal bank flags are those of outlier rejection; the store is unchanged |
| Calibration.Calib.RejectionLoops | src/calib.cpp:523-608 | the pairing loops on this event's corrected times |
| Calibration.Calib.VertexCut | src/calib.cpp:523-533 | the vertex cut of the iteration |
| Calibration.Calib.ChannelTime | src/calib.cpp:553-575 | whether the channel is live, and its corrected time |
| Calibration.Calib.ChannelTimes | src/calib.cpp:553-608 | a lookup per channel gives the event's pairing |
| Calibration.Calib.PairBanks | src/calib.cpp:540-608 | west entries are cleared, then every accepted pair makes both channels usable; the result says whether any pair was accepted |
| Calibration.Calib.PairWithEast | src/calib.cpp:566-606 | a live west channel is paired with every east channel it is accepted with; other channels are untouched |
| Calibration.Calib.PrepareStepHistograms | src/calib.cpp:636-758 | the store and cursor after booking are `PreparedBook` |
| Calibration.Calib.BookChannels | src/calib.cpp:647-718 | the store after the channel loop is `ChannelsBook` over all channels |
| Calibration.Calib.BookOutliers | src/calib.cpp:723-746 | the four outlier histograms booked in "OutlierRejection", where the cursor stays |
| Calibration.Calib.BookOffsetCheck | src/calib.cpp:636-645 | the corrected-offsets histogram is booked when missing |
| Calibration.Calib.BookChannel | src/calib.cpp:655-716 | the seven bookings of a channel in its directory |
| Calibration.Calib.AverageN | src/calib.cpp:1201-1306 | the store is unchanged and the cursor is left in the last west channel |
| Calibration.Calib.MakeCorrections | src/calib.cpp:1011-1094 | the store and rows after `makeCorrections` are `Corrections` over all channels |
| Calibration.Calib.UpdateRow | src/calib.cpp:1055-1065 | only the channel's row changes, to the corrected row |
| Calibration.Calib.SameBankCut | src/calib.cpp:769-773 | the bank-average cut of the iteration |
| Calibration.Calib.AliasLoop | src/calib.cpp:822-837 | the locals after the alias loop are `Aliased`; the store is unchanged |
| Calibration.Calib.BankAverages | src/calib.cpp:855-934 | the averages of channel j's bank |
| Calibration.Calib.BankSums | src/calib.cpp:855-872 | per bank the count and sum over the counted channels |
| Calibration.Calib.SumStep | src/calib.cpp:857-870 | one channel of the first averaging loop adds its time and one count to its bank exactly when it is counted |
| Calibration.Calib.CutSums | src/calib.cpp:883-904 | per bank the count and sum over the channels within the cut |
| Calibration.Calib.CutStep | src/calib.cpp:885-902 | one channel of the cut loop extends its bank's cut count and sum exactly when it is counted and within the cut |
| Calibration.Calib.FillChannel | src/calib.cpp:907-972 | the store gains exactly channel j's fills; the cursor ends in j's directory when j is handled |
| Calibration.Calib.OffsetCheckFill | src/calib.cpp:907-914 | the offset check fill of iteration 0 |
| Calibration.Calib.FillInChannel | src/calib.cpp:941-972 | the `avgN`, `cutAvgN` and gated fills of a handled channel |
| Calibration.Calib.CutAvgFill | src/calib.cpp:960-961 | the `cutAvgN` fill |
| Calibration.Calib.GatedFill | src/calib.cpp:963-972 | the `tdctot`, `tdccor` and `tdc` fills, none when at most `minHits` channels were counted or none passed the cut |
| Calibration.Calib.AvgNLoop | src/calib.cpp:941-958 | one `avgN` fill per counted channel of the bank |
| Calibration.Calib.AvgNFill | src/calib.cpp:942-951 | a counted channel adds one `avgN` fill when the mean is not 0; nothing otherwise |
| Calibration.Calib.FillLoop | src/calib.cpp:841-974 | the store gains exactly the event's fills, in channel order |
| Calibration.Calib.ProcessEvent | src/calib.cpp:792-974 | the new usable flags, bank flags, locals, store and cursor are `EventStep` of the old ones |
| Calibration.Calib.Step | src/calib.cpp:760-986 | the engine state after `step` is `StepEngine`, and what a step never changes is unchanged |
| Calibration.Calib.Loop | src/calib.cpp:1001-1008 | the engine state after `loop` is `Iterate`; the iteration advanced by `maxIterations`; no histogram was lost; dead rows are unchanged |
| Calibration.Calib.StepLoop | src/calib.cpp:1003-1006 | the loop of `loop`, step by step |
| Calibration.Calib.StepEvents | src/calib.cpp:786-975 | the booking and the event loop |
| Calibration.Calib.StepCorrect | src/calib.cpp:980-983 | the correction update, then the increment |
| Calibration.Calib.NextIteration | src/calib.cpp:983 | the iteration advances by one |
| Calibration.Calib.EventPass | src/calib.cpp:792-975 | the usable flags, bank flags, store and cursor after the pass are those of `EventLoop` |
| Calibration.Calib.PassEvent | src/calib.cpp:792-975 | one event advances the state after the events before it to the state after it |
| Calibration.Calib.WriteParameters | src/calib.cpp:1096-1132 | the written file is `Export` of the tables |
| Calibration.Calib.ChannelRecord | src/calib.cpp:1108-1128 | the record of one channel |
| Calibration.Calib.EdgeTokens | src/calib.cpp:1111-1116 | the channel's n + 1 edges |
| Calibration.Calib.CorrectionTokens | src/calib.cpp:1117-1127 | the exported corrections of the channel |
| Calibration.Calib.ReadParameters | src/calib.cpp:1134-1192 | the tables and iteration after `readParameters` are `ImportFile` of the old ones |
| Calibration.Calib.ReadRecordInto | src/calib.cpp:1148-1181 | one pass of the read loop, as `ReadRecord` states it |
| Calibration.ReadList | src/calib.cpp:1162-1172 | the row starts with the values read; nothing else changes; `tmp` holds the last value |
| Calibration.ReadCells | src/calib.cpp:1162-1172 | entry c of the row holds the c-th value read, the stream is the one after the reads, and no other cell changes |
| Calibration.Calib.EventCuts | src/calib.cpp:809-816 | the event passes the transverse vertex, hit count and z cuts |
| AdjustStartTime.ClampEdge | script/adjustStartTime.C:32-38 | an edge above 40 ns becomes 40; any other is kept |
| AdjustStartTime.ShiftCorrection | script/adjustStartTime.C:45-51 | a correction of exactly 0 is kept; any other is moved by minus the mean |
| AdjustStartTime.CopyEdgeLoop | script/adjustStartTime.C:30-39 | nBins + 1 edges read, clamped and written |
| AdjustStartTime.CopyCorrectionLoop | script/adjustStartTime.C:43-53 | nBins + 1 corrections read, shifted and written |
| AdjustStartTime.CopyRecordOnce | script/adjustStartTime.C:22-54 | one record: header, edges, corrections |
| AdjustStartTime.CopyRecordLoop | script/adjustStartTime.C:20-56 | 38 records copied |
| AdjustStartTime.Adjust | script/adjustStartTime.C:5-64 | the output is `Adjusted` of the input file |
| AdjustStartTime.ClampAll | script/adjustStartTime.C:30-39 | one output edge per edge |
| AdjustStartTime.ShiftAll | script/adjustStartTime.C:43-53 | one output correction per correction |
| AdjustStartTime.ClampAllAt | script/adjustStartTime.C:30-39 | every output edge is the clamped edge |
| AdjustStartTime.ShiftAllAt | script/adjustStartTime.C:43-53 | every output correction is the shifted one |
| AdjustStartTime.AdjustRecord | script/adjustStartTime.C:20-56 | a record keeps its channel and bin count and stays well formed |
| AdjustStartTime.AdjustRecordValues | script/adjustStartTime.C:30-53 | every edge of the transform is at most 40 ns and every correction is the shifted one |
| AdjustStartTime.AdjustAll | script/adjustStartTime.C:20-56 | one output record per record |
| AdjustStartTime.CopyEdgesOfReals | script/adjustStartTime.C:30-39 | reading a list of edges writes the clamped list |
| AdjustStartTime.CopyCorrectionsOfReals | script/adjustStartTime.C:43-53 | reading a list of corrections writes the shifted list |
| AdjustStartTime.CopyRecordOfEncoded | script/adjustStartTime.C:22-54 | reading one encoded record writes the encoding of its transform |
| AdjustStartTime.CopyRecordsOfEncoded | script/adjustStartTime.C:20-56 | reading encoded records writes the encoding of their transforms |
| AdjustStartTime.AdjustedEncoded | script/adjustStartTime.C:5-64 | on a file of 38 well-formed records the output is exactly the 38 transformed records in the same layout |
| AdjustStartTime.ClampAllIdentity | script/adjustStartTime.C:34-37 | edges of at most 40 ns are kept |
| AdjustStartTime.ShiftAllIdentity | script/adjustStartTime.C:45-51 | a zero shift keeps every correction |
| AdjustStartTime.AdjustAllIdentity | script/adjustStartTime.C:20-56 | with a zero shift and edges of at most 40 ns every record is kept |
| AdjustStartTime.IdentityAtZeroShift | script/adjustStartTime.C:5-64 | with mean 0 the script reproduces a file of 38 records whose edges are all at most 40 ns |

## Left out

- Reading events from the ROOT chain: the events are a sequence parameter of the constructor. Each event reduces to the fields the calibration reads.
- The constants header is not part of this model:
  - the channel layout is taken from the 1..38 check of `readParameters` and the 38 records of the script;
  - `minTOT`, `maxTOT`, `minHits`, the speed of light and the default bin count are parameters with unknown values;
  - `minTOT` and `maxTOT` are taken to be doubles, so the dead-channel step `(maxTOT - minTOT) / numTOTBins` of `binTOT` (src/calib.cpp:302), written without a cast, is real division. Were they integers, that step would truncate and the dead-channel edges would not end at `maxTOT`.
- `FitSlicesY`, `ProjectionY`, `GetMean` and `TGraph`/spline construction are the statistics engine's. The slice fit is a function parameter (`SliceFit`). The splines, canvases, `savePage`, the global style, the legend and the drawing are left out.
- The TFile and its directories are not modelled. They are a ghost set of created directory names.
- `TAxis::FindBin` is applied to the variable-edge x axes of the `totcor` histograms (cloned from the channel's TOT binning). It is modelled as ROOT's `1 + TMath::BinarySearch`, a lower-bound search, so a value equal to a repeated edge lands at its first copy. On a fixed-width axis ROOT computes the bin arithmetically; the model searches the equal-width edges instead, which gives the same bin on exact reals. Floating-point rounding at the edges is not modelled.
- Real numbers stand for `double`. NaN and infinities are not modelled:
  - a fill whose value would be 0/0 is not recorded, since ROOT puts a NaN in no in-range bin. With no channel in the cut this is the `cutAvgN` fill and the three gated fills `tdctot`, `tdccor` and `tdc`, which the source still makes whenever more than `minHits` channels were counted. ROOT still counts those as entries, outside the in-range bins; the model records nothing.
  - a mean over no channel is given the value 0.
- The transverse vertex cut of `step` compares squares instead of taking a square root. `float` vertex coordinates are reals.
- Stream formatting of numbers is not modelled: a file is a sequence of integer and real tokens, and a real token carries the real itself. The source writes every double with a bare `<<` and never sets a precision (src/calib.cpp:1114 and 1125, script/adjustStartTime.C:38 and 51), so it writes 6 significant digits: 12.3456789 becomes "12.3457". The round trips below hold exactly only in the model; in the program they hold up to that rounding:
  - Parameters.RoundTripEdges and Parameters.RoundTripCorrections: importing an exported file restores the tables only to 6 significant digits;
  - AdjustStartTime.AdjustedEncoded and AdjustStartTime.IdentityAtZeroShift: the script's output matches the transformed records, or its input, only to 6 significant digits.
- Integer extraction from a real-valued token is modelled as storing 0 and failing the stream. C++11 instead reads the digit prefix ("1.5" reads as 1 and succeeds) and stores 0 only when no digit starts the token; the partial read is not modelled.
- Timers, console output and the progress bar are left out.
- Calibration.Calib.BinTOT and Calibration.Calib.Step: the progress test `i % (int)(nevents / 150)` (src/calib.cpp:261 and 799) divides by zero at i = 1 when the chain holds 2 to 149 events, so the source aborts there. The model leaves the test out and completes for every event sequence; Calibration.Calib.Loop, which runs Step, completes likewise.
- `zVtxPairs`, `detectorResolution`, `offsets` and the remaining phases of the program are not part of the core modelled here. Nor is `src/utils.cpp`.
- The histograms of outlier rejection (`it<N>All`, `nValidPairs`, `nAcceptedWest`, `nAcceptedEast`) are booked but never filled in this model. The `avgNB`/`cutAvgNB` fills of `averageN` are also left out.
- StepSpec.TdcTotGating: with no channel in the cut it states that `tdctot` receives nothing, where the source fills a 0/0 value (see the NaN line above).
- Calibration.Calib.FillInChannel: its gated fills are made only when some channel passed the cut; the source also makes them, with 0/0 values, when none did.
- Calibration.Calib.GatedFill: records nothing when no channel passed the cut, where the source fills three 0/0 values.
- Calibration.Calib.AverageN: only its lasting effect is stated, namely leaving the cursor in the last west channel's directory. Its fills are left out: no step ensures reads them.
- Calibration.Calib.OutlierRejection: does not state the diagnostic fills, as above.
- Calibration.Calib.ChannelTimes: each channel's correction is looked up once before the pairing loops, while the source looks it up inside them. A lookup changes nothing but the cursor, which it restores, so the times are the same.
- Calibration.Calib.GetCorrection: a bin past the row reads correction[ch][n+1], beyond the array. The model takes the word stored there as the constructor parameter `pastEnd`. `writeParameters` reads the same word.
- Calibration.Calib.constructor: the step's uninitialised local arrays start at zero in the model (`EngineSpec.ZeroChans`). In C++ their first values are indeterminate.
- Parameters.RoundTripEdges: stated only for at most 50 bins. For more bins the reader takes n values per list while the writer writes n + 1, so the records fall out of step.
- Parameters.RoundTripCorrections: stated only for at most 50 bins, for the same reason.
- Parameters.ImportIteration: a missing file also sets iteration 5. The source does this unconditionally after the open, and the model keeps it.
- EngineSpec.NextStepLookup: stated only for a non-negative iteration.
- HistoBook.Book.Get: the `stringstream` overload is `get` of the stream's string and is not modelled separately. The null entries that `map::operator[]` inserts on a lookup miss are not represented.
