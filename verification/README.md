# Verified model of a Minstrel rate controller

A Dafny model of the rate control of an SDIO Wi-Fi driver: which modulation rate each frame is
sent at, learnt from which earlier frames were acknowledged. For every peer the driver keeps a
table of eleven groups of ten rates. Completions of frames credit its cells; every 50 ms the
counts are folded into 12-bit fixed-point averages, the lists of the best rates and the retry
chain are rebuilt, and random permutations decide which other rates are probed. A peer without
HT or VHT is served by an older engine with one flat list. The driver's clock self-check is a
small second subject.

## How it is built

The HT/VHT engine is written twice. `HtStation.Station` is the engine as the driver runs it: a
class whose methods change its fields with the source's loops. The modules `HtUpdate`,
`HtRates`, `HtSample`, `HtStatus` and `Driver` define each step as a function on states
(`HtState.Ht`). Every method is proved to change the object exactly as the function says, and
what the source promises is proved about the functions: sorted lists against a stable sort that
is characterised on its own, retry counts as the unique largest number that fits, loops with
explicit measures, and invariants over runs of any length (`Runs`).

| file | subject |
|---|---|
| `FixedPoint`, `RateStats`, `Throughput` | fractions, moving average and variance, one cell's statistics, estimated throughput |
| `RateGroups`, `TopRates`, `SampleTable` | rate table, air times and encoding; bounded insertion; random columns |
| `HtState`, `HtUpdate`, `HtSweep`, `HtFallback` | station state and invariant, periodic update, the update one rate at a time, the fallback it leaves |
| `HtRates`, `Airtime`, `HtSample`, `HtStatus` | retry chain, retry budget, probing, completion reports |
| `HtCounts`, `HtDowngrade` | over whole runs: the numbers of tries in the table, and what becomes of failing rates |
| `Signal`, `Driver`, `HtCap`, `Runs` | signal gate, driver glue, the MCS 6 cap, whole runs |
| `PeerLow`, `PeerCap` | which peers an access point keeps to MCS 6 |
| `ApTables`, `ApSteps`, `ApSampling`, `ApStart`, `ApMoves` | runs of an access point as moves on a table of estimates: the lists that follow from it, completions, requests, start-up, and what runs are made of |
| `ApFive`, `ApWide`, `ApSix`, `ApSeven`, `ApCap` | the runs that exceed the cap for all other peers, and the exact condition |
| `StaleRun`, `CckRun` | a run that leaves a fallback which is not the most reliable rate, and one that raises a CCK rate beyond CCK |
| `HtStation` | the engine as an object |
| `Legacy`, `ClockMeasure` | the legacy engine, the clock check |

Conventions. `Sound` is the type of states that satisfy the invariant `HtState.Inv`. A cell is
`group * 10 + rate`. C's truncating division is `CDiv`; 32-bit and 16-bit stores are written out
as remainders where they can drop bits. Rate masks are sets of bit numbers, the flags of a rate
a record. The `groups`, list and index arrays embedded in the station are `seq` fields that the
methods reassign; the scratch lists, the chain of a frame and the sample tables are arrays that
are changed in place. Random bytes, the signal, "the interval has elapsed" and what a
completion reports are inputs.

## Where the code and its promises part

- The driver's readme (`readme.md:29`, `readme.md:35`) says that the access point is capped at
  MCS 6. The code checks a probe against the signal only when it is not an access point
  (`driver/vmac/rc80211_minstrel_init.c:826-828`). `ApCap.ApCapFailsExactly` says for which peers
  the cap fails, reading only the peer's capabilities (`PeerCap.MayExceed`): those with VHT; with
  HT rates 6 and 7; with HT rates 5 and 6, unless CCK follows the one HT group in the sampling
  order and so catches the walk; or with HT rates 5 and 7, if rate 5 can be reached from a rate
  3 or 4. That takes HT rate 3 or 4, or rate 3 of CCK, which at 20 MHz is seeded and on a wider
  channel is itself reached from HT rate 1 or 2. On both platforms (power offsets 6 and 10) and
  with a link as wide as the peer's channel, some run from start-up hands each of these peers
  MCS 7, and no run hands it to any other peer. Every peer that the driver itself describes, with
  all eight HT rates or VHT, is among them at each bandwidth (`ApCap.EveryPeerCanExceed`). For
  stations the cap is proved over every run with every peer (`Runs.StationNeverExceedsMcs6`).
- A chain that is handed out encodes rates of the table, so that its completion credits those,
  unless the access point's floor raises a CCK entry above 3, the last CCK rate
  (`Driver.HandedChainNamedExactly`, `Runs.EveryCompletionCreditsItsRates`). Then it encodes no
  rate, and its report is credited to a slot that no rate of the peer uses
  (`Driver.RaisedReport`). `CckRun.CckIsRaised` is a run from start-up that gets there.
- The average aggregate length must stay at one frame or more, since throughput divides by its
  whole part. It falls below in two ways. `MINSTREL_FRAC` shifts a 32-bit count by twelve, which
  fails after 2^20 frames in one interval (`HtUpdate.LongIntervalBreaksAverage`). And
  `minstrel_ewma` multiplies in a signed `int`, which overflows from an aggregate of 2^14 + 1
  frames on and breaks the average at 2^19 (`HtUpdate.AggregateLimitIsTight`,
  `HtUpdate.LongAggregateBreaksAverage`). `HtUpdate.AverageSurvivesExactly` gives the exact
  condition for intervals, aggregates and averages of any length. The run theorems assume
  aggregates of at most 2^14 frames, fewer than 2^20 frames per interval; the driver's own limit
  is 64 frames per aggregate (`driver/vmac/wifi_drv_config.h:14`).
- The throughput estimate multiplies an `int` estimate by 1000000, which overflows for every
  estimate from 52 % to 90 %; the conversion to unsigned that follows restores the exact product
  (`Throughput.SignedProductWraps`).
- The fallback should be the most reliable of the offered rates up to 75 %. It is, whenever the
  previous fallback's estimate does not fall in the update (`HtFallback.UnfallenFallback`). When
  it falls, rates that the sweep passes before it still compete with its old estimate. The
  fallback ends up below such a rate exactly if the previous one falls below it, nothing before
  it in the sweep beats its old estimate, and nothing behind it makes up for the fall
  (`HtFallback.FallbackSpoiledExactly`). `StaleRun.FallbackGoesStale` is a run from start-up whose
  last update does so. Above 75 % throughput decides; `HtFallback.AboveExactly` says when the
  fallback gets there, and `HtFallback.AboveIsFastest` what it then has over later rates.
- The legacy engine's most reliable rate may be neither: after one interval with 60 % at
  11 Mbit/s, 97 % at 6 Mbit/s and 60 % at 9 Mbit/s the last one is chosen
  (`Legacy.ReliablePassedOver`); `Legacy.ReliableExactly` says when one of 95 % is.
- A completion with an acknowledged frame but no try of the entry it is credited to leaves more
  successes than attempts (`HtStatus.UntriedAckBreaksCell`); with a try it never does
  (`HtStatus.CreditKeepsCells`).
- A configured limit below three tries is exceeded by the retry loop, which tests it only after
  granting a third (`Airtime.LimitRespectedExactly`).
- The clock check's 32-bit products wrap: `ClockMeasure.ExactClockAccepted` and
  `ClockMeasure.AcceptedIsWithin` state exactly where it still accepts exact clocks and where its
  verdict is right.
- Kept as the code has them: index 0 fills empty list places even if group 0 is not supported;
  a group's list covers all groups up to its own, because the scratch list is not reset; the
  result of `minstrel_check_sample_idx` is ignored, so a probe may be an unsupported rate; the
  clamps to MCS 7 at start-up never act, because the gate permits 6 at most.

## Model

| member | source | states |
|---|---|---|
| FixedPoint.FracBound | driver/vmac/rc80211_minstrel.h:11-13 | a ratio of at most one is at most 1.0 even if the shift drops bits, and exact below 2^20 |
| FixedPoint.FracAtLeastOne | driver/vmac/rc80211_minstrel.h:11-13 | below 2^20 a ratio of one or more is at least 1.0 |
| FixedPoint.EwmaStep | driver/vmac/rc80211_minstrel.h:20-29 | without overflow, one average step covers exactly a quarter of the distance, rounded toward the old value, never overshoots, and stands still exactly within three units |
| FixedPoint.EwmaWordStep | driver/vmac/rc80211_minstrel.h:20-29 | with every intermediate stored into an `int`, a step adds a quarter of what the product by 32 keeps of the distance, its residue modulo 2^27 |
| FixedPoint.EwmaFitsExactly | driver/vmac/rc80211_minstrel.h:20-29 | the stored step is the exact one if and only if the distance is from -2^26 to below 2^26 |
| FixedPoint.FractionsFit | driver/vmac/rc80211_minstrel.h:20-39 | on fractions no `int` intermediate of the average or the variance overflows |
| FixedPoint.DeviationProduct | driver/vmac/rc80211_minstrel.h:31-39 | the value under the variance's right shift is never negative and is bounded |
| FixedPoint.VarianceBound | driver/vmac/rc80211_minstrel.h:31-39 | the variance stays within 3072, and 3072 is its exact fixed point |
| FixedPoint.VarianceExactly | driver/vmac/rc80211_minstrel.h:31-39 | the new variance is three quarters of the old one and the product of the deviation and its whole quarter; without deviation it fades |
| FixedPoint.Convergence | driver/vmac/rc80211_minstrel.h:20-29 | toward a constant target the estimate is monotone, never overshoots, and from the 27th step stays put within three units |
| RateStats.FoldKeepsBounds | driver/vmac/rc80211_minstrel.c:105-130 | folding keeps every bound of a cell, no 16-bit store drops a bit, and the average is what its `int` computation gives |
| RateStats.FoldConserves | driver/vmac/rc80211_minstrel.c:105-130 | folding loses nothing: the counts of the interval move to the history and to the last-interval fields; without attempts the estimates stay |
| RateStats.BoundsOverRuns | driver/vmac/rc80211_minstrel.c:105-130 | over every run of honest intervals the estimate stays within 1.0 and the variance within 3072 |
| RateStats.SteadyLinkTracks | driver/vmac/rc80211_minstrel.c:105-120 | a cell on a steady link follows the tracked moving average step by step; without a history it starts at the ratio |
| RateStats.SteadyLinkSettles | driver/vmac/rc80211_minstrel.c:105-120 | after 28 steady intervals any cell, with or without a history, is within three units of the ratio and stays |
| RateStats.ClearForgets | driver/vmac/rc80211_minstrel_ht.c:324-353 | after a clear the next estimate depends only on what was sent since plus one failure; with nothing sent it is 0 |
| Throughput.TpFits | driver/vmac/rc80211_minstrel_ht.c:129-150 | no unsigned 32-bit intermediate overflows for any supported rate |
| Throughput.SignedProductWraps | driver/vmac/rc80211_minstrel_ht.c:146-149 | the `int` product overflows exactly from an estimate of 2148 up to 90 %, and converted to unsigned it is still the exact product |
| Throughput.TpMonotone | driver/vmac/rc80211_minstrel_ht.c:129-150 | a better success estimate never lowers the throughput estimate |
| Throughput.TpExactly | driver/vmac/rc80211_minstrel_ht.c:129-150 | the estimate from its inputs alone: with n whole frames in the average aggregate and the whole share t of the overhead per frame (none for CCK), 100/4096 of the whole q with q times the frame time not above a million times the success estimate, which counts up to 90 %; nothing below 10 % |
| Throughput.TpGrows | driver/vmac/rc80211_minstrel_ht.c:129-150 | a longer average aggregate and a shorter air time never lower the estimate |
| RateGroups.DurationPositive | driver/vmac/rc80211_minstrel_ht.h:66-175 | a slot has an air time exactly when its group defines the rate, and then within sane limits |
| RateGroups.McsDurationOrder | driver/vmac/rc80211_minstrel_ht.h:66-175 | air time falls from rate to rate, with the short guard interval and with each bandwidth; VHT takes as long as HT |
| RateGroups.CckDurationOrder | driver/vmac/rc80211_minstrel_ht.h:66-175 | for CCK it falls from rate to rate and with the short preamble |
| RateGroups.MasksAreValid | driver/vmac/rc80211_minstrel_ht.c:1040-1113 | for any peer the masks name only defined rates, no group wider than the peer's channel, and no MCS 9 at 20 MHz |
| RateGroups.MaskExactly | driver/vmac/rc80211_minstrel_ht.c:1040-1113 | a rate is in the mask of a group if and only if the peer has the channel width, the guard interval and the rate, HT groups only without VHT |
| RateGroups.VhtRatesExactly | driver/vmac/rc80211_minstrel_ht.c:45-76 | the two bits of the map mean rates up to 7, 8, 9 or none, and 20 MHz has no rate 9 |
| RateGroups.CreditReturnsToCell | driver/vmac/rc80211_minstrel_ht.c:95-121 | encoding a cell and looking up the report is the identity exactly on the real slots, in particular on every supported rate |
| TopRates.SortIntoIsStableSort | driver/vmac/rc80211_minstrel_ht.c:152-184 | insertion without the bound of four is the stable descending sort |
| TopRates.StableSortUnique | driver/vmac/rc80211_minstrel_ht.c:152-184 | a sequence has only one stable descending sort, so the specification determines the list |
| TopRates.TopFourIsStableSort | driver/vmac/rc80211_minstrel_ht.c:152-184 | bounded insertion equals the first four of the stable sort of four placeholders and the offered rates |
| TopRates.TopIntoHead | driver/vmac/rc80211_minstrel_ht.c:152-184 | the list stays descending and nothing listed or offered outranks its head |
| TopRates.TopIntoElements | driver/vmac/rc80211_minstrel_ht.c:152-184 | a rate without throughput and success estimate is never inserted |
| HtState.InvMeasurable | driver/vmac/rc80211_minstrel_ht.c:129-150 | in every state of the invariant no throughput division is by zero |
| HtUpdate.ListsAreStableSorts | driver/vmac/rc80211_minstrel_ht.c:374-418 | every list of the update is the head of the stable sort of the placeholders and the supported rates visited |
| HtUpdate.PrimaryIsBest | driver/vmac/rc80211_minstrel_ht.c:233-257 | after the CCK merge the primary rate attains the largest throughput of all supported rates |
| HtUpdate.NewKeysExactly | driver/vmac/rc80211_minstrel_ht.c:364-412 | what these lists rank by: the folded success estimate, and the throughput formula at that estimate with the new average aggregate |
| HtUpdate.UpdateGrantsProbes | driver/vmac/rc80211_minstrel_ht.c:372-385 | an update grants ten refills of the probe budget per supported group |
| HtUpdate.ListsInRange | driver/vmac/rc80211_minstrel_ht.c:374-418 | a group's list names only groups up to its own |
| HtUpdate.UpdateKeepsInv | driver/vmac/rc80211_minstrel_ht.c:355-443 | the update keeps every bound of the state |
| HtUpdate.AverageSurvivesExactly | driver/vmac/rc80211_minstrel_ht.c:364-369 | exactly when the average aggregate length stays at one frame or more, in the code's own 32-bit arithmetic, for any interval, any aggregate and any 32-bit average |
| HtUpdate.LongIntervalBreaksAverage | driver/vmac/rc80211_minstrel_ht.c:364-369 | 2^20 single frames in an interval push the average below one frame |
| HtUpdate.LongAggregateBreaksAverage | driver/vmac/rc80211_minstrel_ht.c:364-369 | one aggregate of 2^19 frames turns an average of one frame into three quarters of one |
| HtUpdate.AggregateLimitIsTight | driver/vmac/rc80211_minstrel_ht.c:364-369 | from an average of one frame, a single aggregate is averaged correctly if and only if it has at most 2^14 frames |
| HtUpdate.NewAvgAtLeastOne | driver/vmac/rc80211_minstrel_ht.c:364-369 | within the two limits the average stays between one frame and 2^14, computed without overflow |
| HtUpdate.ClearedRateLeavesLists | driver/vmac/rc80211_minstrel_ht.c:324-443 | a cleared rate that was not sent since is in no list after the next update |
| HtSweep.OfferOne | driver/vmac/rc80211_minstrel_ht.c:393-409 | inserting with the half-updated table gives the same list as with the final one |
| HtFallback.HoldsExactly | driver/vmac/rc80211_minstrel_ht.c:186-231 | the previous fallback is still in place when the sweep comes to it if and only if no offered rate before it beats its old estimate |
| HtFallback.FallbackCovers | driver/vmac/rc80211_minstrel_ht.c:186-231 | at every point of the sweep no offered rate up to 75 % that was passed has a higher estimate than the fallback, unless the previous one has fallen below it |
| HtFallback.FallbackLeads | driver/vmac/rc80211_minstrel_ht.c:186-231 | behind a fallen fallback the sweep keeps the first of the most reliable rates up to 75 %, as long as none above 75 % is faster |
| HtFallback.FallbackSpoiledExactly | driver/vmac/rc80211_minstrel_ht.c:186-231 | for the station and for each group: after an update an offered rate up to 75 % has a higher estimate than the fallback if and only if the previous fallback fell below it, held its place until then, and nothing behind makes up for it |
| HtFallback.UnfallenFallback | driver/vmac/rc80211_minstrel_ht.c:396-418 | for the station and for each group: if the previous fallback did not fall, no offered rate up to 75 % has a higher estimate than the new one |
| HtFallback.AboveExactly | driver/vmac/rc80211_minstrel_ht.c:186-231 | for the station and for each group: after an update the fallback is above 75 % if and only if the previous one is and held its place, or some offered rate above 75 % was faster than the fallback when the sweep came to it |
| HtFallback.AboveIsFastest | driver/vmac/rc80211_minstrel_ht.c:186-231 | once one has taken over, no offered rate above 75 % that the sweep passes later is faster than the fallback |
| HtFallback.UpdatedFallback | driver/vmac/rc80211_minstrel_ht.c:396-418 | if the previous fallback was above 75 % and did not fall, the new one is above 75 % and no offered rate above 75 % is faster |
| StaleRun.CompletedFallback | driver/vmac/rc80211_minstrel_ht.c:655-670 | after a completion with an update the fallback is the rate that has risen above all others, or the previous one that has fallen below an earlier rate only, and the correction keeps it below a reliable primary rate |
| StaleRun.FallbackGoesStale | driver/vmac/rc80211_minstrel_ht.c:186-231 | on either platform a run from start-up ends with an update after which an offered rate up to 75 % has a higher estimate than the fallback |
| HtRates.PrimaryCorrected | driver/vmac/rc80211_minstrel_ht.c:259-272 | the primary becomes the highest rate at or below it in its group with 50 % success, or rate 0 |
| HtRates.FallbackCorrected | driver/vmac/rc80211_minstrel_ht.c:274-298 | the fallback's number falls below the primary's unless both are 0; a replaced one is the best-ranked candidate of its group |
| HtRates.ModifyIdempotent | driver/vmac/rc80211_minstrel_ht.c:259-298 | correcting twice is correcting once |
| HtRates.LowerGroup | driver/vmac/rc80211_minstrel_ht.c:575-597 | the search finds the highest usable lower group, or there is none |
| HtRates.DowngradeProgress | driver/vmac/rc80211_minstrel_ht.c:575-597 | a downgrade keeps the rate or strictly lowers its group |
| HtDowngrade.FailingExactly | driver/vmac/rc80211_minstrel_ht.c:650-664 | a rate fails exactly with more than 30 attempts and a ratio below 819/4096 |
| HtDowngrade.DowngradedFalls | driver/vmac/rc80211_minstrel_ht.c:575-597 | a downgraded rate becomes entry j, its own place among the best rates, of the stable sort of all supported rates up to the highest usable lower group by the keys of the last update; without such a group, and for CCK, it stays |
| HtDowngrade.FallsToBest | driver/vmac/rc80211_minstrel_ht.c:575-597 | no supported rate up to that group has a higher throughput than the new primary |
| HtDowngrade.ReportDowngrades | driver/vmac/rc80211_minstrel_ht.c:599-672 | a report between updates: exactly the failed ones of the two best rates fall so, then the table is rebuilt from the corrected primary, the second and the fallback; if none failed, lists and table stay |
| HtDowngrade.EveryReportDowngrades | driver/vmac/rc80211_minstrel_init.c:908-977 | in every run every completion between updates does so, with the keys of an update that built the lists |
| HtRates.DowngradesBounded | driver/vmac/rc80211_minstrel_ht.c:575-597 | a chain of downgrades is no longer than the group number |
| HtRates.RetryBudget | driver/vmac/rc80211_minstrel_ht.c:674-726 | below 10 % one try each, else two or three with protection never more than without |
| HtRates.RetriesExactly | driver/vmac/rc80211_minstrel_ht.c:674-726 | from 10 % on a third try is granted, without and with protection, if and only if three tries, each of back-off, overhead (none for CCK) and the air time of an average aggregate in 32 bits, take less than 6 ms |
| HtCounts.TableCounts | driver/vmac/rc80211_minstrel_ht.c:728-803 | each entry of a rebuilt table has three tries if its rate is at 20 % or more and three fit, the later entries with protection; else two |
| HtCounts.ReportCounts | driver/vmac/rc80211_minstrel_ht.c:599-672 | reports keep budgets that are marked as up to date equal to those of the present state |
| HtCounts.EveryTableIsCounted | driver/vmac/rc80211_minstrel_init.c:908-977 | in every run, from the first update on, the table in force has these counts |
| HtRates.AirTimesFit | driver/vmac/rc80211_minstrel_ht.c:711-720 | the 32-bit sums of air times behind the retry counts never wrap |
| HtRates.UpdateRatesSpec | driver/vmac/rc80211_minstrel_ht.c:777-803 | the table encodes the corrected primary, the second-best and the corrected fallback, ends there, and no estimate changes |
| Airtime.RetryCount | driver/vmac/rc80211_minstrel_ht.c:674-726 | the retry count is the one number of tries that fits the segment while one more does not, two at least |
| Airtime.CountRetries | driver/vmac/rc80211_minstrel_ht.c:694-725 | the loop ends with exactly the two budgets, with and without protection |
| Airtime.RetryOrder | driver/vmac/rc80211_minstrel_ht.c:674-726 | at least two tries, protection never more than without, at most the limit if that allows three |
| Airtime.LimitRespectedExactly | driver/vmac/rc80211_minstrel_ht.c:714-725 | exactly when the configured limit is respected |
| Airtime.WindowBounds | driver/vmac/rc80211_minstrel_ht.c:701-717 | the contention window grows and never leaves its limits |
| HtSample.NextGroup | driver/vmac/rc80211_minstrel_ht.c:553-573 | the advance ends at a supported group |
| HtSample.Ahead | driver/vmac/rc80211_minstrel_ht.c:553-573 | that group is the next supported one, at most a full circle ahead |
| HtSample.PotentialDrops | driver/vmac/rc80211_minstrel_ht.c:812-836 | every draw other than rate 0 uses up exactly one unit of the walk's potential |
| HtSample.Walk | driver/vmac/rc80211_minstrel_ht.c:812-836 | the unbounded walk ends, at a draw that is not above the limit or not supported, and moves only the sampling position |
| HtSample.WalkIsShort | driver/vmac/rc80211_minstrel_ht.c:812-836 | the walk takes at most 199 draws |
| HtSample.WalkIsFirst | driver/vmac/rc80211_minstrel_ht.c:811-835 | the walk ends at the first draw that names an unsupported rate or one not above the best |
| HtSample.SampleRateFrame | driver/vmac/rc80211_minstrel_ht.c:838-927 | sampling touches only the sampling state and keeps the invariant |
| HtSample.SampleRateBudget | driver/vmac/rc80211_minstrel_ht.c:838-927 | a probe costs one unit of the budget, nothing else does, and nothing is probed while the wait runs |
| HtSample.ProbeBound | driver/vmac/rc80211_minstrel_ht.c:838-927 | a probe is at most two above the faster best rate and is neither primary nor fallback |
| HtSample.ProbeExactly | driver/vmac/rc80211_minstrel_ht.c:838-927 | what a request samples, case by case: nothing during the wait, without budget or for an unsupported draw; else the drawn rate or the end of the walk, eased down to the next odd number above the faster best rate; unless that is the primary or the fallback |
| HtSample.SecondExactly | driver/vmac/rc80211_minstrel_ht.c:893-909 | a probe is sent second if and only if it is no faster on air than both best rates, nor than the fallback if CCK is involved, two or more numbers below the faster best rate, and above 70 % where sampling started |
| HtStatus.CreditConserved | driver/vmac/rc80211_minstrel_ht.c:636-648 | cell by cell: aggregate length times the tries reported for it, and the acknowledged frames in exactly one cell |
| HtStatus.CreditKeepsCells | driver/vmac/rc80211_minstrel_ht.c:636-648 | no cell ends with more successes than attempts |
| HtStatus.UntriedAckBreaksCell | driver/vmac/rc80211_minstrel_ht.c:636-648 | the condition of the previous row cannot be dropped for any report |
| HtStatus.CountedKeepsInv | driver/vmac/rc80211_minstrel_ht.c:599-648 | counting a report keeps the invariant |
| HtStatus.TopRate | driver/vmac/rc80211_minstrel_ht.c:445-532 | the start-up search finds the highest rate that a group of the bandwidth supports, or -1 |
| HtStatus.SeedRateExactly | driver/vmac/rc80211_minstrel_ht.c:445-532 | the permitted rate is seeded, unless the rates of that bandwidth end below it; then the highest of them |
| HtStatus.SeededKeepsInv | driver/vmac/rc80211_minstrel_ht.c:445-532 | the seeds keep the invariant |
| HtStatus.ClearKeepsInv | driver/vmac/rc80211_minstrel_ht.c:324-353 | clearing keeps the invariant |
| HtStatus.FreshInv | driver/vmac/rc80211_minstrel_ht.c:981-1117 | every peer with a usable HT or VHT group starts in the invariant |
| HtStatus.FreshOverheads | driver/vmac/rc80211_minstrel_ht.c:1014-1017 | a new station counts 108 us of overhead per frame, 228 with protection |
| Signal.GateMonotoneAndCapped | driver/vmac/rc80211_minstrel_init.c:350-447 | the gate permits at most MCS 6, exactly 6 from -72 dBm, and a better signal that is not stale never lowers it |
| Signal.GateExactly | driver/vmac/rc80211_minstrel_init.c:350-447 | rate m is permitted if and only if power and signal-to-noise ratio both reach the thresholds of rate m, or the power is at least -72 dBm; without a fresh reading up to rate 4 |
| Signal.StaleReadingsBreakMonotonicity | driver/vmac/rc80211_minstrel_init.c:350-447 | readings of 0 and -85 dBm have to be excluded |
| Signal.FitableBw | driver/vmac/rc80211_minstrel_init.c:313-348 | the start bandwidth never exceeds the channel's |
| Signal.FitableBwExactly | driver/vmac/rc80211_minstrel_init.c:313-348 | a bandwidth reaches the start bandwidth if and only if it is as wide as the channel, or the beacon that a station has measured is too weak for a wider one |
| Signal.FitableBwMonotone | driver/vmac/rc80211_minstrel_init.c:313-348 | a stronger beacon never narrows the start bandwidth |
| HtCap.UpdateStatsKeepsCap | driver/vmac/rc80211_minstrel_ht.c:355-443 | if no rate above MCS 6 has an estimate or is listed, the same holds after the update |
| HtCap.UpdateRatesKeepsCap | driver/vmac/rc80211_minstrel_ht.c:777-803 | and the rebuilt table names none |
| HtCap.TxStatusKeepsCap | driver/vmac/rc80211_minstrel_ht.c:599-672 | and a report that names none keeps this |
| HtCap.ClearKeepsCap | driver/vmac/rc80211_minstrel_ht.c:324-353 | and clearing keeps it |
| HtCap.InitStartKeepsCap | driver/vmac/rc80211_minstrel_ht.c:445-532 | and seeding at most MCS 6 keeps it |
| HtCap.UpdateCapsIsCapped | driver/vmac/rc80211_minstrel_ht.c:981-1117 | and every new station starts with it |
| Driver.FillSpec | driver/vmac/rc80211_minstrel_init.c:570-601 | every slot holds the sampled entry or the table's, and slot 3 is the terminator |
| Driver.LastSet | driver/vmac/rc80211_minstrel_init.c:612-624 | the loop of the check ends with the last entry that is set |
| Driver.HandOutSlots | driver/vmac/rc80211_minstrel_init.c:741-906 | a handed-out chain is well formed; in station mode it holds table entries and at most a probe up to MCS 6 |
| Driver.StationProbeExactly | driver/vmac/rc80211_minstrel_init.c:603-642 | a station's request is answered with its probe if and only if there is one, it is wide enough and not above the gate; statistics change if and only if it is wide enough and too fast, and then exactly the supported rates two or more above the permitted one with a recorded success are cleared |
| Driver.HandedCounts | driver/vmac/rc80211_minstrel_init.c:889-901 | the slots of a chain are tried twice, twice and as often as configured |
| Driver.FindRateKeepsReady | driver/vmac/rc80211_minstrel_init.c:741-906 | handing out a chain keeps the invariant and the table |
| Driver.FindRateKeepsCap | driver/vmac/rc80211_minstrel_init.c:826-835 | in station mode a capped station hands out capped chains and stays capped |
| Driver.ApFloor | driver/vmac/rc80211_minstrel_init.c:862-887 | at -72 dBm or better an access point's frame that is no probe starts at MCS 6 or above |
| Driver.ApCapExactly | driver/vmac/rc80211_minstrel_init.c:826-887 | one request: an access point's chain stays at or below MCS 6 exactly when the table entries it uses and the sampled rate are |
| Driver.CompletionIsReport | driver/vmac/rc80211_minstrel_init.c:908-977 | a completion of a handed-out chain is a sound report, and a capped one for a capped chain |
| Driver.TableNamesRates | driver/vmac/rc80211_minstrel_ht.c:777-803 | the table encodes the corrected primary, the second-best and the corrected fallback |
| Driver.HandedChainNames | driver/vmac/rc80211_minstrel_init.c:824-860 | a chain handed out without the floor encodes the rates of the table, with the sampled rate in its slot |
| Driver.HandedChainNamedExactly | driver/vmac/rc80211_minstrel_init.c:824-887 | in either mode a chain that is handed out encodes rates if and only if the floor does not raise a CCK entry above 3, which it does exactly for an unprobed frame of an access point whose table starts with CCK and whose signal permits more |
| Driver.RaisedReport | driver/vmac/rc80211_minstrel_ht.c:95-121 | the report of such an entry is credited to cell 48, which no peer supports |
| Driver.CompletionCreditsRates | driver/vmac/rc80211_minstrel_ht.c:636-648 | a completion of a handed-out chain credits, cell by cell, the frames of each try of the chain's rates, and the acknowledged frames to the last one tried; a rate's report lands on its own cell exactly if the slot is real |
| Driver.TxCompleteKeepsReady | driver/vmac/rc80211_minstrel_init.c:908-977 | a completion keeps the invariant and leaves a well-formed table |
| Runs.EveryRunIsSound | driver/vmac/rc80211_minstrel_init.c:449-977 | in every reachable state: no division by zero, estimates and variances in bounds, successes within attempts, estimates only for supported rates |
| Runs.EveryDowngradeEnds | driver/vmac/rc80211_minstrel_ht.c:575-597 | in every reachable state a rate is downgraded at most ten times in a row |
| Runs.StationNeverExceedsMcs6 | driver/vmac/rc80211_minstrel_init.c:603-835 | in every run of a station no rate above MCS 6 has an estimate, is in a list, or is handed out |
| Runs.EveryCompletionCreditsItsRates | driver/vmac/rc80211_minstrel_init.c:908-977 | in every run in either mode a handed-out chain encodes rates if and only if its first entry is not a raised CCK one, and then its completion credits exactly those rates, one frame or the whole aggregate per try, and the counters of the next state are these; a station never raises one |
| Runs.DoneFrames | driver/vmac/rc80211_minstrel_ht.c:617-626 | each completion counts as one aggregate of its frames, and an update folds frames per aggregate into the average |
| CckRun.CckIsRaised | driver/vmac/rc80211_minstrel_init.c:862-887 | on either platform a run from start-up hands a 2.4 GHz peer a chain with a raised CCK entry |
| Runs.ProbesAreBudgeted | driver/vmac/rc80211_minstrel_ht.c:626-631 | between updates probes plus remaining budget equal the budget at the start |
| Runs.WaitPassesUnprobed | driver/vmac/rc80211_minstrel_ht.c:852-855 | while a wait of n runs, n requests pass unprobed whatever completes in between |
| Runs.RefillIsFollowedByTenUnprobed | driver/vmac/rc80211_minstrel_ht.c:626-631 | after each refill ten requests pass unprobed |
| PeerCap.PeerNeverExceedsMcs6 | driver/vmac/rc80211_minstrel_init.c:741-906 | a peer that does not meet the condition is never handed a rate above MCS 6, in either mode; with HT rates 5 and 7, one that an access point has started |
| PeerCap.ProbeStaysLow | driver/vmac/rc80211_minstrel_ht.c:812-927 | for such a peer no draw and no walk ends in a probe above MCS 6 |
| PeerCap.TxStatusKeepsRooted | driver/vmac/rc80211_minstrel_ht.c:599-672 | best rates and group lists name only supported rates and rate 0, whatever is reported |
| PeerLow.GateSkipsFive | driver/vmac/rc80211_minstrel_init.c:350-447 | with the offsets of the two platforms the gate answers 0 to 4 or 6, never 5 |
| PeerLow.StatusKeepsTame | driver/vmac/rc80211_minstrel_ht.c:599-672 | for a peer with rates 5 and 7 out of reach, reports of rates within the limit keep every estimate, list and table entry within it |
| PeerLow.FindTame | driver/vmac/rc80211_minstrel_init.c:741-906 | a request for such a peer hands out only entries whose reports stay within the limit |
| TopRates.TopSecond | driver/vmac/rc80211_minstrel_ht.c:152-184 | bounded insertion puts a key that outranks all others first and the one that outranks the rest second |
| ApTables.FirstIs | driver/vmac/rc80211_minstrel_ht.c:402-424 | a rate whose throughput is above that of every other rated one leads the list of the best rates |
| ApTables.TwoAre | driver/vmac/rc80211_minstrel_ht.c:402-424 | the two best MCS rates lead it in order if no CCK rate outdoes them |
| ApTables.CckThenMcs | driver/vmac/rc80211_minstrel_ht.c:233-256 | a CCK rate that outdoes all MCS rates leads it, the best MCS rate behind it |
| ApSteps.FoldTally | driver/vmac/rc80211_minstrel_ht.c:380-400 | folding the cells moves the table of estimates by one step |
| ApSteps.DoneUpdates | driver/vmac/rc80211_minstrel_init.c:908-977 | a completion with an update moves the estimate of the rate it names by one step and no other, and lists and rate table follow from the estimates |
| ApStart.StartStands | driver/vmac/rc80211_minstrel_init.c:449-546 | start-up leaves exactly the seeds as estimates, and a table that still holds rate 0 |
| ApSampling.NextRound | driver/vmac/rc80211_minstrel_ht.c:553-573 | sampling visits the supported groups in order and reads one row of the column after the other |
| ApSampling.Seek | driver/vmac/rc80211_minstrel_ht.c:838-927 | from every such state some requests and completions bring sampling to a wanted group and row with a probe to spend |
| ApMoves.ProbeAt | driver/vmac/rc80211_minstrel_ht.c:838-927 | there a request probes the drawn rate if it has no estimate, and the chain starts with it |
| ApMoves.FirstRequest | driver/vmac/rc80211_minstrel_init.c:862-887 | the first request draws an unsupported rate, and the floor makes the permitted rate of the rate 0 in the table |
| ApMoves.FloorRequest | driver/vmac/rc80211_minstrel_init.c:862-887 | so does a later request, of the corrected primary rate |
| ApMoves.Fade | driver/vmac/rc80211_minstrel_init.c:908-977 | n failures move an estimate n steps of the moving average toward 0 |
| ApMoves.ToSeven | driver/vmac/rc80211_minstrel_ht.c:838-927 | from a reliable best rate 5 or 6 a draw of 7 exceeds the cap |
| ApMoves.ToFive | driver/vmac/rc80211_minstrel_ht.c:838-927 | from a reliable best rate 3 or 4 a draw of 5 probes rate 5, and once that succeeded a draw of 7 exceeds the cap |
| ApSeven.SixSeven | driver/vmac/rc80211_minstrel_init.c:741-906 | for peers with VHT, or with HT rates 6 and 7 on up to 40 MHz, a run from start-up exceeds the cap |
| ApFive.WideSixSeven | driver/vmac/rc80211_minstrel_init.c:741-906 | so it does with HT rates 6 and 7 on 80 MHz, where nothing is seeded |
| ApSix.SixFalls | driver/vmac/rc80211_minstrel_ht.c:811-835 | with HT rates 5 and 6 and no CCK to catch it, the walk from a weak rate 5 ends in a probe of rate 7 |
| ApFive.FiveFromBelow | driver/vmac/rc80211_minstrel_init.c:741-906 | with HT rates 5 and 7 and rate 3 or 4 a run from start-up exceeds the cap |
| ApFive.FiveFromCck | driver/vmac/rc80211_minstrel_init.c:741-906 | so it does with rate 3 of CCK on 20 MHz |
| ApWide.FiveFromWideCck | driver/vmac/rc80211_minstrel_init.c:741-906 | so it does with rate 3 of CCK and HT rate 1 or 2 on a wider channel |
| ApCap.ApCapFails | driver/vmac/rc80211_minstrel_init.c:826-828 | for every peer that meets the condition, on either platform, a run from start-up on links as wide as its channel exceeds MCS 6 |
| ApCap.ApCapFailsExactly | driver/vmac/rc80211_minstrel_init.c:826-828 | the cap of an access point can be exceeded if and only if the peer's capabilities meet the condition |
| ApCap.EveryPeerCanExceed | driver/vmac/rc80211_minstrel_init.c:70-161 | every peer with the capabilities that the driver itself builds, at each bandwidth, can be handed a rate above MCS 6 |
| SampleTable.FreeSlot | driver/vmac/rc80211_minstrel_ht.c:1255-1257 | the linear search ends at the first free slot from where it started |
| SampleTable.PlaceColumn | driver/vmac/rc80211_minstrel_ht.c:1254-1259 | for any random bytes a column becomes a permutation in which every value is in the first slot from the wanted one on that no smaller value has; nothing outside it changes |
| SampleTable.ProbingUnique | driver/vmac/rc80211_minstrel_ht.c:1255-1260 | the random bytes determine the column: two columns that place every value by probing are equal |
| SampleTable.EveryPermutation | driver/vmac/rc80211_minstrel_ht.c:1255-1260 | every permutation comes from some random bytes |
| SampleTable.InitHtTable | driver/vmac/rc80211_minstrel_ht.c:1242-1261 | every column of the HT/VHT table is a permutation of the ten rates, placed so by its bytes |
| SampleTable.InitLegacyTable | driver/vmac/rc80211_minstrel.c:413-433 | every column of the legacy table is a permutation of its rates, placed so by its eight bytes in turn |
| HtStation.Station.constructor | driver/vmac/rc80211_minstrel_ht.c:981-1127 | a new station's state, up to its first table |
| HtStation.Station.SortBestTpRates | driver/vmac/rc80211_minstrel_ht.c:152-184 | in place: the list becomes the bounded insertion into it |
| HtStation.Station.SetBestProbRate | driver/vmac/rc80211_minstrel_ht.c:186-231 | the fallback and the group's fallback after offering a rate |
| HtStation.Station.AssignBestTpRates | driver/vmac/rc80211_minstrel_ht.c:233-257 | in place: the list becomes the merge with the CCK list |
| HtStation.Station.SweepRate | driver/vmac/rc80211_minstrel_ht.c:390-409 | one supported rate: fold, insert into the lists, offer as fallback |
| HtStation.Station.SweepGroup | driver/vmac/rc80211_minstrel_ht.c:387-415 | the lists and cells after one more group |
| HtStation.Station.Sweep | driver/vmac/rc80211_minstrel_ht.c:380-418 | the lists and cells after all groups |
| HtStation.Station.UpdateStats | driver/vmac/rc80211_minstrel_ht.c:355-443 | the whole state after an update |
| HtStation.Station.ModifyTpRates | driver/vmac/rc80211_minstrel_ht.c:259-298 | the corrected primary and fallback |
| HtStation.Station.BestFallback | driver/vmac/rc80211_minstrel_ht.c:278-296 | the downward search returns the lowest best-ranked rate |
| HtStation.Station.CalcRetransmit | driver/vmac/rc80211_minstrel_ht.c:674-726 | the cell's two retry counts are the two budgets |
| HtStation.Station.SetRate | driver/vmac/rc80211_minstrel_ht.c:728-767 | the table entry of a rate |
| HtStation.Station.UpdateRates | driver/vmac/rc80211_minstrel_ht.c:777-803 | the rebuilt table |
| HtStation.Station.AdvanceGroup | driver/vmac/rc80211_minstrel_ht.c:553-561 | the loop ends at the next supported group |
| HtStation.Station.SetNextSampleIdx | driver/vmac/rc80211_minstrel_ht.c:553-573 | the sampling position after one draw |
| HtStation.Station.CheckSampleIdx | driver/vmac/rc80211_minstrel_ht.c:812-836 | the unbounded loop ends with the draw of the walk |
| HtStation.Station.GetSampleRate | driver/vmac/rc80211_minstrel_ht.c:838-927 | the probe and the sampling state |
| HtStation.Station.DowngradeRate | driver/vmac/rc80211_minstrel_ht.c:575-597 | the entry is replaced by the lower group's, the others stay |
| HtStation.Station.CreditReport | driver/vmac/rc80211_minstrel_ht.c:636-648 | the cells after crediting a report |
| HtStation.Station.TxStatus | driver/vmac/rc80211_minstrel_ht.c:599-672 | the whole state after a report |
| HtStation.Station.ClearUnfitableRateStats | driver/vmac/rc80211_minstrel_ht.c:324-353 | the cells after clearing |
| HtStation.Station.FindTopRate | driver/vmac/rc80211_minstrel_ht.c:465-484 | the nested searches find the highest supported rate of a bandwidth |
| HtStation.Station.InitStartStats | driver/vmac/rc80211_minstrel_ht.c:445-532 | the seeded and updated state |
| HtStation.Station.FillStaTable | driver/vmac/rc80211_minstrel_init.c:570-601 | in place: the chain is completed from the table |
| HtStation.Station.CheckIsRateFitable | driver/vmac/rc80211_minstrel_init.c:603-642 | the verdict on a probe, and the clearing it causes |
| HtStation.Station.HandOut | driver/vmac/rc80211_minstrel_init.c:826-906 | the chain of a frame after sampling |
| HtStation.Station.FindRate | driver/vmac/rc80211_minstrel_init.c:811-906 | without a fixed rate: the chain of a frame and the state after it |
| HtStation.Station.TxComplete | driver/vmac/rc80211_minstrel_init.c:908-977 | the state after a completion |
| Legacy.ChainOrdered | driver/vmac/rc80211_minstrel.c:231-244 | the chain starts with the last best rate, every entry is the last best below its predecessor, indices strictly fall to 0, throughput never rises |
| Legacy.LastBestSpec | driver/vmac/rc80211_minstrel.c:231-244 | the last argmax of the throughput |
| Legacy.LegacyTpExactly | driver/vmac/rc80211_minstrel.c:27-42 | the throughput estimate from its inputs alone, as above with the transmit time in microseconds |
| Legacy.UpdatedExactly | driver/vmac/rc80211_minstrel.c:195-215 | an update folds a rate; above 95 % or below 10 % it is left one or two tries and every hundredth sample, else its own number of tries |
| Legacy.ProbRateDominates | driver/vmac/rc80211_minstrel.c:218-228 | no rate below 95 % is more reliable than the one chosen |
| Legacy.ReliableExactly | driver/vmac/rc80211_minstrel.c:218-228 | the chosen rate reaches 95 % if and only if some rate of 95 % or more is at least as fast as the one chosen before its turn |
| Legacy.ReliableIsFastest | driver/vmac/rc80211_minstrel.c:218-228 | from that rate on, no rate of 95 % or more is faster than the chosen one |
| Legacy.ReliablePassedOver | driver/vmac/rc80211_minstrel.c:218-228 | after one interval at 11, 6 and 9 Mbit/s, with the transmit times of those rates, the chosen rate is neither the most reliable nor the fastest |
| Legacy.TableOrdered | driver/vmac/rc80211_minstrel.c:69-103 | the table holds the first three of the chain and then the lowest rate; throughput and rate numbers fall along the three, and each is tried at least once |
| Legacy.SamplesCoverAllRates | driver/vmac/rc80211_minstrel.c:315-328 | from the top of a column, as many samples as rates name every rate exactly once |
| Legacy.LegacyStation.BuildChain | driver/vmac/rc80211_minstrel.c:231-244 | the nested loops compute the chain |
| Legacy.LegacyStation.UpdateStats | driver/vmac/rc80211_minstrel.c:182-251 | the rates, chain, most reliable rate and table after an update |
| Legacy.LegacyStation.FoldRates | driver/vmac/rc80211_minstrel.c:195-229 | every rate is folded once, and the most reliable one kept |
| Legacy.LegacyStation.UpdateRates | driver/vmac/rc80211_minstrel.c:69-103 | the table of the chain and the lowest rate |
| Legacy.LegacyStation.GetNextSample | driver/vmac/rc80211_minstrel.c:315-328 | one sample and the position after it |
| Legacy.LegacyStation.SampleAll | driver/vmac/rc80211_minstrel.c:315-328 | a pass of calls names every rate exactly once and ends at the top of a column |
| ClockMeasure.GateIsTight | driver/vmac/wifi_clock_measure.c:6-20 | the gate catches at least 160 counts of the expected clock and is the shortest that does, to a microsecond |
| ClockMeasure.GateFitsExactly | driver/vmac/wifi_clock_measure.c:6-32 | the gate fits its 16-bit field exactly from 2442 Hz on |
| ClockMeasure.ExactReading | driver/vmac/wifi_clock_measure.c:54-56 | an exact clock reads from 160 to 4294 counts |
| ClockMeasure.ExactClockAccepted | driver/vmac/wifi_clock_measure.c:54-69 | an exact clock is accepted below 2^30 Hz, and from there on exactly under a stated condition on the wrapped tolerance |
| ClockMeasure.AcceptedIsWithin | driver/vmac/wifi_clock_measure.c:54-69 | for an accepted reading the clock is within 4 % and one count exactly when the reading is at most 4294 |
| ClockMeasure.LimitsAreReal | driver/vmac/wifi_clock_measure.c:6-69 | inputs at which each of these limits is exceeded |

## Left out

- Runs.EveryRunIsSound: assumes aggregates of at most 2^14 frames, fewer than 2^20 completed frames per update interval, and packet counters that do not wrap at 32 bits; `HtUpdate.AverageSurvivesExactly` gives the exact per-update condition.
- Runs.StationNeverExceedsMcs6: holds without a fixed rate and for completions of handed-out chains, under the same limits.
- HtStatus.CountedKeepsInv: the same limits, in `HtStatus.ReportOk`.
- HtCap.TxStatusKeepsCap: the same limits.
- Driver.CompletionIsReport: the same limits.
- Driver.TxCompleteKeepsReady: the same limits.
- HtStation.Station.TxStatus: the same limits.
- HtStation.Station.TxComplete: the same limits.
- Runs.EveryCompletionCreditsItsRates: the same limits.
- PeerCap.PeerNeverExceedsMcs6: a peer with HT rates 5 and 7 that a station has started is covered by `Runs.StationNeverExceedsMcs6`, in station mode only.
- Airtime.CountRetries: sums are unbounded here; `HtRates.AirTimesFit` proves that the driver's own never wrap. The wrap of the product behind a single data time is modelled in `HtRates.DataTime`.
- Fixed-rate mode, vendor rate codes, `aml_max_4ms_framelen`, and the per-protection counts of a table entry.
- Fields that are written and never read by the modelled steps: total and sampled packet counters, `sample_slow`, the stored `tp_avg` of the HT engine, transmit flags.
- `minstrel_ht_prob_rate_reduce_streams`: with one stream it changes nothing.
- The width of the count field of a rate entry, of a completion's try counts and of its aggregate length.
- How the peer's capabilities are assembled; they are an input of the constructor.
- The rest of the legacy engine: completion reports, sampling ratio, retry counts at start-up, per-protection retry counts, `rix_to_ndx`, frame durations other than those of OFDM at 6 Mbit/s and of the example; and the scratch throughput list that its update computes and discards.
- The register polling of the clock check; the counter reading is an input.
- Allocation, locks, time, debug output, random numbers as such.
- The rest of the driver: MAC, SDIO transport, firmware commands, calibration data, configuration interface.
