# A verified model of the alarm correlators and the code beside them

This project models, in Dafny, the parts of the data-centre monitoring platform where a mistake hides
an alarm, blames the wrong machine, locks two workers against each other, or loses data, and proves
what those parts promise.

**The cooling-cascade correlator** (`CoolingTaxonomy`, `CoolingGraph`, `RootChoice`, `AlarmTable`,
`CoolingSweep`). Devices are drawn as a tiered graph. `ancestors` gives the machines upstream of a
device, `pick_root` the alarm that best explains another, `correlate` ties a new alarm to its root, and
`sweep` moves, adopts, un-hides and releases marks once a minute. `CoolingGraph` is a class with its
memo; `AlarmDb` is the table, rewritten one UPDATE at a time from snapshots taken before the loops.
Both are proved against functions of those snapshots, and the promises are proved about the functions. Three
modules say what those functions have to give, in other terms than theirs:

* `CoolingPaths`: the ancestors of a device are the ends of paths over the device rows and the drawn edges, each at
  the highest tier a path reaches it at.
* `RootRules`: which row an alarm is tied to, and whether it folds, by rules on the rows; `correlate` and `sweep`
  both judge by them, and the raise path misses nothing where the category is known.
* `SweepRows`: every row after a sweep, and the three counters, read off the snapshots without the loops.

And over runs and whole sweeps:

* `Attribution` and `Chains`: in every state of every run of raising, clearing, `correlate` and `sweep`,
  marks point upstream, chains of roots end, blame drifts a bounded time, and an open alarm keeps its mark.
* `PlantCircle`: chains end in every run exactly when the plant is not drawn in a circle. Where it is, one
  sweep folds every machine of the circle under the next and nothing is left in view.
* `NeverBlank`: after a sweep, a consequence of a cleared root is in view for a root, room and alarm type
  exactly when the snapshots satisfy `Voiced`; `BlankConsole` is a run that leaves a room blank.
* `OneVoice`: which alarm speaks for a root, room and alarm type, read off the snapshots without the loops.

**The stale-collector sweep** (`LockOrder`, `CollectorSweep`): any number of transactions that take row
locks in one order never wait in a circle and somebody can always go on; a sweep asks for exactly the rows
it writes, in that order, whatever it finds; its marking is exact, and a second sweep does nothing.

**Three migrations** (`BandDwells`, `AliasMerge`, `BandFold`): each rewrites a table once and claims
something about everything after. Every claim is proved with the exact condition it needs.

**Four smaller algorithms**: resumable key rotation (`KeyRotation`), the omit-empty message codec
(`MessageCodec`), the interpolated histogram quantile (`HistogramQuantile`), and the byte stream under the
mapping-bundle fingerprint (`BundleFraming`).

## Where the code does not do what is written beside it

The model follows the code. In each case a lemma gives a concrete input, and another the exact condition.

* *"so a plant still down is never a blank console"* (cooling_correlation.py:590-594). A representative
  the first loop moves to another root stays named for the old one, so the alarms it spoke for stay hidden:
  `BlankConsole.AMovedVoiceLeavesABlank`; exactly when, `NeverBlank.ExactlyWhenVoiced`. An alarm tied
  elsewhere that the second loop judges to a cleared root is named for it without being tied to it, which
  is why the condition speaks of tied alarms that are *judged* to another root, not only of moved ones.
* The plant drawn in a circle (cooling_correlation.py:297-303): walking no further than one edge keeps a
  machine from being its own ancestor, but not from being its own root's root:
  `PlantCircle.WellFoundedExactlyWithoutCircles`.
* `correlate` fetches the row's category where the caller gave none (cooling_correlation.py:528-530), but only after
  the test on the name (518-519), which sees the caller's: a cooling machine's alarm that only its row makes a
  cooling one is turned away on the raise, unless it reports heat: `RootRules.AnUnknownCategoryIsMissed`. In every
  other case nothing is missed: `RootRules.RaiseMissesNothing`.
* *"every endpoint it owns becomes UNKNOWN with the reason on the row"* (collector_visibility.py:9-10). A
  row with status UNKNOWN and no error class makes the WHERE clause NULL, and is never marked:
  `CollectorSweep.ARowByDefaultIsNeverMarked`; exactly when, `CollectorSweep.MarkingIsExact`.
* *"the rename cannot violate the one-open-alarm-per-key index"* (0030_merge_duplicate_cpu_alarms.py:99-100).
  The index treats missing devices as equal (0013), the join does not: `AliasMerge.APlatformPairIsRefused`;
  exactly when, the second `ensures` of `AliasMerge.AlarmTable.Upgrade`.
* *"a lower band is a SUPERSET of a higher one"* (0033_align_band_dwells.py:12-16). The alarm engine's deadband
  can reset the lower band and hold the higher one: `BandDwells.ASawtoothRaisesOnlyTheHigher`. And of bands
  "in the same direction" (0033:19) the join selects those on > and < only, so rules on >= and <= keep the
  dwells they had: `BandDwells.InclusiveBandsBreakTheLaw`. Exactly when the law holds, for any two bands that
  look the same way, `BandDwells.LowerRaisesFirstExactly`.
* *"Bands are ranked by THRESHOLD, in the direction the rule fires"* (0032_fold_open_bands.py:21). The join does
  not look at the higher rule's operator, so two rules that look towards each other fold each other:
  `BandFold.CrossingRulesHideBoth`. Nor does it keep two rules of one alarm type apart, which the schema allows:
  `BandFold.TwoRulesOfOneTypeHideBoth`. Exactly when one band stays on top, for any table of rules,
  `BandFold.OneOnTopExactly`; with one rule a type, `BandFold.NoTypeCircleExactly`.
* *"the same sort order (lexicographic by forward-slash relative path)"* (mapping_bundle.py:5). Path objects
  compare component by component, and `x/y` comes before `x.yaml`: `BundleFraming.TheTwoOrdersDiffer`. Exactly
  when the two orders agree on two paths, `BundleFraming.OrdersAgreeExactly`; exactly when a whole bundle gives
  one stream either way, `BundleFraming.OneStreamEitherWayExactly`.
* A negative batch size makes key rotation do nothing and report no failure (rotate_credential_key.py:75):
  the contract of `KeyRotation.Store.Rotate`.

## Assumptions

* One cooling graph for a run. Rooms in the graph agree with those in the database for every device with a
  tied alarm, where `NeverBlank` needs it (`RoomsAgree`).
* Power-trip alarms carry neither the cooling category nor a thermal metric (`Quiet`), for the theorems over runs.
* Between `correlate` and `sweep`, anything may happen to the alarm table except writing the cooling marks or
  what they fold, and bringing a cleared row back (`EnvStep`).
* `apply_device_status` locks and writes the one device row; `fleet` and `ownership` are parameters.
* Decryption undoes encryption under the target key (`Inverse`); encryption under the target succeeds, which the
  script checks before it starts.
* Samples reach the alarm engine in time order, after the epoch (`InTime`).

## Model

| member | source | states |
|---|---|---|
| CoolingTaxonomy.PlainTripIsNoSymptom | backend/app/alarms/cooling_correlation.py:159-178 | an electrical trip without cooling category or thermal metric is nobody's consequence on a device of any tier, so it ends a chain |
| CoolingGraphs.CoolingGraph.Build | backend/app/alarms/cooling_correlation.py:225-244 | the five dictionaries hold exactly the edges between known devices, each room's air units and each site's plant; edges to unknown devices are dropped |
| CoolingGraphs.CoolingGraph.Ancestors | backend/app/alarms/cooling_correlation.py:246-305 | the nested updates, in any order of the neighbour sets and after any earlier queries, return the specification `Ancestry`, which `CoolingPaths` pins to the drawing; the memo stays transparent and the drawing unchanged |
| CoolingGraphs.Ancestry | backend/app/alarms/cooling_correlation.py:246-305 | each machine the walk arrives at, except the device itself, at the highest tier of its arrivals; `CoolingPaths.AncestorsAreThePaths` says which those are |
| CoolingGraphs.DictHoldsTheLast | backend/app/alarms/cooling_correlation.py:228-229 | a known device is as its last row in the device list says; one without a row is not known |
| CoolingPaths.AncestorsAreThePaths | backend/app/alarms/cooling_correlation.py:246-305 | on any drawing, `x` is an ancestor of `d` at tier `t` if and only if a path over drawn edges, rooms and sites reaches it at `t`, none reaches it higher, and it is not `d` |
| CoolingPaths.TheChainOverTheFloor | backend/app/alarms/cooling_correlation.py:262-288 | over a device on the floor that a unit cools stand the unit, the plant of the unit's site and the unit's feeders |
| CoolingPaths.AChillerOverARack | backend/app/alarms/cooling_correlation.py:273-288 | a chiller, a CRAH of its site and a server in the CRAH's room: the ancestors of the server are the CRAH as unit and the chiller as plant, and nothing else |
| CoolingGraphs.HighestIsUnique | backend/app/alarms/cooling_correlation.py:258-260 | only one map keeps the highest tiers of given arrivals, so iteration order cannot matter |
| CoolingGraphs.AncestorsStandAbove | backend/app/alarms/cooling_correlation.py:246-305 | a device is never its own ancestor; every ancestor is strictly above it, or is plant drawn directly ahead of plant |
| CoolingGraphs.CduOnlyWhereDrawn | backend/app/alarms/cooling_correlation.py:273-287 | a CDU is upstream of a device only along a drawn cooling edge, unless it feeds it power |
| RootChoice.BestIsTheMinimum | backend/app/alarms/cooling_correlation.py:338-361 | the loop keeps the lexicographic minimum of (highest tier, open before cleared, earliest, id) of the eligible candidates, and nothing exactly when none is eligible |
| RootChoice.BestIgnoresOrder | backend/app/alarms/cooling_correlation.py:338-361 | any permutation of the candidates gives the same root |
| RootChoice.TierGuardNeverRejects | backend/app/alarms/cooling_correlation.py:337-346 | the same-tier test inside the loop rejects nothing that `ancestors` lets through |
| RootChoice.ChoiceIgnoresVoices | backend/app/alarms/cooling_correlation.py:314-378 | neither severity nor the representatives change which root is chosen or its tier, so re-judging a moved alarm names the root it was moved to |
| RootChoice.PickRoot | backend/app/alarms/cooling_correlation.py:314-378 | the loop with its running best returns the verdict of which `RootRules.TheVerdict` says, by rules on the rows, whom it names and when, and leaves the graph as drawn |
| RootRules.TheVerdict | backend/app/alarms/cooling_correlation.py:314-378 | over any list of the causes on the symptom's ancestors: a root is named if and only if the symptom could follow from something and some row may explain it; it is the foremost such row, and the symptom folds exactly when that root is open and no less severe or another alarm speaks for it |
| RootRules.SweepJudges | backend/app/alarms/cooling_correlation.py:562-617 | every verdict of a sweep is that one, over the rows the sweep started from |
| RootRules.NoRootInABurningRoom | backend/app/alarms/cooling_correlation.py:348-351 | a root at the unit or plant tier never stands in a room with an open fire alarm |
| RootRules.RepresentativesByRule | backend/app/alarms/cooling_correlation.py:458-478 | a root, room and type has a representative just when some alarm in view is tied to the root there, and it is an oldest one |
| RootRules.EarlyTestLosesNothing | backend/app/alarms/cooling_correlation.py:181-189 | whatever could be a consequence on a device of any tier passes the test on the name alone |
| RootRules.RaiseExactly | backend/app/alarms/cooling_correlation.py:510-548 | the raise path returns the verdict of the rules, or none where the name is turned away, and writes the tie, and the fold if it folds, on the alarm's own row only |
| RootRules.RaiseMissesNothing | backend/app/alarms/cooling_correlation.py:518-548 | where the caller gave the category, the row's changes nothing, or the alarm reports heat: no root is named if and only if the alarm could follow from nothing or no row may explain it |
| RootRules.AnUnknownCategoryIsMissed | backend/app/alarms/cooling_correlation.py:518-532 | in the one other case no root is ever named and no row written |
| CoolingSweeps.OldestFirstIsOrdered | backend/app/alarms/cooling_correlation.py:609-610 | sorting by onset and id gives a strictly ordered list of the same alarms |
| CoolingSweeps.AlarmDb.MarkRow | backend/app/alarms/cooling_correlation.py:490-507 | one UPDATE by id: tied to the root; folded only when the verdict says so, never unfolded |
| CoolingSweeps.AlarmDb.Representatives | backend/app/alarms/cooling_correlation.py:458-478 | for each root, room and type with a voice, one voice no later than any other |
| CoolingSweeps.AlarmDb.SelectOrphans | backend/app/alarms/cooling_correlation.py:574-580 | every open tied alarm whose root's row is cleared, once |
| CoolingSweeps.AlarmDb.Snapshot | backend/app/alarms/cooling_correlation.py:562-580 | the candidates, fire rooms, representatives and orphans all describe the table before the first write |
| CoolingSweeps.AlarmDb.MoveOrphans | backend/app/alarms/cooling_correlation.py:581-606 | the first loop's rows, names and counters are those of `OrphanPass` |
| CoolingSweeps.AlarmDb.Adopt | backend/app/alarms/cooling_correlation.py:607-626 | the second loop's rows and counter are those of `AdoptPass`, starting from the first loop's names and the old tied set |
| CoolingSweeps.AlarmDb.Release | backend/app/alarms/cooling_correlation.py:628-641 | the rows are those of `ReleaseAll`, by which `SweepRows.TheClearedAreReleased` holds; the count is of the cleared marked rows |
| CoolingSweeps.AlarmDb.Sweep | backend/app/alarms/cooling_correlation.py:551-645 | the whole sweep leaves the rows `Swept` gives for snapshots that are fair to the table it started from, row by row those of `SweepRows.SweptRowsAreThese`, and returns the four counts |
| CoolingSweeps.AlarmDb.Correlate | backend/app/alarms/cooling_correlation.py:510-548 | the raise path returns and writes the verdict over the candidates on the alarm's ancestors, by the rules of `RootRules.RaiseExactly`, and touches nothing else |
| CoolingSweeps.ClearedAreUntouched | backend/app/alarms/cooling_correlation.py:581-626 | neither loop writes a cleared row, opens or clears one, or adds or drops one |
| SweepRows.SweptRowsAreThese | backend/app/alarms/cooling_correlation.py:551-645 | every row after a sweep, open or cleared, tied or not, is the one the rules give from the snapshots alone |
| SweepRows.TheElected | backend/app/alarms/cooling_correlation.py:590-622 | who speaks for a root, room and type: whoever did, else the first orphaned alarm to ask, else the oldest visible one to ask; this is whom the two loops name |
| SweepRows.TheClearedAreReleased | backend/app/alarms/cooling_correlation.py:628-641 | a cleared alarm that its mark had folded ends as nobody's symptom, with no root and no mark; one that only spoke loses the mark and nothing else; one without a mark is unchanged |
| SweepRows.TheLostMoveOrSpeak | backend/app/alarms/cooling_correlation.py:583-606 | an alarm out of view whose root has cleared moves to the root it is offered, folded or speaking by the election; else it comes back into view if it is the one to speak; else it stays as it was |
| SweepRows.TheLateRootAdopts | backend/app/alarms/cooling_correlation.py:607-626 | an alarm in view, no older than two hours, that is offered a root is folded under it unless it speaks; one that speaks is tied to it unless it spoke for something already |
| SweepRows.BystandersAreUntouched | backend/app/alarms/cooling_correlation.py:581-641 | an open alarm that kept its root, and is out of view or offered nothing, is as it was |
| SweepRows.TheCountsAreThese | backend/app/alarms/cooling_correlation.py:581-626 | `moved`, `spoken` and `adopted` count exactly the alarms that moved, came back into view and were tied |
| Attribution.SweepKeepsInv | backend/app/alarms/cooling_correlation.py:551-645 | a sweep keeps every mark pointing at an upstream row inside the window, at the tier it acts at, and every suppressing mark folding under its own root |
| Attribution.CorrelateKeepsInv | backend/app/alarms/cooling_correlation.py:510-548 | so does the raise path |
| Attribution.NextKeepsInv | backend/app/alarms/cooling_correlation.py:490-645 | so does every step of a run |
| Attribution.RunKeepsInv | backend/app/alarms/cooling_correlation.py:490-645 | hence every state of every run |
| Chains.CyclesLieInThePlant | backend/app/alarms/cooling_correlation.py:337-346 | whatever is drawn, a cycle of marks lies wholly inside the plant, along drawn edges |
| Chains.RankedPlantHasNoCircle | backend/app/alarms/cooling_correlation.py:295-304 | a ranking of machines that falls along every drawn plant edge rules the circle out |
| Chains.AttributionIsWellFounded | backend/app/alarms/cooling_correlation.py:246-548 | in every state of every run, following the roots from any alarm repeats nothing and ends at an alarm with no root, if the plant is not drawn in a circle |
| Chains.BlameDriftsBoundedly | backend/app/alarms/cooling_correlation.py:191-193 | a chain with k plant hops has at most three other links, and ends no more than 3+k hours before and 10(3+k) minutes after its first alarm |
| Chains.SweepDropsOnlyClearedMarks | backend/app/alarms/cooling_correlation.py:628-641 | after a sweep no cleared alarm carries a mark and no open alarm has lost one |
| Chains.AttributedUntilCleared | backend/app/alarms/cooling_correlation.py:52-66 | once attributed, an alarm is attributed in every later state of the run until it clears |
| Chains.FoldsAreTheMarks | backend/app/alarms/cooling_correlation.py:490-507 | in every reachable state a suppressing mark means the alarm is a symptom of exactly that root, and the root's row is there |
| PlantCircle.CircleHidesItself | backend/app/alarms/cooling_correlation.py:295-304 | for every circle drawn in the plant, two steps from the empty table - the machines report themselves stopped, on rows the columns allow, and one sweep - fold every alarm under another and leave nothing in view |
| PlantCircle.WellFoundedExactlyWithoutCircles | backend/app/alarms/cooling_correlation.py:295-304 | over all runs, chains end if and only if the plant is not drawn in a circle |
| PlantCircle.ALoopOfTwoPumpsIsACircle | backend/app/alarms/cooling_correlation.py:297-303 | two pumps drawn round in a loop are such a drawing |
| NeverBlank.ExactlyWhenVoiced | backend/app/alarms/cooling_correlation.py:566-626 | for a cleared root, a room and a type: some alarm of that type in that room, tied to that root, is in view after the sweep if and only if the snapshots satisfy `Voiced` |
| NeverBlank.NeverBlank | backend/app/alarms/cooling_correlation.py:590-606 | after a sweep every open alarm hidden under a cleared root has one of its type and room, tied to that root, in view, if no alarm that already spoke is judged to another root |
| BlankConsole.AMovedVoiceLeavesABlank | backend/app/alarms/cooling_correlation.py:583-606 | for any names and any severity, a six-step run from the empty table, on rows the columns allow, whose last step is a sweep after which an open alarm is hidden under a cleared root and nothing speaks for it |
| OneVoice.FirstClaimIsNamed | backend/app/alarms/cooling_correlation.py:592-602 | names are filed first come: a key keeps its old name, else takes its first claimant |
| OneVoice.LoopsFile | backend/app/alarms/cooling_correlation.py:583-626 | after n turns of the second loop the names are exactly the claims so far, filed in order |
| OneVoice.OneVoice | backend/app/alarms/cooling_correlation.py:607-626 | a visible alarm speaks exactly when it is worse than its root, or the root has cleared, and it is the one elected for that root, room and type; otherwise it is folded |
| OneVoice.NoTwoSpeak | backend/app/alarms/cooling_correlation.py:607-626 | no two alarms judged in one pass speak under one key |
| OneVoice.TheOldestIsElected | backend/app/alarms/cooling_correlation.py:609-622 | with nobody named before and no orphaned claimant, the one elected is the oldest visible claimant |
| LockOrder.RunKeepsExclusive | backend/app/alarms/collector_visibility.py:172-199 | in every reachable state no row is locked by two transactions |
| LockOrder.NoCircularWait | backend/app/alarms/collector_visibility.py:172-180 | transactions that take new rows in ascending order, endpoints before devices, never wait in a circle, in any reachable state and any number of them |
| LockOrder.SomebodyGoesOn | backend/app/alarms/collector_visibility.py:172-180 | while a transaction is left, some transaction can be granted its next row or commit |
| LockOrder.PerCollectorPassesDeadlock | backend/app/alarms/collector_visibility.py:177-180 | rows e5, e9, e1, e3 against e1, e3, e5, e9: a run of the two that reaches a circular wait |
| CollectorSweep.PhasesAreOrdered | backend/app/alarms/collector_visibility.py:181-222 | one ascending pass over endpoints, then only rows already held, then devices ascending, is in order |
| CollectorSweep.SweepsAskInOrder | backend/app/alarms/collector_visibility.py:172-222 | whatever a sweep finds, its lock requests are in order: new endpoint rows ascending once across all owners, then only rows it holds, then device rows ascending |
| CollectorSweep.SweepsAskForWhatTheyWrite | backend/app/alarms/collector_visibility.py:181-222 | it asks for exactly the endpoint rows it marks and the device rows it writes |
| CollectorSweep.EveryWriteIsLocked | backend/app/alarms/collector_visibility.py:190-222 | every row of either table that a sweep changes is one it has asked for |
| CollectorSweep.Visibility.MarkEach | backend/app/alarms/collector_visibility.py:190-205 | owner by owner, each locked row is marked once with its own owner's message and asked for once more, and no other row is |
| CollectorSweep.Visibility.Sweep | backend/app/alarms/collector_visibility.py:145-228 | the whole transaction: the rows it asks to lock are, in order, those of `SweepLocks`; both tables, the endpoints marked and the devices returned are exactly those of the specification, said of the fleet itself (`MarksTheDead`) and of what each device's endpoints say (`ShowsTheBest`); without the lock it does nothing |
| CollectorSweep.SweptByFleet | backend/app/alarms/collector_visibility.py:159-205 | said of the fleet: each endpoint of a collector listed as not healthy is marked UNKNOWN with its own owner's message, unless it says so already or is UNKNOWN without a class; every other row stands |
| CollectorSweep.RollUpIsTheBest | backend/app/ingest/writer.py:298-313 | a device's status is what some enabled endpoint of it says where none says better, ONLINE over DEGRADED over UNKNOWN over OFFLINE over DISABLED |
| CollectorSweep.MarkingIsExact | backend/app/alarms/collector_visibility.py:181-201 | a stale collector's row reads as gone with it after the sweep if and only if it was not an unknown row without a class |
| CollectorSweep.OthersAreUntouched | backend/app/alarms/collector_visibility.py:164-188 | rows of healthy or unowned endpoints, and rows already marked, are as they were |
| CollectorSweep.SecondSweepIsIdle | backend/app/alarms/collector_visibility.py:181-208 | a second sweep with the same fleet and plan changes and marks nothing |
| CollectorSweep.SweepAgain | backend/app/alarms/collector_visibility.py:145-228 | run as a method: it returns no devices and leaves both tables alone |
| CollectorSweep.ARowByDefaultIsNeverMarked | backend/app/alarms/collector_visibility.py:185-185 | a row as the table's defaults leave it is never marked by any sweep |
| CollectorSweep.SweepsDoNotDeadlock | backend/app/alarms/collector_visibility.py:172-222 | in every reachable state of any number of sweeps, each over any tables, fleet and plan, and of ingest batches: no circular wait, and while one is left, one can go on |
| BandDwells.RuleTable.AlignSamples | backend/alembic/versions/0033_align_band_dwells.py:41-63 | the statement gives every rule the least sample dwell among itself and its higher bands, as they were before it |
| BandDwells.RuleTable.AlignSeconds | backend/alembic/versions/0033_align_band_dwells.py:68-93 | and the weakest time gate, none being the weakest |
| BandDwells.RuleTable.Upgrade | backend/alembic/versions/0033_align_band_dwells.py:96-99 | both in order leave every rule aligned with respect to the table before either, and otherwise as it was |
| BandDwells.AlignmentOrdersGates | backend/alembic/versions/0033_align_band_dwells.py:18-20 | one pass puts both gates of every pair of bands in order, for chains of any length |
| BandDwells.BandsWaitInOrder | backend/alembic/versions/0033_align_band_dwells.py:41-93 | after the upgrade, of two enabled rules on > the lower, and of two on < the higher, waits for no more samples and no longer, no time gate being the shortest wait; and no rule waits longer than it did |
| BandDwells.GatesComeFromTheBands | backend/alembic/versions/0033_align_band_dwells.py:41-93 | each gate of a rule is its own or that of a rule beyond it, and nothing else about it changes |
| BandDwells.AlignmentIsAFixpoint | backend/alembic/versions/0033_align_band_dwells.py:41-93 | aligning again changes nothing |
| BandDwells.RaisesExactly | backend/app/alarms/engine.py:274-297 | over any stream in time: the engine raises at a breach if and only if, since the last sample on the safe side, as many have breached as the rule asks for and the first of them is as long ago as it asks for |
| BandDwells.ClearsExactly | backend/app/alarms/engine.py:298-312 | it clears at a sample if and only if that is on the safe side and completes the dwell, or a multiple of it, of such samples since the last breach; values between the two limits count for nothing |
| BandDwells.LowerRaisesFirstExactly | backend/app/alarms/engine.py:222-312 | for any two bands that look the same way, on > or >=, < or <=, and any gates: the lower has raised by the time the higher does over every stream if and only if it needs no dwell, or its gates hold and the two deadbands nest |
| BandDwells.ASawtoothRaisesOnlyTheHigher | backend/app/alarms/engine.py:298-312 | otherwise a stream that raises the higher band and never the lower |
| BandDwells.AStandingValueRaisesOnlyTheHigher | backend/app/alarms/engine.py:274-297 | where the lower band's gates ask for more, a value that only stays beyond both raises the higher band and not the lower |
| BandDwells.NestedBandsRaiseTogether | backend/app/alarms/engine.py:274-312 | nested bands whose gates hold: the lower raises at every sample the higher does |
| BandDwells.AlignedBandsRaiseInOrder | backend/alembic/versions/0033_align_band_dwells.py:12-20 | after the upgrade the pairs the join selects keep the law exactly where the lower needs no dwell or the two nest, and always where the higher band has no deadband |
| BandDwells.InclusiveBandsBreakTheLaw | backend/alembic/versions/0033_align_band_dwells.py:47-52 | two bands on >=, already as the statements leave them and with no deadband, break the law |
| AliasMerge.AlarmTable.Fold | backend/alembic/versions/0030_merge_duplicate_cpu_alarms.py:50-85 | every open alias with its canonical alarm open on the same device and instance is merged and closed, and logged once; nothing else changes |
| AliasMerge.AlarmTable.Upgrade | backend/alembic/versions/0030_merge_duplicate_cpu_alarms.py:96-102 | all pairs merged, said of the table before; one open alarm a key kept; refused, and undone whole, exactly when two open alarms without a device collide |
| AliasMerge.RenameKeepsTheIndexExactly | backend/alembic/versions/0030_merge_duplicate_cpu_alarms.py:88-93 | a rename keeps one open alarm a key if and only if no renamed row collides |
| AliasMerge.OnlyDevicelessPairsCollide | backend/alembic/versions/0030_merge_duplicate_cpu_alarms.py:99-102 | after FOLD, what still collides is exactly the pairs without a device |
| AliasMerge.SurvivorOfTwo | backend/alembic/versions/0030_merge_duplicate_cpu_alarms.py:65-75 | the survivor has the worse severity, the earlier first_seen and the sum of the counts and is otherwise as it was; the alias is closed at that time and otherwise as it was |
| AliasMerge.TheRestOfThePairStands | backend/alembic/versions/0030_merge_duplicate_cpu_alarms.py:46-93 | closed alarms of either name, and canonical alarms open alone, are as they were |
| AliasMerge.TheLogNamesTheMerged | backend/alembic/versions/0030_merge_duplicate_cpu_alarms.py:76-82 | the history gains an entry with the alias's own severity for exactly the aliases that stood beside their canonical alarm |
| AliasMerge.SurvivorOfOne | backend/alembic/versions/0030_merge_duplicate_cpu_alarms.py:18-19 | an alias alone keeps everything but its name |
| AliasMerge.OccurrencesAreConserved | backend/alembic/versions/0030_merge_duplicate_cpu_alarms.py:65-75 | per device and instance, the occurrences of the open alias and canonical alarms are those of the one left |
| AliasMerge.APlatformPairIsRefused | backend/alembic/versions/0030_merge_duplicate_cpu_alarms.py:57-62 | two open platform alarms make the migration violate the index |
| BandFold.AlarmTable.Fold | backend/alembic/versions/0032_fold_open_bands.py:37-72 | each alarm in view with a higher band over it becomes a symptom of one of those; every matching pair is logged; the rest is untouched |
| BandFold.WhoIsFolded | backend/alembic/versions/0032_fold_open_bands.py:37-72 | said of rows and rules: an alarm in view with an enabled rule's alarm further on, in view on its device and instance, becomes a symptom of one such; every other row stands |
| BandFold.OneStaysOnTop | backend/alembic/versions/0032_fold_open_bands.py:37-72 | where no walk over alarm types along the join comes back, the roots from every alarm that was in view lead to one of the same device and instance that still is, whatever was picked |
| BandFold.OneOnTopExactly | backend/alembic/versions/0032_fold_open_bands.py:43-51 | for any table of rules: that holds for every table of alarms the index allows and every pick if and only if no such walk comes back |
| BandFold.NoTypeCircleExactly | backend/alembic/versions/0032_fold_open_bands.py:45-51 | with one rule a type, no walk comes back if and only if no two enabled rules look towards each other |
| BandFold.CrossingRulesHideBoth | backend/alembic/versions/0032_fold_open_bands.py:45-51 | two crossing rules of different types fold their two alarms under each other |
| BandFold.OneOperatorIsEnough | backend/alembic/versions/0032_fold_open_bands.py:21-22 | one rule a type and one operator a metric are enough |
| BandFold.TwoRulesOfOneTypeHideBoth | backend/alembic/versions/0032_fold_open_bands.py:43-46 | two rules of one type can fold both bands away even where no rules cross |
| KeyRotation.Store.Rotate | backend/scripts/rotate_credential_key.py:58-96 | a complete run re-wraps every readable outdated row and no other; the failures are exactly the unreadable outdated rows; the three counts add up; every committed state is part way; sizes zero and below do nothing |
| KeyRotation.NothingIsLost | backend/scripts/rotate_credential_key.py:16-30 | in every committed state a readable row reads as before under its own key id, and an unreadable one is unchanged |
| KeyRotation.ResumedRunsEndAlike | backend/scripts/rotate_credential_key.py:16-23 | after any number of crashes, the run that completes leaves the key ids and plaintexts of an uninterrupted one |
| KeyRotation.CompleteRunsAreDone | backend/scripts/rotate_credential_key.py:20-23 | running again after a complete run rewrites nothing |
| MessageCodec.Encode | contracts/codegen.py:270-282 | the loop, with its nested lists, fills the dictionary the laws are about |
| MessageCodec.Decode | contracts/codegen.py:284-296 | the loop fills the message the laws are about, defaults included |
| MessageCodec.RoundTrip | contracts/codegen.py:267-296 | decoding the encoding of any well-typed message, nested to any depth, gives it back |
| MessageCodec.PresentExactlyWhenSet | contracts/codegen.py:272-275 | a key is present exactly when its field differs from its default |
| MessageCodec.EachKeyHoldsItsField | contracts/codegen.py:270-282 | under a field's name stands its own value, or for a list of messages the list of their encodings in order |
| MessageCodec.EachFieldTakesItsKey | contracts/codegen.py:284-296 | a decoded field is what stands under its name, its default where nothing does, or the list there with each dictionary decoded by the nested class |
| MessageCodec.EncodingIsInjective | contracts/codegen.py:267-296 | two messages of a class with one encoding are equal |
| MessageCodec.UnknownKeysDoNotMatter | contracts/codegen.py:288-296 | keys the class does not know, added anywhere a message is expected, do not change what is decoded |
| MessageCodec.ForwardCompatible | contracts/codegen.py:267-296 | so a message survives a peer that adds keys to its encoding |
| HistogramQuantile.Walk | tools/loadgen/loadgen.py:321-332 | the walk with its previous edge and count gives the answer of the first bucket that holds the target |
| HistogramQuantile.Compute | tools/loadgen/loadgen.py:308-332 | the quantile of the one sorted list of the buckets given |
| HistogramQuantile.SortedIsUnique | tools/loadgen/loadgen.py:315-315 | only one list is sorted and has those buckets, so their order does not matter |
| HistogramQuantile.TheLoopReturns | tools/loadgen/loadgen.py:323-332 | on a histogram with q in [0,1] the loop returns before its fall-through |
| HistogramQuantile.QuantileInterpolates | tools/loadgen/loadgen.py:316-332 | in the first bucket whose count reaches q times the last, (answer - edge before) * (count - count before) = (edge - edge before) * (target - count before); an infinite bucket answers the edge before it, an empty one its own |
| HistogramQuantile.NoQuantileOfNothing | tools/loadgen/loadgen.py:316-319 | there is no answer exactly where there are no buckets or the last count is not positive |
| HistogramQuantile.QuantileIsInRange | tools/loadgen/loadgen.py:308-332 | the result is a number between 0 and the largest finite edge |
| HistogramQuantile.QuantilesGrow | tools/loadgen/loadgen.py:308-332 | it never falls as q grows |
| HistogramQuantile.QuantileIsAnEdgeExactly | tools/loadgen/loadgen.py:323-330 | on every histogram, it is a given finite edge exactly when q*total is at that edge: a bucket's count there and above the one before, beyond the last finite bucket, or held by a bucket only a point wide |
| HistogramQuantile.RisingEdgesExactly | tools/loadgen/loadgen.py:323-330 | on edges that only rise from above 0, the bucket is that edge's own |
| BundleFraming.Bundle | contracts/mapping_bundle.py:22-31 | the files fed in order give the stream of their one sorted listing |
| BundleFraming.TwoFilesInOrder | contracts/mapping_bundle.py:23-30 | of two files the one whose path comes first in the order is fed first: path, zero byte, contents, zero byte, then the other's |
| BundleFraming.StreamsJoin | contracts/mapping_bundle.py:25-30 | wherever a file stands in the listing, its path and contents stand in the stream between those of the files before and after, a zero byte after each |
| BundleFraming.ParseRecovers | contracts/mapping_bundle.py:25-30 | a parser recovers the files of a stream free of inner zero bytes |
| BundleFraming.OneStreamOneBundle | contracts/mapping_bundle.py:22-31 | for any total order of paths, two such bundles give one stream exactly when they are equal |
| BundleFraming.AZeroByteMakesTwoAlike | contracts/mapping_bundle.py:25-30 | every bundle of two or more files shares its stream with another, the second file swallowed into the first with its zero bytes |
| BundleFraming.OrdersAgreeExactly | contracts/mapping_bundle.py:23-23 | component by component and byte by byte order two paths alike if and only if neither straddles the other |
| BundleFraming.OneStreamEitherWayExactly | contracts/mapping_bundle.py:22-31 | clean files sorted either way give one stream if and only if no path of theirs straddles another |
| BundleFraming.TheTwoOrdersDiffer | contracts/mapping_bundle.py:23-23 | `x/y` and `x.yaml` sort one way as path objects and the other as strings |

## Left out

- `load_graph` and its five-minute cache: the graph is fixed for a run, so a topology change in the middle of one is not modelled.
- Ids are integers with their own order in place of text; times are whole microseconds in place of floating-point seconds.
- `device_name` in the returned root, log lines and the per-row `at` text: labels, with no effect on what is tied or folded.
- `correlate` takes the alarm's onset from its row; the fallback to the clock when the caller passes none is not modelled.
- The order of rows a query does not order is any order, so results hold for all of them.
- Deleting alarm rows, and `release_after_hold` in correlation.py, which can unfold an alarm the cooling marks fold: not steps of the modelled runs.
- `newest_on_bus`, `seen_on_bus`, `mark_collector_status`, the advisory lock's own queue and locks on collector rows: single statements, or outside the two locked tables.
- The last_seen columns of a device row: only its status is modelled.
- Boolean rules of the alarm engine, its clear signals' effect on alarms, and several rules sharing one stored progress: bands have thresholds.
- The downgrade of 0032, and the columns of an alarm row that 0030 and 0032 neither read nor write.
- Concurrent writers during key rotation: the rows are those the script read at its start.
- `int(v)` on enum members, which compare equal to their number: one int in the model. Floating-point doubles are real numbers, so NaN is left out.
- Encoding of paths to bytes, directory walking and SHA-256: the model ends at the byte stream before hashing.
- The Go, TypeScript and proto generators, chaos and load tools, and the other migrations: templates, process control and one-line updates.
