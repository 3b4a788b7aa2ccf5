# Verified model of PowerSimData's core

PowerSimData prepares scenarios of a power grid: it edits a base grid through a change table, derives cost and supply
curves from it, sizes clean capacity, scales profiles and demand, and keeps a shared scenario list. This project models
that logic in Dafny over mathematical reals and proves what it promises, for every input, every order in which
dictionaries and sets are visited, and every run.

`dafny verify dfyconfig.toml` checks all files together.

| files | what they hold |
|---|---|
| `Reals`, `Products`, `Tables`, `GridModel` | finite sums and products; data frames as an index plus rows; the grid's tables, the change table |
| `LinearCost`, `MeritOrder`, `SupplyCurve`, `EconomicDispatch`, `StepDistance`, `PriceScaling`, `FleetScaling` | quadratic costs to piecewise-linear costs, to supply curves, to their comparison and their behaviour under scaling |
| `TransformSpec`, `ScalingSteps`, `Additions`, `TransformGrid`, `GridTheorems`, `Substations` | the transform of a grid by a change table: specification, the imperative class, theorems about the result |
| `NetworkSpec`, `NetworkEdits`, `DefinedHistories`, `CacheKeys`, `PlantEdits`, `PlantRuns`, `PlantCounterexamples`, `FailedScalings`, `ChangeTable` | the change table: validated edits, cached previews, integrity and Pmin clipping over whole histories |
| `MimicGrid`, `MimicFactors`, `MimicRoundTrip`, `TransformProfile`, `ProfileAgreement`, `CleanCapacity`, `DemandSplit` | capacity design, profiles and demand |
| `ListEdits`, `ListProtocol`, `ListCounterexamples`, `ListProgress` | the optimistic commit of the shared lists as interleaved client steps |

Main results:

* The area under the supply curve is the least linearized cost at which the fleet can be raised by q MW, for every q, and
  is attained (`SupplyCurveIsEconomicDispatch`, `MeritOrderIsOptimal`); the curve conserves capacity and quadratic cost
  whatever the number of segments and the order of equal slopes (`SupplyCurveConserves`).
* Comparing two curves at their breakpoints gives the supremum of the price gap over the continuum, a pseudometric
  (`KsIsSupremum`, `KsIsSymmetric`, `KsTriangle`).
* The imperative transform, for every visiting order, ends in one specified grid exactly when a stated condition holds
  (`ApplyChangeTable`); its numbers have an order-free closed form (`ScalingClosedForm`), and scaling thermal capacity by f
  across an area leaves the price of the f-th multiple unchanged, end to end (`TransformedPrices`).
* Over every history of edits: referential integrity (`ReferentialIntegrity`), cached previews that agree with a fresh
  transform (`ChangeTable.Valid` and the `Get` methods). Over every run of plant calls, returned or raised: exactly which
  calls keep 0 <= Pmin <= Pmax (`RunIsBoundedIff`, `PminStaysBelowPmax`).
* Mimicked factors reproduce the reference grid within the tolerance (`MimicRoundTrip`); clean-energy plans close their gap
  exactly (`IndependentClosesGap`, `AddNewCapacitiesCollaborative`); zone demand is conserved exactly when the zone has Pd
  to split by (`DemandIsConserved`).
* No update of the shared list is lost under four stated assumptions (`EveryVersionEditsItsPredecessor`), and dropping any
  one of them loses or revives a row (`ListCounterexamples`).

Where the code falls short of what one would expect, the model keeps the code and says when it does meet the expectation:

* A conflicting commit, and only that, leaves its `.temp` file behind (`ConflictStrands`). Unless another client stands
  between its check and its upload, every later commit then fails (`ConflictBlocksForever`); `ConflictHappens` gets there.
* A failed download silently edits an old local copy, two clients can upload over each other, and content that returns to
  an earlier state defeats the checksum (`ListCounterexamples`, one run each).
* A plant scaled to zero escapes the clipping of its Pmin (`ZeroCapacityDefeatsClipping`), and a Pmin call that raises does
  not clip what it has recorded (`FailedCallUnclips`): both end with Pmin above Pmax on every proper grid.
  `RunIsBoundedIff` says exactly which calls are safe.
* Several failures of the plant scalings drop all factors of the resource, and one success does (`FailedCallForgets` is a
  run; `FailedCallDropsIff`, `ReturnedCallDropsIff` and `FailedCallKeepsIff` say exactly which).
* The profile of a new plant follows its entry, not the grid (`NewColumnFollowsEntry` gives the exact condition,
  `ScalingMissesNewProfile` a run).
* `remove_branch` records its removal before a last preview that may raise (`ChangeTable.RemoveBranch` gives the exact
  condition, `FailedRemovalSticks` two calls).
* Accepted edits can make the transform raise: `HistoryIsDefinedIff` says exactly when they do not.
* A zone whose Pd add up to zero loses its demand (`DemandIsConserved` gives the exact condition).

## Model

| member | source | states |
|---|---|---|
| LinearCost.LinearizeGencost | powersimdata/input/configure.py:67-123 | Fails exactly when some cost row is not a quadratic polynomial; otherwise, for any number of segments, every dispatchable unit gets its breakpoints, evenly spaced from Pmin to Pmax and valued by its quadratic (zeros without segments), and every unit with Pmin = Pmax a fixed price: its quadratic cost there |
| LinearCost.TouchesAtBreakpoints | powersimdata/input/configure.py:89-103 | The piecewise-linear cost equals the quadratic at every breakpoint |
| LinearCost.LinearizationBound | powersimdata/input/configure.py:89-103 | With c2 >= 0 it never lies below the quadratic and exceeds it by at most c2 ((Pmax - Pmin)/n)^2 / 4 |
| LinearCost.BoundIsAttained | powersimdata/input/configure.py:89-103 | The bound is met at the middle of every segment |
| LinearCost.ChordsAreBelow | powersimdata/input/configure.py:89-103 | Every segment's line extended lies below the whole curve |
| LinearCost.LinearizationIsConvex | powersimdata/input/configure.py:89-103 | The piecewise-linear cost is convex between any two points |
| LinearCost.RefinementNeverRaises | powersimdata/input/configure.py:89-103 | Splitting every segment into k never raises the cost anywhere (doubling is k = 2) |
| SupplyCurve.GetSupplyData | powersimdata/design/generation/cost_curves.py:35-57 | The p_diff and slope cells of every unit are the segments of its linearized cost, missing where a unit is not dispatchable; fails exactly on bad cost rows, or when segments are asked for and nothing is dispatchable |
| SupplyCurve.SortBySlope | powersimdata/design/generation/cost_curves.py:181-183 | A permutation sorted by slope, order of equal slopes open |
| SupplyCurve.KeepRows | powersimdata/design/generation/cost_curves.py:154-165 | Exactly the dispatchable units of the zones and types remain, in order |
| SupplyCurve.Accumulate | powersimdata/design/generation/cost_curves.py:185-195 | Segment k of the sorted segments becomes the two points 2k and 2k+1, both at its own slope, from the sum of the widths before it to that sum plus its own |
| SupplyCurve.BuildSupplyCurve | powersimdata/design/generation/cost_curves.py:144-213 | For some sorting by slope of the chosen units' segments, price[2k] and price[2k+1] are the k-th slope and capacity[2k], capacity[2k+1] the sums of the first k and k+1 widths; the exact failures |
| SupplyCurve.ChosenAsOften | powersimdata/design/generation/cost_curves.py:154-180 | A segment occurs in the curve as often as the units of the area and types have it |
| MeritOrder.CurveSteps | powersimdata/design/generation/cost_curves.py:185-195 | The specified step curve has exactly these pairs of prices and capacities, segment by segment |
| MeritOrder.AreaIsFillCost | powersimdata/design/generation/cost_curves.py:185-195 | The area under the curve up to q is the cost of filling segments in merit order |
| MeritOrder.WeakDuality | powersimdata/design/generation/cost_curves.py:181-195 | At any price, the dual bound is below the cost of every draw |
| MeritOrder.MeritOrderIsOptimal | powersimdata/design/generation/cost_curves.py:171-195 | For every q some draw costs the area under the curve and no draw costs less |
| EconomicDispatch.StackingOrder | powersimdata/design/generation/cost_curves.py:171-180 | Stacking segments column by column keeps exactly the units' segments |
| EconomicDispatch.UnitTelescopes | powersimdata/design/generation/cost_curves.py:51-57 | A unit's segment widths sum to Pmax - Pmin and their costs to C(Pmax) - C(Pmin) |
| EconomicDispatch.SupplyCurveConserves | powersimdata/design/generation/cost_curves.py:163-195 | For every number of segments and every sort: monotone capacities and prices, total capacity and total area conserved |
| EconomicDispatch.SupplyCurveIsEconomicDispatch | powersimdata/design/generation/cost_curves.py:171-195 | For convex costs the area is the least fleet cost of raising output by q, over all dispatches, and is attained |
| StepDistance.LowerBoundIndex | powersimdata/design/generation/cost_curves.py:216-235 | Returns the last index before the first larger capacity, None exactly where the source does |
| StepDistance.LowerBoundIsUnique | powersimdata/design/generation/cost_curves.py:216-235 | That index is the only one with its property |
| StepDistance.PriceOn | powersimdata/design/generation/cost_curves.py:284-296 | At the total capacity the last price, elsewhere the price listed at the last index before the first larger capacity |
| StepDistance.KsTest | powersimdata/design/generation/cost_curves.py:273-308 | Fails exactly on empty curves, unequal total capacity or a breakpoint without a price; otherwise no breakpoint of either curve has a larger price gap and some breakpoint has this one |
| StepDistance.PriceExists | powersimdata/design/generation/cost_curves.py:216-235 | On a well-formed curve a price exists everywhere between 0 and the total: no None index |
| StepDistance.KsIsSupremum | powersimdata/design/generation/cost_curves.py:273-308 | The result is an upper bound of the price gap at every capacity and is attained |
| StepDistance.KsIsSymmetric | powersimdata/design/generation/cost_curves.py:273-308 | Swapping the curves does not change the result |
| StepDistance.KsTriangle | powersimdata/design/generation/cost_curves.py:273-308 | Triangle inequality across three breakpoint sets |
| PriceScaling.BuiltCurvesAreWellFormed | powersimdata/design/generation/cost_curves.py:185-195 | Every built curve is a valid argument of the comparison, with the fleet's capacity |
| PriceScaling.StretchedPrice | powersimdata/design/generation/cost_curves.py:181-195 | Stretching widths by f moves the price at q to q f, for all sorts of both curves |
| PriceScaling.CostIsHomogeneous | powersimdata/input/transform_grid.py:169-179 | Scaling a thermal unit by f gives C'(f p) = f C(p) |
| PriceScaling.ScaledSegments | powersimdata/input/configure.py:89-103 | The scaled unit's segments have the same slopes and f times the widths |
| PriceScaling.ScalingIsHomogeneous | powersimdata/design/generation/cost_curves.py:171-195 | price'(f q) = price(q) for a scaled fleet |
| FleetScaling.TransformedFleet | powersimdata/input/transform_grid.py:81-108 | A change table whose factors, by zone or by plant id, amount to f for every unit of an area scales exactly the queried fleet, whatever else it holds |
| FleetScaling.TransformedPrices | powersimdata/input/transform_grid.py:81-108 | From the change table through the transform to the supply curve: the price at q f equals the base price at q |
| FleetScaling.ZoneFactorScales | powersimdata/input/transform_grid.py:81-96 | One capacity factor f by zone and no id factor is such a scaling |
| FleetScaling.IdFactorScales | powersimdata/input/transform_grid.py:98-108 | So is one capacity factor f by plant id under a thermal resource and no zone factor |
| TransformGrids.TransformGrid.ScaleByZone | powersimdata/input/transform_grid.py:81-96 | One family of zone factors of one resource: fails exactly if some factor finds no plant, else every unit of the resource is scaled by its zone's factor, in any order |
| TransformGrids.TransformGrid.ScaleById | powersimdata/input/transform_grid.py:98-108 | The same for factors by plant id |
| TransformGrids.TransformGrid.ScaleResourceByZone | powersimdata/input/transform_grid.py:34-39 | The three families of one resource by zone |
| TransformGrids.TransformGrid.ScaleResourceById | powersimdata/input/transform_grid.py:62-67 | The three families of one resource by id |
| TransformGrids.TransformGrid.ScaleAllByZone | powersimdata/input/transform_grid.py:32-39 | All resources, in any order: each unit gets the factors of its own resource and zone only |
| TransformGrids.TransformGrid.ScaleAllById | powersimdata/input/transform_grid.py:60-67 | All resources, in any order: each unit gets the product of all factors recorded for its id |
| TransformGrids.TransformGrid.ScaleBranchByZone | powersimdata/input/transform_grid.py:181-190 | Branches with both ends in a zone get rateA times and x divided by its factor |
| TransformGrids.TransformGrid.ScaleBranchById | powersimdata/input/transform_grid.py:192-205 | The same by branch id |
| TransformGrids.TransformGrid.ScaleDcLine | powersimdata/input/transform_grid.py:207-213 | DC lines scaled by id; a zero factor switches the line off |
| TransformGrids.TransformGrid.AddBus | powersimdata/input/transform_grid.py:257-314 | Buses, substations and their mapping after the loop equal the specification; fails exactly on an unknown zone |
| TransformGrids.TransformGrid.AddBranch | powersimdata/input/transform_grid.py:215-255 | Appended rows, or failure exactly on unknown buses, zones or voltages |
| TransformGrids.TransformGrid.AddDcLine | powersimdata/input/transform_grid.py:316-336 | Appended rows, or failure exactly on unknown buses |
| TransformGrids.TransformGrid.AddPlant | powersimdata/input/transform_grid.py:343-367 | Appended plant rows |
| TransformGrids.TransformGrid.AddGencost | powersimdata/input/transform_grid.py:369-386 | Appended cost rows of type 2 with n = 3: a thermal plant has the c0, c1 and c2 of its entry, any other zeros; fails exactly without cost rows to follow or without terms |
| TransformGrids.TransformGrid.AddGen | powersimdata/input/transform_grid.py:338-341 | Both tables together |
| TransformGrids.TransformGrid.AddStorageUnits | powersimdata/input/transform_grid.py:388-469 | Storage units and their energy data, numbered after the largest plant id |
| TransformGrids.TransformGrid.RemoveBranch | powersimdata/input/transform_grid.py:471-474 | A branch stays exactly if it was there and is not listed; kept rows and their order do not change, nothing else changes |
| TransformGrids.TransformGrid.RemoveBus | powersimdata/input/transform_grid.py:476-479 | The same for buses; the mapping to substations is untouched |
| TransformGrids.TransformGrid.AddAll | powersimdata/input/transform_grid.py:44-58 | All additions in the source's order |
| TransformGrids.TransformGrid.ApplyChangeTable | powersimdata/input/transform_grid.py:30-79 | Succeeds exactly if the transform is defined, and then yields the specified grid, for every visiting order |
| GridTheorems.ZoneScaledIsMultiplied | powersimdata/input/transform_grid.py:81-179 | The three zone scalings act as one multiplier, zero skipped in the divisor of c2 |
| GridTheorems.MultipliedTwice | powersimdata/input/transform_grid.py:81-179 | Two multipliers in a row act as their product |
| GridTheorems.ScalingClosedForm | powersimdata/input/transform_grid.py:30-179 | The final row of a base plant and its costs are its base row under one order-free multiplier made of its zone factors and the product of its id factors |
| GridTheorems.OldPlantIsScaled | powersimdata/input/transform_grid.py:30-179 | Written out: Pmax, Pmin, c0, c1 and c2 of a base plant, each as its base value times the zone factor and the product of the id factors of its kind; c2 is divided by the nonzero capacity factors; nothing else in the rows changes |
| GridTheorems.FactorsAreRecorded | powersimdata/input/transform_grid.py:81-108 | Each of these factors is what its own family records for that resource and zone or id, and 1 where nothing is recorded |
| GridTheorems.NewPlantClosedForm | powersimdata/input/transform_grid.py:30-179 | A new plant gets a fresh id and is its own entry's row times id factors only |
| GridTheorems.NewPlantIsItsEntry | powersimdata/input/transform_grid.py:343-386 | Written out: the entry's Pmax and Pmin times their id factors; c0, c1, c2 of a thermal entry times their factors (c2 divided by the capacity factor), zeros for any other, type 2 and n = 3; the entry's bus and resource, and that bus's zone and interconnect |
| GridTheorems.NewStorageIsItsEntry | powersimdata/input/transform_grid.py:388-469 | Base storage stays; the i-th new unit is at its entry's bus with limits -capacity and capacity, starts half full, and has the entry's shares of capacity times duration as levels and its price, efficiencies and loss |
| GridTheorems.BranchScaling | powersimdata/input/transform_grid.py:181-205 | A base branch keeps its ends, rateA is multiplied and x divided by its factors (x is not finite after a zero one); rateA x is unchanged for nonzero factors |
| GridTheorems.IdAssignment | powersimdata/input/transform_grid.py:252-396 | The i-th addition gets last base id + 1 + i whatever else happens; plant and cost ids equal; storage numbers consecutive and never a plant id |
| GridTheorems.AssignedIds | powersimdata/input/transform_grid.py:252-282 | A bus or branch id is in the transformed index exactly if it is a base id or the id of a new entry and is not removed; new ids are never base ids; indices stay ascending |
| NetworkSpec.NewBusHasItsEntry | powersimdata/input/transform_grid.py:258-282 | The i-th new bus carries its own entry's coordinates, zone, demand and voltage, and the interconnect of the first base bus of its zone |
| NetworkSpec.NewLinesJoinTheirBuses | powersimdata/input/transform_grid.py:218-336 | The i-th new branch and DC line join the buses of their own entries |
| NetworkSpec.IdsAreNeverReused | powersimdata/input/transform_grid.py:252-282 | However the change table grows and whatever is removed, an entry's id belongs to that entry or to nothing |
| NetworkSpec.NewBranchLimits | powersimdata/input/transform_grid.py:215-255 | The i-th new branch has its entry's capacity times its id factor (no zone factor), lies in the zones and interconnect of its buses, and its reactance is its length times the mean reactance per distance of its two voltages, divided by that factor |
| NetworkSpec.NewDcLineLimits | powersimdata/input/transform_grid.py:316-336 | The i-th new DC line has its entry's limits times its factor, the interconnects of its two buses, and is off exactly if the factor is zero |
| NetworkSpec.DcLineScaling | powersimdata/input/transform_grid.py:207-213 | A base DC line takes its own factor, is switched off by a zero one, and nothing else changes |
| Substations.SubstationBookkeeping | powersimdata/input/transform_grid.py:257-314 | bus2sub ids are all bus ids; base rows untouched; each new bus sits at the first substation with its coordinates, under its zone's interconnect; exactly one new substation per needed place, none elsewhere, with the interconnect of a bus it was built for |
| NetworkSpec.TransformedNetwork | powersimdata/input/transform_grid.py:44-79 | Buses, line ends and storage of the transform depend on additions and removals only |
| NetworkEdits.EditKeepsSound | powersimdata/input/change_table.py:546-610 | Every allowed edit keeps lines and storage on existing buses, no loops, no AC line across interconnects |
| NetworkEdits.ReferentialIntegrity | powersimdata/input/changes/bus.py:62-101 | After every history of edits the transformed grid has that integrity |
| NetworkEdits.RemovalAllowedIff | powersimdata/input/changes/bus.py:62-101 | A removal passes the checks if and only if, in the transformed grid, the branches exist, or the buses exist and no storage, branch or DC line ends there |
| DefinedHistories.HistoryIsDefinedIff | powersimdata/input/transform_grid.py:215-336 | After every history of accepted edits the transform succeeds if and only if each new bus lies in a zone with base buses, each new branch at voltages of existing lines, and the extended tables are not empty |
| CacheKeys.BusKeyInjective | powersimdata/input/change_table.py:649-657 | Equal cache keys mean equal additions and removals of buses |
| CacheKeys.BranchKeyInjective | powersimdata/input/change_table.py:649-657 | The same for branches |
| CacheKeys.DcLineKeyInjective | powersimdata/input/change_table.py:649-657 | The same for DC lines |
| CacheKeys.StorageKeyInjective | powersimdata/input/change_table.py:635-643 | The same for storage |
| ChangeTables.ChangeTable.constructor | powersimdata/input/change_table.py:119-137 | An empty change table with empty caches, which agree |
| ChangeTables.ChangeTable.Fresh | powersimdata/input/transform_grid.py:12-28 | A fresh transform, or its failure |
| ChangeTables.ChangeTable.GetBus | powersimdata/input/change_table.py:649-678 | The cached or fresh bus table equals that of a fresh transform whenever that is defined; it raises exactly if there are edits, no cache entry, and the transform raises |
| ChangeTables.ChangeTable.GetBranch | powersimdata/input/change_table.py:649-678 | The same for branch ids and ends |
| ChangeTables.ChangeTable.GetDcLine | powersimdata/input/change_table.py:649-678 | The same for DC lines |
| ChangeTables.ChangeTable.GetStorageGen | powersimdata/input/change_table.py:635-648 | The same for storage units |
| ChangeTables.ChangeTable.AddBus | powersimdata/input/changes/bus.py:4-59 | Recorded exactly if every bus lies on the globe in a known zone at a positive voltage; then one entry each is appended with the caller's values, Pd 0 and 230 kV where none is given, and nothing else changes |
| ChangeTables.ChangeTable.AddLine | powersimdata/input/change_table.py:546-610 | Recorded exactly if the bus preview does not raise and every line passes the checks on the anticipated buses, all or none; the i-th appended entry has the caller's buses and the limits -capacity and capacity, or the given Pmin and Pmax, and nothing else changes |
| ChangeTables.CallerGetsCapacity | powersimdata/input/change_table.py:573-606 | From the call to the transformed grid: rateA of the new branch is the caller's capacity times its id factor, the limits of a new DC line the caller's times its factor |
| ChangeTables.ChangeTable.AddStorageCapacity | powersimdata/input/changes/storage.py:48-74 | Recorded exactly if the bus preview does not raise and every unit is on an anticipated bus with nothing negative and no share or efficiency above 1, all or none; each appended entry has the caller's values and the grid's defaults where none is given |
| ChangeTables.ChangeTable.RemoveBranch | powersimdata/input/change_table.py:680-695 | Succeeds exactly if neither preview raises and the branches exist; the given ids join those already removed; says exactly when a failing call has changed the table |
| ChangeTables.FailedRemovalSticks | powersimdata/input/change_table.py:680-695 | For every grid with a zone without buses, two calls after which a failed removal is recorded |
| ChangeTables.ChangeTable.RemoveBus | powersimdata/input/changes/bus.py:62-101 | Recorded exactly if no preview raises, the buses exist and carry no generator, storage, branch or DC line; the given ids join those already removed |
| ChangeTables.RemovalKeepsDefined | powersimdata/input/transform_grid.py:75-79 | Removals never make the transform fail |
| ChangeTables.ChangeTable.ClearAll | powersimdata/input/change_table.py:197-200 | Empties the table; the caches stay right |
| ChangeTables.ChangeTable.Clear | powersimdata/input/change_table.py:217-241 | The keys of the named groups are gone and all others unchanged; fails exactly on an absent storage key, and then nothing changes |
| ChangeTables.ClearedShowsBase | powersimdata/input/change_table.py:217-241 | A cleared group shows the base grid again, an uncleared one what it showed; clearing all groups gives the empty table |
| ChangeTables.ChangeTable.AddPlant | powersimdata/input/changes/plant.py:25-65 | Recorded exactly if the bus preview does not raise and every plant has a known resource and bus, 0 <= Pmin <= Pmax, and either costs that are not negative or, with a profile, a base plant of its resource; each appended entry has the caller's values, the default Pmin and the closest such plant filled in |
| PlantEdits.NormalPlant | powersimdata/input/changes/plant.py:30-61 | An accepted entry has 0 <= Pmin <= Pmax, valid cost terms or a neighbour of its own type |
| PlantEdits.NormalPlantIs | powersimdata/input/changes/plant.py:30-61 | Exactly the plants that pass those checks get an entry; without a Pmin it is the resource's share of Pmax, or 0 where the share is empty; no plant of the resource is closer than the neighbour |
| PlantEdits.Closest | powersimdata/utility/distance.py:86-95 | The first of the candidates that no other is closer than; None only without candidates |
| ChangeTables.ChangeTable.FindClosestNeighbor | powersimdata/utility/distance.py:78-95 | The loop finds that candidate |
| ChangeTables.ChangeTable.PlantPreview | powersimdata/input/change_table.py:658-678 | The anticipated plant ids are base ids plus one per new entry |
| ChangeTables.ChangeTable.AddPlantEntries | powersimdata/input/change_table.py:256-293 | The outcome and the whole new change table of every call; with the lemmas of FailedScalings: exactly when it raises, and what a raising call loses, keeps or leaves behind |
| PlantRuns.EntriesSource | powersimdata/input/change_table.py:256-293 | Returned or raised, only one key of one family changes, and only to factors that were there or given, none negative, plant factors only for known plants |
| FailedScalings.RaisesIff | powersimdata/input/change_table.py:256-293 | The call returns if and only if the resource, the zones and the plants are known, no factor is negative, the lookup does not raise and a zone factor is left where plant factors follow |
| FailedScalings.ReturnedCallRecords | powersimdata/input/change_table.py:256-293 | A returning call has recorded every given plant factor and every zone factor with plants, keeps those it does not name and leaves all other keys alone; without a zone factor left the key is gone |
| FailedScalings.FailedCallDropsIff | powersimdata/input/change_table.py:264-285 | A raising call has lost everything recorded for the resource if and only if a zone is unknown, or zones are good and a plant is unknown or no zone factor is left |
| FailedScalings.ReturnedCallDropsIff | powersimdata/input/change_table.py:273-280 | A returning call has lost everything recorded for the resource if and only if zone factors only are given and none finds plants |
| FailedScalings.FailedCallKeepsIff | powersimdata/input/change_table.py:256-293 | Exactly when a raising call leaves the change table as it was |
| FailedScalings.FailedCallForgets | powersimdata/input/change_table.py:281-285 | Two calls on any grid: a factor is recorded, and a call naming an unknown plant raises and loses it |
| FailedScalings.FailedCallUnclips | powersimdata/input/changes/plant.py:79-100 | On every proper grid, for every plant: one raising Pmin call records a zone factor, does not clip, and leaves Pmin above Pmax |
| ChangeTables.ChangeTable.Correct | powersimdata/input/changes/plant.py:94-100 | The correction loop multiplies each correction into its plant's factor, in any order |
| ChangeTables.ChangeTable.ScalePlantPmin | powersimdata/input/changes/plant.py:68-100 | The outcome and the whole new change table of every call, with clipping; what the clipping does to the limits is in PlantRuns.ClippingIsExact |
| PlantEdits.PlantLimits | powersimdata/input/transform_grid.py:135-167 | Final limits of any plant, old or new, as starting limits times its total factors |
| PlantRuns.CorrectedFactor | powersimdata/input/changes/plant.py:94-100 | A correction multiplies the plant's total factor by exactly its value |
| PlantRuns.LimitsHoldIff | powersimdata/input/transform_grid.py:135-167 | Pmin <= Pmax afterwards if and only if capacity is scaled to zero or the Pmin factors fit |
| PlantRuns.ZeroHidesFromClipping | powersimdata/input/changes/plant.py:80-84 | A plant scaled to zero is never clipped, whatever its Pmin factors |
| PlantRuns.ClippingFits | powersimdata/input/changes/plant.py:80-100 | The guard of one clipping: afterwards a plant's factors fit if and only if its capacity factor is not zero or they already fitted |
| PlantRuns.ClippingBounds | powersimdata/input/changes/plant.py:80-100 | After a Pmin call that returns the factors of every plant fit if and only if each plant had a nonzero capacity factor or already fitted |
| PlantRuns.ClippingIsExact | powersimdata/input/changes/plant.py:79-100 | Clipping is exact: with t the transform once the factors are entered and u that of the table left behind, every plant has u.Pmax = t.Pmax and u.Pmin = min(t.Pmin, t.Pmax) |
| PlantRuns.RunClipsExactly | powersimdata/input/changes/plant.py:68-100 | So does every returning Pmin call of every run of calls from an empty change table on a proper grid |
| PlantRuns.RunIsSigned | powersimdata/input/change_table.py:256-293 | No run of calls, returned or raised, ever records a negative factor |
| PlantRuns.StepKeepsBounded | powersimdata/input/change_table.py:256-293 | Of all plant calls, returned or raised, exactly the unguarded Pmin calls break the fit |
| PlantRuns.RunIsBoundedIff | powersimdata/input/change_table.py:256-293 | Along every run of calls, returned or raised, the factors fit at every point if and only if every Pmin call was guarded: one that clips finds a table it can cover, one that raises leaves factors that fit as entered |
| PlantRuns.PminStaysBelowPmax | powersimdata/input/changes/plant.py:36-100 | At every point of every run of calls, returned or raised, whose Pmin calls were guarded, zero capacity factors included, 0 <= Pmin <= Pmax for every plant of the transformed grid |
| PlantRuns.MisfitShowsAgain | powersimdata/input/transform_grid.py:135-167 | Once factors do not fit, every later table with the same Pmin factors and a nonzero capacity factor breaks the limits |
| PlantCounterexamples.ZeroCapacityDefeatsClipping | powersimdata/input/changes/plant.py:79-100 | On every proper grid, for every plant: three successful calls (capacity 0, Pmin raised, capacity 1) that end with Pmin above Pmax |
| MimicGrid.Median | powersimdata/design/mimic_grid.py:32 | The median lies between two of the values |
| MimicGrid.MedianIsMiddle | powersimdata/design/mimic_grid.py:29-32 | At least half of a group's scalings are at most the median and at least half at least it |
| MimicGrid.MedianOfOrdered | powersimdata/design/mimic_grid.py:32 | However the values are put in ascending order, the median is the middle one, or the mean of the middle two |
| MimicFactors.ZoneFactorIsMedian | powersimdata/design/mimic_grid.py:16-44 | In terms of the two grids: a zone factor is 0 if no plant of the group has capacity left, else the median of reference over base Pmax of those that have, unless that is within eps of 1; groups without plants have none |
| MimicFactors.PlantFactorIsLeft | powersimdata/design/mimic_grid.py:41-55 | A plant factor times its zone factor is reference over base Pmax (0 for a plant that has gone), recorded under the plant's own resource unless within eps of 1; a vanished group has none |
| MimicGrid.TotalIsZero | powersimdata/design/mimic_grid.py:17-20 | A group's scalings add up to zero exactly if none is positive |
| MimicGrid.ZeroGroups | powersimdata/design/mimic_grid.py:16-27 | Exactly the vanished groups get zone factor 0 and lose their plant scalings, in any order |
| MimicGrid.MedianGroups | powersimdata/design/mimic_grid.py:29-44 | Every other group gets its median unless nearly 1, and its positive scalings are divided by it |
| MimicGrid.PlantFactors | powersimdata/design/mimic_grid.py:46-55 | What is left is recorded unless nearly 1 |
| MimicGrid.CommonZoneFactors | powersimdata/design/mimic_grid.py:14-57 | Every zone and plant factor of the table, and no others |
| MimicGrid.MimicGenerationCapacity | powersimdata/design/mimic_grid.py:60-77 | A table exists exactly if every reference plant is known and has base capacity to scale |
| MimicRoundTrips.MimicRoundTrip | powersimdata/design/mimic_grid.py:13-57 | Transforming the base grid by the table gives every plant a Pmax within eps times zone factor times base Pmax of the reference, exactly it where it is 0 or the plant has its own factor |
| MimicRoundTrips.MimicIsDefined | powersimdata/input/transform_grid.py:81-108 | The mimicked table never makes the transform fail |
| TransformProfiles.NumberOfNewPlant | powersimdata/input/transform_profile.py:35-48 | The number of new plants and of those with a profile |
| TransformProfiles.AddPlantProfile | powersimdata/input/transform_profile.py:87-104 | Each new column is its own entry's neighbour's profile times its own Pmax; fails exactly on a missing neighbour |
| TransformProfiles.RenewableProfile | powersimdata/input/transform_profile.py:50-85 | Columns, values and exact failures for a given transformed plant table |
| ProfileAgreement.ProfileAgrees | powersimdata/input/transform_profile.py:57-104 | The computed profile exists, its columns are exactly the group's plants in index order, old columns are raw times transformed Pmax, new columns the entry's neighbour's raw column times the entry's Pmax |
| ProfileAgreement.RunIsNeighborly | powersimdata/input/changes/plant.py:46-53 | After every run of edits each new plant borrows from a base plant of its own type |
| ProfileAgreement.NewColumnFollowsEntry | powersimdata/input/transform_profile.py:95-104 | A new column is raw profile times transformed Pmax if and only if the plant's capacity factor is 1 or its Pmax 0 |
| PlantCounterexamples.ScalingMissesNewProfile | powersimdata/input/transform_profile.py:95-104 | For every accepted entry with a profile and positive Pmax: two successful calls (add, double capacity) after which the computed profile's column is not the raw one times the grid's Pmax |
| CleanCapacity.AddShortfallToTargets | powersimdata/design/generation/clean_capacity_scaling.py:259-280 | Shortfall and overgeneration are nonnegative, never both, and differ by target minus previous and external clean energy, whatever order the resources are added in |
| CleanCapacity.CollaborativeIsTotalGap | powersimdata/design/generation/clean_capacity_scaling.py:300-304 | The pooled shortfall is the participants' total gap |
| CleanCapacity.CollaborationNeverCosts | powersimdata/design/generation/clean_capacity_scaling.py:300-306 | Collaborative shortfall never exceeds independent; equality condition |
| CleanCapacity.IndependentClosesGap | powersimdata/design/generation/clean_capacity_scaling.py:328-354 | From the target's own columns: added capacity times capacity factor times (1 - curtailment) times hours, over the resources with a known factor, is exactly the shortfall, and solar and wind grow in the given percentage or, without one, in proportion to their capacities |
| CleanCapacity.IndependentIsPossible | powersimdata/design/generation/clean_capacity_scaling.py:328-354 | A plan exists exactly if the solar share is determined and some new capacity goes to a resource with a known capacity factor |
| CleanCapacity.AddNewCapacitiesIndependent | powersimdata/design/generation/clean_capacity_scaling.py:320-377 | Every target with a plan gets next capacities that close its own gap in these terms (IndependentIsPossible says which targets have one) |
| CleanCapacity.AddNewCapacitiesCollaborative | powersimdata/design/generation/clean_capacity_scaling.py:393-448 | The participants' growth, times average factors that are the capacity-weighted means of factor times (1 - curtailment), generates exactly their total gap; all grow alike, others are unchanged; exact failures |
| DemandSplit.ZoneConservation | powersimdata/input/input_data.py:71-85 | The buses of a zone get the zone's demand, or nothing where its Pd add up to zero |
| DemandSplit.DemandIsConserved | powersimdata/input/input_data.py:71-85 | In every hour a zone's demand is conserved if and only if its Pd total is nonzero or there is none |
| DemandSplit.DemandIsProportional | powersimdata/input/input_data.py:71-85 | Within a zone the buses' demands are in proportion to their Pd, in every hour, and every bus has one |
| DemandSplit.TotalIsConserved | powersimdata/input/input_data.py:71-85 | All buses together get all zones' demand |
| DemandSplit.SplitFailsIff | powersimdata/input/input_data.py:71-74 | With Pd >= 0 the split fails exactly when the zones differ |
| ListEdits.GenerateId | powersimdata/data_access/scenario_list.py:21-29 | One more than the largest id present, 1 for an empty list |
| ListEdits.DropDuplicatesFacts | powersimdata/data_access/csv_store.py:53-56 | Merged lists have unique ids and lose none |
| ListEdits.EditKeepsUniqueIds | powersimdata/data_access/scenario_list.py:65-95 | Adding, deleting and setting a status keep ids unique |
| ListEdits.EditKeepsRow | powersimdata/data_access/scenario_list.py:65-95 | An edit keeps every row it does not name |
| ListEdits.EditDoes | powersimdata/data_access/scenario_list.py:65-95 | Adding appends the fields under the next id; deleting takes out the one row of the id and fails exactly on an unknown id; a status replaces the row of the id where it stands, or is appended; nothing else moves |
| ListEdits.MergeKeepsRow | powersimdata/data_access/csv_store.py:46-56 | Merging with the blob list keeps every row of the server's list |
| ListEdits.MergeHolds | powersimdata/data_access/csv_store.py:46-56 | The merged list holds exactly the server's rows and the blob store's rows of other ids |
| ListProtocol.RunKeepsInv | powersimdata/data_access/csv_store.py:12-17 | The invariant of every state of every interleaving |
| ListProgress.UndisturbedPublishes | powersimdata/data_access/csv_store.py:12-67 | An operation nobody interrupts publishes its edit of the downloaded list (the local one if the download fails), merged with the blob list, if and only if the edit can be made and no uploaded file was left behind; otherwise the server's files stay |
| ListProtocol.PublishesOnlyIfUnchanged | powersimdata/data_access/data_access.py:263-280 | A publish happens only if the list has the digest the client took; ids of every published version are unique |
| ListProtocol.NoLostUpdate | powersimdata/data_access/csv_store.py:12-17 | With exclusive uploads, copies that match their digest and no collision among versions and copies, every version is an edit of its predecessor |
| ListProtocol.FreshCopiesSuffice | powersimdata/data_access/csv_store.py:46-67 | Working downloads, no recurring content and no collision make copies match |
| ListProtocol.EveryVersionEditsItsPredecessor | powersimdata/data_access/csv_store.py:12-56 | Under the four assumptions every published version is its client's edit of its immediate predecessor, merged with the blob list |
| ListProtocol.RowsSurvive | powersimdata/data_access/scenario_list.py:65-95 | A published row stays in every later version until a publish names its id |
| ListProtocol.ConflictStrands | powersimdata/data_access/data_access.py:263-280 | A commit leaves its uploaded file behind if and only if the digest has changed |
| ListProtocol.ConflictBlocksForever | powersimdata/data_access/data_access.py:248-256 | If no client stands between its check and its upload, nothing is ever published after that, whatever the clients do |
| ListProtocol.ConflictBlocksExclusive | powersimdata/data_access/data_access.py:248-256 | After any conflict, the same for every continuation in which no upload replaces the leftover file |
| ListCounterexamples.ConflictHappens | powersimdata/data_access/data_access.py:248-280 | A run that reaches a conflict which blocks forever, although downloads work, uploads are exclusive and nothing recurs |
| ListCounterexamples.FailedDownloadLosesRows | powersimdata/data_access/csv_store.py:58-67 | A run that breaks only the download assumption loses a row |
| ListCounterexamples.RacingUploadsSwapEdits | powersimdata/data_access/data_access.py:250-256 | A run that breaks only the exclusive uploads publishes the wrong edit |
| ListCounterexamples.RecurringContentRevivesRow | powersimdata/data_access/csv_store.py:12-17 | A run that breaks only non-recurrence revives a deleted row |
| ListCounterexamples.CollisionLosesRow | powersimdata/data_access/csv_store.py:12-17 | For every digest that confuses two lists, a run that breaks only collision-freedom loses a row |

## Left out

- Rounding: all numbers are mathematical reals; a quotient by zero is modelled as a missing value, an error or `NotFinite`.
- `remove_plant` and `remove_dcline`: recorded by the source but never applied by the transform.
- The plant cache: its key omits the resource name; the model takes the ids of the anticipated plants from a fresh transform.
- ChangeTables.ChangeTable.RemoveBus: takes the buses with positive generating capacity as a parameter, because they come from the plant cache.
- ChangeTables.ChangeTable.GetBranch: claims agreement for ids and ends only; cached capacities may be out of date after scaling, by design of the key.
- ChangeTables.ChangeTable.GetDcLine: claims agreement for ids and ends only, for the same reason.
- MimicGrid.MimicGenerationCapacity: a reference plant with capacity where the base plant has none gives infinite factors in the source and no table here; capacities are taken to be nonnegative.
- CleanCapacity.AddNewCapacitiesIndependent: the join of a separately given curtailment table is not modelled, curtailment is part of each target; normalising a shortfall by demand is left out.
- DemandSplit.DemandIsConserved: shares that would be infinite (nonzero Pd adding up to zero) are an error here and infinities in the source.
- Base grids are taken to have ascending indices and at least one bus and one substation (`WellFormed`); new rows on other empty tables fail as in the source.
- Zone names, names and interconnect-wise numbers of substations, coordinates copied into branch and plant rows, branch device types and the startup, ramp and fuel columns: copied, never computed with.
- Zones are identified by id throughout; `zone_name` arguments are translated by a dictionary the model does not hold.
- Type and key-name checks of entries, messages, plotting, saving to files.
- `voltage_to_x_per_distance`, distances between coordinates: parameters (`Geography`).
- Hashing, file transfer, the lock and the blob store: single abstract steps; the backup that the move keeps is not modelled.
- Local, temporary and in-memory variants of `push`, which make no promise under concurrency.
- Execute-list fields other than the status, and `scenario_info` updated in place by `add_entry`: not part of the list.
- `scale_branch_capacity`, `scale_dcline_capacity` and `scale_demand` of the change table; the transform of whatever branch and DC line factors they record is modelled.
- Demand flexibility, electrified demand, scaling of demand profiles, stub and mesh branch scaling.
- `adjust_pmin`, `adjust_ramp30`, PyPSA import and export, investment costs, connectivity checks, scenario state switching.
