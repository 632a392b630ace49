# Trunk/branch/leaf chart: data preparation and path shapes

This project models the computational core of a Power BI "trunnel" visual,
which draws a series of `(name, value)` items as a tree. The first
`items - leaves` items are branches that rise from the trunk. The last
`leaves` items are leaves that fan out to a right-hand axis. All of it lives
in `Visual.update` (`src/visual.ts`), in two parts:

- **The data-preparation pass** (`DataPass`). One forward loop over the
  series. It keeps a running sum of all values (`runSum`) and of the leaf
  values (`leafRunSum`), sets a sticky is-leaf flag, totals the trunk and
  leaf domains, collects the branch and leaf category labels, and emits one
  derived row per item. `PrepareData` is that loop, written imperatively.
  It is proved equal to `Pass`, a definition without a loop. The lemmas beside
  `Pass` state what the chart relies on: rows copy the input in order, slices
  tile the trunk, the leaf sums behave as stated, the domains split, and the
  category lists partition the labels.
- **Path-shape selection** (`PathShape`). These are the per-row functions
  `getHorizontal` (`Horizontal`) and `getLine` (`Line`). They return abstract
  endpoint descriptors. Each descriptor names the scale argument or fixed
  coordinate of a point instead of a pixel value.

`Series` holds the input item, the derived row, the value total and the
chart's built-in dataset. Values are whole numbers (`int`), as in that
dataset. `leaves` is a parameter; the chart's own value is `DataPass.Leaves`
(3).

Two edge cases of the code:
- When there are no more items than leaves, `branches` is zero or negative
  and every row is a leaf; there are no branch labels. The model covers this
  (`RowsFollowInput`, `CategoriesPartitionNames`).
- `leafRunSum` never decreases only when values are non-negative
  (`RunSumsMonotone` requires `NonNegative`).

## Model

| member | source | states |
|---|---|---|
| `DataPass.PrepareData` | src/visual.ts:109-156 | The forward loop leaves exactly the state `Pass` defines: all rows, both category lists, both domains and the final `runSum`, `leafRunSum` and `isLeaf` |
| `DataPass.RowsFollowInput` | src/visual.ts:128-148 | One row per item, in order, with name and value copied. A row is a leaf exactly when its index is `>= items - leaves`, so the first `max(0, items - leaves)` rows (up to `FirstLeaf`) are exactly the branch rows. A leaf row is followed only by leaf rows. The final flag is true exactly when the last row is a leaf |
| `DataPass.TrunkSlicesTile` | src/visual.ts:122-150 | Row `i`'s `runSum` is the total of items `0..i-1`, so the first is 0. Each row's slice starts where the previous one ends. The last slice ends at `trunkDomain`, which is the total of all values and the final `runSum` |
| `DataPass.LeafRunSums` | src/visual.ts:123-153 | `leafRunSum` is 0 on branch rows. On a leaf row it is the total of the earlier leaf values. It grows by exactly the leaf values from row to row. The final `leafRunSum` equals `leavesDomain` |
| `DataPass.RunSumsMonotone` | src/visual.ts:148-153 | For non-negative values, `runSum` and `leafRunSum` never decrease along the rows |
| `DataPass.DomainsSplitTotal` | src/visual.ts:116-135 | `leavesDomain` is the total of the last `min(leaves, items)` values. `trunkDomain` is the branch total plus `leavesDomain`. For non-negative values, `0 <= leavesDomain <= trunkDomain` |
| `DataPass.CategoriesPartitionNames` | src/visual.ts:119-145 | Branch labels followed by leaf labels are the input labels in order. There are `max(0, items - leaves)` branch labels and `min(leaves, items)` leaf labels. Each row's label sits at its own position in its own list |
| `DataPass.DatasetPass` | src/visual.ts:73-156 | On the built-in dataset with 3 leaves: branches Withdrawn, Transfered, Certificate, Diploma; leaves 1st, 2.1, 2.2; trunk total 95; leaf total 60; `runSum` of "1st" is 35; `leafRunSum` of "2.1" is 20 |
| `Series.SumStep` | src/visual.ts:150-153 | Processing the next item adds its value to the running total of any slice that ends there |
| `Series.SumSplit` | src/visual.ts:130-135 | The total of a series is the total of its branch prefix plus the total of its leaf suffix |
| `PathShape.Line` | src/visual.ts:211-247 | The line starts where the stop stroke starts. Its horizontal segment ends where the stop stroke's does. Its curve ends on the baseline exactly for branch rows, and at the chart width exactly for leaf rows, at the row's own leaf label |
| `PathShape.RowEndpoints` | src/visual.ts:196-247 | For row `i` of the pass, both paths start at the middle of the row's own trunk slice. The horizontal segment ends at scale index `min(i, branches)`. A branch curve ends at `(i + 1, 0)`, inside `1..branches`. A leaf curve ends at the chart width, at the leaf label the pass filed for that row |
| `PathShape.HorizontalEndsOrdered` | src/visual.ts:196-203 | Along the series the horizontal segments end at non-decreasing scale indices, never past `branches` |
| `PathShape.LeafOrdinal` | src/visual.ts:236-241 | With distinct leaf labels, the label a leaf curve ends at appears once in the leaf axis domain, at the row's position among the leaves |

## Left out

- d3 scales (`scaleLinear`, `scalePoint`) and the colour interpolation: these are library calls. Points are described by the argument handed to a scale (`ScaleX`, `TrunkMid`, `LeafY`) and are not evaluated.
- Stroke width (`yScale(d.value)`) and stroke colour (`colourScale(i)`): both are direct scale applications with nothing more to state.
- Layout arithmetic (viewport minus axis widths, the trunk and leaf percentages, `trunkTop`, `leavesRangeStart`/`End`): floating-point numerics. `TrunkMid`, `LeafMid` and `ChartWidth` stand for their results.
- Path strings: they concatenate JavaScript number-to-string output. `Stop` and `Curve` carry the same points without formatting.
- SVG/DOM construction: the clear-and-rebuild of `g` elements, axes and translations.
- The Power BI lifecycle, the constructor and the settings import: host plumbing.
- Values are whole numbers (`int`), not JavaScript doubles. Fractional values, NaN and infinities are not modelled.
