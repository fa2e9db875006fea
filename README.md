# Property designer: the rules core

A browser wizard for designing a property in a tabletop setting. The user picks a
country, then a subregion, then traits that modify the subregion's values, then a grid
size. After that they paint a three-dimensional grid (`[x][y][level]`) with tiles from a
small catalog. A header shows the running land, gold and TP (tier point) totals. The
design is stored as a JSON document (`PlayerData`) and can be loaded again.

This project models that core in Dafny and proves properties of the model:

- **`Results`, `Seqs`** (`results.dfy`, `seqs.dfy`): `Option`/`Result` and the error kinds
  (a missing country or subregion, a block built from nothing, a JavaScript `TypeError`).
  Also the first-match search behind `Array.prototype.find` and the one-level
  `Array.prototype.flat`, with its length and membership lemmas.
- **`JsValues`** (`js_values.dfy`): the dynamic values that the type guard inspects.
  These are `undefined`, `null`, booleans, numbers, strings, arrays and objects. The
  module also covers `typeof`, `Object.getOwnPropertyNames` (it throws on
  `null`/`undefined` and gives index keys plus `"length"` for strings and arrays), and
  property reads. An object holds its properties in JavaScript's own-property order, each
  key once: array-index keys first, ascending, then the other keys in creation order
  (`InOwnPropertyOrder`).
- **`DataStructures`** (`data_structures.dfy`): `ResolveValueModifier` and the fold of
  traits over the four multipliers. It also holds:
  - the catalog lookups `GetSubregionByName`, `GetCountryDataByName` and
    `GetTraitsFromNames`;
  - the `DataSerializer` class, with `ConstructData` and the nested loops of
    `CreateEmptyTileMatrix`;
  - `getAppStateFromPlayerData`.
- **`TypeGuard`** (`type_guard.dfy`): the recursive structural guard `is`. It is a
  method with loops and early returns, proved equal to a recursive specification.
- **`EditProperty`** (`edit_property.dfy`): the indoor tile catalog, `Block` and its
  conversion to a persisted tile, and both grid conversions. The `EditProperty` class
  holds the editor's state and its in-place cell update.
- **`SelectCountry`** (`select_country.dfy`): the trait picker's multiplier loop. Also the
  region picker's region list and the subregion it shows.
- **`App`** (`app.dfy`): the wizard's state as a class with its callbacks: the stage
  machine, the trait toggle and the selections. It also has the default block and
  `Header.calculateData`, as methods proved against a specification function.

Costs, multipliers and the guard's numbers are `real`; grid sizes and the editor's level
are `int`. The static catalogs (countries, traits, the land cost constant) are a
`Catalog` parameter. The quality lookup `GetQualityFromBlock` is a function parameter
`qualityOf`.

The source raises a JavaScript exception in four ways: a `throw`; a read through
`undefined` that the cast `find(...) as T` lets through; a read of a property of an
element that does not exist, such as `mapMatrix[0].length` on an empty grid; and
`Object.getOwnPropertyNames` on a `null` or `undefined` sample inside `is`, reached through
`sample[0]` of an empty array or through a `null` sample key. The model gives each as an
`Err` result:

- an unknown country or subregion is `CountryNotFound` or `SubregionNotFound`;
- `new Block({})` is `MissingBlockData`;
- reading a field of an `undefined` trait or tile is `TypeError`;
- `mapMatrix[0].length` on an empty grid is `TypeError`;
- `getOwnPropertyNames` on `null`/`undefined` inside `is` is `TypeError`.

Several behaviours of the code are kept as written:

- **Land cost counts columns, not cells.** It uses a single `flat()`, so stacked levels
  add nothing (`App.LandCostIgnoresLevels`).
- **The base multipliers are 0 until both a country and a region are chosen, not 1.**
  Multiplicative traits then leave every multiplier and the land cost at 0
  (`App.NoRegionNoLandCost`).
- **Tiles carry two different keys.** A tile is declared with a `trait` key, but `Block`
  reads and writes `traits`. Both are carried as JavaScript values (`Undefined` when
  absent). A tile survives the trip through a block only when it has no `trait` key
  (`EditProperty.TileRoundTrip`), so the empty cells of a fresh grid do not
  (`EditProperty.EmptyTileLosesTrait`).
- **The grid size comes back swapped.** `CreateEmptyTileMatrix(y, x)` is called as
  `(grid.x, grid.y)`, so the size read back from a document is swapped
  (`DataStructures.GridSizeComesBackSwapped`).
- **A catalog miss shows up late.** A tile name missing from the catalog gives a block
  whose tile is `undefined`. The failure happens later, when that block is converted back
  or priced.
- **The toggle never deselects the empty trait name.** It tests `find(...)`'s result for
  truthiness, and `""` is falsy, so the empty name is appended on every click
  (`App.ToggleTrait`).
- **The guard's checks can be looser or stricter than they look.** A primitive whose
  `typeof` differs from the sample's is checked key by key against the sample's own
  names, and a number has no own names, so `is(true, 5)` holds. An empty array sample
  makes a non-empty array of objects throw (`TypeGuard.GuardEdgeCases`).
- **The guard checks array-index keys first.** `getOwnPropertyNames` lists them before the
  other keys, so a mismatch on such a key can decide the result before a recursion that
  would throw (`TypeGuard.IndexKeysCheckedFirst`).

## Model

| member | source | states |
|---|---|---|
| DataStructures.ResolveValueModifier | src/data-structures.tsx:30-37 | `ADD` gives `prev + value`, `MULT` gives `prev * value` |
| DataStructures.FoldAllAdd | src/App.tsx:196-201 | a value run through additive modifiers only gains the sum of their amounts |
| DataStructures.FoldAllMult | src/App.tsx:196-201 | a value run through multiplicative modifiers is only scaled by the product of their amounts |
| DataStructures.FoldNeutral | src/select-country.tsx:77-83 | modifiers that add 0 or multiply by 1 leave the value unchanged |
| DataStructures.FoldModifiersAppend | src/App.tsx:197-200 | folding two runs of modifiers is folding the first and then the second over its result |
| DataStructures.ApplyTraits | src/App.tsx:196-201 | each multiplier is its own base value folded, in list order, through the traits' modifiers for that field only |
| DataStructures.ApplyTraitsAppend | src/App.tsx:196-201 | applying a selection is applying its first part and then the rest, in order |
| DataStructures.AllSubregions | src/data-structures.tsx:10 | every subregion of every region is listed, and nothing else |
| DataStructures.FindSubregion | src/data-structures.tsx:10-11 | the first subregion with the name across all regions in order, none exactly when no subregion has it |
| DataStructures.GetSubregionByName | src/data-structures.tsx:9-14 | the first subregion with the name across all regions in order; fails exactly when no subregion has the name |
| DataStructures.FindCountry | src/select-country.tsx:30 | the first country with the name, none exactly when no country has it |
| DataStructures.GetCountryDataByName | src/data-structures.tsx:16-20 | the first country with the name; fails exactly when no country has it |
| DataStructures.FindTrait | src/data-structures.tsx:23 | the first trait with the name, none exactly when no trait has it |
| DataStructures.GetTraitsFromNames | src/data-structures.tsx:22-24 | same length and order as the names; entry `i` is the first catalog trait named `names[i]`, and `undefined` exactly when there is none |
| DataStructures.GetAppStateFromPlayerData | src/data-structures.tsx:78-87 | stage `"edit"`, country, region, traits and grid copied, size (outer length, first row's length); throws exactly on an empty grid |
| DataStructures.GridSizeComesBackSwapped | src/data-structures.tsx:104 | a state without a grid saved and read back reports its size as `(y, x)`, and fails when `y` is not positive |
| DataStructures.StateRoundTrip | src/data-structures.tsx:78-108 | a state with a grid saved and read back keeps its selections and grid; only the stage and the reported size change |
| DataStructures.DocumentRoundTrip | src/data-structures.tsx:78-108 | a document with a grid read and saved again keeps everything but the four placeholder identity fields |
| DataStructures.EmptyTileMatrix | src/data-structures.tsx:125-138 | `x` rows of `y` cells (none for a non-positive bound), each one level holding the empty tile |
| DataStructures.ConstructedData | src/data-structures.tsx:89-108 | selections passed through; the state's grid if non-empty, else a fresh grid of `grid.y` rows of `grid.x` cells |
| DataStructures.DataSerializer.constructor | src/data-structures.tsx:66-68 | no document is held until one is built |
| DataStructures.DataSerializer.ConstructData | src/data-structures.tsx:89-108 | fixed placeholders for the identity fields, selections passed through, the state's grid if non-empty else a fresh grid from `(grid.x, grid.y)`; the result is stored |
| DataStructures.DataSerializer.CreateEmptyTileMatrix | src/data-structures.tsx:125-138 | `x` rows of `y` cells (none for a non-positive bound), each one level holding `{name: "Empty", trait: ""}` |
| JsValues.TypeOfKinds | src/data-structures.tsx:186 | `typeof` is "object" exactly for `null`, arrays and objects, and "undefined" only for `undefined` |
| JsValues.OwnNames | src/data-structures.tsx:199 | `getOwnPropertyNames` throws exactly on `null`/`undefined` |
| JsValues.Get | src/data-structures.tsx:200-201 | a property read; an object read from a value is structurally smaller than it, so the guard's recursion ends |
| TypeGuard.Is | src/data-structures.tsx:182-212 | the guard's result, early returns and throws included, is the recursive specification `Conforms` |
| TypeGuard.IsEveryElement | src/data-structures.tsx:192-196 | the element loop passes exactly when every element passes against `sample[0]` |
| TypeGuard.IsEveryProperty | src/data-structures.tsx:197-209 | the key loops give the specification's verdict for an object, throwing when the sample is `null` or `undefined` |
| TypeGuard.IsEverySampleKey | src/data-structures.tsx:199-202 | the sample-key loop stops at the first key that fails or throws, and passes exactly when every sample key passes (`KeysConformAll`) |
| TypeGuard.IsSampleKey | src/data-structures.tsx:200-201 | one sample key: a `typeof` mismatch fails, and an object in the sample is checked recursively with its throw passed on |
| TypeGuard.KeysConformAll | src/data-structures.tsx:199-202 | the sample keys from a position on pass exactly when each of them passes on its own |
| TypeGuard.ElementsConformAll | src/data-structures.tsx:194-196 | the elements from a position on pass exactly when each of them passes against the sample's first element |
| TypeGuard.HasNoExtraKeys | src/data-structures.tsx:204-208 | strict mode passes exactly when no key of the object is `null` or absent in the sample |
| TypeGuard.GuardOnPrimitives | src/data-structures.tsx:183-186 | `null`/`undefined` never pass; a non-object passes against a sample of its own `typeof` |
| TypeGuard.ArrayGuard | src/data-structures.tsx:189-196 | an array fails against a non-array sample, and passes exactly when every element passes against the sample's first element |
| TypeGuard.ObjectGuard | src/data-structures.tsx:197-209 | an object passes exactly when every sample key agrees in `typeof` (recursively where the sample holds an object) and, if strict, no key of the object is missing from the sample |
| TypeGuard.MissingSampleKeyFails | src/data-structures.tsx:199-200 | a sample key with another `typeof` on the object makes it fail |
| TypeGuard.StrictRejectsExtraKey | src/data-structures.tsx:204-208 | in strict mode, an extra key makes an object fail |
| TypeGuard.TileShapes | src/data-structures.tsx:47-50 | a declared tile passes against the tile shape; the tile the Block conversion writes does not |
| TypeGuard.IndexKeysHeldFirst | src/data-structures.tsx:199 | `{b: {}, 1: ""}` and `{b: null, 1: 0}` are held with key "1" first, in own-property order |
| TypeGuard.IndexKeysCheckedFirst | src/data-structures.tsx:199-201 | `{b: {}, 1: ""}` fails against `{b: null, 1: 0}` on key "1", before `b` is reached |
| TypeGuard.NullSampleKeyThrows | src/data-structures.tsx:201 | checking `{b: {}}` against `{b: null}` recurses into `null` and throws a `TypeError` |
| TypeGuard.GuardEdgeCases | src/data-structures.tsx:186-201 | a boolean passes against a number sample; a non-empty array of objects against an empty array sample throws |
| EditProperty.DisplayNamesDistinct | src/edit-property.tsx:6-42 | no two catalog entries share a display name |
| EditProperty.FindTileConst | src/edit-property.tsx:58 | the catalog entry with the display name, none exactly when no entry has it |
| EditProperty.EmptyTileBlock | src/edit-property.tsx:56-59 | the fresh grid's empty tile becomes a block over the "Empty" catalog entry |
| EditProperty.FindTileConstOfEntry | src/edit-property.tsx:6-42 | looking up an entry's own display name finds that entry |
| EditProperty.BlockFromTile | src/edit-property.tsx:56-59 | the block takes the catalog entry named like the tile (`undefined` exactly when there is none) and the tile's traits unchanged |
| EditProperty.NewBlock | src/edit-property.tsx:55-66 | from a tile by lookup; else from a catalog entry with empty traits; throws exactly when neither is given |
| EditProperty.ConvertToTileType | src/edit-property.tsx:69-74 | the entry's display name and the block's traits, no `trait` key; throws exactly when the block has no entry |
| EditProperty.BlockRoundTrip | src/edit-property.tsx:56-74 | a block over a catalog entry comes back unchanged through its persisted form, and so does that form |
| EditProperty.TileRoundTrip | src/edit-property.tsx:56-74 | a tile comes back unchanged exactly when its name is in the catalog and it has no `trait` key |
| EditProperty.EmptyTileLosesTrait | src/data-structures.tsx:131-134 | the fresh grid's cell `{name: "Empty", trait: ""}` comes back without its `trait` |
| EditProperty.ConvertTileMatrixToBlockMatrix | src/edit-property.tsx:84-86 | same extents; every cell is the block of the tile at the same `[x][y][level]` |
| EditProperty.ConvertBlockMatrixToTileMatrix | src/edit-property.tsx:88-90 | same extents and each cell converted in place; throws exactly when some block has no entry |
| EditProperty.TileMatrixRoundTrip | src/edit-property.tsx:84-90 | tile grid to block grid and back is the identity exactly when every cell names a catalog entry and has no `trait` key |
| EditProperty.BlockMatrixRoundTrip | src/edit-property.tsx:84-90 | block grid to tile grid and back is the identity on grids of catalog entries |
| EditProperty.SetCell | src/edit-property.tsx:124 | same extents, the new block at `[x][y][level]`, every other cell unchanged |
| EditProperty.EditProperty.constructor | src/edit-property.tsx:93-101 | the document's grid as blocks, the "Empty" entry (zero costs) selected, level 0, no traits |
| EditProperty.EditProperty.TileSelected | src/edit-property.tsx:107-111 | only the selected tile kind changes |
| EditProperty.EditProperty.UpdateTileAtCoords | src/edit-property.tsx:122-127 | only `[x][y][currentLevel]` changes, to a fresh block of the selected kind with empty traits; the updated grid is what goes to `blockUpdatedCallback` |
| EditProperty.PaintedCellReachesTiles | src/App.tsx:71-73 | after a paint on a grid of catalog blocks, the tile grid the owner stores has the selected entry's tile with no traits at the painted cell and the old tile everywhere else |
| SelectCountry.SelectTraitsMultipliers | src/select-country.tsx:71-83 | the subregion's four values with no traits; each field folded through the selected traits' modifiers for it, in list order |
| SelectCountry.RegionsOf | src/select-country.tsx:30-31 | the first matching country's regions, none when the country is not in the catalog |
| SelectCountry.ShownSubregion | src/select-country.tsx:33-41 | the zero default when none is chosen or none matches; with a name chosen, the first subregion with that name over all regions |
| SelectCountry.ShownSubregionIsLookup | src/select-country.tsx:41 | the picker's subregion is the document lookup's result, with the default in place of its failure |
| App.GenerateDefaultBlock | src/App.tsx:13-19 | the "Empty" catalog entry with zero costs and empty traits |
| App.NextStage | src/App.tsx:75-94 | country to region only with a country chosen, region to traits only with a region chosen, then size and edit unconditionally; any other stage unchanged |
| App.NextStageStepsForward | src/App.tsx:75-94 | "Next" moves at most one stage forward and never back; landing, edit and unknown stages stay |
| App.ClicksChangeOnlyStage | src/App.tsx:75-94 | clicking "Next" changes nothing but the stage |
| App.NoCountryNoProgress | src/App.tsx:77-79 | without a country no number of clicks leaves the country picker |
| App.NoRegionNoProgress | src/App.tsx:81-82 | without a region no number of clicks leaves the region picker |
| App.EditIsFinal | src/App.tsx:90-91 | once in the editor, clicks leave it there |
| App.FourClicksToEdit | src/App.tsx:75-94 | with a country and a region chosen, four clicks lead from the country picker to the editor |
| App.RemoveAll | src/App.tsx:62 | the filter keeps exactly the other names, with their multiplicities |
| App.ToggleTrait | src/App.tsx:61-63 | a non-empty name is selected after a click exactly when it was not before; the other names keep their order and multiplicities; an unselected or empty name is appended at the end |
| App.ToggleTwiceRestores | src/App.tsx:61-65 | two clicks on an unselected non-empty name restore the selection |
| App.ToggleTwiceCollapses | src/App.tsx:61-65 | two clicks on a selected name leave it once, at the end |
| App.App.constructor | src/App.tsx:34-45 | the landing stage with nothing selected |
| App.App.NewPropertyClick | src/App.tsx:108 | landing's "New Property" opens the country picker |
| App.App.TraitSelectCallback | src/App.tsx:61-65 | the selection becomes its toggle |
| App.App.CountrySelectCallback | src/App.tsx:53-55 | only the selected country changes |
| App.App.RegionSelectCallback | src/App.tsx:57-59 | only the selected region changes |
| App.App.GridSelectCallback | src/App.tsx:67-69 | only the selected grid size changes |
| App.App.BlockUpdateCallback | src/App.tsx:71-73 | the grid becomes the blocks' tiles; it returns a `TypeError` to the caller exactly when some block has no entry, and then the state is untouched |
| App.App.UploadedData | src/App.tsx:48-51 | the state becomes the one read from the document; it returns a `TypeError` to the caller exactly when the grid is empty, and then the state is untouched |
| App.App.NextClickCallback | src/App.tsx:75-94 | only the stage changes, to the next stage |
| App.BaseMultipliers | src/App.tsx:183-194 | zeros unless both a country and a region are chosen, else the subregion's four values; fails exactly when either lookup fails |
| App.FinalMultipliers | src/App.tsx:183-201 | fails exactly when a lookup fails or a name has no trait; with no traits selected, the base multipliers |
| App.LandCost | src/App.tsx:203-205 | zero without rows, with a zero land cost or with a zero multiplier; never negative for non-negative factors |
| App.AllBlocksMembers | src/App.tsx:211-212 | the blocks priced are exactly the cells of the converted grid, over every row, column and level |
| App.BlockGold | src/App.tsx:213-214 | a block's base gold cost through its quality's build modifier; a neutral modifier leaves the base cost; a block without an entry counts 0, a case the callers reject before pricing |
| App.BlockTp | src/App.tsx:213-215 | a block's base TP through its quality's TP modifier; a neutral modifier leaves the base TP; a block without an entry counts 0, a case the callers reject before pricing |
| App.BuildSum | src/App.tsx:212-216 | zero for no blocks; `n` copies of one block cost `n` times its adjusted gold cost |
| App.TpSum | src/App.tsx:212-216 | zero for no blocks; `n` copies of one block yield `n` times its adjusted TP |
| App.GridCosts | src/App.tsx:207-217 | zero for an empty grid; a `TypeError` exactly when some block of a non-empty grid has no entry |
| App.CalculatedData | src/App.tsx:181-224 | succeeds exactly when the multipliers and the grid costs do; fails only with a `TypeError` or a missing country or subregion |
| App.ApplySelectedTraits | src/App.tsx:196-201 | the selected traits folded in order over the base; throws exactly when a name has no trait |
| App.PriceBlocks | src/App.tsx:212-216 | the sums over the blocks of base gold and TP costs under each block's quality; throws exactly when a block has no entry |
| App.ComputeFinalMultipliers | src/App.tsx:183-201 | the base multipliers with the selected traits folded over them |
| App.ComputeGridCosts | src/App.tsx:207-217 | zero for an empty grid, else the priced blocks over all levels |
| App.CalculateData | src/App.tsx:181-224 | the header's land, gold and TP totals and the multipliers |
| App.HeaderMultipliersFromSubregion | src/App.tsx:190-201 | with a subregion chosen, each multiplier is its base value folded through the traits' modifiers for it, as the trait picker shows |
| App.LandCostIgnoresLevels | src/App.tsx:203-205 | grids with the same rows and columns have the same land cost, whatever their levels |
| App.LandCostOfFreshGrid | src/App.tsx:205 | a fresh `x` by `y` grid costs `x * y` land units times the land cost and multiplier, nothing without rows |
| App.FreshBlockCell | src/data-structures.tsx:125-138 | each cell of a fresh grid's blocks is one level of the "Empty" entry |
| App.FreshBlockGrid | src/data-structures.tsx:125-138 | a fresh grid's blocks: `x` rows of `y` cells, each one level of the "Empty" entry |
| App.FreshGridBlocks | src/App.tsx:211-212 | a fresh `x` by `y` grid prices `x * y` blocks, all "Empty" |
| App.BuildSumAppend | src/App.tsx:212-216 | the gold total of two runs of blocks is the sum of their totals |
| App.TpSumAppend | src/App.tsx:212-216 | the TP total of two runs of blocks is the sum of their totals |
| App.QualityExample | src/App.tsx:213-215 | a Generic block with gold `x1.2` and TP `+2` adds 36 gold and 10 TP |
| App.MultTraitsKeepZero | src/App.tsx:183-201 | multiplicative traits leave zero multipliers at zero |
| App.NoRegionNoLandCost | src/App.tsx:183-205 | with no region and multiplicative traits, the multipliers and the land cost are zero |
| Seqs.FindIndex | src/App.tsx:62 | the first index whose element matches, none exactly when none matches |
| Seqs.Flatten | src/App.tsx:205 | every element of every row is in the result, and every element of the result is in some row |
| Seqs.FlattenLength | src/App.tsx:205 | one-level flattening depends only on the rows' lengths |
| Seqs.FlattenUniform | src/App.tsx:205 | flattening rows of equal width `w` gives `rows * w` elements |
| Seqs.FlattenAppend | src/App.tsx:212 | flattening two lists of rows one after the other is flattening each and concatenating |
| Seqs.FlattenTwiceMembers | src/App.tsx:212 | flattening twice keeps exactly the innermost elements |
| Seqs.FlattenSingletons | src/App.tsx:212 | flattening twice a grid of `w`-wide rows of one-element cells gives `rows * w` copies of that element |

## Left out

- React rendering, JSX, CSS classes and the pickers' markup. Also `forceUpdate` and the
  scheduling of `setState`. The model keeps only the computations that the `render`
  bodies perform.
- File input, `FileReader`, `SerializeToJSONAnDownload` and the download link. These are
  browser I/O.
- `SerializeData`, `UpdateData` and the `JSON.stringify`/`JSON.parse` they wrap. The
  document is a datatype, and `App.App.UploadedData` takes it already parsed.
- The contents of `consts.json`, `traits.json` and `qualities.json`, and
  `GetQualitiesFromNames`. The catalogs are the `Catalog` parameter.
- `DataStructures.GetQualityFromBlock`. The `DataStructures` class in
  `src/data-structures.tsx:7-38` does not define it, so the call at `src/App.tsx:213` does
  not name a function as the file stands. The quality of a block is the parameter
  `qualityOf`.
- IEEE-754 rounding and the percentage formatting of the multipliers. Costs and
  multipliers are `real`.
- Fractional grid bounds. `GridSize` holds `int`s, so the model does not cover the loops of
  `CreateEmptyTileMatrix` (`src/data-structures.tsx:125-138`) running on a non-integer
  bound, which in the source gives `ceil` of it rows or cells.
- Console logging. The `throw console.error(...)` calls throw `undefined`; they are
  modelled as plain failures.
- App.App.TraitSelectCallback: the source pushes onto the state's own array in place.
  The model builds a new sequence, so it does not capture aliasing of that array with
  the document built from it.
- App.App.BlockUpdateCallback: the model does not capture that the editor keeps sharing
  its block grid with the caller after the callback. When the conversion throws, the
  editor's grid has already been changed in place and `forceUpdate` is skipped; the model
  returns the `TypeError` and leaves the wizard's state alone.
- TypeGuard.Is: property reads ignore the prototype chain. Arrays have no holes. Objects
  hold only the value kinds above, with no functions or symbols. An object's properties
  are taken to be held in own-property order with distinct keys (`InOwnPropertyOrder`);
  the datatype does not enforce this, and the model does not reorder keys by creation.
  String lengths and index keys count characters, not UTF-16 code units.
- SelectCountry.ShownSubregion: the source's default subregion object has no `traits`
  key; the model gives it an empty trait list, which nothing here reads.
- DataStructures.GetAppStateFromPlayerData: the case of no document loaded at all (an
  `undefined` `playerData`) is not modelled. The wizard always builds one first.
- App.App: the `data` serializer field is not part of the class. `render` rebuilds the
  document from the state each time, which is `DataStructures.ConstructedData`.
