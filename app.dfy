/**
 * The wizard (App.tsx): its state and the callbacks that move it (the stage machine, the
 * trait toggle), the default block, and the totals the header computes for a document.
 */
module App {
  import opened Results
  import opened Seqs
  import opened JsValues
  import opened DataStructures
  import opened EditProperty

  // ---------------------------------------------------------------------------------------
  // Stages

  const LANDING := "landing"
  const COUNTRY_SELECT := "country-select"
  const REGION_SELECT := "region-select"
  const TRAIT_SELECT := "trait-select"
  const SIZE_SELECT := "size-select"
  const EDIT := "edit"

  /** The block of an empty cell: the "Empty" catalog entry (no costs) with no traits. */
  function GenerateDefaultBlock(): (b: Block)
    ensures b.tile == Some(TILE_INDOOR_CONSTS[0])
    ensures b.tile.value.tileDisplayName == "Empty"
    ensures b.tile.value.baseGpCost == 0.0 && b.tile.value.baseTpCost == 0.0
    ensures b.traits == Arr([])
  {
    FindTileConstOfEntry(TILE_INDOOR_CONSTS[0]);
    NewBlock(BlockData(Some(TileType("Empty", Undefined, Arr([]))), None)).value
  }

  /** The stage after a click on "Next"; the first two moves are gated on a selection. */
  function NextStage(state: AppState): (stage: string)
    ensures state.stage == COUNTRY_SELECT ==> stage == (if state.selectedCountry != "" then REGION_SELECT else COUNTRY_SELECT)
    ensures state.stage == REGION_SELECT ==> stage == (if state.selectedRegion != "" then TRAIT_SELECT else REGION_SELECT)
    ensures state.stage == TRAIT_SELECT ==> stage == SIZE_SELECT
    ensures state.stage == SIZE_SELECT ==> stage == EDIT
    ensures state.stage !in [COUNTRY_SELECT, REGION_SELECT, TRAIT_SELECT, SIZE_SELECT] ==> stage == state.stage
  {
    match state.stage
    case "country-select" => if state.selectedCountry != "" then REGION_SELECT else state.stage
    case "region-select" => if state.selectedRegion != "" then TRAIT_SELECT else state.stage
    case "trait-select" => SIZE_SELECT
    case "size-select" => EDIT
    case _ => state.stage  // an unsupported stage is only logged
  }

  /** The position of a stage in the wizard's order; -1 for a string that is no stage. */
  function StageIndex(stage: string): int
  {
    if stage == LANDING then 0
    else if stage == COUNTRY_SELECT then 1
    else if stage == REGION_SELECT then 2
    else if stage == TRAIT_SELECT then 3
    else if stage == SIZE_SELECT then 4
    else if stage == EDIT then 5
    else -1
  }

  /** "Next" never goes back and never skips a stage; it leaves "landing", "edit" and unknown stages alone. */
  lemma NextStageStepsForward(state: AppState)
    ensures NextStage(state) == state.stage || StageIndex(NextStage(state)) == StageIndex(state.stage) + 1
    ensures StageIndex(state.stage) in {-1, 0, 5} ==> NextStage(state) == state.stage
  {
  }

  /** The state after `n` clicks on "Next" with nothing else changed. */
  function Clicks(state: AppState, n: nat): AppState
    decreases n
  {
    if n == 0 then state else Clicks(state.(stage := NextStage(state)), n - 1)
  }

  /** Clicks change only the stage. */
  lemma {:induction false} ClicksChangeOnlyStage(state: AppState, n: nat)
    ensures Clicks(state, n) == state.(stage := Clicks(state, n).stage)
    decreases n
  {
    if n > 0 {
      ClicksChangeOnlyStage(state.(stage := NextStage(state)), n - 1);
    }
  }

  /** Without a country, no number of clicks leaves the country picker. */
  lemma {:induction false} NoCountryNoProgress(state: AppState, n: nat)
    requires state.stage == COUNTRY_SELECT && state.selectedCountry == ""
    ensures Clicks(state, n).stage == COUNTRY_SELECT
    decreases n
  {
    if n > 0 {
      NoCountryNoProgress(state.(stage := NextStage(state)), n - 1);
    }
  }

  /** Without a region, no number of clicks leaves the region picker. */
  lemma {:induction false} NoRegionNoProgress(state: AppState, n: nat)
    requires state.stage == REGION_SELECT && state.selectedRegion == ""
    ensures Clicks(state, n).stage == REGION_SELECT
    decreases n
  {
    if n > 0 {
      NoRegionNoProgress(state.(stage := NextStage(state)), n - 1);
    }
  }

  /** The editor is final: clicks leave it there. */
  lemma {:induction false} EditIsFinal(state: AppState, n: nat)
    requires state.stage == EDIT
    ensures Clicks(state, n).stage == EDIT
    decreases n
  {
    if n > 0 {
      EditIsFinal(state.(stage := NextStage(state)), n - 1);
    }
  }

  /** With a country and a region chosen, four clicks lead from the country picker to the editor. */
  lemma FourClicksToEdit(state: AppState, n: nat)
    requires state.stage == COUNTRY_SELECT && state.selectedCountry != "" && state.selectedRegion != ""
    requires n >= 4
    ensures Clicks(state, n).stage == EDIT
  {
    var s1 := state.(stage := REGION_SELECT);
    var s2 := state.(stage := TRAIT_SELECT);
    var s3 := state.(stage := SIZE_SELECT);
    var s4 := state.(stage := EDIT);
    assert Clicks(state, n) == Clicks(s1, n - 1);
    assert Clicks(s1, n - 1) == Clicks(s2, n - 2);
    assert Clicks(s2, n - 2) == Clicks(s3, n - 3);
    assert Clicks(s3, n - 3) == Clicks(s4, n - 4);
    EditIsFinal(s4, n - 4);
  }

  // ---------------------------------------------------------------------------------------
  // The trait toggle

  /** `filter(x => x !== name)`: every occurrence of `name` dropped, the rest kept in order. */
  function RemoveAll(s: seq<string>, name: string): (r: seq<string>)
    ensures forall x :: x in r <==> x in s && x != name
    ensures multiset(r) == multiset(s)[name := 0]
    ensures |r| <= |s|
  {
    if s == [] then []
    else
      assert s == [s[0]] + s[1..];
      (if s[0] != name then [s[0]] else []) + RemoveAll(s[1..], name)
  }

  lemma {:induction false} RemoveAllAbsent(s: seq<string>, name: string)
    requires name !in s
    ensures RemoveAll(s, name) == s
  {
    if s != [] {
      RemoveAllAbsent(s[1..], name);
    }
  }

  lemma {:induction false} RemoveAllAppend(a: seq<string>, b: seq<string>, name: string)
    ensures RemoveAll(a + b, name) == RemoveAll(a, name) + RemoveAll(b, name)
  {
    if a == [] {
      assert a + b == b;
    } else {
      assert (a + b)[1..] == a[1..] + b;
      RemoveAllAppend(a[1..], b, name);
    }
  }

  /**
   * The selection after a click on a trait: a selected name is removed (every occurrence),
   * any other is appended. `find` returns the name itself, so the empty name never counts
   * as selected and is appended again.
   */
  function ToggleTrait(selected: seq<string>, name: string): (r: seq<string>)
    ensures name != "" ==> (name in r <==> name !in selected)
    ensures forall x :: x != name ==> (x in r <==> x in selected)
    ensures name == "" ==> r == selected + [""]
    ensures RemoveAll(r, name) == RemoveAll(selected, name)
    ensures name == "" || name !in selected ==> |r| == |selected| + 1 && r[|selected|] == name
  {
    if name != "" && name in selected then
      RemoveAllAbsent(RemoveAll(selected, name), name);
      RemoveAll(selected, name)
    else
      RemoveAllAppend(selected, [name], name);
      assert RemoveAll([name], name) == [] + RemoveAll([name][1..], name);
      selected + [name]
  }

  /** Toggling an unselected non-empty name twice gives back the selection. */
  lemma ToggleTwiceRestores(selected: seq<string>, name: string)
    requires name != "" && name !in selected
    ensures ToggleTrait(ToggleTrait(selected, name), name) == selected
  {
    RemoveAllAppend(selected, [name], name);
    RemoveAllAbsent(selected, name);
  }

  /** Toggling a selected name twice leaves it selected once, at the end. */
  lemma ToggleTwiceCollapses(selected: seq<string>, name: string)
    requires name != "" && name in selected
    ensures ToggleTrait(ToggleTrait(selected, name), name) == RemoveAll(selected, name) + [name]
  {
  }

  // ---------------------------------------------------------------------------------------
  // The wizard's state

  const INITIAL_STATE := AppState(LANDING, "", "", [], GridSize(0, 0), [])

  class App {
    var state: AppState

    constructor()
      ensures state == INITIAL_STATE
    {
      state := INITIAL_STATE;
    }

    /** The landing page's "New Property" button. */
    method NewPropertyClick()
      modifies this
      ensures state == old(state).(stage := COUNTRY_SELECT)
    {
      state := state.(stage := COUNTRY_SELECT);
    }

    /** A click on a trait in the trait picker. */
    method TraitSelectCallback(traitName: string)
      modifies this
      ensures state == old(state).(selectedTraits := ToggleTrait(old(state.selectedTraits), traitName))
    {
      var found := FindIndex(state.selectedTraits, (x: string) => x == traitName);
      if found.Some? && state.selectedTraits[found.value] != "" {
        state := state.(selectedTraits := RemoveAll(state.selectedTraits, traitName));
      } else {
        state := state.(selectedTraits := state.selectedTraits + [traitName]);
      }
    }

    /** A country picked in the country picker. */
    method CountrySelectCallback(countryName: string)
      modifies this
      ensures state == old(state).(selectedCountry := countryName)
    {
      state := state.(selectedCountry := countryName);
    }

    /** A subregion picked in the region picker. */
    method RegionSelectCallback(regionName: string)
      modifies this
      ensures state == old(state).(selectedRegion := regionName)
    {
      state := state.(selectedRegion := regionName);
    }

    /** A grid size picked in the size picker. */
    method GridSelectCallback(grid: GridSize)
      modifies this
      ensures state == old(state).(selectedGridSize := grid)
    {
      state := state.(selectedGridSize := grid);
    }

    /**
     * The editor's grid after a paint. A block without an entry throws a TypeError, which goes
     * back to the caller with the state untouched.
     */
    method BlockUpdateCallback(blockMatrix: BlockMatrix) returns (outcome: Result<()>)
      modifies this
      ensures outcome.Err? <==> !AllTiled(blockMatrix)
      ensures outcome.Err? ==> outcome.error == TypeError
      ensures outcome.Ok? ==> state == old(state).(tileMatrix := ConvertBlockMatrixToTileMatrix(blockMatrix).value)
      ensures outcome.Err? ==> state == old(state)
    {
      var converted := ConvertBlockMatrixToTileMatrix(blockMatrix);
      if converted.Err? {
        return Err(converted.error);
      }
      state := state.(tileMatrix := converted.value);
      outcome := Ok(());
    }

    /**
     * A loaded document (already parsed) replaces the state. One with an empty grid throws a
     * TypeError, which goes back to the caller with the state untouched.
     */
    method UploadedData(playerData: PlayerData) returns (outcome: Result<()>)
      modifies this
      ensures outcome.Err? <==> |playerData.mapMatrix| == 0
      ensures outcome.Err? ==> outcome.error == TypeError
      ensures outcome.Ok? ==> state == GetAppStateFromPlayerData(playerData).value
      ensures outcome.Err? ==> state == old(state)
    {
      var loaded := GetAppStateFromPlayerData(playerData);
      if loaded.Err? {
        return Err(loaded.error);
      }
      state := loaded.value;
      outcome := Ok(());
    }

    /** A click on "Next". */
    method NextClickCallback()
      modifies this
      ensures state == old(state).(stage := NextStage(old(state)))
    {
      state := state.(stage := NextStage(state));
    }
  }

  // ---------------------------------------------------------------------------------------
  // The header's totals

  datatype HeaderState = HeaderState(
    calculatedLandCost: real,
    calculatedGoldCost: real,
    calculatedTpCost: real,
    multipliers: Multipliers)

  /** What the traits start from: zeros until both a country and a region are chosen, then the subregion's values. */
  function BaseMultipliers(catalog: Catalog, data: PlayerData): (r: Result<Multipliers>)
    ensures data.countryName == "" || data.regionName == "" ==> r == Ok(ZERO_MULTIPLIERS)
    ensures data.countryName != "" && data.regionName != "" ==>
      (r.Ok? <==> (GetCountryDataByName(catalog.countries, data.countryName).Ok?
        && GetSubregionByName(GetCountryDataByName(catalog.countries, data.countryName).value, data.regionName).Ok?))
    ensures data.countryName != "" && data.regionName != "" && r.Ok? ==>
      r.value == BaseValues(GetSubregionByName(GetCountryDataByName(catalog.countries, data.countryName).value, data.regionName).value)
  {
    if data.countryName != "" && data.regionName != "" then
      match GetCountryDataByName(catalog.countries, data.countryName)
      case Err(e) => Err(e)
      case Ok(country) =>
        match GetSubregionByName(country, data.regionName)
        case Err(e) => Err(e)
        case Ok(baseRegionValues) => Ok(BaseValues(baseRegionValues))
    else Ok(ZERO_MULTIPLIERS)
  }

  predicate AllDefined(ts: seq<Option<Trait>>)
  {
    forall i :: 0 <= i < |ts| ==> ts[i].Some?
  }

  function Defined(ts: seq<Option<Trait>>): (r: seq<Trait>)
    requires AllDefined(ts)
    ensures |r| == |ts| && forall i :: 0 <= i < |ts| ==> r[i] == ts[i].value
  {
    seq(|ts|, i requires 0 <= i < |ts| => ts[i].value)
  }

  /** The land cost: one unit per `[x][y]` column of the grid, whatever its number of levels. */
  function LandCost(catalog: Catalog, m: TileMatrix, landMultiplier: real): (r: real)
    ensures |m| == 0 || catalog.landCost == 0.0 || landMultiplier == 0.0 ==> r == 0.0
    ensures catalog.landCost >= 0.0 && landMultiplier >= 0.0 ==> r >= 0.0
  {
    if |m| > 0 then (|Flatten(m)| as real) * catalog.landCost * landMultiplier else 0.0
  }

  /** Every block of a tile grid, over all rows, columns and levels. */
  function AllBlocks(m: TileMatrix): seq<Block>
  {
    Flatten(Flatten(ConvertTileMatrixToBlockMatrix(m)))
  }

  /** The blocks priced are exactly the cells of the converted grid, at every `[x][y][level]`. */
  lemma AllBlocksMembers(m: TileMatrix)
    ensures forall i, j, k :: 0 <= i < |m| && 0 <= j < |m[i]| && 0 <= k < |m[i][j]| ==>
      ConvertTileMatrixToBlockMatrix(m)[i][j][k] in AllBlocks(m)
    ensures forall b :: b in AllBlocks(m) ==>
      exists i, j, k :: 0 <= i < |m| && 0 <= j < |m[i]| && 0 <= k < |m[i][j]| && ConvertTileMatrixToBlockMatrix(m)[i][j][k] == b
  {
    FlattenTwiceMembers(ConvertTileMatrixToBlockMatrix(m));
  }


  predicate BlocksTiled(blocks: seq<Block>)
  {
    forall i :: 0 <= i < |blocks| ==> blocks[i].tile.Some?
  }

  /**
   * One block's base gold cost as adjusted by its quality's build modifier. A block without a
   * catalog entry counts 0; the callers reject such blocks before pricing.
   */
  function BlockGold(b: Block, qualityOf: Block -> QualityType): (r: real)
    ensures b.tile.None? ==> r == 0.0
    ensures b.tile.Some? && IsNeutral(qualityOf(b).buildCost) ==> r == b.tile.value.baseGpCost
  {
    if b.tile.Some? then ResolveValueModifier(b.tile.value.baseGpCost, qualityOf(b).buildCost) else 0.0
  }

  /**
   * One block's base TP cost as adjusted by its quality's TP modifier. A block without a
   * catalog entry counts 0; the callers reject such blocks before pricing.
   */
  function BlockTp(b: Block, qualityOf: Block -> QualityType): (r: real)
    ensures b.tile.None? ==> r == 0.0
    ensures b.tile.Some? && IsNeutral(qualityOf(b).tpValue) ==> r == b.tile.value.baseTpCost
  {
    if b.tile.Some? then ResolveValueModifier(b.tile.value.baseTpCost, qualityOf(b).tpValue) else 0.0
  }

  /** The gold total: every block's adjusted gold cost added up; `n` copies of one block cost `n` times it. */
  function BuildSum(blocks: seq<Block>, qualityOf: Block -> QualityType): (r: real)
    ensures blocks == [] ==> r == 0.0
    ensures |blocks| > 0 && (forall i :: 0 <= i < |blocks| ==> blocks[i] == blocks[0]) ==>
      r == (|blocks| as real) * BlockGold(blocks[0], qualityOf)
  {
    if blocks == [] then 0.0
    else
      var n := |blocks|;
      assert (n - 1) as real * BlockGold(blocks[0], qualityOf) + BlockGold(blocks[0], qualityOf)
          == (n as real) * BlockGold(blocks[0], qualityOf);
      BuildSum(blocks[..n - 1], qualityOf) + BlockGold(blocks[n - 1], qualityOf)
  }

  /** The TP total: every block's adjusted TP cost added up; `n` copies of one block cost `n` times it. */
  function TpSum(blocks: seq<Block>, qualityOf: Block -> QualityType): (r: real)
    ensures blocks == [] ==> r == 0.0
    ensures |blocks| > 0 && (forall i :: 0 <= i < |blocks| ==> blocks[i] == blocks[0]) ==>
      r == (|blocks| as real) * BlockTp(blocks[0], qualityOf)
  {
    if blocks == [] then 0.0
    else
      var n := |blocks|;
      assert (n - 1) as real * BlockTp(blocks[0], qualityOf) + BlockTp(blocks[0], qualityOf)
          == (n as real) * BlockTp(blocks[0], qualityOf);
      TpSum(blocks[..n - 1], qualityOf) + BlockTp(blocks[n - 1], qualityOf)
  }

  /** The multipliers after every selected trait, or the `TypeError` of a name with no trait. */
  function FinalMultipliers(catalog: Catalog, data: PlayerData): (r: Result<Multipliers>)
    ensures r.Ok? <==> BaseMultipliers(catalog, data).Ok? && AllDefined(GetTraitsFromNames(catalog.traits, data.regionTraitsSelected))
    ensures data.regionTraitsSelected == [] ==> r == BaseMultipliers(catalog, data)
  {
    match BaseMultipliers(catalog, data)
    case Err(e) => Err(e)
    case Ok(base) =>
      var traits := GetTraitsFromNames(catalog.traits, data.regionTraitsSelected);
      if !AllDefined(traits) then Err(TypeError)  // reading a modifier of an `undefined` trait
      else Ok(ApplyTraits(base, Defined(traits)))
  }

  /** The gold and TP totals of a grid, or the `TypeError` of a block without a tile. */
  function GridCosts(m: TileMatrix, qualityOf: Block -> QualityType): (r: Result<(real, real)>)
    ensures r.Err? <==> |m| > 0 && exists i :: 0 <= i < |AllBlocks(m)| && AllBlocks(m)[i].tile.None?
    ensures r.Err? ==> r.error == TypeError
    ensures |m| == 0 ==> r == Ok((0.0, 0.0))
  {
    if |m| == 0 then Ok((0.0, 0.0))
    else if !BlocksTiled(AllBlocks(m)) then Err(TypeError)  // reading the costs of an `undefined` tile
    else Ok((BuildSum(AllBlocks(m), qualityOf), TpSum(AllBlocks(m), qualityOf)))
  }

  /** The header's totals for a document, or what the computation throws. */
  function CalculatedData(catalog: Catalog, qualityOf: Block -> QualityType, data: PlayerData): (r: Result<HeaderState>)
    ensures r.Ok? <==> FinalMultipliers(catalog, data).Ok? && GridCosts(data.mapMatrix, qualityOf).Ok?
    ensures r.Err? ==> r.error in {TypeError, CountryNotFound(data.countryName), SubregionNotFound(data.regionName)}
  {
    match FinalMultipliers(catalog, data)
    case Err(e) => Err(e)
    case Ok(finalMultipliers) =>
      match GridCosts(data.mapMatrix, qualityOf)
      case Err(e) => Err(e)
      case Ok(costs) =>
        Ok(HeaderState(LandCost(catalog, data.mapMatrix, finalMultipliers.landCost), costs.0, costs.1, finalMultipliers))
  }

  /** The body of the `map` callback: the four modifiers of one trait, applied field by field. */
  method ApplyTraitInPlace(finalMultipliers: Multipliers, t: Trait) returns (r: Multipliers)
    ensures r == ApplyTrait(finalMultipliers, t)
  {
    r := finalMultipliers;
    r := r.(dangerLevel := ResolveValueModifier(r.dangerLevel, t.dangerLevel));
    r := r.(buildCost := ResolveValueModifier(r.buildCost, t.buildCost));
    r := r.(landCost := ResolveValueModifier(r.landCost, t.landCost));
    r := r.(tpValue := ResolveValueModifier(r.tpValue, t.tpValue));
  }

  /** One more defined trait of the selection is one more trait applied. */
  lemma SelectedPrefixStep(base: Multipliers, traits: seq<Option<Trait>>, i: nat)
    requires i < |traits| && AllDefined(traits[..i]) && traits[i].Some?
    ensures AllDefined(traits[..i + 1])
    ensures ApplyTraits(base, Defined(traits[..i + 1])) == ApplyTrait(ApplyTraits(base, Defined(traits[..i])), traits[i].value)
  {
    assert traits[..i + 1] == traits[..i] + [traits[i]];
    assert Defined(traits[..i + 1]) == Defined(traits[..i]) + [traits[i].value];
    ApplyTraitsSnoc(base, Defined(traits[..i]), traits[i].value);
  }

  /** The trait loop of `Header.calculateData`: each selected trait's four modifiers in turn. */
  method ApplySelectedTraits(base: Multipliers, traits: seq<Option<Trait>>) returns (r: Result<Multipliers>)
    ensures r.Ok? <==> AllDefined(traits)
    ensures r.Ok? ==> r.value == ApplyTraits(base, Defined(traits))
    ensures r.Err? ==> r.error == TypeError
  {
    var finalMultipliers := base;
    var i := 0;
    while i < |traits|
      invariant 0 <= i <= |traits|
      invariant AllDefined(traits[..i])
      invariant finalMultipliers == ApplyTraits(base, Defined(traits[..i]))
    {
      if traits[i].None? {
        return Err(TypeError);
      }
      finalMultipliers := ApplyTraitInPlace(finalMultipliers, traits[i].value);
      SelectedPrefixStep(base, traits, i);
      i := i + 1;
    }
    assert traits[..|traits|] == traits;
    return Ok(finalMultipliers);
  }

  /** Pricing one more tiled block adds its adjusted costs to both totals. */
  lemma PricedPrefixStep(blocks: seq<Block>, qualityOf: Block -> QualityType, j: nat)
    requires j < |blocks| && BlocksTiled(blocks[..j]) && blocks[j].tile.Some?
    ensures BlocksTiled(blocks[..j + 1])
    ensures BuildSum(blocks[..j + 1], qualityOf) == BuildSum(blocks[..j], qualityOf)
      + ResolveValueModifier(blocks[j].tile.value.baseGpCost, qualityOf(blocks[j]).buildCost)
    ensures TpSum(blocks[..j + 1], qualityOf) == TpSum(blocks[..j], qualityOf)
      + ResolveValueModifier(blocks[j].tile.value.baseTpCost, qualityOf(blocks[j]).tpValue)
  {
    assert blocks[..j + 1][..j] == blocks[..j];
  }

  /** The block loop of `Header.calculateData`: the gold and TP totals of the blocks. */
  method PriceBlocks(blocks: seq<Block>, qualityOf: Block -> QualityType) returns (r: Result<(real, real)>)
    ensures r.Ok? <==> BlocksTiled(blocks)
    ensures r.Ok? ==> r.value == (BuildSum(blocks, qualityOf), TpSum(blocks, qualityOf))
    ensures r.Err? ==> r.error == TypeError
  {
    var buildCost := 0.0;
    var tpValue := 0.0;
    var j := 0;
    while j < |blocks|
      invariant 0 <= j <= |blocks|
      invariant BlocksTiled(blocks[..j])
      invariant buildCost == BuildSum(blocks[..j], qualityOf)
      invariant tpValue == TpSum(blocks[..j], qualityOf)
    {
      var block := blocks[j];
      var multipliers := qualityOf(block);
      if block.tile.None? {
        return Err(TypeError);
      }
      var gold := ResolveValueModifier(block.tile.value.baseGpCost, multipliers.buildCost);
      var tp := ResolveValueModifier(block.tile.value.baseTpCost, multipliers.tpValue);
      PricedPrefixStep(blocks, qualityOf, j);
      buildCost := buildCost + gold;
      tpValue := tpValue + tp;
      j := j + 1;
    }
    assert blocks[..|blocks|] == blocks;
    return Ok((buildCost, tpValue));
  }

  /** The first half of `Header.calculateData`: the base multipliers, then the trait loop. */
  method ComputeFinalMultipliers(catalog: Catalog, data: PlayerData) returns (r: Result<Multipliers>)
    ensures r == FinalMultipliers(catalog, data)
  {
    var base := BaseMultipliers(catalog, data);
    if base.Err? {
      return Err(base.error);
    }
    var traits := GetTraitsFromNames(catalog.traits, data.regionTraitsSelected);
    r := ApplySelectedTraits(base.value, traits);
  }

  /** The second half of `Header.calculateData`: the totals over the flattened block grid. */
  method ComputeGridCosts(m: TileMatrix, qualityOf: Block -> QualityType) returns (r: Result<(real, real)>)
    ensures r == GridCosts(m, qualityOf)
  {
    if |m| == 0 {
      return Ok((0.0, 0.0));
    }
    var blockMatrix := ConvertTileMatrixToBlockMatrix(m);
    r := PriceBlocks(Flatten(Flatten(blockMatrix)), qualityOf);
  }

  /**
   * `Header.calculateData`: folds the selected traits over the base multipliers, then prices
   * the grid. The quality of each block comes from `qualityOf`.
   */
  method CalculateData(catalog: Catalog, qualityOf: Block -> QualityType, data: PlayerData) returns (r: Result<HeaderState>)
    ensures r == CalculatedData(catalog, qualityOf, data)
  {
    var folded := ComputeFinalMultipliers(catalog, data);
    if folded.Err? {
      return Err(folded.error);
    }
    var finalMultipliers := folded.value;
    var landCost := LandCost(catalog, data.mapMatrix, finalMultipliers.landCost);
    var costs := ComputeGridCosts(data.mapMatrix, qualityOf);
    if costs.Err? {
      return Err(costs.error);
    }
    return Ok(HeaderState(landCost, costs.value.0, costs.value.1, finalMultipliers));
  }

  // ---------------------------------------------------------------------------------------
  // What the totals mean

  /** Land is priced per column: two grids with the same rows and columns cost the same, whatever their levels. */
  lemma LandCostIgnoresLevels(catalog: Catalog, m1: TileMatrix, m2: TileMatrix, landMultiplier: real)
    requires |m1| == |m2|
    requires forall i :: 0 <= i < |m1| ==> |m1[i]| == |m2[i]|
    ensures LandCost(catalog, m1, landMultiplier) == LandCost(catalog, m2, landMultiplier)
  {
    FlattenLength(m1, m2);
  }

  /** A fresh `x` by `y` grid costs `x * y` land units (nothing when it has no rows). */
  lemma LandCostOfFreshGrid(catalog: Catalog, y: int, x: int, landMultiplier: real)
    ensures LandCost(catalog, EmptyTileMatrix(y, x), landMultiplier)
      == if Count(x) > 0 then ((Count(x) * Count(y)) as real) * catalog.landCost * landMultiplier else 0.0
  {
    FlattenUniform(EmptyTileMatrix(y, x), Count(y));
  }

  /** The block grid of a fresh `x` by `y` grid: `x` rows of `y` cells, each one level of the "Empty" entry. */
  lemma FreshBlockGrid(y: int, x: int)
    ensures |ConvertTileMatrixToBlockMatrix(EmptyTileMatrix(y, x))| == Count(x)
    ensures forall i :: 0 <= i < Count(x) ==> |ConvertTileMatrixToBlockMatrix(EmptyTileMatrix(y, x))[i]| == Count(y)
    ensures forall c :: c in Flatten(ConvertTileMatrixToBlockMatrix(EmptyTileMatrix(y, x))) ==> c == [Block(Some(TILE_INDOOR_CONSTS[0]), Undefined)]
  {
    var bm := ConvertTileMatrixToBlockMatrix(EmptyTileMatrix(y, x));
    forall i, j | 0 <= i < |bm| && 0 <= j < |bm[i]|
      ensures bm[i][j] == [Block(Some(TILE_INDOOR_CONSTS[0]), Undefined)]
    {
      FreshBlockCell(y, x, i, j);
    }
    forall c | c in Flatten(bm)
      ensures c == [Block(Some(TILE_INDOOR_CONSTS[0]), Undefined)]
    {
      var k :| 0 <= k < |Flatten(bm)| && Flatten(bm)[k] == c;
      var i :| 0 <= i < |bm| && c in bm[i];
    }
  }

  /** One cell of a fresh grid's blocks: a single level holding the "Empty" entry. */
  lemma FreshBlockCell(y: int, x: int, i: nat, j: nat)
    requires i < Count(x) && j < Count(y)
    ensures |ConvertTileMatrixToBlockMatrix(EmptyTileMatrix(y, x))[i]| == Count(y)
    ensures ConvertTileMatrixToBlockMatrix(EmptyTileMatrix(y, x))[i][j] == [Block(Some(TILE_INDOOR_CONSTS[0]), Undefined)]
  {
    var m := EmptyTileMatrix(y, x);
    var cell := ConvertTileMatrixToBlockMatrix(m)[i][j];
    EmptyTileBlock();
    assert m[i][j] == [EMPTY_TILE];
    assert |cell| == 1 && cell[0] == BlockFromTile(EMPTY_TILE);
  }

  /** Every block of a fresh grid is the "Empty" catalog entry, one per cell. */
  lemma FreshGridBlocks(y: int, x: int)
    ensures |AllBlocks(EmptyTileMatrix(y, x))| == Count(x) * Count(y)
    ensures forall b :: b in AllBlocks(EmptyTileMatrix(y, x)) ==> b == Block(Some(TILE_INDOOR_CONSTS[0]), Undefined)
  {
    var bm := ConvertTileMatrixToBlockMatrix(EmptyTileMatrix(y, x));
    FreshBlockGrid(y, x);
    forall i, j | 0 <= i < |bm| && 0 <= j < |bm[i]|
      ensures bm[i][j] == [Block(Some(TILE_INDOOR_CONSTS[0]), Undefined)]
    {
      FreshBlockCell(y, x, i, j);
    }
    FlattenSingletons(bm, Count(y), Block(Some(TILE_INDOOR_CONSTS[0]), Undefined));
  }

  lemma {:induction false} BuildSumAppend(a: seq<Block>, b: seq<Block>, qualityOf: Block -> QualityType)
    ensures BuildSum(a + b, qualityOf) == BuildSum(a, qualityOf) + BuildSum(b, qualityOf)
    decreases |b|
  {
    if b == [] {
      assert a + b == a;
    } else {
      assert (a + b)[..|a + b| - 1] == a + b[..|b| - 1];
      BuildSumAppend(a, b[..|b| - 1], qualityOf);
    }
  }

  lemma {:induction false} TpSumAppend(a: seq<Block>, b: seq<Block>, qualityOf: Block -> QualityType)
    ensures TpSum(a + b, qualityOf) == TpSum(a, qualityOf) + TpSum(b, qualityOf)
    decreases |b|
  {
    if b == [] {
      assert a + b == a;
    } else {
      assert (a + b)[..|a + b| - 1] == a + b[..|b| - 1];
      TpSumAppend(a, b[..|b| - 1], qualityOf);
    }
  }

  /** A "Generic" block (30 gold, 8 TP) of a quality with gold `x1.2` and TP `+2` costs 36 gold and 10 TP. */
  lemma QualityExample(qualityOf: Block -> QualityType, traits: JsValue)
    requires qualityOf(Block(Some(TILE_INDOOR_CONSTS[2]), traits)).buildCost == ValueModifier(MULT, 1.2)
    requires qualityOf(Block(Some(TILE_INDOOR_CONSTS[2]), traits)).tpValue == ValueModifier(ADD, 2.0)
    ensures BuildSum([Block(Some(TILE_INDOOR_CONSTS[2]), traits)], qualityOf) == 36.0
    ensures TpSum([Block(Some(TILE_INDOOR_CONSTS[2]), traits)], qualityOf) == 10.0
  {
  }

  /** With zero bases, multiplicative traits leave every multiplier at zero. */
  lemma {:induction false} MultTraitsKeepZero(ts: seq<Trait>)
    requires forall t :: t in ts ==> t.dangerLevel.kind == MULT && t.buildCost.kind == MULT
    requires forall t :: t in ts ==> t.landCost.kind == MULT && t.tpValue.kind == MULT
    ensures ApplyTraits(ZERO_MULTIPLIERS, ts) == ZERO_MULTIPLIERS
  {
    if ts != [] {
      MultTraitsKeepZero(ts[..|ts| - 1]);
    }
  }

  /** Before a region is chosen the header's land cost is zero whenever the selected traits are all multiplicative. */
  lemma NoRegionNoLandCost(catalog: Catalog, qualityOf: Block -> QualityType, data: PlayerData)
    requires data.regionName == ""
    requires forall t :: t in catalog.traits ==> t.dangerLevel.kind == MULT && t.buildCost.kind == MULT
    requires forall t :: t in catalog.traits ==> t.landCost.kind == MULT && t.tpValue.kind == MULT
    requires CalculatedData(catalog, qualityOf, data).Ok?
    ensures CalculatedData(catalog, qualityOf, data).value.multipliers == ZERO_MULTIPLIERS
    ensures CalculatedData(catalog, qualityOf, data).value.calculatedLandCost == 0.0
  {
    var traits := GetTraitsFromNames(catalog.traits, data.regionTraitsSelected);
    var ts := Defined(traits);
    forall t | t in ts
      ensures t in catalog.traits
    {
      var i :| 0 <= i < |ts| && ts[i] == t;
      assert traits[i].Some?;
    }
    MultTraitsKeepZero(ts);
  }

  /**
   * With a country and a region chosen, the header's multipliers are what the trait picker
   * shows for that subregion: each field is its base value run through the selected traits'
   * modifiers for that field, in selection order.
   */
  lemma HeaderMultipliersFromSubregion(catalog: Catalog, data: PlayerData, base: Subregion)
    requires data.countryName != "" && data.regionName != ""
    requires GetCountryDataByName(catalog.countries, data.countryName).Ok?
    requires GetSubregionByName(GetCountryDataByName(catalog.countries, data.countryName).value, data.regionName) == Ok(base)
    requires AllDefined(GetTraitsFromNames(catalog.traits, data.regionTraitsSelected))
    ensures FinalMultipliers(catalog, data).Ok?
    ensures FinalMultipliers(catalog, data).value
      == ApplyTraits(BaseValues(base), Defined(GetTraitsFromNames(catalog.traits, data.regionTraitsSelected)))
    ensures FinalMultipliers(catalog, data).value.landCost
      == FoldModifiers(base.landCost, LandModifiers(Defined(GetTraitsFromNames(catalog.traits, data.regionTraitsSelected))))
    ensures FinalMultipliers(catalog, data).value.buildCost
      == FoldModifiers(base.buildCost, BuildModifiers(Defined(GetTraitsFromNames(catalog.traits, data.regionTraitsSelected))))
    ensures FinalMultipliers(catalog, data).value.dangerLevel
      == FoldModifiers(base.dangerLevel, DangerModifiers(Defined(GetTraitsFromNames(catalog.traits, data.regionTraitsSelected))))
    ensures FinalMultipliers(catalog, data).value.tpValue
      == FoldModifiers(base.tpValue, TpModifiers(Defined(GetTraitsFromNames(catalog.traits, data.regionTraitsSelected))))
  {
  }
}
