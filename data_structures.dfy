/**
 * The shapes of the catalog and of the persisted document, the catalog lookups, the value
 * modifier and the document construction of the property tool (data-structures.tsx).
 */
module DataStructures {
  import opened Results
  import opened Seqs
  import opened JsValues

  // ---------------------------------------------------------------------------------------
  // Value modifiers

  datatype ModifierType = ADD | MULT

  datatype ValueModifier = ValueModifier(kind: ModifierType, value: real)

  /** Applies one modifier to a running value: ADD adds its amount, MULT scales by it. */
  function ResolveValueModifier(prevVal: real, modifier: ValueModifier): (r: real)
    ensures modifier.kind == ADD ==> r == prevVal + modifier.value
    ensures modifier.kind == MULT ==> r == prevVal * modifier.value
  {
    match modifier.kind
    case ADD => prevVal + modifier.value
    case MULT => prevVal * modifier.value
  }

  // ---------------------------------------------------------------------------------------
  // Catalog and document shapes

  datatype QualityType = QualityType(name: string, buildCost: ValueModifier, tpValue: ValueModifier, faIcon: string)

  /**
   * A persisted cell. The declared key is `trait`, while the Block conversion reads and writes
   * `traits`; both are kept, as JavaScript values (`Undefined` when the key is absent).
   */
  datatype TileType = TileType(name: string, declaredTrait: JsValue, traits: JsValue)

  /** Cells indexed `[x][y][level]`. */
  type TileMatrix = seq<seq<seq<TileType>>>

  datatype PlayerData = PlayerData(
    propertyName: string,
    playerName: string,
    lastDateModified: string,
    versionCreatedWith: string,
    countryName: string,
    regionName: string,
    regionTraitsSelected: seq<string>,
    mapMatrix: TileMatrix)

  datatype Subregion = Subregion(
    name: string,
    dangerLevel: real,
    landCost: real,
    buildCost: real,
    tpValue: real,
    traits: seq<string>)

  datatype Region = Region(name: string, subregions: seq<Subregion>)

  datatype Trait = Trait(
    name: string,
    description: string,
    dangerLevel: ValueModifier,
    landCost: ValueModifier,
    buildCost: ValueModifier,
    tpValue: ValueModifier,
    exclusiveWith: seq<string>)

  datatype Country = Country(name: string, imageName: string, regions: seq<Region>)

  const COUNTRY_DEFAULT := Country("", "", [])

  datatype GridSize = GridSize(x: int, y: int)

  /** The wizard's state (declared beside the App component, read and produced here). */
  datatype AppState = AppState(
    stage: string,
    selectedCountry: string,
    selectedRegion: string,
    selectedTraits: seq<string>,
    selectedGridSize: GridSize,
    tileMatrix: TileMatrix)

  /** The static tables read from consts.json and traits.json, which the core never changes. */
  datatype Catalog = Catalog(countries: seq<Country>, traits: seq<Trait>, landCost: real)

  // ---------------------------------------------------------------------------------------
  // Multipliers and the trait fold

  /** The four region multipliers a trait adjusts. */
  datatype Multipliers = Multipliers(dangerLevel: real, buildCost: real, landCost: real, tpValue: real)

  const ZERO_MULTIPLIERS := Multipliers(0.0, 0.0, 0.0, 0.0)

  /** The four base values of a subregion. */
  function BaseValues(s: Subregion): (m: Multipliers)
    ensures m.dangerLevel == s.dangerLevel && m.buildCost == s.buildCost
    ensures m.landCost == s.landCost && m.tpValue == s.tpValue
  {
    Multipliers(s.dangerLevel, s.buildCost, s.landCost, s.tpValue)
  }

  /** One trait applied: each field is resolved with that trait's modifier for the same field. */
  function ApplyTrait(m: Multipliers, t: Trait): Multipliers
  {
    Multipliers(
      ResolveValueModifier(m.dangerLevel, t.dangerLevel),
      ResolveValueModifier(m.buildCost, t.buildCost),
      ResolveValueModifier(m.landCost, t.landCost),
      ResolveValueModifier(m.tpValue, t.tpValue))
  }

  /** The selected traits applied one after another, in selection order. */
  function ApplyTraits(m: Multipliers, ts: seq<Trait>): (r: Multipliers)
    ensures r.dangerLevel == FoldModifiers(m.dangerLevel, DangerModifiers(ts))
    ensures r.buildCost == FoldModifiers(m.buildCost, BuildModifiers(ts))
    ensures r.landCost == FoldModifiers(m.landCost, LandModifiers(ts))
    ensures r.tpValue == FoldModifiers(m.tpValue, TpModifiers(ts))
  {
    if ts == [] then m
    else
      var init := ts[..|ts| - 1];
      assert DangerModifiers(ts)[..|ts| - 1] == DangerModifiers(init);
      assert BuildModifiers(ts)[..|ts| - 1] == BuildModifiers(init);
      assert LandModifiers(ts)[..|ts| - 1] == LandModifiers(init);
      assert TpModifiers(ts)[..|ts| - 1] == TpModifiers(init);
      ApplyTrait(ApplyTraits(m, init), ts[|ts| - 1])
  }

  /** A modifier that changes nothing: adding 0 or scaling by 1. */
  predicate IsNeutral(m: ValueModifier)
  {
    (m.kind == ADD && m.value == 0.0) || (m.kind == MULT && m.value == 1.0)
  }

  /** Applying one more trait after a selection is applying the longer selection. */
  lemma ApplyTraitsSnoc(m: Multipliers, ts: seq<Trait>, t: Trait)
    ensures ApplyTraits(m, ts + [t]) == ApplyTrait(ApplyTraits(m, ts), t)
  {
    assert (ts + [t])[..|ts|] == ts;
  }

  /** One value run through a list of modifiers, in order. */
  function FoldModifiers(v: real, mods: seq<ValueModifier>): real
  {
    if mods == [] then v else ResolveValueModifier(FoldModifiers(v, mods[..|mods| - 1]), mods[|mods| - 1])
  }

  /** Neutral modifiers leave the value as it was. */
  lemma {:induction false} FoldNeutral(v: real, mods: seq<ValueModifier>)
    requires forall i :: 0 <= i < |mods| ==> IsNeutral(mods[i])
    ensures FoldModifiers(v, mods) == v
  {
    if mods != [] {
      FoldNeutral(v, mods[..|mods| - 1]);
    }
  }

  /** Folding through two lists one after the other is folding through their concatenation. */
  lemma {:induction false} FoldModifiersAppend(v: real, a: seq<ValueModifier>, b: seq<ValueModifier>)
    ensures FoldModifiers(v, a + b) == FoldModifiers(FoldModifiers(v, a), b)
    decreases |b|
  {
    if b == [] {
      assert a + b == a;
    } else {
      assert (a + b)[..|a + b| - 1] == a + b[..|b| - 1];
      FoldModifiersAppend(v, a, b[..|b| - 1]);
    }
  }

  /** The amounts of `mods` added up. */
  function SumOf(mods: seq<ValueModifier>): real
  {
    if mods == [] then 0.0 else SumOf(mods[..|mods| - 1]) + mods[|mods| - 1].value
  }

  /** The amounts of `mods` multiplied together. */
  function ProductOf(mods: seq<ValueModifier>): real
  {
    if mods == [] then 1.0 else ProductOf(mods[..|mods| - 1]) * mods[|mods| - 1].value
  }

  /** Running a value through additive modifiers only adds the sum of their amounts. */
  lemma {:induction false} FoldAllAdd(v: real, mods: seq<ValueModifier>)
    requires forall i :: 0 <= i < |mods| ==> mods[i].kind == ADD
    ensures FoldModifiers(v, mods) == v + SumOf(mods)
  {
    if mods != [] {
      FoldAllAdd(v, mods[..|mods| - 1]);
    }
  }

  /** Running a value through multiplicative modifiers only scales it by the product of their amounts. */
  lemma {:induction false} FoldAllMult(v: real, mods: seq<ValueModifier>)
    requires forall i :: 0 <= i < |mods| ==> mods[i].kind == MULT
    ensures FoldModifiers(v, mods) == v * ProductOf(mods)
  {
    if mods != [] {
      var init := mods[..|mods| - 1];
      FoldAllMult(v, init);
      assert v * ProductOf(init) * mods[|mods| - 1].value == v * (ProductOf(init) * mods[|mods| - 1].value);
    }
  }

  function DangerModifiers(ts: seq<Trait>): (r: seq<ValueModifier>)
    ensures |r| == |ts| && forall i :: 0 <= i < |ts| ==> r[i] == ts[i].dangerLevel
  {
    seq(|ts|, i requires 0 <= i < |ts| => ts[i].dangerLevel)
  }

  function BuildModifiers(ts: seq<Trait>): (r: seq<ValueModifier>)
    ensures |r| == |ts| && forall i :: 0 <= i < |ts| ==> r[i] == ts[i].buildCost
  {
    seq(|ts|, i requires 0 <= i < |ts| => ts[i].buildCost)
  }

  function LandModifiers(ts: seq<Trait>): (r: seq<ValueModifier>)
    ensures |r| == |ts| && forall i :: 0 <= i < |ts| ==> r[i] == ts[i].landCost
  {
    seq(|ts|, i requires 0 <= i < |ts| => ts[i].landCost)
  }

  function TpModifiers(ts: seq<Trait>): (r: seq<ValueModifier>)
    ensures |r| == |ts| && forall i :: 0 <= i < |ts| ==> r[i] == ts[i].tpValue
  {
    seq(|ts|, i requires 0 <= i < |ts| => ts[i].tpValue)
  }

  /** Applying a selection is applying its first part and then its second part. */
  lemma {:induction false} ApplyTraitsAppend(m: Multipliers, a: seq<Trait>, b: seq<Trait>)
    ensures ApplyTraits(m, a + b) == ApplyTraits(ApplyTraits(m, a), b)
  {
    if b == [] {
      assert a + b == a;
    } else {
      assert (a + b)[..|a + b| - 1] == a + b[..|b| - 1];
      ApplyTraitsAppend(m, a, b[..|b| - 1]);
    }
  }

  // ---------------------------------------------------------------------------------------
  // Catalog lookups

  /** `regions.flatMap(x => x.subregions)`: every subregion of every region, in order. */
  function AllSubregions(regions: seq<Region>): (r: seq<Subregion>)
    ensures forall i, j :: 0 <= i < |regions| && 0 <= j < |regions[i].subregions| ==> regions[i].subregions[j] in r
    ensures forall k :: 0 <= k < |r| ==> exists i :: 0 <= i < |regions| && r[k] in regions[i].subregions
  {
    var lists := seq(|regions|, i requires 0 <= i < |regions| => regions[i].subregions);
    assert forall i :: 0 <= i < |regions| ==> lists[i] == regions[i].subregions;
    Flatten(lists)
  }

  /** Position `i` holds the first subregion named `name`. */
  predicate FirstSubregionAt(all: seq<Subregion>, i: int, name: string)
  {
    0 <= i < |all| && all[i].name == name && forall j :: 0 <= j < i ==> all[j].name != name
  }

  /** The first subregion of `regions` (all regions, in order) named `name`. */
  function FindSubregion(regions: seq<Region>, name: string): (r: Option<Subregion>)
    ensures r.None? <==> forall s :: s in AllSubregions(regions) ==> s.name != name
    ensures r.Some? ==>
      exists i :: FirstSubregionAt(AllSubregions(regions), i, name) && AllSubregions(regions)[i] == r.value
  {
    FirstNamedSubregion(AllSubregions(regions), name)
  }

  /** The first subregion of the list `all` named `name`. */
  function FirstNamedSubregion(all: seq<Subregion>, name: string): (r: Option<Subregion>)
    ensures r.None? <==> forall s :: s in all ==> s.name != name
    ensures r.Some? ==> exists i :: FirstSubregionAt(all, i, name) && all[i] == r.value
  {
    match FindIndex(all, (s: Subregion) => s.name == name)
    case Some(i) => assert FirstSubregionAt(all, i, name); Some(all[i])
    case None => None
  }

  /** The subregion named `name` in `country`, or the error the lookup throws. */
  function GetSubregionByName(country: Country, name: string): (r: Result<Subregion>)
    ensures r.Err? <==> forall s :: s in AllSubregions(country.regions) ==> s.name != name
    ensures r.Err? ==> r.error == SubregionNotFound(name)
    ensures r.Ok? ==> r.value.name == name && r.value in AllSubregions(country.regions)
    ensures r.Ok? ==>
      exists i :: FirstSubregionAt(AllSubregions(country.regions), i, name) && AllSubregions(country.regions)[i] == r.value
  {
    match FindSubregion(country.regions, name)
    case Some(s) => Ok(s)
    case None => Err(SubregionNotFound(name))
  }

  /** Position `i` holds the first country named `name`. */
  predicate FirstCountryAt(countries: seq<Country>, i: int, name: string)
  {
    0 <= i < |countries| && countries[i].name == name && forall j :: 0 <= j < i ==> countries[j].name != name
  }

  /** The first country of the catalog named `name`. */
  function FindCountry(countries: seq<Country>, name: string): (r: Option<Country>)
    ensures r.None? <==> forall c :: c in countries ==> c.name != name
    ensures r.Some? ==> exists i :: FirstCountryAt(countries, i, name) && countries[i] == r.value
  {
    match FindIndex(countries, (c: Country) => c.name == name)
    case Some(i) => Some(countries[i])
    case None => None
  }

  /** The country named `name`, or the error the lookup throws. */
  function GetCountryDataByName(countries: seq<Country>, name: string): (r: Result<Country>)
    ensures r.Err? <==> forall c :: c in countries ==> c.name != name
    ensures r.Err? ==> r.error == CountryNotFound(name)
    ensures r.Ok? ==> exists i :: FirstCountryAt(countries, i, name) && countries[i] == r.value
  {
    match FindCountry(countries, name)
    case Some(c) => Ok(c)
    case None => Err(CountryNotFound(name))
  }

  /** Position `i` holds the first trait named `name`. */
  predicate FirstTraitAt(traits: seq<Trait>, i: int, name: string)
  {
    0 <= i < |traits| && traits[i].name == name && forall j :: 0 <= j < i ==> traits[j].name != name
  }

  /** The first trait of the catalog named `name`; `None` stands for the `undefined` that `find` yields. */
  function FindTrait(traits: seq<Trait>, name: string): (r: Option<Trait>)
    ensures r.None? <==> forall t :: t in traits ==> t.name != name
    ensures r.Some? ==> exists i :: FirstTraitAt(traits, i, name) && traits[i] == r.value
  {
    match FindIndex(traits, (t: Trait) => t.name == name)
    case Some(i) => Some(traits[i])
    case None => None
  }

  /** One lookup per name, in the order of the names; unknown names give `None` in place. */
  function GetTraitsFromNames(traits: seq<Trait>, names: seq<string>): (r: seq<Option<Trait>>)
    ensures |r| == |names|
    ensures forall i :: 0 <= i < |names| ==> (r[i].Some? <==> exists t :: t in traits && t.name == names[i])
    ensures forall i :: 0 <= i < |names| && r[i].Some? ==> r[i].value in traits && r[i].value.name == names[i]
    ensures forall i :: 0 <= i < |names| ==> r[i] == FindTrait(traits, names[i])
  {
    seq(|names|, i requires 0 <= i < |names| => FindTrait(traits, names[i]))
  }

  // ---------------------------------------------------------------------------------------
  // The persisted document

  /** The cell a fresh grid holds at its single level. */
  const EMPTY_TILE := TileType("Empty", Str(""), Undefined)

  /** How many times `for (let i = 0; i < n; i++)` runs. */
  function Count(n: int): nat
  {
    if n < 0 then 0 else n
  }

  /** A fresh grid of `x` rows of `y` cells, each with one level holding the empty tile. */
  function EmptyTileMatrix(y: int, x: int): (r: TileMatrix)
    ensures |r| == Count(x)
    ensures forall i :: 0 <= i < |r| ==> |r[i]| == Count(y)
    ensures forall i, j :: 0 <= i < |r| && 0 <= j < |r[i]| ==> r[i][j] == [EMPTY_TILE]
  {
    seq(Count(x), _ => seq(Count(y), _ => [EMPTY_TILE]))
  }

  /** The document built from the wizard's state (the value ConstructData stores). */
  function ConstructedData(appState: AppState): (r: PlayerData)
    ensures r.countryName == appState.selectedCountry && r.regionName == appState.selectedRegion
    ensures r.regionTraitsSelected == appState.selectedTraits
    ensures |appState.tileMatrix| > 0 ==> r.mapMatrix == appState.tileMatrix
    ensures |appState.tileMatrix| == 0 ==> (|r.mapMatrix| == Count(appState.selectedGridSize.y)
      && forall i :: 0 <= i < |r.mapMatrix| ==> |r.mapMatrix[i]| == Count(appState.selectedGridSize.x))
  {
    PlayerData(
      "Test Property",
      "Test Player",
      "Ignored",
      "Ignored",
      appState.selectedCountry,
      appState.selectedRegion,
      appState.selectedTraits,
      if |appState.tileMatrix| > 0 then appState.tileMatrix
      else EmptyTileMatrix(appState.selectedGridSize.x, appState.selectedGridSize.y))
  }

  /** The wizard's state restored from a document: straight to the editor, sized by the outer and first inner extent. */
  function GetAppStateFromPlayerData(playerData: PlayerData): (r: Result<AppState>)
    ensures r.Err? <==> |playerData.mapMatrix| == 0
    ensures r.Err? ==> r.error == TypeError
    ensures r.Ok? ==> r.value.stage == "edit" && r.value.tileMatrix == playerData.mapMatrix
    ensures r.Ok? ==> r.value.selectedCountry == playerData.countryName && r.value.selectedRegion == playerData.regionName
    ensures r.Ok? ==> r.value.selectedTraits == playerData.regionTraitsSelected
    ensures r.Ok? ==> r.value.selectedGridSize == GridSize(|playerData.mapMatrix|, |playerData.mapMatrix[0]|)
  {
    if |playerData.mapMatrix| == 0 then Err(TypeError)  // `mapMatrix[0].length` on an empty matrix
    else Ok(AppState(
      "edit",
      playerData.countryName,
      playerData.regionName,
      playerData.regionTraitsSelected,
      GridSize(|playerData.mapMatrix|, |playerData.mapMatrix[0]|),
      playerData.mapMatrix))
  }

  /**
   * A document built from a state without a grid has the selected size's `y` as its outer
   * extent, so reading the size back swaps the two dimensions (and fails when `y` is not positive).
   */
  lemma GridSizeComesBackSwapped(appState: AppState)
    requires |appState.tileMatrix| == 0
    ensures appState.selectedGridSize.y <= 0 ==> GetAppStateFromPlayerData(ConstructedData(appState)).Err?
    ensures appState.selectedGridSize.y > 0 ==>
      GetAppStateFromPlayerData(ConstructedData(appState)).Ok? &&
      GetAppStateFromPlayerData(ConstructedData(appState)).value.selectedGridSize
        == GridSize(appState.selectedGridSize.y, Count(appState.selectedGridSize.x))
  {
  }

  /** A state with a grid survives a document round trip except for its stage and its reported size. */
  lemma StateRoundTrip(appState: AppState)
    requires |appState.tileMatrix| > 0
    ensures GetAppStateFromPlayerData(ConstructedData(appState)) == Ok(appState.(
      stage := "edit",
      selectedGridSize := GridSize(|appState.tileMatrix|, |appState.tileMatrix[0]|)))
  {
  }

  /** A document with a grid survives a state round trip except for its four identity fields. */
  lemma DocumentRoundTrip(playerData: PlayerData)
    requires |playerData.mapMatrix| > 0
    ensures GetAppStateFromPlayerData(playerData).Ok?
    ensures ConstructedData(GetAppStateFromPlayerData(playerData).value) == playerData.(
      propertyName := "Test Property",
      playerName := "Test Player",
      lastDateModified := "Ignored",
      versionCreatedWith := "Ignored")
  {
  }

  /** The document holder: `playerData` stays unset until a document is built or loaded. */
  class DataSerializer {
    var playerData: Option<PlayerData>

    constructor()
      ensures playerData == None
    {
      playerData := None;
    }

    /** Builds the document from the wizard's state, stores it and returns it. */
    method ConstructData(appState: AppState) returns (data: PlayerData)
      modifies this
      ensures data == ConstructedData(appState)
      ensures data.propertyName == "Test Property" && data.playerName == "Test Player"
      ensures data.lastDateModified == "Ignored" && data.versionCreatedWith == "Ignored"
      ensures data.countryName == appState.selectedCountry && data.regionName == appState.selectedRegion
      ensures data.regionTraitsSelected == appState.selectedTraits
      ensures |appState.tileMatrix| > 0 ==> data.mapMatrix == appState.tileMatrix
      ensures |appState.tileMatrix| == 0 ==>
        data.mapMatrix == EmptyTileMatrix(appState.selectedGridSize.x, appState.selectedGridSize.y)
      ensures playerData == Some(data)
    {
      data := PlayerData(
        "Test Property",
        "Test Player",
        "Ignored",
        "Ignored",
        appState.selectedCountry,
        appState.selectedRegion,
        appState.selectedTraits,
        []);
      if |appState.tileMatrix| > 0 {
        data := data.(mapMatrix := appState.tileMatrix);
      } else {
        var floor := CreateEmptyTileMatrix(appState.selectedGridSize.x, appState.selectedGridSize.y);
        data := data.(mapMatrix := floor);
      }
      playerData := Some(data);
    }

    /** Fills a fresh grid row by row: `x` rows, each of `y` cells, each cell one level holding the empty tile. */
    method CreateEmptyTileMatrix(y: int, x: int) returns (floor: TileMatrix)
      ensures |floor| == Count(x)
      ensures forall i :: 0 <= i < |floor| ==> |floor[i]| == Count(y)
      ensures forall i, j :: 0 <= i < |floor| && 0 <= j < |floor[i]| ==> floor[i][j] == [EMPTY_TILE]
      ensures floor == EmptyTileMatrix(y, x)
    {
      floor := [];
      var i := 0;
      while i < x
        invariant 0 <= i && |floor| == i
        invariant x >= 0 ==> i <= x
        invariant x < 0 ==> i == 0
        invariant forall k :: 0 <= k < i ==> floor[k] == seq(Count(y), _ => [EMPTY_TILE])
      {
        var row: seq<seq<TileType>> := [];
        var j := 0;
        while j < y
          invariant 0 <= j && |row| == j
          invariant y >= 0 ==> j <= y
          invariant y < 0 ==> j == 0
          invariant forall k :: 0 <= k < j ==> row[k] == [EMPTY_TILE]
        {
          row := row + [[EMPTY_TILE]];
          j := j + 1;
        }
        floor := floor + [row];
        i := i + 1;
      }
    }
  }
}
