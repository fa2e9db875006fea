/**
 * The computations inside the region and trait pickers (select-country.tsx): the region list
 * of the chosen country, the subregion shown, and the multipliers shown while picking traits.
 */
module SelectCountry {
  import opened Results
  import opened DataStructures

  /**
   * The multipliers the trait picker shows: the subregion's four base values, then every
   * selected trait in list order, each field changed only by that trait's modifier for it.
   */
  method SelectTraitsMultipliers(baseMultiplier: Subregion, selectedTraits: seq<Trait>) returns (multipliers: Multipliers)
    ensures multipliers == ApplyTraits(BaseValues(baseMultiplier), selectedTraits)
    ensures selectedTraits == [] ==> multipliers == BaseValues(baseMultiplier)
    ensures multipliers.dangerLevel == FoldModifiers(baseMultiplier.dangerLevel, DangerModifiers(selectedTraits))
    ensures multipliers.landCost == FoldModifiers(baseMultiplier.landCost, LandModifiers(selectedTraits))
    ensures multipliers.buildCost == FoldModifiers(baseMultiplier.buildCost, BuildModifiers(selectedTraits))
    ensures multipliers.tpValue == FoldModifiers(baseMultiplier.tpValue, TpModifiers(selectedTraits))
  {
    multipliers := Multipliers(
      baseMultiplier.dangerLevel, baseMultiplier.buildCost, baseMultiplier.landCost, baseMultiplier.tpValue);
    var i := 0;
    while i < |selectedTraits|
      invariant 0 <= i <= |selectedTraits|
      invariant multipliers == ApplyTraits(BaseValues(baseMultiplier), selectedTraits[..i])
    {
      var x := selectedTraits[i];
      multipliers := multipliers.(dangerLevel := ResolveValueModifier(multipliers.dangerLevel, x.dangerLevel));
      multipliers := multipliers.(landCost := ResolveValueModifier(multipliers.landCost, x.landCost));
      multipliers := multipliers.(buildCost := ResolveValueModifier(multipliers.buildCost, x.buildCost));
      multipliers := multipliers.(tpValue := ResolveValueModifier(multipliers.tpValue, x.tpValue));
      assert selectedTraits[..i + 1][..i] == selectedTraits[..i];
      i := i + 1;
    }
    assert selectedTraits[..|selectedTraits|] == selectedTraits;
  }

  /** `country?.regions || []`: the regions of the chosen country, none if it is not in the catalog. */
  function RegionsOf(countries: seq<Country>, selectedCountry: string): (r: seq<Region>)
    ensures (forall c :: c in countries ==> c.name != selectedCountry) ==> r == []
    ensures forall i :: FirstCountryAt(countries, i, selectedCountry) ==> r == countries[i].regions
  {
    match FindCountry(countries, selectedCountry)
    case Some(c) => c.regions
    case None => []
  }

  /** The zero-valued subregion shown before one is found. */
  const DEFAULT_SUBREGION := Subregion("", 0.0, 0.0, 0.0, 0.0, [])

  /**
   * The subregion the region picker holds: the first one named `selectedSubregion` among the
   * subregions of all regions of the chosen country, or the zero-valued default.
   */
  function ShownSubregion(countries: seq<Country>, selectedCountry: string, selectedSubregion: string): (r: Subregion)
    ensures selectedSubregion == "" ==> r == DEFAULT_SUBREGION
    ensures (forall s :: s in AllSubregions(RegionsOf(countries, selectedCountry)) ==> s.name != selectedSubregion)
      ==> r == DEFAULT_SUBREGION
    ensures selectedSubregion != "" && r != DEFAULT_SUBREGION ==>
      exists i :: FirstSubregionAt(AllSubregions(RegionsOf(countries, selectedCountry)), i, selectedSubregion)
        && AllSubregions(RegionsOf(countries, selectedCountry))[i] == r
    ensures selectedSubregion != "" ==>
      forall i :: FirstSubregionAt(AllSubregions(RegionsOf(countries, selectedCountry)), i, selectedSubregion)
        ==> r == AllSubregions(RegionsOf(countries, selectedCountry))[i]
  {
    if selectedSubregion != "" then
      match FindSubregion(RegionsOf(countries, selectedCountry), selectedSubregion)
      case Some(s) => s
      case None => DEFAULT_SUBREGION
    else DEFAULT_SUBREGION
  }

  /** The picker's search is the document lookup's search, with the default standing in for its failure. */
  lemma ShownSubregionIsLookup(countries: seq<Country>, c: Country, name: string)
    requires FindCountry(countries, c.name) == Some(c) && name != ""
    ensures ShownSubregion(countries, c.name, name)
         == (match GetSubregionByName(c, name) case Ok(s) => s case Err(_) => DEFAULT_SUBREGION)
  {
  }
}
