/**
 * The tile editor (edit-property.tsx): the indoor tile catalog, the Block that wraps one
 * persisted cell, the conversions between tile and block grids, and the in-place cell update.
 */
module EditProperty {
  import opened Results
  import opened Seqs
  import opened JsValues
  import opened DataStructures

  datatype TileConstType = TileConstType(
    tileType: string,
    tileDisplayName: string,
    color: string,
    baseTpCost: real,
    baseGpCost: real)

  /** The indoor tile kinds, in the order the editor lists them. */
  const TILE_INDOOR_CONSTS: seq<TileConstType> := [
    TileConstType("empty", "Empty", "white", 0.0, 0.0),
    TileConstType("cheap", "Cheap", "#4e342e", 2.0, 10.0),
    TileConstType("generic", "Generic", "#c62828", 8.0, 30.0),
    TileConstType("expensive", "Expensive", "#d84315", 30.0, 100.0),
    TileConstType("very-expensive", "Very Expensive", "#f9a825", 100.0, 300.0)
  ]

  /** No two catalog entries share a display name, so a lookup by display name is unambiguous. */
  lemma DisplayNamesDistinct()
    ensures forall i, j :: 0 <= i < j < |TILE_INDOOR_CONSTS| ==>
      TILE_INDOOR_CONSTS[i].tileDisplayName != TILE_INDOOR_CONSTS[j].tileDisplayName
  {
  }

  /**
   * One editable cell. `tile` is `None` where the catalog lookup found nothing (the
   * `undefined` that the lookup's cast lets through); `traits` is carried as it came.
   */
  datatype Block = Block(tile: Option<TileConstType>, traits: JsValue)

  /** The field initialiser `traits: string[] = []`. */
  const DEFAULT_TRAITS := Arr([])

  /** The constructor's argument: a persisted tile, or a catalog entry, or (wrongly) neither. */
  datatype BlockData = BlockData(tile: Option<TileType>, tileConst: Option<TileConstType>)

  /** The first catalog entry with display name `name`. */
  function FindTileConst(name: string): (r: Option<TileConstType>)
    ensures r.None? <==> forall c :: c in TILE_INDOOR_CONSTS ==> c.tileDisplayName != name
    ensures r.Some? ==> r.value in TILE_INDOOR_CONSTS && r.value.tileDisplayName == name
  {
    match FindIndex(TILE_INDOOR_CONSTS, (c: TileConstType) => c.tileDisplayName == name)
    case Some(i) => Some(TILE_INDOOR_CONSTS[i])
    case None => None
  }

  /** A catalog entry is what the lookup by its own display name finds. */
  lemma FindTileConstOfEntry(c: TileConstType)
    requires c in TILE_INDOOR_CONSTS
    ensures FindTileConst(c.tileDisplayName) == Some(c)
  {
    DisplayNamesDistinct();
  }

  /** The cell of a fresh grid is read back as the "Empty" catalog entry, with no traits. */
  lemma EmptyTileBlock()
    ensures BlockFromTile(EMPTY_TILE) == Block(Some(TILE_INDOOR_CONSTS[0]), Undefined)
  {
    FindTileConstOfEntry(TILE_INDOOR_CONSTS[0]);
  }

  /** The constructor's `tile` branch: the catalog entry by display name, the traits copied as they are. */
  function BlockFromTile(t: TileType): (b: Block)
    ensures b.traits == t.traits
    ensures b.tile.None? <==> forall c :: c in TILE_INDOOR_CONSTS ==> c.tileDisplayName != t.name
    ensures b.tile.Some? ==> b.tile.value in TILE_INDOOR_CONSTS && b.tile.value.tileDisplayName == t.name
  {
    Block(FindTileConst(t.name), t.traits)
  }

  /** `new Block(data)`: from a tile if one is given, else from a catalog entry, else a failure. */
  function NewBlock(data: BlockData): (r: Result<Block>)
    ensures r.Err? <==> data.tile.None? && data.tileConst.None?
    ensures r.Err? ==> r.error == MissingBlockData
    ensures data.tile.Some? ==> r == Ok(BlockFromTile(data.tile.value))
    ensures data.tile.None? && data.tileConst.Some? ==> r.Ok? && r.value.tile == data.tileConst && r.value.traits == Arr([])
  {
    if data.tile.Some? then Ok(BlockFromTile(data.tile.value))
    else if data.tileConst.Some? then Ok(Block(data.tileConst, DEFAULT_TRAITS))
    else Err(MissingBlockData)
  }

  /** The persisted form of a block: its display name and its traits; reading the name of a missing entry throws. */
  function ConvertToTileType(b: Block): (r: Result<TileType>)
    ensures r.Ok? <==> b.tile.Some?
    ensures r.Err? ==> r.error == TypeError
    ensures r.Ok? ==> r.value.name == b.tile.value.tileDisplayName && r.value.traits == b.traits
    ensures r.Ok? ==> r.value.declaredTrait == Undefined
  {
    match b.tile
    case Some(c) => Ok(TileType(c.tileDisplayName, Undefined, b.traits))
    case None => Err(TypeError)
  }

  /**
   * A block over a catalog entry survives the trip through its persisted form unchanged,
   * and so does the persisted form.
   */
  lemma BlockRoundTrip(b: Block)
    requires b.tile.Some? && b.tile.value in TILE_INDOOR_CONSTS
    ensures ConvertToTileType(b).Ok?
    ensures BlockFromTile(ConvertToTileType(b).value) == b
    ensures ConvertToTileType(BlockFromTile(ConvertToTileType(b).value)) == ConvertToTileType(b)
  {
    FindTileConstOfEntry(b.tile.value);
  }

  /**
   * A persisted tile comes back from a block unchanged exactly when its name is in the catalog
   * and it has no `trait` key: the conversion never writes that key.
   */
  lemma TileRoundTrip(t: TileType)
    ensures ConvertToTileType(BlockFromTile(t)) == Ok(t)
        <==> (exists c :: c in TILE_INDOOR_CONSTS && c.tileDisplayName == t.name) && t.declaredTrait == Undefined
  {
  }

  /** The cell of a fresh grid loses its `trait: ""` on the way through a block. */
  lemma EmptyTileLosesTrait()
    ensures ConvertToTileType(BlockFromTile(EMPTY_TILE)) == Ok(TileType("Empty", Undefined, Undefined))
    ensures ConvertToTileType(BlockFromTile(EMPTY_TILE)) != Ok(EMPTY_TILE)
  {
    FindTileConstOfEntry(TILE_INDOOR_CONSTS[0]);
  }

  // ---------------------------------------------------------------------------------------
  // Grid conversions

  type BlockMatrix = seq<seq<seq<Block>>>

  /** Two `[x][y][level]` grids have the same extents in all three dimensions. */
  ghost predicate SameShape<A, B>(a: seq<seq<seq<A>>>, b: seq<seq<seq<B>>>)
  {
    |a| == |b| &&
    (forall i :: 0 <= i < |a| ==> |a[i]| == |b[i]|) &&
    (forall i, j :: 0 <= i < |a| && 0 <= j < |a[i]| ==> |a[i][j]| == |b[i][j]|)
  }

  /** Every block of the grid has a catalog entry. */
  predicate AllTiled(bm: BlockMatrix)
  {
    forall i, j, k :: 0 <= i < |bm| && 0 <= j < |bm[i]| && 0 <= k < |bm[i][j]| ==> bm[i][j][k].tile.Some?
  }

  /** Every cell of a tile grid made into a block, keeping each cell at its `[x][y][level]` place. */
  function ConvertTileMatrixToBlockMatrix(m: TileMatrix): (r: BlockMatrix)
    ensures SameShape(m, r)
    ensures forall i, j, k :: 0 <= i < |m| && 0 <= j < |m[i]| && 0 <= k < |m[i][j]| ==>
      r[i][j][k] == BlockFromTile(m[i][j][k])
  {
    seq(|m|, i requires 0 <= i < |m| =>
      seq(|m[i]|, j requires 0 <= j < |m[i]| =>
        seq(|m[i][j]|, k requires 0 <= k < |m[i][j]| => BlockFromTile(m[i][j][k]))))
  }

  /** Every block made back into a tile in place; fails if any block lacks a catalog entry. */
  function ConvertBlockMatrixToTileMatrix(bm: BlockMatrix): (r: Result<TileMatrix>)
    ensures r.Ok? <==> AllTiled(bm)
    ensures r.Err? ==> r.error == TypeError
    ensures r.Ok? ==> SameShape(bm, r.value)
    ensures r.Ok? ==> forall i, j, k :: 0 <= i < |bm| && 0 <= j < |bm[i]| && 0 <= k < |bm[i][j]| ==>
      ConvertToTileType(bm[i][j][k]) == Ok(r.value[i][j][k])
  {
    if AllTiled(bm) then
      Ok(seq(|bm|, i requires 0 <= i < |bm| =>
        seq(|bm[i]|, j requires 0 <= j < |bm[i]| =>
          seq(|bm[i][j]|, k requires 0 <= k < |bm[i][j]| => ConvertToTileType(bm[i][j][k]).value))))
    else Err(TypeError)
  }

  /** Two grids of the same shape that agree cell by cell are equal. */
  lemma {:induction false} GridExtensionality<T>(a: seq<seq<seq<T>>>, b: seq<seq<seq<T>>>)
    requires SameShape(a, b)
    requires forall i, j, k :: 0 <= i < |a| && 0 <= j < |a[i]| && 0 <= k < |a[i][j]| ==> a[i][j][k] == b[i][j][k]
    ensures a == b
  {
    forall i | 0 <= i < |a|
      ensures a[i] == b[i]
    {
      forall j | 0 <= j < |a[i]|
        ensures a[i][j] == b[i][j]
      {
      }
    }
  }

  /**
   * Tile grid to block grid and back gives the same grid exactly when every cell names a
   * catalog entry and has no `trait` key.
   */
  lemma TileMatrixRoundTrip(m: TileMatrix)
    ensures ConvertBlockMatrixToTileMatrix(ConvertTileMatrixToBlockMatrix(m)) == Ok(m) <==>
      forall i, j, k :: 0 <= i < |m| && 0 <= j < |m[i]| && 0 <= k < |m[i][j]| ==>
        FindTileConst(m[i][j][k].name).Some? && m[i][j][k].declaredTrait == Undefined
  {
    var bm := ConvertTileMatrixToBlockMatrix(m);
    var r := ConvertBlockMatrixToTileMatrix(bm);
    if forall i, j, k :: 0 <= i < |m| && 0 <= j < |m[i]| && 0 <= k < |m[i][j]| ==>
         FindTileConst(m[i][j][k].name).Some? && m[i][j][k].declaredTrait == Undefined
    {
      assert AllTiled(bm);
      GridExtensionality(r.value, m);
    }
  }

  /** A grid of blocks over catalog entries survives the trip through its persisted form. */
  lemma BlockMatrixRoundTrip(bm: BlockMatrix)
    requires forall i, j, k :: 0 <= i < |bm| && 0 <= j < |bm[i]| && 0 <= k < |bm[i][j]| ==>
      bm[i][j][k].tile.Some? && bm[i][j][k].tile.value in TILE_INDOOR_CONSTS
    ensures ConvertBlockMatrixToTileMatrix(bm).Ok?
    ensures ConvertTileMatrixToBlockMatrix(ConvertBlockMatrixToTileMatrix(bm).value) == bm
  {
    var tm := ConvertBlockMatrixToTileMatrix(bm).value;
    var back := ConvertTileMatrixToBlockMatrix(tm);
    forall i, j, k | 0 <= i < |bm| && 0 <= j < |bm[i]| && 0 <= k < |bm[i][j]|
      ensures back[i][j][k] == bm[i][j][k]
    {
      BlockRoundTrip(bm[i][j][k]);
    }
    GridExtensionality(back, bm);
  }

  // ---------------------------------------------------------------------------------------
  // The editor

  /** The grid with the block at `[x][y][level]` replaced by `b`. */
  function SetCell(bm: BlockMatrix, x: nat, y: nat, level: nat, b: Block): (r: BlockMatrix)
    requires x < |bm| && y < |bm[x]| && level < |bm[x][y]|
    ensures SameShape(r, bm)
    ensures r[x][y][level] == b
    ensures forall i, j, k :: 0 <= i < |bm| && 0 <= j < |bm[i]| && 0 <= k < |bm[i][j]| && (i, j, k) != (x, y, level) ==>
      r[i][j][k] == bm[i][j][k]
  {
    bm[x := bm[x][y := bm[x][y][level := b]]]
  }

  /**
   * What the owner stores when a painted grid is handed back: if every block of the grid had
   * a catalog entry, the painted cell becomes the selected entry's tile with no traits and
   * every other cell keeps the tile it had.
   */
  lemma PaintedCellReachesTiles(bm: BlockMatrix, x: nat, y: nat, level: nat, selected: TileConstType)
    requires x < |bm| && y < |bm[x]| && level < |bm[x][y]| && AllTiled(bm)
    ensures ConvertBlockMatrixToTileMatrix(SetCell(bm, x, y, level, Block(Some(selected), DEFAULT_TRAITS))).Ok?
    ensures ConvertBlockMatrixToTileMatrix(SetCell(bm, x, y, level, Block(Some(selected), DEFAULT_TRAITS))).value[x][y][level]
         == TileType(selected.tileDisplayName, Undefined, Arr([]))
    ensures forall i, j, k :: 0 <= i < |bm| && 0 <= j < |bm[i]| && 0 <= k < |bm[i][j]| && (i, j, k) != (x, y, level) ==>
      ConvertBlockMatrixToTileMatrix(SetCell(bm, x, y, level, Block(Some(selected), DEFAULT_TRAITS))).value[i][j][k]
        == ConvertBlockMatrixToTileMatrix(bm).value[i][j][k]
  {
    var painted: BlockMatrix := SetCell(bm, x, y, level, Block(Some(selected), DEFAULT_TRAITS));
    assert AllTiled(painted) by {
      forall i, j, k | 0 <= i < |painted| && 0 <= j < |painted[i]| && 0 <= k < |painted[i][j]|
        ensures painted[i][j][k].tile.Some?
      {
        if (i, j, k) != (x, y, level) {
          assert painted[i][j][k] == bm[i][j][k];
        }
      }
    }
  }

  /** The editor's state: the block grid, the tile kind being painted, the level shown. */
  class EditProperty {
    var blockMatrix: BlockMatrix
    var selectedTileType: TileConstType
    var currentLevel: nat
    var currentlySelectedTraits: seq<string>

    /** Starts on the document's grid, at level 0, painting the first catalog entry. */
    constructor(data: PlayerData)
      ensures blockMatrix == ConvertTileMatrixToBlockMatrix(data.mapMatrix)
      ensures selectedTileType == TILE_INDOOR_CONSTS[0] && selectedTileType.tileDisplayName == "Empty"
      ensures selectedTileType.baseGpCost == 0.0 && selectedTileType.baseTpCost == 0.0
      ensures currentLevel == 0 && currentlySelectedTraits == []
    {
      blockMatrix := ConvertTileMatrixToBlockMatrix(data.mapMatrix);
      selectedTileType := TILE_INDOOR_CONSTS[0];
      currentLevel := 0;
      currentlySelectedTraits := [];
    }

    /** Picks the tile kind to paint with. */
    method TileSelected(tile: TileConstType)
      modifies this
      ensures selectedTileType == tile
      ensures blockMatrix == old(blockMatrix) && currentLevel == old(currentLevel)
      ensures currentlySelectedTraits == old(currentlySelectedTraits)
    {
      selectedTileType := tile;
    }

    /**
     * Paints the clicked cell at the current level with a fresh block of the selected kind;
     * the clicked cell is one the editor draws, so it has the current level. The updated grid
     * is then handed to the owner's `blockUpdatedCallback`; `handedOff` is that argument.
     */
    method UpdateTileAtCoords(x: nat, y: nat) returns (handedOff: BlockMatrix)
      requires x < |blockMatrix| && y < |blockMatrix[x]| && currentLevel < |blockMatrix[x][y]|
      modifies this
      ensures handedOff == blockMatrix
      ensures selectedTileType == old(selectedTileType) && currentLevel == old(currentLevel)
      ensures currentlySelectedTraits == old(currentlySelectedTraits)
      ensures blockMatrix == SetCell(old(blockMatrix), x, y, currentLevel, Block(Some(selectedTileType), DEFAULT_TRAITS))
      ensures SameShape(blockMatrix, old(blockMatrix))
      ensures blockMatrix[x][y][currentLevel] == Block(Some(selectedTileType), Arr([]))
      ensures forall i, j, k ::
        0 <= i < |blockMatrix| && 0 <= j < |blockMatrix[i]| && 0 <= k < |blockMatrix[i][j]| && (i, j, k) != (x, y, currentLevel)
        ==> blockMatrix[i][j][k] == old(blockMatrix)[i][j][k]
    {
      var block := NewBlock(BlockData(None, Some(selectedTileType))).value;
      blockMatrix := blockMatrix[x := blockMatrix[x][y := blockMatrix[x][y][currentLevel := block]]];
      handedOff := blockMatrix;
    }
  }
}
