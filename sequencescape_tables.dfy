/**
 * The Sequencescape tables sequencescape_plate_creator.rb reads and writes,
 * held in memory: `assets`, `uuids`, `container_associations` and `maps`,
 * each in row order, and the next id the `assets` auto-increment hands out.
 * Each transaction of the creator is specified here as a function from the
 * tables before to the outcome and the tables after.
 */
module SequencescapeTables {
  import opened Wrappers
  import opened Json

  const WellType: string := "Well"
  const PlateType: string := "Plate"
  const AssetResourceType: string := "Asset"
  const StockPlatePurposeId: int := 2
  const UnassignedPlatePurposeId: int := 100

  /** An `assets` row: a plate (with a purpose) or a well (with a map). */
  datatype Asset = Asset(id: nat, stiType: string, platePurposeId: Option<int>, mapId: Option<nat>)

  /** A `uuids` row: the S2 uuid (`external_id`) of a Sequencescape resource (a NULL `resource_id` is possible). */
  datatype UuidRow = UuidRow(resourceType: string, resourceId: Option<nat>, externalId: Json)

  /** A `container_associations` row: the well `contentId` sits on the plate `containerId`. */
  datatype Association = Association(containerId: nat, contentId: nat)

  /** A `maps` row: the map of location `description` on plates of `assetSize` wells. */
  datatype MapRow = MapRow(id: nat, description: string, assetSize: int)

  datatype Tables = Tables(
    assets: seq<Asset>,
    uuids: seq<UuidRow>,
    associations: seq<Association>,
    maps: seq<MapRow>,
    nextAssetId: nat)

  /** How one store operation of the creator ends. */
  datatype Outcome =
    | Committed     // the block finished and its transaction committed
    | RolledBack    // an exception inside the transaction: nothing it did is kept
    | NotFound      // PlateNotFoundInSequencescape, raised inside the transaction
    | Escaped       // an exception outside any transaction: it leaves the handler

  /** Every id the tables mention was handed out by the auto-increment before. */
  predicate WellFormed(t: Tables) {
    && (forall i :: 0 <= i < |t.assets| ==> t.assets[i].id < t.nextAssetId)
    && (forall i :: 0 <= i < |t.associations| ==> t.associations[i].containerId < t.nextAssetId && t.associations[i].contentId < t.nextAssetId)
    && (forall i :: 0 <= i < |t.uuids| ==> t.uuids[i].resourceId.Some? ==> t.uuids[i].resourceId.value < t.nextAssetId)
  }

  /** The rows of `s` that `keep` accepts, in order: a `where(…)` selection, or what a `delete` leaves. */
  function Filter<T(!new)>(s: seq<T>, keep: T -> bool): (r: seq<T>)
    ensures |r| <= |s|
    ensures forall x :: x in r <==> x in s && keep(x)
    decreases |s|
  {
    if s == [] then []
    else if keep(s[0]) then [s[0]] + Filter(s[1..], keep)
    else Filter(s[1..], keep)
  }

  lemma {:induction false} FilterAppend<T(!new)>(a: seq<T>, b: seq<T>, keep: T -> bool)
    ensures Filter(a + b, keep) == Filter(a, keep) + Filter(b, keep)
    decreases |a|
  {
    if a == [] {
      assert a + b == b;
    } else {
      assert (a + b)[1..] == a[1..] + b;
      FilterAppend(a[1..], b, keep);
    }
  }

  lemma {:induction false} FilterKeepsAll<T(!new)>(s: seq<T>, keep: T -> bool)
    requires forall i :: 0 <= i < |s| ==> keep(s[i])
    ensures Filter(s, keep) == s
    decreases |s|
  {
    if s != [] {
      FilterKeepsAll(s[1..], keep);
    }
  }

  lemma {:induction false} FilterDropsAll<T(!new)>(s: seq<T>, keep: T -> bool)
    requires forall i :: 0 <= i < |s| ==> !keep(s[i])
    ensures Filter(s, keep) == []
    decreases |s|
  {
    if s != [] {
      FilterDropsAll(s[1..], keep);
    }
  }

  /** Selecting from rows that are all kept followed by rows that are all dropped gives the kept ones. */
  lemma FilterKeepsThenDrops<T(!new)>(a: seq<T>, b: seq<T>, keep: T -> bool)
    requires forall i :: 0 <= i < |a| ==> keep(a[i])
    requires forall j :: 0 <= j < |b| ==> !keep(b[j])
    ensures Filter(a + b, keep) == a
  {
    FilterAppend(a, b, keep);
    FilterKeepsAll(a, keep);
    FilterDropsAll(b, keep);
    assert a + [] == a;
  }

  // ---------------------------------------------------------------- queries

  /** `t_maps.select(:id).where(:description => location, :asset_size => size).first`: the first such row's id. */
  function MapIdFor(maps: seq<MapRow>, location: string, size: int): (r: Option<nat>)
    ensures r.Some? <==> exists i :: 0 <= i < |maps| && maps[i].description == location && maps[i].assetSize == size
    ensures r.Some? ==> exists i :: 0 <= i < |maps| && maps[i] == MapRow(r.value, location, size)
    decreases |maps|
  {
    if maps == [] then None
    else if maps[0].description == location && maps[0].assetSize == size then Some(maps[0].id)
    else
      var r := MapIdFor(maps[1..], location, size);
      assert forall i :: 0 <= i < |maps| - 1 ==> maps[1..][i] == maps[i + 1];
      r
  }

  /**
   * `t_uuids.select(:resource_id).where(:external_id => uuid).first`: the
   * first matching row's `resource_id`, itself NULL for a row without one;
   * None when no row matches.
   */
  function ResourceIdFor(uuids: seq<UuidRow>, uuid: Json): (r: Option<Option<nat>>)
    ensures r.Some? <==> exists i :: 0 <= i < |uuids| && uuids[i].externalId == uuid
    ensures r.Some? ==> exists i :: 0 <= i < |uuids| && uuids[i].externalId == uuid && uuids[i].resourceId == r.value
    decreases |uuids|
  {
    if uuids == [] then None
    else if uuids[0].externalId == uuid then Some(uuids[0].resourceId)
    else
      var r := ResourceIdFor(uuids[1..], uuid);
      assert forall i :: 0 <= i < |uuids| - 1 ==> uuids[1..][i] == uuids[i + 1];
      r
  }

  /** Some `uuids` row gives the asset `id` the uuid `uuid`. */
  predicate HasUuid(uuids: seq<UuidRow>, id: nat, uuid: Json) {
    exists k :: 0 <= k < |uuids| && uuids[k].resourceId == Some(id) && uuids[k].externalId == uuid
  }

  /**
   * `t_assets.select(:assets__id).join(:uuids, :resource_id => :id)
   * .where(:external_id => uuid).first`: the first asset that the uuid names.
   */
  function MappedAsset(assets: seq<Asset>, uuids: seq<UuidRow>, uuid: Json): (r: Option<nat>)
    ensures r.Some? <==> exists i :: 0 <= i < |assets| && HasUuid(uuids, assets[i].id, uuid)
    ensures r.Some? ==> HasUuid(uuids, r.value, uuid) && exists i :: 0 <= i < |assets| && assets[i].id == r.value
    decreases |assets|
  {
    if assets == [] then None
    else if HasUuid(uuids, assets[0].id, uuid) then Some(assets[0].id)
    else
      var r := MappedAsset(assets[1..], uuids, uuid);
      assert forall i :: 0 <= i < |assets| - 1 ==> assets[1..][i] == assets[i + 1];
      r
  }

  /** The S2 uuid names a plate in Sequencescape. */
  predicate Mapped(t: Tables, uuid: Json) {
    MappedAsset(t.assets, t.uuids, uuid).Some?
  }

  predicate IsAssetId(assets: seq<Asset>, id: nat) {
    exists i :: 0 <= i < |assets| && assets[i].id == id
  }

  /** The ids of the wells on plate `plateId`: associations of the plate joined with `assets` on `content_id`. */
  function WellIds(t: Tables, plateId: nat): set<nat> {
    set i | 0 <= i < |t.associations| && t.associations[i].containerId == plateId && IsAssetId(t.assets, t.associations[i].contentId)
      :: t.associations[i].contentId
  }

  // ---------------------------------------------------------------- create_plate_in_sequencescape

  /** One `t_assets.insert`: the row gets the next id. */
  function InsertAsset(t: Tables, stiType: string, platePurposeId: Option<int>, mapId: Option<nat>): Tables {
    t.(assets := t.assets + [Asset(t.nextAssetId, stiType, platePurposeId, mapId)], nextAssetId := t.nextAssetId + 1)
  }

  /** The wells loop of create_plate_in_sequencescape after `wells` (None: a location without a map rolls back). */
  function AddWells(t: Tables, plateId: nat, wells: seq<(string, Json)>, size: int): Option<Tables>
    decreases |wells|
  {
    if wells == [] then Some(t)
    else
      var before :- AddWells(t, plateId, wells[..|wells| - 1], size);
      var mapId :- MapIdFor(before.maps, wells[|wells| - 1].0, size);
      var wellId := before.nextAssetId;
      var after := InsertAsset(before, WellType, None, Some(mapId));
      Some(after.(associations := after.associations + [Association(plateId, wellId)]))
  }

  /**
   * The transaction of create_plate_in_sequencescape for the `plate` hash: the
   * plate row, its uuid row, then a well row and an association per location.
   * None when anything in it raises (`asset_size` needs two numbers, `wells` a hash).
   */
  function CreatedPlate(t: Tables, plate: Json): Option<Tables> {
    if Index(plate, "uuid").Fail? then None
    else
      var plateId := t.nextAssetId;
      var t1 := InsertAsset(t, PlateType, Some(UnassignedPlatePurposeId), None);
      var t2 := t1.(uuids := t1.uuids + [UuidRow(AssetResourceType, Some(plateId), Index(plate, "uuid").value)]);
      var rows := Index(plate, "number_of_rows").value;
      var columns := Index(plate, "number_of_columns").value;
      if !(rows.JNum? && columns.JNum?) then None
      else
        var wells := Index(plate, "wells").value;
        if !wells.JObj? then None
        else AddWells(t2, plateId, wells.fields, rows.n * columns.n)
  }

  /** create_plate_in_sequencescape on a message body: `["plate"]` is read outside the transaction. */
  function Creation(t: Tables, body: Json): (Outcome, Tables) {
    match Index(body, "plate")
    case Fail(_) => (Escaped, t)
    case Ok(plate) =>
      match CreatedPlate(t, plate)
      case None => (RolledBack, t)
      case Some(after) => (Committed, after)
  }

  // ---------------------------------------------------------------- update_plate_purpose_in_sequencescape

  /** `t_assets.where(:id => id).update(:plate_purpose_id => purpose)` */
  function SetPurpose(assets: seq<Asset>, id: nat, purpose: int): (r: seq<Asset>)
    ensures |r| == |assets|
  {
    seq(|assets|, i requires 0 <= i < |assets| => if assets[i].id == id then assets[i].(platePurposeId := Some(purpose)) else assets[i])
  }

  /**
   * The transaction of update_plate_purpose_in_sequencescape: no uuid row
   * makes `.first[:resource_id]` raise, a row without a resource raises
   * PlateNotFoundInSequencescape, and otherwise the asset becomes a stock plate.
   */
  function Promotion(t: Tables, plateUuid: Json): (Outcome, Tables) {
    match ResourceIdFor(t.uuids, plateUuid)
    case None => (RolledBack, t)
    case Some(None) => (NotFound, t)
    case Some(Some(plateId)) => (Committed, t.(assets := SetPurpose(t.assets, plateId, StockPlatePurposeId)))
  }

  // ---------------------------------------------------------------- delete_unassigned_plates_in_sequencescape

  /** The rows the intended transaction body leaves once plate `plateId` with uuid `plateUuid` is deleted. */
  function DeletedPlate(t: Tables, plateId: nat, plateUuid: Json): Tables {
    var wells := WellIds(t, plateId);
    t.(assets := Filter(t.assets, KeepsAsset(wells, plateId)),
       associations := Filter(t.associations, KeepsAssociation(wells)),
       uuids := Filter(t.uuids, KeepsUuid(plateUuid)))
  }

  /** The assets deleting plate `plateId` with wells `wells` spares. */
  function KeepsAsset(wells: set<nat>, plateId: nat): Asset -> bool {
    (a: Asset) => a.id !in wells && a.id != plateId
  }

  /** The associations deleting wells `wells` spares. */
  function KeepsAssociation(wells: set<nat>): Association -> bool {
    (c: Association) => c.contentId !in wells
  }

  /** The uuid rows deleting uuid `plateUuid` spares. */
  function KeepsUuid(plateUuid: Json): UuidRow -> bool {
    (u: UuidRow) => u.externalId != plateUuid
  }

  /** One item's transaction: nothing for an unmapped uuid, the plate and everything hanging off it otherwise. */
  function DeleteMapped(t: Tables, plateUuid: Json): Tables {
    match MappedAsset(t.assets, t.uuids, plateUuid)
    case None => t
    case Some(plateId) => DeletedPlate(t, plateId, plateUuid)
  }

  /**
   * delete_unassigned_plates_in_sequencescape over `items` in order: an
   * item without a readable `uuid` raises outside the transactions and stops
   * the loop, keeping what the items before it deleted.
   */
  function Deletion(t: Tables, items: seq<(string, Json)>): (Outcome, Tables)
    decreases |items|
  {
    if items == [] then (Committed, t)
    else
      var (outcome, before) := Deletion(t, items[..|items| - 1]);
      if outcome == Escaped then (Escaped, before)
      else
        match Index(items[|items| - 1].1, "uuid")
        case Fail(_) => (Escaped, before)
        case Ok(plateUuid) => (Committed, DeleteMapped(before, plateUuid))
  }

  /**
   * The transaction body as written: for a mapped plate its first statement
   * names `container_associations`, which is not defined, and the NameError
   * rolls the transaction back.
   */
  function DeleteMappedAsWritten(t: Tables, plateUuid: Json): (Outcome, Tables) {
    match MappedAsset(t.assets, t.uuids, plateUuid)
    case None => (Committed, t)
    case Some(_) => (RolledBack, t)
  }

  // ---------------------------------------------------------------- what create_plate adds

  /** The well rows of `wells`, in order, with consecutive ids from `firstId` and the map of each location. */
  function WellAssets(firstId: nat, maps: seq<MapRow>, wells: seq<(string, Json)>, size: int): (r: seq<Asset>)
    ensures |r| == |wells|
  {
    seq(|wells|, j requires 0 <= j < |wells| => Asset(firstId + j, WellType, None, MapIdFor(maps, wells[j].0, size)))
  }

  /** The associations of `count` consecutive wells from `firstId` with plate `plateId`. */
  function WellAssociations(plateId: nat, firstId: nat, count: nat): (r: seq<Association>)
    ensures |r| == count
  {
    seq(count, j requires 0 <= j < count => Association(plateId, firstId + j))
  }

  lemma WellAssetsSnoc(firstId: nat, maps: seq<MapRow>, wells: seq<(string, Json)>, size: int)
    requires wells != []
    ensures WellAssets(firstId, maps, wells, size) ==
      WellAssets(firstId, maps, wells[..|wells| - 1], size) + [Asset(firstId + |wells| - 1, WellType, None, MapIdFor(maps, wells[|wells| - 1].0, size))]
  {
    var n := |wells| - 1;
    assert forall j :: 0 <= j < n ==> wells[..n][j] == wells[j];
  }

  lemma WellAssociationsSnoc(plateId: nat, firstId: nat, count: nat)
    requires count > 0
    ensures WellAssociations(plateId, firstId, count) ==
      WellAssociations(plateId, firstId, count - 1) + [Association(plateId, firstId + count - 1)]
  {
  }

  /** One turn of the wells loop: the turns before it succeeded, the last location has a map, and one well is added. */
  lemma AddWellsStep(t: Tables, plateId: nat, wells: seq<(string, Json)>, size: int, after: Tables)
    requires wells != [] && AddWells(t, plateId, wells, size) == Some(after)
    ensures AddWells(t, plateId, wells[..|wells| - 1], size).Some?
    ensures var before := AddWells(t, plateId, wells[..|wells| - 1], size).value;
      && MapIdFor(before.maps, wells[|wells| - 1].0, size).Some?
      && after == before.(assets := before.assets + [Asset(before.nextAssetId, WellType, None, MapIdFor(before.maps, wells[|wells| - 1].0, size))],
                          associations := before.associations + [Association(plateId, before.nextAssetId)],
                          nextAssetId := before.nextAssetId + 1)
  {
  }

  /** The closed form of the wells loop's rows carries over one more turn. */
  lemma WellRowsSnoc(t: Tables, plateId: nat, wells: seq<(string, Json)>, prefix: seq<(string, Json)>, size: int, before: Tables, after: Tables)
    requires wells != [] && prefix == wells[..|wells| - 1]
    requires before.maps == t.maps && before.uuids == t.uuids
    requires before.nextAssetId == t.nextAssetId + |wells| - 1
    requires before.assets == t.assets + WellAssets(t.nextAssetId, t.maps, prefix, size)
    requires before.associations == t.associations + WellAssociations(plateId, t.nextAssetId, |wells| - 1)
    requires forall j :: 0 <= j < |prefix| ==> MapIdFor(t.maps, prefix[j].0, size).Some?
    requires MapIdFor(before.maps, wells[|wells| - 1].0, size).Some?
    requires after == before.(assets := before.assets + [Asset(before.nextAssetId, WellType, None, MapIdFor(before.maps, wells[|wells| - 1].0, size))],
                              associations := before.associations + [Association(plateId, before.nextAssetId)],
                              nextAssetId := before.nextAssetId + 1)
    ensures after.maps == t.maps && after.uuids == t.uuids
    ensures after.nextAssetId == t.nextAssetId + |wells|
    ensures after.assets == t.assets + WellAssets(t.nextAssetId, t.maps, wells, size)
    ensures after.associations == t.associations + WellAssociations(plateId, t.nextAssetId, |wells|)
    ensures forall j :: 0 <= j < |wells| ==> MapIdFor(t.maps, wells[j].0, size).Some?
  {
    var n := |wells| - 1;
    WellAssetsSnoc(t.nextAssetId, t.maps, wells, size);
    WellAssociationsSnoc(plateId, t.nextAssetId, |wells|);
    var links := WellAssociations(plateId, t.nextAssetId, n);
    var link := Association(plateId, before.nextAssetId);
    assert (t.associations + links) + [link] == t.associations + (links + [link]);
    var rows := WellAssets(t.nextAssetId, t.maps, prefix, size);
    var well := Asset(before.nextAssetId, WellType, None, MapIdFor(t.maps, wells[n].0, size));
    assert (t.assets + rows) + [well] == t.assets + (rows + [well]);
    forall j | 0 <= j < |wells|
      ensures MapIdFor(t.maps, wells[j].0, size).Some?
    {
      if j < n {
        assert prefix[j] == wells[j];
      }
    }
  }

  /**
   * After the wells loop the tables hold the rows before it and, per
   * location in order, a well with the next id and the location's map, and
   * the association of that well with the plate; uuids and maps are untouched.
   */
  lemma {:induction false} AddWellsRows(t: Tables, plateId: nat, wells: seq<(string, Json)>, size: int, after: Tables)
    requires AddWells(t, plateId, wells, size) == Some(after)
    ensures after.maps == t.maps && after.uuids == t.uuids
    ensures after.nextAssetId == t.nextAssetId + |wells|
    ensures after.assets == t.assets + WellAssets(t.nextAssetId, t.maps, wells, size)
    ensures after.associations == t.associations + WellAssociations(plateId, t.nextAssetId, |wells|)
    ensures forall j :: 0 <= j < |wells| ==> MapIdFor(t.maps, wells[j].0, size).Some?
    decreases |wells|
  {
    if wells == [] {
      assert WellAssets(t.nextAssetId, t.maps, wells, size) == [];
      assert WellAssociations(plateId, t.nextAssetId, 0) == [];
    } else {
      AddWellsStep(t, plateId, wells, size, after);
      var before := AddWells(t, plateId, wells[..|wells| - 1], size).value;
      AddWellsRows(t, plateId, wells[..|wells| - 1], size, before);
      WellRowsSnoc(t, plateId, wells, wells[..|wells| - 1], size, before, after);
    }
  }

  /** The wells loop completes exactly when every location has a map for the plate's size. */
  lemma {:induction false} AddWellsSucceedsIff(t: Tables, plateId: nat, wells: seq<(string, Json)>, size: int)
    ensures AddWells(t, plateId, wells, size).Some? <==> forall j :: 0 <= j < |wells| ==> MapIdFor(t.maps, wells[j].0, size).Some?
    decreases |wells|
  {
    if wells != [] {
      var n := |wells| - 1;
      AddWellsSucceedsIff(t, plateId, wells[..n], size);
      assert forall j :: 0 <= j < n ==> wells[..n][j] == wells[j];
      if AddWells(t, plateId, wells[..n], size).Some? {
        AddWellsRows(t, plateId, wells[..n], size, AddWells(t, plateId, wells[..n], size).value);
      }
    }
  }

  /** The `wells` fields of a plate hash. */
  function WellsOf(plate: Json): seq<(string, Json)>
    requires Index(plate, "wells").Ok?
  {
    var wells := Index(plate, "wells").value;
    if wells.JObj? then wells.fields else []
  }

  /** `number_of_rows * number_of_columns`, where both are numbers. */
  function AssetSize(plate: Json): int
    requires Index(plate, "number_of_rows").Ok? && Index(plate, "number_of_columns").Ok?
  {
    var rows := Index(plate, "number_of_rows").value;
    var columns := Index(plate, "number_of_columns").value;
    if rows.JNum? && columns.JNum? then rows.n * columns.n else 0
  }

  /** The plate row create_plate inserts: an Unassigned plate. */
  function PlateAsset(plateId: nat): Asset {
    Asset(plateId, PlateType, Some(UnassignedPlatePurposeId), None)
  }

  /**
   * A committed creation adds exactly: one Unassigned plate with the next
   * id, one uuid row naming it by the payload's uuid, and for each location
   * in order a well with the map of that location at the plate's size and an
   * association of the well with the plate. Nothing else changes.
   */
  lemma CreatedPlateRows(t: Tables, plate: Json, after: Tables)
    requires CreatedPlate(t, plate) == Some(after)
    ensures Index(plate, "uuid").Ok? && Index(plate, "wells").Ok?
    ensures after.maps == t.maps
    ensures after.uuids == t.uuids + [UuidRow(AssetResourceType, Some(t.nextAssetId), Index(plate, "uuid").value)]
    ensures after.nextAssetId == t.nextAssetId + 1 + |WellsOf(plate)|
    ensures after.assets == t.assets + [PlateAsset(t.nextAssetId)] + WellAssets(t.nextAssetId + 1, t.maps, WellsOf(plate), AssetSize(plate))
    ensures after.associations == t.associations + WellAssociations(t.nextAssetId, t.nextAssetId + 1, |WellsOf(plate)|)
    ensures forall j :: 0 <= j < |WellsOf(plate)| ==> MapIdFor(t.maps, WellsOf(plate)[j].0, AssetSize(plate)).Some?
  {
    var plateId := t.nextAssetId;
    var t1 := InsertAsset(t, PlateType, Some(UnassignedPlatePurposeId), None);
    var t2 := t1.(uuids := t1.uuids + [UuidRow(AssetResourceType, Some(plateId), Index(plate, "uuid").value)]);
    AddWellsRows(t2, plateId, WellsOf(plate), AssetSize(plate), after);
  }

  /**
   * The creation commits exactly when the plate has a uuid to read, its row
   * and column counts are numbers, its wells are a hash, and every location
   * has a map for the plate's size.
   */
  lemma CreatedPlateSucceedsIff(t: Tables, plate: Json)
    ensures CreatedPlate(t, plate).Some? <==>
      && Index(plate, "uuid").Ok?
      && Index(plate, "number_of_rows").value.JNum? && Index(plate, "number_of_columns").value.JNum?
      && Index(plate, "wells").value.JObj?
      && forall j :: 0 <= j < |WellsOf(plate)| ==> MapIdFor(t.maps, WellsOf(plate)[j].0, AssetSize(plate)).Some?
  {
    if Index(plate, "uuid").Ok? {
      var plateId := t.nextAssetId;
      var t1 := InsertAsset(t, PlateType, Some(UnassignedPlatePurposeId), None);
      var t2 := t1.(uuids := t1.uuids + [UuidRow(AssetResourceType, Some(plateId), Index(plate, "uuid").value)]);
      AddWellsSucceedsIff(t2, plateId, WellsOf(plate), AssetSize(plate));
    }
  }

  /** Each well inserted for a plate that is already in the tables keeps every id below the auto-increment. */
  lemma {:induction false} AddWellsKeepsWellFormed(t: Tables, plateId: nat, wells: seq<(string, Json)>, size: int)
    requires WellFormed(t) && plateId < t.nextAssetId && AddWells(t, plateId, wells, size).Some?
    ensures WellFormed(AddWells(t, plateId, wells, size).value)
    ensures AddWells(t, plateId, wells, size).value.nextAssetId >= t.nextAssetId
    decreases |wells|
  {
    if wells != [] {
      AddWellsKeepsWellFormed(t, plateId, wells[..|wells| - 1], size);
    }
  }

  /** A creation keeps every id below the auto-increment. */
  lemma CreationKeepsWellFormed(t: Tables, body: Json)
    requires WellFormed(t)
    ensures WellFormed(Creation(t, body).1)
  {
    if Creation(t, body).0 == Committed {
      var plate := Index(body, "plate").value;
      var plateId := t.nextAssetId;
      var t1 := InsertAsset(t, PlateType, Some(UnassignedPlatePurposeId), None);
      var t2 := t1.(uuids := t1.uuids + [UuidRow(AssetResourceType, Some(plateId), Index(plate, "uuid").value)]);
      assert WellFormed(t2);
      AddWellsKeepsWellFormed(t2, plateId, WellsOf(plate), AssetSize(plate));
    }
  }

  // ---------------------------------------------------------------- what update_plate_purpose changes

  /**
   * A committed promotion makes every asset with the uuid's resource id a
   * stock plate and changes nothing else; any other outcome changes nothing.
   */
  lemma PromotionChangesOnlyThePurpose(t: Tables, plateUuid: Json)
    ensures var (outcome, after) := Promotion(t, plateUuid);
      && (outcome == Committed <==> ResourceIdFor(t.uuids, plateUuid).Some? && ResourceIdFor(t.uuids, plateUuid).value.Some?)
      && (outcome != Committed ==> after == t)
      && after.uuids == t.uuids && after.associations == t.associations && after.maps == t.maps
      && after.nextAssetId == t.nextAssetId && |after.assets| == |t.assets|
      && forall i :: 0 <= i < |t.assets| ==>
        && after.assets[i].id == t.assets[i].id
        && (if outcome == Committed && t.assets[i].id == ResourceIdFor(t.uuids, plateUuid).value.value
            then after.assets[i] == t.assets[i].(platePurposeId := Some(StockPlatePurposeId))
            else after.assets[i] == t.assets[i])
  {
  }

  /** A promotion changes no mapping from uuids to assets. */
  lemma PromotionKeepsMappings(t: Tables, plateUuid: Json, uuid: Json)
    ensures Mapped(Promotion(t, plateUuid).1, uuid) <==> Mapped(t, uuid)
  {
    PromotionChangesOnlyThePurpose(t, plateUuid);
    var after := Promotion(t, plateUuid).1;
    if Mapped(after, uuid) {
      var i :| 0 <= i < |after.assets| && HasUuid(after.uuids, after.assets[i].id, uuid);
      assert HasUuid(t.uuids, t.assets[i].id, uuid);
    }
    if Mapped(t, uuid) {
      var i :| 0 <= i < |t.assets| && HasUuid(t.uuids, t.assets[i].id, uuid);
      assert HasUuid(after.uuids, after.assets[i].id, uuid);
    }
  }

  /** Promoting twice is promoting once: same outcome, same tables. */
  lemma PromotionIdempotent(t: Tables, plateUuid: Json)
    ensures Promotion(Promotion(t, plateUuid).1, plateUuid) == Promotion(t, plateUuid)
  {
    var (outcome, after) := Promotion(t, plateUuid);
    if outcome == Committed {
      var plateId := ResourceIdFor(t.uuids, plateUuid).value.value;
      assert SetPurpose(after.assets, plateId, StockPlatePurposeId) == after.assets;
    }
  }

  /** A uuid no row carries rolls the promotion back: nothing changes. */
  lemma PromotionOfUnknownUuid(t: Tables, plateUuid: Json)
    requires forall i :: 0 <= i < |t.uuids| ==> t.uuids[i].externalId != plateUuid
    ensures Promotion(t, plateUuid) == (RolledBack, t)
  {
  }

  /** A promotion keeps every id below the auto-increment. */
  lemma PromotionKeepsWellFormed(t: Tables, plateUuid: Json)
    requires WellFormed(t)
    ensures WellFormed(Promotion(t, plateUuid).1)
  {
  }

  /** A plate just created under a new uuid is found by that uuid and promoted to a stock plate. */
  lemma PromotionAfterCreation(t: Tables, plate: Json, after: Tables)
    requires CreatedPlate(t, plate) == Some(after)
    requires forall i :: 0 <= i < |t.uuids| ==> t.uuids[i].externalId != Index(plate, "uuid").value
    ensures var (outcome, promoted) := Promotion(after, Index(plate, "uuid").value);
      && outcome == Committed
      && |promoted.assets| > |t.assets|
      && promoted.assets[|t.assets|] == Asset(t.nextAssetId, PlateType, Some(StockPlatePurposeId), None)
  {
    var uuid := Index(plate, "uuid").value;
    CreatedPlateRows(t, plate, after);
    ResourceIdOfLast(t.uuids, UuidRow(AssetResourceType, Some(t.nextAssetId), uuid));
  }

  /** A uuid that only the last row carries gives that row's resource id. */
  lemma {:induction false} ResourceIdOfLast(uuids: seq<UuidRow>, row: UuidRow)
    requires forall i :: 0 <= i < |uuids| ==> uuids[i].externalId != row.externalId
    ensures ResourceIdFor(uuids + [row], row.externalId) == Some(row.resourceId)
    decreases |uuids|
  {
    if uuids != [] {
      assert (uuids + [row])[1..] == uuids[1..] + [row];
      ResourceIdOfLast(uuids[1..], row);
    }
  }

  // ---------------------------------------------------------------- what delete_unassigned_plates removes

  /**
   * Deleting a plate removes the plate, its wells, their associations and
   * every row of its uuid, keeps every other row, and leaves the uuid naming
   * no asset.
   */
  lemma DeletedPlateRows(t: Tables, plateId: nat, plateUuid: Json)
    ensures var after := DeletedPlate(t, plateId, plateUuid);
      var wells := WellIds(t, plateId);
      && after.maps == t.maps && after.nextAssetId == t.nextAssetId
      && (forall a :: a in after.assets <==> a in t.assets && a.id != plateId && a.id !in wells)
      && (forall c :: c in after.associations <==> c in t.associations && c.contentId !in wells)
      && (forall r :: r in after.uuids <==> r in t.uuids && r.externalId != plateUuid)
      && !Mapped(after, plateUuid)
  {
    var after := DeletedPlate(t, plateId, plateUuid);
    if Mapped(after, plateUuid) {
      var k :| 0 <= k < |after.uuids| && after.uuids[k].resourceId == Some(MappedAsset(after.assets, after.uuids, plateUuid).value) && after.uuids[k].externalId == plateUuid;
      assert after.uuids[k] in after.uuids;
    }
  }

  /** After one item's transaction its uuid names no asset, whether it named one before or not. */
  lemma DeleteMappedForgetsUuid(t: Tables, plateUuid: Json)
    ensures !Mapped(DeleteMapped(t, plateUuid), plateUuid)
  {
    if Mapped(t, plateUuid) {
      DeletedPlateRows(t, MappedAsset(t.assets, t.uuids, plateUuid).value, plateUuid);
    }
  }

  /** An item's transaction never makes a uuid name an asset it did not name before. */
  lemma DeleteMappedAddsNoMapping(t: Tables, plateUuid: Json, other: Json)
    requires Mapped(DeleteMapped(t, plateUuid), other)
    ensures Mapped(t, other)
  {
    if Mapped(t, plateUuid) {
      var plateId := MappedAsset(t.assets, t.uuids, plateUuid).value;
      var wells := WellIds(t, plateId);
      var assets := Filter(t.assets, KeepsAsset(wells, plateId));
      var uuids := Filter(t.uuids, KeepsUuid(plateUuid));
      var id := MappedAsset(assets, uuids, other).value;
      var i :| 0 <= i < |assets| && HasUuid(uuids, assets[i].id, other);
      var k :| 0 <= k < |uuids| && uuids[k].resourceId == Some(assets[i].id) && uuids[k].externalId == other;
      assert assets[i] in t.assets && uuids[k] in t.uuids;
      var i' :| 0 <= i' < |t.assets| && t.assets[i'] == assets[i];
      var k' :| 0 <= k' < |t.uuids| && t.uuids[k'] == uuids[k];
      assert HasUuid(t.uuids, t.assets[i'].id, other);
    }
  }


  /** A uuid that names no asset is deleted without touching any row. */
  lemma DeleteMappedOfUnknownUuid(t: Tables, plateUuid: Json)
    requires !Mapped(t, plateUuid)
    ensures DeleteMapped(t, plateUuid) == t
  {
  }

  /**
   * The deletion loop stops, keeping what it deleted so far, exactly when an
   * item has no readable `uuid`; otherwise it commits every item.
   */
  lemma {:induction false} DeletionEscapesIff(t: Tables, items: seq<(string, Json)>)
    ensures Deletion(t, items).0 == Committed || Deletion(t, items).0 == Escaped
    ensures Deletion(t, items).0 == Escaped <==> exists k :: 0 <= k < |items| && Index(items[k].1, "uuid").Fail?
    decreases |items|
  {
    if items != [] {
      var n := |items| - 1;
      DeletionEscapesIff(t, items[..n]);
      assert forall k :: 0 <= k < n ==> items[..n][k] == items[k];
    }
  }

  /** Once the loop has run through every item, none of their uuids names an asset. */
  lemma {:induction false} DeletionUnmapsEveryItem(t: Tables, items: seq<(string, Json)>)
    requires Deletion(t, items).0 == Committed
    ensures forall k :: 0 <= k < |items| ==>
      Index(items[k].1, "uuid").Ok? && !Mapped(Deletion(t, items).1, Index(items[k].1, "uuid").value)
    decreases |items|
  {
    if items != [] {
      var n := |items| - 1;
      var before := Deletion(t, items[..n]).1;
      DeletionUnmapsEveryItem(t, items[..n]);
      var last := Index(items[n].1, "uuid").value;
      DeleteMappedForgetsUuid(before, last);
      forall k | 0 <= k < n
        ensures Index(items[k].1, "uuid").Ok? && !Mapped(DeleteMapped(before, last), Index(items[k].1, "uuid").value)
      {
        assert items[..n][k] == items[k];
        if Mapped(DeleteMapped(before, last), Index(items[k].1, "uuid").value) {
          DeleteMappedAddsNoMapping(before, last, Index(items[k].1, "uuid").value);
        }
      }
    }
  }

  /** Deleting keeps every id below the auto-increment. */
  lemma {:induction false} DeletionKeepsWellFormed(t: Tables, items: seq<(string, Json)>)
    requires WellFormed(t)
    ensures WellFormed(Deletion(t, items).1)
    decreases |items|
  {
    if items != [] {
      var n := |items| - 1;
      DeletionKeepsWellFormed(t, items[..n]);
      var before := Deletion(t, items[..n]).1;
      match Index(items[n].1, "uuid")
      case Fail(_) =>
      case Ok(plateUuid) =>
        if Mapped(before, plateUuid) {
          var plateId := MappedAsset(before.assets, before.uuids, plateUuid).value;
          DeletedPlateRows(before, plateId, plateUuid);
          var after := DeletedPlate(before, plateId, plateUuid);
          forall i | 0 <= i < |after.assets|
            ensures after.assets[i].id < after.nextAssetId
          {
            assert after.assets[i] in before.assets;
          }
          forall i | 0 <= i < |after.associations|
            ensures after.associations[i].containerId < after.nextAssetId && after.associations[i].contentId < after.nextAssetId
          {
            assert after.associations[i] in before.associations;
          }
          forall i | 0 <= i < |after.uuids| && after.uuids[i].resourceId.Some?
            ensures after.uuids[i].resourceId.value < after.nextAssetId
          {
            assert after.uuids[i] in before.uuids;
          }
        }
    }
  }

  // ---------------------------------------------------------------- deleting a plate undoes creating it

  /** The first asset the uuid names is the first, in table order, that some uuid row gives it. */
  lemma {:induction false} MappedAssetFirst(assets: seq<Asset>, uuids: seq<UuidRow>, uuid: Json, i: nat)
    requires i < |assets| && HasUuid(uuids, assets[i].id, uuid)
    requires forall j :: 0 <= j < i ==> !HasUuid(uuids, assets[j].id, uuid)
    ensures MappedAsset(assets, uuids, uuid) == Some(assets[i].id)
    decreases i
  {
    if i > 0 {
      assert assets[1..][i - 1] == assets[i];
      assert forall j :: 0 <= j < i - 1 ==> assets[1..][j] == assets[j + 1];
      MappedAssetFirst(assets[1..], uuids, uuid, i - 1);
    }
  }

  /**
   * In tables that gained, above everything they named, one plate followed by
   * wells with the next ids and one association per well, the plate's wells
   * are exactly the new ones: all above the plate's id, and each of them.
   */
  lemma NewWellIds(t: Tables, after: Tables, wells: seq<Asset>)
    requires forall i :: 0 <= i < |t.assets| ==> t.assets[i].id < t.nextAssetId
    requires forall i :: 0 <= i < |t.associations| ==> t.associations[i].containerId < t.nextAssetId && t.associations[i].contentId < t.nextAssetId
    requires after.assets == t.assets + [PlateAsset(t.nextAssetId)] + wells
    requires after.associations == t.associations + WellAssociations(t.nextAssetId, t.nextAssetId + 1, |wells|)
    requires forall j :: 0 <= j < |wells| ==> wells[j].id == t.nextAssetId + 1 + j
    ensures forall id :: id in WellIds(after, t.nextAssetId) ==> id > t.nextAssetId
    ensures forall c :: c in after.associations && c.containerId == t.nextAssetId ==> c.contentId in WellIds(after, t.nextAssetId)
  {
    var plateId := t.nextAssetId;
    var m := |t.associations|;
    var n := |t.assets|;
    var links := WellAssociations(plateId, plateId + 1, |wells|);
    forall id | id in WellIds(after, plateId)
      ensures id > plateId
    {
      var i :| 0 <= i < |after.associations| && after.associations[i].containerId == plateId && after.associations[i].contentId == id;
      if i >= m {
        assert after.associations[i] == links[i - m];
      }
    }
    forall c | c in after.associations && c.containerId == plateId
      ensures c.contentId in WellIds(after, plateId)
    {
      var i :| 0 <= i < |after.associations| && after.associations[i] == c;
      if i >= m {
        var j := i - m;
        assert c == links[j];
        assert after.assets[n + 1 + j] == wells[j];
        assert IsAssetId(after.assets, c.contentId);
      }
    }
  }

  /** The new plate is the first asset its uuid names. */
  lemma CreatedPlateIsMapped(t: Tables, plate: Json, after: Tables)
    requires WellFormed(t) && CreatedPlate(t, plate) == Some(after)
    requires forall i :: 0 <= i < |t.uuids| ==> t.uuids[i].externalId != Index(plate, "uuid").value
    ensures MappedAsset(after.assets, after.uuids, Index(plate, "uuid").value) == Some(t.nextAssetId)
  {
    var uuid := Index(plate, "uuid").value;
    var n := |t.assets|;
    CreatedPlateRows(t, plate, after);
    var last := |t.uuids|;
    assert after.uuids[last] == UuidRow(AssetResourceType, Some(t.nextAssetId), uuid);
    assert forall k :: 0 <= k < |after.uuids| && after.uuids[k].externalId == uuid ==> after.uuids[k].resourceId == Some(t.nextAssetId);
    forall j | 0 <= j < n
      ensures !HasUuid(after.uuids, after.assets[j].id, uuid)
    {
      assert after.assets[j] == t.assets[j];
    }
    assert after.assets[n] == PlateAsset(t.nextAssetId);
    MappedAssetFirst(after.assets, after.uuids, uuid, n);
  }

  /** The assets a deletion of the new plate spares are the ones from before. */
  lemma KeptAssetsOfNew(assets: seq<Asset>, plateId: nat, wells: seq<Asset>, ids: set<nat>, all: seq<Asset>)
    requires forall i :: 0 <= i < |assets| ==> assets[i].id < plateId
    requires forall id :: id in ids ==> id > plateId
    requires forall j :: 0 <= j < |wells| ==> wells[j].id in ids
    requires all == assets + [PlateAsset(plateId)] + wells
    ensures Filter(all, KeepsAsset(ids, plateId)) == assets
  {
    var keep := KeepsAsset(ids, plateId);
    forall i | 0 <= i < |assets|
      ensures keep(assets[i])
    {
      assert assets[i].id < plateId;
    }
    FilterKeepsThenDrops(assets, [PlateAsset(plateId)], keep);
    FilterAppend(assets + [PlateAsset(plateId)], wells, keep);
    FilterDropsAll(wells, keep);
    assert assets + [] == assets;
  }


  /** The associations a deletion of the new plate's wells spares are the ones from before. */
  lemma KeptAssociationsOfNew(associations: seq<Association>, plateId: nat, links: seq<Association>, ids: set<nat>, all: seq<Association>)
    requires forall i :: 0 <= i < |associations| ==> associations[i].contentId < plateId
    requires forall id :: id in ids ==> id > plateId
    requires forall j :: 0 <= j < |links| ==> links[j].contentId in ids
    requires all == associations + links
    ensures Filter(all, KeepsAssociation(ids)) == associations
  {
    var keep := KeepsAssociation(ids);
    forall i | 0 <= i < |associations|
      ensures keep(associations[i])
    {
      assert associations[i].contentId < plateId;
    }
    FilterKeepsThenDrops(associations, links, keep);
  }


  /** The uuid rows a deletion of a fresh uuid spares are the ones from before. */
  lemma KeptUuidsOfNew(uuids: seq<UuidRow>, row: UuidRow, all: seq<UuidRow>)
    requires forall i :: 0 <= i < |uuids| ==> uuids[i].externalId != row.externalId
    requires all == uuids + [row]
    ensures Filter(all, KeepsUuid(row.externalId)) == uuids
  {
    FilterAppend(uuids, [row], KeepsUuid(row.externalId));
    FilterKeepsAll(uuids, KeepsUuid(row.externalId));
  }

  /** A deletion's result, field by field. */
  lemma DeletedPlateFields(t: Tables, plateId: nat, plateUuid: Json, expected: Tables)
    requires Filter(t.assets, KeepsAsset(WellIds(t, plateId), plateId)) == expected.assets
    requires Filter(t.associations, KeepsAssociation(WellIds(t, plateId))) == expected.associations
    requires Filter(t.uuids, KeepsUuid(plateUuid)) == expected.uuids
    requires t.maps == expected.maps && t.nextAssetId == expected.nextAssetId
    ensures DeletedPlate(t, plateId, plateUuid) == expected
  {
  }

  /**
   * Deleting plate `t.nextAssetId` from tables that gained just that plate,
   * its uuid row under a uuid no row carried, its wells and their
   * associations, gives back the tables from before.
   */
  lemma DeletedPlateOfNew(t: Tables, after: Tables, wells: seq<Asset>, uuid: Json)
    requires forall i :: 0 <= i < |t.assets| ==> t.assets[i].id < t.nextAssetId
    requires forall i :: 0 <= i < |t.associations| ==> t.associations[i].containerId < t.nextAssetId && t.associations[i].contentId < t.nextAssetId
    requires after.maps == t.maps
    requires after.assets == t.assets + [PlateAsset(t.nextAssetId)] + wells
    requires after.associations == t.associations + WellAssociations(t.nextAssetId, t.nextAssetId + 1, |wells|)
    requires after.uuids == t.uuids + [UuidRow(AssetResourceType, Some(t.nextAssetId), uuid)]
    requires forall j :: 0 <= j < |wells| ==> wells[j].id == t.nextAssetId + 1 + j
    requires forall i :: 0 <= i < |t.uuids| ==> t.uuids[i].externalId != uuid
    ensures DeletedPlate(after, t.nextAssetId, uuid) == t.(nextAssetId := after.nextAssetId)
  {
    var plateId := t.nextAssetId;
    NewWellIds(t, after, wells);
    var ids := WellIds(after, plateId);
    var links := WellAssociations(plateId, plateId + 1, |wells|);
    forall j | 0 <= j < |links|
      ensures links[j].contentId in ids && wells[j].id in ids
    {
      assert links[j] in after.associations;
    }
    KeptAssetsOfNew(t.assets, plateId, wells, ids, after.assets);
    KeptAssociationsOfNew(t.associations, plateId, links, ids, after.associations);
    KeptUuidsOfNew(t.uuids, UuidRow(AssetResourceType, Some(plateId), uuid), after.uuids);
    DeletedPlateFields(after, plateId, uuid, t.(nextAssetId := after.nextAssetId));
  }

  /**
   * Deleting, through its uuid, a plate that was just created under a uuid no
   * row carried gives back the tables from before the creation (only the
   * auto-increment stays advanced).
   */
  lemma DeletionUndoesCreation(t: Tables, plate: Json, after: Tables)
    requires WellFormed(t) && CreatedPlate(t, plate) == Some(after)
    requires forall i :: 0 <= i < |t.uuids| ==> t.uuids[i].externalId != Index(plate, "uuid").value
    ensures DeleteMapped(after, Index(plate, "uuid").value) == t.(nextAssetId := after.nextAssetId)
  {
    CreatedPlateRows(t, plate, after);
    CreatedPlateIsMapped(t, plate, after);
    DeletedPlateOfNew(t, after, WellAssets(t.nextAssetId + 1, t.maps, WellsOf(plate), AssetSize(plate)), Index(plate, "uuid").value);
  }

  /**
   * As written, deleting a plate just created under a fresh uuid rolls back
   * and leaves the plate, still named by its uuid, in place: the tables are
   * those right after the creation, not those before it.
   */
  lemma AsWrittenKeepsCreatedPlate(t: Tables, plate: Json, after: Tables)
    requires WellFormed(t) && CreatedPlate(t, plate) == Some(after)
    requires forall i :: 0 <= i < |t.uuids| ==> t.uuids[i].externalId != Index(plate, "uuid").value
    ensures DeleteMappedAsWritten(after, Index(plate, "uuid").value) == (RolledBack, after)
    ensures Mapped(after, Index(plate, "uuid").value)
    ensures after != t.(nextAssetId := after.nextAssetId)
  {
    CreatedPlateIsMapped(t, plate, after);
    CreatedPlateRows(t, plate, after);
    assert |after.uuids| == |t.uuids| + 1;
  }
}
