/**
 * The SequencescapePlateCreator consumer: plate creation messages create an
 * Unassigned plate in the Sequencescape tables, order messages delete the
 * plates of their non-stock items and promote their stock plate once it is
 * done, and the handler's answer to the broker follows how the store
 * operation ended. The tables are the fields of a `PlateCreator` object whose
 * methods change them as the Ruby methods change the database; each method is
 * proved to end in the state the functions of SequencescapeTables describe.
 */
module SequencescapePlateCreator {
  import opened Wrappers
  import opened Text
  import opened Json
  import opened Broker
  import opened SequencescapeTables
  import JsonDecoder

  const StockPlateRole: string := "WGS Stock Plate"
  const ItemDoneStatus: string := "done"

  /** The three handlers set_queue can hand a message to. */
  datatype Handler = PlateHandler | OrderHandler | PlateTransferHandler

  // ---------------------------------------------------------------- routing

  /** The branch of set_queue taken for a routing key: the first pattern that matches wins. */
  function Route(key: string): Option<Handler> {
    if Contains(key, "plate.create") then Some(PlateHandler)
    else if Contains(key, "order.create") || Contains(key, "updateorder") then Some(OrderHandler)
    else if Contains(key, "platetransfer") then Some(PlateTransferHandler)
    else None
  }

  /** Plate creations go to the plate handler, whatever the two leading words. */
  lemma PlateCreateKeysRoute(prefix: string)
    ensures Route(prefix + ".plate.create") == Some(PlateHandler)
  {
    assert OccursAt(".plate.create", "plate.create", 1);
    ContainsInSuffix(prefix, ".plate.create", "plate.create");
  }

  /** A character in neither part of a key is not in the key. */
  lemma MissingFromBoth(a: string, b: string, c: char)
    requires c !in a && c !in b
    ensures c !in a + b
  {
  }

  /** The two trailing words of an order-creation key hold no `p` and name an order creation. */
  lemma OrderCreateWords()
    ensures 'p' !in ".order.create"
    ensures OccursAt(".order.create", "order.create", 1)
  {
  }

  /** Order creations go to the order handler exactly when the key does not also name a plate creation, as when the two leading words hold no `p`. */
  lemma OrderCreateKeysRoute(prefix: string)
    ensures Route(prefix + ".order.create") == Some(OrderHandler) <==> !Contains(prefix + ".order.create", "plate.create")
    ensures 'p' !in prefix ==> Route(prefix + ".order.create") == Some(OrderHandler)
  {
    var words := ".order.create";
    OrderCreateWords();
    ContainsInSuffix(prefix, words, "order.create");
    if 'p' !in prefix {
      MissingFromBoth(prefix, words, 'p');
      MissingCharRulesOut(prefix + words, "plate.create", 'p');
    }
  }

  /** The two trailing words of an order-update key hold no `l` and name an order update. */
  lemma UpdateOrderWords()
    ensures 'l' !in ".order.updateorder"
    ensures OccursAt(".order.updateorder", "updateorder", 7)
  {
  }

  /** Order updates go to the order handler exactly when the key does not also name a plate creation, as when the two leading words hold no `l`. */
  lemma UpdateOrderKeysRoute(prefix: string)
    ensures Route(prefix + ".order.updateorder") == Some(OrderHandler) <==> !Contains(prefix + ".order.updateorder", "plate.create")
    ensures 'l' !in prefix ==> Route(prefix + ".order.updateorder") == Some(OrderHandler)
  {
    var words := ".order.updateorder";
    UpdateOrderWords();
    ContainsInSuffix(prefix, words, "updateorder");
    if 'l' !in prefix {
      MissingFromBoth(prefix, words, 'l');
      MissingCharRulesOut(prefix + words, "plate.create", 'l');
    }
  }

  /** Each half of a plate-transfer key is `.platetransfer`, which holds no `c` and no `u`. */
  lemma TransferWord()
    ensures 'c' !in ".platetransfer" && 'u' !in ".platetransfer"
    ensures OccursAt(".platetransfer", "platetransfer", 1)
  {
  }

  /** A key without `c` and `u` matches neither creation pattern nor `updateorder`. */
  lemma NoCreationOrUpdate(key: string)
    requires 'c' !in key && 'u' !in key
    ensures !Contains(key, "plate.create") && !Contains(key, "order.create") && !Contains(key, "updateorder")
  {
    MissingCharRulesOut(key, "plate.create", 'c');
    MissingCharRulesOut(key, "order.create", 'c');
    MissingCharRulesOut(key, "updateorder", 'u');
  }

  /** A transfer key whose leading words lack `c` and `u` lacks them too, and names a transfer. */
  lemma TransferKey(prefix: string)
    requires 'c' !in prefix && 'u' !in prefix
    ensures 'c' !in prefix + ".platetransfer" + ".platetransfer"
    ensures 'u' !in prefix + ".platetransfer" + ".platetransfer"
    ensures Contains(prefix + ".platetransfer" + ".platetransfer", "platetransfer")
  {
    var half := ".platetransfer";
    TransferWord();
    MissingFromBoth(prefix, half, 'c');
    MissingFromBoth(prefix + half, half, 'c');
    MissingFromBoth(prefix, half, 'u');
    MissingFromBoth(prefix + half, half, 'u');
    ContainsInSuffix(prefix + half, half, "platetransfer");
  }

  /** Plate transfers go to the transfer handler when the two leading words hold no `c` and no `u`. */
  lemma PlateTransferKeysRoute(prefix: string)
    requires 'c' !in prefix && 'u' !in prefix
    ensures Route(prefix + ".platetransfer" + ".platetransfer") == Some(PlateTransferHandler)
  {
    TransferKey(prefix);
    NoCreationOrUpdate(prefix + ".platetransfer" + ".platetransfer");
  }

  /** A key that matches none of the four patterns reaches no handler. */
  lemma RouteNone(key: string)
    ensures Route(key) == None <==>
      !Contains(key, "plate.create") && !Contains(key, "order.create") && !Contains(key, "updateorder") && !Contains(key, "platetransfer")
  {
  }

  // ---------------------------------------------------------------- plate_message_handler

  /** The plate handler acks a committed creation and requeues a rolled back one; anything else escapes. */
  function PlateReply(outcome: Outcome): Reply {
    match outcome
    case Committed => Ack
    case RolledBack => RejectRequeue
    case NotFound => Raised
    case Escaped => Raised
  }

  // ---------------------------------------------------------------- order_message_handler

  /** `keep_if { |k, v| k != STOCK_PLATE }` */
  function NotStock(): ((string, Json)) -> bool {
    (item: (string, Json)) => item.0 != StockPlateRole
  }

  /** The items of an order handed to the deletion: every one whose role is not the stock plate's, in order. */
  function OtherItems(items: seq<(string, Json)>): (r: seq<(string, Json)>)
    ensures forall item :: item in r <==> item in items && item.0 != StockPlateRole
  {
    Filter(items, NotStock())
  }

  /**
   * order_message_handler on the tables: the order's items are read outside
   * any transaction (a body that cannot be navigated raises), the non-stock
   * plates are deleted, and a stock plate whose status is `done` is promoted;
   * the promotion's outcome decides between ack and requeue.
   */
  function OrderHandling(t: Tables, body: Json): (Reply, Tables) {
    match Index(body, "order")
    case Fail(_) => (Raised, t)
    case Ok(order) =>
      match Index(order, "items")
      case Fail(_) => (Raised, t)
      case Ok(items) =>
        match Index(items, StockPlateRole)
        case Fail(_) => (Raised, t)
        case Ok(stock) =>
          if !items.JObj? then (Raised, t)
          else
            var (deleted, afterDeletion) := Deletion(t, OtherItems(items.fields));
            if deleted == Escaped then (Raised, afterDeletion)
            else if !Truthy(stock) then (Ack, afterDeletion)
            else
              match Index(stock, "status")
              case Fail(_) => (Raised, afterDeletion)
              case Ok(status) =>
                if status != JStr(ItemDoneStatus) then (Ack, afterDeletion)
                else
                  match Index(stock, "uuid")
                  case Fail(_) => (Raised, afterDeletion)
                  case Ok(plateUuid) =>
                    var (promoted, after) := Promotion(afterDeletion, plateUuid);
                    (if promoted == Committed then Ack else RejectRequeue, after)
  }

  /** The order's items and its stock item, when the body can be navigated that far. */
  predicate OrderShape(body: Json, items: seq<(string, Json)>, stock: Json) {
    && Index(body, "order").Ok?
    && Index(Index(body, "order").value, "items") == Ok(JObj(items))
    && stock == Lookup(items, StockPlateRole)
  }

  /** The stock item is done, and promoting it is attempted under `plateUuid`. */
  predicate DoneUnder(stock: Json, plateUuid: Json) {
    && Truthy(stock)
    && Index(stock, "status") == Ok(JStr(ItemDoneStatus))
    && Index(stock, "uuid") == Ok(plateUuid)
  }

  /**
   * An order with its items in place: the plates of the other roles are
   * deleted first; without a stock item, or with one whose status is not
   * `done`, the handler acks; with a done one it acks exactly when the
   * promotion commits and requeues otherwise, keeping the deletions but
   * nothing of the promotion that failed.
   */
  lemma OrderDecision(t: Tables, body: Json, items: seq<(string, Json)>, stock: Json)
    requires OrderShape(body, items, stock)
    requires Deletion(t, OtherItems(items)).0 == Committed
    ensures var afterDeletion := Deletion(t, OtherItems(items)).1;
      var (reply, after) := OrderHandling(t, body);
      && (!Truthy(stock) ==> reply == Ack && after == afterDeletion)
      && (Truthy(stock) && Index(stock, "status").Ok? && Index(stock, "status").value != JStr(ItemDoneStatus) ==>
            reply == Ack && after == afterDeletion)
      && (forall plateUuid :: DoneUnder(stock, plateUuid) ==>
            && (reply == Ack <==> Promotion(afterDeletion, plateUuid).0 == Committed)
            && (reply == RejectRequeue <==> Promotion(afterDeletion, plateUuid).0 != Committed)
            && (reply == RejectRequeue ==> after == afterDeletion)
            && after == Promotion(afterDeletion, plateUuid).1)
  {
    forall plateUuid | DoneUnder(stock, plateUuid)
      ensures var afterDeletion := Deletion(t, OtherItems(items)).1;
        var (reply, after) := OrderHandling(t, body);
        && (reply == Ack <==> Promotion(afterDeletion, plateUuid).0 == Committed)
        && (reply == RejectRequeue <==> Promotion(afterDeletion, plateUuid).0 != Committed)
        && (reply == RejectRequeue ==> after == afterDeletion)
        && after == Promotion(afterDeletion, plateUuid).1
    {
      PromotionChangesOnlyThePurpose(Deletion(t, OtherItems(items)).1, plateUuid);
    }
  }

  /** The handler only requeues for a done stock item whose promotion did not commit. */
  lemma OrderRequeueMeansPromotionFailed(t: Tables, body: Json)
    requires OrderHandling(t, body).0 == RejectRequeue
    ensures exists items, stock, plateUuid ::
      (OrderShape(body, items, stock) && DoneUnder(stock, plateUuid)
       && Promotion(Deletion(t, OtherItems(items)).1, plateUuid).0 != Committed)
  {
    var items := Index(Index(body, "order").value, "items").value.fields;
    var stock := Lookup(items, StockPlateRole);
    var plateUuid := Index(stock, "uuid").value;
    assert OrderShape(body, items, stock) && DoneUnder(stock, plateUuid);
  }

  /** The stock plate is never among the deleted items, and every other item is. */
  lemma StockRoleIsNeverDeleted(items: seq<(string, Json)>, item: (string, Json))
    requires item in items
    ensures item in OtherItems(items) <==> item.0 != StockPlateRole
  {
  }

  /**
   * The deletion goes by role alone: once an acked or requeued order has run,
   * the uuid of every item under another role names no asset, whatever the
   * purpose of the plate it named, a stock plate promoted by an earlier order
   * included.
   */
  lemma OtherRoleIsDeletedWhateverItsPurpose(t: Tables, body: Json, items: seq<(string, Json)>, stock: Json, k: nat)
    requires OrderShape(body, items, stock)
    requires Deletion(t, OtherItems(items)).0 == Committed
    requires k < |items| && items[k].0 != StockPlateRole
    ensures Index(items[k].1, "uuid").Ok?
    ensures !Mapped(OrderHandling(t, body).1, Index(items[k].1, "uuid").value)
  {
    var others := OtherItems(items);
    assert items[k] in others;
    DeletionUnmapsEveryItem(t, others);
    OrderKeepsDeletionMappings(t, body, items, stock, Index(items[k].1, "uuid").value);
  }

  /** After the deletions, the promotion of an order maps no uuid anew and unmaps none. */
  lemma OrderKeepsDeletionMappings(t: Tables, body: Json, items: seq<(string, Json)>, stock: Json, uuid: Json)
    requires OrderShape(body, items, stock)
    requires Deletion(t, OtherItems(items)).0 == Committed
    ensures Mapped(OrderHandling(t, body).1, uuid) <==> Mapped(Deletion(t, OtherItems(items)).1, uuid)
  {
    if Truthy(stock) && Index(stock, "status") == Ok(JStr(ItemDoneStatus)) && Index(stock, "uuid").Ok? {
      PromotionKeepsMappings(Deletion(t, OtherItems(items)).1, Index(stock, "uuid").value, uuid);
    }
  }

  /** A deletion only ever removes uuid rows. */
  lemma {:induction false} DeletionAddsNoUuidRow(t: Tables, items: seq<(string, Json)>)
    ensures forall r :: r in Deletion(t, items).1.uuids ==> r in t.uuids
    decreases |items|
  {
    if items != [] {
      DeletionAddsNoUuidRow(t, items[..|items| - 1]);
    }
  }

  /**
   * An order whose done stock plate has not been created yet (no uuid row
   * carries its uuid) is requeued, waiting for the plate creation message;
   * the deletions of the other items are kept.
   */
  lemma OrderBeforePlateIsRequeued(t: Tables, body: Json, items: seq<(string, Json)>, stock: Json, plateUuid: Json)
    requires OrderShape(body, items, stock) && DoneUnder(stock, plateUuid)
    requires Deletion(t, OtherItems(items)).0 == Committed
    requires forall i :: 0 <= i < |t.uuids| ==> t.uuids[i].externalId != plateUuid
    ensures OrderHandling(t, body) == (RejectRequeue, Deletion(t, OtherItems(items)).1)
  {
    var afterDeletion := Deletion(t, OtherItems(items)).1;
    DeletionAddsNoUuidRow(t, OtherItems(items));
    forall i | 0 <= i < |afterDeletion.uuids|
      ensures afterDeletion.uuids[i].externalId != plateUuid
    {
      assert afterDeletion.uuids[i] in t.uuids;
    }
    PromotionOfUnknownUuid(afterDeletion, plateUuid);
  }

  // ---------------------------------------------------------------- platetransfer_message_handler

  /**
   * update_aliquots_in_sequencescape walks `wells` with `each |location,
   * aliquots|` and, for each value, asks `empty?` and then runs `each`;
   * nothing is written. It completes exactly when `wells` has an `each` and
   * every value it passes has both.
   */
  predicate WellsWalkable(wells: Json) {
    EachValues(wells).Some? &&
    forall i :: 0 <= i < |EachValues(wells).value| ==> JsonDecoder.Aliquots(EachValues(wells).value[i]).Ok?
  }

  /**
   * platetransfer_message_handler: the plate is found under
   * `["plate_transfer"]["result"]["plate"]`, its `uuid` and `wells` are read
   * and the wells are walked. No table changes, so a body that can be
   * navigated and walked is acked; anything else raises, since the handler
   * rescues only a rollback and the walk runs in no transaction.
   */
  function TransferReply(body: Json): Reply {
    match Index(body, "plate_transfer")
    case Fail(_) => Raised
    case Ok(transfer) =>
      match Index(transfer, "result")
      case Fail(_) => Raised
      case Ok(result) =>
        match Index(result, "plate")
        case Fail(_) => Raised
        case Ok(plate) =>
          if Index(plate, "uuid").Fail? || Index(plate, "wells").Fail? then Raised
          else if WellsWalkable(Index(plate, "wells").value) then Ack
          else Raised
  }

  /** The transfer handler acks exactly the bodies whose plate it can reach and whose wells it can walk, and never requeues. */
  lemma TransferReplyIff(body: Json)
    ensures TransferReply(body) == Ack <==>
      && Index(body, "plate_transfer").Ok?
      && Index(Index(body, "plate_transfer").value, "result").Ok?
      && Index(Index(Index(body, "plate_transfer").value, "result").value, "plate").Ok?
      && (var p := Index(Index(Index(body, "plate_transfer").value, "result").value, "plate").value;
          Index(p, "uuid").Ok? && Index(p, "wells").Ok? && WellsWalkable(Index(p, "wells").value))
    ensures TransferReply(body) != RejectRequeue && TransferReply(body) != NoReply
  {
  }

  /**
   * Wells given as a hash, as the plate decoder reads them, are walked
   * exactly when every location's aliquots are a list, a hash or the empty
   * string; `nil` or missing wells and a location whose aliquots are `nil`
   * or a number are not.
   */
  lemma HashWellsWalkable(fields: seq<(string, Json)>)
    ensures WellsWalkable(JObj(fields)) <==>
      forall i :: 0 <= i < |fields| ==> fields[i].1.JArr? || fields[i].1.JObj? || fields[i].1 == JStr("")
    ensures !WellsWalkable(JNull)
    ensures forall loc :: !WellsWalkable(JObj([(loc, JNull)])) && !WellsWalkable(JObj([(loc, JNum(0))]))
  {
    var values := EachValues(JObj(fields)).value;
    assert forall i :: 0 <= i < |fields| ==> values[i] == fields[i].1;
    forall loc: string ensures !WellsWalkable(JObj([(loc, JNull)])) && !WellsWalkable(JObj([(loc, JNum(0))])) {
      assert EachValues(JObj([(loc, JNull)])).value[0] == JNull;
      assert EachValues(JObj([(loc, JNum(0))])).value[0] == JNum(0);
    }
  }

  // ---------------------------------------------------------------- the consumer

  /** plate_message_handler on the tables: the creation and the reply its outcome calls for. */
  function PlateHandling(t: Tables, body: Json): (Reply, Tables) {
    var (outcome, after) := Creation(t, body);
    (PlateReply(outcome), after)
  }

  /** One delivered message: its reply and the tables after it. */
  function Consumption(t: Tables, key: string, body: Json): (Reply, Tables) {
    match Route(key)
    case None => (NoReply, t)
    case Some(PlateHandler) => PlateHandling(t, body)
    case Some(OrderHandler) => OrderHandling(t, body)
    case Some(PlateTransferHandler) => (TransferReply(body), t)
  }

  /** A creation message is acked exactly when the plate is created; a requeued or raised one leaves the tables as they were. */
  lemma PlateMessageReply(t: Tables, key: string, body: Json)
    requires Route(key) == Some(PlateHandler)
    ensures var (reply, after) := Consumption(t, key, body);
      && (reply == Ack <==> Index(body, "plate").Ok? && CreatedPlate(t, Index(body, "plate").value).Some?)
      && (reply == Ack ==> after == CreatedPlate(t, Index(body, "plate").value).value)
      && (reply == RejectRequeue <==> Index(body, "plate").Ok? && CreatedPlate(t, Index(body, "plate").value).None?)
      && (reply != Ack ==> after == t)
  {
  }

  /** Every message keeps every id the tables mention below the auto-increment. */
  lemma ConsumptionKeepsWellFormed(t: Tables, key: string, body: Json)
    requires WellFormed(t)
    ensures WellFormed(Consumption(t, key, body).1)
  {
    match Route(key)
    case None =>
    case Some(PlateHandler) => CreationKeepsWellFormed(t, body);
    case Some(OrderHandler) => OrderHandlingKeepsWellFormed(t, body);
    case Some(PlateTransferHandler) =>
  }

  /** An order message keeps every id the tables mention below the auto-increment. */
  lemma OrderHandlingKeepsWellFormed(t: Tables, body: Json)
    requires WellFormed(t)
    ensures WellFormed(OrderHandling(t, body).1)
  {
    if Index(body, "order").Ok? && Index(Index(body, "order").value, "items").Ok? {
      var items := Index(Index(body, "order").value, "items").value;
      if items.JObj? {
        var others := OtherItems(items.fields);
        DeletionKeepsWellFormed(t, others);
        var stock := Lookup(items.fields, StockPlateRole);
        if Index(stock, "uuid").Ok? {
          PromotionKeepsWellFormed(Deletion(t, others).1, Index(stock, "uuid").value);
        }
      }
    }
  }

  /** The body of an order whose only item is `item`, under the stock role. */
  function StockOnlyOrder(item: Json): Json {
    JObj([("order", JObj([("items", JObj([(StockPlateRole, item)]))]))])
  }

  /** An order whose only item is a done stock plate deletes nothing and acks exactly when the promotion commits. */
  lemma StockOnlyOrderHandling(t: Tables, plateUuid: Json)
    ensures var (reply, after) := OrderHandling(t, StockOnlyOrder(JObj([("status", JStr(ItemDoneStatus)), ("uuid", plateUuid)])));
      && (reply == Ack <==> Promotion(t, plateUuid).0 == Committed)
      && after == Promotion(t, plateUuid).1
  {
    var stock := JObj([("status", JStr(ItemDoneStatus)), ("uuid", plateUuid)]);
    var items := [(StockPlateRole, stock)];
    var body := StockOnlyOrder(stock);
    assert Index(body, "order") == Ok(JObj([("items", JObj(items))]));
    assert Index(JObj([("items", JObj(items))]), "items") == Ok(JObj(items));
    assert Index(JObj(items), StockPlateRole) == Ok(stock);
    assert OtherItems(items) == [] by {
      assert !NotStock()(items[0]);
    }
    assert Deletion(t, []) == (Committed, t);
    assert Index(stock, "status") == Ok(JStr(ItemDoneStatus));
    assert "status" != "uuid";
    assert stock.fields[1..] == [("uuid", plateUuid)];
    assert Lookup(stock.fields, "uuid") == Lookup([("uuid", plateUuid)], "uuid");
  }

  /**
   * A plate creation followed by an order whose only item is that plate,
   * done, under the stock role: both messages are acked and the new plate
   * ends up a stock plate.
   */
  lemma CreationThenOrderPromotes(t: Tables, plate: Json, uuid: Json)
    requires CreatedPlate(t, plate).Some? && Index(plate, "uuid") == Ok(uuid)
    requires forall i :: 0 <= i < |t.uuids| ==> t.uuids[i].externalId != uuid
    ensures var (created, afterCreation) := PlateHandling(t, JObj([("plate", plate)]));
      var (reply, after) := OrderHandling(afterCreation, StockOnlyOrder(JObj([("status", JStr(ItemDoneStatus)), ("uuid", uuid)])));
      && created == Ack && reply == Ack
      && |after.assets| > |t.assets|
      && after.assets[|t.assets|] == Asset(t.nextAssetId, PlateType, Some(StockPlatePurposeId), None)
  {
    var afterCreation := CreatedPlate(t, plate).value;
    assert Index(JObj([("plate", plate)]), "plate") == Ok(plate);
    PromotionAfterCreation(t, plate, afterCreation);
    StockOnlyOrderHandling(afterCreation, uuid);
  }

  // ---------------------------------------------------------------- the consumer object

  /** The consumer with its connection: the four tables it reads and writes, and the `assets` auto-increment. */
  class PlateCreator {
    var assets: seq<Asset>
    var uuids: seq<UuidRow>
    var associations: seq<Association>
    var maps: seq<MapRow>
    var nextAssetId: nat

    function State(): Tables
      reads this
    {
      Tables(assets, uuids, associations, maps, nextAssetId)
    }

    /** A consumer connected to a database holding `initial`. */
    constructor(initial: Tables)
      ensures State() == initial
    {
      assets := initial.assets;
      uuids := initial.uuids;
      associations := initial.associations;
      maps := initial.maps;
      nextAssetId := initial.nextAssetId;
    }

    /** A transaction's rollback: every table is as it was when the transaction began. */
    method Restore(saved: Tables)
      modifies this
      ensures State() == saved
    {
      assets, uuids, associations, maps, nextAssetId := saved.assets, saved.uuids, saved.associations, saved.maps, saved.nextAssetId;
    }

    /** `t_assets.insert(...)`: the new row gets the next id, which is returned. */
    method InsertAssetRow(stiType: string, platePurposeId: Option<int>, mapId: Option<nat>) returns (id: nat)
      modifies this
      ensures id == old(nextAssetId)
      ensures State() == InsertAsset(old(State()), stiType, platePurposeId, mapId)
    {
      id := nextAssetId;
      assets := assets + [Asset(id, stiType, platePurposeId, mapId)];
      nextAssetId := nextAssetId + 1;
    }

    /**
     * create_plate_in_sequencescape: inside one transaction, the plate row
     * and its uuid row, then per well entry in order the well row with the
     * map of its location and the well's association with the plate. Any
     * failure inside the transaction rolls every table back.
     */
    method CreatePlateInSequencescape(body: Json) returns (outcome: Outcome)
      modifies this
      ensures (outcome, State()) == Creation(old(State()), body)
    {
      if Index(body, "plate").Fail? {
        return Escaped;
      }
      var plate := Index(body, "plate").value;
      var saved := State();
      if Index(plate, "uuid").Fail? {
        return RolledBack;
      }
      var plateUuid := Index(plate, "uuid").value;
      var plateId := InsertAssetRow(PlateType, Some(UnassignedPlatePurposeId), None);
      uuids := uuids + [UuidRow(AssetResourceType, Some(plateId), plateUuid)];
      var rows := Index(plate, "number_of_rows").value;
      var columns := Index(plate, "number_of_columns").value;
      if !(rows.JNum? && columns.JNum?) {
        Restore(saved);
        return RolledBack;
      }
      var assetSize := rows.n * columns.n;
      var wells := Index(plate, "wells").value;
      if !wells.JObj? {
        Restore(saved);
        return RolledBack;
      }
      var done := InsertWells(plateId, wells.fields, assetSize, saved);
      outcome := if done then Committed else RolledBack;
    }

    /**
     * The wells loop of create_plate_in_sequencescape: per entry in order,
     * the map of its location is looked up, then the well row and its
     * association with the plate are inserted; a location without a map
     * raises, and the transaction rolls back to `saved`.
     */
    method InsertWells(plateId: nat, wells: seq<(string, Json)>, assetSize: int, saved: Tables) returns (done: bool)
      modifies this
      ensures done ==> AddWells(old(State()), plateId, wells, assetSize) == Some(State())
      ensures !done ==> AddWells(old(State()), plateId, wells, assetSize) == None && State() == saved
    {
      ghost var placed := State();
      for i := 0 to |wells|
        invariant AddWells(placed, plateId, wells[..i], assetSize) == Some(State())
      {
        assert wells[..i + 1][..i] == wells[..i];
        var mapId := MapIdFor(maps, wells[i].0, assetSize);
        if mapId.None? {
          AddWellsPrefixFails(placed, plateId, wells, assetSize, i + 1);
          Restore(saved);
          return false;
        }
        var wellId := InsertAssetRow(WellType, None, mapId);
        associations := associations + [Association(plateId, wellId)];
      }
      assert wells[..|wells|] == wells;
      return true;
    }

    /**
     * update_plate_purpose_in_sequencescape: inside one transaction, the
     * first uuid row carrying the uuid gives the plate, whose purpose becomes
     * Stock Plate; no such row raises, and a row without a resource raises
     * PlateNotFoundInSequencescape.
     */
    method UpdatePlatePurposeInSequencescape(plateUuid: Json) returns (outcome: Outcome)
      modifies this
      ensures (outcome, State()) == Promotion(old(State()), plateUuid)
    {
      var row := ResourceIdFor(uuids, plateUuid);
      if row.None? {
        return RolledBack;
      }
      if row.value.None? {
        return NotFound;
      }
      assets := SetPurpose(assets, row.value.value, StockPlatePurposeId);
      return Committed;
    }

    /**
     * One item's transaction of delete_unassigned_plates_in_sequencescape,
     * as its comments describe it: the plate the uuid names, then its wells'
     * rows, their associations, the plate's row and its uuid rows.
     */
    method DeleteUnassignedPlate(plateUuid: Json)
      modifies this
      ensures State() == DeleteMapped(old(State()), plateUuid)
    {
      var plate := MappedAsset(assets, uuids, plateUuid);
      if plate.Some? {
        var plateId := plate.value;
        var wellIds := WellIds(State(), plateId);
        ghost var before := assets;
        assets := Filter(assets, (a: Asset) => a.id !in wellIds);
        associations := Filter(associations, KeepsAssociation(wellIds));
        assets := Filter(assets, (a: Asset) => a.id != plateId);
        uuids := Filter(uuids, KeepsUuid(plateUuid));
        FilterTwice(before, (a: Asset) => a.id !in wellIds, (a: Asset) => a.id != plateId, KeepsAsset(wellIds, plateId));
      }
    }

    /**
     * delete_unassigned_plates_in_sequencescape: one transaction per item, in
     * order; an item whose uuid cannot be read raises outside the
     * transactions and ends the loop.
     */
    method DeleteUnassignedPlatesInSequencescape(items: seq<(string, Json)>) returns (outcome: Outcome)
      modifies this
      ensures (outcome, State()) == Deletion(old(State()), items)
    {
      ghost var start := State();
      for i := 0 to |items|
        invariant Deletion(start, items[..i]) == (Committed, State())
      {
        assert items[..i + 1][..i] == items[..i];
        if Index(items[i].1, "uuid").Fail? {
          DeletionStaysEscaped(start, items, i + 1);
          return Escaped;
        }
        DeleteUnassignedPlate(Index(items[i].1, "uuid").value);
      }
      assert items[..|items|] == items;
      return Committed;
    }

    /** plate_message_handler */
    method PlateMessageHandler(body: Json) returns (reply: Reply)
      modifies this
      ensures (reply, State()) == PlateHandling(old(State()), body)
    {
      var outcome := CreatePlateInSequencescape(body);
      reply := PlateReply(outcome);
    }

    /** order_message_handler */
    method OrderMessageHandler(body: Json) returns (reply: Reply)
      modifies this
      ensures (reply, State()) == OrderHandling(old(State()), body)
    {
      if Index(body, "order").Fail? {
        return Raised;
      }
      var order := Index(body, "order").value;
      if Index(order, "items").Fail? {
        return Raised;
      }
      var items := Index(order, "items").value;
      if Index(items, StockPlateRole).Fail? {
        return Raised;
      }
      var stock := Index(items, StockPlateRole).value;
      if !items.JObj? {
        return Raised;
      }
      var others := Filter(items.fields, NotStock());
      var deleted := DeleteUnassignedPlatesInSequencescape(others);
      if deleted == Escaped {
        return Raised;
      }
      if !Truthy(stock) {
        return Ack;
      }
      if Index(stock, "status").Fail? {
        return Raised;
      }
      if Index(stock, "status").value != JStr(ItemDoneStatus) {
        return Ack;
      }
      if Index(stock, "uuid").Fail? {
        return Raised;
      }
      var promoted := UpdatePlatePurposeInSequencescape(Index(stock, "uuid").value);
      reply := if promoted == Committed then Ack else RejectRequeue;
    }

    /** update_aliquots_in_sequencescape: walks the wells without writing; `raised` when a step has no method to call. */
    method UpdateAliquotsInSequencescape(plateUuid: Json, wells: Json) returns (raised: bool)
      ensures raised <==> !WellsWalkable(wells)
    {
      if EachValues(wells).None? {
        return true;
      }
      var values := EachValues(wells).value;
      var i := 0;
      while i < |values|
        invariant 0 <= i <= |values|
        invariant forall j :: 0 <= j < i ==> JsonDecoder.Aliquots(values[j]).Ok?
      {
        var aliquots := JsonDecoder.Aliquots(values[i]);
        if aliquots.Fail? {
          return true;
        }
        var k := 0;
        while k < |aliquots.value|
          invariant 0 <= k <= |aliquots.value|
        {
          k := k + 1;
        }
        i := i + 1;
      }
      raised := false;
    }

    /** platetransfer_message_handler: navigates to the plate and walks its wells; the tables are untouched. */
    method PlatetransferMessageHandler(body: Json) returns (reply: Reply)
      ensures reply == TransferReply(body)
    {
      if Index(body, "plate_transfer").Fail? {
        return Raised;
      }
      var transfer := Index(body, "plate_transfer").value;
      if Index(transfer, "result").Fail? {
        return Raised;
      }
      var result := Index(transfer, "result").value;
      if Index(result, "plate").Fail? {
        return Raised;
      }
      var plate := Index(result, "plate").value;
      if Index(plate, "uuid").Fail? || Index(plate, "wells").Fail? {
        return Raised;
      }
      var raised := UpdateAliquotsInSequencescape(Index(plate, "uuid").value, Index(plate, "wells").value);
      reply := if raised then Raised else Ack;
    }

    /** The set_queue block: the handler the routing key selects, or nothing. */
    method Consume(key: string, body: Json) returns (reply: Reply)
      modifies this
      ensures (reply, State()) == Consumption(old(State()), key, body)
    {
      match Route(key)
      case None =>
        reply := NoReply;
      case Some(PlateHandler) =>
        reply := PlateMessageHandler(body);
      case Some(OrderHandler) =>
        reply := OrderMessageHandler(body);
      case Some(PlateTransferHandler) =>
        reply := PlatetransferMessageHandler(body);
    }
  }

  // ---------------------------------------------------------------- helpers for the methods' proofs

  /** The wells loop fails on every entries whose prefix it fails on. */
  lemma {:induction false} AddWellsPrefixFails(t: Tables, plateId: nat, wells: seq<(string, Json)>, size: int, i: nat)
    requires i <= |wells|
    requires AddWells(t, plateId, wells[..i], size).None?
    ensures AddWells(t, plateId, wells, size).None?
    decreases |wells|
  {
    if i < |wells| {
      var n := |wells| - 1;
      assert wells[..n][..i] == wells[..i];
      AddWellsPrefixFails(t, plateId, wells[..n], size, i);
    } else {
      assert wells[..i] == wells;
    }
  }

  /** Once an item raises, the deletion loop stays raised. */
  lemma {:induction false} DeletionStaysEscaped(t: Tables, items: seq<(string, Json)>, i: nat)
    requires i <= |items| && Deletion(t, items[..i]).0 == Escaped
    ensures Deletion(t, items) == Deletion(t, items[..i])
    decreases |items| - i
  {
    if i < |items| {
      assert items[..i + 1][..i] == items[..i];
      DeletionStaysEscaped(t, items, i + 1);
    } else {
      assert items[..i] == items;
    }
  }

  /** Two selections in a row are one selection by both conditions. */
  lemma {:induction false} FilterTwice<T(!new)>(s: seq<T>, p: T -> bool, q: T -> bool, both: T -> bool)
    requires forall x :: both(x) == (p(x) && q(x))
    ensures Filter(Filter(s, p), q) == Filter(s, both)
    decreases |s|
  {
    if s != [] {
      FilterTwice(s[1..], p, q, both);
    }
  }
}
