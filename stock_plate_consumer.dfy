/**
 * stock_plate_consumer.rb: the consumer that decodes every S2 message into a
 * resource, routes it by routing key, and reconciles Sequencescape through
 * the SequencescapeUpdater operations. Those operations are not part of this
 * model: an `Updater` stands for the store and answers each call with success,
 * PlateNotFound or a rollback, and may base its answer on the calls made
 * before it in the same handling.
 */
module StockPlateConsumer {
  import opened Wrappers
  import opened Text
  import opened Json
  import opened JsonDecoder
  import opened Broker

  /** The three handlers set_queue can hand a message to. */
  datatype Handler = PlateHandler | OrderHandler | PlateTransferHandler

  // ---------------------------------------------------------------- routing

  /** `/plate|tuberack\.create/` */
  predicate PlateKey(key: string) {
    Contains(key, "plate") || Contains(key, "tuberack.create")
  }

  /** `/order\.create|updateorder/` */
  predicate OrderKey(key: string) {
    Contains(key, "order.create") || Contains(key, "updateorder")
  }

  /** The branch of set_queue taken for a routing key: the first pattern that matches wins. */
  function Route(key: string): Option<Handler> {
    if PlateKey(key) then Some(PlateHandler)
    else if OrderKey(key) then Some(OrderHandler)
    else if Contains(key, "platetransfer") then Some(PlateTransferHandler)
    else None
  }

  /** Every key containing `plate` or `tuberack.create` goes to the plate handler, and only those. */
  lemma RoutePlate(key: string)
    ensures Route(key) == Some(PlateHandler) <==> Contains(key, "plate") || Contains(key, "tuberack.create")
  {
  }

  /** The order handler gets exactly the order keys that mention neither `plate` nor `tuberack.create`. */
  lemma RouteOrder(key: string)
    ensures Route(key) == Some(OrderHandler) <==> !PlateKey(key) && OrderKey(key)
  {
  }

  /** A key containing `platetransfer` contains `plate`, so the third branch is never taken. */
  lemma PlateTransferBranchUnreachable(key: string)
    ensures Route(key) != Some(PlateTransferHandler)
  {
    if Contains(key, "platetransfer") {
      ContainsPrefixOfPattern(key, "platetransfer", "plate");
    }
  }

  /** A key that matches none of the patterns reaches no handler. */
  lemma RouteNone(key: string)
    ensures Route(key) == None <==> !PlateKey(key) && !OrderKey(key)
  {
    PlateTransferBranchUnreachable(key);
  }

  /** Plate creations go to the plate handler, whatever the two leading words. */
  lemma PlateCreateKeysRoute(prefix: string)
    ensures Route(prefix + ".plate.create") == Some(PlateHandler)
  {
    ContainsMiddle(prefix + ".", "plate", ".create");
    assert prefix + "." + "plate" + ".create" == prefix + ".plate.create";
  }

  /** Tube rack creations go to the plate handler, whatever the two leading words. */
  lemma TubeRackCreateKeysRoute(prefix: string)
    ensures Route(prefix + ".tuberack.create") == Some(PlateHandler)
  {
    ContainsMiddle(prefix + ".", "tuberack.create", "");
    assert prefix + "." + "tuberack.create" + "" == prefix + ".tuberack.create";
  }

  /** Plate transfers go to the plate handler too, whatever the two leading words. */
  lemma PlateTransferKeysRoute(prefix: string)
    ensures Route(prefix + ".platetransfer.platetransfer") == Some(PlateHandler)
  {
    ContainsMiddle(prefix + ".", "plate", "transfer.platetransfer");
    assert prefix + "." + "plate" + "transfer.platetransfer" == prefix + ".platetransfer.platetransfer";
  }

  /** Order creations go to the order handler when the two leading words hold no `l` and no `b`. */
  lemma OrderCreateKeysRoute(prefix: string)
    requires 'l' !in prefix && 'b' !in prefix
    ensures Route(prefix + ".order.create") == Some(OrderHandler)
  {
    var key := prefix + ".order.create";
    assert 'l' !in key && 'b' !in key;
    MissingCharRulesOut(key, "plate", 'l');
    MissingCharRulesOut(key, "tuberack.create", 'b');
    ContainsMiddle(prefix + ".", "order.create", "");
    assert prefix + "." + "order.create" + "" == key;
  }

  /** Order updates go to the order handler when the two leading words hold no `l` and no `b`. */
  lemma UpdateOrderKeysRoute(prefix: string)
    requires 'l' !in prefix && 'b' !in prefix
    ensures Route(prefix + ".order.updateorder") == Some(OrderHandler)
  {
    var key := prefix + ".order.updateorder";
    assert 'l' !in key && 'b' !in key;
    MissingCharRulesOut(key, "plate", 'l');
    MissingCharRulesOut(key, "tuberack.create", 'b');
    ContainsMiddle(prefix + ".order.", "updateorder", "");
    assert prefix + ".order." + "updateorder" + "" == key;
  }

  // ---------------------------------------------------------------- decoding

  /**
   * s2_resource: the model name is the body's first key (`nil.to_s`, the empty
   * string, for an empty object); a body that is not an object has no `keys`.
   */
  function S2Resource(body: Json): (r: Result<Resource, DecodeError>)
    ensures body.JObj? && body.fields != [] && DecoderFor(body.fields[0].0).Ok? ==>
      r == DecodeWith(DecoderFor(body.fields[0].0).value, body)
    ensures body.JObj? && body.fields != [] && DecoderFor(body.fields[0].0).Fail? ==>
      r == Fail(UndefinedDecoder(DecoderName(body.fields[0].0)))
    ensures body == JObj([]) ==> r == Fail(UndefinedDecoder(DecoderName("")))
    ensures !body.JObj? ==> r == Fail(Malformed)
  {
    if !body.JObj? then Fail(Malformed)
    else
      var model := if body.fields == [] then "" else body.fields[0].0;
      var decoder :- DecoderFor(model);
      DecodeWith(decoder, body)
  }

  /** A body whose first key is `plate`, in any case, is decoded as a plate. */
  lemma PlateBody(body: Json)
    requires body.JObj? && body.fields != [] && Downcase(body.fields[0].0) == "plate"
    ensures S2Resource(body) == DecodePlate(body)
  {
    PlateModelKey(body.fields[0].0);
  }

  /** A body whose first key is `order`, in any case, is decoded as an order. */
  lemma OrderBody(body: Json)
    requires body.JObj? && body.fields != [] && Downcase(body.fields[0].0) == "order"
    ensures S2Resource(body) == DecodeOrder(body)
  {
    OrderModelKey(body.fields[0].0);
  }

  /** A body whose first key is `plate_transfer`, in any case, is decoded as a plate transfer. */
  lemma PlateTransferBody(body: Json)
    requires body.JObj? && body.fields != [] && Downcase(body.fields[0].0) == "plate_transfer"
    ensures S2Resource(body) == DecodePlateTransfer(body)
  {
    PlateTransferModelKey(body.fields[0].0);
  }

  /** A tube rack body raises UndefinedDecoder: no decoder for it is defined. */
  lemma TubeRackBody(body: Json)
    requires body.JObj? && body.fields != [] && Downcase(body.fields[0].0) == "tube_rack"
    ensures S2Resource(body) == Fail(UndefinedDecoder("TubeRackJsonDecoder"))
  {
    TubeRackModelKeyIsUndefined(body.fields[0].0);
  }

  /**
   * Only the first key counts: whatever fields follow it, a body led by a
   * decoder's key is decoded, whole, by that decoder, and one led by any
   * other key raises UndefinedDecoder.
   */
  lemma FirstKeyChoosesDecoder(first: (string, Json), rest: seq<(string, Json)>)
    ensures DecoderFor(first.0).Ok? ==>
      S2Resource(JObj([first] + rest)) == DecodeWith(DecoderFor(first.0).value, JObj([first] + rest))
    ensures DecoderFor(first.0).Fail? ==>
      S2Resource(JObj([first] + rest)) == Fail(UndefinedDecoder(DecoderName(first.0)))
  {
    assert JObj([first] + rest).fields[0] == first;
  }

  // ---------------------------------------------------------------- the store, abstractly

  /** How a SequencescapeUpdater operation ends. */
  datatype Attempt =
    | Succeeded
    | PlateNotFound  // PlateNotFoundInSequencescape
    | RolledBack     // Sequel::Rollback

  /** One SequencescapeUpdater call, with the arguments the handler passes (`nil` where the resource lacks the key). */
  datatype Call =
    | CreatePlate(plate: Option<Plate>, uuid: Json, sampleUuids: Option<map<string, seq<Json>>>)
    | UpdatePlatePurpose(plateUuid: Json)
    | DeleteUnassignedPlates(items: seq<Item>)
    | UpdateAliquots(plate: Option<Plate>, uuid: Json, sampleUuids: Option<map<string, seq<Json>>>)

  /** The store's answer to a call, given the calls already made while handling the message. */
  type Updater = (seq<Call>, Call) -> Attempt

  function PlateOf(resource: Resource): Option<Plate> {
    if resource.PlateResource? then Some(resource.plate) else None
  }

  function ResourceSampleUuids(resource: Resource): Option<map<string, seq<Json>>> {
    if resource.PlateResource? then Some(resource.sampleUuids) else None
  }

  /** A `begin … rescue Sequel::Rollback` around one call: ack, requeue on rollback, anything else escapes. */
  function ReplyTo(attempt: Attempt): Reply {
    match attempt
    case Succeeded => Ack
    case RolledBack => RejectRequeue
    case PlateNotFound => Raised
  }

  /** plate_message_handler: one create call; ack on success, requeue on rollback. */
  function PlateMessageHandler(resource: Resource, updater: Updater): (out: (Reply, seq<Call>))
    ensures out.1 == [CreatePlate(PlateOf(resource), resource.uuid, ResourceSampleUuids(resource))]
    ensures out.0 == Ack <==> updater([], out.1[0]) == Succeeded
    ensures out.0 == RejectRequeue <==> updater([], out.1[0]) == RolledBack
  {
    var call := CreatePlate(PlateOf(resource), resource.uuid, ResourceSampleUuids(resource));
    (ReplyTo(updater([], call)), [call])
  }

  /** platetransfer_message_handler: one aliquot update; ack on success, requeue on rollback. */
  function PlateTransferMessageHandler(resource: Resource, updater: Updater): (out: (Reply, seq<Call>))
    ensures out.1 == [UpdateAliquots(PlateOf(resource), resource.uuid, ResourceSampleUuids(resource))]
    ensures out.0 == Ack <==> updater([], out.1[0]) == Succeeded
    ensures out.0 == RejectRequeue <==> updater([], out.1[0]) == RolledBack
  {
    var call := UpdateAliquots(PlateOf(resource), resource.uuid, ResourceSampleUuids(resource));
    (ReplyTo(updater([], call)), [call])
  }

  // ---------------------------------------------------------------- orders

  /** stock_plate_items: the item of every stock role the order holds, in stock-role order. */
  function StockItemsOf(order: Order, stockRoles: seq<string>): seq<Item>
    decreases |stockRoles|
  {
    if stockRoles == [] then []
    else
      var front := StockItemsOf(order, stockRoles[..|stockRoles| - 1]);
      var role := stockRoles[|stockRoles| - 1];
      if role in order.items then front + [order.items[role]] else front
  }

  /** `order.keys.delete_if { |k| STOCK_PLATES.include?(k) }.map { |k| order[k] }` over the given roles. */
  function OtherItemsOf(roles: seq<string>, items: map<string, Item>, stockRoles: seq<string>): seq<Item>
    decreases |roles|
  {
    if roles == [] then []
    else
      var front := OtherItemsOf(roles[..|roles| - 1], items, stockRoles);
      var role := roles[|roles| - 1];
      if role !in stockRoles && role in items then front + [items[role]] else front
  }

  /** The promotion calls for the stock items whose status is `done`, in item order. */
  function Promotions(stock: seq<Item>, done: string): seq<Call>
    decreases |stock|
  {
    if stock == [] then []
    else
      var front := Promotions(stock[..|stock| - 1], done);
      var item := stock[|stock| - 1];
      if item.status == JStr(done) then front + [UpdatePlatePurpose(item.uuid)] else front
  }

  /** Every call of `pending`, made after `history` and after the calls of `pending` before it, succeeds. */
  predicate AllSucceed(updater: Updater, history: seq<Call>, pending: seq<Call>)
    decreases |pending|
  {
    pending == [] ||
    (AllSucceed(updater, history, pending[..|pending| - 1]) &&
     updater(history + pending[..|pending| - 1], pending[|pending| - 1]) == Succeeded)
  }

  /**
   * order_message_handler: deletion for the non-stock roles first, then a
   * promotion for every done stock item, even after a failed one; the reply
   * and every call made, in order. A resource that is not an order has no
   * `[role]` and raises before any call.
   */
  function OrderHandling(resource: Resource, stockRoles: seq<string>, done: string, updater: Updater): (Reply, seq<Call>) {
    if !resource.OrderResource? then (Raised, [])
    else
      var order := resource.order;
      var stock := StockItemsOf(order, stockRoles);
      var delete := DeleteUnassignedPlates(OtherItemsOf(order.roles, order.items, stockRoles));
      if updater([], delete) != Succeeded then (Raised, [delete])
      else if stock == [] then (Ack, [delete])
      else
        var attempts := Promotions(stock, done);
        (if AllSucceed(updater, [delete], attempts) then Ack else RejectRequeue, [delete] + attempts)
  }

  /** The items stock_plate_items returns are exactly the items of the stock roles the order holds. */
  lemma {:induction false} StockItemsMembers(order: Order, stockRoles: seq<string>, item: Item)
    ensures item in StockItemsOf(order, stockRoles) <==>
      exists k :: 0 <= k < |stockRoles| && stockRoles[k] in order.items && order.items[stockRoles[k]] == item
    decreases |stockRoles|
  {
    if stockRoles != [] {
      var n := |stockRoles| - 1;
      StockItemsMembers(order, stockRoles[..n], item);
      assert forall k :: 0 <= k < n ==> stockRoles[..n][k] == stockRoles[k];
    }
  }

  /** There are no stock items exactly when the order holds none of the stock roles. */
  lemma {:induction false} NoStockItems(order: Order, stockRoles: seq<string>)
    ensures StockItemsOf(order, stockRoles) == [] <==> forall k :: 0 <= k < |stockRoles| ==> stockRoles[k] !in order.items
    decreases |stockRoles|
  {
    if stockRoles != [] {
      var n := |stockRoles| - 1;
      NoStockItems(order, stockRoles[..n]);
      assert forall k :: 0 <= k < n ==> stockRoles[..n][k] == stockRoles[k];
    }
  }

  /** The items passed to deletion are exactly the items of the roles that are not stock roles. */
  lemma {:induction false} OtherItemsMembers(roles: seq<string>, items: map<string, Item>, stockRoles: seq<string>, item: Item)
    ensures item in OtherItemsOf(roles, items, stockRoles) <==>
      exists k :: 0 <= k < |roles| && roles[k] !in stockRoles && roles[k] in items && items[roles[k]] == item
    decreases |roles|
  {
    if roles != [] {
      var n := |roles| - 1;
      OtherItemsMembers(roles[..n], items, stockRoles, item);
      assert forall k :: 0 <= k < n ==> roles[..n][k] == roles[k];
    }
  }

  /** A promotion is attempted for a uuid exactly when a stock item with that uuid is done. */
  lemma {:induction false} PromotionsOfDoneItems(stock: seq<Item>, done: string, uuid: Json)
    ensures UpdatePlatePurpose(uuid) in Promotions(stock, done) <==>
      exists k :: 0 <= k < |stock| && stock[k].status == JStr(done) && stock[k].uuid == uuid
    decreases |stock|
  {
    if stock != [] {
      var n := |stock| - 1;
      PromotionsOfDoneItems(stock[..n], done, uuid);
      assert forall k :: 0 <= k < n ==> stock[..n][k] == stock[k];
    }
  }

  /** Only promotions are attempted after the deletion. */
  lemma {:induction false} PromotionsArePromotions(stock: seq<Item>, done: string)
    ensures forall c :: c in Promotions(stock, done) ==> c.UpdatePlatePurpose?
    ensures |Promotions(stock, done)| <= |stock|
    decreases |stock|
  {
    if stock != [] {
      PromotionsArePromotions(stock[..|stock| - 1], done);
    }
  }

  /** All calls succeed exactly when each one does, given the calls before it. */
  lemma {:induction false} AllSucceedIff(updater: Updater, history: seq<Call>, pending: seq<Call>)
    ensures AllSucceed(updater, history, pending) <==>
      forall k :: 0 <= k < |pending| ==> updater(history + pending[..k], pending[k]) == Succeeded
    decreases |pending|
  {
    if pending != [] {
      var n := |pending| - 1;
      AllSucceedIff(updater, history, pending[..n]);
      assert forall k :: 0 <= k < n ==> pending[..n][..k] == pending[..k] && pending[..n][k] == pending[k];
    }
  }

  /**
   * An order message is acked exactly when the deletion succeeds and either no
   * stock role is present or every attempted promotion succeeds; it is
   * requeued exactly when the deletion succeeds, a stock role is present and
   * some promotion fails.
   */
  lemma OrderReply(resource: Resource, stockRoles: seq<string>, done: string, updater: Updater)
    requires resource.OrderResource?
    ensures var order := resource.order;
      var stock := StockItemsOf(order, stockRoles);
      var calls := OrderHandling(resource, stockRoles, done, updater).1;
      var reply := OrderHandling(resource, stockRoles, done, updater).0;
      && calls[0] == DeleteUnassignedPlates(OtherItemsOf(order.roles, order.items, stockRoles))
      && (reply == Ack <==>
           updater([], calls[0]) == Succeeded &&
           (stock == [] || forall k :: 1 <= k < |calls| ==> updater(calls[..k], calls[k]) == Succeeded))
      && (reply == RejectRequeue <==>
           updater([], calls[0]) == Succeeded && stock != [] &&
           exists k :: 1 <= k < |calls| && updater(calls[..k], calls[k]) != Succeeded)
  {
    var order := resource.order;
    var stock := StockItemsOf(order, stockRoles);
    var delete := DeleteUnassignedPlates(OtherItemsOf(order.roles, order.items, stockRoles));
    var attempts := Promotions(stock, done);
    if updater([], delete) == Succeeded && stock != [] {
      AllSucceedIff(updater, [delete], attempts);
      var calls := [delete] + attempts;
      assert OrderHandling(resource, stockRoles, done, updater).1 == calls;
      forall k | 1 <= k < |calls|
        ensures calls[..k] == [delete] + attempts[..k - 1] && calls[k] == attempts[k - 1]
      {
      }
      var each := forall j :: 0 <= j < |attempts| ==> updater([delete] + attempts[..j], attempts[j]) == Succeeded;
      assert each <==> forall k :: 1 <= k < |calls| ==> updater(calls[..k], calls[k]) == Succeeded by {
        if each {
          forall k | 1 <= k < |calls|
            ensures updater(calls[..k], calls[k]) == Succeeded
          {
            assert updater([delete] + attempts[..k - 1], attempts[k - 1]) == Succeeded;
          }
        } else {
          var j :| 0 <= j < |attempts| && updater([delete] + attempts[..j], attempts[j]) != Succeeded;
          assert updater(calls[..j + 1], calls[j + 1]) != Succeeded;
        }
      }
    }
  }

  /** Stock items none of which is done give no promotion. */
  lemma {:induction false} NoDoneNoPromotions(stock: seq<Item>, done: string)
    requires forall k :: 0 <= k < |stock| ==> stock[k].status != JStr(done)
    ensures Promotions(stock, done) == []
    decreases |stock|
  {
    if stock != [] {
      NoDoneNoPromotions(stock[..|stock| - 1], done);
    }
  }

  /** With no done stock item nothing is promoted and the order is acked once the deletion succeeds. */
  lemma NothingDoneIsAcked(resource: Resource, stockRoles: seq<string>, done: string, updater: Updater)
    requires resource.OrderResource?
    requires forall k :: 0 <= k < |StockItemsOf(resource.order, stockRoles)| ==> StockItemsOf(resource.order, stockRoles)[k].status != JStr(done)
    requires updater([], DeleteUnassignedPlates(OtherItemsOf(resource.order.roles, resource.order.items, stockRoles))) == Succeeded
    ensures OrderHandling(resource, stockRoles, done, updater) ==
      (Ack, [DeleteUnassignedPlates(OtherItemsOf(resource.order.roles, resource.order.items, stockRoles))])
  {
    NoDoneNoPromotions(StockItemsOf(resource.order, stockRoles), done);
    var delete := DeleteUnassignedPlates(OtherItemsOf(resource.order.roles, resource.order.items, stockRoles));
    assert [delete] + [] == [delete];
  }

  /** stock_plate_items: collects the item of each stock role the order holds. */
  method StockPlateItems(order: Order, stockRoles: seq<string>) returns (items: seq<Item>)
    ensures items == StockItemsOf(order, stockRoles)
  {
    items := [];
    for i := 0 to |stockRoles|
      invariant items == StockItemsOf(order, stockRoles[..i])
    {
      assert stockRoles[..i + 1][..i] == stockRoles[..i];
      var role := stockRoles[i];
      if role in order.items {
        items := items + [order.items[role]];
      }
    }
    assert stockRoles[..|stockRoles|] == stockRoles;
  }

  /** order_message_handler: the reply and the calls made, in order. */
  method OrderMessageHandler(resource: Resource, stockRoles: seq<string>, done: string, updater: Updater)
    returns (reply: Reply, calls: seq<Call>)
    ensures (reply, calls) == OrderHandling(resource, stockRoles, done, updater)
  {
    if !resource.OrderResource? {
      return Raised, [];
    }
    var order := resource.order;
    var stock := StockPlateItems(order, stockRoles);
    var delete := DeleteUnassignedPlates(OtherItemsOf(order.roles, order.items, stockRoles));
    calls := [delete];
    if updater([], delete) != Succeeded {
      return Raised, calls;
    }
    if stock == [] {
      return Ack, calls;
    }
    var success := true;
    for i := 0 to |stock|
      invariant calls == [delete] + Promotions(stock[..i], done)
      invariant success == AllSucceed(updater, [delete], Promotions(stock[..i], done))
    {
      assert stock[..i + 1][..i] == stock[..i];
      var item := stock[i];
      if item.status == JStr(done) {
        var call := UpdatePlatePurpose(item.uuid);
        var attempt := updater(calls, call);
        var before := Promotions(stock[..i], done);
        assert Promotions(stock[..i + 1], done) == before + [call];
        assert (before + [call])[..|before|] == before;
        calls := calls + [call];
        success := success && attempt == Succeeded;
      }
    }
    assert stock[..|stock|] == stock;
    reply := if success then Ack else RejectRequeue;
  }

  // ---------------------------------------------------------------- the queue block

  /**
   * The block set_queue registers: decode the body first (a body that cannot
   * be decoded raises whatever the key), then hand the resource to the
   * handler the key selects; a key no pattern matches gets no reply.
   */
  function Consume(key: string, body: Json, stockRoles: seq<string>, done: string, updater: Updater): (Reply, seq<Call>) {
    match S2Resource(body)
    case Fail(_) => (Raised, [])
    case Ok(resource) =>
      match Route(key)
      case None => (NoReply, [])
      case Some(PlateHandler) => PlateMessageHandler(resource, updater)
      case Some(OrderHandler) => OrderHandling(resource, stockRoles, done, updater)
      case Some(PlateTransferHandler) => PlateTransferMessageHandler(resource, updater)
  }

  /** A body that cannot be decoded raises before any handler runs, whatever the key. */
  lemma UndecodableBodyRaises(key: string, body: Json, stockRoles: seq<string>, done: string, updater: Updater)
    requires S2Resource(body).Fail?
    ensures Consume(key, body, stockRoles, done, updater) == (Raised, [])
  {
  }

  /** A decodable message with an unmatched key is neither acked nor rejected, and the store is not called. */
  lemma UnmatchedKeyIsIgnored(key: string, body: Json, stockRoles: seq<string>, done: string, updater: Updater)
    requires S2Resource(body).Ok? && !PlateKey(key) && !OrderKey(key)
    ensures Consume(key, body, stockRoles, done, updater) == (NoReply, [])
  {
    RouteNone(key);
  }

  /** A plate transfer message creates a plate: its aliquots are never updated. */
  lemma TransferMessagesCreatePlates(prefix: string, body: Json, stockRoles: seq<string>, done: string, updater: Updater)
    requires S2Resource(body).Ok?
    ensures var resource := S2Resource(body).value;
      Consume(prefix + ".platetransfer.platetransfer", body, stockRoles, done, updater) == PlateMessageHandler(resource, updater)
  {
    PlateTransferKeysRoute(prefix);
  }

  /** No message at all reaches the plate transfer handler: aliquots are never updated. */
  lemma NoAliquotUpdates(key: string, body: Json, stockRoles: seq<string>, done: string, updater: Updater)
    ensures forall c :: c in Consume(key, body, stockRoles, done, updater).1 ==> !c.UpdateAliquots?
  {
    PlateTransferBranchUnreachable(key);
    if S2Resource(body).Ok? && Route(key) == Some(OrderHandler) {
      var resource := S2Resource(body).value;
      if resource.OrderResource? {
        PromotionsArePromotions(StockItemsOf(resource.order, stockRoles), done);
      }
    }
  }
}
