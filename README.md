# lims-messagebusclient: the Sequencescape stock-plate consumers, in Dafny

The two consumers in this model keep Sequencescape, a LIMS, in step with S2, the
laboratory system that publishes on the message bus. Every S2 message has a
routing key and a JSON body. A consumer sends each message to a handler chosen
by the key. The handler changes Sequencescape and then answers the broker:
ack, reject-and-requeue, or nothing when an exception escapes.

- `SequencescapePlateCreator` works on the Sequencescape tables directly.
  - A plate creation message inserts an Unassigned plate (purpose 100), its
    uuid row, and one well per location, each linked to the plate.
  - An order message first deletes the plates of its non-stock items. If its
    `WGS Stock Plate` item is `done`, that plate becomes a stock plate
    (purpose 2).
  - An order that comes before its plate finds no plate and is requeued.
- `StockPlateConsumer` first decodes every body into a lims-core resource
  (`JsonDecoder`). It then calls the store operations of a separate updater
  module, which this model does not include.

Modules:

| file | module | what it holds |
|---|---|---|
| `wrappers.dfy` | `Wrappers` | `Option` and `Result` |
| `text.dfy` | `Text` | `=~` with a literal pattern, and Ruby's `capitalize`, `downcase` and `sub(/_./)` |
| `json.dfy` | `Json` | a parsed JSON body and Ruby's `v[key]` on it |
| `broker.dfy` | `Broker` | the answer a handler gives the broker |
| `json_decoder.dfy` | `JsonDecoder` | `json_decoder_for` and the three decoders, as functions with loop-based methods proved against them |
| `stock_plate_consumer.dfy` | `StockPlateConsumer` | routing, `s2_resource` and the handlers, over an updater given as a parameter |
| `sequencescape_tables.dfy` | `SequencescapeTables` | the four tables, and each transaction as a function from the tables before to the outcome and the tables after |
| `sequencescape_plate_creator.dfy` | `SequencescapePlateCreator` | the handlers' specification functions, and the class `PlateCreator` |

`PlateCreator` holds the tables as fields. Its methods change those fields
step by step, loops included, as the Ruby methods change the database. Each
method is proved to end in the state that the functions of
`SequencescapeTables` give.

Where the design description and the code disagree, the model follows the code:

- A routing key that matches no pattern is neither acked nor rejected.
- A body that the handlers cannot navigate raises.
- There is no `TubeRackJsonDecoder`, so a `tube_rack` body raises UndefinedDecoder.
- The order decoder keeps one item per role, not a list.
- The `platetransfer` branch of `StockPlateConsumer` is unreachable, because
  `/plate/` matches first. Transfer messages go to the plate handler.
- The creator deletes by role alone and never looks at a plate's purpose. A
  stock plate promoted by an earlier order is deleted when a later order
  names it under another role.
- The creator makes one well per entry of `wells`, not one per position of
  the `number_of_rows` by `number_of_columns` grid.

## Model

Source paths are relative to the repository root.

| member | source | states |
|---|---|---|
| Text.CapitalizeIgnoresCase | lib/lims-messagebusclient/consumer/json_decoder.rb:20 | `capitalize` depends only on the downcased model name |
| Text.SubFirstUnderscoreAt | lib/lims-messagebusclient/consumer/json_decoder.rb:20 | `sub(/_./)` upcases the character after the first underscore, drops that underscore, and leaves the rest as it is |
| Text.SubFirstUnderscoreNone | lib/lims-messagebusclient/consumer/json_decoder.rb:20 | a name without an underscore is left unchanged by `sub(/_./)` |
| Json.Lookup | lib/lims-messagebusclient/consumer/json_decoder.rb:37 | a missing key gives `nil`; a non-`nil` value is a field stored under that key |
| Json.LookupFindsField | lib/lims-messagebusclient/consumer/json_decoder.rb:37 | in a hash without a repeated name, every field is found under its own name |
| Json.Index | lib/lims-messagebusclient/consumer/json_decoder.rb:37-40 | `v[key]` raises exactly when `v` is neither a hash nor a string |
| Json.EachEntry | lib/lims-messagebusclient/consumer/json_decoder.rb:77 | one array element given to a two-argument block: an array led by a string is spread over the two arguments, missing items being `nil`; a string is the key, with `nil` as the value |
| Json.ArrayEntries | lib/lims-messagebusclient/consumer/json_decoder.rb:77 | `each` over an array has entries exactly when every element has one, and then one entry per element in order |
| Json.EachPairs | lib/lims-messagebusclient/consumer/json_decoder.rb:77 | `each` with a key-and-value block visits a hash's fields and an array's entries; anything else has no `each` |
| Json.EachValues | lib/lims-messagebusclient/consumer/sequencescape_plate_creator.rb:235 | the values `each` passes to a location-and-aliquots block exist exactly for a hash or an array, one per field or element |
| Json.EachValuesOfPairs | lib/lims-messagebusclient/consumer/sequencescape_plate_creator.rb:235 | wherever `each` yields string keys, the values it passes are its entries' values |
| JsonDecoder.DecoderFor | lib/lims-messagebusclient/consumer/json_decoder.rb:18-25 | gives a decoder exactly when the built name is one of the three defined decoders; otherwise raises UndefinedDecoder with that name |
| JsonDecoder.DecoderNameIgnoresCase | lib/lims-messagebusclient/consumer/json_decoder.rb:20 | model names that agree once downcased build the same decoder name |
| JsonDecoder.SnakeCaseDecoderName | lib/lims-messagebusclient/consumer/json_decoder.rb:20 | `a_b` builds Capitalize(a), then b with its first letter upcased and the rest downcased, then `JsonDecoder` |
| JsonDecoder.PlateDecoderName | lib/lims-messagebusclient/consumer/json_decoder.rb:20 | `plate` in any case builds `PlateJsonDecoder` |
| JsonDecoder.PlateModelKey | lib/lims-messagebusclient/consumer/json_decoder.rb:18-28 | `plate` in any case selects PlateJsonDecoder |
| JsonDecoder.OrderDecoderName | lib/lims-messagebusclient/consumer/json_decoder.rb:20 | `order` in any case builds `OrderJsonDecoder` |
| JsonDecoder.OrderModelKey | lib/lims-messagebusclient/consumer/json_decoder.rb:18-25 | `order` in any case selects OrderJsonDecoder |
| JsonDecoder.PlateTransferDecoderName | lib/lims-messagebusclient/consumer/json_decoder.rb:20 | `plate_transfer` in any case builds `PlateTransferJsonDecoder` |
| JsonDecoder.PlateTransferModelKey | lib/lims-messagebusclient/consumer/json_decoder.rb:18-25 | `plate_transfer` in any case selects PlateTransferJsonDecoder |
| JsonDecoder.TubeRackDecoderName | lib/lims-messagebusclient/consumer/json_decoder.rb:20 | `tube_rack` builds `TubeRackJsonDecoder` |
| JsonDecoder.TubeRackModelKeyIsUndefined | lib/lims-messagebusclient/consumer/json_decoder.rb:18-25 | `tube_rack` raises UndefinedDecoder, since no such decoder is defined |
| JsonDecoder.Aliquots | lib/lims-messagebusclient/consumer/json_decoder.rb:40-42 | `empty?` followed by `each` visits an array's elements, one pair per hash field, and nothing for `""`; any other value raises |
| JsonDecoder.SampleUuidList | lib/lims-messagebusclient/consumer/json_decoder.rb:62-64 | one sample uuid per aliquot, or an error |
| JsonDecoder.AliquotCountsFailurePersists | lib/lims-messagebusclient/consumer/json_decoder.rb:40-46 | once a location raises, the decoding of the wells has failed, whatever comes after |
| JsonDecoder.SampleUuidListFailurePersists | lib/lims-messagebusclient/consumer/json_decoder.rb:62-65 | once an aliquot raises, the list has failed |
| JsonDecoder.SampleUuidsFailurePersists | lib/lims-messagebusclient/consumer/json_decoder.rb:60-67 | once a location raises, `sample_uuids` has failed |
| JsonDecoder.OrderFailurePersists | lib/lims-messagebusclient/consumer/json_decoder.rb:77-81 | once an item raises, the order decoder has failed |
| JsonDecoder.SampleUuidListPointwise | lib/lims-messagebusclient/consumer/json_decoder.rb:62-64 | the k-th uuid is `aliquot["sample"]["uuid"]` of the k-th aliquot |
| JsonDecoder.AliquotCountsKeys | lib/lims-messagebusclient/consumer/json_decoder.rb:40-46 | only locations of `wells` get aliquots, and each gets at least one |
| JsonDecoder.AliquotCountsPerLocation | lib/lims-messagebusclient/consumer/json_decoder.rb:40-46 | each location of `wells` holds exactly as many aliquots as its list has |
| JsonDecoder.SampleUuidsKeys | lib/lims-messagebusclient/consumer/json_decoder.rb:58-69 | `sample_uuids` has keys only for locations of `wells` with at least one aliquot |
| JsonDecoder.SampleUuidsPerLocation | lib/lims-messagebusclient/consumer/json_decoder.rb:58-69 | each location maps to the sample uuids of its own aliquots, in order |
| JsonDecoder.CountsMatchSampleUuids | lib/lims-messagebusclient/consumer/json_decoder.rb:36-69 | the two loops of the plate decoder agree: same locations, and as many uuids at each location as aliquots |
| JsonDecoder.DecodedPlate | lib/lims-messagebusclient/consumer/json_decoder.rb:36-51 | a decoded plate has the body's rows, columns and uuid, and as many aliquots at each location as sample uuids |
| JsonDecoder.AssignKeepsWellFormed | lib/lims-messagebusclient/consumer/json_decoder.rb:78 | `order[role] = item` sets that role, leaves the others alone, and lists every role once |
| JsonDecoder.OrderOfWellFormed | lib/lims-messagebusclient/consumer/json_decoder.rb:77-81 | the decoded order lists every role once, and exactly the roles that have an item |
| JsonDecoder.OrderRolesHaveItems | lib/lims-messagebusclient/consumer/json_decoder.rb:77-81 | every role of the order is a key of `items` |
| JsonDecoder.OrderPerRole | lib/lims-messagebusclient/consumer/json_decoder.rb:74-84 | the roles are the keys of `items` in document order, and each item carries that entry's `uuid` and `status` |
| JsonDecoder.DecodedOrder | lib/lims-messagebusclient/consumer/json_decoder.rb:74-84 | a decoded order carries the order's `uuid`, lists every role once, only roles that `items` yields, and, without repeated roles, exactly those roles in order |
| JsonDecoder.EmptyItemsArrayIsEmptyOrder | lib/lims-messagebusclient/consumer/json_decoder.rb:77 | an empty `items` array decodes as an order without roles |
| JsonDecoder.ArrayItemsDecodeAsHash | lib/lims-messagebusclient/consumer/json_decoder.rb:77 | an `items` array of `[role, settings]` pairs decodes as the hash of the same entries |
| JsonDecoder.PlateTransferWrapsPlate | lib/lims-messagebusclient/consumer/json_decoder.rb:89-92 | for every body: a transfer decodes as the plate decoder on `["plate_transfer"]["result"]`, and raises when either step cannot be taken |
| JsonDecoder.CollectSampleUuids | lib/lims-messagebusclient/consumer/json_decoder.rb:62-65 | the loop over one location's aliquots computes SampleUuidList |
| JsonDecoder.SampleUuids | lib/lims-messagebusclient/consumer/json_decoder.rb:58-69 | the `tap`/`each` loop builds exactly SampleUuidsOf, raising where it raises |
| JsonDecoder.CountAliquots | lib/lims-messagebusclient/consumer/json_decoder.rb:40-46 | the `plate[location] << Aliquot.new` loop builds exactly AliquotCounts |
| JsonDecoder.PlateJsonDecoderCall | lib/lims-messagebusclient/consumer/json_decoder.rb:36-51 | PlateJsonDecoder.call returns DecodePlate of the body |
| JsonDecoder.BuildOrder | lib/lims-messagebusclient/consumer/json_decoder.rb:77-81 | the item loop builds exactly OrderOf |
| JsonDecoder.OrderJsonDecoderCall | lib/lims-messagebusclient/consumer/json_decoder.rb:74-84 | OrderJsonDecoder.call returns DecodeOrder of the body |
| JsonDecoder.PlateTransferJsonDecoderCall | lib/lims-messagebusclient/consumer/json_decoder.rb:89-92 | PlateTransferJsonDecoder.call returns DecodePlateTransfer of the body |
| StockPlateConsumer.RoutePlate | lib/lims-messagebusclient/consumer/stock_plate_consumer.rb:61-62 | the plate handler gets exactly the keys that contain `plate` or `tuberack.create` |
| StockPlateConsumer.RouteOrder | lib/lims-messagebusclient/consumer/stock_plate_consumer.rb:61-65 | the order handler gets exactly the keys that match the order pattern and not the plate pattern |
| StockPlateConsumer.PlateTransferBranchUnreachable | lib/lims-messagebusclient/consumer/stock_plate_consumer.rb:61-68 | no key reaches the platetransfer branch |
| StockPlateConsumer.RouteNone | lib/lims-messagebusclient/consumer/stock_plate_consumer.rb:61-69 | a key gets no handler exactly when it matches neither pattern |
| StockPlateConsumer.PlateCreateKeysRoute | lib/lims-messagebusclient/consumer/stock_plate_consumer.rb:44-62 | every `*.*.plate.create` key goes to the plate handler |
| StockPlateConsumer.TubeRackCreateKeysRoute | lib/lims-messagebusclient/consumer/stock_plate_consumer.rb:44-62 | every `*.*.tuberack.create` key goes to the plate handler |
| StockPlateConsumer.PlateTransferKeysRoute | lib/lims-messagebusclient/consumer/stock_plate_consumer.rb:44-62 | every `*.*.platetransfer.platetransfer` key goes to the plate handler |
| StockPlateConsumer.OrderCreateKeysRoute | lib/lims-messagebusclient/consumer/stock_plate_consumer.rb:44-65 | `*.*.order.create` goes to the order handler when the leading words hold no `l` and no `b`, so neither `plate` nor `tuberack.create` can match |
| StockPlateConsumer.UpdateOrderKeysRoute | lib/lims-messagebusclient/consumer/stock_plate_consumer.rb:44-65 | `*.*.order.updateorder` goes to the order handler when the leading words hold no `l` and no `b` |
| StockPlateConsumer.S2Resource | lib/lims-messagebusclient/consumer/stock_plate_consumer.rb:79-83 | the first key of the body chooses the decoder, which is applied to the whole body; a first key naming no decoder raises UndefinedDecoder with the name built, and so does an empty hash; a body that is not a hash raises |
| StockPlateConsumer.PlateBody | lib/lims-messagebusclient/consumer/stock_plate_consumer.rb:79-83 | a body led by `plate` is decoded by the plate decoder |
| StockPlateConsumer.OrderBody | lib/lims-messagebusclient/consumer/stock_plate_consumer.rb:79-83 | a body led by `order` is decoded by the order decoder |
| StockPlateConsumer.PlateTransferBody | lib/lims-messagebusclient/consumer/stock_plate_consumer.rb:79-83 | a body led by `plate_transfer` is decoded by the transfer decoder |
| StockPlateConsumer.TubeRackBody | lib/lims-messagebusclient/consumer/stock_plate_consumer.rb:79-83 | a body led by `tube_rack` raises UndefinedDecoder |
| StockPlateConsumer.FirstKeyChoosesDecoder | lib/lims-messagebusclient/consumer/stock_plate_consumer.rb:79-83 | for every first field and every other field: the first key's decoder decodes the whole body, and a first key naming no decoder raises UndefinedDecoder, whatever follows |
| StockPlateConsumer.PlateMessageHandler | lib/lims-messagebusclient/consumer/stock_plate_consumer.rb:92-103 | makes one create call with the plate, uuid and sample uuids; acks iff it succeeds, requeues iff it rolls back |
| StockPlateConsumer.PlateTransferMessageHandler | lib/lims-messagebusclient/consumer/stock_plate_consumer.rb:165-176 | makes one aliquot update call; acks iff it succeeds, requeues iff it rolls back |
| StockPlateConsumer.StockItemsMembers | lib/lims-messagebusclient/consumer/stock_plate_consumer.rb:152-158 | an item is a stock item iff some stock role of the order holds it |
| StockPlateConsumer.NoStockItems | lib/lims-messagebusclient/consumer/stock_plate_consumer.rb:152-158 | there are no stock items iff the order has none of the stock roles |
| StockPlateConsumer.OtherItemsMembers | lib/lims-messagebusclient/consumer/stock_plate_consumer.rb:119 | the items handed to the deletion are exactly those of the order's non-stock roles |
| StockPlateConsumer.PromotionsOfDoneItems | lib/lims-messagebusclient/consumer/stock_plate_consumer.rb:124-127 | a uuid is promoted iff some stock item with that uuid is `done` |
| StockPlateConsumer.PromotionsArePromotions | lib/lims-messagebusclient/consumer/stock_plate_consumer.rb:124-127 | the loop only makes purpose updates, at most one per stock item |
| StockPlateConsumer.AllSucceedIff | lib/lims-messagebusclient/consumer/stock_plate_consumer.rb:123-139 | `success` stays true iff every update succeeds after the calls before it |
| StockPlateConsumer.OrderReply | lib/lims-messagebusclient/consumer/stock_plate_consumer.rb:114-147 | the deletion comes first; ack iff it succeeds and (there are no stock items, or every update succeeds); requeue iff it succeeds, there are stock items and some update fails |
| StockPlateConsumer.NoDoneNoPromotions | lib/lims-messagebusclient/consumer/stock_plate_consumer.rb:124-125 | without a `done` stock item, no update is attempted |
| StockPlateConsumer.NothingDoneIsAcked | lib/lims-messagebusclient/consumer/stock_plate_consumer.rb:122-140 | an order without a `done` stock item, whose deletion succeeds, is acked after that one call |
| StockPlateConsumer.StockPlateItems | lib/lims-messagebusclient/consumer/stock_plate_consumer.rb:152-158 | the `tap` loop collects exactly StockItemsOf |
| StockPlateConsumer.OrderMessageHandler | lib/lims-messagebusclient/consumer/stock_plate_consumer.rb:114-147 | the handler with its `success` loop gives exactly the reply and calls of OrderHandling |
| StockPlateConsumer.UndecodableBodyRaises | lib/lims-messagebusclient/consumer/stock_plate_consumer.rb:56-57 | a body that cannot be decoded raises before any handler runs |
| StockPlateConsumer.UnmatchedKeyIsIgnored | lib/lims-messagebusclient/consumer/stock_plate_consumer.rb:56-70 | a key that matches no pattern gets no reply and makes no call |
| StockPlateConsumer.TransferMessagesCreatePlates | lib/lims-messagebusclient/consumer/stock_plate_consumer.rb:61-62 | a plate transfer message is handled as a plate creation |
| StockPlateConsumer.NoAliquotUpdates | lib/lims-messagebusclient/consumer/stock_plate_consumer.rb:61-69 | no message ever leads to an aliquot update |
| SequencescapeTables.MapIdFor | lib/lims-messagebusclient/consumer/sequencescape_plate_creator.rb:171 | finds a map iff some `maps` row has that description and asset size; the id found is such a row's |
| SequencescapeTables.ResourceIdFor | lib/lims-messagebusclient/consumer/sequencescape_plate_creator.rb:190 | finds a row iff some `uuids` row has that external id; the resource id found is such a row's |
| SequencescapeTables.MappedAsset | lib/lims-messagebusclient/consumer/sequencescape_plate_creator.rb:210 | finds a plate iff some asset is named by the uuid through `uuids`; the id found is such an asset's |
| SequencescapeTables.SetPurpose | lib/lims-messagebusclient/consumer/sequencescape_plate_creator.rb:193 | the update changes no number of rows |
| SequencescapeTables.AddWellsRows | lib/lims-messagebusclient/consumer/sequencescape_plate_creator.rb:170-174 | the wells loop appends one well row per location, each with a fresh consecutive id and its location's map, and one association with the plate per well; `maps` and `uuids` do not change |
| SequencescapeTables.AddWellsSucceedsIff | lib/lims-messagebusclient/consumer/sequencescape_plate_creator.rb:170-174 | the wells loop finishes iff every location has a map for the plate's size |
| SequencescapeTables.CreatedPlateRows | lib/lims-messagebusclient/consumer/sequencescape_plate_creator.rb:162-175 | a commit appends the Unassigned plate row, its `Asset` uuid row, the well rows and the associations, and nothing else |
| SequencescapeTables.CreatedPlateSucceedsIff | lib/lims-messagebusclient/consumer/sequencescape_plate_creator.rb:162-175 | the transaction commits iff the plate can be indexed, numeric rows and columns, a hash of wells, and a map for every location |
| SequencescapeTables.AddWellsKeepsWellFormed | lib/lims-messagebusclient/consumer/sequencescape_plate_creator.rb:170-174 | the wells loop only uses ids that have already been handed out |
| SequencescapeTables.CreationKeepsWellFormed | lib/lims-messagebusclient/consumer/sequencescape_plate_creator.rb:154-176 | creation, committed or not, only uses ids that have already been handed out |
| SequencescapeTables.PromotionChangesOnlyThePurpose | lib/lims-messagebusclient/consumer/sequencescape_plate_creator.rb:189-194 | commits iff the uuid names a resource; then only that asset's purpose changes, to 2; otherwise nothing changes |
| SequencescapeTables.PromotionIdempotent | lib/lims-messagebusclient/consumer/sequencescape_plate_creator.rb:185-195 | promoting twice is the same as promoting once |
| SequencescapeTables.PromotionOfUnknownUuid | lib/lims-messagebusclient/consumer/sequencescape_plate_creator.rb:190 | an unknown uuid rolls back and changes nothing |
| SequencescapeTables.PromotionKeepsWellFormed | lib/lims-messagebusclient/consumer/sequencescape_plate_creator.rb:185-195 | promotion only uses ids that have already been handed out |
| SequencescapeTables.PromotionAfterCreation | lib/lims-messagebusclient/consumer/sequencescape_plate_creator.rb:185-195 | after a plate is created under a new uuid, promoting that uuid commits and makes the new plate row a stock plate |
| SequencescapeTables.ResourceIdOfLast | lib/lims-messagebusclient/consumer/sequencescape_plate_creator.rb:190 | a uuid row appended under a new uuid is the one the query finds |
| SequencescapeTables.DeletedPlateRows | lib/lims-messagebusclient/consumer/sequencescape_plate_creator.rb:212-220 | the intended deletion keeps exactly the assets other than the plate and its wells, the associations of other wells, and the uuid rows of other uuids; the uuid then names no plate |
| SequencescapeTables.DeleteMappedForgetsUuid | lib/lims-messagebusclient/consumer/sequencescape_plate_creator.rb:209-222 | after one item's deletion, its uuid names no plate |
| SequencescapeTables.DeleteMappedAddsNoMapping | lib/lims-messagebusclient/consumer/sequencescape_plate_creator.rb:209-222 | a deletion never makes another uuid name a plate |
| SequencescapeTables.DeleteMappedOfUnknownUuid | lib/lims-messagebusclient/consumer/sequencescape_plate_creator.rb:210-211 | a uuid that names no plate deletes nothing |
| SequencescapeTables.DeletionEscapesIff | lib/lims-messagebusclient/consumer/sequencescape_plate_creator.rb:201-225 | the loop never rolls back as a whole; it raises iff some item has no readable `uuid` |
| SequencescapeTables.DeletionUnmapsEveryItem | lib/lims-messagebusclient/consumer/sequencescape_plate_creator.rb:201-225 | when the loop finishes, no item's uuid names a plate |
| SequencescapeTables.DeletionKeepsWellFormed | lib/lims-messagebusclient/consumer/sequencescape_plate_creator.rb:201-225 | deletion only uses ids that have already been handed out |
| SequencescapeTables.PromotionKeepsMappings | lib/lims-messagebusclient/consumer/sequencescape_plate_creator.rb:185-195 | a promotion neither maps nor unmaps any uuid |
| SequencescapeTables.MappedAssetFirst | lib/lims-messagebusclient/consumer/sequencescape_plate_creator.rb:210 | the join's `first` is the earliest asset the uuid names |
| SequencescapeTables.CreatedPlateIsMapped | lib/lims-messagebusclient/consumer/sequencescape_plate_creator.rb:164-166 | after creation under a new uuid, that uuid names the new plate |
| SequencescapeTables.DeletionUndoesCreation | lib/lims-messagebusclient/consumer/sequencescape_plate_creator.rb:201-225 | deleting a plate just created under a new uuid gives back the tables from before the creation, except for the auto-increment |
| SequencescapeTables.AsWrittenKeepsCreatedPlate | lib/lims-messagebusclient/consumer/sequencescape_plate_creator.rb:213 | as written, deleting a created plate rolls back and leaves it mapped, so the tables differ from those before creation |
| SequencescapePlateCreator.PlateCreateKeysRoute | lib/lims-messagebusclient/consumer/sequencescape_plate_creator.rb:60-74 | every `*.*.plate.create` key goes to the plate handler |
| SequencescapePlateCreator.OrderCreateKeysRoute | lib/lims-messagebusclient/consumer/sequencescape_plate_creator.rb:60-77 | `*.*.order.create` goes to the order handler iff the key does not also contain `plate.create`, which holds whenever the leading words hold no `p` |
| SequencescapePlateCreator.UpdateOrderKeysRoute | lib/lims-messagebusclient/consumer/sequencescape_plate_creator.rb:60-77 | `*.*.order.updateorder` goes to the order handler iff the key does not also contain `plate.create`, which holds whenever the leading words hold no `l` |
| SequencescapePlateCreator.PlateTransferKeysRoute | lib/lims-messagebusclient/consumer/sequencescape_plate_creator.rb:60-80 | `*.*.platetransfer.platetransfer` goes to the transfer handler when the leading words hold no `c` and no `u` |
| SequencescapePlateCreator.RouteNone | lib/lims-messagebusclient/consumer/sequencescape_plate_creator.rb:70-83 | a key gets no handler iff it matches none of the four patterns |
| SequencescapePlateCreator.OtherItems | lib/lims-messagebusclient/consumer/sequencescape_plate_creator.rb:112 | `keep_if` keeps exactly the items whose role is not `WGS Stock Plate` |
| SequencescapePlateCreator.StockRoleIsNeverDeleted | lib/lims-messagebusclient/consumer/sequencescape_plate_creator.rb:112-113 | an item of an order goes to the deletion iff its role is not the stock plate's |
| SequencescapePlateCreator.OtherRoleIsDeletedWhateverItsPurpose | lib/lims-messagebusclient/consumer/sequencescape_plate_creator.rb:109-128 | after an order whose deletions commit, the uuid of every item under a non-stock role names no asset, whatever that plate's purpose |
| SequencescapePlateCreator.OrderKeepsDeletionMappings | lib/lims-messagebusclient/consumer/sequencescape_plate_creator.rb:115-125 | after the deletions, the rest of the order maps no uuid anew and unmaps none |
| SequencescapePlateCreator.OrderDecision | lib/lims-messagebusclient/consumer/sequencescape_plate_creator.rb:109-128 | once the deletions are done: with no stock item, or one whose `status` is readable and not `done`, the order is acked and the tables are those the deletions leave; with a done stock item it is acked iff the promotion commits, and requeued otherwise, keeping the deletions only |
| SequencescapePlateCreator.OrderRequeueMeansPromotionFailed | lib/lims-messagebusclient/consumer/sequencescape_plate_creator.rb:115-125 | an order is only requeued when it has a done stock item whose promotion failed |
| SequencescapePlateCreator.DeletionAddsNoUuidRow | lib/lims-messagebusclient/consumer/sequencescape_plate_creator.rb:201-225 | the deletion loop adds no uuid row |
| SequencescapePlateCreator.OrderBeforePlateIsRequeued | lib/lims-messagebusclient/consumer/sequencescape_plate_creator.rb:17-20 | a done stock plate whose uuid is not yet in Sequencescape requeues the order, and only its deletions take effect |
| SequencescapePlateCreator.TransferReplyIff | lib/lims-messagebusclient/consumer/sequencescape_plate_creator.rb:131-143 | a transfer is acked iff its plate's `uuid` and `wells` can be reached and its wells can be walked; it is never requeued |
| SequencescapePlateCreator.HashWellsWalkable | lib/lims-messagebusclient/consumer/sequencescape_plate_creator.rb:235-239 | hash wells are walked iff every location's aliquots are a list, a hash or the empty string; `nil` wells and `nil` or numeric aliquots are not |
| SequencescapePlateCreator.PlateMessageReply | lib/lims-messagebusclient/consumer/sequencescape_plate_creator.rb:89-98 | a creation message is acked iff the plate is created, and then the tables are the created ones; it is requeued iff the transaction rolls back; any other reply leaves the tables unchanged |
| SequencescapePlateCreator.ConsumptionKeepsWellFormed | lib/lims-messagebusclient/consumer/sequencescape_plate_creator.rb:70-83 | no message makes the tables use an id that has not been handed out |
| SequencescapePlateCreator.OrderHandlingKeepsWellFormed | lib/lims-messagebusclient/consumer/sequencescape_plate_creator.rb:109-128 | an order message makes the tables use no id that has not been handed out |
| SequencescapePlateCreator.StockOnlyOrderHandling | lib/lims-messagebusclient/consumer/sequencescape_plate_creator.rb:109-128 | an order holding only a done stock plate is acked iff that plate's promotion commits, and leaves the tables the promotion leaves |
| SequencescapePlateCreator.CreationThenOrderPromotes | lib/lims-messagebusclient/consumer/sequencescape_plate_creator.rb:13-16 | a plate created under a new uuid and then named as the done stock plate of an order becomes a stock plate, and both messages are acked |
| SequencescapePlateCreator.PlateCreator.constructor | lib/lims-messagebusclient/consumer/sequencescape_plate_creator.rb:43-52 | the store starts from the given tables |
| SequencescapePlateCreator.PlateCreator.Restore | lib/lims-messagebusclient/consumer/sequencescape_plate_creator.rb:151-152 | a rollback puts back the tables saved when the transaction began |
| SequencescapePlateCreator.PlateCreator.InsertAssetRow | lib/lims-messagebusclient/consumer/sequencescape_plate_creator.rb:165 | an insert appends the row under the next id and returns that id |
| SequencescapePlateCreator.PlateCreator.CreatePlateInSequencescape | lib/lims-messagebusclient/consumer/sequencescape_plate_creator.rb:154-176 | ends with the outcome and tables given by Creation |
| SequencescapePlateCreator.PlateCreator.InsertWells | lib/lims-messagebusclient/consumer/sequencescape_plate_creator.rb:170-174 | the wells loop ends in the tables given by AddWells, or restores the saved tables when some location has no map |
| SequencescapePlateCreator.PlateCreator.UpdatePlatePurposeInSequencescape | lib/lims-messagebusclient/consumer/sequencescape_plate_creator.rb:185-195 | ends with the outcome and tables given by Promotion |
| SequencescapePlateCreator.PlateCreator.DeleteUnassignedPlate | lib/lims-messagebusclient/consumer/sequencescape_plate_creator.rb:209-222 | its four deletes leave the tables given by DeleteMapped |
| SequencescapePlateCreator.PlateCreator.DeleteUnassignedPlatesInSequencescape | lib/lims-messagebusclient/consumer/sequencescape_plate_creator.rb:201-225 | the item loop ends with the outcome and tables given by Deletion |
| SequencescapePlateCreator.PlateCreator.PlateMessageHandler | lib/lims-messagebusclient/consumer/sequencescape_plate_creator.rb:89-98 | gives the reply and tables of PlateHandling |
| SequencescapePlateCreator.PlateCreator.OrderMessageHandler | lib/lims-messagebusclient/consumer/sequencescape_plate_creator.rb:109-128 | gives the reply and tables of OrderHandling |
| SequencescapePlateCreator.PlateCreator.UpdateAliquotsInSequencescape | lib/lims-messagebusclient/consumer/sequencescape_plate_creator.rb:230-245 | the loop over the wells raises iff the wells cannot be walked, and writes nothing |
| SequencescapePlateCreator.PlateCreator.PlatetransferMessageHandler | lib/lims-messagebusclient/consumer/sequencescape_plate_creator.rb:131-143 | gives the reply of TransferReply and leaves the tables alone |
| SequencescapePlateCreator.PlateCreator.Consume | lib/lims-messagebusclient/consumer/sequencescape_plate_creator.rb:70-83 | gives the reply and tables of Consumption |

## Left out

- JSON text parsing: bodies are taken as already parsed, as an ordered list of fields per object.
- Duplicate keys in a body: Ruby's parser keeps the last value, but `Json.Lookup` finds the first. The lemmas that depend on this assume distinct keys.
- Floating-point numbers in a body: numbers are integers, so `number_of_rows * number_of_columns` is exact.
- The AMQP connection, queue setup, logging (`puts`) and the MySQL connection settings. The broker answer is a value of `Broker.Reply`.
- Ruby `eval` of any constant other than the three decoders: every other built name raises UndefinedDecoder. For an empty hash the built name is `JsonDecoder`, which `eval` resolves to the enclosing module, so Ruby raises NoMethodError on `.call` instead. The handler's reply, an escaped exception, is the same.
- Text.Upper and Text.Lower map case for ASCII letters only. Ruby's `capitalize` and `downcase` also map non-ASCII letters, so a model key with such letters may build a different decoder name in Ruby.
- The SequencescapeUpdater module used by `StockPlateConsumer` is not part of this model. Its operations are an `Updater` function parameter that answers each call with success, PlateNotFound or a rollback.
- The lims-core `Plate` and `Order` classes are not part of this model. A plate is its size and the aliquot count of each location, and a location's validity is not checked.
- `wells` given as an array in create_plate_in_sequencescape: `well.first` on an array element is not modelled, and such a plate rolls back.
- JsonDecoder.DecodeOrder: an array entry of `items` whose first item is not a string is treated as malformed, whereas Ruby would use that value as the role. The same holds for `wells` in JsonDecoder.DecodePlate.
- Which exception a transaction raises: Sequel re-raises exceptions other than `Sequel::Rollback` after rolling back. The model treats every exception inside a transaction as a rollback answered by a requeue.
- SequencescapeTables.Promotion: an unknown uuid makes `.first[:resource_id]` raise NoMethodError inside the transaction. This is modelled as a rollback (requeue) rather than PlateNotFoundInSequencescape. The handler's reply is the same.
- SequencescapeTables.CreatedPlate: a string `number_of_rows` would make `*` repeat the string. The model treats any non-integer size as a rollback.
- The auto-increment of `assets` keeps its advance after a rollback in MySQL, but the model restores it together with the rows.
- The join order of the deletion query: `MappedAsset` takes the first asset in `assets` order.
- `update_aliquots_in_sequencescape` builds a query and never runs it, so the transfer handler changes no table. The query's own construction is taken never to raise.
- SequencescapePlateCreator.OrderHandling: `keep_if` also removes the stock item from the parsed message in place. The model passes the filtered items as a value instead, and nothing later reads the message.

## Findings

| source | as written | input that shows it | evidently intended | confidence | as-written member | corrected member |
|---|---|---|---|---|---|---|
| lib/lims-messagebusclient/consumer/sequencescape_plate_creator.rb:213 | the deletion transaction names `container_associations`, `id`, `wells_id` and `t_uuis`, none of which is defined, so for a mapped plate its first statement raises NameError and the transaction rolls back | an order whose non-stock item carries the uuid of a plate created earlier: the plate, its wells, links and uuid row all stay | delete the plate's wells, their associations, the plate row and its uuid row | not executed | SequencescapeTables.AsWrittenKeepsCreatedPlate | SequencescapeTables.DeletionUndoesCreation |
