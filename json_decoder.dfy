/**
 * json_decoder.rb: turns a parsed S2 message body into a resource. The
 * decoder is chosen by a constant name built from the model key; the plate
 * decoder counts the aliquots of every location and collects their sample
 * uuids, the order decoder builds role -> item, and the plate-transfer decoder
 * decodes the plate held in the transfer's `result`.
 */
module JsonDecoder {
  import opened Wrappers
  import opened Text
  import opened Json

  /** The three decoder modules the file defines. */
  datatype Decoder = PlateJsonDecoder | OrderJsonDecoder | PlateTransferJsonDecoder

  const Suffix: string := "JsonDecoder"

  /** The constant name json_decoder_for evaluates: `capitalize`, then the first `_x` becomes `X`. */
  function DecoderName(model: string): string {
    SubFirstUnderscore(Capitalize(model)) + Suffix
  }

  /** json_decoder_for: the decoder the built name denotes; any other name raises UndefinedDecoder. */
  function DecoderFor(model: string): (r: Result<Decoder, DecodeError>)
    ensures r.Ok? <==> DecoderName(model) in {"PlateJsonDecoder", "OrderJsonDecoder", "PlateTransferJsonDecoder"}
    ensures r.Fail? ==> r.error == UndefinedDecoder(DecoderName(model))
  {
    var name := DecoderName(model);
    if name == "PlateJsonDecoder" then Ok(PlateJsonDecoder)
    else if name == "OrderJsonDecoder" then Ok(OrderJsonDecoder)
    else if name == "PlateTransferJsonDecoder" then Ok(PlateTransferJsonDecoder)
    else Fail(UndefinedDecoder(name))
  }

  /** The decoder name depends on the model key only up to ASCII case. */
  lemma DecoderNameIgnoresCase(a: string, b: string)
    requires Downcase(a) == Downcase(b)
    ensures DecoderName(a) == DecoderName(b)
  {
    CapitalizeIgnoresCase(a, b);
  }

  lemma DowncaseAppend(x: string, y: string)
    ensures Downcase(x + y) == Downcase(x) + Downcase(y)
  {
    assert forall i :: 0 <= i < |x + y| ==> Downcase(x + y)[i] == (Downcase(x) + Downcase(y))[i];
  }

  /** Capitalizing `a_b` lowers everything after the first character of `a`. */
  lemma CapitalizeSnakeCase(a: string, b: string)
    requires a != [] && b != []
    ensures Capitalize(a + "_" + b) == Capitalize(a) + ['_', Lower(b[0])] + Downcase(b[1..])
  {
    var s := a + "_" + b;
    assert s[0] == a[0];
    assert s[1..] == a[1..] + (['_'] + b);
    DowncaseAppend(a[1..], ['_'] + b);
    DowncaseAppend(['_'], b);
    assert Downcase(['_']) == ['_'];
    assert Downcase(b) == [Lower(b[0])] + Downcase(b[1..]);
    calc {
      Capitalize(s);
      [Upper(a[0])] + Downcase(s[1..]);
      [Upper(a[0])] + (Downcase(a[1..]) + (['_'] + ([Lower(b[0])] + Downcase(b[1..]))));
      Capitalize(a) + ['_', Lower(b[0])] + Downcase(b[1..]);
    }
  }

  /** Lower-casing leaves text without upper-case ASCII letters alone. */
  lemma {:induction false} DowncaseOfLowercase(s: string)
    requires forall i :: 0 <= i < |s| ==> !('A' <= s[i] <= 'Z')
    ensures Downcase(s) == s
  {
    if s != [] {
      DowncaseOfLowercase(s[1..]);
    }
  }

  /** Capitalizing never introduces an underscore. */
  lemma CapitalizeKeepsUnderscoresOut(a: string)
    requires '_' !in a
    ensures '_' !in Capitalize(a)
  {
    if a != [] {
      var c := Capitalize(a);
      assert c == [Upper(a[0])] + Downcase(a[1..]);
      forall i | 0 <= i < |a| ensures c[i] != '_' {
        if i == 0 {
          assert c[0] == Upper(a[0]) && a[0] != '_';
        } else {
          assert a[1..][i - 1] == a[i] && a[i] != '_';
          assert c[i] == Lower(a[i]);
        }
      }
    }
  }

  /** A snake-case key `a_b` names the decoder `A` + `B` (camel case) + "JsonDecoder". */
  lemma SnakeCaseDecoderName(a: string, b: string)
    requires a != [] && '_' !in a && b != [] && b[0] != '\n'
    ensures DecoderName(a + "_" + b) == Capitalize(a) + [Upper(b[0])] + Downcase(b[1..]) + Suffix
  {
    CapitalizeSnakeCase(a, b);
    CapitalizeKeepsUnderscoresOut(a);
    assert Upper(Lower(b[0])) == Upper(b[0]);
    SubFirstUnderscoreAt(Capitalize(a), Lower(b[0]), Downcase(b[1..]));
  }

  /** A one-word model key names its decoder with the first letter upper-cased and the rest lower-cased. */
  lemma OneWordDecoderName(model: string, word: string, name: string)
    requires Downcase(model) == word
    requires word != [] && '_' !in word
    requires forall i :: 0 <= i < |word| ==> !('A' <= word[i] <= 'Z')
    requires name == [Upper(word[0])] + word[1..] + Suffix
    ensures DecoderName(model) == name
  {
    DowncaseOfLowercase(word);
    DecoderNameIgnoresCase(model, word);
    var camel := [Upper(word[0])] + word[1..];
    assert Capitalize(word) == camel by {
      DowncaseOfLowercase(word[1..]);
    }
    assert '_' !in camel by {
      CapitalizeKeepsUnderscoresOut(word);
    }
    SubFirstUnderscoreNone(camel);
  }

  /** A two-word snake-case model key names its decoder in camel case. */
  lemma TwoWordDecoderName(model: string, key: string, a: string, b: string, name: string)
    requires Downcase(model) == key && key == a + "_" + b
    requires a != [] && '_' !in a && b != [] && b[0] != '\n'
    requires forall i :: 0 <= i < |a| ==> !('A' <= a[i] <= 'Z')
    requires forall i :: 0 <= i < |b| ==> !('A' <= b[i] <= 'Z')
    requires name == [Upper(a[0])] + a[1..] + [Upper(b[0])] + b[1..] + Suffix
    ensures DecoderName(model) == name
  {
    DowncaseOfLowercase(key);
    DecoderNameIgnoresCase(model, key);
    SnakeCaseDecoderName(a, b);
    assert Capitalize(a) == [Upper(a[0])] + a[1..] by {
      DowncaseOfLowercase(a[1..]);
    }
    DowncaseOfLowercase(b[1..]);
  }

  /** Any spelling of `plate` builds the name PlateJsonDecoder. */
  lemma PlateDecoderName(model: string)
    requires Downcase(model) == "plate"
    ensures DecoderName(model) == "PlateJsonDecoder"
  {
    OneWordDecoderName(model, "plate", "PlateJsonDecoder");
  }

  /** A model key spelling `plate` in any case resolves to PlateJsonDecoder. */
  lemma PlateModelKey(model: string)
    requires Downcase(model) == "plate"
    ensures DecoderFor(model) == Ok(PlateJsonDecoder)
  {
    PlateDecoderName(model);
  }

  /** Any spelling of `order` builds the name OrderJsonDecoder. */
  lemma OrderDecoderName(model: string)
    requires Downcase(model) == "order"
    ensures DecoderName(model) == "OrderJsonDecoder"
  {
    OneWordDecoderName(model, "order", "OrderJsonDecoder");
  }

  /** A model key spelling `order` in any case resolves to OrderJsonDecoder. */
  lemma OrderModelKey(model: string)
    requires Downcase(model) == "order"
    ensures DecoderFor(model) == Ok(OrderJsonDecoder)
  {
    OrderDecoderName(model);
    assert "OrderJsonDecoder"[0] != "PlateJsonDecoder"[0];
  }

  /** `plate_transfer` is two lower-case words, and its camel-case decoder name is PlateTransferJsonDecoder. */
  lemma PlateTransferWords()
    ensures "plate_transfer" == "plate" + "_" + "transfer"
    ensures forall i :: 0 <= i < |"plate"| ==> !('A' <= "plate"[i] <= 'Z')
    ensures forall i :: 0 <= i < |"transfer"| ==> !('A' <= "transfer"[i] <= 'Z')
    ensures "PlateTransferJsonDecoder" == [Upper("plate"[0])] + "plate"[1..] + [Upper("transfer"[0])] + "transfer"[1..] + Suffix
  {
    assert Upper("plate"[0]) == 'P' && "plate"[1..] == "late";
    assert Upper("transfer"[0]) == 'T' && "transfer"[1..] == "ransfer";
  }

  /** Any spelling of `plate_transfer` builds the name PlateTransferJsonDecoder. */
  lemma PlateTransferDecoderName(model: string)
    requires Downcase(model) == "plate_transfer"
    ensures DecoderName(model) == "PlateTransferJsonDecoder"
  {
    PlateTransferWords();
    TwoWordDecoderName(model, "plate_transfer", "plate", "transfer", "PlateTransferJsonDecoder");
  }

  /** A model key spelling `plate_transfer` in any case resolves to PlateTransferJsonDecoder. */
  lemma PlateTransferModelKey(model: string)
    requires Downcase(model) == "plate_transfer"
    ensures DecoderFor(model) == Ok(PlateTransferJsonDecoder)
  {
    PlateTransferDecoderName(model);
    assert |"PlateTransferJsonDecoder"| != |"PlateJsonDecoder"|;
    assert "PlateTransferJsonDecoder"[0] != "OrderJsonDecoder"[0];
  }

  /** Any spelling of `tube_rack` builds the name TubeRackJsonDecoder. */
  lemma TubeRackDecoderName(model: string)
    requires Downcase(model) == "tube_rack"
    ensures DecoderName(model) == "TubeRackJsonDecoder"
  {
    TwoWordDecoderName(model, "tube_rack", "tube", "rack", "TubeRackJsonDecoder");
  }

  /** The tube rack model key names a decoder the file does not define. */
  lemma TubeRackModelKeyIsUndefined(model: string)
    requires Downcase(model) == "tube_rack"
    ensures DecoderFor(model) == Fail(UndefinedDecoder("TubeRackJsonDecoder"))
  {
    TubeRackDecoderName(model);
    assert "TubeRackJsonDecoder"[0] != "PlateJsonDecoder"[0];
    assert "TubeRackJsonDecoder"[0] != "OrderJsonDecoder"[0];
    assert "TubeRackJsonDecoder"[0] != "PlateTransferJsonDecoder"[0];
  }

  // ---------------------------------------------------------------- resources

  /** A lims-core plate as the decoder fills it: grid size as given, and how many aliquots each location holds. */
  datatype Plate = Plate(numberOfRows: Json, numberOfColumns: Json, aliquots: map<string, nat>)

  /** A lims-core order item: the plate's uuid and the item's status, copied from the payload. */
  datatype Item = Item(uuid: Json, status: Json)

  /** A lims-core order: the roles in the order they were first assigned, and the item of each role. */
  datatype Order = Order(roles: seq<string>, items: map<string, Item>)

  /** What a decoder's `call` returns: `{:plate, :uuid, :sample_uuids}` or `{:order, :uuid}`. */
  datatype Resource =
    | PlateResource(plate: Plate, uuid: Json, sampleUuids: map<string, seq<Json>>)
    | OrderResource(order: Order, uuid: Json)

  function CountAt(counts: map<string, nat>, location: string): nat {
    if location in counts then counts[location] else 0
  }

  function UuidsAt(uuids: map<string, seq<Json>>, location: string): seq<Json> {
    if location in uuids then uuids[location] else []
  }

  /** What `Hash#each` yields when the block takes one parameter: every field as a `[key, value]` array. */
  function Pairs(fields: seq<(string, Json)>): (r: seq<Json>)
    ensures |r| == |fields|
  {
    if fields == [] then [] else [JArr([JStr(fields[0].0), fields[0].1])] + Pairs(fields[1..])
  }

  /**
   * What `aliquots.empty?` followed by `aliquots.each` visits: the elements of
   * an array, the `[key, value]` pairs of a hash, nothing for the empty string;
   * any other value lacks one of the two methods and raises.
   */
  function Aliquots(v: Json): (r: Result<seq<Json>, DecodeError>)
    ensures r.Ok? <==> v.JArr? || v.JObj? || v == JStr("")
    ensures r.Ok? && v.JArr? ==> r.value == v.elems
    ensures r.Ok? && v.JObj? ==> |r.value| == |v.fields|
    ensures r.Ok? && v.JStr? ==> r.value == []
    ensures r.Fail? ==> r.error == Malformed
  {
    match v
    case JArr(elems) => Ok(elems)
    case JObj(fields) => Ok(Pairs(fields))
    case JStr(s) => if s == "" then Ok([]) else Fail(Malformed)
    case _ => Fail(Malformed)
  }

  /** The aliquot counts PlateJsonDecoder.call leaves on the plate after visiting `wells` in order. */
  function AliquotCounts(wells: seq<(string, Json)>): (r: Result<map<string, nat>, DecodeError>)
    ensures r.Fail? ==> r.error == Malformed
    decreases |wells|
  {
    if wells == [] then Ok(map[])
    else
      var counts :- AliquotCounts(wells[..|wells| - 1]);
      var list :- Aliquots(wells[|wells| - 1].1);
      var location := wells[|wells| - 1].0;
      Ok(if list == [] then counts else counts[location := CountAt(counts, location) + |list|])
  }

  /** `aliquot["sample"]["uuid"]` */
  function SampleUuid(aliquot: Json): Result<Json, DecodeError> {
    var sample :- Index(aliquot, "sample");
    Index(sample, "uuid")
  }

  /** The sample uuids of one aliquot list, in list order. */
  function SampleUuidList(aliquots: seq<Json>): (r: Result<seq<Json>, DecodeError>)
    ensures r.Ok? ==> |r.value| == |aliquots|
    ensures r.Fail? ==> r.error == Malformed
    decreases |aliquots|
  {
    if aliquots == [] then Ok([])
    else
      var front :- SampleUuidList(aliquots[..|aliquots| - 1]);
      var last :- SampleUuid(aliquots[|aliquots| - 1]);
      Ok(front + [last])
  }

  /** The sample uuids of the aliquots at one location. */
  function WellSampleUuids(aliquots: Json): Result<seq<Json>, DecodeError> {
    var list :- Aliquots(aliquots);
    SampleUuidList(list)
  }

  /** The hash PlateJsonDecoder.sample_uuids builds from `wells`, visited in order. */
  function SampleUuidsOf(wells: seq<(string, Json)>): (r: Result<map<string, seq<Json>>, DecodeError>)
    ensures r.Fail? ==> r.error == Malformed
    decreases |wells|
  {
    if wells == [] then Ok(map[])
    else
      var uuids :- SampleUuidsOf(wells[..|wells| - 1]);
      var here :- WellSampleUuids(wells[|wells| - 1].1);
      var location := wells[|wells| - 1].0;
      Ok(if here == [] then uuids else uuids[location := UuidsAt(uuids, location) + here])
  }

  /** PlateJsonDecoder.call as a function of the message body. */
  function DecodePlate(json: Json): Result<Resource, DecodeError> {
    var plateHash :- Index(json, "plate");
    var rows :- Index(plateHash, "number_of_rows");
    var columns := Index(plateHash, "number_of_columns").value;
    match EachPairs(Index(plateHash, "wells").value)
    case None => Fail(Malformed)
    case Some(wells) =>
      var counts :- AliquotCounts(wells);
      var uuid := Index(plateHash, "uuid").value;
      var samples :- SampleUuidsOf(wells);
      Ok(PlateResource(Plate(rows, columns, counts), uuid, samples))
  }

  /** `order[role] = item`: a new role is appended, a known role keeps its place and gets the new item. */
  function Assign(order: Order, role: string, item: Item): Order {
    Order(if role in order.items then order.roles else order.roles + [role], order.items[role := item])
  }

  /** Every role is listed once and the roles listed are exactly those with an item. */
  predicate WellFormedOrder(order: Order) {
    && (forall i, j :: 0 <= i < j < |order.roles| ==> order.roles[i] != order.roles[j])
    && order.items.Keys == set role | role in order.roles
  }

  /** The item of one role: `Item.new(:uuid => settings["uuid"], :status => settings["status"])`. */
  function OrderItem(settings: Json): Result<Item, DecodeError> {
    var uuid :- Index(settings, "uuid");
    var status := Index(settings, "status").value;
    Ok(Item(uuid, status))
  }

  /** The order OrderJsonDecoder.call builds from `items`, visited in order. */
  function OrderOf(items: seq<(string, Json)>): (r: Result<Order, DecodeError>)
    ensures r.Fail? ==> r.error == Malformed
    decreases |items|
  {
    if items == [] then Ok(Order([], map[]))
    else
      var order :- OrderOf(items[..|items| - 1]);
      var item :- OrderItem(items[|items| - 1].1);
      Ok(Assign(order, items[|items| - 1].0, item))
  }

  /** OrderJsonDecoder.call as a function of the message body. */
  function DecodeOrder(json: Json): Result<Resource, DecodeError> {
    var orderHash :- Index(json, "order");
    var items :- Index(orderHash, "items");
    match EachPairs(items)
    case None => Fail(Malformed)
    case Some(entries) =>
      var order :- OrderOf(entries);
      var uuid := Index(orderHash, "uuid").value;
      Ok(OrderResource(order, uuid))
  }

  /** PlateTransferJsonDecoder.call as a function of the message body. */
  function DecodePlateTransfer(json: Json): Result<Resource, DecodeError> {
    var transfer :- Index(json, "plate_transfer");
    var result :- Index(transfer, "result");
    DecodePlate(result)
  }

  /** `decoder.call(json)` for the decoder json_decoder_for returned. */
  function DecodeWith(decoder: Decoder, json: Json): Result<Resource, DecodeError> {
    match decoder
    case PlateJsonDecoder => DecodePlate(json)
    case OrderJsonDecoder => DecodeOrder(json)
    case PlateTransferJsonDecoder => DecodePlateTransfer(json)
  }

  // ---------------------------------------------------------------- failures

  /** An aliquot list the counting loop cannot walk makes the whole decoding fail with that error. */
  lemma {:induction false} AliquotCountsFailurePersists(wells: seq<(string, Json)>, i: nat)
    requires i <= |wells| && AliquotCounts(wells[..i]).Fail?
    ensures AliquotCounts(wells) == AliquotCounts(wells[..i])
    decreases |wells|
  {
    if i < |wells| {
      var n := |wells| - 1;
      assert wells[..n][..i] == wells[..i];
      AliquotCountsFailurePersists(wells[..n], i);
    } else {
      assert wells[..i] == wells;
    }
  }

  /** An aliquot without a sample uuid makes the whole list fail with that error. */
  lemma {:induction false} SampleUuidListFailurePersists(aliquots: seq<Json>, j: nat)
    requires j <= |aliquots| && SampleUuidList(aliquots[..j]).Fail?
    ensures SampleUuidList(aliquots) == SampleUuidList(aliquots[..j])
    decreases |aliquots|
  {
    if j < |aliquots| {
      var n := |aliquots| - 1;
      assert aliquots[..n][..j] == aliquots[..j];
      SampleUuidListFailurePersists(aliquots[..n], j);
    } else {
      assert aliquots[..j] == aliquots;
    }
  }

  /** A location whose sample uuids cannot be read makes the whole hash fail with that error. */
  lemma {:induction false} SampleUuidsFailurePersists(wells: seq<(string, Json)>, i: nat)
    requires i <= |wells| && SampleUuidsOf(wells[..i]).Fail?
    ensures SampleUuidsOf(wells) == SampleUuidsOf(wells[..i])
    decreases |wells|
  {
    if i < |wells| {
      var n := |wells| - 1;
      assert wells[..n][..i] == wells[..i];
      SampleUuidsFailurePersists(wells[..n], i);
    } else {
      assert wells[..i] == wells;
    }
  }

  /** An item without readable settings makes the whole order fail with that error. */
  lemma {:induction false} OrderFailurePersists(items: seq<(string, Json)>, i: nat)
    requires i <= |items| && OrderOf(items[..i]).Fail?
    ensures OrderOf(items) == OrderOf(items[..i])
    decreases |items| - i
  {
    if i < |items| {
      assert items[..i + 1][..i] == items[..i];
      OrderFailurePersists(items, i + 1);
    } else {
      assert items[..i] == items;
    }
  }

  /** The uuid list holds, in order, the sample uuid of every aliquot. */
  lemma {:induction false} SampleUuidListPointwise(aliquots: seq<Json>, uuids: seq<Json>)
    requires SampleUuidList(aliquots) == Ok(uuids)
    ensures forall k :: 0 <= k < |aliquots| ==> SampleUuid(aliquots[k]) == Ok(uuids[k])
    decreases |aliquots|
  {
    if aliquots != [] {
      var n := |aliquots| - 1;
      var front := SampleUuidList(aliquots[..n]).value;
      SampleUuidListPointwise(aliquots[..n], front);
      assert uuids == front + [SampleUuid(aliquots[n]).value];
    }
  }

  // ---------------------------------------------------------------- what the decoders build

  /** Only listed locations get aliquots, and a location that gets an entry gets at least one. */
  lemma {:induction false} AliquotCountsKeys(wells: seq<(string, Json)>, counts: map<string, nat>)
    requires AliquotCounts(wells) == Ok(counts)
    ensures forall location :: location in counts ==> counts[location] > 0 && location in FieldNames(wells)
    decreases |wells|
  {
    if wells != [] {
      var n := |wells| - 1;
      AliquotCountsKeys(wells[..n], AliquotCounts(wells[..n]).value);
      FieldNamesOfLast(wells);
    }
  }

  /** Every location of the plate carries as many aliquots as the payload lists under it. */
  lemma {:induction false} AliquotCountsPerLocation(wells: seq<(string, Json)>, counts: map<string, nat>)
    requires DistinctKeys(wells) && AliquotCounts(wells) == Ok(counts)
    ensures forall i :: 0 <= i < |wells| ==> Aliquots(wells[i].1).Ok? && CountAt(counts, wells[i].0) == |Aliquots(wells[i].1).value|
    decreases |wells|
  {
    if wells != [] {
      var n := |wells| - 1;
      var front := wells[..n];
      assert DistinctKeys(front);
      var before := AliquotCounts(front).value;
      AliquotCountsPerLocation(front, before);
      AliquotCountsKeys(front, before);
      LastNameIsNew(wells);
      assert CountAt(before, wells[n].0) == 0;
      forall i | 0 <= i < n
        ensures wells[i].0 != wells[n].0 && front[i] == wells[i]
      {
      }
    }
  }

  /** Only listed locations get sample uuids, and a location that gets an entry gets at least one. */
  lemma {:induction false} SampleUuidsKeys(wells: seq<(string, Json)>, uuids: map<string, seq<Json>>)
    requires SampleUuidsOf(wells) == Ok(uuids)
    ensures forall location :: location in uuids ==> uuids[location] != [] && location in FieldNames(wells)
    decreases |wells|
  {
    if wells != [] {
      var n := |wells| - 1;
      SampleUuidsKeys(wells[..n], SampleUuidsOf(wells[..n]).value);
      FieldNamesOfLast(wells);
    }
  }

  /** Every location lists the sample uuids of its aliquots, in aliquot order. */
  lemma {:induction false} SampleUuidsPerLocation(wells: seq<(string, Json)>, uuids: map<string, seq<Json>>)
    requires DistinctKeys(wells) && SampleUuidsOf(wells) == Ok(uuids)
    ensures forall i :: 0 <= i < |wells| ==> WellSampleUuids(wells[i].1) == Ok(UuidsAt(uuids, wells[i].0))
    decreases |wells|
  {
    if wells != [] {
      var n := |wells| - 1;
      var front := wells[..n];
      assert DistinctKeys(front);
      var before := SampleUuidsOf(front).value;
      SampleUuidsPerLocation(front, before);
      SampleUuidsKeys(front, before);
      LastNameIsNew(wells);
      assert UuidsAt(before, wells[n].0) == [];
      var here := WellSampleUuids(wells[n].1).value;
      assert uuids == if here == [] then before else before[wells[n].0 := [] + here];
      assert UuidsAt(uuids, wells[n].0) == here;
      forall i | 0 <= i < n
        ensures WellSampleUuids(wells[i].1) == Ok(UuidsAt(uuids, wells[i].0))
      {
        assert wells[i].0 != wells[n].0 && front[i] == wells[i];
        assert UuidsAt(uuids, wells[i].0) == UuidsAt(before, wells[i].0);
      }
    }
  }

  /** The plate's aliquot count at each location equals the number of sample uuids collected there. */
  lemma {:induction false} CountsMatchSampleUuids(wells: seq<(string, Json)>, counts: map<string, nat>, uuids: map<string, seq<Json>>)
    requires AliquotCounts(wells) == Ok(counts) && SampleUuidsOf(wells) == Ok(uuids)
    ensures forall location :: CountAt(counts, location) == |UuidsAt(uuids, location)|
    ensures counts.Keys == uuids.Keys
    decreases |wells|
  {
    if wells != [] {
      var n := |wells| - 1;
      var c0 := AliquotCounts(wells[..n]).value;
      var u0 := SampleUuidsOf(wells[..n]).value;
      CountsMatchSampleUuids(wells[..n], c0, u0);
      var list := Aliquots(wells[n].1).value;
      var here := WellSampleUuids(wells[n].1).value;
      assert |here| == |list|;
      var location := wells[n].0;
      if list == [] {
        assert AliquotCounts(wells) == Ok(c0);
        assert SampleUuidsOf(wells) == Ok(u0);
      } else {
        var c1: map<string, nat> := c0[location := CountAt(c0, location) + |list|];
        var u1 := u0[location := UuidsAt(u0, location) + here];
        assert AliquotCounts(wells) == Ok(c1);
        assert SampleUuidsOf(wells) == Ok(u1);
        assert counts.Keys == c0.Keys + {location};
        assert uuids.Keys == u0.Keys + {location};
        forall other
          ensures CountAt(counts, other) == |UuidsAt(uuids, other)|
        {
          if other == location {
            assert CountAt(counts, location) == CountAt(c0, location) + |list|;
            assert UuidsAt(uuids, location) == UuidsAt(u0, location) + here;
          } else {
            assert CountAt(counts, other) == CountAt(c0, other);
            assert UuidsAt(uuids, other) == UuidsAt(u0, other);
          }
        }
      }
    }
  }

  /** A decoded plate: its grid size and uuid are the payload's, and its aliquots line up with its sample uuids. */
  lemma DecodedPlate(json: Json)
    requires DecodePlate(json).Ok?
    ensures var plateHash := Index(json, "plate").value;
      var r := DecodePlate(json).value;
      && r.PlateResource?
      && r.plate.numberOfRows == Index(plateHash, "number_of_rows").value
      && r.plate.numberOfColumns == Index(plateHash, "number_of_columns").value
      && r.uuid == Index(plateHash, "uuid").value
      && (forall location :: CountAt(r.plate.aliquots, location) == |UuidsAt(r.sampleUuids, location)|)
  {
    var plateHash := Index(json, "plate").value;
    var wells := EachPairs(Index(plateHash, "wells").value).value;
    CountsMatchSampleUuids(wells, AliquotCounts(wells).value, SampleUuidsOf(wells).value);
  }

  /** `order[role] = item` keeps every role listed once and exactly the roles with an item listed. */
  lemma AssignKeepsWellFormed(order: Order, role: string, item: Item)
    requires WellFormedOrder(order)
    ensures WellFormedOrder(Assign(order, role, item))
    ensures Assign(order, role, item).items[role] == item
    ensures forall other :: other != role && other in order.items ==> Assign(order, role, item).items[other] == order.items[other]
  {
    var after := Assign(order, role, item);
    if role !in order.items {
      assert role !in order.roles;
      assert forall i :: 0 <= i < |order.roles| ==> after.roles[i] == order.roles[i];
    }
  }

  /** Every order the decoder builds is well formed. */
  lemma {:induction false} OrderOfWellFormed(items: seq<(string, Json)>, order: Order)
    requires OrderOf(items) == Ok(order)
    ensures WellFormedOrder(order)
    decreases |items|
  {
    if items != [] {
      var n := |items| - 1;
      var before := OrderOf(items[..n]).value;
      OrderOfWellFormed(items[..n], before);
      AssignKeepsWellFormed(before, items[n].0, OrderItem(items[n].1).value);
    }
  }

  /** The roles listed are the roles with an item. */
  lemma {:induction false} OrderRolesHaveItems(items: seq<(string, Json)>, order: Order)
    requires OrderOf(items) == Ok(order)
    ensures forall role :: role in order.items ==> role in FieldNames(items)
    decreases |items|
  {
    if items != [] {
      var n := |items| - 1;
      OrderRolesHaveItems(items[..n], OrderOf(items[..n]).value);
      FieldNamesOfLast(items);
    }
  }

  /** One role per entry of `items`, in document order, each holding that entry's uuid and status. */
  lemma {:induction false} OrderPerRole(items: seq<(string, Json)>, order: Order)
    requires DistinctKeys(items) && OrderOf(items) == Ok(order)
    ensures order.roles == FieldNames(items)
    ensures forall i :: 0 <= i < |items| ==> items[i].0 in order.items && Ok(order.items[items[i].0]) == OrderItem(items[i].1)
    decreases |items|
  {
    if items != [] {
      var n := |items| - 1;
      var front := items[..n];
      assert DistinctKeys(front);
      var before := OrderOf(front).value;
      OrderPerRole(front, before);
      OrderRolesHaveItems(front, before);
      LastNameIsNew(items);
      assert items[n].0 !in before.items;
      FieldNamesOfLast(items);
      forall i | 0 <= i < n
        ensures items[i].0 != items[n].0 && front[i] == items[i]
      {
      }
    }
  }

  /**
   * A decoded order: `items`, a hash or an array of `[role, settings]` pairs,
   * has entries; the order's uuid is the payload's; every role is listed
   * once and comes from an entry; with distinct roles, the roles are the
   * entries' in order.
   */
  lemma DecodedOrder(json: Json)
    requires DecodeOrder(json).Ok?
    ensures var orderHash := Index(json, "order").value;
      var entries := EachPairs(Index(orderHash, "items").value);
      var r := DecodeOrder(json).value;
      && entries.Some?
      && r.OrderResource?
      && r.uuid == Index(orderHash, "uuid").value
      && WellFormedOrder(r.order)
      && (forall role :: role in r.order.items ==> role in FieldNames(entries.value))
      && (DistinctKeys(entries.value) ==> r.order.roles == FieldNames(entries.value))
  {
    var orderHash := Index(json, "order").value;
    var entries := EachPairs(Index(orderHash, "items").value).value;
    var order := OrderOf(entries).value;
    OrderOfWellFormed(entries, order);
    OrderRolesHaveItems(entries, order);
    if DistinctKeys(entries) {
      OrderPerRole(entries, order);
    }
  }

  /** An order whose `items` is an empty array decodes, with no roles. */
  lemma EmptyItemsArrayIsEmptyOrder(uuid: Json)
    ensures DecodeOrder(JObj([("order", JObj([("uuid", uuid), ("items", JArr([]))]))])) == Ok(OrderResource(Order([], map[]), uuid))
  {
    var orderHash := JObj([("uuid", uuid), ("items", JArr([]))]);
    assert "uuid"[0] != "items"[0];
    assert orderHash.fields[1..] == [("items", JArr([]))];
    assert Lookup(orderHash.fields, "items") == Lookup([("items", JArr([]))], "items");
    assert Index(orderHash, "items") == Ok(JArr([]));
    assert Index(orderHash, "uuid") == Ok(uuid);
  }

  /** An `items` array of `[role, settings]` pairs decodes as the hash of the same pairs would. */
  lemma ArrayItemsDecodeAsHash(json: Json, other: Json, elems: seq<Json>, entries: seq<(string, Json)>)
    requires Index(json, "order").Ok? && Index(other, "order").Ok?
    requires Index(Index(json, "order").value, "items") == Ok(JArr(elems))
    requires Index(Index(other, "order").value, "items") == Ok(JObj(entries))
    requires Index(Index(json, "order").value, "uuid") == Index(Index(other, "order").value, "uuid")
    requires ArrayEntries(elems) == Some(entries)
    ensures DecodeOrder(json) == DecodeOrder(other)
  {
  }

  /** The plate-transfer decoder is the plate decoder applied to `result` inside `plate_transfer`, and fails when that cannot be reached. */
  lemma PlateTransferWrapsPlate(json: Json)
    ensures Index(json, "plate_transfer").Fail? ==> DecodePlateTransfer(json) == Fail(Malformed)
    ensures Index(json, "plate_transfer").Ok? ==>
      var transfer := Index(json, "plate_transfer").value;
      && (Index(transfer, "result").Fail? ==> DecodePlateTransfer(json) == Fail(Malformed))
      && (Index(transfer, "result").Ok? ==> DecodePlateTransfer(json) == DecodePlate(Index(transfer, "result").value))
  {
  }

  // ---------------------------------------------------------------- the decoders' call methods

  /** The inner loop of PlateJsonDecoder.sample_uuids: the sample uuid of each aliquot at one location, in order. */
  method CollectSampleUuids(aliquots: seq<Json>) returns (r: Result<seq<Json>, DecodeError>)
    ensures r == SampleUuidList(aliquots)
  {
    var here: seq<Json> := [];
    var j := 0;
    while j < |aliquots|
      invariant 0 <= j <= |aliquots|
      invariant SampleUuidList(aliquots[..j]) == Ok(here)
    {
      assert aliquots[..j + 1][..j] == aliquots[..j];
      var uuid := SampleUuid(aliquots[j]);
      if uuid.Fail? {
        SampleUuidListFailurePersists(aliquots, j + 1);
        return Fail(uuid.error);
      }
      here := here + [uuid.value];
      j := j + 1;
    }
    assert aliquots[..j] == aliquots;
    return Ok(here);
  }

  /** PlateJsonDecoder.sample_uuids: walks the locations, appending the sample uuids found at each. */
  method SampleUuids(wells: seq<(string, Json)>) returns (r: Result<map<string, seq<Json>>, DecodeError>)
    ensures r == SampleUuidsOf(wells)
  {
    var uuids: map<string, seq<Json>> := map[];
    var i := 0;
    while i < |wells|
      invariant 0 <= i <= |wells|
      invariant SampleUuidsOf(wells[..i]) == Ok(uuids)
    {
      var (location, aliquots) := wells[i];
      assert wells[..i + 1][..i] == wells[..i];
      var list := Aliquots(aliquots);
      var here: Result<seq<Json>, DecodeError> := Fail(Malformed);
      if list.Ok? {
        here := CollectSampleUuids(list.value);
      }
      if here.Fail? {
        SampleUuidsFailurePersists(wells, i + 1);
        return Fail(here.error);
      }
      if here.value != [] {
        uuids := uuids[location := UuidsAt(uuids, location) + here.value];
      }
      i := i + 1;
    }
    assert wells[..i] == wells;
    return Ok(uuids);
  }

  /** The `plate[location] << Aliquot.new` loop of PlateJsonDecoder.call: one aliquot per listed aliquot. */
  method CountAliquots(wells: seq<(string, Json)>) returns (r: Result<map<string, nat>, DecodeError>)
    ensures r == AliquotCounts(wells)
  {
    var counts: map<string, nat> := map[];
    var i := 0;
    while i < |wells|
      invariant 0 <= i <= |wells|
      invariant AliquotCounts(wells[..i]) == Ok(counts)
    {
      var (location, aliquots) := wells[i];
      assert wells[..i + 1][..i] == wells[..i];
      var list := Aliquots(aliquots);
      if list.Fail? {
        AliquotCountsFailurePersists(wells, i + 1);
        return Fail(list.error);
      }
      var before := counts;
      var j := 0;
      while j < |list.value|
        invariant 0 <= j <= |list.value|
        invariant counts == if j == 0 then before else before[location := CountAt(before, location) + j]
      {
        counts := counts[location := CountAt(counts, location) + 1];
        j := j + 1;
      }
      i := i + 1;
    }
    assert wells[..i] == wells;
    return Ok(counts);
  }

  /** PlateJsonDecoder.call: the plate with its aliquots, its uuid and the sample uuids. */
  method PlateJsonDecoderCall(json: Json) returns (r: Result<Resource, DecodeError>)
    ensures r == DecodePlate(json)
  {
    var plateHash :- Index(json, "plate");
    var rows :- Index(plateHash, "number_of_rows");
    var columns := Index(plateHash, "number_of_columns").value;
    var wells := EachPairs(Index(plateHash, "wells").value);
    if wells.None? {
      return Fail(Malformed);
    }
    var counts :- CountAliquots(wells.value);
    var uuid := Index(plateHash, "uuid").value;
    var samples :- SampleUuids(wells.value);
    return Ok(PlateResource(Plate(rows, columns, counts), uuid, samples));
  }

  /** The `order[role] = item` loop of OrderJsonDecoder.call, over `items` in order. */
  method BuildOrder(items: seq<(string, Json)>) returns (r: Result<Order, DecodeError>)
    ensures r == OrderOf(items)
  {
    var order := Order([], map[]);
    var i := 0;
    while i < |items|
      invariant 0 <= i <= |items|
      invariant OrderOf(items[..i]) == Ok(order)
    {
      var (role, settings) := items[i];
      assert items[..i + 1][..i] == items[..i];
      var item := OrderItem(settings);
      if item.Fail? {
        OrderFailurePersists(items, i + 1);
        return Fail(item.error);
      }
      order := Assign(order, role, item.value);
      i := i + 1;
    }
    assert items[..i] == items;
    return Ok(order);
  }

  /** OrderJsonDecoder.call: the order built from `items` and the order's uuid. */
  method OrderJsonDecoderCall(json: Json) returns (r: Result<Resource, DecodeError>)
    ensures r == DecodeOrder(json)
  {
    var orderHash :- Index(json, "order");
    var items :- Index(orderHash, "items");
    var entries := EachPairs(items);
    if entries.None? {
      return Fail(Malformed);
    }
    var order :- BuildOrder(entries.value);
    var uuid := Index(orderHash, "uuid").value;
    return Ok(OrderResource(order, uuid));
  }

  /** PlateTransferJsonDecoder.call: the plate decoder applied to the transfer's `result`. */
  method PlateTransferJsonDecoderCall(json: Json) returns (r: Result<Resource, DecodeError>)
    ensures r == DecodePlateTransfer(json)
  {
    var transfer :- Index(json, "plate_transfer");
    var result :- Index(transfer, "result");
    r := PlateJsonDecoderCall(result);
  }
}
