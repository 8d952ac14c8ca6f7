/** The event emitter's mapping: it decodes the structured payload of an `EventLog`,
    `EventLog1` or `EventLog2` event into fourteen flat sequences and assembles the
    record that is handed to the store. */
module EventEmitter {
  import opened Sequences
  import opened GraphTs
  import opened EventTypes

  /** `bytesToString`: the hexadecimal rendering of a byte string. */
  function BytesToString(lib: Library, bytes: Bytes): (hex: string)
  {
    lib.toHex(bytes)
  }

  /** The `value` arrays of a sequence of array items, in order. */
  function Values<T>(struct: seq<ArrayItem<T>>): (r: seq<seq<T>>)
    ensures |r| == |struct|
    ensures forall k :: 0 <= k < |struct| ==> r[k] == struct[k].value
  {
    Map((item: ArrayItem<T>) => item.value, struct)
  }

  /** The `value` of each scalar item, in order (`items.map(item => item.value)`). */
  function ItemValues<T>(items: seq<Item<T>>): (r: seq<T>)
    ensures |r| == |items|
    ensures forall k :: 0 <= k < |items| ==> r[k] == items[k].value
  {
    Map((item: Item<T>) => item.value, items)
  }

  /** `extractAddressesFromStruct`, `extractBigIntFromStruct`, `extractBytesFromStruct`
      and `extractStringFromStruct`, which differ only in their element type: the
      accumulator is extended by each array item's `value`, first to last. */
  method ExtractValues<T>(struct: seq<ArrayItem<T>>) returns (values: seq<T>)
    ensures values == Concat(Values(struct))
    ensures |values| == SumLengths(Values(struct))
  {
    values := [];
    ghost var inner := Values(struct);
    for i := 0 to |struct|
      invariant values == Concat(inner[..i])
    {
      ConcatSnoc(inner, i);
      values := values + struct[i].value;
    }
    assert inner[..|struct|] == inner;
  }

  /** `flatten`: the accumulator is extended by each inner array, first to last. */
  method Flatten<T>(arrays: seq<seq<T>>) returns (flattened: seq<T>)
    ensures flattened == Concat(arrays)
    ensures |flattened| == SumLengths(arrays)
  {
    flattened := [];
    for i := 0 to |arrays|
      invariant flattened == Concat(arrays[..i])
    {
      ConcatSnoc(arrays, i);
      flattened := flattened + arrays[i];
    }
    assert arrays[..|arrays|] == arrays;
  }

  /** `bigIntToBytesArray`: each integer through the library's hex byte encoding. */
  function BigIntToBytesArray(lib: Library, bigInts: seq<BigInt>): (r: seq<Bytes>)
    ensures |r| == |bigInts|
    ensures forall k :: 0 <= k < |bigInts| ==> r[k] == lib.hexBytes(bigInts[k])
  {
    Map(lib.hexBytes, bigInts)
  }

  /** `stringArrayToBytesArray`: each string through UTF-8 encoding. */
  function StringArrayToBytesArray(lib: Library, strings: seq<string>): (r: seq<Bytes>)
    ensures |r| == |strings|
    ensures forall k :: 0 <= k < |strings| ==> r[k] == lib.fromUTF8(strings[k])
  {
    Map(lib.fromUTF8, strings)
  }

  /** The boolean items, or the boolean array items, each mapped to the library's
      encoding of the i32 value 1 or 0 (`item.value ? 1 : 0`). */
  function BoolItemsToBytes(lib: Library, items: seq<Item<bool>>): (r: seq<Bytes>)
    ensures |r| == |items|
    ensures forall k :: 0 <= k < |items| ==> r[k] == lib.fromI32(if items[k].value then 1 else 0)
  {
    Map((item: Item<bool>) => lib.fromI32(if item.value then 1 else 0), items)
  }

  /** The string array items, each array of strings converted to byte strings
      (`arrayItems.map(item => stringArrayToBytesArray(item.value))`). */
  function StringArrayItemsToBytes(lib: Library, arrayItems: seq<ArrayItem<string>>): (r: seq<seq<Bytes>>)
    ensures |r| == |arrayItems|
    ensures forall k :: 0 <= k < |arrayItems| ==> r[k] == StringArrayToBytesArray(lib, arrayItems[k].value)
  {
    Map((item: ArrayItem<string>) => StringArrayToBytesArray(lib, item.value), arrayItems)
  }

  /** Converting each string array and then flattening gives the same sequence as
      extracting all strings in order and converting them one by one. */
  lemma {:induction false} FlattenConvertedStrings(lib: Library, arrayItems: seq<ArrayItem<string>>)
    ensures Concat(StringArrayItemsToBytes(lib, arrayItems))
         == StringArrayToBytesArray(lib, Concat(Values(arrayItems)))
    ensures SumLengths(StringArrayItemsToBytes(lib, arrayItems)) == SumLengths(Values(arrayItems))
  {
    var converted := StringArrayItemsToBytes(lib, arrayItems);
    MapConcat(lib.fromUTF8, Values(arrayItems));
    assert converted == Map(s => Map(lib.fromUTF8, s), Values(arrayItems));
  }

  /** The fourteen decoded sequences of one payload, as every handler computes them. */
  function DecodePayload(lib: Library, d: EventData): (r: DecodedData)
    // scalar items: one output per item, derived from that item's value only
    ensures |r.addressItems| == |d.addressItems.items|
    ensures forall k :: 0 <= k < |d.addressItems.items| ==> r.addressItems[k] == d.addressItems.items[k].value
    ensures |r.uintItems| == |d.uintItems.items|
    ensures forall k :: 0 <= k < |d.uintItems.items| ==> r.uintItems[k] == lib.hexBytes(d.uintItems.items[k].value)
    ensures |r.intItems| == |d.intItems.items|
    ensures forall k :: 0 <= k < |d.intItems.items| ==> r.intItems[k] == lib.hexBytes(d.intItems.items[k].value)
    ensures |r.boolItems| == |d.boolItems.items|
    ensures forall k :: 0 <= k < |d.boolItems.items| ==>
              r.boolItems[k] == lib.fromI32(if d.boolItems.items[k].value then 1 else 0)
    ensures |r.bytes32Items| == |d.bytes32Items.items|
    ensures forall k :: 0 <= k < |d.bytes32Items.items| ==> r.bytes32Items[k] == d.bytes32Items.items[k].value
    ensures |r.bytesItems| == |d.bytesItems.items|
    ensures forall k :: 0 <= k < |d.bytesItems.items| ==> r.bytesItems[k] == d.bytesItems.items[k].value
    ensures |r.stringItems| == |d.stringItems.items|
    ensures forall k :: 0 <= k < |d.stringItems.items| ==> r.stringItems[k] == lib.fromUTF8(d.stringItems.items[k].value)
    // boolean array items: mapped one to one, not flattened
    ensures |r.boolArrayItems| == |d.boolItems.arrayItems|
    ensures forall k :: 0 <= k < |d.boolItems.arrayItems| ==>
              r.boolArrayItems[k] == lib.fromI32(if d.boolItems.arrayItems[k].value then 1 else 0)
    // other array items: as many outputs as values across all array items
    ensures |r.addressArrayItems| == SumLengths(Values(d.addressItems.arrayItems))
    ensures |r.uintArrayItems| == SumLengths(Values(d.uintItems.arrayItems))
    ensures |r.intArrayItems| == SumLengths(Values(d.intItems.arrayItems))
    ensures |r.bytes32ArrayItems| == SumLengths(Values(d.bytes32Items.arrayItems))
    ensures |r.bytesArrayItems| == SumLengths(Values(d.bytesItems.arrayItems))
    ensures |r.stringArrayItems| == SumLengths(Values(d.stringItems.arrayItems))
    // the string array items are the extracted strings, each UTF-8 encoded
    ensures r.stringArrayItems == StringArrayToBytesArray(lib, Concat(Values(d.stringItems.arrayItems)))
  {
    FlattenConvertedStrings(lib, d.stringItems.arrayItems);
    DecodedData(
      addressItems := ItemValues(d.addressItems.items),
      addressArrayItems := Concat(Values(d.addressItems.arrayItems)),
      uintItems := BigIntToBytesArray(lib, ItemValues(d.uintItems.items)),
      uintArrayItems := BigIntToBytesArray(lib, Concat(Values(d.uintItems.arrayItems))),
      intItems := BigIntToBytesArray(lib, ItemValues(d.intItems.items)),
      intArrayItems := BigIntToBytesArray(lib, Concat(Values(d.intItems.arrayItems))),
      boolItems := BoolItemsToBytes(lib, d.boolItems.items),
      boolArrayItems := BoolItemsToBytes(lib, d.boolItems.arrayItems),
      bytes32Items := ItemValues(d.bytes32Items.items),
      bytes32ArrayItems := Concat(Values(d.bytes32Items.arrayItems)),
      bytesItems := ItemValues(d.bytesItems.items),
      bytesArrayItems := Concat(Values(d.bytesItems.arrayItems)),
      stringItems := StringArrayToBytesArray(lib, ItemValues(d.stringItems.items)),
      stringArrayItems := Concat(StringArrayItemsToBytes(lib, d.stringItems.arrayItems)))
  }

  /** Where value j of array item i lands in a flattened array-items output: after all
      values of the array items before it. */
  function Position<T>(arrayItems: seq<ArrayItem<T>>, i: nat, j: nat): (p: nat)
    requires i <= |arrayItems|
  {
    SumLengths(Values(arrayItems)[..i]) + j
  }

  /** Order preservation of a flattened array-items output. */
  lemma ExtractedAt<T>(arrayItems: seq<ArrayItem<T>>, i: nat, j: nat)
    requires i < |arrayItems| && j < |arrayItems[i].value|
    ensures Position(arrayItems, i, j) < |Concat(Values(arrayItems))|
    ensures Concat(Values(arrayItems))[Position(arrayItems, i, j)] == arrayItems[i].value[j]
  {
    ConcatAt(Values(arrayItems), i, j);
  }

  /** The categories whose array items are flattened without conversion. */
  datatype PassThroughCategory = AddressCategory | Bytes32Category | BytesCategory

  /** The array items of a pass-through category. */
  function PassThroughArrayItems(d: EventData, c: PassThroughCategory): (arrayItems: seq<ArrayItem<Bytes>>)
  {
    match c
    case AddressCategory => d.addressItems.arrayItems
    case Bytes32Category => d.bytes32Items.arrayItems
    case BytesCategory => d.bytesItems.arrayItems
  }

  /** The decoded array-items output of a pass-through category. */
  function PassThroughOutput(r: DecodedData, c: PassThroughCategory): (out: seq<Bytes>)
  {
    match c
    case AddressCategory => r.addressArrayItems
    case Bytes32Category => r.bytes32ArrayItems
    case BytesCategory => r.bytesArrayItems
  }

  /** The address, bytes32 and bytes array-items outputs keep the order of the payload:
      value j of array item i is at `Position(arrayItems, i, j)`, unchanged. */
  lemma PassThroughArrayItemsInOrder(lib: Library, d: EventData, c: PassThroughCategory, i: nat, j: nat)
    requires i < |PassThroughArrayItems(d, c)| && j < |PassThroughArrayItems(d, c)[i].value|
    ensures Position(PassThroughArrayItems(d, c), i, j) < |PassThroughOutput(DecodePayload(lib, d), c)|
    ensures PassThroughOutput(DecodePayload(lib, d), c)[Position(PassThroughArrayItems(d, c), i, j)]
         == PassThroughArrayItems(d, c)[i].value[j]
  {
    ExtractedAt(PassThroughArrayItems(d, c), i, j);
  }

  /** The categories whose array items are flattened and then hex encoded. */
  datatype IntegerCategory = UintCategory | IntCategory

  /** The array items of an integer category. */
  function IntegerArrayItems(d: EventData, c: IntegerCategory): (arrayItems: seq<ArrayItem<BigInt>>)
  {
    match c
    case UintCategory => d.uintItems.arrayItems
    case IntCategory => d.intItems.arrayItems
  }

  /** The decoded array-items output of an integer category. */
  function IntegerOutput(r: DecodedData, c: IntegerCategory): (out: seq<Bytes>)
  {
    match c
    case UintCategory => r.uintArrayItems
    case IntCategory => r.intArrayItems
  }

  /** The uint and int array-items outputs keep the order of the payload: value j of
      array item i is at `Position(arrayItems, i, j)`, through the hex byte encoding. */
  lemma IntegerArrayItemsInOrder(lib: Library, d: EventData, c: IntegerCategory, i: nat, j: nat)
    requires i < |IntegerArrayItems(d, c)| && j < |IntegerArrayItems(d, c)[i].value|
    ensures Position(IntegerArrayItems(d, c), i, j) < |IntegerOutput(DecodePayload(lib, d), c)|
    ensures IntegerOutput(DecodePayload(lib, d), c)[Position(IntegerArrayItems(d, c), i, j)]
         == lib.hexBytes(IntegerArrayItems(d, c)[i].value[j])
  {
    ExtractedAt(IntegerArrayItems(d, c), i, j);
  }

  /** The string array-items output keeps the order of the payload: value j of array
      item i is at `Position(arrayItems, i, j)`, UTF-8 encoded. */
  lemma StringArrayItemsInOrder(lib: Library, d: EventData, i: nat, j: nat)
    requires i < |d.stringItems.arrayItems| && j < |d.stringItems.arrayItems[i].value|
    ensures Position(d.stringItems.arrayItems, i, j) < |DecodePayload(lib, d).stringArrayItems|
    ensures DecodePayload(lib, d).stringArrayItems[Position(d.stringItems.arrayItems, i, j)]
         == lib.fromUTF8(d.stringItems.arrayItems[i].value[j])
  {
    ExtractedAt(d.stringItems.arrayItems, i, j);
  }

  /** A string array item `{ value: ["x", "yz"] }` decodes to the two encodings in order. */
  lemma StringArrayItemsExample(lib: Library, d: EventData)
    requires d.stringItems.arrayItems == [ArrayItem("a", ["x", "yz"])]
    ensures DecodePayload(lib, d).stringArrayItems == [lib.fromUTF8("x"), lib.fromUTF8("yz")]
  {
    var ai := d.stringItems.arrayItems;
    assert Values(ai) == [["x", "yz"]];
    assert Values(ai)[..0] == [];
    assert Concat(Values(ai)) == ["x", "yz"];
  }

  /** An empty payload decodes to fourteen empty sequences. */
  lemma EmptyPayload(lib: Library, d: EventData)
    requires d == EventData(Bucket([], []), Bucket([], []), Bucket([], []), BoolBucket([], []),
                            Bucket([], []), Bucket([], []), Bucket([], []))
    ensures DecodePayload(lib, d) == DecodedData([], [], [], [], [], [], [], [], [], [], [], [], [], [])
  {
  }

  /** The decoding step shared by the three handlers: the loops compute the decoded
      payload. */
  method DecodeEventData(lib: Library, d: EventData) returns (decoded: DecodedData)
    ensures decoded == DecodePayload(lib, d)
  {
    var addressArrayItems := ExtractValues(d.addressItems.arrayItems);
    var uintArrayItems := ExtractValues(d.uintItems.arrayItems);
    var intArrayItems := ExtractValues(d.intItems.arrayItems);
    var bytes32ArrayItems := ExtractValues(d.bytes32Items.arrayItems);
    var bytesArrayItems := ExtractValues(d.bytesItems.arrayItems);
    var stringArrayItems := Flatten(StringArrayItemsToBytes(lib, d.stringItems.arrayItems));
    decoded := DecodedData(
      addressItems := ItemValues(d.addressItems.items),
      addressArrayItems := addressArrayItems,
      uintItems := BigIntToBytesArray(lib, ItemValues(d.uintItems.items)),
      uintArrayItems := BigIntToBytesArray(lib, uintArrayItems),
      intItems := BigIntToBytesArray(lib, ItemValues(d.intItems.items)),
      intArrayItems := BigIntToBytesArray(lib, intArrayItems),
      boolItems := BoolItemsToBytes(lib, d.boolItems.items),
      boolArrayItems := BoolItemsToBytes(lib, d.boolItems.arrayItems),
      bytes32Items := ItemValues(d.bytes32Items.items),
      bytes32ArrayItems := bytes32ArrayItems,
      bytesItems := ItemValues(d.bytesItems.items),
      bytesArrayItems := bytesArrayItems,
      stringItems := StringArrayToBytesArray(lib, ItemValues(d.stringItems.items)),
      stringArrayItems := stringArrayItems);
  }

  /** The entity id: the transaction hash followed by the encoding of the narrowed log
      index (`transaction.hash.concatI32(logIndex.toI32())`). */
  function RecordId(lib: Library, transactionHash: Bytes, logIndex: BigInt): (id: Bytes)
    ensures |transactionHash| <= |id| && id[..|transactionHash|] == transactionHash
  {
    ConcatI32(lib, transactionHash, lib.toI32(logIndex))
  }

  /** The fields every handler sets the same way: id, header, decoded payload and
      provenance. */
  predicate Populated(lib: Library, event: Event, entity: EventRecord)
  {
    && entity.id == RecordId(lib, event.transactionHash, event.logIndex)
    && entity.msgSender == event.msgSender
    && entity.eventName == event.eventName
    && entity.eventNameHash == lib.toHex(event.eventNameHash)
    && entity.data == DecodePayload(lib, event.eventData)
    && entity.blockNumber == event.blockNumber
    && entity.blockTimestamp == event.blockTimestamp
    && entity.transactionHash == event.transactionHash
  }

  /** The record a handler assembles from an event, given the entity type it creates
      and the topics that type has. */
  function BuildRecord(lib: Library, event: Event, entityType: EntityType,
                       topic1: Option<Address>, topic2: Option<Address>): (r: EventRecord)
    ensures Populated(lib, event, r)
    ensures r.entityType == entityType && r.topic1 == topic1 && r.topic2 == topic2
  {
    EventRecord(
      entityType := entityType,
      id := RecordId(lib, event.transactionHash, event.logIndex),
      msgSender := event.msgSender,
      eventName := event.eventName,
      eventNameHash := BytesToString(lib, event.eventNameHash),
      topic1 := topic1,
      topic2 := topic2,
      data := DecodePayload(lib, event.eventData),
      blockNumber := event.blockNumber,
      blockTimestamp := event.blockTimestamp,
      transactionHash := event.transactionHash)
  }

  /** `handleEventLog`: a new `EventLog` entity, with no topic. */
  method HandleEventLog(lib: Library, event: Event) returns (entity: EventRecord)
    ensures Populated(lib, event, entity)
    ensures entity.entityType == EventLogEntity
    ensures entity.topic1 == None && entity.topic2 == None
    ensures entity == BuildRecord(lib, event, EventLogEntity, None, None)
  {
    var id := RecordId(lib, event.transactionHash, event.logIndex);
    var data := DecodeEventData(lib, event.eventData);
    entity := EventRecord(
      entityType := EventLogEntity,
      id := id,
      msgSender := event.msgSender,
      eventName := event.eventName,
      eventNameHash := BytesToString(lib, event.eventNameHash),
      topic1 := None,
      topic2 := None,
      data := data,
      blockNumber := event.blockNumber,
      blockTimestamp := event.blockTimestamp,
      transactionHash := event.transactionHash);
  }

  /** `handleEventLog1`: a new `EventLog1` entity, carrying `topic1` from the event. */
  method HandleEventLog1(lib: Library, event: Event, topic1: Address) returns (entity: EventRecord)
    ensures Populated(lib, event, entity)
    ensures entity.entityType == EventLog1Entity
    ensures entity.topic1 == Some(topic1) && entity.topic2 == None
    ensures entity == BuildRecord(lib, event, EventLog1Entity, Some(topic1), None)
  {
    var id := RecordId(lib, event.transactionHash, event.logIndex);
    var data := DecodeEventData(lib, event.eventData);
    entity := EventRecord(
      entityType := EventLog1Entity,
      id := id,
      msgSender := event.msgSender,
      eventName := event.eventName,
      eventNameHash := BytesToString(lib, event.eventNameHash),
      topic1 := Some(topic1),
      topic2 := None,
      data := data,
      blockNumber := event.blockNumber,
      blockTimestamp := event.blockTimestamp,
      transactionHash := event.transactionHash);
  }

  /** `handleEventLog2`: a new `EventLog2` entity, carrying `topic1` and `topic2` from the
      event. */
  method HandleEventLog2(lib: Library, event: Event, topic1: Address, topic2: Address) returns (entity: EventRecord)
    ensures Populated(lib, event, entity)
    ensures entity.entityType == EventLog2Entity
    ensures entity.topic1 == Some(topic1) && entity.topic2 == Some(topic2)
    ensures entity == BuildRecord(lib, event, EventLog2Entity, Some(topic1), Some(topic2))
  {
    var id := RecordId(lib, event.transactionHash, event.logIndex);
    var data := DecodeEventData(lib, event.eventData);
    entity := EventRecord(
      entityType := EventLog2Entity,
      id := id,
      msgSender := event.msgSender,
      eventName := event.eventName,
      eventNameHash := BytesToString(lib, event.eventNameHash),
      topic1 := Some(topic1),
      topic2 := Some(topic2),
      data := data,
      blockNumber := event.blockNumber,
      blockTimestamp := event.blockTimestamp,
      transactionHash := event.transactionHash);
  }

  /** Records built from one event are equal once their entity type and topics are
      cleared: the three variants differ in those only. */
  lemma VariantsDifferOnlyInTopics(lib: Library, event: Event,
                                   entityType: EntityType, topic1: Option<Address>, topic2: Option<Address>,
                                   otherType: EntityType, otherTopic1: Option<Address>, otherTopic2: Option<Address>)
    ensures BuildRecord(lib, event, entityType, topic1, topic2).(entityType := EventLogEntity, topic1 := None, topic2 := None)
         == BuildRecord(lib, event, otherType, otherTopic1, otherTopic2).(entityType := EventLogEntity, topic1 := None, topic2 := None)
  {
  }

  /** Two events of the same variant with the same transaction hash and log index give
      records with the same entity type and the same id, so the store replaces the first
      with the second, whatever their payloads. */
  lemma SameLogSameId(lib: Library, e1: Event, e2: Event, entityType: EntityType,
                      topic1: Option<Address>, topic2: Option<Address>,
                      otherTopic1: Option<Address>, otherTopic2: Option<Address>)
    requires e1.transactionHash == e2.transactionHash && e1.logIndex == e2.logIndex
    ensures BuildRecord(lib, e1, entityType, topic1, topic2).entityType
         == BuildRecord(lib, e2, entityType, otherTopic1, otherTopic2).entityType
    ensures BuildRecord(lib, e1, entityType, topic1, topic2).id
         == BuildRecord(lib, e2, entityType, otherTopic1, otherTopic2).id
  {
  }
}
