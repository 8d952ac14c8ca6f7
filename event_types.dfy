/** The shapes the emitter consumes and produces: the structured event payload with its
    seven typed categories, the inbound event, the fourteen decoded sequences and the
    stored record. They stand for the generated ABI bindings and the generated schema
    entities. */
module EventTypes {
  import opened GraphTs

  datatype Option<T> = None | Some(value: T)

  /** A named scalar: `{ key, value }`. */
  datatype Item<T> = Item(key: string, value: T)

  /** A named array of scalars: `{ key, value[] }`. */
  datatype ArrayItem<T> = ArrayItem(key: string, value: seq<T>)

  /** One category of the payload: its scalar items and its array items. */
  datatype Bucket<T> = Bucket(items: seq<Item<T>>, arrayItems: seq<ArrayItem<T>>)

  /** The boolean category: its array items each carry a single boolean, which is how
      the emitter reads them (`item.value ? 1 : 0`). */
  datatype BoolBucket = BoolBucket(items: seq<Item<bool>>, arrayItems: seq<Item<bool>>)

  /** `eventData`: one bucket per category. */
  datatype EventData = EventData(
    addressItems: Bucket<Address>,
    uintItems: Bucket<BigInt>,
    intItems: Bucket<BigInt>,
    boolItems: BoolBucket,
    bytes32Items: Bucket<Bytes>,
    bytesItems: Bucket<Bytes>,
    stringItems: Bucket<string>)

  /** The parts of an `EventLog`, `EventLog1` or `EventLog2` event that all three share:
      the event parameters other than the topics, the block and the transaction. */
  datatype Event = Event(
    msgSender: Address,
    eventName: string,
    eventNameHash: Bytes,
    eventData: EventData,
    blockNumber: BigInt,
    blockTimestamp: BigInt,
    transactionHash: Bytes,
    logIndex: BigInt)

  /** The fourteen `eventData_*` fields of a stored record. */
  datatype DecodedData = DecodedData(
    addressItems: seq<Address>,
    addressArrayItems: seq<Address>,
    uintItems: seq<Bytes>,
    uintArrayItems: seq<Bytes>,
    intItems: seq<Bytes>,
    intArrayItems: seq<Bytes>,
    boolItems: seq<Bytes>,
    boolArrayItems: seq<Bytes>,
    bytes32Items: seq<Bytes>,
    bytes32ArrayItems: seq<Bytes>,
    bytesItems: seq<Bytes>,
    bytesArrayItems: seq<Bytes>,
    stringItems: seq<Bytes>,
    stringArrayItems: seq<Bytes>)

  /** The three schema entity types; the store keeps each type's entities apart. */
  datatype EntityType = EventLogEntity | EventLog1Entity | EventLog2Entity

  /** The stored `EventLog`, `EventLog1` or `EventLog2` entity, tagged with its type; a
      topic the entity type does not have is `None`. */
  datatype EventRecord = EventRecord(
    entityType: EntityType,
    id: Bytes,
    msgSender: Address,
    eventName: string,
    eventNameHash: string,
    topic1: Option<Address>,
    topic2: Option<Address>,
    data: DecodedData,
    blockNumber: BigInt,
    blockTimestamp: BigInt,
    transactionHash: Bytes)
}
