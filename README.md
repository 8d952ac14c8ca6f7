# Event emitter decoding model

A Dafny model of the event handlers in `AssetFactory/src/event-emitter.ts`. An on-chain
`EventEmitter` contract emits `EventLog`, `EventLog1` and `EventLog2` events. Each event
carries a structured payload (`eventData`) with seven typed categories: address, uint,
int, bool, bytes32, bytes and string. Each category has scalar `items` and `arrayItems`.
Each handler builds one entity from the event and saves it:

- the id is the transaction hash followed by the narrowed log index;
- the header is the sender, the event name and the event-name hash rendered as hex;
- the handler sets zero, one or two topics;
- the payload is decoded into fourteen flat `eventData_*` sequences;
- provenance is the block number, the block timestamp and the transaction hash.

Files and modules:

- `sequences.dfy` (`Sequences`): the generic specifications. `Map` is an element-wise
  map. `Concat` is left-to-right concatenation and `SumLengths` is the total inner
  length. The module also holds the lemmas about them: order preservation, and that
  map distributes over concatenation.
- `graph_ts.dfy` (`GraphTs`): the graph-ts types (`Bytes`, `Address`, `BigInt`, `I32`).
  It also holds the library conversions the emitter calls, as a `Library` record of
  function values with no assumed behaviour.
- `event_types.dfy` (`EventTypes`): the payload, the inbound event, the fourteen decoded
  sequences and the stored record.
- `event_emitter.dfy` (`EventEmitter`): the source file's functions and handlers:
  - the `extract*FromStruct` and `flatten` loops, as methods proved equal to `Concat`;
  - the coercion maps;
  - `DecodePayload`, the specification of the fourteen outputs;
  - `DecodeEventData`, the decoding method that the three handlers share;
  - the three handlers.

`bytesToString` (`AssetFactory/src/event-emitter.ts:26-28`) is `BytesToString`. It only
calls the library's `toHex`, so it has no contract of its own. The handlers' contracts
state where its result goes, through `Populated`.

The boolean encoding `Bytes.fromI32(item.value ? 1 : 0)` (lines 98-99) is written inside
`BoolItemsToBytes`, whose contract states it element by element.

The four `extract*FromStruct` functions (lines 31-64) are identical except for their
element type. They are modelled by one generic method, `ExtractValues`. The handlers
never call `extractStringFromStruct`. The string array items are instead converted per
array item and then flattened (line 105). `FlattenConvertedStrings` proves that this
equals converting the extracted strings one by one.

## Model

| member | source | states |
|---|---|---|
| `Sequences.Map` | AssetFactory/src/event-emitter.ts:67-74 | The `Array.map` used by the emitter keeps the length, and output element k is the function applied to input element k. |
| `Sequences.Concat` | AssetFactory/src/event-emitter.ts:77-83 | Concatenating an array of arrays yields exactly as many elements as the inner arrays hold together. Together with `ConcatAt`, which places every inner element, this means nothing is dropped or duplicated. |
| `Sequences.ConcatAt` | AssetFactory/src/event-emitter.ts:77-83 | Order is preserved: element j of inner array i sits right after all elements of the earlier inner arrays, at offset j. |
| `Sequences.ConcatSnoc` | AssetFactory/src/event-emitter.ts:79-81 | One loop step: extending the processed prefix by the next inner array appends that array to the concatenation. |
| `Sequences.MapConcat` | AssetFactory/src/event-emitter.ts:105 | Mapping a function over the concatenation equals concatenating the mapped inner arrays. |
| `Sequences.MapAppend` | AssetFactory/src/event-emitter.ts:105 | Mapping distributes over appending. |
| `GraphTs.ConcatI32` | AssetFactory/src/event-emitter.ts:87 | `concatI32` keeps the receiver's bytes as a prefix of its result. |
| `EventEmitter.ExtractValues` | AssetFactory/src/event-emitter.ts:31-64 | Each `extract*FromStruct` loop returns the in-order concatenation of `struct[i].value` for i = 0..n-1. Its length is the sum of the inner lengths. The loop invariant is that after i steps the accumulator is the concatenation of the first i values. |
| `EventEmitter.Flatten` | AssetFactory/src/event-emitter.ts:77-83 | The `flatten` loop returns the in-order concatenation of its inner arrays, whose length is the sum of their lengths. In particular, flattening `[]` gives `[]`. |
| `EventEmitter.BytesToString` | AssetFactory/src/event-emitter.ts:26-28 | `bytesToString` is the library's `toHex` of its argument. It has no `ensures` of its own. Its use for `eventNameHash` (lines 91, 120 and 150) is stated by `Populated` in the contracts of `BuildRecord` and the handlers. |
| `EventEmitter.Values` | AssetFactory/src/event-emitter.ts:34 | The `value` arrays of the array items, one per array item, in order. |
| `EventEmitter.ItemValues` | AssetFactory/src/event-emitter.ts:92 | `items.map(item => item.value)` has one element per item, and element k is item k's value. |
| `EventEmitter.BigIntToBytesArray` | AssetFactory/src/event-emitter.ts:67-69 | `bigIntToBytesArray` preserves length, and output k is the library's hex byte encoding of input k. |
| `EventEmitter.StringArrayToBytesArray` | AssetFactory/src/event-emitter.ts:72-74 | `stringArrayToBytesArray` preserves length, and output k is the UTF-8 encoding of input k. |
| `EventEmitter.BoolItemsToBytes` | AssetFactory/src/event-emitter.ts:98-99 | Boolean items and boolean array items are both mapped one to one, with no flattening. Element k is `fromI32(1)` or `fromI32(0)` according to item k's value. |
| `EventEmitter.StringArrayItemsToBytes` | AssetFactory/src/event-emitter.ts:105 | Each string array item becomes the UTF-8 encodings of its strings, one array per array item. |
| `EventEmitter.FlattenConvertedStrings` | AssetFactory/src/event-emitter.ts:105 | Flattening the per-item converted string arrays equals converting the extracted strings in order. The two have the same number of elements. |
| `EventEmitter.DecodePayload` | AssetFactory/src/event-emitter.ts:92-105 | The fourteen outputs are specified as follows. Each `*_items` output has one element per input item, and element k comes from item k's value alone. Address, bytes32 and bytes values pass through unchanged. Uint and int values go through the hex byte encoding. Bool values become `fromI32(1/0)`. String values are UTF-8 encoded. Bool array items map one to one. Every other array-items output has the summed length of the values. The string array items are the UTF-8 encodings of the extracted strings. |
| `EventEmitter.ExtractedAt` | AssetFactory/src/event-emitter.ts:31-64 | In what every `extract*FromStruct` loop returns, value j of array item i is at the number of values in the earlier array items, plus j. |
| `EventEmitter.PassThroughArrayItemsInOrder` | AssetFactory/src/event-emitter.ts:93-103 | For each of the address, bytes32 and bytes categories, value j of array item i appears unchanged in the array-items output. Its position is the number of values in the earlier array items, plus j. |
| `EventEmitter.IntegerArrayItemsInOrder` | AssetFactory/src/event-emitter.ts:95-97 | For each of the uint and int categories, value j of array item i appears hex-encoded in the array-items output. Its position is the number of values in the earlier array items, plus j. |
| `EventEmitter.StringArrayItemsInOrder` | AssetFactory/src/event-emitter.ts:105 | In the string array-items output, value j of array item i appears UTF-8 encoded. Its position is the number of values in the earlier array items, plus j. |
| `EventEmitter.StringArrayItemsExample` | AssetFactory/src/event-emitter.ts:105 | The array items `[{key: "a", value: ["x", "yz"]}]` decode to `[utf8("x"), utf8("yz")]`, in that order. |
| `EventEmitter.EmptyPayload` | AssetFactory/src/event-emitter.ts:92-105 | A payload whose seven categories are all empty decodes to fourteen empty sequences. |
| `EventEmitter.DecodeEventData` | AssetFactory/src/event-emitter.ts:92-105 | The decoding statements, with the extract loops and the flatten loop, compute exactly `DecodePayload`. |
| `EventEmitter.RecordId` | AssetFactory/src/event-emitter.ts:86-88 | The id is computed from the transaction hash and the log index only, and the transaction hash is a prefix of it. |
| `EventEmitter.BuildRecord` | AssetFactory/src/event-emitter.ts:85-110 | The assembled record has the given entity type and exactly the given topics. It satisfies `Populated`, which covers these fields: the id from `RecordId`; the sender; the event name; the hex-rendered name hash (`bytesToString`); the `DecodePayload` outputs; the block number, block timestamp and transaction hash. |
| `EventEmitter.HandleEventLog` | AssetFactory/src/event-emitter.ts:85-112 | `handleEventLog` hands off a new `EventLog` entity. It has the common fields of `Populated` and no topic. |
| `EventEmitter.HandleEventLog1` | AssetFactory/src/event-emitter.ts:114-142 | `handleEventLog1` hands off a new `EventLog1` entity with the same common fields. Its `topic1` is the event's `topic1`, and it has no `topic2`. |
| `EventEmitter.HandleEventLog2` | AssetFactory/src/event-emitter.ts:144-173 | `handleEventLog2` hands off a new `EventLog2` entity with the same common fields. Its `topic1` and `topic2` are the event's. |
| `EventEmitter.VariantsDifferOnlyInTopics` | AssetFactory/src/event-emitter.ts:85-173 | Records built from one event are equal once the entity type and topics are cleared, whatever type and topics are chosen. The three variants therefore differ only in the entity type they create and in their topics. |
| `EventEmitter.SameLogSameId` | AssetFactory/src/event-emitter.ts:86-88 | Two events of the same variant with the same transaction hash and log index give records with the same entity type and the same id, whatever their payloads. The store therefore replaces the first with the second. Records of different entity types are stored apart, even when their ids are equal. |

## Left out

- `entity.save()` (lines 111, 141, 172) and the generated schema store. Each handler
  returns the completed record, and that return stands for the hand-off to the store.
- The graph-ts conversions are fields of `GraphTs.Library` with no assumed behaviour:
  - `Bytes.fromHexString(bigInt.toHexString())`;
  - `Bytes.fromUTF8`;
  - `Bytes.fromI32`;
  - `toHex`;
  - the `BigInt.toI32` narrowing.

  Their code is not part of this model. No integer round trip, byte width or endianness
  is claimed.
- `GraphTs.ConcatI32` models `concatI32` as the receiver's bytes followed by
  `fromI32(x)`. The prefix property of ids rests on this reading of the library call.
- `EventEmitter.RecordId`: does not claim that distinct log indices give distinct ids.
  The `toI32` narrowing and the `fromI32` encoding belong to the library and may
  collide.
- The event subscription and the generated ABI binding classes (lines 1-23) are not
  part of this model. They are replaced by the datatypes in `EventTypes`:
  - the topics of `EventLog1` and `EventLog2` are passed to their handlers as arguments;
  - the other event parameters, the block and the transaction are fields of `Event`.
- The boolean array items are modelled the way the handlers read them. Each array item
  carries one boolean, which `item.value ? 1 : 0` encodes. The generated binding that
  fixes the type of that `value` is not part of this model. If `value` were an array of
  booleans, the conditional would test the array reference, not its elements.
- The source has no error or overflow paths, so the model has none either. The code
  rejects neither too-wide integers nor wrongly shaped payloads. It also does not
  guarantee distinct ids for distinct log indices.
- The three generated schema entities `EventLog`, `EventLog1` and `EventLog2` are one
  datatype, `EventRecord`. Its `entityType` field says which entity type a record is, and
  a topic the type lacks is `None`. The store itself, which keeps each entity type
  apart, is not part of this model.

