# Horticulture asset chaincode, modelled in Dafny

The horticulture chaincode is a Hyperledger Fabric smart contract. It keeps
`QRAsset` records in the peer's key-value world state. Each record is a
product traced from harvest through collection and processing. The contract
has four transactions:

- `InitLedger` writes one fixed sample record (a Hilsa fish product with id "1").
- `AssetExists` reports whether a product id has a record.
- `CreateAsset` parses a JSON record and refuses an id that is already present.
  It forces the discriminator `DocType` to `"asset"`, writes the record and then
  emits a `QRCreated` event.
- `ReadAsset` returns the stored record, or an error when the id has none.

Every transaction stores a record under the key `"QR:" + productID`.

The model has six modules:

- `Results` (results.dfy): `Option`, `Result` and `Outcome`, plus the error
  kinds the transactions report.
- `Asset` (asset.dfy): the 32-field `QRAsset` record, the key derivation, the
  discriminator stamp and the sample record.
  A Go `float64` is kept as its IEEE 754 bit pattern. The contract only carries
  these numbers; it never computes with them.
- `Codec` (codec.dfy): serialisation. A record becomes a `Document`: its field
  values in declaration order. Like `json.Marshal`, `Encode` refuses a NaN or an
  infinity. `Decode` fails on a document without the record's shape. Both round
  trips are proved.
- `WorldState` (world_state.dfy): the host's transaction context. It is a
  `Stub` class with two fields, `state` (the world state, a map from key to
  document) and `events` (the event log). Its `GetState`, `PutState` and
  `SetEvent` methods each take a `fails` flag: the host's answer, passed in as
  a parameter.
- `SmartContract` (smart_contract.dfy): the four transactions as module-level
  methods that take a `Stub` parameter. Each method is proved to have exactly the effect of a function over
  plain values (`ExistsResult`, `ReadResult`, `CreateStep`, `InitStep`).
  `InitLedger` keeps the source's loop over the record list. Its invariant says
  that the remaining walk, `Seed(..., i)`, leads to the same end as the whole
  walk.
- `SmartContractProperties` (smart_contract_properties.dfy): what those
  functions guarantee. Topics:
  - duplicate and malformed creations change nothing;
  - a successful creation adds exactly one key;
  - the discriminator is always overwritten;
  - a refused event still leaves the write in place;
  - create-then-read and init-then-read;
  - a ledger invariant (`Consistent`: every stored value parses to an asset
    record that sits under its own key) that both writing transactions keep.

Three facts about the code that the model keeps:

- No product id is validated. An empty id is accepted and stored under `"QR:"`.
- Presence is a nil check on what `GetState` returns (smartcontract.go:106),
  not a check for a non-empty value.
- Errors from `json.Marshal` and `json.Unmarshal` are returned unchanged,
  except that `CreateAsset` re-wraps its parse error in a new message
  (smartcontract.go:112). The model keeps only the kinds, `EncodeError` and
  `DecodeError`.

## Model

| member | source | states |
|---|---|---|
| Asset.Key | horticulture/chaincode/chaincode/smartcontract.go:101 | the key of an id is "QR:" followed by the id: its length is the id's plus three, it starts with the prefix and the rest is the id |
| Asset.Stamped | horticulture/chaincode/chaincode/smartcontract.go:123 | the stamped record carries `DocType` "asset" and differs from the caller's record in no other field |
| Asset.Bootstrap | horticulture/chaincode/chaincode/smartcontract.go:50-85 | the sample record has id "1", carries `DocType` "asset" and all eight of its numbers are finite |
| Asset.KeyInjective | horticulture/chaincode/chaincode/smartcontract.go:101 | two product ids give the same key exactly when they are equal, so every transaction deriving the key of an id addresses the same single slot |
| Asset.KeyShape | horticulture/chaincode/chaincode/smartcontract.go:124 | a key is the prefix `QR:` followed by the id; an empty id gives the key `QR:` |
| Asset.StampedChangesOnlyDocType | horticulture/chaincode/chaincode/smartcontract.go:123 | stamping sets `DocType` to "asset", keeps the id and every number, is idempotent and changes no other field |
| Asset.BootstrapFacts | horticulture/chaincode/chaincode/smartcontract.go:50-85 | the sample record has id "1" (key "QR:1"), already carries "asset" and has only finite numbers |
| Codec.Encode | horticulture/chaincode/chaincode/smartcontract.go:14-47 | a serialised record has one value per field of the record |
| Codec.Decode | horticulture/chaincode/chaincode/smartcontract.go:110-113 | a parsed record never holds a NaN or an infinity |
| Codec.EncodeFailsOnlyOnNonFinite | horticulture/chaincode/chaincode/smartcontract.go:125-128 | serialisation fails exactly on a record with a NaN or an infinity among its numbers |
| Codec.EncodeConforms | horticulture/chaincode/chaincode/smartcontract.go:125 | what serialisation produces has the shape parsing accepts |
| Codec.DecodeEncode | horticulture/chaincode/chaincode/smartcontract.go:154-158 | parsing the serialisation of a record gives the record back |
| Codec.DecodedField | horticulture/chaincode/chaincode/smartcontract.go:155 | each field of a parsed record serialises back to the value it was parsed from |
| Codec.EncodeDecode | horticulture/chaincode/chaincode/smartcontract.go:155 | a document that parses is exactly the serialisation of the record it parses to |
| Codec.EncodeInjective | horticulture/chaincode/chaincode/smartcontract.go:125 | distinct records never share a serialisation |
| WorldState.Stub.GetState | horticulture/chaincode/chaincode/smartcontract.go:102 | a read gives the stored document, nothing for an absent key, or the host's read error |
| WorldState.Stub.PutState | horticulture/chaincode/chaincode/smartcontract.go:130 | a write replaces the value of one key and changes nothing else, or fails and changes nothing |
| WorldState.Stub.SetEvent | horticulture/chaincode/chaincode/smartcontract.go:136 | an event is appended to the log, or the host refuses it and the log is unchanged; the world state is untouched |
| SmartContract.AssetExists | horticulture/chaincode/chaincode/smartcontract.go:100-107 | returns the read error exactly when the host refuses the read, and otherwise true exactly when the product's key holds a value; changes nothing |
| SmartContract.ReadAsset | horticulture/chaincode/chaincode/smartcontract.go:144-158 | read error, then `NotFound` for an absent key, then `DecodeError` for an unparsable value, else the record whose serialisation is stored under the key; changes nothing |
| SmartContract.CreateAsset | horticulture/chaincode/chaincode/smartcontract.go:109-141 | the new world state, event log and outcome are those of `CreateStep` on the old state and log |
| SmartContract.InitLedger | horticulture/chaincode/chaincode/smartcontract.go:49-98 | the loop over the record list ends in the world state and outcome of `InitStep`, with the event log untouched |
| SmartContractProperties.ExistsAgreesWithRead | horticulture/chaincode/chaincode/smartcontract.go:100-107 | an id is reported absent exactly when a read reports `NotFound`, present exactly when a read returns a record or meets an unparsable value, and both report a refused read alike |
| SmartContractProperties.ReadReturnsStored | horticulture/chaincode/chaincode/smartcontract.go:144-158 | a returned record is exactly the one whose serialisation is stored under the requested key |
| SmartContractProperties.ConsistentRead | horticulture/chaincode/chaincode/smartcontract.go:150-158 | in a consistent ledger a permitted read finds nothing or returns the requested product's record, stamped "asset"; it never meets an unparsable value |
| SmartContractProperties.CreateRejectsMalformed | horticulture/chaincode/chaincode/smartcontract.go:110-113 | an unparsable payload fails with `DecodeError`, changes no key and emits no event |
| SmartContractProperties.CreatePropagatesReadError | horticulture/chaincode/chaincode/smartcontract.go:115-118 | a refused existence check is returned as is, with nothing changed |
| SmartContractProperties.CreateDuplicate | horticulture/chaincode/chaincode/smartcontract.go:119-121 | an id whose key holds a value fails with `Duplicate`; the world state and event log are exactly as before |
| SmartContractProperties.CreateNeverFailsToEncode | horticulture/chaincode/chaincode/smartcontract.go:125-128 | the serialisation error branch of creation is unreachable: a parsed, stamped record always serialises |
| SmartContractProperties.CreateSucceedsExactly | horticulture/chaincode/chaincode/smartcontract.go:109-141 | creation succeeds if and only if the payload parses, its key is absent and the host accepts the read, the write and the event |
| SmartContractProperties.CreateSuccess | horticulture/chaincode/chaincode/smartcontract.go:123-140 | success adds exactly the one key `QR:`+id, holding the payload's record with `DocType` "asset"; every other key is unchanged; exactly one event ("QRCreated", {"productId": id}) is appended |
| SmartContractProperties.CreateEventFailureKeepsWrite | horticulture/chaincode/chaincode/smartcontract.go:130-138 | when the event is refused, the call reports `EventError` but the record is written exactly as on success and stays; no event is logged |
| SmartContractProperties.CreateInsertsOnly | horticulture/chaincode/chaincode/smartcontract.go:109-141 | creation never overwrites or removes a record; every failure other than `EventError` leaves the world state unchanged; no failure emits an event; a changed world state gains exactly the payload's key |
| SmartContractProperties.CreateStampsDocType | horticulture/chaincode/chaincode/smartcontract.go:123 | whatever discriminator the payload carried, the record creation writes carries "asset" |
| SmartContractProperties.CreateThenRead | horticulture/chaincode/chaincode/smartcontract.go:123-158 | after a creation that wrote its record (success or refused event), reading the id returns the payload's record with `DocType` "asset" |
| SmartContractProperties.CreateTwiceKeepsFirst | horticulture/chaincode/chaincode/smartcontract.go:115-121 | a second creation of the same id fails with `Duplicate`, changes nothing, and a read still returns the first record |
| SmartContractProperties.CreatePreservesConsistent | horticulture/chaincode/chaincode/smartcontract.go:109-141 | creation keeps every stored value a parsable, stamped record under its own key |
| SmartContractProperties.FirstStop | horticulture/chaincode/chaincode/smartcontract.go:87-96 | the position at which the initialisation loop stops: every earlier record serialises and is written, and the record at that position (if any) cannot be serialised or has its write refused |
| SmartContractProperties.SeedStopsAtFirstFailure | horticulture/chaincode/chaincode/smartcontract.go:87-97 | the loop writes the records in order up to the first that cannot be serialised or written, reports that error, keeps the earlier writes, writes nothing later and emits nothing |
| SmartContractProperties.InitLedgerEffect | horticulture/chaincode/chaincode/smartcontract.go:49-98 | initialisation writes exactly the sample record under "QR:1", overwriting whatever was there, or changes nothing when that write is refused; it never emits an event |
| SmartContractProperties.InitThenRead | horticulture/chaincode/chaincode/smartcontract.go:52-83 | after a successful initialisation, reading "1" returns the Hilsa fish record with `DocType` "asset", price 1200.5 and net weight 2.5 |
| SmartContractProperties.InitPreservesConsistent | horticulture/chaincode/chaincode/smartcontract.go:49-98 | initialisation keeps every stored value a parsable, stamped record under its own key |

## Left out

- The JSON text format. A record is serialised as its field values in
  declaration order, so field names and byte layout are absent.
  - Go's lenient parsing is absent too. `json.Unmarshal` ignores unknown
    fields and gives a missing field its zero value. `Decode` rejects any
    document without exactly the record's fields.
  - A Go nil slice and an empty slice are not told apart.
- Floating-point values. The eight numeric fields are carried as bit patterns.
  The only property used is finiteness: `json.Marshal` refuses NaN and
  infinities, and JSON text cannot spell them.
- Hyperledger Fabric itself: endorsement, read/write-set conflict detection,
  ordering and commit.
  - A transaction's writes are modelled as visible at once. In Fabric a
    transaction does not read its own writes, and the host discards everything
    when the transaction aborts.
  - Fabric keeps only the last event set in a transaction. The model appends
    each event to a log, one transaction per call.
  - The host's answers (read, write and event failures) are parameters.
    `InitLedger` takes the set of positions whose writes are refused.
- The text of error messages. Only the error kind is kept.
- The event payload's serialisation (smartcontract.go:135). Its error is
  ignored there, and marshalling a string map cannot fail. The payload is kept
  as the map itself.
- The `SmartContract` type's embedding of `contractapi.Contract`. It only
  supplies metadata to the host.
