/** The four transactions of the horticulture asset contract. Each method
    works on the host's world state through a `Stub` and is proved to have
    exactly the effect of a function over plain values; the properties of
    those functions are proved in module SmartContractProperties. */
module SmartContract {
  import opened Results
  import opened Asset
  import opened Codec
  import opened WorldState

  /** The contents of the world state. */
  type State = map<string, Document>

  /** The host's answers to the three kinds of call `CreateAsset` makes:
      whether the read, the write and the event are refused. */
  datatype Faults = Faults(readFails: bool, putFails: bool, eventFails: bool)

  /** Every host call succeeds. */
  const NoFaults: Faults := Faults(false, false, false)

  /** The world state, the event log and the outcome after an operation. */
  datatype Step = Step(state: State, events: seq<Event>, outcome: Outcome)

  /** The name of the event a successful creation emits. */
  const CreatedEventName: string := "QRCreated"

  /** The payload of the creation event: the product id under `productId`. */
  function CreatedPayload(productID: string): map<string, string> {
    map["productId" := productID]
  }

  // ---------------------------------------------------------------------
  // AssetExists

  /** The answer of `AssetExists`: whether the product's key holds a value,
      or the host's read error. */
  function ExistsResult(state: State, productID: string, readFails: bool): Result<bool> {
    if readFails then Err(ReadError) else Ok(Key(productID) in state)
  }

  method AssetExists(ctx: Stub, productID: string, readFails: bool) returns (r: Result<bool>)
    ensures r == ExistsResult(ctx.state, productID, readFails)
    ensures r.Err? <==> readFails
    ensures r.Ok? ==> (r.value <==> Key(productID) in ctx.state)
  {
    var key := Key(productID);
    var got := ctx.GetState(key, readFails);
    if got.Err? {
      return Err(got.error);
    }
    r := Ok(got.value.Some?);
  }

  // ---------------------------------------------------------------------
  // ReadAsset

  /** The answer of `ReadAsset`: the host's read error, `NotFound` for a key
      that holds nothing, `DecodeError` for a stored value that does not
      parse, and otherwise the parsed record. */
  function ReadResult(state: State, productID: string, readFails: bool): Result<QRAsset> {
    if readFails then Err(ReadError)
    else if Key(productID) !in state then Err(NotFound)
    else match Decode(state[Key(productID)])
      case None => Err(DecodeError)
      case Some(a) => Ok(a)
  }

  method ReadAsset(ctx: Stub, productID: string, readFails: bool) returns (r: Result<QRAsset>)
    ensures r == ReadResult(ctx.state, productID, readFails)
    ensures r.Ok? ==> Key(productID) in ctx.state && Encode(r.value) == Some(ctx.state[Key(productID)])
  {
    var key := Key(productID);
    var got := ctx.GetState(key, readFails);
    if got.Err? {
      return Err(got.error);
    }
    if got.value.None? {
      return Err(NotFound);
    }
    var asset := Decode(got.value.value);
    if asset.None? {
      return Err(DecodeError);
    }
    EncodeDecode(got.value.value);
    r := Ok(asset.value);
  }

  // ---------------------------------------------------------------------
  // CreateAsset

  /** The effect of `CreateAsset`: parse the payload, refuse an id whose key
      already holds a value, stamp the discriminator, write the record under
      its key, then emit the creation event. Each step stops at the first
      error; an error from the event comes after the write, which stays. */
  function CreateStep(state: State, events: seq<Event>, payload: Document, f: Faults): Step {
    match Decode(payload)
    case None => Step(state, events, Fail(DecodeError))
    case Some(asset) =>
      match ExistsResult(state, asset.ProductID, f.readFails)
      case Err(e) => Step(state, events, Fail(e))
      case Ok(present) =>
        if present then Step(state, events, Fail(Duplicate))
        else
          var stored := Stamped(asset);
          match Encode(stored)
          case None => Step(state, events, Fail(EncodeError))
          case Some(bytes) =>
            if f.putFails then Step(state, events, Fail(WriteError))
            else
              var written := state[Key(stored.ProductID) := bytes];
              if f.eventFails then Step(written, events, Fail(EventError))
              else Step(written, events + [Event(CreatedEventName, CreatedPayload(stored.ProductID))], Pass)
  }

  method CreateAsset(ctx: Stub, payload: Document, f: Faults) returns (r: Outcome)
    modifies ctx
    ensures Step(ctx.state, ctx.events, r) == CreateStep(old(ctx.state), old(ctx.events), payload, f)
  {
    var parsed := Decode(payload);
    if parsed.None? {
      return Fail(DecodeError);
    }
    var asset := parsed.value;

    var present := AssetExists(ctx, asset.ProductID, f.readFails);
    if present.Err? {
      return Fail(present.error);
    }
    if present.value {
      return Fail(Duplicate);
    }

    asset := asset.(DocType := AssetDocType);
    var key := Key(asset.ProductID);
    var bytes := Encode(asset);
    if bytes.None? {
      return Fail(EncodeError);
    }

    var put := ctx.PutState(key, bytes.value, f.putFails);
    if put.Fail? {
      return put;
    }

    var emitted := ctx.SetEvent(CreatedEventName, CreatedPayload(asset.ProductID), f.eventFails);
    if emitted.Fail? {
      return emitted;
    }
    r := Pass;
  }

  // ---------------------------------------------------------------------
  // InitLedger

  /** The effect of writing `assets[from..]` in order: each record is
      serialised and written under its key; the first record that cannot be
      serialised, or whose write (by position) is in `failingPuts`, stops the
      walk with the writes before it left in place. */
  function Seed(state: State, events: seq<Event>, assets: seq<QRAsset>, failingPuts: set<nat>, from: nat): Step
    decreases |assets| - from
  {
    if from >= |assets| then Step(state, events, Pass)
    else
      match Encode(assets[from])
      case None => Step(state, events, Fail(EncodeError))
      case Some(bytes) =>
        if from in failingPuts then Step(state, events, Fail(WriteError))
        else Seed(state[Key(assets[from].ProductID) := bytes], events, assets, failingPuts, from + 1)
  }

  /** The effect of `InitLedger`: write the bootstrap records. */
  function InitStep(state: State, events: seq<Event>, failingPuts: set<nat>): Step {
    Seed(state, events, BootstrapAssets(), failingPuts, 0)
  }

  /** `failingPuts` holds the positions, in the bootstrap list, of the
      writes the host refuses. */
  method InitLedger(ctx: Stub, failingPuts: set<nat>) returns (r: Outcome)
    modifies ctx
    ensures Step(ctx.state, ctx.events, r) == InitStep(old(ctx.state), old(ctx.events), failingPuts)
  {
    var assets := BootstrapAssets();
    for i := 0 to |assets|
      invariant ctx.events == old(ctx.events)
      invariant Seed(ctx.state, ctx.events, assets, failingPuts, i)
             == Seed(old(ctx.state), old(ctx.events), assets, failingPuts, 0)
    {
      var asset := assets[i];
      var key := Key(asset.ProductID);
      var bytes := Encode(asset);
      if bytes.None? {
        return Fail(EncodeError);
      }
      var put := ctx.PutState(key, bytes.value, i in failingPuts);
      if put.Fail? {
        return put;
      }
    }
    r := Pass;
  }
}
