/** What the contract's transactions guarantee, stated over the functions
    that the methods of module SmartContract are proved to implement. */
module SmartContractProperties {
  import opened Results
  import opened Asset
  import opened Codec
  import opened WorldState
  import opened SmartContract

  // ---------------------------------------------------------------------
  // Reading

  /** `AssetExists` and `ReadAsset` agree: an id whose key holds nothing is
      reported absent by the one and `NotFound` by the other, and an id
      reported present is never `NotFound`. */
  lemma ExistsAgreesWithRead(state: State, productID: string, readFails: bool)
    ensures ExistsResult(state, productID, readFails) == Ok(false)
        <==> ReadResult(state, productID, readFails) == Err(NotFound)
    ensures ExistsResult(state, productID, readFails) == Ok(true)
        <==> (ReadResult(state, productID, readFails).Ok? || ReadResult(state, productID, readFails) == Err(DecodeError))
    ensures ExistsResult(state, productID, readFails) == Err(ReadError)
        <==> ReadResult(state, productID, readFails) == Err(ReadError)
  {
  }

  /** A record that `ReadAsset` returns is exactly the one whose
      serialisation sits under the requested key. */
  lemma ReadReturnsStored(state: State, productID: string, readFails: bool)
    requires ReadResult(state, productID, readFails).Ok?
    ensures Key(productID) in state
    ensures Encode(ReadResult(state, productID, readFails).value) == Some(state[Key(productID)])
  {
    EncodeDecode(state[Key(productID)]);
  }

  // ---------------------------------------------------------------------
  // The ledger invariant

  /** Every stored value parses to an asset record carrying the asset
      discriminator and stored under its own product id's key. */
  ghost predicate Consistent(state: State) {
    forall k :: k in state ==> StoredAt(state, k)
  }

  ghost predicate StoredAt(state: State, k: string)
    requires k in state
  {
    var parsed := Decode(state[k]);
    parsed.Some? && Key(parsed.value.ProductID) == k && parsed.value.DocType == AssetDocType
  }

  /** In a consistent ledger a read that the host allows either finds
      nothing or returns the record of the requested product, stamped as an
      asset; it never meets a value it cannot parse. */
  lemma ConsistentRead(state: State, productID: string)
    requires Consistent(state)
    ensures ReadResult(state, productID, false) == Err(NotFound)
         || (ReadResult(state, productID, false).Ok?
             && ReadResult(state, productID, false).value.ProductID == productID
             && ReadResult(state, productID, false).value.DocType == AssetDocType)
  {
    var k := Key(productID);
    if k in state {
      assert StoredAt(state, k);
      KeyInjective(Decode(state[k]).value.ProductID, productID);
    }
  }

  // ---------------------------------------------------------------------
  // Creating

  /** A payload that does not parse changes nothing and emits nothing. */
  lemma CreateRejectsMalformed(state: State, events: seq<Event>, payload: Document, f: Faults)
    requires Decode(payload).None?
    ensures CreateStep(state, events, payload, f) == Step(state, events, Fail(DecodeError))
  {
  }

  /** A refused existence check is reported as it is; nothing changes. */
  lemma CreatePropagatesReadError(state: State, events: seq<Event>, payload: Document, f: Faults)
    requires Decode(payload).Some? && f.readFails
    ensures CreateStep(state, events, payload, f) == Step(state, events, Fail(ReadError))
  {
  }

  /** Creating an id that already has a record fails with `Duplicate`; the
      existing record, every other key and the event log stay as they were. */
  lemma CreateDuplicate(state: State, events: seq<Event>, payload: Document, f: Faults)
    requires Decode(payload).Some? && !f.readFails
    requires Key(Decode(payload).value.ProductID) in state
    ensures CreateStep(state, events, payload, f) == Step(state, events, Fail(Duplicate))
  {
  }

  /** The serialisation error of `CreateAsset` cannot happen: a record that
      was parsed has only finite numbers, and stamping keeps them. */
  lemma CreateNeverFailsToEncode(state: State, events: seq<Event>, payload: Document, f: Faults)
    ensures CreateStep(state, events, payload, f).outcome != Fail(EncodeError)
  {
  }

  /** Creation succeeds exactly when the payload parses, its id is new and
      the host accepts the read, the write and the event. */
  lemma CreateSucceedsExactly(state: State, events: seq<Event>, payload: Document, f: Faults)
    ensures CreateStep(state, events, payload, f).outcome == Pass
        <==> (Decode(payload).Some? && Key(Decode(payload).value.ProductID) !in state && f == NoFaults)
  {
  }

  /** A successful creation adds exactly one key, the product's, holding the
      payload's record with the discriminator forced to "asset", leaves
      every other key as it was and appends one `QRCreated` event naming
      the product. */
  lemma CreateSuccess(state: State, events: seq<Event>, payload: Document, f: Faults)
    requires CreateStep(state, events, payload, f).outcome == Pass
    ensures Decode(payload).Some?
    ensures var asset := Decode(payload).value;
            var s := CreateStep(state, events, payload, f);
            && Key(asset.ProductID) !in state
            && s.state.Keys == state.Keys + {Key(asset.ProductID)}
            && |s.state| == |state| + 1
            && (forall k :: k in state ==> s.state[k] == state[k])
            && Decode(s.state[Key(asset.ProductID)]) == Some(asset.(DocType := "asset"))
            && s.events == events + [Event("QRCreated", map["productId" := asset.ProductID])]
  {
    CreateSucceedsExactly(state, events, payload, f);
    var asset := Decode(payload).value;
    StampedChangesOnlyDocType(asset);
    DecodeEncode(Stamped(asset));
  }

  /** When the host refuses the creation event, the call reports
      `EventError` although the record has been written and stays written;
      only the event is missing. */
  lemma CreateEventFailureKeepsWrite(state: State, events: seq<Event>, payload: Document)
    requires Decode(payload).Some? && Key(Decode(payload).value.ProductID) !in state
    ensures var asset := Decode(payload).value;
            var s := CreateStep(state, events, payload, Faults(false, false, true));
            && s.outcome == Fail(EventError)
            && s.state == CreateStep(state, events, payload, NoFaults).state
            && Decode(s.state[Key(asset.ProductID)]) == Some(Stamped(asset))
            && s.events == events
  {
    var asset := Decode(payload).value;
    StampedChangesOnlyDocType(asset);
    DecodeEncode(Stamped(asset));
  }

  /** Creation never overwrites or removes a record, and a creation that
      fails before its write (every error but `EventError`) leaves the world
      state and the event log exactly as they were. An event is emitted
      only by a creation that succeeds. */
  lemma CreateInsertsOnly(state: State, events: seq<Event>, payload: Document, f: Faults)
    ensures var s := CreateStep(state, events, payload, f);
            && (forall k :: k in state ==> k in s.state && s.state[k] == state[k])
            && (s.outcome.Fail? && s.outcome != Fail(EventError) ==> s.state == state)
            && (s.outcome.Fail? ==> s.events == events)
            && (s.state != state ==> Decode(payload).Some? && s.state.Keys == state.Keys + {Key(Decode(payload).value.ProductID)})
  {
  }

  /** Whatever discriminator the caller supplied, the record `CreateAsset`
      writes carries "asset". */
  lemma CreateStampsDocType(state: State, events: seq<Event>, payload: Document, f: Faults)
    requires CreateStep(state, events, payload, f).state != state
    ensures Decode(payload).Some?
    ensures var k := Key(Decode(payload).value.ProductID);
            k in CreateStep(state, events, payload, f).state
            && Decode(CreateStep(state, events, payload, f).state[k]).Some?
            && Decode(CreateStep(state, events, payload, f).state[k]).value.DocType == AssetDocType
  {
    var asset := Decode(payload).value;
    StampedChangesOnlyDocType(asset);
    DecodeEncode(Stamped(asset));
  }

  /** Creating and then reading the same id returns the payload's record
      with the discriminator set to "asset". This holds also when only the
      event was refused. */
  lemma CreateThenRead(state: State, events: seq<Event>, payload: Document, f: Faults)
    requires CreateStep(state, events, payload, f).outcome in {Pass, Fail(EventError)}
    ensures Decode(payload).Some?
    ensures ReadResult(CreateStep(state, events, payload, f).state, Decode(payload).value.ProductID, false)
         == Ok(Decode(payload).value.(DocType := "asset"))
  {
    var asset := Decode(payload).value;
    StampedChangesOnlyDocType(asset);
    DecodeEncode(Stamped(asset));
  }

  /** Creating the same id twice: the second call fails with `Duplicate`,
      changes nothing, and a read still returns the first record. */
  lemma CreateTwiceKeepsFirst(state: State, events: seq<Event>, first: Document, second: Document, f: Faults)
    requires CreateStep(state, events, first, NoFaults).outcome == Pass
    requires Decode(second).Some? && Decode(second).value.ProductID == Decode(first).value.ProductID
    requires !f.readFails
    ensures var s1 := CreateStep(state, events, first, NoFaults);
            var s2 := CreateStep(s1.state, s1.events, second, f);
            && s2 == Step(s1.state, s1.events, Fail(Duplicate))
            && ReadResult(s2.state, Decode(second).value.ProductID, false) == Ok(Stamped(Decode(first).value))
  {
    CreateSuccess(state, events, first, NoFaults);
    CreateThenRead(state, events, first, NoFaults);
  }

  /** Creation keeps the ledger consistent. */
  lemma CreatePreservesConsistent(state: State, events: seq<Event>, payload: Document, f: Faults)
    requires Consistent(state)
    ensures Consistent(CreateStep(state, events, payload, f).state)
  {
    var s := CreateStep(state, events, payload, f);
    if s.state != state {
      var asset := Decode(payload).value;
      StampedChangesOnlyDocType(asset);
      DecodeEncode(Stamped(asset));
      forall k | k in s.state ensures StoredAt(s.state, k) {
        if k in state {
          assert StoredAt(state, k);
        }
      }
    }
  }

  // ---------------------------------------------------------------------
  // Initialising

  /** The position of the first record among `assets[from..]` that stops the
      walk: one that cannot be serialised or whose write is refused. */
  function FirstStop(assets: seq<QRAsset>, failingPuts: set<nat>, from: nat): (k: nat)
    decreases |assets| - from
    ensures from <= |assets| ==> from <= k <= |assets|
    ensures k < |assets| ==> !AllFinite(assets[k]) || k in failingPuts
    ensures forall j :: from <= j < k && j < |assets| ==> AllFinite(assets[j]) && j !in failingPuts
  {
    if from >= |assets| then from
    else if !AllFinite(assets[from]) || from in failingPuts then from
    else FirstStop(assets, failingPuts, from + 1)
  }

  /** The world state after writing every record of `assets`, in order,
      each under its own key. */
  function PutAll(state: State, assets: seq<QRAsset>): State
    requires forall i :: 0 <= i < |assets| ==> AllFinite(assets[i])
    decreases assets
  {
    if assets == [] then state
    else PutAll(state[Key(assets[0].ProductID) := Encode(assets[0]).value], assets[1..])
  }

  /** Initialisation walks the records in order and stops at the first one
      it cannot serialise or write, reporting that error; every write
      before that point stays, no later record is written, and the event
      log is untouched. */
  lemma {:induction false} SeedStopsAtFirstFailure(state: State, events: seq<Event>, assets: seq<QRAsset>, failingPuts: set<nat>, from: nat)
    requires from <= |assets|
    ensures var k := FirstStop(assets, failingPuts, from);
            Seed(state, events, assets, failingPuts, from)
            == Step(PutAll(state, assets[from..k]), events,
                    if k == |assets| then Pass
                    else if !AllFinite(assets[k]) then Fail(EncodeError)
                    else Fail(WriteError))
    decreases |assets| - from
  {
    var k := FirstStop(assets, failingPuts, from);
    if from == |assets| || !AllFinite(assets[from]) || from in failingPuts {
      assert k == from && assets[from..k] == [];
    } else {
      var next := state[Key(assets[from].ProductID) := Encode(assets[from]).value];
      SeedStopsAtFirstFailure(next, events, assets, failingPuts, from + 1);
      assert assets[from..k][0] == assets[from];
      assert assets[from..k][1..] == assets[from + 1..k];
    }
  }

  /** `InitLedger` writes exactly the bootstrap record under "QR:1" unless
      that write is refused, in which case nothing changes; it never emits
      an event. */
  lemma InitLedgerEffect(state: State, events: seq<Event>, failingPuts: set<nat>)
    ensures InitStep(state, events, failingPuts)
         == if 0 in failingPuts then Step(state, events, Fail(WriteError))
            else Step(state["QR:1" := Encode(Bootstrap()).value], events, Pass)
  {
    BootstrapFacts();
  }

  /** After a successful `InitLedger`, reading product "1" returns the Hilsa
      fish sample record, stamped as an asset, with price 1200.5 and net
      weight 2.5. */
  lemma InitThenRead(state: State, events: seq<Event>, failingPuts: set<nat>)
    requires InitStep(state, events, failingPuts).outcome == Pass
    ensures ReadResult(InitStep(state, events, failingPuts).state, "1", false) == Ok(Bootstrap())
    ensures Bootstrap().DocType == "asset" && Bootstrap().ProductNameEn == "Frozen Hilsa Fish"
    ensures Bootstrap().MRP == Float64(0x4092_C200_0000_0000)
    ensures Bootstrap().NetWeight == Float64(0x4004_0000_0000_0000)
  {
    InitLedgerEffect(state, events, failingPuts);
    BootstrapFacts();
    DecodeEncode(Bootstrap());
  }

  /** Initialisation keeps the ledger consistent. */
  lemma InitPreservesConsistent(state: State, events: seq<Event>, failingPuts: set<nat>)
    requires Consistent(state)
    ensures Consistent(InitStep(state, events, failingPuts).state)
  {
    InitLedgerEffect(state, events, failingPuts);
    BootstrapFacts();
    DecodeEncode(Bootstrap());
    var s := InitStep(state, events, failingPuts);
    forall k | k in s.state ensures StoredAt(s.state, k) {
      if k in state && k != "QR:1" {
        assert StoredAt(state, k);
      }
    }
  }
}
