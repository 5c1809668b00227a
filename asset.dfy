/** The asset record of the horticulture chaincode, the key it is stored
    under, and the one record that ledger initialisation seeds. */
module Asset {

  /** An IEEE 754 binary64 value, kept as its bit pattern. The contract only
      carries these numbers from input to storage; it never computes on them. */
  datatype Float64 = Float64(bits: bv64) {
    /** Neither an infinity nor a NaN: the exponent field is not all ones. */
    predicate IsFinite() {
      (bits >> 52) & 0x7FF != 0x7FF
    }
  }

  /** The `QRAsset` record: a product traced from harvest to processing. */
  datatype QRAsset = QRAsset(
    ProductID: string,
    ProductNameEn: string,
    ProductNameBn: string,
    SpeciesEn: string,
    SpeciesBn: string,
    ProductImage: string,
    ProcessingTypeEn: string,
    ProcessingTypeBn: string,
    DateOfHarvesting: string,
    DateOfPackaging: string,
    ExpiredDate: string,
    MRP: Float64,
    SourceOfAgroCommoditiesEn: seq<string>,
    SourceOfAgroCommoditiesBn: seq<string>,
    BatchNumber: string,
    LotNumber: string,
    NetWeight: Float64,
    CertificationEn: seq<string>,
    CertificationBn: seq<string>,
    ProductionLatitude: Float64,
    ProductionLongitude: Float64,
    ProducerOrganizationEn: string,
    ProducerOrganizationBn: string,
    CropCollectionCenterLatitude: Float64,
    CropCollectionCenterLongitude: Float64,
    CollectorOrganizationEn: string,
    CollectorOrganizationBn: string,
    CropProcessingUnitLatitude: Float64,
    CropProcessingUnitLongitude: Float64,
    ProcessorOrganizationEn: string,
    ProcessorOrganizationBn: string,
    DocType: string)

  /** The discriminator every record written by the contract carries. */
  const AssetDocType: string := "asset"

  /** The namespace prefix of every asset key. */
  const KeyPrefix: string := "QR:"

  /** The world-state key of a product: the prefix followed by the id. */
  function Key(productID: string): (k: string)
    ensures |k| == |KeyPrefix| + |productID|
    ensures k[..|KeyPrefix|] == KeyPrefix && k[|KeyPrefix|..] == productID
  {
    KeyPrefix + productID
  }

  /** Distinct product ids never share a key, so every operation that
      derives the key from the same id addresses the same slot, and no other. */
  lemma KeyInjective(a: string, b: string)
    ensures Key(a) == Key(b) <==> a == b
  {
    if Key(a) == Key(b) {
      assert a == Key(a)[|KeyPrefix|..];
      assert b == Key(b)[|KeyPrefix|..];
    }
  }

  /** Every key starts with the prefix and ends with the id: an empty id
      gives the bare prefix `QR:`. */
  lemma KeyShape(productID: string)
    ensures |Key(productID)| == |KeyPrefix| + |productID|
    ensures Key(productID)[..|KeyPrefix|] == KeyPrefix
    ensures Key(productID)[|KeyPrefix|..] == productID
    ensures productID == "" ==> Key(productID) == "QR:"
  {
  }

  /** The record as `CreateAsset` stores it: the caller's record with the
      discriminator overwritten. */
  function Stamped(a: QRAsset): (r: QRAsset)
    ensures r.DocType == AssetDocType
    ensures r.(DocType := a.DocType) == a
  {
    a.(DocType := AssetDocType)
  }

  /** All eight floating-point fields are finite. */
  predicate AllFinite(a: QRAsset) {
    && a.MRP.IsFinite()
    && a.NetWeight.IsFinite()
    && a.ProductionLatitude.IsFinite()
    && a.ProductionLongitude.IsFinite()
    && a.CropCollectionCenterLatitude.IsFinite()
    && a.CropCollectionCenterLongitude.IsFinite()
    && a.CropProcessingUnitLatitude.IsFinite()
    && a.CropProcessingUnitLongitude.IsFinite()
  }

  /** Stamping changes the discriminator and nothing else. */
  lemma StampedChangesOnlyDocType(a: QRAsset)
    ensures Stamped(a).DocType == AssetDocType
    ensures Stamped(a).ProductID == a.ProductID
    ensures AllFinite(Stamped(a)) == AllFinite(a)
    ensures Stamped(Stamped(a)) == Stamped(a)
    ensures Stamped(a).(DocType := a.DocType) == a
  {
  }

  /** The Hilsa fish sample record that ledger initialisation writes.
      The numbers are the binary64 patterns of 1200.5, 2.5, 23.8103,
      90.4125, 23.90, 90.44, 23.75 and 90.39. */
  function Bootstrap(): (r: QRAsset)
    ensures r.ProductID == "1" && r.DocType == AssetDocType
    ensures AllFinite(r)
  {
    QRAsset(
      ProductID := "1",
      ProductNameEn := "Frozen Hilsa Fish",
      ProductNameBn := "Frozen Hilsa Fish",
      SpeciesEn := "Hilsa",
      SpeciesBn := "Hilsa",
      ProductImage := "https://fish.com/hilsa.jpg",
      ProcessingTypeEn := "Frozen",
      ProcessingTypeBn := "Frozen",
      DateOfHarvesting := "2025-09-01",
      DateOfPackaging := "2025-09-03",
      ExpiredDate := "2026-03-01",
      MRP := Float64(0x4092_C200_0000_0000),
      SourceOfAgroCommoditiesEn := ["Filtered water", "Arsenic"],
      SourceOfAgroCommoditiesBn := ["Filtered water", "Arsenic"],
      BatchNumber := "BATCH-001",
      LotNumber := "LOT-001",
      NetWeight := Float64(0x4004_0000_0000_0000),
      CertificationEn := ["ISO22000", "HACCP"],
      CertificationBn := ["ISO22000", "HACCP"],
      ProductionLatitude := Float64(0x4037_CF6F_D21F_F2E5),
      ProductionLongitude := Float64(0x4056_9A66_6666_6666),
      ProducerOrganizationEn := "Padma Fisheries Ltd",
      ProducerOrganizationBn := "Padma Fisheries Ltd",
      CropCollectionCenterLatitude := Float64(0x4037_E666_6666_6666),
      CropCollectionCenterLongitude := Float64(0x4056_9C28_F5C2_8F5C),
      CollectorOrganizationEn := "Dhaka Fish Collectors",
      CollectorOrganizationBn := "Dhaka Fish Collectors",
      CropProcessingUnitLatitude := Float64(0x4037_C000_0000_0000),
      CropProcessingUnitLongitude := Float64(0x4056_98F5_C28F_5C29),
      ProcessorOrganizationEn := "Bangladesh Fish Processing Ltd",
      ProcessorOrganizationBn := "Bangladesh Fish Processing Ltd",
      DocType := "asset")
  }

  /** The list `InitLedger` walks through: the one sample record. */
  function BootstrapAssets(): seq<QRAsset> {
    [Bootstrap()]
  }

  /** The sample record has id "1", is already stamped, and every number in
      it is finite, so it can be encoded. */
  lemma BootstrapFacts()
    ensures Bootstrap().ProductID == "1" && Key(Bootstrap().ProductID) == "QR:1"
    ensures Bootstrap().DocType == AssetDocType && Stamped(Bootstrap()) == Bootstrap()
    ensures AllFinite(Bootstrap())
  {
  }
}
