/** Serialisation of asset records. The contract stores each record as the
    JSON encoding of its 32 fields; this model keeps the field values, in
    declaration order, and leaves out field names and the text layout. */
module Codec {
  import opened Results
  import opened Asset

  /** One serialised field value. */
  datatype Value = Text(text: string) | Number(number: Float64) | TextList(items: seq<string>)

  /** The serialised form of a record, as the world state holds it. */
  type Document = seq<Value>

  datatype Kind = TextKind | NumberKind | ListKind

  /** The kind of the field at position `i` of `QRAsset`'s declaration: the
      eight coordinates and prices are numbers, the commodity sources and
      certifications are lists, every other field is text. */
  function KindOf(i: int): Kind {
    if i in {11, 16, 19, 20, 23, 24, 27, 28} then NumberKind
    else if i in {12, 13, 17, 18} then ListKind
    else TextKind
  }

  /** The number of fields of `QRAsset`. */
  const FieldCount: nat := 32

  /** A value fits a field kind; JSON has no spelling for NaN or the
      infinities, so a number that parses is always finite. */
  predicate Fits(v: Value, k: Kind) {
    match v
    case Text(_) => k == TextKind
    case Number(f) => k == NumberKind && f.IsFinite()
    case TextList(_) => k == ListKind
  }

  /** The document has one value of the right kind for every field. */
  predicate Conforms(d: Document) {
    |d| == FieldCount && forall i :: 0 <= i < |d| ==> Fits(d[i], KindOf(i))
  }

  /** The serialised value of the field at position `i` of `a`. */
  function FieldValue(a: QRAsset, i: nat): Value
    requires i < FieldCount
  {
    match i
    case 0 => Text(a.ProductID)
    case 1 => Text(a.ProductNameEn)
    case 2 => Text(a.ProductNameBn)
    case 3 => Text(a.SpeciesEn)
    case 4 => Text(a.SpeciesBn)
    case 5 => Text(a.ProductImage)
    case 6 => Text(a.ProcessingTypeEn)
    case 7 => Text(a.ProcessingTypeBn)
    case 8 => Text(a.DateOfHarvesting)
    case 9 => Text(a.DateOfPackaging)
    case 10 => Text(a.ExpiredDate)
    case 11 => Number(a.MRP)
    case 12 => TextList(a.SourceOfAgroCommoditiesEn)
    case 13 => TextList(a.SourceOfAgroCommoditiesBn)
    case 14 => Text(a.BatchNumber)
    case 15 => Text(a.LotNumber)
    case 16 => Number(a.NetWeight)
    case 17 => TextList(a.CertificationEn)
    case 18 => TextList(a.CertificationBn)
    case 19 => Number(a.ProductionLatitude)
    case 20 => Number(a.ProductionLongitude)
    case 21 => Text(a.ProducerOrganizationEn)
    case 22 => Text(a.ProducerOrganizationBn)
    case 23 => Number(a.CropCollectionCenterLatitude)
    case 24 => Number(a.CropCollectionCenterLongitude)
    case 25 => Text(a.CollectorOrganizationEn)
    case 26 => Text(a.CollectorOrganizationBn)
    case 27 => Number(a.CropProcessingUnitLatitude)
    case 28 => Number(a.CropProcessingUnitLongitude)
    case 29 => Text(a.ProcessorOrganizationEn)
    case 30 => Text(a.ProcessorOrganizationBn)
    case _ => Text(a.DocType)
  }

  /** Serialises a record. Like `json.Marshal`, it refuses a record holding
      a NaN or an infinity. */
  function Encode(a: QRAsset): (r: Option<Document>)
    ensures r.Some? ==> |r.value| == FieldCount
  {
    if !AllFinite(a) then None
    else Some(seq(FieldCount, i requires 0 <= i < FieldCount => FieldValue(a, i)))
  }

  /** Parses a document back into a record; fails on a document that does
      not have the record's shape. A parsed record never holds a NaN or an
      infinity, so it can always be serialised again. */
  function Decode(d: Document): (r: Option<QRAsset>)
    ensures r.Some? ==> AllFinite(r.value)
  {
    if !Conforms(d) then None
    else
      Some(QRAsset(
        d[0].text, d[1].text, d[2].text, d[3].text, d[4].text, d[5].text,
        d[6].text, d[7].text, d[8].text, d[9].text, d[10].text,
        d[11].number,
        d[12].items, d[13].items,
        d[14].text, d[15].text,
        d[16].number,
        d[17].items, d[18].items,
        d[19].number, d[20].number,
        d[21].text, d[22].text,
        d[23].number, d[24].number,
        d[25].text, d[26].text,
        d[27].number, d[28].number,
        d[29].text, d[30].text,
        d[31].text))
  }

  /** Serialising fails exactly on a record with a NaN or an infinity. */
  lemma EncodeFailsOnlyOnNonFinite(a: QRAsset)
    ensures Encode(a).None? <==> !AllFinite(a)
  {
  }

  /** What is serialised has the record's shape. */
  lemma EncodeConforms(a: QRAsset)
    requires AllFinite(a)
    ensures Encode(a).Some? && Conforms(Encode(a).value)
  {
  }

  /** Parsing what was serialised gives the record back. */
  lemma DecodeEncode(a: QRAsset)
    requires AllFinite(a)
    ensures Encode(a).Some? && Decode(Encode(a).value) == Some(a)
  {
    EncodeConforms(a);
  }

  /** Each field of a parsed record serialises back to the value it was
      parsed from. */
  lemma DecodedField(d: Document, i: nat)
    requires Decode(d).Some? && i < FieldCount
    ensures FieldValue(Decode(d).value, i) == d[i]
  {
  }

  /** A document that parses is exactly the serialisation of what it parses
      to: the stored form of a record is unique. */
  lemma EncodeDecode(d: Document)
    requires Decode(d).Some?
    ensures Encode(Decode(d).value) == Some(d)
  {
    var r := Decode(d).value;
    assert Encode(r).Some?;
    var e := Encode(r).value;
    assert e == d by {
      forall i | 0 <= i < |d| ensures e[i] == d[i] {
        DecodedField(d, i);
      }
    }
  }

  /** Two records with the same serialisation are the same record. */
  lemma EncodeInjective(a: QRAsset, b: QRAsset)
    requires Encode(a).Some? && Encode(a) == Encode(b)
    ensures a == b
  {
    DecodeEncode(a);
    DecodeEncode(b);
  }
}
