/**
 * The procurement generator (generate_mm_data.py): vendors (LFA1), materials
 * (MARA), purchase-order headers (EKKO) and purchase-order lines (EKPO).
 *
 * Each random draw of the script is an input here, constrained to the range
 * of the `randint`/`uniform`/`choice` call it stands for; values supplied by
 * the fake-data library (company names, cities, model codes, dates) are
 * opaque inputs. Each table is returned whole: the `to_sql(..., 'replace')`
 * that follows makes the table exactly the returned sequence.
 */
module Mm {
  import opened Keys
  import opened Money
  import opened Lines

  /** A calendar day, as a day number. */
  type Day = int

  const VendorCount := 50
  const MaterialCount := 100
  const OrderCount := 500
  const MinItems := 1
  const MaxItems := 5
  const MaxQuantity := 100
  /** `uniform(10.0, 5000.0)` bounds of the standard price, in currency units. */
  const MinStandardPrice := 10
  const MaxStandardPrice := 5000
  /** `uniform(0.90, 1.10)` bounds of the negotiated price factor. */
  const MinPriceFactor: real := 0.90
  const MaxPriceFactor: real := 1.10
  const CompanyCode := "1000"
  const MaterialTypes: seq<string> := [
    "Cuscinetto a sfera", "Motore Elettrico 50kW", "Cavo di Rame 100m", "Quadro Elettrico",
    "Valvola di Pressione", "Sensore Termico", "Pompa Idraulica"
  ]

  datatype Lfa1 = Lfa1(lifnr: string, name1: string, land1: string, ort01: string)
  datatype Mara = Mara(matnr: string, mtart: string, maktx: string, stprs: Cents)
  datatype Ekko = Ekko(ebeln: string, bukrs: string, lifnr: string, aedat: Day)
  datatype Ekpo = Ekpo(ebeln: string, ebelp: nat, matnr: string, menge: nat, netpr: Cents, netwr: Cents)

  /** What the fake-data library supplies for one business partner: `company()` and `city()`. */
  datatype FakeParty = FakeParty(company: string, city: string)
  /** One material's draws: the index `choice(material_types)` took, the `bothify` code, `uniform(10.0, 5000.0)`. */
  datatype MaterialDraw = MaterialDraw(kind: nat, code: string, price: real)
  /** One order header's draws: the index `choice(vendors)` took, and the `date_between` day. */
  datatype OrderDraw = OrderDraw(vendor: nat, aedat: Day)
  /** One order line's draws: the index `choice(materials)` took, `randint(1, 100)`, `uniform(0.90, 1.10)`. */
  datatype ItemDraw = ItemDraw(material: nat, qty: nat, factor: real)

  function Lifnrs(vendors: seq<Lfa1>): (ks: seq<string>)
    ensures |ks| == |vendors| && forall i :: 0 <= i < |vendors| ==> ks[i] == vendors[i].lifnr
  {
    seq(|vendors|, i requires 0 <= i < |vendors| => vendors[i].lifnr)
  }

  function Matnrs(mara: seq<Mara>): (ks: seq<string>)
    ensures |ks| == |mara| && forall i :: 0 <= i < |mara| ==> ks[i] == mara[i].matnr
  {
    seq(|mara|, i requires 0 <= i < |mara| => mara[i].matnr)
  }

  function Ebelns(ekko: seq<Ekko>): (ks: seq<string>)
    ensures |ks| == |ekko| && forall i :: 0 <= i < |ekko| ==> ks[i] == ekko[i].ebeln
  {
    seq(|ekko|, i requires 0 <= i < |ekko| => ekko[i].ebeln)
  }

  /** The order key of an EKPO line, the column `df[df['EBELN'] == ebeln]` filters on. */
  function EbelnOf(line: Ekpo): string { line.ebeln }

  // ---------------------------------------------------------------- LFA1

  function VendorId(i: nat): string { SequentialKey("V", 5, i) }

  /** The vendor list comprehension: vendor i is "V" + zfill(5) of i + 1, in country IT. */
  function Vendors(fakes: seq<FakeParty>): (vendors: seq<Lfa1>)
    requires |fakes| == VendorCount
    ensures |vendors| == VendorCount
  {
    seq(VendorCount, i requires 0 <= i < VendorCount =>
      Lfa1(VendorId(i), fakes[i].company, "IT", fakes[i].city))
  }

  /** 50 vendors "V00001" to "V00050", distinct, in country IT, with the fake company names and cities. */
  lemma VendorsFacts(fakes: seq<FakeParty>)
    requires |fakes| == VendorCount
    ensures var vendors := Vendors(fakes);
      && (forall i :: 0 <= i < |vendors| ==>
        && vendors[i].lifnr == VendorId(i)
        && IsKeyOf(vendors[i].lifnr, "V", 5)
        && vendors[i].land1 == "IT"
        && vendors[i].name1 == fakes[i].company
        && vendors[i].ort01 == fakes[i].city)
      && DistinctKeys(Lifnrs(vendors))
  {
    SequentialKeys("V", 5, VendorCount);
  }

  // ---------------------------------------------------------------- MARA

  function MaterialId(i: nat): string { SequentialKey("MAT-", 5, i) }

  predicate ValidMaterialDraw(d: MaterialDraw) {
    d.kind < |MaterialTypes| && MinStandardPrice as real <= d.price <= MaxStandardPrice as real
  }

  /** Material i as the script builds it: a raw material whose standard price is the drawn amount in cents. */
  function MaterialRow(i: nat, d: MaterialDraw): (m: Mara)
    requires ValidMaterialDraw(d)
    ensures m.mtart == "ROH" && MinStandardPrice * 100 <= m.stprs <= MaxStandardPrice * 100
  {
    RoundCentsWithin(d.price, MinStandardPrice, MaxStandardPrice);
    Mara(MaterialId(i), "ROH", MaterialTypes[d.kind] + " - Mod. " + d.code, RoundCents(d.price))
  }

  /** The materials the MARA loop builds, one row per draw. */
  function Materials(draws: seq<MaterialDraw>): (mara: seq<Mara>)
    requires |draws| == MaterialCount
    requires forall i :: 0 <= i < |draws| ==> ValidMaterialDraw(draws[i])
    ensures |mara| == MaterialCount
  {
    seq(MaterialCount, i requires 0 <= i < MaterialCount => MaterialRow(i, draws[i]))
  }

  /** 100 raw materials "MAT-00001" to "MAT-00100", distinct, with a standard price of 10.00 to 5000.00. */
  lemma MaterialsFacts(draws: seq<MaterialDraw>)
    requires |draws| == MaterialCount
    requires forall i :: 0 <= i < |draws| ==> ValidMaterialDraw(draws[i])
    ensures var mara := Materials(draws);
      && (forall i :: 0 <= i < |mara| ==>
        && mara[i].matnr == MaterialId(i)
        && IsKeyOf(mara[i].matnr, "MAT-", 5)
        && mara[i].mtart == "ROH"
        && MinStandardPrice * 100 <= mara[i].stprs <= MaxStandardPrice * 100)
      && DistinctKeys(Matnrs(mara))
  {
    SequentialKeys("MAT-", 5, MaterialCount);
  }

  /** The MARA loop. */
  method GenerateMara(draws: seq<MaterialDraw>) returns (mara: seq<Mara>)
    requires |draws| == MaterialCount
    requires forall i :: 0 <= i < |draws| ==> ValidMaterialDraw(draws[i])
    ensures mara == Materials(draws)
  {
    mara := [];
    for i := 0 to MaterialCount
      invariant mara == Materials(draws)[..i]
    {
      var d := draws[i];
      PrefixStep(Materials(draws), i);
      mara := mara + [MaterialRow(i, d)];
    }
  }

  // ---------------------------------------------------------------- EKKO

  function OrderId(i: nat): string { SequentialKey("45", 8, i) }

  /** Order header i as the script builds it. */
  function OrderRow(i: nat, d: OrderDraw, vendors: seq<Lfa1>): (order: Ekko)
    requires d.vendor < |vendors|
    ensures order.ebeln == OrderId(i) && order.bukrs == CompanyCode && order.lifnr in Lifnrs(vendors)
  {
    assert Lifnrs(vendors)[d.vendor] == vendors[d.vendor].lifnr;
    Ekko(OrderId(i), CompanyCode, vendors[d.vendor].lifnr, d.aedat)
  }

  /** The headers the EKKO loop builds, one per draw. */
  function Orders(vendors: seq<Lfa1>, draws: seq<OrderDraw>): (ekko: seq<Ekko>)
    requires |draws| == OrderCount
    requires forall i :: 0 <= i < |draws| ==> draws[i].vendor < |vendors|
    ensures |ekko| == OrderCount
  {
    seq(OrderCount, i requires 0 <= i < OrderCount => OrderRow(i, draws[i], vendors))
  }

  /** 500 orders "4500000001" to "4500000500" of company 1000, distinct, every vendor one of the given vendors. */
  lemma OrdersFacts(vendors: seq<Lfa1>, draws: seq<OrderDraw>)
    requires |draws| == OrderCount
    requires forall i :: 0 <= i < |draws| ==> draws[i].vendor < |vendors|
    ensures var ekko := Orders(vendors, draws);
      && (forall i :: 0 <= i < |ekko| ==>
        && ekko[i].ebeln == OrderId(i)
        && IsKeyOf(ekko[i].ebeln, "45", 8)
        && ekko[i].bukrs == CompanyCode
        && ekko[i].lifnr in Lifnrs(vendors))
      && DistinctKeys(Ebelns(ekko))
  {
    SequentialKeys("45", 8, OrderCount);
    var ekko := Orders(vendors, draws);
    forall i | 0 <= i < |ekko| ensures ekko[i].lifnr in Lifnrs(vendors) {
      assert Lifnrs(vendors)[draws[i].vendor] == ekko[i].lifnr;
    }
  }

  /** The EKKO loop. */
  method GenerateEkko(vendors: seq<Lfa1>, draws: seq<OrderDraw>) returns (ekko: seq<Ekko>)
    requires |draws| == OrderCount
    requires forall i :: 0 <= i < |draws| ==> draws[i].vendor < |vendors|
    ensures ekko == Orders(vendors, draws)
  {
    ekko := [];
    for i := 0 to OrderCount
      invariant ekko == Orders(vendors, draws)[..i]
    {
      var d := draws[i];
      PrefixStep(Orders(vendors, draws), i);
      ekko := ekko + [OrderRow(i, d, vendors)];
    }
  }

  // ---------------------------------------------------------------- EKPO

  predicate ValidItemDraw(d: ItemDraw, materialCount: nat) {
    && d.material < materialCount
    && 1 <= d.qty <= MaxQuantity
    && MinPriceFactor <= d.factor <= MaxPriceFactor
  }

  /** Line draws per header: `randint(1, 5)` lines, each with valid draws. */
  predicate ValidItemDraws(draws: seq<seq<ItemDraw>>, materialCount: nat) {
    forall k :: 0 <= k < |draws| ==>
      && MinItems <= |draws[k]| <= MaxItems
      && forall j :: 0 <= j < |draws[k]| ==> ValidItemDraw(draws[k][j], materialCount)
  }

  predicate MaterialsInRange(draws: seq<seq<ItemDraw>>, materialCount: nat) {
    forall k, j :: 0 <= k < |draws| && 0 <= j < |draws[k]| ==> draws[k][j].material < materialCount
  }

  /** Line j of an order, as the script builds it. */
  function ItemRow(ebeln: string, j: nat, d: ItemDraw, mara: seq<Mara>): (line: Ekpo)
    requires d.material < |mara|
    ensures line.ebeln == ebeln && line.ebelp == (j + 1) * 10 && line.matnr in Matnrs(mara)
    ensures line.netwr == line.menge * line.netpr
  {
    var mat := mara[d.material];
    var netPrice := ScaleCents(mat.stprs, d.factor);
    assert Matnrs(mara)[d.material] == mat.matnr;
    RoundWhole(d.qty * netPrice);
    Ekpo(ebeln, (j + 1) * 10, mat.matnr, d.qty, netPrice, RoundHalfEven((d.qty * netPrice) as real))
  }

  /** The lines of one order header. */
  function OrderItems(order: Ekko, ds: seq<ItemDraw>, mara: seq<Mara>): (items: seq<Ekpo>)
    requires forall j :: 0 <= j < |ds| ==> ds[j].material < |mara|
    ensures |items| == |ds|
  {
    seq(|ds|, j requires 0 <= j < |ds| => ItemRow(order.ebeln, j, ds[j], mara))
  }

  /** Line numbers of an order are 10, 20, ...: strictly increasing, one per line. */
  lemma ItemNumbers(order: Ekko, ds: seq<ItemDraw>, mara: seq<Mara>)
    requires forall j :: 0 <= j < |ds| ==> ds[j].material < |mara|
    ensures forall j :: 0 <= j < |ds| ==> OrderItems(order, ds, mara)[j].ebelp == (j + 1) * 10
    ensures forall a, b :: 0 <= a < b < |ds| ==>
      OrderItems(order, ds, mara)[a].ebelp < OrderItems(order, ds, mara)[b].ebelp
  {
  }

  function ItemBlocks(ekko: seq<Ekko>, draws: seq<seq<ItemDraw>>, mara: seq<Mara>): (blocks: seq<seq<Ekpo>>)
    requires |draws| == |ekko| && MaterialsInRange(draws, |mara|)
    ensures |blocks| == |ekko|
    ensures forall k :: 0 <= k < |ekko| ==> blocks[k] == OrderItems(ekko[k], draws[k], mara)
    ensures Keyed(blocks, EbelnOf, Ebelns(ekko))
  {
    seq(|ekko|, k requires 0 <= k < |ekko| => OrderItems(ekko[k], draws[k], mara))
  }

  /** The EKPO table the nested loop produces: the lines of each header, in header order. */
  function EkpoOf(ekko: seq<Ekko>, draws: seq<seq<ItemDraw>>, mara: seq<Mara>): seq<Ekpo>
    requires |draws| == |ekko| && MaterialsInRange(draws, |mara|)
  {
    Flatten(ItemBlocks(ekko, draws, mara))
  }

  /** NETPR is the standard price times a factor in [0.90, 1.10], rounded: so within half a cent of that band. */
  predicate NetPriceInBand(netpr: Cents, stprs: Cents, lo: real, hi: real) {
    stprs >= 0 ==> stprs as real * lo - 0.5 <= netpr as real <= stprs as real * hi + 0.5
  }

  /** What holds of every generated EKPO line. */
  predicate ItemFacts(line: Ekpo, ekko: seq<Ekko>, mara: seq<Mara>) {
    && line.ebeln in Ebelns(ekko)
    && line.matnr in Matnrs(mara)
    && (exists m :: 0 <= m < |mara| && mara[m].matnr == line.matnr &&
          NetPriceInBand(line.netpr, mara[m].stprs, MinPriceFactor, MaxPriceFactor))
    && 1 <= line.menge <= MaxQuantity
    && line.netwr == line.menge * line.netpr
    && line.ebelp % 10 == 0 && 10 <= line.ebelp <= 10 * MaxItems
  }

  lemma ItemRowFacts(ekko: seq<Ekko>, k: nat, j: nat, d: ItemDraw, mara: seq<Mara>)
    requires k < |ekko| && j < MaxItems && ValidItemDraw(d, |mara|)
    ensures ItemFacts(ItemRow(ekko[k].ebeln, j, d, mara), ekko, mara)
  {
    var line := ItemRow(ekko[k].ebeln, j, d, mara);
    var mat := mara[d.material];
    assert Ebelns(ekko)[k] == line.ebeln;
    RoundWhole(d.qty * line.netpr);
    if mat.stprs >= 0 {
      ScaleCentsWithin(mat.stprs, d.factor, MinPriceFactor, MaxPriceFactor);
    }
    assert mara[d.material].matnr == line.matnr;
    assert Matnrs(mara)[d.material] == line.matnr;
  }

  /**
   * The properties of the EKPO table: between 1 and 5 lines per header; every
   * line references an existing order and material, has a quantity in [1, 100]
   * and NETWR = MENGE * NETPR exactly; with distinct order keys the lines come
   * grouped by order in header order, and the lines of order k are exactly its
   * block, numbered 10, 20, ...
   */
  lemma EkpoProperties(ekko: seq<Ekko>, draws: seq<seq<ItemDraw>>, mara: seq<Mara>)
    requires |draws| == |ekko| && ValidItemDraws(draws, |mara|)
    ensures MaterialsInRange(draws, |mara|)
    ensures |ekko| <= |EkpoOf(ekko, draws, mara)| <= MaxItems * |ekko|
    ensures forall p :: 0 <= p < |EkpoOf(ekko, draws, mara)| ==> ItemFacts(EkpoOf(ekko, draws, mara)[p], ekko, mara)
    ensures DistinctKeys(Ebelns(ekko)) ==> GroupedBy(EkpoOf(ekko, draws, mara), EbelnOf, Ebelns(ekko))
    ensures DistinctKeys(Ebelns(ekko)) ==> forall k :: 0 <= k < |ekko| ==>
      Select(EkpoOf(ekko, draws, mara), EbelnOf, ekko[k].ebeln) == OrderItems(ekko[k], draws[k], mara)
  {
    var blocks := ItemBlocks(ekko, draws, mara);
    var ekpo := Flatten(blocks);
    TotalSizeBounds(blocks, MinItems, MaxItems);
    forall p | 0 <= p < |ekpo| ensures ItemFacts(ekpo[p], ekko, mara) {
      var k, j := FlattenAt(blocks, p);
      ItemRowFacts(ekko, k, j, draws[k][j], mara);
    }
    if DistinctKeys(Ebelns(ekko)) {
      FlattenGrouped(blocks, EbelnOf, Ebelns(ekko));
      forall k | 0 <= k < |ekko| ensures Select(ekpo, EbelnOf, ekko[k].ebeln) == blocks[k] {
        SelectFlatten(blocks, EbelnOf, Ebelns(ekko), k);
      }
    }
  }

  /** The inner EKPO loop: appends the lines of one order, numbered 10, 20 and so on. */
  method AppendItems(ekpo: seq<Ekpo>, order: Ekko, ds: seq<ItemDraw>, mara: seq<Mara>) returns (out: seq<Ekpo>)
    requires forall j :: 0 <= j < |ds| ==> ds[j].material < |mara|
    ensures out == ekpo + OrderItems(order, ds, mara)
  {
    ghost var items := OrderItems(order, ds, mara);
    out := ekpo;
    for j := 0 to |ds|
      invariant out == ekpo + items[..j]
    {
      var d := ds[j];
      var mat := mara[d.material];
      var netPrice := ScaleCents(mat.stprs, d.factor);
      PrefixStep(items, j);
      out := out + [Ekpo(order.ebeln, (j + 1) * 10, mat.matnr, d.qty, netPrice, RoundHalfEven((d.qty * netPrice) as real))];
    }
    assert items[..|ds|] == items;
  }

  /** The EKPO nested loop over the EKKO rows. */
  method GenerateEkpo(ekko: seq<Ekko>, mara: seq<Mara>, draws: seq<seq<ItemDraw>>) returns (ekpo: seq<Ekpo>)
    requires |draws| == |ekko| && ValidItemDraws(draws, |mara|)
    ensures MaterialsInRange(draws, |mara|) && ekpo == EkpoOf(ekko, draws, mara)
  {
    assert MaterialsInRange(draws, |mara|);
    ghost var blocks := ItemBlocks(ekko, draws, mara);
    ekpo := [];
    for i := 0 to |ekko|
      invariant ekpo == Flatten(blocks[..i])
    {
      ekpo := AppendItems(ekpo, ekko[i], draws[i], mara);
      FlattenSnoc(blocks, i);
    }
    assert blocks[..|ekko|] == blocks;
  }

  // ---------------------------------------------------------------- the script

  /**
   * The whole script: LFA1, MARA, EKKO, EKPO in that order, each built from
   * the one before; 50 vendors, 100 materials, 500 orders and 500 to 2500
   * lines, with no dangling reference.
   */
  method RunMm(fakes: seq<FakeParty>, materialDraws: seq<MaterialDraw>, orderDraws: seq<OrderDraw>,
               itemDraws: seq<seq<ItemDraw>>)
    returns (lfa1: seq<Lfa1>, mara: seq<Mara>, ekko: seq<Ekko>, ekpo: seq<Ekpo>)
    requires |fakes| == VendorCount
    requires |materialDraws| == MaterialCount && forall i :: 0 <= i < |materialDraws| ==> ValidMaterialDraw(materialDraws[i])
    requires |orderDraws| == OrderCount && forall i :: 0 <= i < |orderDraws| ==> orderDraws[i].vendor < VendorCount
    requires |itemDraws| == OrderCount && ValidItemDraws(itemDraws, MaterialCount)
    ensures |lfa1| == VendorCount && |mara| == MaterialCount && |ekko| == OrderCount
    ensures OrderCount <= |ekpo| <= MaxItems * OrderCount
    ensures DistinctKeys(Lifnrs(lfa1)) && DistinctKeys(Matnrs(mara)) && DistinctKeys(Ebelns(ekko))
    ensures forall i :: 0 <= i < |ekko| ==> ekko[i].lifnr in Lifnrs(lfa1)
    ensures forall p :: 0 <= p < |ekpo| ==> ItemFacts(ekpo[p], ekko, mara)
    ensures lfa1 == Vendors(fakes) && mara == Materials(materialDraws) && ekko == Orders(lfa1, orderDraws)
    ensures MaterialsInRange(itemDraws, |mara|) && ekpo == EkpoOf(ekko, itemDraws, mara)
  {
    lfa1 := Vendors(fakes);
    VendorsFacts(fakes);
    mara := GenerateMara(materialDraws);
    MaterialsFacts(materialDraws);
    ekko := GenerateEkko(lfa1, orderDraws);
    OrdersFacts(lfa1, orderDraws);
    ekpo := GenerateEkpo(ekko, mara, itemDraws);
    EkpoProperties(ekko, itemDraws, mara);
  }
}
