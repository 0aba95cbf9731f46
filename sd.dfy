/**
 * The sales generator (generate_sd_data.py): customers (KNA1), sales-order
 * headers (VBAK) and sales-order lines (VBAP). The lines sell the materials
 * read back from MARA, at the standard price plus a markup of 30% to 80%.
 *
 * As for the procurement generator, every random draw is an input in the
 * range of its call, and values of the fake-data library are opaque inputs.
 * `random.choice` on an empty material list raises IndexError: VBAP is then
 * not produced, which the model returns as a Failure.
 */
module Sd {
  import opened Keys
  import opened Money
  import opened Lines
  import opened Mm

  datatype Result<T> = Success(value: T) | Failure(error: string)

  const CustomerCount := 40
  const SalesOrderCount := 300
  const MinSalesItems := 1
  const MaxSalesItems := 4
  const MaxSalesQuantity := 50
  /** `uniform(1.30, 1.80)` bounds of the markup on the standard price. */
  const MinMarkup: real := 1.30
  const MaxMarkup: real := 1.80
  const SalesOrganization := "1000"

  datatype Kna1 = Kna1(kunnr: string, name1: string, land1: string, ort01: string)
  datatype Vbak = Vbak(vbeln: string, vkorg: string, kunnr: string, audat: Day)
  datatype Vbap = Vbap(vbeln: string, posnr: nat, matnr: string, kwmeng: nat, netpr: Cents, netwr: Cents)

  /** One sales header's draws: the index `choice(customers)` took, and the `date_between` day. */
  datatype SalesOrderDraw = SalesOrderDraw(customer: nat, audat: Day)
  /** One sales line's draws: the index `choice(material_list)` took, `randint(1, 50)`, `uniform(1.30, 1.80)`. */
  datatype SalesItemDraw = SalesItemDraw(material: nat, qty: nat, markup: real)

  function Kunnrs(kna1: seq<Kna1>): (ks: seq<string>)
    ensures |ks| == |kna1| && forall i :: 0 <= i < |kna1| ==> ks[i] == kna1[i].kunnr
  {
    seq(|kna1|, i requires 0 <= i < |kna1| => kna1[i].kunnr)
  }

  function Vbelns(vbak: seq<Vbak>): (ks: seq<string>)
    ensures |ks| == |vbak| && forall i :: 0 <= i < |vbak| ==> ks[i] == vbak[i].vbeln
  {
    seq(|vbak|, i requires 0 <= i < |vbak| => vbak[i].vbeln)
  }

  /** The order key of a VBAP line. */
  function VbelnOf(line: Vbap): string { line.vbeln }

  // ---------------------------------------------------------------- KNA1

  function CustomerId(i: nat): string { SequentialKey("C", 5, i) }

  /** The customers the KNA1 loop builds, one per pair of fake values. */
  function Customers(fakes: seq<FakeParty>): (kna1: seq<Kna1>)
    requires |fakes| == CustomerCount
    ensures |kna1| == CustomerCount
  {
    seq(CustomerCount, i requires 0 <= i < CustomerCount => Kna1(CustomerId(i), fakes[i].company, "IT", fakes[i].city))
  }

  /** 40 customers "C00001" to "C00040", distinct, in country IT, with the fake company names and cities. */
  lemma CustomersFacts(fakes: seq<FakeParty>)
    requires |fakes| == CustomerCount
    ensures var kna1 := Customers(fakes);
      && (forall i :: 0 <= i < |kna1| ==>
        && kna1[i].kunnr == CustomerId(i)
        && IsKeyOf(kna1[i].kunnr, "C", 5)
        && kna1[i].land1 == "IT"
        && kna1[i].name1 == fakes[i].company
        && kna1[i].ort01 == fakes[i].city)
      && DistinctKeys(Kunnrs(kna1))
  {
    SequentialKeys("C", 5, CustomerCount);
  }

  /** The KNA1 loop. */
  method GenerateKna1(fakes: seq<FakeParty>) returns (kna1: seq<Kna1>)
    requires |fakes| == CustomerCount
    ensures kna1 == Customers(fakes)
  {
    kna1 := [];
    for i := 0 to CustomerCount
      invariant kna1 == Customers(fakes)[..i]
    {
      PrefixStep(Customers(fakes), i);
      kna1 := kna1 + [Kna1(CustomerId(i), fakes[i].company, "IT", fakes[i].city)];
    }
  }

  // ---------------------------------------------------------------- VBAK

  function SalesOrderId(i: nat): string { SequentialKey("10", 8, i) }

  /** Sales header i as the script builds it. */
  function SalesOrderRow(i: nat, d: SalesOrderDraw, kna1: seq<Kna1>): (order: Vbak)
    requires d.customer < |kna1|
    ensures order.vbeln == SalesOrderId(i) && order.vkorg == SalesOrganization && order.kunnr in Kunnrs(kna1)
  {
    assert Kunnrs(kna1)[d.customer] == kna1[d.customer].kunnr;
    Vbak(SalesOrderId(i), SalesOrganization, kna1[d.customer].kunnr, d.audat)
  }

  /** The headers the VBAK loop builds, one per draw. */
  function SalesOrders(kna1: seq<Kna1>, draws: seq<SalesOrderDraw>): (vbak: seq<Vbak>)
    requires |draws| == SalesOrderCount
    requires forall i :: 0 <= i < |draws| ==> draws[i].customer < |kna1|
    ensures |vbak| == SalesOrderCount
  {
    seq(SalesOrderCount, i requires 0 <= i < SalesOrderCount => SalesOrderRow(i, draws[i], kna1))
  }

  /** 300 orders "1000000001" to "1000000300" of sales organisation 1000, distinct, every customer one of KNA1's. */
  lemma SalesOrdersFacts(kna1: seq<Kna1>, draws: seq<SalesOrderDraw>)
    requires |draws| == SalesOrderCount
    requires forall i :: 0 <= i < |draws| ==> draws[i].customer < |kna1|
    ensures var vbak := SalesOrders(kna1, draws);
      && (forall i :: 0 <= i < |vbak| ==>
        && vbak[i].vbeln == SalesOrderId(i)
        && IsKeyOf(vbak[i].vbeln, "10", 8)
        && vbak[i].vkorg == SalesOrganization
        && vbak[i].kunnr in Kunnrs(kna1))
      && DistinctKeys(Vbelns(vbak))
  {
    SequentialKeys("10", 8, SalesOrderCount);
    var vbak := SalesOrders(kna1, draws);
    forall i | 0 <= i < |vbak| ensures vbak[i].kunnr in Kunnrs(kna1) {
      assert Kunnrs(kna1)[draws[i].customer] == vbak[i].kunnr;
    }
  }

  /** The VBAK loop. */
  method GenerateVbak(kna1: seq<Kna1>, draws: seq<SalesOrderDraw>) returns (vbak: seq<Vbak>)
    requires |draws| == SalesOrderCount
    requires forall i :: 0 <= i < |draws| ==> draws[i].customer < |kna1|
    ensures vbak == SalesOrders(kna1, draws)
  {
    vbak := [];
    for i := 0 to SalesOrderCount
      invariant vbak == SalesOrders(kna1, draws)[..i]
    {
      var d := draws[i];
      PrefixStep(SalesOrders(kna1, draws), i);
      vbak := vbak + [SalesOrderRow(i, d, kna1)];
    }
  }

  // ---------------------------------------------------------------- VBAP

  /** A line draw in range; the material index only means something when there are materials to choose from. */
  predicate ValidSalesItemDraw(d: SalesItemDraw, materialCount: nat) {
    && (materialCount > 0 ==> d.material < materialCount)
    && 1 <= d.qty <= MaxSalesQuantity
    && MinMarkup <= d.markup <= MaxMarkup
  }

  /** Line draws per header: `randint(1, 4)` lines, each with valid draws. */
  predicate ValidSalesItemDraws(draws: seq<seq<SalesItemDraw>>, materialCount: nat) {
    forall k :: 0 <= k < |draws| ==>
      && MinSalesItems <= |draws[k]| <= MaxSalesItems
      && forall j :: 0 <= j < |draws[k]| ==> ValidSalesItemDraw(draws[k][j], materialCount)
  }

  predicate SalesMaterialsInRange(draws: seq<seq<SalesItemDraw>>, materialCount: nat) {
    forall k, j :: 0 <= k < |draws| && 0 <= j < |draws[k]| ==> draws[k][j].material < materialCount
  }

  /** Line j of a sales order: NETPR is STPRS times the markup and NETWR is KWMENG times NETPR, both rounded to cents. */
  function SalesItemRow(vbeln: string, j: nat, d: SalesItemDraw, mara: seq<Mara>): (line: Vbap)
    requires d.material < |mara|
    ensures line.vbeln == vbeln && line.posnr == (j + 1) * 10 && line.matnr in Matnrs(mara)
    ensures line.netwr == line.kwmeng * line.netpr
  {
    var mat := mara[d.material];
    var netPrice := ScaleCents(mat.stprs, d.markup);
    assert Matnrs(mara)[d.material] == mat.matnr;
    RoundWhole(d.qty * netPrice);
    Vbap(vbeln, (j + 1) * 10, mat.matnr, d.qty, netPrice, RoundHalfEven((d.qty * netPrice) as real))
  }

  /** The lines of one sales header. */
  function SalesOrderItems(order: Vbak, ds: seq<SalesItemDraw>, mara: seq<Mara>): (items: seq<Vbap>)
    requires forall j :: 0 <= j < |ds| ==> ds[j].material < |mara|
    ensures |items| == |ds|
  {
    seq(|ds|, j requires 0 <= j < |ds| => SalesItemRow(order.vbeln, j, ds[j], mara))
  }

  function SalesItemBlocks(vbak: seq<Vbak>, draws: seq<seq<SalesItemDraw>>, mara: seq<Mara>): (blocks: seq<seq<Vbap>>)
    requires |draws| == |vbak| && SalesMaterialsInRange(draws, |mara|)
    ensures |blocks| == |vbak|
    ensures forall k :: 0 <= k < |vbak| ==> blocks[k] == SalesOrderItems(vbak[k], draws[k], mara)
    ensures Keyed(blocks, VbelnOf, Vbelns(vbak))
  {
    seq(|vbak|, k requires 0 <= k < |vbak| => SalesOrderItems(vbak[k], draws[k], mara))
  }

  /** The VBAP table the nested loop produces: the lines of each header, in header order. */
  function VbapOf(vbak: seq<Vbak>, draws: seq<seq<SalesItemDraw>>, mara: seq<Mara>): (vbap: seq<Vbap>)
    requires |draws| == |vbak| && SalesMaterialsInRange(draws, |mara|)
    ensures |vbap| == TotalSize(SalesItemBlocks(vbak, draws, mara))
  {
    Flatten(SalesItemBlocks(vbak, draws, mara))
  }

  /** What holds of every generated VBAP line. */
  predicate SalesItemFacts(line: Vbap, vbak: seq<Vbak>, mara: seq<Mara>) {
    && line.vbeln in Vbelns(vbak)
    && line.matnr in Matnrs(mara)
    && (exists m :: 0 <= m < |mara| && mara[m].matnr == line.matnr &&
          NetPriceInBand(line.netpr, mara[m].stprs, MinMarkup, MaxMarkup))
    && 1 <= line.kwmeng <= MaxSalesQuantity
    && line.netwr == line.kwmeng * line.netpr
    && line.posnr % 10 == 0 && 10 <= line.posnr <= 10 * MaxSalesItems
  }

  lemma SalesItemRowFacts(vbak: seq<Vbak>, k: nat, j: nat, d: SalesItemDraw, mara: seq<Mara>)
    requires k < |vbak| && j < MaxSalesItems && ValidSalesItemDraw(d, |mara|) && d.material < |mara|
    ensures SalesItemFacts(SalesItemRow(vbak[k].vbeln, j, d, mara), vbak, mara)
  {
    var line := SalesItemRow(vbak[k].vbeln, j, d, mara);
    var mat := mara[d.material];
    assert Vbelns(vbak)[k] == line.vbeln;
    RoundWhole(d.qty * line.netpr);
    if mat.stprs >= 0 {
      ScaleCentsWithin(mat.stprs, d.markup, MinMarkup, MaxMarkup);
    }
    assert mara[d.material].matnr == line.matnr;
    assert Matnrs(mara)[d.material] == line.matnr;
  }

  /**
   * The properties of the VBAP table: between 1 and 4 lines per header; every
   * line references an existing sales order and material, has a quantity in
   * [1, 50], a net price within half a cent of STPRS times [1.30, 1.80], and
   * NETWR = KWMENG * NETPR exactly; the lines come grouped by order in header
   * order, and the lines of order k are exactly its block, numbered 10, 20, ...
   */
  lemma VbapProperties(vbak: seq<Vbak>, draws: seq<seq<SalesItemDraw>>, mara: seq<Mara>)
    requires |draws| == |vbak| && |mara| > 0 && ValidSalesItemDraws(draws, |mara|)
    ensures SalesMaterialsInRange(draws, |mara|)
    ensures |vbak| <= |VbapOf(vbak, draws, mara)| <= MaxSalesItems * |vbak|
    ensures forall p :: 0 <= p < |VbapOf(vbak, draws, mara)| ==> SalesItemFacts(VbapOf(vbak, draws, mara)[p], vbak, mara)
    ensures DistinctKeys(Vbelns(vbak)) ==> GroupedBy(VbapOf(vbak, draws, mara), VbelnOf, Vbelns(vbak))
    ensures DistinctKeys(Vbelns(vbak)) ==> forall k :: 0 <= k < |vbak| ==>
      Select(VbapOf(vbak, draws, mara), VbelnOf, vbak[k].vbeln) == SalesOrderItems(vbak[k], draws[k], mara)
  {
    var blocks := SalesItemBlocks(vbak, draws, mara);
    var vbap := Flatten(blocks);
    TotalSizeBounds(blocks, MinSalesItems, MaxSalesItems);
    forall p | 0 <= p < |vbap| ensures SalesItemFacts(vbap[p], vbak, mara) {
      var k, j := FlattenAt(blocks, p);
      SalesItemRowFacts(vbak, k, j, draws[k][j], mara);
    }
    if DistinctKeys(Vbelns(vbak)) {
      FlattenGrouped(blocks, VbelnOf, Vbelns(vbak));
      forall k | 0 <= k < |vbak| ensures Select(vbap, VbelnOf, vbak[k].vbeln) == blocks[k] {
        SelectFlatten(blocks, VbelnOf, Vbelns(vbak), k);
      }
    }
  }

  /**
   * The inner VBAP loop: appends the lines of one order, numbered 10, 20 and
   * so on. With an empty MARA the first `random.choice` raises IndexError.
   */
  method AppendSalesItems(vbap: seq<Vbap>, order: Vbak, ds: seq<SalesItemDraw>, mara: seq<Mara>)
    returns (r: Result<seq<Vbap>>)
    requires forall j :: 0 <= j < |ds| ==> ValidSalesItemDraw(ds[j], |mara|)
    ensures r.Failure? <==> |mara| == 0 && |ds| > 0
    ensures r.Success? ==>
      && (forall j :: 0 <= j < |ds| ==> ds[j].material < |mara|)
      && r.value == vbap + SalesOrderItems(order, ds, mara)
  {
    if |ds| == 0 {
      return Success(vbap);
    }
    ghost var items := if |mara| > 0 then SalesOrderItems(order, ds, mara) else [];
    var out := vbap;
    for j := 0 to |ds|
      invariant j > 0 ==> |mara| > 0
      invariant |mara| > 0 ==> out == vbap + items[..j]
    {
      var d := ds[j];
      if |mara| == 0 {
        r := Failure("IndexError: Cannot choose from an empty sequence");
        return;
      }
      var mat := mara[d.material];
      var netPrice := ScaleCents(mat.stprs, d.markup);
      PrefixStep(items, j);
      out := out + [Vbap(order.vbeln, (j + 1) * 10, mat.matnr, d.qty, netPrice, RoundHalfEven((d.qty * netPrice) as real))];
    }
    assert items[..|ds|] == items;
    r := Success(out);
  }

  /**
   * The VBAP nested loop over the VBAK rows. With an empty MARA the first
   * `random.choice` fails (every header has at least one line); otherwise the
   * result is VbapOf.
   */
  method GenerateVbap(vbak: seq<Vbak>, mara: seq<Mara>, draws: seq<seq<SalesItemDraw>>) returns (r: Result<seq<Vbap>>)
    requires |draws| == |vbak| && ValidSalesItemDraws(draws, |mara|)
    ensures r.Failure? <==> |mara| == 0 && |vbak| > 0
    ensures r.Success? ==> SalesMaterialsInRange(draws, |mara|) && r.value == VbapOf(vbak, draws, mara)
  {
    if |vbak| > 0 && |mara| == 0 {
      assert |draws[0]| > 0;
    }
    assert |mara| > 0 ==> SalesMaterialsInRange(draws, |mara|);
    ghost var blocks := if |mara| > 0 then SalesItemBlocks(vbak, draws, mara) else [];
    var vbap := [];
    for i := 0 to |vbak|
      invariant i > 0 ==> |mara| > 0
      invariant |mara| > 0 ==> vbap == Flatten(blocks[..i])
      invariant |mara| == 0 ==> vbap == []
    {
      var res := AppendSalesItems(vbap, vbak[i], draws[i], mara);
      if res.Failure? {
        return res;
      }
      vbap := res.value;
      FlattenSnoc(blocks, i);
    }
    if |mara| > 0 {
      assert blocks[..|vbak|] == blocks;
    } else {
      assert SalesItemBlocks(vbak, draws, mara) == [];
    }
    r := Success(vbap);
  }

  /** Line numbers of a sales order are 10, 20, ...: strictly increasing, one per line. */
  lemma SalesItemNumbers(order: Vbak, ds: seq<SalesItemDraw>, mara: seq<Mara>)
    requires forall j :: 0 <= j < |ds| ==> ds[j].material < |mara|
    ensures forall j :: 0 <= j < |ds| ==> SalesOrderItems(order, ds, mara)[j].posnr == (j + 1) * 10
    ensures forall a, b :: 0 <= a < b < |ds| ==>
      SalesOrderItems(order, ds, mara)[a].posnr < SalesOrderItems(order, ds, mara)[b].posnr
  {
  }

  /**
   * The markup bound holds only up to rounding: a standard price of 10.01
   * with the smallest markup 1.30 is sold at round(13.013, 2) = 13.01, below
   * 1.30 times the standard price.
   */
  lemma MarkupBandIsApproximate()
    ensures ScaleCents(1001, MinMarkup) == 1301
    ensures (ScaleCents(1001, MinMarkup) as real) < 1001.0 * MinMarkup
  {
    assert 1001 as real * MinMarkup == 1301.3;
  }

  // ---------------------------------------------------------------- the script

  /**
   * The whole script over the MARA rows read: KNA1 and VBAK are always
   * written; VBAP fails exactly when there is no material to sell, and
   * otherwise holds 300 to 1200 lines with no dangling reference.
   */
  method RunSd(fakes: seq<FakeParty>, orderDraws: seq<SalesOrderDraw>, mara: seq<Mara>,
               itemDraws: seq<seq<SalesItemDraw>>)
    returns (kna1: seq<Kna1>, vbak: seq<Vbak>, vbap: Result<seq<Vbap>>)
    requires |fakes| == CustomerCount
    requires |orderDraws| == SalesOrderCount && forall i :: 0 <= i < |orderDraws| ==> orderDraws[i].customer < CustomerCount
    requires |itemDraws| == SalesOrderCount && ValidSalesItemDraws(itemDraws, |mara|)
    ensures |kna1| == CustomerCount && |vbak| == SalesOrderCount
    ensures DistinctKeys(Kunnrs(kna1)) && DistinctKeys(Vbelns(vbak))
    ensures forall i :: 0 <= i < |vbak| ==> vbak[i].kunnr in Kunnrs(kna1)
    ensures vbap.Failure? <==> |mara| == 0
    ensures vbap.Success? ==> SalesOrderCount <= |vbap.value| <= MaxSalesItems * SalesOrderCount
    ensures vbap.Success? ==> forall p :: 0 <= p < |vbap.value| ==> SalesItemFacts(vbap.value[p], vbak, mara)
    ensures vbap.Success? ==> GroupedBy(vbap.value, VbelnOf, Vbelns(vbak))
    ensures kna1 == Customers(fakes) && vbak == SalesOrders(kna1, orderDraws)
    ensures vbap.Success? ==> SalesMaterialsInRange(itemDraws, |mara|) && vbap.value == VbapOf(vbak, itemDraws, mara)
  {
    kna1 := GenerateKna1(fakes);
    CustomersFacts(fakes);
    vbak := GenerateVbak(kna1, orderDraws);
    SalesOrdersFacts(kna1, orderDraws);
    vbap := GenerateVbap(vbak, mara, itemDraws);
    if vbap.Success? {
      VbapProperties(vbak, itemDraws, mara);
    }
  }
}
