/**
 * The generators run one after the other over a shared database: the
 * financial generator reads back the EKKO and EKPO tables the procurement
 * generator wrote, and the sales generator reads back its MARA table.
 * Composed this way, every purchase-order line is invoiced exactly once and
 * every sales line can be priced.
 */
module Batch {
  import opened Lines
  import opened Mm
  import opened Fi
  import opened Sd

  /** One variance draw per purchase-order line, each valid: the FI draws for an EKPO laid out as MM writes it. */
  predicate VariancesFit(variances: seq<seq<Variance>>, itemDraws: seq<seq<ItemDraw>>) {
    && |variances| == |itemDraws|
    && forall k :: 0 <= k < |itemDraws| ==>
      && |variances[k]| == |itemDraws[k]|
      && forall j :: 0 <= j < |variances[k]| ==> ValidVariance(variances[k][j])
  }

  /**
   * BKPF and BSEG are what FI writes for these EKKO/EKPO tables and draws:
   * the run is well formed, BKPF is `Documents` of it and BSEG is
   * `BsegUpTo` of it after its last document, so `DocumentFacts`,
   * `DocumentOrder`, `BsegLayout`, `DocDebitsFacts` and `AllBalanced` apply.
   */
  ghost predicate Invoiced(ekko: seq<Ekko>, ekpo: seq<Ekpo>, delays: seq<int>, variances: seq<seq<Variance>>,
                           yearOf: Day -> int, bkpf: seq<Bkpf>, bseg: seq<Bseg>)
  {
    var run := FiRun(ekko, ekpo, delays, variances, yearOf);
    ValidRun(run) && bkpf == Documents(run) && bseg == BsegUpTo(run, |ekko|)
  }

  /** Invoice k references purchase order k and balances in BSEG. */
  predicate Reconciled(ekko: seq<Ekko>, bkpf: seq<Bkpf>, bseg: seq<Bseg>)
    requires |bkpf| == |ekko|
  {
    forall k :: 0 <= k < |bkpf| ==> bkpf[k].awkey == ekko[k].ebeln && Balanced(bseg, bkpf[k].belnr)
  }

  /** MM's EKPO layout is what FI reads: one block per header, keyed by its EBELN, with one valid variance draw per line. */
  lemma LayoutFits(ekko: seq<Ekko>, mara: seq<Mara>, itemDraws: seq<seq<ItemDraw>>, variances: seq<seq<Variance>>)
    requires |itemDraws| == |ekko| && MaterialsInRange(itemDraws, |mara|) && VariancesFit(variances, itemDraws)
    ensures var blocks := ItemBlocks(ekko, itemDraws, mara);
      && Keyed(blocks, EbelnOf, Ebelns(ekko))
      && |variances| == |blocks|
      && forall k :: 0 <= k < |blocks| ==>
        && |variances[k]| == |blocks[k]|
        && forall j :: 0 <= j < |variances[k]| ==> ValidVariance(variances[k][j])
  {
  }

  /**
   * FI over EKKO/EKPO in MM's layout (the lines of header k form block k):
   * one invoice per order, referencing it, one credit per invoice and one
   * debit per EKPO line, and every invoice balances. BKPF and BSEG are
   * exactly FI's `Documents` and `BsegUpTo` of the run.
   */
  method InvoiceOrders(ekko: seq<Ekko>, ekpo: seq<Ekpo>, ghost blocks: seq<seq<Ekpo>>,
                       delays: seq<int>, variances: seq<seq<Variance>>, yearOf: Day -> int)
    returns (bkpf: seq<Bkpf>, bseg: seq<Bseg>)
    requires Keyed(blocks, EbelnOf, Ebelns(ekko)) && DistinctKeys(Ebelns(ekko)) && ekpo == Flatten(blocks)
    requires |delays| == |ekko| && forall k :: 0 <= k < |delays| ==> MinDelay <= delays[k] <= MaxDelay
    requires |variances| == |blocks|
    requires forall k :: 0 <= k < |blocks| ==>
      && |variances[k]| == |blocks[k]|
      && forall j :: 0 <= j < |variances[k]| ==> ValidVariance(variances[k][j])
    ensures |bkpf| == |ekko| && |bseg| == |ekko| + |ekpo|
    ensures Reconciled(ekko, bkpf, bseg)
    ensures Invoiced(ekko, ekpo, delays, variances, yearOf, bkpf, bseg)
  {
    ghost var run := FiRun(ekko, ekpo, delays, variances, yearOf);
    MatchedOverGrouped(run, blocks);
    assert ValidRun(run);
    bkpf, bseg := GenerateFi(ekko, ekpo, delays, variances, yearOf);
    DocumentFacts(run);
    AllBalanced(run);
  }

  /**
   * MM, with EKKO and EKPO laid out as FI reads them: the lines of header k
   * form block k, keyed by its EBELN, and each line has its variance draw.
   */
  method Procure(fakes: seq<FakeParty>, materialDraws: seq<MaterialDraw>, orderDraws: seq<OrderDraw>,
                 itemDraws: seq<seq<ItemDraw>>, variances: seq<seq<Variance>>)
    returns (mara: seq<Mara>, ekko: seq<Ekko>, ekpo: seq<Ekpo>, ghost blocks: seq<seq<Ekpo>>)
    requires |fakes| == VendorCount
    requires |materialDraws| == MaterialCount && forall i :: 0 <= i < |materialDraws| ==> ValidMaterialDraw(materialDraws[i])
    requires |orderDraws| == OrderCount && forall i :: 0 <= i < |orderDraws| ==> orderDraws[i].vendor < VendorCount
    requires |itemDraws| == OrderCount && ValidItemDraws(itemDraws, MaterialCount)
    requires VariancesFit(variances, itemDraws)
    ensures |ekko| == OrderCount && OrderCount <= |ekpo| <= MaxItems * OrderCount
    ensures Keyed(blocks, EbelnOf, Ebelns(ekko)) && DistinctKeys(Ebelns(ekko)) && ekpo == Flatten(blocks)
    ensures |variances| == |blocks|
    ensures forall k :: 0 <= k < |blocks| ==>
      && |variances[k]| == |blocks[k]|
      && forall j :: 0 <= j < |variances[k]| ==> ValidVariance(variances[k][j])
    ensures mara == Materials(materialDraws) && ekko == Orders(Vendors(fakes), orderDraws)
    ensures MaterialsInRange(itemDraws, |mara|) && ekpo == EkpoOf(ekko, itemDraws, mara)
  {
    var lfa1;
    lfa1, mara, ekko, ekpo := RunMm(fakes, materialDraws, orderDraws, itemDraws);
    blocks := ItemBlocks(ekko, itemDraws, mara);
    LayoutFits(ekko, mara, itemDraws, variances);
  }

  /**
   * MM, then FI over MM's EKKO/EKPO: one balanced invoice per purchase
   * order, referencing it, and one credit per invoice and one debit per
   * EKPO line, so 1000 to 3000 BSEG lines. MARA, EKKO and EKPO are MM's
   * `Materials`, `Orders` and `EkpoOf` of the draws, and BKPF and BSEG are
   * FI's `Documents` and `BsegUpTo` over them.
   */
  method ProcureAndInvoice(fakes: seq<FakeParty>, materialDraws: seq<MaterialDraw>, orderDraws: seq<OrderDraw>,
                           itemDraws: seq<seq<ItemDraw>>,
                           delays: seq<int>, variances: seq<seq<Variance>>, yearOf: Day -> int)
    returns (mara: seq<Mara>, ekko: seq<Ekko>, ekpo: seq<Ekpo>, bkpf: seq<Bkpf>, bseg: seq<Bseg>)
    requires |fakes| == VendorCount
    requires |materialDraws| == MaterialCount && forall i :: 0 <= i < |materialDraws| ==> ValidMaterialDraw(materialDraws[i])
    requires |orderDraws| == OrderCount && forall i :: 0 <= i < |orderDraws| ==> orderDraws[i].vendor < VendorCount
    requires |itemDraws| == OrderCount && ValidItemDraws(itemDraws, MaterialCount)
    requires |delays| == OrderCount && forall k :: 0 <= k < |delays| ==> MinDelay <= delays[k] <= MaxDelay
    requires VariancesFit(variances, itemDraws)
    ensures |bkpf| == |ekko| == OrderCount
    ensures |bseg| == |ekko| + |ekpo|
    ensures 2 * OrderCount <= |bseg| <= (1 + MaxItems) * OrderCount
    ensures Reconciled(ekko, bkpf, bseg)
    ensures mara == Materials(materialDraws) && ekko == Orders(Vendors(fakes), orderDraws)
    ensures MaterialsInRange(itemDraws, |mara|) && ekpo == EkpoOf(ekko, itemDraws, mara)
    ensures Invoiced(ekko, ekpo, delays, variances, yearOf, bkpf, bseg)
  {
    ghost var blocks;
    mara, ekko, ekpo, blocks := Procure(fakes, materialDraws, orderDraws, itemDraws, variances);
    bkpf, bseg := InvoiceOrders(ekko, ekpo, blocks, delays, variances, yearOf);
  }

  /**
   * MM, then FI over MM's EKKO/EKPO, then SD over MM's MARA: every table
   * is the specification function of its draws, and VBAP is always
   * produced, since MARA is never empty.
   */
  method RunBatch(fakes: seq<FakeParty>, materialDraws: seq<MaterialDraw>, orderDraws: seq<OrderDraw>,
                  itemDraws: seq<seq<ItemDraw>>,
                  delays: seq<int>, variances: seq<seq<Variance>>, yearOf: Day -> int,
                  customerFakes: seq<FakeParty>, salesOrderDraws: seq<SalesOrderDraw>,
                  salesItemDraws: seq<seq<SalesItemDraw>>)
    returns (ekko: seq<Ekko>, ekpo: seq<Ekpo>, bkpf: seq<Bkpf>, bseg: seq<Bseg>, vbap: Result<seq<Vbap>>)
    requires |fakes| == VendorCount
    requires |materialDraws| == MaterialCount && forall i :: 0 <= i < |materialDraws| ==> ValidMaterialDraw(materialDraws[i])
    requires |orderDraws| == OrderCount && forall i :: 0 <= i < |orderDraws| ==> orderDraws[i].vendor < VendorCount
    requires |itemDraws| == OrderCount && ValidItemDraws(itemDraws, MaterialCount)
    requires |delays| == OrderCount && forall k :: 0 <= k < |delays| ==> MinDelay <= delays[k] <= MaxDelay
    requires VariancesFit(variances, itemDraws)
    requires |customerFakes| == CustomerCount
    requires |salesOrderDraws| == SalesOrderCount
    requires forall i :: 0 <= i < |salesOrderDraws| ==> salesOrderDraws[i].customer < CustomerCount
    requires |salesItemDraws| == SalesOrderCount && ValidSalesItemDraws(salesItemDraws, MaterialCount)
    ensures |bkpf| == |ekko| == OrderCount
    ensures |bseg| == |ekko| + |ekpo|
    ensures 2 * OrderCount <= |bseg| <= (1 + MaxItems) * OrderCount
    ensures Reconciled(ekko, bkpf, bseg)
    ensures vbap.Success?
    ensures vbap.value == VbapOf(SalesOrders(Customers(customerFakes), salesOrderDraws), salesItemDraws, Materials(materialDraws))
    ensures ekko == Orders(Vendors(fakes), orderDraws)
    ensures MaterialsInRange(itemDraws, MaterialCount) && ekpo == EkpoOf(ekko, itemDraws, Materials(materialDraws))
    ensures Invoiced(ekko, ekpo, delays, variances, yearOf, bkpf, bseg)
  {
    var mara;
    mara, ekko, ekpo, bkpf, bseg := ProcureAndInvoice(fakes, materialDraws, orderDraws, itemDraws, delays, variances, yearOf);
    var kna1, vbak;
    kna1, vbak, vbap := RunSd(customerFakes, salesOrderDraws, mara, salesItemDraws);
  }
}
