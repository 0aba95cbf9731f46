/**
 * The financial generator (generate_fi_data.py): one accounting document
 * (BKPF header) per purchase order read from EKKO, and its posting lines
 * (BSEG): one debit per purchase-order line of that order and one balancing
 * credit to the vendor, inserted at the front of the whole line list.
 *
 * Draws: the invoice delay `randint(5, 30)` per order, and per selected
 * EKPO line whether a price variance applies and, if so, its factor
 * `uniform(0.90, 1.15)`. The year of a posting date is given as a function.
 */
module Fi {
  import opened Keys
  import opened Money
  import opened Lines
  import opened Mm

  datatype Option<T> = None | Some(value: T)

  const FirstDocNumber := 1900000000
  const MinDelay := 5
  const MaxDelay := 30
  const MinVariance: real := 0.90
  const MaxVariance: real := 1.15
  const DocumentType := "RE"
  const DebitPostingKey := "86"
  const CreditPostingKey := "31"
  const ExpenseAccount := "400000"
  const Debit := "S"
  const Credit := "H"

  datatype Bkpf = Bkpf(bukrs: string, belnr: string, gjahr: int, blart: string, bldat: Day, budat: Day, awkey: string)
  datatype Bseg = Bseg(bukrs: string, belnr: string, gjahr: int, buzei: nat, bschl: string, hkont: string,
                       shkzg: string, wrbtr: Cents, ebeln: Option<string>, ebelp: Option<nat>)

  /** One line's variance draw: None when no variance is drawn, Some(f) with the drawn factor otherwise. */
  type Variance = Option<real>

  predicate ValidVariance(v: Variance) {
    v.Some? ==> MinVariance <= v.value <= MaxVariance
  }

  /** The tables read back (EKKO, EKPO) and the draws of one run. */
  datatype FiRun = FiRun(ekko: seq<Ekko>, ekpo: seq<Ekpo>, delays: seq<int>, variances: seq<seq<Variance>>,
                         yearOf: Day -> int)

  /** The purchase-order lines of header k: `df_ekpo[df_ekpo['EBELN'] == ebeln]`, in EKPO order. */
  function PoItems(ekko: seq<Ekko>, ekpo: seq<Ekpo>, k: nat): (items: seq<Ekpo>)
    requires k < |ekko|
    ensures |items| <= |ekpo|
  {
    Select(ekpo, EbelnOf, ekko[k].ebeln)
  }

  /** One delay in [5, 30] per header, and one valid variance draw per selected line. */
  predicate ValidRun(run: FiRun) {
    && |run.delays| == |run.ekko|
    && |run.variances| == |run.ekko|
    && forall k :: 0 <= k < |run.ekko| ==>
      && MinDelay <= run.delays[k] <= MaxDelay
      && |run.variances[k]| == |PoItems(run.ekko, run.ekpo, k)|
      && forall j :: 0 <= j < |run.variances[k]| ==> ValidVariance(run.variances[k][j])
  }

  /** The k-th document number, `str(1900000000 + k)`. */
  function DocNumber(k: nat): string { Decimal(FirstDocNumber + k) }

  function Belnrs(bkpf: seq<Bkpf>): (ks: seq<string>)
    ensures |ks| == |bkpf| && forall i :: 0 <= i < |bkpf| ==> ks[i] == bkpf[i].belnr
  {
    seq(|bkpf|, i requires 0 <= i < |bkpf| => bkpf[i].belnr)
  }

  /** The header of document k. */
  function DocHeader(run: FiRun, k: nat): (doc: Bkpf)
    requires ValidRun(run) && k < |run.ekko|
    ensures doc.belnr == DocNumber(k) && doc.awkey == run.ekko[k].ebeln
    ensures MinDelay <= doc.budat - run.ekko[k].aedat <= MaxDelay && doc.bldat == doc.budat
    ensures doc.gjahr == run.yearOf(doc.budat)
  {
    var order := run.ekko[k];
    var budat := order.aedat + run.delays[k];
    Bkpf(CompanyCode, DocNumber(k), run.yearOf(budat), DocumentType, budat, budat, order.ebeln)
  }

  function Documents(run: FiRun): (bkpf: seq<Bkpf>)
    requires ValidRun(run)
    ensures |bkpf| == |run.ekko| && forall k :: 0 <= k < |bkpf| ==> bkpf[k] == DocHeader(run, k)
  {
    seq(|run.ekko|, k requires 0 <= k < |run.ekko| => DocHeader(run, k))
  }

  /** The amount invoiced for a line: NETWR itself, or NETWR times the variance factor rounded to cents. */
  function PostedAmount(netwr: Cents, v: Variance): (amount: Cents)
    requires ValidVariance(v)
    ensures v.None? ==> amount == netwr
    ensures v.Some? ==> amount == ScaleCents(netwr, v.value)
    ensures netwr >= 0 ==>
      netwr as real * MinVariance - 0.5 <= amount as real <= netwr as real * MaxVariance + 0.5
  {
    match v
    case None => netwr
    case Some(f) =>
      if netwr >= 0 then
        ScaleCentsWithin(netwr, f, MinVariance, MaxVariance);
        ScaleCents(netwr, f)
      else
        ScaleCents(netwr, f)
  }

  /** The debit lines of a document, one per purchase-order line, numbered from 2. */
  function DebitLines(doc: Bkpf, items: seq<Ekpo>, vs: seq<Variance>): (lines: seq<Bseg>)
    requires |vs| == |items| && forall j :: 0 <= j < |vs| ==> ValidVariance(vs[j])
    ensures |lines| == |items|
    ensures forall j :: 0 <= j < |lines| ==> lines[j].belnr == doc.belnr && lines[j].shkzg == Debit
  {
    seq(|items|, j requires 0 <= j < |items| =>
      Bseg(CompanyCode, doc.belnr, doc.gjahr, j + 2, DebitPostingKey, ExpenseAccount, Debit,
           PostedAmount(items[j].netwr, vs[j]), Some(doc.awkey), Some(items[j].ebelp)))
  }

  function SumAmounts(lines: seq<Bseg>): int
    decreases |lines|
  {
    if lines == [] then 0 else SumAmounts(lines[..|lines| - 1]) + lines[|lines| - 1].wrbtr
  }

  /** The balancing credit of a document: line 1, to the vendor's account, for the sum of the debits. */
  function CreditLine(doc: Bkpf, lifnr: string, debits: seq<Bseg>): (credit: Bseg)
    ensures credit.belnr == doc.belnr && credit.buzei == 1 && credit.hkont == lifnr && credit.shkzg == Credit
    ensures credit.wrbtr == SumAmounts(debits)
  {
    RoundWhole(SumAmounts(debits));
    Bseg(CompanyCode, doc.belnr, doc.gjahr, 1, CreditPostingKey, lifnr, Credit,
         RoundHalfEven(SumAmounts(debits) as real), None, None)
  }

  function DocDebits(run: FiRun, k: nat): seq<Bseg>
    requires ValidRun(run) && k < |run.ekko|
  {
    DebitLines(DocHeader(run, k), PoItems(run.ekko, run.ekpo, k), run.variances[k])
  }

  function DocCredit(run: FiRun, k: nat): Bseg
    requires ValidRun(run) && k < |run.ekko|
  {
    CreditLine(DocHeader(run, k), run.ekko[k].lifnr, DocDebits(run, k))
  }

  /** BSEG after the first n documents: each document appends its debits, then inserts its credit at index 0. */
  function BsegUpTo(run: FiRun, n: nat): (bseg: seq<Bseg>)
    requires ValidRun(run) && n <= |run.ekko|
    ensures |bseg| == n + MatchedUpTo(run, n)
    decreases n
  {
    if n == 0 then [] else [DocCredit(run, n - 1)] + BsegUpTo(run, n - 1) + DocDebits(run, n - 1)
  }

  /** The credits of the first n documents, the last document's first. */
  function CreditsDesc(run: FiRun, n: nat): (credits: seq<Bseg>)
    requires ValidRun(run) && n <= |run.ekko|
    ensures |credits| == n
  {
    if n == 0 then [] else [DocCredit(run, n - 1)] + CreditsDesc(run, n - 1)
  }

  /** The debit blocks of the first n documents, in document order. */
  function DebitBlocks(run: FiRun, n: nat): (blocks: seq<seq<Bseg>>)
    requires ValidRun(run) && n <= |run.ekko|
    ensures |blocks| == n && forall k :: 0 <= k < n ==> blocks[k] == DocDebits(run, k)
  {
    seq(n, k requires 0 <= k < n => DocDebits(run, k))
  }

  /** The number of EKPO lines the first n headers select. */
  function MatchedUpTo(run: FiRun, n: nat): nat
    requires n <= |run.ekko|
  {
    if n == 0 then 0 else MatchedUpTo(run, n - 1) + |PoItems(run.ekko, run.ekpo, n - 1)|
  }

  // ---------------------------------------------------------------- the lines of one document

  /**
   * The debits of document k: one per selected EKPO line, in EKPO order,
   * numbered 2, 3, ..., posting key 86 to the expense account on the debit
   * side, carrying the line's EBELN/EBELP, for NETWR when no variance is
   * drawn and otherwise within half a cent of NETWR times [0.90, 1.15].
   */
  lemma DocDebitsFacts(run: FiRun, k: nat)
    requires ValidRun(run) && k < |run.ekko|
    ensures |DocDebits(run, k)| == |PoItems(run.ekko, run.ekpo, k)|
    ensures forall j :: 0 <= j < |DocDebits(run, k)| ==>
      var line, item := DocDebits(run, k)[j], PoItems(run.ekko, run.ekpo, k)[j];
      && line.belnr == DocNumber(k) && line.buzei == j + 2
      && line.bschl == DebitPostingKey && line.hkont == ExpenseAccount && line.shkzg == Debit
      && line.ebeln == Some(item.ebeln) && line.ebelp == Some(item.ebelp)
      && line.wrbtr == PostedAmount(item.netwr, run.variances[k][j])
      && (run.variances[k][j].None? ==> line.wrbtr == item.netwr)
      && (item.netwr >= 0 ==>
            item.netwr as real * MinVariance - 0.5 <= line.wrbtr as real <= item.netwr as real * MaxVariance + 0.5)
  {
  }

  /**
   * The credit of document k: line 1, posting key 31 to the vendor of the
   * order on the credit side, with no purchase-order reference, for the sum
   * of the document's debits; an order without lines gets a credit of 0.
   */
  lemma DocCreditFacts(run: FiRun, k: nat)
    requires ValidRun(run) && k < |run.ekko|
    ensures var c := DocCredit(run, k);
      && c.belnr == DocNumber(k) && c.buzei == 1
      && c.bschl == CreditPostingKey && c.hkont == run.ekko[k].lifnr && c.shkzg == Credit
      && c.ebeln.None? && c.ebelp.None?
      && c.wrbtr == SumAmounts(DocDebits(run, k))
    ensures PoItems(run.ekko, run.ekpo, k) == [] ==> DocDebits(run, k) == [] && DocCredit(run, k).wrbtr == 0
  {
    RoundWhole(SumAmounts(DocDebits(run, k)));
    RoundWhole(0);
  }

  // ---------------------------------------------------------------- layout

  /** The debit part grows by the debits of the next document. */
  lemma DebitsStep(run: FiRun, m: nat)
    requires ValidRun(run) && m < |run.ekko|
    ensures Flatten(DebitBlocks(run, m + 1)) == Flatten(DebitBlocks(run, m)) + DocDebits(run, m)
  {
    var blocks := DebitBlocks(run, m + 1);
    assert blocks[..m] == DebitBlocks(run, m) && blocks[..m + 1] == blocks;
    FlattenSnoc(blocks, m);
  }

  /** Concatenation regrouped; a separate generic lemma keeps this step out of the FI context. */
  lemma Regroup<T>(c: T, a: seq<T>, b: seq<T>, d: seq<T>)
    ensures [c] + (a + b) + d == ([c] + a) + (b + d)
  {
  }

  /** insert(0, ...) with append: all credits first, last document first, then all debits in document order. */
  lemma {:induction false} BsegLayout(run: FiRun, n: nat)
    requires ValidRun(run) && n <= |run.ekko|
    ensures BsegUpTo(run, n) == CreditsDesc(run, n) + Flatten(DebitBlocks(run, n))
    decreases n
  {
    if n > 0 {
      var m := n - 1;
      BsegLayout(run, m);
      DebitsStep(run, m);
      Regroup(DocCredit(run, m), CreditsDesc(run, m), Flatten(DebitBlocks(run, m)), DocDebits(run, m));
    }
  }

  /** Position i of the credit part holds the credit of document n - 1 - i. */
  lemma {:induction false} CreditsDescAt(run: FiRun, n: nat, i: nat)
    requires ValidRun(run) && i < n <= |run.ekko|
    ensures CreditsDesc(run, n)[i] == DocCredit(run, n - 1 - i)
    decreases n
  {
    var rest := CreditsDesc(run, n - 1);
    assert CreditsDesc(run, n) == [DocCredit(run, n - 1)] + rest;
    if i > 0 {
      CreditsDescAt(run, n - 1, i - 1);
      assert CreditsDesc(run, n)[i] == rest[i - 1];
    }
  }

  // ---------------------------------------------------------------- balance

  /** Sum of the debit amounts posted to document belnr. */
  function DebitTotal(lines: seq<Bseg>, belnr: string): int
    decreases |lines|
  {
    if lines == [] then 0
    else
      var last := lines[|lines| - 1];
      DebitTotal(lines[..|lines| - 1], belnr) + (if last.belnr == belnr && last.shkzg == Debit then last.wrbtr else 0)
  }

  /** Sum of the credit amounts posted to document belnr. */
  function CreditTotal(lines: seq<Bseg>, belnr: string): int
    decreases |lines|
  {
    if lines == [] then 0
    else
      var last := lines[|lines| - 1];
      CreditTotal(lines[..|lines| - 1], belnr) + (if last.belnr == belnr && last.shkzg == Credit then last.wrbtr else 0)
  }

  /** Number of credit lines of document belnr. */
  function CreditCount(lines: seq<Bseg>, belnr: string): nat
    decreases |lines|
  {
    if lines == [] then 0
    else
      var last := lines[|lines| - 1];
      CreditCount(lines[..|lines| - 1], belnr) + (if last.belnr == belnr && last.shkzg == Credit then 1 else 0)
  }

  lemma {:induction false} TotalsConcat(a: seq<Bseg>, b: seq<Bseg>, belnr: string)
    ensures DebitTotal(a + b, belnr) == DebitTotal(a, belnr) + DebitTotal(b, belnr)
    ensures CreditTotal(a + b, belnr) == CreditTotal(a, belnr) + CreditTotal(b, belnr)
    ensures CreditCount(a + b, belnr) == CreditCount(a, belnr) + CreditCount(b, belnr)
    decreases |b|
  {
    if b == [] {
      assert a + b == a;
    } else {
      assert (a + b)[..|a + b| - 1] == a + b[..|b| - 1];
      TotalsConcat(a, b[..|b| - 1], belnr);
    }
  }

  /** Debit lines of one document add their amounts to that document only, and no credit. */
  lemma {:induction false} TotalsOfDebits(lines: seq<Bseg>, doc: string, belnr: string)
    requires forall j :: 0 <= j < |lines| ==> lines[j].belnr == doc && lines[j].shkzg == Debit
    ensures DebitTotal(lines, belnr) == if belnr == doc then SumAmounts(lines) else 0
    ensures CreditTotal(lines, belnr) == 0 && CreditCount(lines, belnr) == 0
    decreases |lines|
  {
    if lines != [] {
      TotalsOfDebits(lines[..|lines| - 1], doc, belnr);
    }
  }

  /** Document numbers are distinct and strictly increasing. */
  lemma DocNumberOrder(j: nat, k: nat)
    ensures AllDigits(DocNumber(j)) && AllDigits(DocNumber(k))
    ensures j < k ==> ValueOf(DocNumber(j)) < ValueOf(DocNumber(k))
    ensures DocNumber(j) == DocNumber(k) <==> j == k
  {
    ValueOfDecimal(FirstDocNumber + j);
    ValueOfDecimal(FirstDocNumber + k);
  }

  /** The credit line adds its amount and a count of one to its own document only, and no debit. */
  lemma TotalsOfCredit(c: Bseg, belnr: string)
    requires c.shkzg == Credit
    ensures DebitTotal([c], belnr) == 0
    ensures CreditTotal([c], belnr) == if c.belnr == belnr then c.wrbtr else 0
    ensures CreditCount([c], belnr) == if c.belnr == belnr then 1 else 0
  {
    assert [c][..0] == [];
  }

  /** Processing document m adds the sum of its debits, on both sides, and one credit line, to document m only. */
  lemma StepTotals(run: FiRun, m: nat, belnr: string)
    requires ValidRun(run) && m < |run.ekko|
    ensures DebitTotal(BsegUpTo(run, m + 1), belnr) ==
      DebitTotal(BsegUpTo(run, m), belnr) + (if belnr == DocNumber(m) then SumAmounts(DocDebits(run, m)) else 0)
    ensures CreditTotal(BsegUpTo(run, m + 1), belnr) ==
      CreditTotal(BsegUpTo(run, m), belnr) + (if belnr == DocNumber(m) then SumAmounts(DocDebits(run, m)) else 0)
    ensures CreditCount(BsegUpTo(run, m + 1), belnr) ==
      CreditCount(BsegUpTo(run, m), belnr) + (if belnr == DocNumber(m) then 1 else 0)
  {
    var c, rest, d := DocCredit(run, m), BsegUpTo(run, m), DocDebits(run, m);
    assert BsegUpTo(run, m + 1) == [c] + rest + d;
    TotalsConcat([c] + rest, d, belnr);
    TotalsConcat([c], rest, belnr);
    TotalsOfCredit(c, belnr);
    TotalsOfDebits(d, DocNumber(m), belnr);
    RoundWhole(SumAmounts(d));
  }

  /**
   * Double entry: after n documents, document k < n has exactly one credit
   * line and its debit and credit totals both equal the sum of its debits;
   * a later document number has no lines yet.
   */
  lemma {:induction false} BsegTotals(run: FiRun, n: nat, k: nat)
    requires ValidRun(run) && n <= |run.ekko|
    ensures k < n ==>
      && DebitTotal(BsegUpTo(run, n), DocNumber(k)) == SumAmounts(DocDebits(run, k))
      && CreditTotal(BsegUpTo(run, n), DocNumber(k)) == SumAmounts(DocDebits(run, k))
      && CreditCount(BsegUpTo(run, n), DocNumber(k)) == 1
    ensures k >= n ==>
      && DebitTotal(BsegUpTo(run, n), DocNumber(k)) == 0
      && CreditTotal(BsegUpTo(run, n), DocNumber(k)) == 0
      && CreditCount(BsegUpTo(run, n), DocNumber(k)) == 0
    decreases n
  {
    if n > 0 {
      var m := n - 1;
      StepTotals(run, m, DocNumber(k));
      DocNumberOrder(m, k);
      BsegTotals(run, m, k);
      if k == m {
        assert DocNumber(k) == DocNumber(m);
      } else {
        assert DocNumber(k) != DocNumber(m);
      }
    }
  }

  // ---------------------------------------------------------------- the script

  /** Every document balances: one credit line, debit total equal to credit total. */
  predicate Balanced(bseg: seq<Bseg>, belnr: string) {
    CreditCount(bseg, belnr) == 1 && DebitTotal(bseg, belnr) == CreditTotal(bseg, belnr)
  }

  /** Document numbers strictly increasing in header order. */
  predicate IncreasingDocNumbers(bkpf: seq<Bkpf>) {
    forall a, b :: 0 <= a < b < |bkpf| ==>
      AllDigits(bkpf[a].belnr) && AllDigits(bkpf[b].belnr) && ValueOf(bkpf[a].belnr) < ValueOf(bkpf[b].belnr)
  }

  /** Headers: document k is numbered DocNumber(k), references order k, and is posted 5 to 30 days after it. */
  lemma DocumentFacts(run: FiRun)
    requires ValidRun(run)
    ensures forall k :: 0 <= k < |run.ekko| ==>
      && Documents(run)[k].belnr == DocNumber(k)
      && Documents(run)[k].awkey == run.ekko[k].ebeln
      && Documents(run)[k].bukrs == CompanyCode && Documents(run)[k].blart == DocumentType
      && MinDelay <= Documents(run)[k].budat - run.ekko[k].aedat <= MaxDelay
      && Documents(run)[k].bldat == Documents(run)[k].budat
      && Documents(run)[k].gjahr == run.yearOf(Documents(run)[k].budat)
  {
  }

  /** Document numbers increase strictly in header order, so they are distinct. */
  lemma DocumentOrder(run: FiRun)
    requires ValidRun(run)
    ensures IncreasingDocNumbers(Documents(run)) && DistinctKeys(Belnrs(Documents(run)))
  {
    var bkpf := Documents(run);
    forall a, b | 0 <= a < b < |bkpf|
      ensures AllDigits(bkpf[a].belnr) && AllDigits(bkpf[b].belnr) && ValueOf(bkpf[a].belnr) < ValueOf(bkpf[b].belnr)
    {
      DocNumberOrder(a, b);
    }
    forall a, b | 0 <= a < b < |bkpf| ensures Belnrs(bkpf)[a] != Belnrs(bkpf)[b] {
      DocNumberOrder(a, b);
    }
  }

  /** Every document of a complete run balances. */
  lemma AllBalanced(run: FiRun)
    requires ValidRun(run)
    ensures forall k :: 0 <= k < |run.ekko| ==> Balanced(BsegUpTo(run, |run.ekko|), Documents(run)[k].belnr)
  {
    forall k | 0 <= k < |run.ekko| ensures Balanced(BsegUpTo(run, |run.ekko|), Documents(run)[k].belnr) {
      BsegTotals(run, |run.ekko|, k);
    }
  }

  /** Appending debit j to the first j debits of a document. */
  lemma DebitLinesSnoc(doc: Bkpf, items: seq<Ekpo>, vs: seq<Variance>, j: nat)
    requires |vs| == |items| && forall i :: 0 <= i < |vs| ==> ValidVariance(vs[i])
    requires j < |items|
    ensures DebitLines(doc, items[..j + 1], vs[..j + 1]) == DebitLines(doc, items[..j], vs[..j]) +
      [Bseg(CompanyCode, doc.belnr, doc.gjahr, j + 2, DebitPostingKey, ExpenseAccount, Debit,
            PostedAmount(items[j].netwr, vs[j]), Some(doc.awkey), Some(items[j].ebelp))]
    ensures SumAmounts(DebitLines(doc, items[..j + 1], vs[..j + 1])) ==
      SumAmounts(DebitLines(doc, items[..j], vs[..j])) + PostedAmount(items[j].netwr, vs[j])
  {
    var done := DebitLines(doc, items[..j], vs[..j]);
    var next := DebitLines(doc, items[..j + 1], vs[..j + 1]);
    assert next[..|done|] == done;
  }

  /** The header the loop builds for order k from its running counter is DocHeader(run, k). */
  lemma HeaderStep(run: FiRun, k: nat, docNumber: nat, budat: Day, doc: Bkpf)
    requires ValidRun(run) && k < |run.ekko| && docNumber == FirstDocNumber + k
    requires budat == run.ekko[k].aedat + run.delays[k]
    requires doc == Bkpf(CompanyCode, Decimal(docNumber), run.yearOf(budat), DocumentType, budat, budat, run.ekko[k].ebeln)
    ensures doc == DocHeader(run, k)
    ensures Documents(run)[..k + 1] == Documents(run)[..k] + [doc]
  {
  }

  /** Appending document k's debits and then inserting its credit at the front extends BsegUpTo by one document. */
  lemma BsegStep(run: FiRun, k: nat, doc: Bkpf, poItems: seq<Ekpo>, before: seq<Bseg>, after: seq<Bseg>,
                 total: Cents, credit: Bseg)
    requires ValidRun(run) && k < |run.ekko| && before == BsegUpTo(run, k)
    requires doc == DocHeader(run, k) && poItems == PoItems(run.ekko, run.ekpo, k)
    requires after == before + DebitLines(doc, poItems, run.variances[k])
    requires total == SumAmounts(DebitLines(doc, poItems, run.variances[k]))
    requires credit == Bseg(CompanyCode, doc.belnr, doc.gjahr, 1, CreditPostingKey, run.ekko[k].lifnr, Credit,
                            RoundHalfEven(total as real), None, None)
    ensures [credit] + after == BsegUpTo(run, k + 1)
  {
  }

  /**
   * The line loop of one document: appends one debit per purchase-order line,
   * numbered 2, 3, ..., and returns the running invoice total, the sum of the
   * amounts posted.
   */
  method AppendDebits(bseg: seq<Bseg>, doc: Bkpf, poItems: seq<Ekpo>, vs: seq<Variance>)
    returns (out: seq<Bseg>, total: Cents)
    requires |vs| == |poItems| && forall j :: 0 <= j < |vs| ==> ValidVariance(vs[j])
    ensures out == bseg + DebitLines(doc, poItems, vs)
    ensures total == SumAmounts(DebitLines(doc, poItems, vs))
  {
    out, total := bseg, 0;
    var buzei := 1;
    for j := 0 to |poItems|
      invariant buzei == j + 1
      invariant out == bseg + DebitLines(doc, poItems[..j], vs[..j])
      invariant total == SumAmounts(DebitLines(doc, poItems[..j], vs[..j]))
    {
      var item := poItems[j];
      var posted: Cents;
      if vs[j].Some? {
        posted := ScaleCents(item.netwr, vs[j].value);
      } else {
        posted := item.netwr;
      }
      total := total + posted;
      DebitLinesSnoc(doc, poItems, vs, j);
      out := out + [Bseg(CompanyCode, doc.belnr, doc.gjahr, buzei + 1, DebitPostingKey, ExpenseAccount, Debit,
                         posted, Some(doc.awkey), Some(item.ebelp))];
      buzei := buzei + 1;
    }
    assert poItems[..|poItems|] == poItems && vs[..|poItems|] == vs;
  }

  /**
   * One pass of the document loop: posts the invoice of order k under the
   * running document number, appending its header to BKPF, appending its
   * debits to BSEG and inserting its credit at the front of BSEG.
   */
  method PostInvoice(ekko: seq<Ekko>, ekpo: seq<Ekpo>, delays: seq<int>, variances: seq<seq<Variance>>,
                     yearOf: Day -> int, k: nat, docNumber: nat, bkpf: seq<Bkpf>, bseg: seq<Bseg>)
    returns (bkpf': seq<Bkpf>, bseg': seq<Bseg>)
    requires ValidRun(FiRun(ekko, ekpo, delays, variances, yearOf)) && k < |ekko|
    requires docNumber == FirstDocNumber + k
    requires bkpf == Documents(FiRun(ekko, ekpo, delays, variances, yearOf))[..k]
    requires bseg == BsegUpTo(FiRun(ekko, ekpo, delays, variances, yearOf), k)
    ensures bkpf' == Documents(FiRun(ekko, ekpo, delays, variances, yearOf))[..k + 1]
    ensures bseg' == BsegUpTo(FiRun(ekko, ekpo, delays, variances, yearOf), k + 1)
  {
    ghost var run := FiRun(ekko, ekpo, delays, variances, yearOf);
    var row := ekko[k];
    var budat := row.aedat + delays[k];
    var gjahr := yearOf(budat);
    var belnr := Decimal(docNumber);
    var doc := Bkpf(CompanyCode, belnr, gjahr, DocumentType, budat, budat, row.ebeln);
    HeaderStep(run, k, docNumber, budat, doc);
    bkpf' := bkpf + [doc];

    var poItems := Select(ekpo, EbelnOf, row.ebeln);
    assert poItems == PoItems(ekko, ekpo, k);
    var total;
    bseg', total := AppendDebits(bseg, doc, poItems, variances[k]);
    var credit := Bseg(CompanyCode, belnr, gjahr, 1, CreditPostingKey, row.lifnr, Credit,
                       RoundHalfEven(total as real), None, None);
    BsegStep(run, k, doc, poItems, bseg, bseg', total, credit);
    bseg' := [credit] + bseg';
  }

  /**
   * The document loop, one invoice per EKKO row with numbers counting up
   * from 1900000000. Its result is Documents/BsegUpTo of the run; what those
   * promise is stated by DocumentFacts, DocumentOrder, BsegLayout and
   * AllBalanced, and the length of BSEG by BsegUpTo.
   */
  method GenerateFi(ekko: seq<Ekko>, ekpo: seq<Ekpo>, delays: seq<int>, variances: seq<seq<Variance>>,
                    yearOf: Day -> int)
    returns (bkpf: seq<Bkpf>, bseg: seq<Bseg>)
    requires ValidRun(FiRun(ekko, ekpo, delays, variances, yearOf))
    ensures bkpf == Documents(FiRun(ekko, ekpo, delays, variances, yearOf))
    ensures bseg == BsegUpTo(FiRun(ekko, ekpo, delays, variances, yearOf), |ekko|)
  {
    ghost var run := FiRun(ekko, ekpo, delays, variances, yearOf);
    bkpf, bseg := [], [];
    var docNumber := FirstDocNumber;
    for k := 0 to |ekko|
      invariant docNumber == FirstDocNumber + k
      invariant bkpf == Documents(run)[..k]
      invariant bseg == BsegUpTo(run, k)
    {
      bkpf, bseg := PostInvoice(ekko, ekpo, delays, variances, yearOf, k, docNumber, bkpf, bseg);
      docNumber := docNumber + 1;
    }
    assert bkpf == Documents(run);
  }

  // ---------------------------------------------------------------- reading MM's output

  /**
   * When EKPO is MM's layout (one block per EKKO header, keys distinct), the
   * filter hands each document exactly its order's lines, and every EKPO line
   * is matched once: BSEG then holds |EKKO| + |EKPO| lines.
   */
  lemma MatchedOverGrouped(run: FiRun, blocks: seq<seq<Ekpo>>)
    requires Keyed(blocks, EbelnOf, Ebelns(run.ekko)) && DistinctKeys(Ebelns(run.ekko))
    requires run.ekpo == Flatten(blocks)
    ensures forall k :: 0 <= k < |run.ekko| ==> PoItems(run.ekko, run.ekpo, k) == blocks[k]
    ensures MatchedUpTo(run, |run.ekko|) == |run.ekpo|
  {
    forall k | 0 <= k < |run.ekko| ensures PoItems(run.ekko, run.ekpo, k) == blocks[k] {
      SelectFlatten(blocks, EbelnOf, Ebelns(run.ekko), k);
    }
    MatchedIsTotal(run, blocks, |run.ekko|);
    assert blocks[..|run.ekko|] == blocks;
  }

  lemma {:induction false} MatchedIsTotal(run: FiRun, blocks: seq<seq<Ekpo>>, n: nat)
    requires n <= |run.ekko| == |blocks|
    requires forall k :: 0 <= k < |run.ekko| ==> PoItems(run.ekko, run.ekpo, k) == blocks[k]
    ensures MatchedUpTo(run, n) == TotalSize(blocks[..n])
    decreases n
  {
    if n > 0 {
      MatchedIsTotal(run, blocks, n - 1);
      assert blocks[..n][..n - 1] == blocks[..n - 1];
    }
  }
}
