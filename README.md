# A verified model of the SAPGym synthetic ERP data generators

The four generator scripts build a small, consistent ERP dataset modelled on
SAP tables:

- **procurement** (`generate_mm_data.py`): vendors LFA1, materials MARA, and
  purchase orders as headers EKKO and lines EKPO;
- **financial accounting** (`generate_fi_data.py`): one invoice document per
  purchase order, as a header BKPF with line items BSEG, read from EKKO/EKPO;
- **sales** (`generate_sd_data.py`): customers KNA1, and sales orders as headers
  VBAK and lines VBAP, priced from the MARA rows read back;
- **plant maintenance** (`generate_pm_data.py`): cost centres CSKS, equipment
  EQUI, and maintenance orders as headers AFIH with operations AFVC. VORNR
  is the string `f"{(j+1)*10}"` (`generate_pm_data.py:72`), so the operations
  of an order are numbered "10", "20", "30".

Each script is a Dafny method. Its inputs are the tables it reads and the
values of its random draws. The script's loops are `for` loops that append
to sequences. Each method is proved against a specification function of its
inputs, for example `Mm.EkpoOf`, `Fi.BsegUpTo` or `Pm.AfvcOf`. What the data
promises is proved as lemmas about those functions. The composed run in
`Batch` exports the same equalities for every table it produces, so those
lemmas apply to the end-to-end run as well.

The promised properties are:
- key formats, and distinct keys;
- no dangling foreign key;
- line counts and line numbering;
- the exact cents arithmetic of line values;
- exact double-entry balance, and the credits-first layout of BSEG.

Modules:

- `Keys`: Python's `str(n)` and `zfill`, the record keys built as a prefix
  plus a zero-padded counter, and their reader. The round trip gives
  injectivity.
- `Money`: integer cents, and `round(x, 2)` as round-half-even of the exact
  value.
- `Lines`: the header/line layout shared by EKKO/EKPO, VBAK/VBAP and
  AFIH/AFVC. It covers `Flatten` of per-header blocks and the filter
  `df[df['KEY'] == key]` (`Select`), with grouping and selection lemmas.
- `Mm`, `Fi`, `Sd`, `Pm`: one module per script.
- `Batch`: MM, then FI over MM's EKKO/EKPO, then SD over MM's MARA.

Modelling choices:

- **Money.** Amounts are whole cents. `round(v * f, 2)` of an amount in cents
  is `ScaleCents(v, f)`, the exact real value rounded half-even. Sums and
  products of cents are therefore exact. An equality such as
  NETWR = MENGE × NETPR holds exactly here. In the Python floats it holds
  only approximately.
- **Random draws.** Each random draw is a field of an input datatype, bounded
  as its `randint`/`uniform` call is.
  - A `choice` is the index it took.
  - The FI variance of one line is `None` when no variance is drawn, and
    `Some(f)` with f in [0.90, 1.15] otherwise.
- **Dates.** A date is a day number, and the year of a posting date is a given
  function `yearOf`.
- **Fake data.** Values from the fake-data library are opaque inputs: company
  names, cities, `bothify` codes and dates.
- **Table writes.** `to_sql(..., if_exists='replace')` makes a table exactly
  the generated sequence, so each method returns its tables whole.
- **Empty MARA in SD.** `random.choice` on an empty material list raises
  IndexError. The VBAP result is then a `Failure`, while KNA1 and VBAK have
  already been written.

One point where the code's behaviour differs from what its own text suggests:

- **Markup band.** The comment at `generate_sd_data.py:60` describes the sales
  price as the MARA standard price plus a markup of 30% to 80%. The code rounds
  NETPR to the cent, so NETPR / STPRS lies in [1.30, 1.80] only up to half a
  cent. `Sd.MarkupBandIsApproximate` exhibits a standard price of 10.01 that
  sells at 13.01, below 1.30 × 10.01. The same half-cent allowance appears in
  the NETPR bound of EKPO and in the FI variance bound.

In the model every invoice balances exactly in cents. In the Python the
credit is `round(tot_fattura, 2)` of a float sum, which need not equal the
float debits exactly; see the binary floating point line under "## Left out".

## Model

| member | source | states |
|---|---|---|
| Keys.Decimal | generate_fi_data.py:38 | `str(n)`: a non-empty digit string without a leading zero |
| Keys.ValueOf | generate_mm_data.py:44 | reads a digit string as a base-10 number; its meaning is fixed by `ValueOfDecimal`, `ValueOfPadded` and `ValueOfZFill` |
| Keys.ValueOfDecimal | generate_fi_data.py:38 | reading back `str(n)` gives n |
| Keys.DecimalInjective | generate_fi_data.py:38-39 | `str(n) == str(m)` exactly when n == m |
| Keys.DecimalLength | generate_mm_data.py:44 | `str(n)` has at most w digits exactly when n < 10^w |
| Keys.ZFill | generate_mm_data.py:20 | `zfill(width)`: length max(width, len), the original as suffix, zeros before it |
| Keys.ValueOfPadded | generate_mm_data.py:30 | leading zeros do not change the value of a digit string |
| Keys.ValueOfZFill | generate_mm_data.py:30 | a zero-padded counter reads back as the counter |
| Keys.Key | generate_mm_data.py:44 | prefix + `str(n).zfill(w)`: starts with the prefix and is at least prefix plus w characters long |
| Keys.KeyRoundTrip | generate_mm_data.py:44 | the counter read back from prefix + `str(n).zfill(w)` is n |
| Keys.KeyInjective | generate_mm_data.py:44 | two keys with the same prefix and width are equal exactly when their counters are |
| Keys.KeyFormat | generate_mm_data.py:44 | a counter below 10^w gives the prefix followed by exactly w digits |
| Keys.SequentialKeysDistinct | generate_mm_data.py:20 | the keys of counters 1..count are pairwise distinct |
| Keys.SequentialKeysFormat | generate_mm_data.py:20 | below 10^w, the keys of counters 1..count are all the prefix followed by exactly w digits |
| Keys.SequentialKeys | generate_mm_data.py:20 | the keys of counters 1..count are pairwise distinct and in key format |
| Money.RoundHalfEven | generate_mm_data.py:69 | `round(x)`: within half of x, and even on a tie |
| Money.RoundIsNearest | generate_mm_data.py:69 | no integer is nearer to x than `round(x)` |
| Money.RoundWhole | generate_mm_data.py:69 | rounding a whole number of cents leaves it unchanged |
| Money.RoundMonotone | generate_mm_data.py:33 | rounding is monotone |
| Money.RoundCents | generate_mm_data.py:33 | `round(a, 2)` in cents is within half a cent of 100·a |
| Money.ScaleCents | generate_mm_data.py:61 | `round(v * f, 2)` of v cents is within half a cent of v·f |
| Money.RoundCentsWithin | generate_mm_data.py:33 | an amount drawn in [lo, hi] rounds to cents in [100·lo, 100·hi] |
| Money.ScaleCentsWithin | generate_mm_data.py:61 | v ≥ 0 scaled by f in [lo, hi] and rounded lies in [v·lo − ½, v·hi + ½] |
| Lines.Select | generate_fi_data.py:53 | the filter keeps only lines with the key, and never more lines than it was given |
| Lines.SelectConcat | generate_fi_data.py:53 | filtering a concatenation filters each part |
| Lines.SelectUniform | generate_fi_data.py:53 | a block of one key filters to itself for that key and to nothing for another |
| Lines.SelectAbsent | generate_fi_data.py:53 | a key no header carries selects no line |
| Lines.SelectFlatten | generate_fi_data.py:53 | with distinct header keys, filtering on header k's key gives exactly block k |
| Lines.Flatten | generate_mm_data.py:55-70 | the nested append loop's layout, blocks one after the other, keeps every line: its length is the sum of block sizes |
| Lines.TotalSizeBounds | generate_mm_data.py:56 | blocks of lo to hi lines hold lo·n to hi·n lines in all |
| Lines.FlattenMember | generate_mm_data.py:55-70 | a line is in the table exactly when it is in some block |
| Lines.FlattenAt | generate_mm_data.py:55-70 | line p of the table is line j of block k, after the lines of blocks before k |
| Lines.FlattenGrouped | generate_mm_data.py:55-70 | with distinct header keys, lines come grouped by header, in header order |
| Mm.Vendors | generate_mm_data.py:20 | LFA1 holds exactly 50 rows, one per pair of fake values |
| Mm.VendorsFacts | generate_mm_data.py:20 | 50 vendors V00001..V00050 in key format V+5 digits, distinct, LAND1 IT, with the fake names and cities |
| Mm.MaterialRow | generate_mm_data.py:29-34 | a material is of type ROH with a standard price rounded to cents in [10.00, 5000.00] |
| Mm.Materials | generate_mm_data.py:27-34 | MARA holds exactly 100 rows, one per draw |
| Mm.MaterialsFacts | generate_mm_data.py:27-34 | 100 materials MAT-+5 digits numbered in row order, distinct, MTART ROH, STPRS in [10.00, 5000.00] |
| Mm.GenerateMara | generate_mm_data.py:27-34 | the MARA loop yields `Materials` |
| Mm.OrderRow | generate_mm_data.py:43-48 | header i has EBELN the i-th order key and BUKRS 1000, and its LIFNR is one of the vendors |
| Mm.Orders | generate_mm_data.py:41-48 | EKKO holds exactly 500 rows, one per draw |
| Mm.OrdersFacts | generate_mm_data.py:41-48 | 500 headers 45+8 digits numbered in row order, distinct, BUKRS 1000, every LIFNR a generated vendor |
| Mm.GenerateEkko | generate_mm_data.py:41-48 | the EKKO loop yields `Orders` |
| Mm.ItemRow | generate_mm_data.py:58-69 | line j of an order carries its EBELN, EBELP (j+1)·10, a MATNR of MARA, and NETWR = MENGE·NETPR exactly |
| Mm.OrderItems | generate_mm_data.py:56-70 | one line per item draw of the order |
| Mm.ItemNumbers | generate_mm_data.py:65 | EBELP of line j is (j+1)·10, strictly increasing within the order |
| Mm.ItemBlocks | generate_mm_data.py:55-70 | one block per header, every line of block k carrying header k's EBELN |
| Mm.EkpoOf | generate_mm_data.py:54-70 | the EKPO table as the blocks laid out in header order; `EkpoProperties` states what it holds |
| Mm.ItemRowFacts | generate_mm_data.py:58-69 | a line references its order and a MARA material, MENGE in [1, 100], NETPR within half a cent of STPRS·[0.90, 1.10], NETWR = MENGE·NETPR exactly, EBELP a multiple of 10 in [10, 50] |
| Mm.EkpoProperties | generate_mm_data.py:54-70 | 1 to 5 lines per header, the line facts for every line, grouping by order, and the filter per order returning exactly its lines |
| Mm.AppendItems | generate_mm_data.py:57-70 | the inner loop appends exactly the lines of one order to EKPO, leaving earlier lines untouched |
| Mm.GenerateEkpo | generate_mm_data.py:54-70 | every material choice is in range and the nested loop yields `EkpoOf`, whose properties `EkpoProperties` states |
| Mm.RunMm | generate_mm_data.py:20-72 | LFA1, MARA, EKKO and EKPO are exactly `Vendors`, `Materials`, `Orders` and `EkpoOf` of the draws: 50/100/500 rows and 500..2500 lines, distinct keys, no dangling LIFNR/EBELN/MATNR, exact NETWR |
| Fi.PoItems | generate_fi_data.py:53 | the EKPO lines of header k, never more lines than EKPO holds |
| Fi.DocHeader | generate_fi_data.py:36-50 | header k: BELNR `str(1900000000 + k)`, AWKEY the order's EBELN, BUDAT 5 to 30 days after AEDAT, BLDAT = BUDAT, GJAHR the year of BUDAT |
| Fi.Documents | generate_fi_data.py:30-50 | one header per EKKO row, header k being DocHeader(run, k) |
| Fi.PostedAmount | generate_fi_data.py:61-65 | WRBTR is NETWR without variance, round(NETWR·f, 2) with one, within half a cent of NETWR·[0.90, 1.15] |
| Fi.DebitLines | generate_fi_data.py:57-82 | one debit per selected line, all of the document and on the debit side |
| Fi.DocDebitsFacts | generate_fi_data.py:53-82 | the debits of document k: one per EKPO line of the order in EKPO order, BUZEI 2, 3, …, BSCHL 86, HKONT 400000, SHKZG S, the line's EBELN/EBELP, WRBTR = `PostedAmount` of NETWR and the line's variance (NETWR itself without one, and within half a cent of NETWR·[0.90, 1.15]) |
| Fi.CreditLine | generate_fi_data.py:85-96 | the credit has the document's BELNR, BUZEI 1, HKONT = LIFNR, SHKZG H, and WRBTR exactly the sum of the debits (rounding whole cents changes nothing) |
| Fi.DocCreditFacts | generate_fi_data.py:85-96 | the credit of document k: BUZEI 1, BSCHL 31, HKONT = LIFNR, SHKZG H, no EBELN/EBELP, WRBTR the sum of the debits; 0 for an order without lines |
| Fi.BsegUpTo | generate_fi_data.py:53-96 | BSEG after n documents, each appending its debits and inserting its credit at index 0: one line per document plus one per EKPO line the first n orders select |
| Fi.BsegLayout | generate_fi_data.py:70-85 | BSEG is all credits, last document first, followed by all debits in document order |
| Fi.CreditsDesc | generate_fi_data.py:85 | the credit part of BSEG: one credit per document |
| Fi.CreditsDescAt | generate_fi_data.py:85 | position i of the credit part holds the credit of document n−1−i |
| Fi.TotalsConcat | generate_fi_data.py:67 | debit total, credit total and credit count of a concatenation add up |
| Fi.TotalsOfDebits | generate_fi_data.py:67-81 | debit lines of one document add their sum to that document only, and no credit |
| Fi.TotalsOfCredit | generate_fi_data.py:85-96 | a credit line adds its amount and one credit to its own document only |
| Fi.DocNumberOrder | generate_fi_data.py:26-39 | `str(1900000000 + k)` are digit strings, strictly increasing in k, equal only for equal k |
| Fi.StepTotals | generate_fi_data.py:53-96 | processing document m changes the totals of document m only: its debit sum on both sides and one credit |
| Fi.BsegTotals | generate_fi_data.py:30-96 | after n documents, each earlier document has one credit and debit total = credit total = its debit sum; later ones have nothing |
| Fi.DocumentFacts | generate_fi_data.py:36-50 | BELNR `str(1900000000 + k)`, AWKEY = EBELN, BUKRS 1000, BLART RE, BUDAT − AEDAT in [5, 30], BLDAT = BUDAT, GJAHR = year(BUDAT) |
| Fi.DocumentOrder | generate_fi_data.py:26-39 | BELNRs strictly increasing in EKKO order, hence distinct |
| Fi.AllBalanced | generate_fi_data.py:55-96 | every document of a run balances exactly, with a single credit |
| Fi.AppendDebits | generate_fi_data.py:54-82 | the line loop appends exactly DebitLines and returns their sum as the invoice total |
| Fi.PostInvoice | generate_fi_data.py:30-96 | posting invoice k extends BKPF by header k and turns BSEG after k documents into BSEG after k + 1 |
| Fi.GenerateFi | generate_fi_data.py:26-96 | the document loop yields `Documents` and `BsegUpTo`, whose properties `DocumentFacts`, `DocumentOrder`, `BsegLayout`, `BsegUpTo` and `AllBalanced` state |
| Fi.MatchedOverGrouped | generate_fi_data.py:53 | over MM's EKPO layout each document selects exactly its order's lines, and every EKPO line is selected once |
| Fi.MatchedIsTotal | generate_fi_data.py:53 | the lines selected by the first n orders are the lines of their blocks |
| Sd.Customers | generate_sd_data.py:20-27 | KNA1 holds exactly 40 rows, one per pair of fake values |
| Sd.CustomersFacts | generate_sd_data.py:20-27 | 40 customers C+5 digits numbered in row order, distinct, LAND1 IT, with the fake names and cities |
| Sd.GenerateKna1 | generate_sd_data.py:20-27 | the KNA1 loop yields `Customers` |
| Sd.SalesOrderRow | generate_sd_data.py:42-47 | header i has VBELN the i-th sales-order key and VKORG 1000, and its KUNNR is one of KNA1's |
| Sd.SalesOrders | generate_sd_data.py:40-47 | VBAK holds exactly 300 rows, one per draw |
| Sd.SalesOrdersFacts | generate_sd_data.py:40-47 | 300 headers 10+8 digits numbered in row order, distinct, VKORG 1000, every KUNNR a generated customer |
| Sd.GenerateVbak | generate_sd_data.py:40-47 | the VBAK loop yields `SalesOrders` |
| Sd.SalesItemRow | generate_sd_data.py:57-69 | line j of a sales order carries its VBELN, POSNR (j+1)·10, a MATNR of MARA, and NETWR = KWMENG·NETPR exactly |
| Sd.SalesOrderItems | generate_sd_data.py:56-70 | one line per item draw of the order |
| Sd.SalesItemRowFacts | generate_sd_data.py:57-69 | a line references its order and a MARA material, KWMENG in [1, 50], NETPR within half a cent of STPRS·[1.30, 1.80], NETWR = KWMENG·NETPR exactly, POSNR a multiple of 10 in [10, 40] |
| Sd.SalesItemNumbers | generate_sd_data.py:65 | POSNR of line j is (j+1)·10, strictly increasing within the order |
| Sd.VbapOf | generate_sd_data.py:53-70 | the VBAP table as the blocks laid out in header order, holding every line of every block |
| Sd.VbapProperties | generate_sd_data.py:53-70 | 1 to 4 lines per header, the line facts for every line, grouping by order, and the filter per order returning exactly its lines |
| Sd.AppendSalesItems | generate_sd_data.py:56-70 | the inner loop fails exactly when MARA is empty and the order has a line; otherwise it appends exactly the order's lines |
| Sd.GenerateVbap | generate_sd_data.py:53-70 | fails exactly when MARA is empty and there is an order; otherwise every material choice is in range and the loop yields `VbapOf`, whose properties `VbapProperties` states |
| Sd.MarkupBandIsApproximate | generate_sd_data.py:61 | a 10.01 standard price with markup 1.30 sells at 13.01, below 1.30 × STPRS |
| Sd.RunSd | generate_sd_data.py:20-72 | KNA1 and VBAK are exactly `Customers` and `SalesOrders`: 40 customers and 300 headers with distinct keys; VBAP fails exactly on an empty MARA, otherwise it is `VbapOf` with 300..1200 lines, no dangling VBELN/MATNR, exact NETWR |
| Pm.CostCenters | generate_pm_data.py:22-26 | CSKS holds one row per cost-centre name |
| Pm.CostCentersFacts | generate_pm_data.py:22-26 | cost centres CC+3 digits numbered in list order, distinct, carrying the names in list order |
| Pm.GenerateCsks | generate_pm_data.py:20-26 | the CSKS loop yields `CostCenters` |
| Pm.EquipmentText | generate_pm_data.py:41 | EQKTX starts with the equipment type followed by " - Z" |
| Pm.EquipmentTextZone | generate_pm_data.py:41 | the zone number reads back from the EQKTX text after " - Z" |
| Pm.EquipmentRow | generate_pm_data.py:39-43 | machine i has EQUNR the i-th equipment key and a KOSTL of one of the cost centres |
| Pm.Equipment | generate_pm_data.py:37-43 | EQUI holds exactly 60 rows, one per draw |
| Pm.EquipmentFacts | generate_pm_data.py:37-43 | 60 machines EQ+5 digits numbered in row order, distinct, each in a generated cost centre, EQKTX a type plus a zone from Z1 to Z99 |
| Pm.GenerateEqui | generate_pm_data.py:37-43 | the EQUI loop yields `Equipment` |
| Pm.MaintenanceOrderRow | generate_pm_data.py:51-56 | order i has AUFNR the i-th order key, an EQUNR of one of the machines, and ILART PM01 or PM02 |
| Pm.MaintenanceOrders | generate_pm_data.py:49-56 | AFIH holds exactly 250 rows, one per draw |
| Pm.MaintenanceOrdersFacts | generate_pm_data.py:49-56 | 250 orders 400+6 digits numbered in row order, distinct, on generated machines, ILART PM01 or PM02 |
| Pm.GenerateAfih | generate_pm_data.py:49-56 | the AFIH loop yields `MaintenanceOrders` |
| Pm.OperationRow | generate_pm_data.py:67-75 | operation j carries its order's AUFNR and the drawn ARBEI, COST_TOT = ARBEI·45.00 + COST_MAT exactly in cents, and VORNR one of the strings "10", "20", "30" |
| Pm.OrderOperations | generate_pm_data.py:66-76 | one operation per draw of the order |
| Pm.OperationNumbers | generate_pm_data.py:72 | VORNR of operation j reads as (j+1)·10, strictly increasing in the order |
| Pm.OperationRowFacts | generate_pm_data.py:67-75 | an operation references its order, ARBEI in [2, 48], COST_MAT in [100.00, 15000.00], the exact total, VORNR exactly one of the strings "10", "20", "30" |
| Pm.AfvcOf | generate_pm_data.py:62-76 | the AFVC table as the blocks laid out in order, holding every operation of every block |
| Pm.AfvcProperties | generate_pm_data.py:62-76 | 1 to 3 operations per order, the facts for every operation, grouping by order, and the filter per order returning exactly its operations |
| Pm.AppendOperations | generate_pm_data.py:66-76 | the inner loop appends exactly the operations of one order to AFVC, leaving earlier ones untouched |
| Pm.GenerateAfvc | generate_pm_data.py:62-76 | the nested loop yields `AfvcOf`, whose properties `AfvcProperties` states |
| Pm.RunPm | generate_pm_data.py:20-78 | CSKS, EQUI, AFIH and AFVC are exactly `CostCenters`, `Equipment`, `MaintenanceOrders` and `AfvcOf`: 5/60/250 rows and 250..750 operations, distinct keys, no dangling KOSTL/EQUNR/AUFNR |
| Batch.LayoutFits | generate_fi_data.py:20-21 | MM's EKPO blocks are keyed by their EBELN, and the FI variance draws fit them one per line |
| Batch.Procure | generate_fi_data.py:20-21 | MM's tables as FI reads them: MARA, EKKO and EKPO are `Materials`, `Orders` and `EkpoOf`, EKPO is laid out in blocks keyed by header EBELN with distinct EBELN, and each line has a valid variance draw |
| Batch.InvoiceOrders | generate_fi_data.py:20-96 | FI over EKKO/EKPO in MM's layout: BKPF and BSEG are exactly `Documents` and `BsegUpTo` of a valid run (`Invoiced`), so one invoice per order referencing it, \|EKKO\| + \|EKPO\| BSEG lines, every invoice balanced |
| Batch.ProcureAndInvoice | generate_fi_data.py:20-21 | FI over MM's tables: MARA, EKKO and EKPO are `Materials`, `Orders` and `EkpoOf` of the draws, and BKPF and BSEG `Documents` and `BsegUpTo` over them; 500 balanced invoices referencing their orders, 500 + \|EKPO\| BSEG lines, 1000..3000 |
| Batch.RunBatch | generate_fi_data.py:20-21 | MM, FI, then SD over MM's MARA: EKKO, EKPO, BKPF and BSEG as above, the invoice facts, SD never fails and VBAP is `VbapOf` of SD's headers, draws and MM's `Materials` |

## Left out

- Random number generation. Each draw is an input bounded as its call is.
  The 20% variance rate is a statistical property and is not modelled.
- Faker values are opaque inputs. This covers company names, cities,
  `bothify` codes and `date_between` dates. The calendar is also left
  abstract: dates are day numbers, and GJAHR comes from a given `yearOf`
  function.
- Binary floating point. Money is exact cents, and a rounding is round-half-even
  of the exact value. Float representation error is not modelled (for example
  `round(2.675, 2)` giving 2.67). In particular the Python's credit
  `round(tot_fattura, 2)` and its float debits need not balance exactly as
  floats (0.1 + 0.2 is 0.30000000000000004, rounded to 0.3); the model's exact
  balance holds of integer cents only.
- Database I/O: `create_engine`, `load_dotenv`, `read_sql` and `to_sql`. The
  tables read are passed in, and a table written is the returned sequence.
  - The column subset each `read_sql` selects is not modelled.
  - The order in which rows come back is taken to be the order written.
  - pandas' NaN for the `None` EBELN/EBELP of credit lines is not modelled.
- `print` logging, and the `app.py` dashboard.
- Sd.RunSd: the empty-MARA failure is reported as a `Failure` result. The
  traceback, and the process exit in the middle of the script, are not
  modelled.
- Fi.GenerateFi: orders whose EKPO lines share an EBELN with another header
  are handled by the filter as written. The totals are proved per document
  number, which is distinct by construction.
