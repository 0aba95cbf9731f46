/**
 * The maintenance generator (generate_pm_data.py): cost centres (CSKS),
 * equipment (EQUI), maintenance-order headers (AFIH) and their operations
 * (AFVC), each operation costed as labour hours at 45.00 per hour plus parts.
 *
 * Every random draw is an input in the range of its call; the order dates
 * of the fake-data library are opaque day numbers.
 */
module Pm {
  import opened Keys
  import opened Money
  import opened Lines
  import opened Mm

  const CostCenterNames: seq<string> := [
    "Manutenzione Elettrica", "Reparto Laminazione", "Servizi Generali", "Magazzino Ricambi", "Produzione Acciaio"
  ]
  const EquipmentTypes: seq<string> := [
    "Motore Laminatoio a Caldo", "Quadro Elettrico di Commutazione", "Trasformatore MT/BT",
    "Pompa Idraulica Principale", "Carroponte Elettrico 50t", "Sensore Termico Forno", "Nastro Trasportatore"
  ]
  const ActivityTypes: seq<string> := ["PM01", "PM02"]
  const EquipmentCount := 60
  const MaxZone := 99
  const MaintenanceOrderCount := 250
  const MinOperations := 1
  const MaxOperations := 3
  const MinHours := 2
  const MaxHours := 48
  /** `uniform(100.0, 15000.0)` bounds of the parts cost, in currency units. */
  const MinPartsCost := 100
  const MaxPartsCost := 15000
  /** The labour rate, 45.00 per hour, in cents. */
  const HourlyRate: Cents := 4500

  datatype Csks = Csks(kostl: string, ktext: string)
  datatype Equi = Equi(equnr: string, eqktx: string, kostl: string)
  datatype Afih = Afih(aufnr: string, equnr: string, ilart: string, erdat: Day)
  datatype Afvc = Afvc(aufnr: string, vornr: string, arbei: nat, costMat: Cents, costTot: Cents)

  /** One equipment's draws: `choice(equipment_types)`, `randint(1, 99)` and `choice(cost_centers)`, as indices and a number. */
  datatype EquipmentDraw = EquipmentDraw(kind: nat, zone: nat, costCenter: nat)
  /** One order header's draws: `choice(equipments)`, `choice(['PM01', 'PM02'])` as indices, and the `date_between` day. */
  datatype MaintenanceOrderDraw = MaintenanceOrderDraw(equipment: nat, activity: nat, erdat: Day)
  /** One operation's draws: `randint(2, 48)` hours and `uniform(100.0, 15000.0)` parts cost. */
  datatype OperationDraw = OperationDraw(hours: nat, parts: real)

  function Kostls(csks: seq<Csks>): (ks: seq<string>)
    ensures |ks| == |csks| && forall i :: 0 <= i < |csks| ==> ks[i] == csks[i].kostl
  {
    seq(|csks|, i requires 0 <= i < |csks| => csks[i].kostl)
  }

  function Equnrs(equi: seq<Equi>): (ks: seq<string>)
    ensures |ks| == |equi| && forall i :: 0 <= i < |equi| ==> ks[i] == equi[i].equnr
  {
    seq(|equi|, i requires 0 <= i < |equi| => equi[i].equnr)
  }

  function Aufnrs(afih: seq<Afih>): (ks: seq<string>)
    ensures |ks| == |afih| && forall i :: 0 <= i < |afih| ==> ks[i] == afih[i].aufnr
  {
    seq(|afih|, i requires 0 <= i < |afih| => afih[i].aufnr)
  }

  /** The order key of an AFVC operation. */
  function AufnrOf(op: Afvc): string { op.aufnr }

  // ---------------------------------------------------------------- CSKS

  function CostCenterId(i: nat): string { SequentialKey("CC", 3, i) }

  /** The cost centres the CSKS loop builds, one per name in list order. */
  function CostCenters(): (csks: seq<Csks>)
    ensures |csks| == |CostCenterNames|
  {
    seq(|CostCenterNames|, i requires 0 <= i < |CostCenterNames| => Csks(CostCenterId(i), CostCenterNames[i]))
  }

  /** Cost centres "CC001" to "CC005", distinct, carrying the names in list order. */
  lemma CostCentersFacts()
    ensures var csks := CostCenters();
      && (forall i :: 0 <= i < |csks| ==>
        && csks[i].kostl == CostCenterId(i)
        && IsKeyOf(csks[i].kostl, "CC", 3)
        && csks[i].ktext == CostCenterNames[i])
      && DistinctKeys(Kostls(csks))
  {
    SequentialKeys("CC", 3, |CostCenterNames|);
  }

  /** The CSKS loop over the enumerated names. */
  method GenerateCsks() returns (csks: seq<Csks>)
    ensures csks == CostCenters()
  {
    csks := [];
    for i := 0 to |CostCenterNames|
      invariant csks == CostCenters()[..i]
    {
      var name := CostCenterNames[i];
      PrefixStep(CostCenters(), i);
      csks := csks + [Csks(CostCenterId(i), name)];
    }
  }

  // ---------------------------------------------------------------- EQUI

  function EquipmentId(i: nat): string { SequentialKey("EQ", 5, i) }

  predicate ValidEquipmentDraw(d: EquipmentDraw, costCenterCount: nat) {
    d.kind < |EquipmentTypes| && 1 <= d.zone <= MaxZone && d.costCenter < costCenterCount
  }

  /** The description `f"{type} - Z{zone}"`. */
  function EquipmentText(kind: nat, zone: nat): (s: string)
    requires kind < |EquipmentTypes|
    ensures |s| > |EquipmentTypes[kind]| + 4 && s[..|EquipmentTypes[kind]| + 4] == EquipmentTypes[kind] + " - Z"
  {
    EquipmentTypes[kind] + " - Z" + Decimal(zone)
  }

  /** A description that names one of the equipment types and a zone from 1 to 99. */
  ghost predicate ZoneLabel(s: string) {
    exists t, z :: 0 <= t < |EquipmentTypes| && 1 <= z <= MaxZone && s == EquipmentText(t, z)
  }

  /** The zone number can be read back from the description: its characters after " - Z" denote it. */
  lemma EquipmentTextZone(kind: nat, zone: nat)
    requires kind < |EquipmentTypes|
    ensures var s := EquipmentText(kind, zone); var p := |EquipmentTypes[kind]| + 4;
      && |s| > p && s[..p] == EquipmentTypes[kind] + " - Z"
      && AllDigits(s[p..]) && ValueOf(s[p..]) == zone
  {
    var s := EquipmentText(kind, zone);
    var p := |EquipmentTypes[kind]| + 4;
    assert s[p..] == Decimal(zone);
    ValueOfDecimal(zone);
  }

  /** Equipment i as the script builds it. */
  function EquipmentRow(i: nat, d: EquipmentDraw, csks: seq<Csks>): (e: Equi)
    requires d.kind < |EquipmentTypes| && d.costCenter < |csks|
    ensures e.equnr == EquipmentId(i) && e.kostl in Kostls(csks)
  {
    assert Kostls(csks)[d.costCenter] == csks[d.costCenter].kostl;
    Equi(EquipmentId(i), EquipmentText(d.kind, d.zone), csks[d.costCenter].kostl)
  }

  /** The machines the EQUI loop builds, one per draw. */
  function Equipment(csks: seq<Csks>, draws: seq<EquipmentDraw>): (equi: seq<Equi>)
    requires |draws| == EquipmentCount
    requires forall i :: 0 <= i < |draws| ==> ValidEquipmentDraw(draws[i], |csks|)
    ensures |equi| == EquipmentCount
  {
    seq(EquipmentCount, i requires 0 <= i < EquipmentCount =>
      assert ValidEquipmentDraw(draws[i], |csks|); EquipmentRow(i, draws[i], csks))
  }

  /** 60 machines "EQ00001" to "EQ00060", distinct, each in one of the cost centres, labelled with a zone 1 to 99. */
  lemma EquipmentFacts(csks: seq<Csks>, draws: seq<EquipmentDraw>)
    requires |draws| == EquipmentCount
    requires forall i :: 0 <= i < |draws| ==> ValidEquipmentDraw(draws[i], |csks|)
    ensures var equi := Equipment(csks, draws);
      && (forall i :: 0 <= i < |equi| ==>
        && equi[i].equnr == EquipmentId(i)
        && IsKeyOf(equi[i].equnr, "EQ", 5)
        && equi[i].kostl in Kostls(csks)
        && ZoneLabel(equi[i].eqktx))
      && DistinctKeys(Equnrs(equi))
  {
    SequentialKeys("EQ", 5, EquipmentCount);
    var equi := Equipment(csks, draws);
    forall i | 0 <= i < |equi| ensures equi[i].kostl in Kostls(csks) && ZoneLabel(equi[i].eqktx) {
      assert Kostls(csks)[draws[i].costCenter] == equi[i].kostl;
      assert equi[i].eqktx == EquipmentText(draws[i].kind, draws[i].zone);
    }
  }

  /** The EQUI loop. */
  method GenerateEqui(csks: seq<Csks>, draws: seq<EquipmentDraw>) returns (equi: seq<Equi>)
    requires |draws| == EquipmentCount
    requires forall i :: 0 <= i < |draws| ==> ValidEquipmentDraw(draws[i], |csks|)
    ensures equi == Equipment(csks, draws)
  {
    equi := [];
    for i := 0 to EquipmentCount
      invariant equi == Equipment(csks, draws)[..i]
    {
      var d := draws[i];
      PrefixStep(Equipment(csks, draws), i);
      equi := equi + [EquipmentRow(i, d, csks)];
    }
  }

  // ---------------------------------------------------------------- AFIH

  function MaintenanceOrderId(i: nat): string { SequentialKey("400", 6, i) }

  predicate ValidOrderDraw(d: MaintenanceOrderDraw, equipmentCount: nat) {
    d.equipment < equipmentCount && d.activity < |ActivityTypes|
  }

  /** Order header i as the script builds it. */
  function MaintenanceOrderRow(i: nat, d: MaintenanceOrderDraw, equi: seq<Equi>): (order: Afih)
    requires ValidOrderDraw(d, |equi|)
    ensures order.aufnr == MaintenanceOrderId(i) && order.equnr in Equnrs(equi)
    ensures order.ilart == "PM01" || order.ilart == "PM02"
  {
    assert Equnrs(equi)[d.equipment] == equi[d.equipment].equnr;
    Afih(MaintenanceOrderId(i), equi[d.equipment].equnr, ActivityTypes[d.activity], d.erdat)
  }

  /** The orders the AFIH loop builds, one per draw. */
  function MaintenanceOrders(equi: seq<Equi>, draws: seq<MaintenanceOrderDraw>): (afih: seq<Afih>)
    requires |draws| == MaintenanceOrderCount
    requires forall i :: 0 <= i < |draws| ==> ValidOrderDraw(draws[i], |equi|)
    ensures |afih| == MaintenanceOrderCount
  {
    seq(MaintenanceOrderCount, i requires 0 <= i < MaintenanceOrderCount => MaintenanceOrderRow(i, draws[i], equi))
  }

  /** 250 orders "400000001" to "400000250", distinct, each on one of the machines, of activity type PM01 or PM02. */
  lemma MaintenanceOrdersFacts(equi: seq<Equi>, draws: seq<MaintenanceOrderDraw>)
    requires |draws| == MaintenanceOrderCount
    requires forall i :: 0 <= i < |draws| ==> ValidOrderDraw(draws[i], |equi|)
    ensures var afih := MaintenanceOrders(equi, draws);
      && (forall i :: 0 <= i < |afih| ==>
        && afih[i].aufnr == MaintenanceOrderId(i)
        && IsKeyOf(afih[i].aufnr, "400", 6)
        && afih[i].equnr in Equnrs(equi)
        && (afih[i].ilart == "PM01" || afih[i].ilart == "PM02"))
      && DistinctKeys(Aufnrs(afih))
  {
    SequentialKeys("400", 6, MaintenanceOrderCount);
    var afih := MaintenanceOrders(equi, draws);
    forall i | 0 <= i < |afih| ensures afih[i].equnr in Equnrs(equi) {
      assert Equnrs(equi)[draws[i].equipment] == afih[i].equnr;
    }
  }

  /** The AFIH loop. */
  method GenerateAfih(equi: seq<Equi>, draws: seq<MaintenanceOrderDraw>) returns (afih: seq<Afih>)
    requires |draws| == MaintenanceOrderCount
    requires forall i :: 0 <= i < |draws| ==> ValidOrderDraw(draws[i], |equi|)
    ensures afih == MaintenanceOrders(equi, draws)
  {
    afih := [];
    for i := 0 to MaintenanceOrderCount
      invariant afih == MaintenanceOrders(equi, draws)[..i]
    {
      var d := draws[i];
      PrefixStep(MaintenanceOrders(equi, draws), i);
      afih := afih + [MaintenanceOrderRow(i, d, equi)];
    }
  }

  // ---------------------------------------------------------------- AFVC

  predicate ValidOperationDraw(d: OperationDraw) {
    MinHours <= d.hours <= MaxHours && MinPartsCost as real <= d.parts <= MaxPartsCost as real
  }

  /** Operation draws per order: `randint(1, 3)` operations, each with valid draws. */
  predicate ValidOperationDraws(draws: seq<seq<OperationDraw>>) {
    forall k :: 0 <= k < |draws| ==>
      && MinOperations <= |draws[k]| <= MaxOperations
      && forall j :: 0 <= j < |draws[k]| ==> ValidOperationDraw(draws[k][j])
  }

  /** The operation number `f"{(j + 1) * 10}"`. */
  function OperationNumber(j: nat): string { Decimal((j + 1) * 10) }

  /**
   * Operation j of an order: the parts cost `round(uniform(...), 2)` and the
   * total `round(hours * 45.0 + parts, 2)`, both in cents.
   */
  function OperationRow(aufnr: string, j: nat, d: OperationDraw): (op: Afvc)
    ensures op.aufnr == aufnr && op.arbei == d.hours
    ensures op.costTot == op.arbei * HourlyRate + op.costMat
    ensures j < MaxOperations ==> op.vornr in ["10", "20", "30"]
  {
    var parts := RoundCents(d.parts);
    assert (d.hours as real * 45.0 + parts as real / 100.0) * 100.0 == (d.hours * HourlyRate + parts) as real;
    RoundWhole(d.hours * HourlyRate + parts);
    assert Decimal(10) == "10" && Decimal(20) == "20" && Decimal(30) == "30";
    Afvc(aufnr, OperationNumber(j), d.hours, parts, RoundCents(d.hours as real * 45.0 + parts as real / 100.0))
  }

  /** The operations of one order. */
  function OrderOperations(order: Afih, ds: seq<OperationDraw>): (ops: seq<Afvc>)
    ensures |ops| == |ds|
  {
    seq(|ds|, j requires 0 <= j < |ds| => OperationRow(order.aufnr, j, ds[j]))
  }

  function OperationBlocks(afih: seq<Afih>, draws: seq<seq<OperationDraw>>): (blocks: seq<seq<Afvc>>)
    requires |draws| == |afih|
    ensures |blocks| == |afih|
    ensures forall k :: 0 <= k < |afih| ==> blocks[k] == OrderOperations(afih[k], draws[k])
    ensures Keyed(blocks, AufnrOf, Aufnrs(afih))
  {
    seq(|afih|, k requires 0 <= k < |afih| => OrderOperations(afih[k], draws[k]))
  }

  /** The AFVC table the nested loop produces: the operations of each order, in order. */
  function AfvcOf(afih: seq<Afih>, draws: seq<seq<OperationDraw>>): (afvc: seq<Afvc>)
    requires |draws| == |afih|
    ensures |afvc| == TotalSize(OperationBlocks(afih, draws))
  {
    Flatten(OperationBlocks(afih, draws))
  }

  /** Operation numbers of an order read back as 10, 20, 30, ...: strictly increasing in the order. */
  lemma OperationNumbers(order: Afih, ds: seq<OperationDraw>)
    ensures forall j :: 0 <= j < |ds| ==>
      AllDigits(OrderOperations(order, ds)[j].vornr) && ValueOf(OrderOperations(order, ds)[j].vornr) == (j + 1) * 10
    ensures forall a, b :: 0 <= a < b < |ds| ==>
      ValueOf(OrderOperations(order, ds)[a].vornr) < ValueOf(OrderOperations(order, ds)[b].vornr)
  {
    forall j | 0 <= j < |ds|
      ensures AllDigits(OrderOperations(order, ds)[j].vornr) && ValueOf(OrderOperations(order, ds)[j].vornr) == (j + 1) * 10
    {
      ValueOfDecimal((j + 1) * 10);
    }
  }

  /** What holds of every generated AFVC operation. */
  predicate OperationFacts(op: Afvc, afih: seq<Afih>) {
    && op.aufnr in Aufnrs(afih)
    && MinHours <= op.arbei <= MaxHours
    && MinPartsCost * 100 <= op.costMat <= MaxPartsCost * 100
    && op.costTot == op.arbei * HourlyRate + op.costMat
    && op.vornr in ["10", "20", "30"]
    && AllDigits(op.vornr) && ValueOf(op.vornr) % 10 == 0 && 10 <= ValueOf(op.vornr) <= 10 * MaxOperations
  }

  lemma OperationRowFacts(afih: seq<Afih>, k: nat, j: nat, d: OperationDraw)
    requires k < |afih| && j < MaxOperations && ValidOperationDraw(d)
    ensures OperationFacts(OperationRow(afih[k].aufnr, j, d), afih)
  {
    assert Aufnrs(afih)[k] == afih[k].aufnr;
    RoundCentsWithin(d.parts, MinPartsCost, MaxPartsCost);
    ValueOfDecimal((j + 1) * 10);
  }

  /**
   * The properties of the AFVC table: between 1 and 3 operations per order;
   * every operation references an existing order, has 2 to 48 hours, a parts
   * cost of 100.00 to 15000.00 and a total of exactly hours * 45.00 + parts;
   * operations come grouped by order in header order, and the operations of
   * order k are exactly its block, numbered "10", "20", ...
   */
  lemma AfvcProperties(afih: seq<Afih>, draws: seq<seq<OperationDraw>>)
    requires |draws| == |afih| && ValidOperationDraws(draws)
    ensures |afih| <= |AfvcOf(afih, draws)| <= MaxOperations * |afih|
    ensures forall p :: 0 <= p < |AfvcOf(afih, draws)| ==> OperationFacts(AfvcOf(afih, draws)[p], afih)
    ensures DistinctKeys(Aufnrs(afih)) ==> GroupedBy(AfvcOf(afih, draws), AufnrOf, Aufnrs(afih))
    ensures DistinctKeys(Aufnrs(afih)) ==> forall k :: 0 <= k < |afih| ==>
      Select(AfvcOf(afih, draws), AufnrOf, afih[k].aufnr) == OrderOperations(afih[k], draws[k])
  {
    var blocks := OperationBlocks(afih, draws);
    var afvc := Flatten(blocks);
    TotalSizeBounds(blocks, MinOperations, MaxOperations);
    forall p | 0 <= p < |afvc| ensures OperationFacts(afvc[p], afih) {
      var k, j := FlattenAt(blocks, p);
      OperationRowFacts(afih, k, j, draws[k][j]);
    }
    if DistinctKeys(Aufnrs(afih)) {
      FlattenGrouped(blocks, AufnrOf, Aufnrs(afih));
      forall k | 0 <= k < |afih| ensures Select(afvc, AufnrOf, afih[k].aufnr) == blocks[k] {
        SelectFlatten(blocks, AufnrOf, Aufnrs(afih), k);
      }
    }
  }

  /** The inner AFVC loop: appends the operations of one order, numbered 10, 20, 30. */
  method AppendOperations(afvc: seq<Afvc>, order: Afih, ds: seq<OperationDraw>) returns (out: seq<Afvc>)
    ensures out == afvc + OrderOperations(order, ds)
  {
    ghost var ops := OrderOperations(order, ds);
    out := afvc;
    for j := 0 to |ds|
      invariant out == afvc + ops[..j]
    {
      var d := ds[j];
      var hours := d.hours;
      var parts := RoundCents(d.parts);
      PrefixStep(ops, j);
      out := out + [Afvc(order.aufnr, Decimal((j + 1) * 10), hours, parts,
                         RoundCents(hours as real * 45.0 + parts as real / 100.0))];
    }
    assert ops[..|ds|] == ops;
  }

  /** The AFVC nested loop over the AFIH rows. */
  method GenerateAfvc(afih: seq<Afih>, draws: seq<seq<OperationDraw>>) returns (afvc: seq<Afvc>)
    requires |draws| == |afih| && ValidOperationDraws(draws)
    ensures afvc == AfvcOf(afih, draws)
  {
    ghost var blocks := OperationBlocks(afih, draws);
    afvc := [];
    for i := 0 to |afih|
      invariant afvc == Flatten(blocks[..i])
    {
      afvc := AppendOperations(afvc, afih[i], draws[i]);
      FlattenSnoc(blocks, i);
    }
    assert blocks[..|afih|] == blocks;
  }

  // ---------------------------------------------------------------- the script

  /**
   * The whole script: CSKS, EQUI, AFIH, AFVC in that order, each built from
   * the one before; 5 cost centres, 60 machines, 250 orders and 250 to 750
   * operations, with no dangling reference.
   */
  method RunPm(equipmentDraws: seq<EquipmentDraw>, orderDraws: seq<MaintenanceOrderDraw>,
               operationDraws: seq<seq<OperationDraw>>)
    returns (csks: seq<Csks>, equi: seq<Equi>, afih: seq<Afih>, afvc: seq<Afvc>)
    requires |equipmentDraws| == EquipmentCount
    requires forall i :: 0 <= i < |equipmentDraws| ==> ValidEquipmentDraw(equipmentDraws[i], |CostCenterNames|)
    requires |orderDraws| == MaintenanceOrderCount
    requires forall i :: 0 <= i < |orderDraws| ==> ValidOrderDraw(orderDraws[i], EquipmentCount)
    requires |operationDraws| == MaintenanceOrderCount && ValidOperationDraws(operationDraws)
    ensures |csks| == |CostCenterNames| && |equi| == EquipmentCount && |afih| == MaintenanceOrderCount
    ensures MaintenanceOrderCount <= |afvc| <= MaxOperations * MaintenanceOrderCount
    ensures DistinctKeys(Kostls(csks)) && DistinctKeys(Equnrs(equi)) && DistinctKeys(Aufnrs(afih))
    ensures forall i :: 0 <= i < |equi| ==> equi[i].kostl in Kostls(csks)
    ensures forall i :: 0 <= i < |afih| ==> afih[i].equnr in Equnrs(equi)
    ensures forall p :: 0 <= p < |afvc| ==> OperationFacts(afvc[p], afih)
    ensures afvc == AfvcOf(afih, operationDraws)
    ensures GroupedBy(afvc, AufnrOf, Aufnrs(afih))
    ensures csks == CostCenters() && equi == Equipment(csks, equipmentDraws) && afih == MaintenanceOrders(equi, orderDraws)
  {
    csks := GenerateCsks();
    CostCentersFacts();
    equi := GenerateEqui(csks, equipmentDraws);
    EquipmentFacts(csks, equipmentDraws);
    afih := GenerateAfih(equi, orderDraws);
    MaintenanceOrdersFacts(equi, orderDraws);
    afvc := GenerateAfvc(afih, operationDraws);
    AfvcProperties(afih, operationDraws);
  }
}
