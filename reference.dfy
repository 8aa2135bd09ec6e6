/** The reference tables the engine reads, as one immutable snapshot, and the
    seven lookups over it. Each lookup falls back to a fixed constant when its
    row is missing, so a calculation never fails for lack of reference data.

    Tables whose key is declared UNIQUE in the schema (points intervals, server
    ROI, management multipliers) are maps. The others (products, margins,
    management pricing, cloud storage) may hold several rows with the same
    key. The engine's queries have no ORDER BY: a keyed read returns the first
    matching row in rowid order, as SQLite scans these unindexed tables. They
    are sequences in rowid order, searched front to back. */
module Reference {
  import opened Scenario

  datatype Option<T> = None | Some(value: T)

  datatype ProductRow = ProductRow(edition: string, kind: string, points: real)
  datatype MarginRow = MarginRow(kind: string, rates: Tiers)
  /** Amortisation horizons in whole months, as the fallbacks and the seeded rows give them. */
  datatype RoiMonths = RoiMonths(aggressive: int, moderate: int, conservative: int)
  datatype FeeRow = FeeRow(kind: string, setupCost: real, monthlyCost: real)
  datatype Fees = Fees(setup: real, monthly: real)
  datatype ManagementPricing = ManagementPricing(vm: Fees, o365: Fees)

  datatype ReferenceSnapshot = ReferenceSnapshot(
    pointsIntervals: map<string, real>,
    products: seq<ProductRow>,
    margins: seq<MarginRow>,
    serverRoi: map<string, RoiMonths>,
    managementMultipliers: map<string, Tiers>,
    managementPricing: seq<FeeRow>,
    cloudStorage: seq<real>)

  // Fallback constants.
  const DefaultPointsValue: real := 0.69
  const DefaultProductPoints: real := 0.0
  const DefaultMargins: Tiers := Tiers(0.15, 0.25, 0.30)
  const DefaultRoiMonths: RoiMonths := RoiMonths(16, 15, 14)
  const DefaultMultipliers: Tiers := Tiers(1.2, 1.4, 1.6)
  const DefaultVmFees: Fees := Fees(6.0, 3.0)
  const DefaultO365Fees: Fees := Fees(199.0, 99.0)
  const DefaultCloudBasePrice: real := 199.0

  // Row keys the engine asks for in the management pricing table.
  const VmFeeKind: string := "VMs e Servers"
  const O365FeeKind: string := "Office365 Users"

  /** Index of the first row satisfying `matches`, if any. */
  function FirstIndex<T>(rows: seq<T>, matches: T -> bool): (r: Option<nat>)
    ensures r.Some? ==> r.value < |rows| && matches(rows[r.value])
    ensures r.Some? ==> forall j :: 0 <= j < r.value ==> !matches(rows[j])
    ensures r.None? <==> forall j :: 0 <= j < |rows| ==> !matches(rows[j])
    decreases |rows|
  {
    if |rows| == 0 then None
    else if matches(rows[0]) then Some(0)
    else match FirstIndex(rows[1..], matches)
      case None => None
      case Some(i) => Some(i + 1)
  }

  /** Currency-neutral value of one point at the given points interval. */
  function PointsValue(snap: ReferenceSnapshot, level: string): real {
    if level in snap.pointsIntervals then snap.pointsIntervals[level] else DefaultPointsValue
  }

  predicate IsProduct(row: ProductRow, edition: string, kind: string) {
    row.edition == edition && row.kind == kind
  }

  /** Points per unit of an edition and line type, from the first matching row. */
  function ProductPoints(snap: ReferenceSnapshot, edition: string, kind: string): (p: real)
    ensures (forall j :: 0 <= j < |snap.products| ==> !IsProduct(snap.products[j], edition, kind)) ==> p == DefaultProductPoints
    ensures forall i :: 0 <= i < |snap.products| && IsProduct(snap.products[i], edition, kind) &&
                        (forall j :: 0 <= j < i ==> !IsProduct(snap.products[j], edition, kind))
                     ==> p == snap.products[i].points
  {
    match FirstIndex(snap.products, (row: ProductRow) => IsProduct(row, edition, kind))
    case None => DefaultProductPoints
    case Some(i) => snap.products[i].points
  }

  /** Margin triple of a service category, from the first matching row. */
  function MarginsFor(snap: ReferenceSnapshot, kind: string): (m: Tiers)
    ensures (forall j :: 0 <= j < |snap.margins| ==> snap.margins[j].kind != kind) ==> m == DefaultMargins
    ensures forall i :: 0 <= i < |snap.margins| && snap.margins[i].kind == kind &&
                        (forall j :: 0 <= j < i ==> snap.margins[j].kind != kind)
                     ==> m == snap.margins[i].rates
  {
    match FirstIndex(snap.margins, (row: MarginRow) => row.kind == kind)
    case None => DefaultMargins
    case Some(i) => snap.margins[i].rates
  }

  /** Amortisation horizons for a risk level. */
  function ServerRoi(snap: ReferenceSnapshot, riskLabel: string): RoiMonths {
    if riskLabel in snap.serverRoi then snap.serverRoi[riskLabel] else DefaultRoiMonths
  }

  /** Management fee multipliers for a risk level. */
  function ManagementMultipliers(snap: ReferenceSnapshot, riskLabel: string): Tiers {
    if riskLabel in snap.managementMultipliers then snap.managementMultipliers[riskLabel] else DefaultMultipliers
  }

  /** Fees of the first management pricing row of the given kind, or the fallback. */
  function FeesOf(rows: seq<FeeRow>, kind: string, default: Fees): (f: Fees)
    ensures (forall j :: 0 <= j < |rows| ==> rows[j].kind != kind) ==> f == default
    ensures forall i :: 0 <= i < |rows| && rows[i].kind == kind &&
                        (forall j :: 0 <= j < i ==> rows[j].kind != kind)
                     ==> f == Fees(rows[i].setupCost, rows[i].monthlyCost)
  {
    match FirstIndex(rows, (row: FeeRow) => row.kind == kind)
    case None => default
    case Some(i) => Fees(rows[i].setupCost, rows[i].monthlyCost)
  }

  /** Per-compute-unit and per-tenant management fees; each row falls back on its own. */
  function ManagementPricingOf(snap: ReferenceSnapshot): ManagementPricing {
    ManagementPricing(
      FeesOf(snap.managementPricing, VmFeeKind, DefaultVmFees),
      FeesOf(snap.managementPricing, O365FeeKind, DefaultO365Fees))
  }

  /** Cloud storage price per TB: the first row of the table. */
  function CloudStoragePrice(snap: ReferenceSnapshot): real {
    if |snap.cloudStorage| == 0 then DefaultCloudBasePrice else snap.cloudStorage[0]
  }

  /** Every lookup yields its documented constant when its row is absent. */
  lemma FallbacksWhenAbsent(snap: ReferenceSnapshot, level: string, edition: string, kind: string,
                            category: string, riskLabel: string)
    ensures level !in snap.pointsIntervals ==> PointsValue(snap, level) == 0.69
    ensures (forall j :: 0 <= j < |snap.products| ==> !IsProduct(snap.products[j], edition, kind))
            ==> ProductPoints(snap, edition, kind) == 0.0
    ensures (forall j :: 0 <= j < |snap.margins| ==> snap.margins[j].kind != category)
            ==> MarginsFor(snap, category) == Tiers(0.15, 0.25, 0.30)
    ensures riskLabel !in snap.serverRoi ==> ServerRoi(snap, riskLabel) == RoiMonths(16, 15, 14)
    ensures riskLabel !in snap.managementMultipliers
            ==> ManagementMultipliers(snap, riskLabel) == Tiers(1.2, 1.4, 1.6)
    ensures (forall j :: 0 <= j < |snap.managementPricing| ==> snap.managementPricing[j].kind != "VMs e Servers")
            ==> ManagementPricingOf(snap).vm == Fees(6.0, 3.0)
    ensures (forall j :: 0 <= j < |snap.managementPricing| ==> snap.managementPricing[j].kind != "Office365 Users")
            ==> ManagementPricingOf(snap).o365 == Fees(199.0, 99.0)
    ensures snap.cloudStorage == [] ==> CloudStoragePrice(snap) == 199.0
  {
  }

  /** Horizons that shrink from the aggressive to the conservative tier, all positive. */
  predicate ShrinkingHorizons(m: RoiMonths) {
    0 < m.conservative <= m.moderate <= m.aggressive
  }

  /** Reference data as the tables are built: non-negative points, prices and
      fees, margins and multipliers that grow from the aggressive to the
      conservative tier, and positive horizons that shrink along the tiers. */
  predicate WellFormedSnapshot(snap: ReferenceSnapshot) {
    (forall level :: level in snap.pointsIntervals ==> 0.0 <= snap.pointsIntervals[level]) &&
    (forall i :: 0 <= i < |snap.products| ==> 0.0 <= snap.products[i].points) &&
    (forall i :: 0 <= i < |snap.margins| ==> Ascending(snap.margins[i].rates)) &&
    (forall risk :: risk in snap.serverRoi ==> ShrinkingHorizons(snap.serverRoi[risk])) &&
    (forall risk :: risk in snap.managementMultipliers ==> Ascending(snap.managementMultipliers[risk])) &&
    (forall i :: 0 <= i < |snap.managementPricing| ==>
       0.0 <= snap.managementPricing[i].setupCost && 0.0 <= snap.managementPricing[i].monthlyCost) &&
    (forall i :: 0 <= i < |snap.cloudStorage| ==> 0.0 <= snap.cloudStorage[i])
  }

  /** On well-formed tables every lookup, found or fallen back, is well-formed too. */
  lemma PointsValueNonNegative(snap: ReferenceSnapshot, level: string)
    requires WellFormedSnapshot(snap)
    ensures 0.0 <= PointsValue(snap, level)
  {
  }

  lemma ProductPointsNonNegative(snap: ReferenceSnapshot, edition: string, kind: string)
    requires WellFormedSnapshot(snap)
    ensures 0.0 <= ProductPoints(snap, edition, kind)
  {
  }

  lemma MarginsAscending(snap: ReferenceSnapshot, category: string)
    requires WellFormedSnapshot(snap)
    ensures Ascending(MarginsFor(snap, category))
  {
  }

  lemma RiskTablesWellFormed(snap: ReferenceSnapshot, riskLabel: string)
    requires WellFormedSnapshot(snap)
    ensures ShrinkingHorizons(ServerRoi(snap, riskLabel))
    ensures Ascending(ManagementMultipliers(snap, riskLabel))
  {
  }

  lemma FeesNonNegative(snap: ReferenceSnapshot)
    requires WellFormedSnapshot(snap)
    ensures var fees := ManagementPricingOf(snap);
            0.0 <= fees.vm.setup && 0.0 <= fees.vm.monthly && 0.0 <= fees.o365.setup && 0.0 <= fees.o365.monthly
  {
  }

  lemma CloudStoragePriceNonNegative(snap: ReferenceSnapshot)
    requires WellFormedSnapshot(snap)
    ensures 0.0 <= CloudStoragePrice(snap)
  {
  }
}
