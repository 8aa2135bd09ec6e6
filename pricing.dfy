/** The pricing rules of one scenario: risk classification, margin selection,
    the priced line items and the tax gross-up, each as a pure function of the
    scenario and the reference snapshot. */
module Pricing {
  import opened Scenario
  import opened Reference
  import opened Text

  // ---------------------------------------------------------------------------
  // Risk and margins

  /** Baixo without managed services; with them, Médio when a dual backup path
      exists and Alto otherwise. No other input matters. */
  function Risk(input: ScenarioInput): (r: RiskLevel)
    ensures r == Baixo <==> !input.needsManagedServices
    ensures r == Medio <==> input.needsManagedServices && input.hasDualBackup
    ensures r == Alto <==> input.needsManagedServices && !input.hasDualBackup
  {
    if input.needsManagedServices then (if input.hasDualBackup then Medio else Alto) else Baixo
  }

  /** The margin table row the scenario is priced with. */
  function MarginCategory(input: ScenarioInput): (k: string)
    ensures k == "com_gerencia" <==> input.needsManagedServices
    ensures k == "sem_gerencia" <==> !input.needsManagedServices
  {
    if input.needsManagedServices then "com_gerencia" else "sem_gerencia"
  }

  function Margins(input: ScenarioInput, snap: ReferenceSnapshot): Tiers {
    MarginsFor(snap, MarginCategory(input))
  }

  function Roi(input: ScenarioInput, snap: ReferenceSnapshot): RoiMonths {
    ServerRoi(snap, Risk(input).Label())
  }

  function Multipliers(input: ScenarioInput, snap: ReferenceSnapshot): Tiers {
    ManagementMultipliers(snap, Risk(input).Label())
  }

  // ---------------------------------------------------------------------------
  // Licensing items: a base cost marked up by the margin of each tier

  /** A licensing base cost priced under each tier's margin. */
  function WithMargins(base: real, m: Tiers): Tiers {
    Tiers(base * (1.0 + m.aggressive), base * (1.0 + m.moderate), base * (1.0 + m.conservative))
  }

  // Catalog rows the engine prices the O365 and Cloud Connect items with.
  const O365Edition: string := "Veeam Backup for Microsoft Office 365"
  const CloudConnectEdition: string := "Veeam Cloud Connect"

  /** Cost of `count` units of `points` points each, at `pointsValue` per point
      and the given dollar rate. */
  function PointsCost(count: nat, points: real, pointsValue: real, dollarRate: real): real {
    (count as real) * points * pointsValue * dollarRate
  }

  /** Cost of the Veeam points the protected VMs and physical servers consume. */
  function VeeamBase(input: ScenarioInput, snap: ReferenceSnapshot): real {
    var pointsValue := PointsValue(snap, input.veeamPointsLevel);
    PointsCost(input.vmCount, ProductPoints(snap, input.veeamEdition, "VM"), pointsValue, input.dollarRate)
    + PointsCost(input.physicalServerCount, ProductPoints(snap, input.veeamEdition, "Server"), pointsValue, input.dollarRate)
  }

  function O365Base(input: ScenarioInput, snap: ReferenceSnapshot): real {
    PointsCost(input.mailboxCount, ProductPoints(snap, O365Edition, "User"),
               PointsValue(snap, input.veeamPointsLevel), input.dollarRate)
  }

  function CloudConnectBase(input: ScenarioInput, snap: ReferenceSnapshot): real {
    PointsCost(input.vmCount, ProductPoints(snap, CloudConnectEdition, "VM"),
               PointsValue(snap, input.veeamPointsLevel), input.dollarRate)
  }

  /** Cloud Connect is charged only to a client that brings no Veeam licence but stores in the cloud. */
  predicate CloudConnectApplies(input: ScenarioInput) {
    !input.needsVeeamLicensing && input.needsCloudStorage
  }

  function VeeamLicensing(input: ScenarioInput, snap: ReferenceSnapshot): Tiers {
    if input.needsVeeamLicensing then WithMargins(VeeamBase(input, snap), Margins(input, snap)) else ZeroTiers
  }

  function O365Licensing(input: ScenarioInput, snap: ReferenceSnapshot): Tiers {
    if input.needsO365Backup then WithMargins(O365Base(input, snap), Margins(input, snap)) else ZeroTiers
  }

  function CloudConnect(input: ScenarioInput, snap: ReferenceSnapshot): Tiers {
    if CloudConnectApplies(input) then WithMargins(CloudConnectBase(input, snap), Margins(input, snap)) else ZeroTiers
  }

  // ---------------------------------------------------------------------------
  // Local hardware: a flat acquisition cost amortised over risk-based horizons

  predicate NonZeroMonths(m: RoiMonths) {
    m.aggressive != 0 && m.moderate != 0 && m.conservative != 0
  }

  /** The amortised monthly cost is defined: hardware is off or its horizons are non-zero. */
  predicate AmortisationDefined(input: ScenarioInput, snap: ReferenceSnapshot) {
    input.needsLocalHardware ==> NonZeroMonths(Roi(input, snap))
  }

  function ServerAcquisition(input: ScenarioInput): Tiers {
    var c := input.serverAcquisitionCost;
    if input.needsLocalHardware then Tiers(c, c, c) else ZeroTiers
  }

  function ServerMonthly(input: ScenarioInput, snap: ReferenceSnapshot): Tiers
    requires AmortisationDefined(input, snap)
  {
    var c := input.serverAcquisitionCost;
    var m := Roi(input, snap);
    if input.needsLocalHardware
    then Tiers(c / (m.aggressive as real), c / (m.moderate as real), c / (m.conservative as real))
    else ZeroTiers
  }

  function MonthsText(months: int): string {
    IntToString(months) + " meses"
  }

  function ServerRoiText(input: ScenarioInput, snap: ReferenceSnapshot): RoiText {
    var m := Roi(input, snap);
    if input.needsLocalHardware
    then RoiText(MonthsText(m.aggressive), MonthsText(m.moderate), MonthsText(m.conservative))
    else RoiText("", "", "")
  }

  // ---------------------------------------------------------------------------
  // Cloud storage: fixed discount factors, not margins

  function CloudStorage(input: ScenarioInput, snap: ReferenceSnapshot): Tiers {
    var base := input.cloudStorageTb * CloudStoragePrice(snap);
    if input.needsCloudStorage then Tiers(base * 0.8, base * 0.9, base * 1.0) else ZeroTiers
  }

  // ---------------------------------------------------------------------------
  // Management fees: per compute unit plus a flat tenant fee, scaled by risk

  /** Fee base: every VM and physical server pays the unit fee, plus one tenant
      fee when Office 365 backup is in scope. */
  function ManagementBase(input: ScenarioInput, unitFee: real, tenantFee: real): real {
    (((input.vmCount + input.physicalServerCount) as real) * unitFee
      + (if input.needsO365Backup then tenantFee else 0.0)) * input.dollarRate
  }

  function Scale(base: real, k: Tiers): Tiers {
    Tiers(base * k.aggressive, base * k.moderate, base * k.conservative)
  }

  function ManagementMonthly(input: ScenarioInput, snap: ReferenceSnapshot): Tiers {
    var fees := ManagementPricingOf(snap);
    if input.needsManagedServices
    then Scale(ManagementBase(input, fees.vm.monthly, fees.o365.monthly), Multipliers(input, snap))
    else ZeroTiers
  }

  function ManagementSetup(input: ScenarioInput, snap: ReferenceSnapshot): Tiers {
    var fees := ManagementPricingOf(snap);
    if input.needsManagedServices
    then Scale(ManagementBase(input, fees.vm.setup, fees.o365.setup), Multipliers(input, snap))
    else ZeroTiers
  }

  // ---------------------------------------------------------------------------
  // Totals

  /** The recurring monthly charges; the acquisition cost and the management
      setup fee are one-time charges and stay out. */
  function Subtotal(input: ScenarioInput, snap: ReferenceSnapshot): Tiers
    requires AmortisationDefined(input, snap)
  {
    Add(Add(Add(Add(Add(VeeamLicensing(input, snap), O365Licensing(input, snap)), CloudConnect(input, snap)),
      ServerMonthly(input, snap)), CloudStorage(input, snap)), ManagementMonthly(input, snap))
  }

  /** Tax gross-up of a subtotal: the total is the subtotal divided by
      (1 - taxRate) and the tax is that total times taxRate. */
  function GrossUp(subtotal: Tiers, taxRate: real): Totals
    requires taxRate != 1.0
  {
    var total := Tiers(subtotal.aggressive / (1.0 - taxRate), subtotal.moderate / (1.0 - taxRate),
                       subtotal.conservative / (1.0 - taxRate));
    Totals(subtotal, Tiers(total.aggressive * taxRate, total.moderate * taxRate, total.conservative * taxRate), total)
  }

  function TotalsFor(input: ScenarioInput, snap: ReferenceSnapshot): Totals
    requires AmortisationDefined(input, snap) && input.taxRate != 1.0
  {
    GrossUp(Subtotal(input, snap), input.taxRate)
  }

  // ---------------------------------------------------------------------------
  // Properties of the line items

  /** A line item priced through margins is zero exactly when its base is
      zero or every margin is -100%. */
  lemma WithMarginsZero(base: real, m: Tiers)
    ensures WithMargins(base, m) == ZeroTiers <==> base == 0.0 || m == Tiers(-1.0, -1.0, -1.0)
  {
    MulZero(base, 1.0 + m.aggressive);
    MulZero(base, 1.0 + m.moderate);
    MulZero(base, 1.0 + m.conservative);
  }

  lemma MulZero(x: real, y: real)
    ensures x * y == 0.0 <==> x == 0.0 || y == 0.0
  {
  }

  /** Each licensing item is charged (not all zero) exactly when its guard
      holds, its base cost is not zero and the margins are not all -100%. */
  lemma LicensingCharged(input: ScenarioInput, snap: ReferenceSnapshot)
    ensures var m := Margins(input, snap);
            VeeamLicensing(input, snap) != ZeroTiers <==>
              input.needsVeeamLicensing && VeeamBase(input, snap) != 0.0 && m != Tiers(-1.0, -1.0, -1.0)
    ensures var m := Margins(input, snap);
            O365Licensing(input, snap) != ZeroTiers <==>
              input.needsO365Backup && O365Base(input, snap) != 0.0 && m != Tiers(-1.0, -1.0, -1.0)
    ensures var m := Margins(input, snap);
            CloudConnect(input, snap) != ZeroTiers <==>
              !input.needsVeeamLicensing && input.needsCloudStorage && CloudConnectBase(input, snap) != 0.0 &&
              m != Tiers(-1.0, -1.0, -1.0)
  {
    WithMarginsZero(VeeamBase(input, snap), Margins(input, snap));
    WithMarginsZero(O365Base(input, snap), Margins(input, snap));
    WithMarginsZero(CloudConnectBase(input, snap), Margins(input, snap));
  }

  /** Dividing each tier of a marked-up price by one plus that tier's margin
      gives back the one base cost, the same in every tier. */
  lemma WithMarginsBase(base: real, m: Tiers)
    requires 1.0 + m.aggressive != 0.0 && 1.0 + m.moderate != 0.0 && 1.0 + m.conservative != 0.0
    ensures MarkedUpFrom(WithMargins(base, m), m, base)
  {
    var p := WithMargins(base, m);
    Recovers(p.aggressive, base, 1.0 + m.aggressive);
    Recovers(p.moderate, base, 1.0 + m.moderate);
    Recovers(p.conservative, base, 1.0 + m.conservative);
  }

  /** A price that is the base times a non-zero factor, divided by that factor, is the base. */
  lemma Recovers(price: real, base: real, f: real)
    requires f != 0.0 && price == base * f
    ensures price / f == base
  {
    MulDivCancel(base, f);
  }

  /** Each tier of `price` divided by one plus that tier's margin is `base`. */
  predicate MarkedUpFrom(price: Tiers, m: Tiers, base: real) {
    1.0 + m.aggressive != 0.0 && 1.0 + m.moderate != 0.0 && 1.0 + m.conservative != 0.0 &&
    price.aggressive / (1.0 + m.aggressive) == base && price.moderate / (1.0 + m.moderate) == base &&
    price.conservative / (1.0 + m.conservative) == base
  }

  lemma MulDivCancel(x: real, d: real)
    requires d != 0.0
    ensures (x * d) / d == x
  {
  }

  /** Cloud Connect is never charged beside Veeam licensing, and is charged
      only without Veeam licensing, with cloud storage and for at least one VM. */
  lemma CloudConnectExclusive(input: ScenarioInput, snap: ReferenceSnapshot)
    ensures input.needsVeeamLicensing ==> CloudConnect(input, snap) == ZeroTiers
    ensures CloudConnect(input, snap) != ZeroTiers ==>
              !input.needsVeeamLicensing && input.needsCloudStorage && input.vmCount > 0
  {
    if input.vmCount == 0 {
      PointsCostOfNone(ProductPoints(snap, CloudConnectEdition, "VM"), PointsValue(snap, input.veeamPointsLevel), input.dollarRate);
      WithMarginsOfZero(Margins(input, snap));
    }
  }

  lemma PointsCostOfNone(points: real, pointsValue: real, dollarRate: real)
    ensures PointsCost(0, points, pointsValue, dollarRate) == 0.0
  {
  }

  lemma WithMarginsOfZero(m: Tiers)
    ensures WithMargins(0.0, m) == ZeroTiers
  {
  }

  /** With a non-negative base, ascending margins give ascending prices. */
  lemma WithMarginsAscending(base: real, m: Tiers)
    requires 0.0 <= base && Ascending(m)
    ensures Ascending(WithMargins(base, m))
  {
    MulMonotone(base, 1.0 + m.aggressive, 1.0 + m.moderate);
    MulMonotone(base, 1.0 + m.moderate, 1.0 + m.conservative);
  }

  lemma MulMonotone(b: real, x: real, y: real)
    requires 0.0 <= b && x <= y
    ensures b * x <= b * y && x * b <= y * b
  {
  }

  /** c / x <= c / y for a non-negative c and 0 < y <= x. */
  lemma DivAntitone(c: real, x: real, y: real)
    requires 0.0 <= c && 0.0 < y <= x
    ensures c / x <= c / y
  {
  }

  /** The amortised monthly cost recovers the acquisition cost over each
      horizon; the acquisition is the same in every tier; the horizon texts
      read "<n> meses"; everything is zero or empty without local hardware. */
  lemma HardwareItems(input: ScenarioInput, snap: ReferenceSnapshot)
    requires AmortisationDefined(input, snap)
    ensures var a := ServerAcquisition(input);
            a.aggressive == a.moderate == a.conservative ==
            (if input.needsLocalHardware then input.serverAcquisitionCost else 0.0)
    ensures var m, s := Roi(input, snap), ServerMonthly(input, snap);
            input.needsLocalHardware ==>
              s.aggressive * (m.aggressive as real) == input.serverAcquisitionCost &&
              s.moderate * (m.moderate as real) == input.serverAcquisitionCost &&
              s.conservative * (m.conservative as real) == input.serverAcquisitionCost
    ensures var m := Roi(input, snap);
            input.needsLocalHardware ==>
              ServerRoiText(input, snap) == RoiText(IntToString(m.aggressive) + " meses",
                                                    IntToString(m.moderate) + " meses",
                                                    IntToString(m.conservative) + " meses")
    ensures !input.needsLocalHardware ==>
              ServerMonthly(input, snap) == ZeroTiers && ServerRoiText(input, snap) == RoiText("", "", "")
  {
  }

  /** Horizons that shrink from aggressive to conservative give monthly costs
      that grow from aggressive to conservative. */
  lemma ServerMonthlyAscending(input: ScenarioInput, snap: ReferenceSnapshot)
    requires var m := Roi(input, snap); 0 < m.conservative <= m.moderate <= m.aggressive
    requires 0.0 <= input.serverAcquisitionCost
    ensures Ascending(ServerMonthly(input, snap))
  {
    var m, c := Roi(input, snap), input.serverAcquisitionCost;
    if input.needsLocalHardware {
      DivAntitone(c, m.aggressive as real, m.moderate as real);
      DivAntitone(c, m.moderate as real, m.conservative as real);
    }
  }

  /** Cloud storage is the full price in the conservative tier and 80% and 90%
      of it in the aggressive and moderate tiers; it depends neither on the
      margin table nor on the margin category. */
  lemma CloudStorageDiscounts(input: ScenarioInput, snap: ReferenceSnapshot, otherMargins: seq<MarginRow>, managed: bool)
    ensures var s := CloudStorage(input, snap);
            s.conservative == (if input.needsCloudStorage then input.cloudStorageTb * CloudStoragePrice(snap) else 0.0) &&
            s.aggressive == 0.8 * s.conservative && s.moderate == 0.9 * s.conservative
    ensures CloudStorage(input, snap.(margins := otherMargins)) == CloudStorage(input, snap)
    ensures CloudStorage(input.(needsManagedServices := managed), snap) == CloudStorage(input, snap)
    ensures 0.0 <= input.cloudStorageTb * CloudStoragePrice(snap) ==> Ascending(CloudStorage(input, snap))
  {
  }

  /** Monthly and setup fees are scaled by one and the same multiplier triple:
      in every tier the setup fee relates to the monthly fee as the setup base
      to the monthly base. */
  lemma ManagementFeesShareMultipliers(input: ScenarioInput, snap: ReferenceSnapshot)
    ensures var fees := ManagementPricingOf(snap);
            InProportion(ManagementSetup(input, snap), ManagementMonthly(input, snap),
                         ManagementBase(input, fees.vm.setup, fees.o365.setup),
                         ManagementBase(input, fees.vm.monthly, fees.o365.monthly))
  {
    var fees, k := ManagementPricingOf(snap), Multipliers(input, snap);
    var monthlyBase, setupBase := ManagementBase(input, fees.vm.monthly, fees.o365.monthly),
                                  ManagementBase(input, fees.vm.setup, fees.o365.setup);
    if input.needsManagedServices {
      ScaleCross(monthlyBase, setupBase, k);
    } else {
      ZeroInProportion(setupBase, monthlyBase);
    }
  }

  /** In every tier, `x` relates to `y` as `a` to `b`. */
  predicate InProportion(x: Tiers, y: Tiers, a: real, b: real) {
    x.aggressive * b == y.aggressive * a && x.moderate * b == y.moderate * a &&
    x.conservative * b == y.conservative * a
  }

  lemma ZeroInProportion(a: real, b: real)
    ensures InProportion(ZeroTiers, ZeroTiers, a, b)
  {
  }

  /** Each management fee is zero exactly when managed services are off, its
      base is zero or the multipliers are all zero. */
  lemma ManagementFeesZero(input: ScenarioInput, snap: ReferenceSnapshot)
    ensures var fees, k := ManagementPricingOf(snap), Multipliers(input, snap);
            ManagementMonthly(input, snap) == ZeroTiers <==>
              !input.needsManagedServices || ManagementBase(input, fees.vm.monthly, fees.o365.monthly) == 0.0 ||
              k == ZeroTiers
    ensures var fees, k := ManagementPricingOf(snap), Multipliers(input, snap);
            ManagementSetup(input, snap) == ZeroTiers <==>
              !input.needsManagedServices || ManagementBase(input, fees.vm.setup, fees.o365.setup) == 0.0 ||
              k == ZeroTiers
  {
    var fees, k := ManagementPricingOf(snap), Multipliers(input, snap);
    ScaleZero(ManagementBase(input, fees.vm.monthly, fees.o365.monthly), k);
    ScaleZero(ManagementBase(input, fees.vm.setup, fees.o365.setup), k);
  }

  /** Two bases scaled by the same multipliers keep their ratio in every tier. */
  lemma ScaleCross(a: real, b: real, k: Tiers)
    ensures InProportion(Scale(b, k), Scale(a, k), b, a)
  {
    MulSwap(a, b, k.aggressive);
    MulSwap(a, b, k.moderate);
    MulSwap(a, b, k.conservative);
  }

  lemma MulSwap(a: real, b: real, x: real)
    ensures (b * x) * a == (a * x) * b
  {
  }

  lemma ScaleZero(base: real, k: Tiers)
    ensures Scale(base, k) == ZeroTiers <==> base == 0.0 || k == ZeroTiers
  {
    MulZero(base, k.aggressive);
    MulZero(base, k.moderate);
    MulZero(base, k.conservative);
  }

  /** The tenant fee is flat: the number of mailboxes does not change the management fees. */
  lemma ManagementIgnoresMailboxCount(input: ScenarioInput, snap: ReferenceSnapshot, mailboxes: nat)
    ensures ManagementMonthly(input.(mailboxCount := mailboxes), snap) == ManagementMonthly(input, snap)
    ensures ManagementSetup(input.(mailboxCount := mailboxes), snap) == ManagementSetup(input, snap)
  {
    var other := input.(mailboxCount := mailboxes);
    assert Risk(other) == Risk(input);
    var fees := ManagementPricingOf(snap);
    SameManagementBase(other, input, fees.vm.monthly, fees.o365.monthly);
    SameManagementBase(other, input, fees.vm.setup, fees.o365.setup);
  }

  /** The fee base reads the counts, the O365 flag and the dollar rate only. */
  lemma SameManagementBase(a: ScenarioInput, b: ScenarioInput, unitFee: real, tenantFee: real)
    requires a.vmCount == b.vmCount && a.physicalServerCount == b.physicalServerCount
    requires a.needsO365Backup == b.needsO365Backup && a.dollarRate == b.dollarRate
    ensures ManagementBase(a, unitFee, tenantFee) == ManagementBase(b, unitFee, tenantFee)
  {
  }

  lemma ScaleAscending(base: real, k: Tiers)
    requires 0.0 <= base && Ascending(k)
    ensures Ascending(Scale(base, k))
  {
    MulMonotone(base, k.aggressive, k.moderate);
    MulMonotone(base, k.moderate, k.conservative);
  }

  // ---------------------------------------------------------------------------
  // Properties of the totals

  /** The recurring charges of an itemised quote, tier by tier. */
  function RecurringSubtotal(items: LineItems): Tiers {
    Add(Add(Add(Add(Add(items.veeamLicensing.amounts, items.o365Licensing.amounts), items.cloudConnect.amounts),
      items.serverMonthly.amounts), items.cloudStorage.amounts), items.managementMonthly.amounts)
  }

  /** One-time charges do not reach the subtotal: neither the hardware
      acquisition nor the management setup fee changes it, while the amortised
      hardware cost enters it one to one. */
  lemma SubtotalExcludesOneTimeCharges(items: LineItems, acquisition: Tiers, setup: Tiers)
    ensures RecurringSubtotal(items.(serverAcquisition := acquisition,
                                     managementSetup := LineItem(items.managementSetup.description, setup)))
            == RecurringSubtotal(items)
    ensures var noHardware := items.(serverMonthly := LineItem(items.serverMonthly.description, ZeroTiers));
            RecurringSubtotal(items) == Add(RecurringSubtotal(noHardware), items.serverMonthly.amounts)
  {
  }

  /** The gross-up identity in one tier. */
  lemma GrossUpTier(s: real, taxRate: real)
    requires taxRate != 1.0
    ensures (s / (1.0 - taxRate)) * (1.0 - taxRate) == s
    ensures s / (1.0 - taxRate) == s + (s / (1.0 - taxRate)) * taxRate
    ensures 0.0 <= taxRate < 1.0 && 0.0 <= s ==> 0.0 <= s / (1.0 - taxRate) && 0.0 <= (s / (1.0 - taxRate)) * taxRate
  {
    if 0.0 <= taxRate < 1.0 && 0.0 <= s {
      DivNonNegative(s, 1.0 - taxRate);
      MulMonotone(taxRate, 0.0, s / (1.0 - taxRate));
    }
  }

  lemma DivNonNegative(s: real, d: real)
    requires 0.0 <= s && 0.0 < d
    ensures 0.0 <= s / d
  {
  }

  /** total = subtotal + tax and total * (1 - taxRate) = subtotal in every
      tier; for 0 <= taxRate < 1 a non-negative subtotal has a non-negative
      tax and total. */
  lemma GrossUpIdentity(subtotal: Tiers, taxRate: real)
    requires taxRate != 1.0
    ensures var t := GrossUp(subtotal, taxRate);
            t.subtotal == subtotal && t.totalMonthly == Add(subtotal, t.tax)
    ensures var t := GrossUp(subtotal, taxRate);
            t.totalMonthly.aggressive * (1.0 - taxRate) == subtotal.aggressive &&
            t.totalMonthly.moderate * (1.0 - taxRate) == subtotal.moderate &&
            t.totalMonthly.conservative * (1.0 - taxRate) == subtotal.conservative
    ensures var t := GrossUp(subtotal, taxRate);
            0.0 <= taxRate < 1.0 && NonNegative(subtotal) ==> NonNegative(t.tax) && NonNegative(t.totalMonthly)
  {
    GrossUpTier(subtotal.aggressive, taxRate);
    GrossUpTier(subtotal.moderate, taxRate);
    GrossUpTier(subtotal.conservative, taxRate);
  }

  /** For 0 <= taxRate < 1 the gross-up keeps the tier order of the subtotal. */
  lemma GrossUpAscending(subtotal: Tiers, taxRate: real)
    requires 0.0 <= taxRate < 1.0 && Ascending(subtotal)
    ensures Ascending(GrossUp(subtotal, taxRate).totalMonthly)
    ensures Ascending(GrossUp(subtotal, taxRate).tax)
  {
    GrossUpMonotone(subtotal.aggressive, subtotal.moderate, taxRate);
    GrossUpMonotone(subtotal.moderate, subtotal.conservative, taxRate);
  }

  /** A larger subtotal has a larger total and a larger tax. */
  lemma GrossUpMonotone(x: real, y: real, taxRate: real)
    requires 0.0 <= taxRate < 1.0 && x <= y
    ensures x / (1.0 - taxRate) <= y / (1.0 - taxRate)
    ensures (x / (1.0 - taxRate)) * taxRate <= (y / (1.0 - taxRate)) * taxRate
  {
    DivMonotone(x, y, 1.0 - taxRate);
    MulMonotone(taxRate, x / (1.0 - taxRate), y / (1.0 - taxRate));
  }

  lemma DivMonotone(x: real, y: real, d: real)
    requires x <= y && 0.0 < d
    ensures x / d <= y / d
  {
  }

  // ---------------------------------------------------------------------------
  // The tier order of the whole quote

  /** Quantities and rates a caller supplies that are not negative. */
  predicate NonNegativeAmounts(input: ScenarioInput) {
    0.0 <= input.dollarRate && 0.0 <= input.cloudStorageTb && 0.0 <= input.serverAcquisitionCost
  }

  lemma PointsCostNonNegative(count: nat, points: real, pointsValue: real, dollarRate: real)
    requires 0.0 <= points && 0.0 <= pointsValue && 0.0 <= dollarRate
    ensures 0.0 <= PointsCost(count, points, pointsValue, dollarRate)
  {
    var c := count as real;
    assert 0.0 <= c * points;
    assert 0.0 <= c * points * pointsValue;
  }

  lemma VeeamBaseNonNegative(input: ScenarioInput, snap: ReferenceSnapshot)
    requires WellFormedSnapshot(snap) && NonNegativeAmounts(input)
    ensures 0.0 <= VeeamBase(input, snap)
  {
    var level, edition := input.veeamPointsLevel, input.veeamEdition;
    PointsValueNonNegative(snap, level);
    ProductPointsNonNegative(snap, edition, "VM");
    ProductPointsNonNegative(snap, edition, "Server");
    var pv := PointsValue(snap, level);
    PointsCostNonNegative(input.vmCount, ProductPoints(snap, edition, "VM"), pv, input.dollarRate);
    PointsCostNonNegative(input.physicalServerCount, ProductPoints(snap, edition, "Server"), pv, input.dollarRate);
  }

  lemma O365BaseNonNegative(input: ScenarioInput, snap: ReferenceSnapshot)
    requires WellFormedSnapshot(snap) && NonNegativeAmounts(input)
    ensures 0.0 <= O365Base(input, snap)
  {
    var level := input.veeamPointsLevel;
    PointsValueNonNegative(snap, level);
    ProductPointsNonNegative(snap, O365Edition, "User");
    PointsCostNonNegative(input.mailboxCount, ProductPoints(snap, O365Edition, "User"),
                          PointsValue(snap, level), input.dollarRate);
  }

  lemma CloudConnectBaseNonNegative(input: ScenarioInput, snap: ReferenceSnapshot)
    requires WellFormedSnapshot(snap) && NonNegativeAmounts(input)
    ensures 0.0 <= CloudConnectBase(input, snap)
  {
    var level := input.veeamPointsLevel;
    PointsValueNonNegative(snap, level);
    ProductPointsNonNegative(snap, CloudConnectEdition, "VM");
    PointsCostNonNegative(input.vmCount, ProductPoints(snap, CloudConnectEdition, "VM"),
                          PointsValue(snap, level), input.dollarRate);
  }

  lemma ManagementBaseNonNegative(input: ScenarioInput, unitFee: real, tenantFee: real)
    requires 0.0 <= input.dollarRate && 0.0 <= unitFee && 0.0 <= tenantFee
    ensures 0.0 <= ManagementBase(input, unitFee, tenantFee)
  {
    var units := (input.vmCount + input.physicalServerCount) as real;
    assert 0.0 <= units * unitFee;
    MulMonotone(input.dollarRate, 0.0, units * unitFee + (if input.needsO365Backup then tenantFee else 0.0));
  }

  /** On well-formed reference data and non-negative amounts the three
      licensing items are priced in ascending tier order. */
  lemma LicensingAscending(input: ScenarioInput, snap: ReferenceSnapshot)
    requires WellFormedSnapshot(snap) && NonNegativeAmounts(input)
    ensures Ascending(VeeamLicensing(input, snap))
    ensures Ascending(O365Licensing(input, snap))
    ensures Ascending(CloudConnect(input, snap))
  {
    MarginsAscending(snap, MarginCategory(input));
    VeeamBaseNonNegative(input, snap);
    O365BaseNonNegative(input, snap);
    CloudConnectBaseNonNegative(input, snap);
    WithMarginsAscending(VeeamBase(input, snap), Margins(input, snap));
    WithMarginsAscending(O365Base(input, snap), Margins(input, snap));
    WithMarginsAscending(CloudConnectBase(input, snap), Margins(input, snap));
  }

  /** On well-formed reference data and non-negative amounts both management
      fees are in ascending tier order. */
  lemma ManagementAscending(input: ScenarioInput, snap: ReferenceSnapshot)
    requires WellFormedSnapshot(snap) && NonNegativeAmounts(input)
    ensures Ascending(ManagementMonthly(input, snap))
    ensures Ascending(ManagementSetup(input, snap))
  {
    var fees := ManagementPricingOf(snap);
    FeesNonNegative(snap);
    RiskTablesWellFormed(snap, Risk(input).Label());
    ManagementBaseNonNegative(input, fees.vm.monthly, fees.o365.monthly);
    ManagementBaseNonNegative(input, fees.vm.setup, fees.o365.setup);
    ScaleAscending(ManagementBase(input, fees.vm.monthly, fees.o365.monthly), Multipliers(input, snap));
    ScaleAscending(ManagementBase(input, fees.vm.setup, fees.o365.setup), Multipliers(input, snap));
  }

  lemma AddAscending(x: Tiers, y: Tiers)
    requires Ascending(x) && Ascending(y)
    ensures Ascending(Add(x, y))
  {
  }

  /** Ascending recurring items give an ascending subtotal. */
  lemma SubtotalAscending(input: ScenarioInput, snap: ReferenceSnapshot)
    requires AmortisationDefined(input, snap)
    requires Ascending(VeeamLicensing(input, snap)) && Ascending(O365Licensing(input, snap))
    requires Ascending(CloudConnect(input, snap)) && Ascending(ServerMonthly(input, snap))
    requires Ascending(CloudStorage(input, snap)) && Ascending(ManagementMonthly(input, snap))
    ensures Ascending(Subtotal(input, snap))
  {
    var s1 := Add(VeeamLicensing(input, snap), O365Licensing(input, snap));
    AddAscending(VeeamLicensing(input, snap), O365Licensing(input, snap));
    var s2 := Add(s1, CloudConnect(input, snap));
    AddAscending(s1, CloudConnect(input, snap));
    var s3 := Add(s2, ServerMonthly(input, snap));
    AddAscending(s2, ServerMonthly(input, snap));
    var s4 := Add(s3, CloudStorage(input, snap));
    AddAscending(s3, CloudStorage(input, snap));
    AddAscending(s4, ManagementMonthly(input, snap));
  }

  /** On well-formed reference data and with non-negative amounts every line
      item of the quote is in ascending tier order. */
  lemma ItemsAscending(input: ScenarioInput, snap: ReferenceSnapshot)
    requires WellFormedSnapshot(snap) && NonNegativeAmounts(input)
    ensures AmortisationDefined(input, snap)
    ensures Ascending(VeeamLicensing(input, snap)) && Ascending(O365Licensing(input, snap))
    ensures Ascending(CloudConnect(input, snap)) && Ascending(ServerAcquisition(input))
    ensures Ascending(ServerMonthly(input, snap)) && Ascending(CloudStorage(input, snap))
    ensures Ascending(ManagementMonthly(input, snap)) && Ascending(ManagementSetup(input, snap))
  {
    RiskTablesWellFormed(snap, Risk(input).Label());
    LicensingAscending(input, snap);
    ManagementAscending(input, snap);
    ServerMonthlyAscending(input, snap);
    CloudStorageAscending(input, snap);
  }

  lemma CloudStorageAscending(input: ScenarioInput, snap: ReferenceSnapshot)
    requires WellFormedSnapshot(snap) && NonNegativeAmounts(input)
    ensures Ascending(CloudStorage(input, snap))
  {
    CloudStoragePriceNonNegative(snap);
    MulMonotone(input.cloudStorageTb, 0.0, CloudStoragePrice(snap));
    CloudStorageDiscounts(input, snap, snap.margins, input.needsManagedServices);
  }

  /** The tier invariant of the quote: on well-formed reference data, with
      non-negative amounts and 0 <= taxRate < 1, the subtotal, the tax and the
      total monthly price satisfy aggressive <= moderate <= conservative, as
      every line item does. */
  lemma QuoteAscending(input: ScenarioInput, snap: ReferenceSnapshot)
    requires WellFormedSnapshot(snap) && NonNegativeAmounts(input) && 0.0 <= input.taxRate < 1.0
    ensures AmortisationDefined(input, snap)
    ensures var t := TotalsFor(input, snap);
            Ascending(t.subtotal) && Ascending(t.tax) && Ascending(t.totalMonthly)
  {
    ItemsAscending(input, snap);
    SubtotalAscending(input, snap);
    GrossUpAscending(Subtotal(input, snap), input.taxRate);
  }
}
