/** Value types of the pricing engine: the scenario a caller submits, the
    per-tier triples every price is given in, and the itemised quote the
    engine returns. */
module Scenario {

  /** One amount per pricing stance: aggressive (lowest price), moderate,
      conservative (highest price). */
  datatype Tiers = Tiers(aggressive: real, moderate: real, conservative: real)

  const ZeroTiers: Tiers := Tiers(0.0, 0.0, 0.0)

  /** The quote's tier invariant: aggressive <= moderate <= conservative. */
  predicate Ascending(t: Tiers) {
    t.aggressive <= t.moderate <= t.conservative
  }

  predicate NonNegative(t: Tiers) {
    0.0 <= t.aggressive && 0.0 <= t.moderate && 0.0 <= t.conservative
  }

  /** Tier-wise sum. */
  function Add(x: Tiers, y: Tiers): Tiers {
    Tiers(x.aggressive + y.aggressive, x.moderate + y.moderate, x.conservative + y.conservative)
  }

  /** The scope flags, quantities, catalog keys and monetary parameters of one
      scenario. Counts are whole numbers (the form parses them as integers);
      storage sizes and money are reals. */
  datatype ScenarioInput = ScenarioInput(
    needsVeeamLicensing: bool,
    needsManagedServices: bool,
    needsLocalHardware: bool,
    needsCloudStorage: bool,
    needsO365Backup: bool,
    vmCount: nat,
    physicalServerCount: nat,
    veeamPointsLevel: string,
    veeamEdition: string,
    localStorageTb: real,
    cloudStorageTb: real,
    mailboxCount: nat,
    serverAcquisitionCost: real,
    hasDualBackup: bool,
    dollarRate: real,
    taxRate: real)

  /** Risk the provider takes on; also the key of the ROI and multiplier tables. */
  datatype RiskLevel = Baixo | Medio | Alto {
    /** The label stored in the quote and used as table key. */
    function Label(): string {
      match this
      case Baixo => "Baixo"
      case Medio => "Médio"
      case Alto => "Alto"
    }
  }

  /** A priced line of the quote. */
  datatype LineItem = LineItem(description: string, amounts: Tiers)

  /** The amortisation horizons actually used, as display text ("16 meses"). */
  datatype RoiText = RoiText(aggressive: string, moderate: string, conservative: string)

  datatype LineItems = LineItems(
    veeamLicensing: LineItem,
    o365Licensing: LineItem,
    cloudConnect: LineItem,
    serverAcquisition: Tiers,
    serverRoiMonths: RoiText,
    serverMonthly: LineItem,
    cloudStorage: LineItem,
    managementMonthly: LineItem,
    managementSetup: LineItem)

  datatype Totals = Totals(subtotal: Tiers, tax: Tiers, totalMonthly: Tiers)

  datatype ScenarioResults = ScenarioResults(
    riskLevel: string,
    margins: Tiers,
    lineItems: LineItems,
    totals: Totals,
    descriptionText: string)
}
