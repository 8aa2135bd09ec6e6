/** The engine's entry point: one scenario and one reference snapshot in, one
    itemised quote out. The method follows the engine step by step (risk,
    margins, reference reads, one block per line item, totals, offer text);
    the function `Quote` states its result in terms of the pricing and text
    rules, and the lemmas state what the quote as a whole promises. */
module Calculator {
  import opened Scenario
  import opened Reference
  import opened Pricing
  import opened Description

  /** The itemised quote: each line item with its description and price. */
  function QuoteItems(input: ScenarioInput, snap: ReferenceSnapshot, showNumber: real -> string): LineItems
    requires AmortisationDefined(input, snap)
  {
    LineItems(
      LineItem(VeeamItemText(input), VeeamLicensing(input, snap)),
      LineItem(O365ItemText(input), O365Licensing(input, snap)),
      LineItem(CloudConnectItemText(input), CloudConnect(input, snap)),
      ServerAcquisition(input),
      ServerRoiText(input, snap),
      LineItem(ServerMonthlyItemText(input), ServerMonthly(input, snap)),
      LineItem(CloudStorageItemText(input, showNumber), CloudStorage(input, snap)),
      LineItem(ManagementMonthlyItemText(input), ManagementMonthly(input, snap)),
      LineItem(ManagementSetupItemText(input), ManagementSetup(input, snap)))
  }

  /** The quote of a scenario under a reference snapshot. */
  function Quote(input: ScenarioInput, snap: ReferenceSnapshot, showNumber: real -> string): ScenarioResults
    requires AmortisationDefined(input, snap) && input.taxRate != 1.0
  {
    ScenarioResults(Risk(input).Label(), Margins(input, snap), QuoteItems(input, snap, showNumber),
                    TotalsFor(input, snap), DescriptionText(input, showNumber))
  }

  /** Prices a scenario the way the engine does: every line item starts at
      zero and is priced only when its condition holds; the totals sum the
      recurring items and gross them up for tax. */
  method CalculateScenario(input: ScenarioInput, snap: ReferenceSnapshot, showNumber: real -> string)
    returns (r: ScenarioResults)
    requires AmortisationDefined(input, snap) && input.taxRate != 1.0
    ensures r == Quote(input, snap, showNumber)
    ensures r.totals == GrossUp(RecurringSubtotal(r.lineItems), input.taxRate)
    ensures ReportsAppliedMargins(r, input, snap)
  {
    var risk := ClassifyRisk(input);
    var marginType := if input.needsManagedServices then "com_gerencia" else "sem_gerencia";
    var margins := MarginsFor(snap, marginType);
    var lineItems := PriceLineItems(input, snap, showNumber, risk, margins);
    var totals := Totalize(lineItems, input.taxRate);
    var description := BuildDescription(input, showNumber);
    QuoteSubtotal(input, snap, showNumber);
    assert totals == TotalsFor(input, snap);
    r := ScenarioResults(risk.Label(), margins, lineItems, totals, description);
  }

  /** Reads the reference data once and prices every line item. */
  method PriceLineItems(input: ScenarioInput, snap: ReferenceSnapshot, showNumber: real -> string,
                        risk: RiskLevel, margins: Tiers)
    returns (lineItems: LineItems)
    requires AmortisationDefined(input, snap)
    requires risk == Risk(input) && margins == Margins(input, snap)
    ensures lineItems == QuoteItems(input, snap, showNumber)
    ensures MarkedUpWith(lineItems, margins, input, snap)
  {
    var pointsValue := PointsValue(snap, input.veeamPointsLevel);
    var mgmtPricing := ManagementPricingOf(snap);
    var cloudBasePrice := CloudStoragePrice(snap);
    var roiMonths := ServerRoi(snap, risk.Label());
    var mgmtMultipliers := ManagementMultipliers(snap, risk.Label());

    var veeamLicensing := PriceVeeamLicensing(input, snap, margins, pointsValue);
    var o365Licensing := PriceO365Licensing(input, snap, margins, pointsValue);
    var cloudConnect := PriceCloudConnect(input, snap, margins, pointsValue);
    var serverAcquisition, serverMonthly, serverRoiMonths := PriceHardware(input, snap, roiMonths);
    var cloudStorage := PriceCloudStorage(input, snap, cloudBasePrice);
    var managementMonthly := PriceManagement(input, mgmtPricing.vm.monthly, mgmtPricing.o365.monthly, mgmtMultipliers);
    var managementSetup := PriceManagement(input, mgmtPricing.vm.setup, mgmtPricing.o365.setup, mgmtMultipliers);

    lineItems := LineItems(
      LineItem(VeeamItemText(input), veeamLicensing),
      LineItem(O365ItemText(input), o365Licensing),
      LineItem(CloudConnectItemText(input), cloudConnect),
      serverAcquisition,
      serverRoiMonths,
      LineItem(ServerMonthlyItemText(input), serverMonthly),
      LineItem(CloudStorageItemText(input, showNumber), cloudStorage),
      LineItem(ManagementMonthlyItemText(input), managementMonthly),
      LineItem(ManagementSetupItemText(input), managementSetup));
  }

  method ClassifyRisk(input: ScenarioInput) returns (risk: RiskLevel)
    ensures risk == Risk(input)
  {
    if input.needsManagedServices {
      risk := if input.hasDualBackup then Medio else Alto;
    } else {
      risk := Baixo;
    }
  }

  method PriceVeeamLicensing(input: ScenarioInput, snap: ReferenceSnapshot, margins: Tiers, pointsValue: real)
    returns (veeamLicensing: Tiers)
    requires margins == Margins(input, snap) && pointsValue == PointsValue(snap, input.veeamPointsLevel)
    ensures veeamLicensing == VeeamLicensing(input, snap)
  {
    veeamLicensing := ZeroTiers;
    if input.needsVeeamLicensing {
      var vmPoints := ProductPoints(snap, input.veeamEdition, "VM");
      var serverPoints := ProductPoints(snap, input.veeamEdition, "Server");
      var baseCost := PointsCost(input.vmCount, vmPoints, pointsValue, input.dollarRate)
                      + PointsCost(input.physicalServerCount, serverPoints, pointsValue, input.dollarRate);
      assert baseCost == VeeamBase(input, snap);
      veeamLicensing := WithMargins(baseCost, margins);
    }
  }

  method PriceO365Licensing(input: ScenarioInput, snap: ReferenceSnapshot, margins: Tiers, pointsValue: real)
    returns (o365Licensing: Tiers)
    requires margins == Margins(input, snap) && pointsValue == PointsValue(snap, input.veeamPointsLevel)
    ensures o365Licensing == O365Licensing(input, snap)
  {
    o365Licensing := ZeroTiers;
    if input.needsO365Backup {
      var o365Points := ProductPoints(snap, O365Edition, "User");
      var baseCost := PointsCost(input.mailboxCount, o365Points, pointsValue, input.dollarRate);
      o365Licensing := WithMargins(baseCost, margins);
    }
  }

  method PriceCloudConnect(input: ScenarioInput, snap: ReferenceSnapshot, margins: Tiers, pointsValue: real)
    returns (cloudConnect: Tiers)
    requires margins == Margins(input, snap) && pointsValue == PointsValue(snap, input.veeamPointsLevel)
    ensures cloudConnect == CloudConnect(input, snap)
  {
    cloudConnect := ZeroTiers;
    if !input.needsVeeamLicensing && input.needsCloudStorage {
      var ccPoints := ProductPoints(snap, CloudConnectEdition, "VM");
      var baseCost := PointsCost(input.vmCount, ccPoints, pointsValue, input.dollarRate);
      cloudConnect := WithMargins(baseCost, margins);
    }
  }

  method PriceHardware(input: ScenarioInput, snap: ReferenceSnapshot, roiMonths: RoiMonths)
    returns (serverAcquisition: Tiers, serverMonthly: Tiers, serverRoiMonths: RoiText)
    requires AmortisationDefined(input, snap) && roiMonths == Roi(input, snap)
    ensures serverAcquisition == ServerAcquisition(input)
    ensures serverMonthly == ServerMonthly(input, snap)
    ensures serverRoiMonths == ServerRoiText(input, snap)
  {
    serverAcquisition := ZeroTiers;
    serverMonthly := ZeroTiers;
    serverRoiMonths := RoiText("", "", "");
    if input.needsLocalHardware {
      var c := input.serverAcquisitionCost;
      serverAcquisition := Tiers(c, c, c);
      serverRoiMonths := RoiText(MonthsText(roiMonths.aggressive), MonthsText(roiMonths.moderate),
                                 MonthsText(roiMonths.conservative));
      serverMonthly := Tiers(c / (roiMonths.aggressive as real), c / (roiMonths.moderate as real),
                             c / (roiMonths.conservative as real));
    }
  }

  method PriceCloudStorage(input: ScenarioInput, snap: ReferenceSnapshot, cloudBasePrice: real)
    returns (cloudStorage: Tiers)
    requires cloudBasePrice == CloudStoragePrice(snap)
    ensures cloudStorage == CloudStorage(input, snap)
  {
    cloudStorage := ZeroTiers;
    if input.needsCloudStorage {
      var baseStorageCost := input.cloudStorageTb * cloudBasePrice;
      cloudStorage := Tiers(baseStorageCost * 0.8, baseStorageCost * 0.9, baseStorageCost * 1.0);
    }
  }

  /** One management fee, monthly or setup, from its unit and tenant fees. */
  method PriceManagement(input: ScenarioInput, unitFee: real, tenantFee: real, multipliers: Tiers)
    returns (fee: Tiers)
    ensures fee == if input.needsManagedServices then Scale(ManagementBase(input, unitFee, tenantFee), multipliers)
                   else ZeroTiers
  {
    fee := ZeroTiers;
    if input.needsManagedServices {
      var baseCost := ManagementBase(input, unitFee, tenantFee);
      fee := Scale(baseCost, multipliers);
    }
  }

  /** Sums the recurring items tier by tier and grosses the sum up for tax. */
  method Totalize(lineItems: LineItems, taxRate: real) returns (totals: Totals)
    requires taxRate != 1.0
    ensures totals == GrossUp(RecurringSubtotal(lineItems), taxRate)
  {
    var veeamLicensing, o365Licensing, cloudConnect := lineItems.veeamLicensing.amounts,
      lineItems.o365Licensing.amounts, lineItems.cloudConnect.amounts;
    var serverMonthly, cloudStorage, managementMonthly := lineItems.serverMonthly.amounts,
      lineItems.cloudStorage.amounts, lineItems.managementMonthly.amounts;
    var subtotal := Tiers(
      veeamLicensing.aggressive + o365Licensing.aggressive + cloudConnect.aggressive
      + serverMonthly.aggressive + cloudStorage.aggressive + managementMonthly.aggressive,
      veeamLicensing.moderate + o365Licensing.moderate + cloudConnect.moderate
      + serverMonthly.moderate + cloudStorage.moderate + managementMonthly.moderate,
      veeamLicensing.conservative + o365Licensing.conservative + cloudConnect.conservative
      + serverMonthly.conservative + cloudStorage.conservative + managementMonthly.conservative);
    var totalMonthly := Tiers(subtotal.aggressive / (1.0 - taxRate), subtotal.moderate / (1.0 - taxRate),
                              subtotal.conservative / (1.0 - taxRate));
    var tax := Tiers(totalMonthly.aggressive * taxRate, totalMonthly.moderate * taxRate,
                     totalMonthly.conservative * taxRate);
    totals := Totals(subtotal, tax, totalMonthly);
  }

  /** The subtotal of the quote is the sum of its recurring line items. */
  lemma QuoteSubtotal(input: ScenarioInput, snap: ReferenceSnapshot, showNumber: real -> string)
    requires AmortisationDefined(input, snap)
    ensures RecurringSubtotal(QuoteItems(input, snap, showNumber)) == Subtotal(input, snap)
  {
  }

  // ---------------------------------------------------------------------------
  // What the quote as a whole promises

  /** The tier invariant of the quote: on well-formed reference data, with
      non-negative amounts and 0 <= taxRate < 1, every line item and every
      total is priced aggressive <= moderate <= conservative. */
  lemma QuoteTierOrder(input: ScenarioInput, snap: ReferenceSnapshot, showNumber: real -> string)
    requires WellFormedSnapshot(snap) && NonNegativeAmounts(input) && 0.0 <= input.taxRate < 1.0
    ensures AmortisationDefined(input, snap)
    ensures var items := QuoteItems(input, snap, showNumber);
            Ascending(items.veeamLicensing.amounts) && Ascending(items.o365Licensing.amounts) &&
            Ascending(items.cloudConnect.amounts) && Ascending(items.serverAcquisition) &&
            Ascending(items.serverMonthly.amounts) && Ascending(items.cloudStorage.amounts) &&
            Ascending(items.managementMonthly.amounts) && Ascending(items.managementSetup.amounts)
    ensures var t := TotalsFor(input, snap);
            Ascending(t.subtotal) && Ascending(t.tax) && Ascending(t.totalMonthly)
  {
    ItemsAscending(input, snap);
    QuoteAscending(input, snap);
  }

  /** The margins a quote reports are the ones its licensing items were marked
      up with: each charged licensing item is its one base cost marked up by
      the reported margins. */
  predicate ReportsAppliedMargins(r: ScenarioResults, input: ScenarioInput, snap: ReferenceSnapshot) {
    MarkedUpWith(r.lineItems, r.margins, input, snap)
  }

  /** Each charged licensing item is its one base cost marked up by `margins`. */
  predicate MarkedUpWith(items: LineItems, margins: Tiers, input: ScenarioInput, snap: ReferenceSnapshot) {
    (input.needsVeeamLicensing ==> items.veeamLicensing.amounts == WithMargins(VeeamBase(input, snap), margins)) &&
    (input.needsO365Backup ==> items.o365Licensing.amounts == WithMargins(O365Base(input, snap), margins)) &&
    (CloudConnectApplies(input) ==> items.cloudConnect.amounts == WithMargins(CloudConnectBase(input, snap), margins))
  }

  /** From a quote that reports its applied margins, dividing each tier of a
      charged licensing item by one plus the reported margin of that tier
      gives back the item's base cost, the same in every tier. */
  lemma ReportedMarginsRecoverBase(r: ScenarioResults, input: ScenarioInput, snap: ReferenceSnapshot)
    requires ReportsAppliedMargins(r, input, snap)
    requires 1.0 + r.margins.aggressive != 0.0 && 1.0 + r.margins.moderate != 0.0 && 1.0 + r.margins.conservative != 0.0
    ensures input.needsVeeamLicensing ==> MarkedUpFrom(r.lineItems.veeamLicensing.amounts, r.margins, VeeamBase(input, snap))
    ensures input.needsO365Backup ==> MarkedUpFrom(r.lineItems.o365Licensing.amounts, r.margins, O365Base(input, snap))
    ensures CloudConnectApplies(input) ==>
              MarkedUpFrom(r.lineItems.cloudConnect.amounts, r.margins, CloudConnectBase(input, snap))
  {
    WithMarginsBase(VeeamBase(input, snap), r.margins);
    WithMarginsBase(O365Base(input, snap), r.margins);
    WithMarginsBase(CloudConnectBase(input, snap), r.margins);
  }

  /** A line item reads "Não incluído" (Cloud Connect: "Não aplicável")
      exactly when its condition is off, and it is then priced at zero. */
  lemma QuoteMarksExclusions(input: ScenarioInput, snap: ReferenceSnapshot, showNumber: real -> string)
    requires AmortisationDefined(input, snap)
    ensures var items := QuoteItems(input, snap, showNumber);
            (items.veeamLicensing.description == NotIncludedText <==> !input.needsVeeamLicensing) &&
            (items.o365Licensing.description == NotIncludedText <==> !input.needsO365Backup) &&
            (items.cloudConnect.description == NotApplicableText <==> !CloudConnectApplies(input)) &&
            (items.serverMonthly.description == NotIncludedText <==> !input.needsLocalHardware) &&
            (items.cloudStorage.description == NotIncludedText <==> !input.needsCloudStorage) &&
            (items.managementMonthly.description == NotIncludedText <==> !input.needsManagedServices) &&
            (items.managementSetup.description == NotIncludedText <==> !input.needsManagedServices)
    ensures var items := QuoteItems(input, snap, showNumber);
            (!input.needsVeeamLicensing ==> items.veeamLicensing.amounts == ZeroTiers) &&
            (!input.needsO365Backup ==> items.o365Licensing.amounts == ZeroTiers) &&
            (!CloudConnectApplies(input) ==> items.cloudConnect.amounts == ZeroTiers) &&
            (!input.needsLocalHardware ==> items.serverAcquisition == ZeroTiers && items.serverMonthly.amounts == ZeroTiers) &&
            (!input.needsCloudStorage ==> items.cloudStorage.amounts == ZeroTiers) &&
            (!input.needsManagedServices ==>
               items.managementMonthly.amounts == ZeroTiers && items.managementSetup.amounts == ZeroTiers)
  {
    VeeamItemTextMarksExclusion(input);
    O365ItemTextMarksExclusion(input);
    CloudConnectItemTextMarksExclusion(input);
    CloudStorageItemTextMarksExclusion(input, showNumber);
    FixedItemTextsMarkExclusion(input);
  }
}
