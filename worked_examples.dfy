/** Concrete scenarios priced by the model: each lemma fixes the inputs that
    matter and states the amounts the engine produces for them. */
module WorkedExamples {
  import opened Scenario
  import opened Reference
  import opened Pricing

  const Enterprise: string := "Veeam Backup & Replication ENT"

  /** A catalog with the seeded Enterprise VM row (9 points), the seeded
      "10k points" interval (0.69 per point) and the seeded margin row for
      scenarios without management. */
  const SmallCatalog: ReferenceSnapshot := ReferenceSnapshot(
    map["10k points" := 0.69],
    [ProductRow(Enterprise, "VM", 9.0)],
    [MarginRow("sem_gerencia", Tiers(0.25, 0.35, 0.45))],
    map[], map[], [], [])

  /** Ten VMs on Enterprise at 9 points, 0.69 per point and a dollar rate
      of 5.50 cost 341.55 before margins, and 426.9375 at the aggressive 25%. */
  lemma LicensingExample(input: ScenarioInput)
    requires input.needsVeeamLicensing && !input.needsManagedServices
    requires input.veeamEdition == Enterprise && input.veeamPointsLevel == "10k points"
    requires input.vmCount == 10 && input.physicalServerCount == 0 && input.dollarRate == 5.5
    ensures VeeamBase(input, SmallCatalog) == 341.55
    ensures VeeamLicensing(input, SmallCatalog).aggressive == 426.9375
  {
    assert IsProduct(SmallCatalog.products[0], Enterprise, "VM");
    assert ProductPoints(SmallCatalog, input.veeamEdition, "VM") == 9.0;
    assert Margins(input, SmallCatalog) == Tiers(0.25, 0.35, 0.45);
  }

  /** At an 18% tax rate a moderate subtotal of 1000 grosses up to a total of
      about 1219.51, of which about 219.51 is tax, and the total net of tax is
      the subtotal again. */
  lemma TaxExample(subtotal: Tiers)
    requires subtotal.moderate == 1000.0
    ensures var t := GrossUp(subtotal, 0.18);
            t.totalMonthly.moderate * 0.82 == 1000.0 &&
            1219.51 < t.totalMonthly.moderate < 1219.52 &&
            219.51 < t.tax.moderate < 219.52
  {
    GrossUpTier(1000.0, 0.18);
  }

  /** Two TB of cloud storage at 199 per TB are priced 318.40, 358.20 and 398.00
      across the tiers (20% and 10% discounts, then list price). */
  lemma CloudStorageExample(input: ScenarioInput, snap: ReferenceSnapshot)
    requires input.needsCloudStorage && input.cloudStorageTb == 2.0 && snap.cloudStorage == [199.0]
    ensures CloudStorage(input, snap) == Tiers(318.4, 358.2, 398.0)
  {
  }
}
