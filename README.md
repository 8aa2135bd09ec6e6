# BaaS-Calculator pricing engine in Dafny

This project models the pricing engine of BaaS-Calculator, `calculateScenario`
in `server/src/services/calculator.ts`. The engine prices a backup-as-a-service
scenario. Its inputs are five scope flags, a sixth flag telling whether the
customer keeps a second backup path (`has_dual_backup`, which decides the risk
level together with managed services), the quantities (VMs, physical
servers, mailboxes, storage sizes), the Veeam edition and points interval, the
hardware cost, a dollar rate and a tax rate. It returns a quote in three tiers:
aggressive, moderate and conservative. The quote holds:

- the risk level;
- the margin triple used;
- nine line items;
- the recurring subtotal, the tax and the tax-inclusive monthly total;
- a Portuguese offer text listing the included and the excluded scope items.

The seven reference-table reads become lookups over an immutable
`ReferenceSnapshot`. Each lookup falls back to the engine's constant when its
row is missing. Amounts are exact reals.

Modules:

- `Scenario` holds the value types: input, tiers, line items, totals and result.
- `Reference` holds the snapshot and the seven lookups with their fallbacks.
- `Text` renders whole numbers in decimal, does first-occurrence replace, and
  computes the edition short name.
- `Pricing` holds the risk, margin, line-item and totals rules as functions,
  with lemmas about them.
- `Description` holds the offer text and the item descriptions. It states them
  as functions (`DescriptionText`) and builds them imperatively
  (`BuildDescription`, with a `for` loop over the collected list of excluded
  items).
- `Calculator` holds the entry point `CalculateScenario`. It is an imperative
  method: every line item starts at zero and is priced only under its guard.
  It is proved equal to the functional `Quote`, with lemmas on the quote as a
  whole.
- `WorkedExamples` prices concrete scenarios.

The engine reads JavaScript numbers with fractions (storage sizes in TB) into
template strings. The model takes that rendering as a parameter,
`showNumber: real -> string`. Whole-number counts are rendered in decimal by
`Text.NatToString`.

## Model

| member | source | states |
|---|---|---|
| Reference.FirstIndex | server/src/services/calculator.ts:79-81 | the index found is the first row satisfying the predicate; None exactly when no row does |
| Reference.ProductPoints | server/src/services/calculator.ts:56-59 | points of the first catalog row with that edition and line type; 0 when there is no such row |
| Reference.MarginsFor | server/src/services/calculator.ts:61-64 | margins of the first row of that category; {0.15, 0.25, 0.30} when there is none |
| Reference.FeesOf | server/src/services/calculator.ts:78-86 | the setup and monthly fee of the first management-pricing row of that kind, or the given fallback |
| Reference.PointsValue | server/src/services/calculator.ts:51-54 | no contract of its own: the value per point of the interval's row, or 0.69 when the interval has none; see FallbacksWhenAbsent |
| Reference.ServerRoi | server/src/services/calculator.ts:66-71 | no contract of its own: the horizons of the risk level's row, or {16, 15, 14} months; see FallbacksWhenAbsent, RiskTablesWellFormed |
| Reference.ManagementMultipliers | server/src/services/calculator.ts:73-76 | no contract of its own: the multipliers of the risk level's row, or {1.2, 1.4, 1.6}; see FallbacksWhenAbsent, RiskTablesWellFormed |
| Reference.ManagementPricingOf | server/src/services/calculator.ts:78-86 | no contract of its own: the fees of the first "VMs e Servers" row, or {6, 3}, and of the first "Office365 Users" row, or {199, 99}, each falling back on its own; see FeesOf, FallbacksWhenAbsent, FeesNonNegative |
| Reference.CloudStoragePrice | server/src/services/calculator.ts:88-91 | no contract of its own: the base price of the table's first row, or 199 when the table is empty; see FallbacksWhenAbsent, CloudStoragePriceNonNegative |
| Reference.FallbacksWhenAbsent | server/src/services/calculator.ts:51-91 | every lookup gives its constant when its row is missing: 0.69; 0; {0.15, 0.25, 0.30}; {16, 15, 14}; {1.2, 1.4, 1.6}; VM fees {6, 3}; O365 fees {199, 99}; storage price 199 |
| Reference.MarginsAscending | server/src/services/calculator.ts:61-64 | on well-formed tables, the margins used are ascending, whether found or fallen back |
| Reference.RiskTablesWellFormed | server/src/services/calculator.ts:66-76 | on well-formed tables, the horizons used are positive and shrink along the tiers, and the multipliers are ascending, including the fallbacks |
| Reference.FeesNonNegative | server/src/services/calculator.ts:78-86 | on well-formed tables, all four management fees used are non-negative |
| Reference.CloudStoragePriceNonNegative | server/src/services/calculator.ts:88-91 | on well-formed tables, the storage price per TB used is non-negative |
| Pricing.Risk | server/src/services/calculator.ts:96-101 | Baixo exactly when managed services are off; Médio exactly when they are on with a second backup path; Alto exactly when they are on without one |
| Pricing.MarginCategory | server/src/services/calculator.ts:105 | the margin row is "com_gerencia" exactly when managed services are on, and "sem_gerencia" exactly when they are off |
| Pricing.Margins | server/src/services/calculator.ts:105-106 | no contract of its own: the margin triple of the category `MarginCategory` chooses; see MarginCategory, MarginsAscending, CalculateScenario |
| Pricing.Roi | server/src/services/calculator.ts:112 | no contract of its own: the horizons of the risk level's row; see RiskTablesWellFormed, HardwareItems |
| Pricing.Multipliers | server/src/services/calculator.ts:113 | no contract of its own: the multipliers of the risk level's row; see RiskTablesWellFormed, ManagementFeesShareMultipliers |
| Pricing.VeeamLicensing | server/src/services/calculator.ts:118-132 | no contract of its own: zero unless licensing is on, else `VeeamBase` (VMs and physical servers times their edition points, the point value and the dollar rate) marked up by the margins; see LicensingCharged, WithMarginsBase, LicensingAscending, QuoteMarksExclusions, LicensingExample |
| Pricing.O365Licensing | server/src/services/calculator.ts:136-146 | no contract of its own: zero unless O365 backup is on, else `O365Base` (mailboxes times the O365 user points, the point value and the dollar rate) marked up by the margins; see LicensingCharged, WithMarginsBase, LicensingAscending |
| Pricing.CloudConnect | server/src/services/calculator.ts:151-161 | no contract of its own: zero unless licensing is off and cloud storage on, else `CloudConnectBase` (VMs times the Cloud Connect points, the point value and the dollar rate) marked up by the margins; see LicensingCharged, CloudConnectExclusive, LicensingAscending |
| Pricing.LicensingCharged | server/src/services/calculator.ts:118-161 | each licensing item is charged (not all zero) exactly when its guard holds, its base cost is not zero and the margins are not all -100%; the Cloud Connect guard is no Veeam licensing and cloud storage |
| Pricing.WithMarginsBase | server/src/services/calculator.ts:127-131 | when one plus each margin is non-zero, dividing each tier of a marked-up price by one plus that tier's margin gives back the one base cost, the same in every tier |
| Pricing.CloudConnectExclusive | server/src/services/calculator.ts:150-161 | Cloud Connect is zero whenever Veeam licensing is on; a non-zero Cloud Connect needs no licensing, cloud storage and at least one VM |
| Pricing.ServerAcquisition | server/src/services/calculator.ts:164-173 | no contract of its own: the acquisition cost in every tier when local hardware is on, zero otherwise; see HardwareItems, SubtotalExcludesOneTimeCharges |
| Pricing.ServerMonthly | server/src/services/calculator.ts:181-185 | no contract of its own: the acquisition cost divided by each tier's horizon when local hardware is on, zero otherwise; see HardwareItems, ServerMonthlyAscending |
| Pricing.ServerRoiText | server/src/services/calculator.ts:175-179 | no contract of its own: each tier's horizon followed by " meses" when local hardware is on, empty texts otherwise; see HardwareItems |
| Pricing.MonthsText | server/src/services/calculator.ts:175-179 | no contract of its own: one horizon followed by " meses"; see HardwareItems |
| Pricing.HardwareItems | server/src/services/calculator.ts:164-186 | the acquisition is the same cost in all tiers; the monthly cost times each horizon gives back the cost; the horizon texts read "<n> meses"; without local hardware everything is zero or empty |
| Pricing.ServerMonthlyAscending | server/src/services/calculator.ts:181-185 | horizons that shrink from aggressive to conservative give ascending monthly costs |
| Pricing.CloudStorage | server/src/services/calculator.ts:191-199 | no contract of its own: TB times the price per TB, scaled by 0.8, 0.9 and 1.0, when cloud storage is on, zero otherwise; see CloudStorageDiscounts, CloudStorageExample |
| Pricing.CloudStorageDiscounts | server/src/services/calculator.ts:191-199 | the conservative tier is TB times the price per TB when cloud storage is on and zero otherwise; aggressive is 0.8 and moderate 0.9 of it; the margin table and the category do not affect it |
| Pricing.ManagementMonthly | server/src/services/calculator.ts:204-215 | no contract of its own: zero unless managed services are on, else the monthly fee base (units times the VM fee, plus the tenant fee with O365 backup, times the dollar rate) scaled by the risk multipliers; see ManagementFeesShareMultipliers, ManagementFeesZero, ManagementIgnoresMailboxCount, ManagementAscending |
| Pricing.ManagementSetup | server/src/services/calculator.ts:219-230 | no contract of its own: the same as the monthly fee with the setup fees; see ManagementFeesShareMultipliers, ManagementFeesZero, ManagementIgnoresMailboxCount, ManagementAscending |
| Pricing.ManagementBase | server/src/services/calculator.ts:206-208 | no contract of its own: units times the per-unit fee, plus the tenant fee with O365 backup, times the dollar rate; the monthly and the setup base (calculator.ts:221-223) both use it; see ManagementFeesShareMultipliers, ManagementFeesZero, ManagementIgnoresMailboxCount |
| Pricing.ManagementFeesShareMultipliers | server/src/services/calculator.ts:204-230 | in every tier the setup fee relates to the monthly fee as the setup base to the monthly base: one multiplier triple scales both |
| Pricing.ManagementFeesZero | server/src/services/calculator.ts:204-230 | each management fee is zero exactly when managed services are off, its base is zero or the multipliers are all zero |
| Pricing.ManagementIgnoresMailboxCount | server/src/services/calculator.ts:206-208 | the O365 tenant fee is flat: the mailbox count does not change either management fee |
| Pricing.Subtotal | server/src/services/calculator.ts:236-243 | no contract of its own: the tier-wise sum of the three licensing items, the amortised hardware, cloud storage and the monthly management fee; see QuoteSubtotal, QuoteAscending |
| Pricing.RecurringSubtotal | server/src/services/calculator.ts:236-243 | no contract of its own: the same sum read off a set of line items; see SubtotalExcludesOneTimeCharges, QuoteSubtotal, Totalize |
| Pricing.SubtotalExcludesOneTimeCharges | server/src/services/calculator.ts:236-243 | changing the hardware acquisition or the management setup fee leaves the subtotal unchanged; the amortised hardware enters it one to one |
| Pricing.GrossUp | server/src/services/calculator.ts:245-255 | no contract of its own: the total is the subtotal divided by (1 - tax rate) and the tax is that total times the rate; see GrossUpTier, GrossUpIdentity, GrossUpAscending, TaxExample |
| Pricing.TotalsFor | server/src/services/calculator.ts:234-255 | no contract of its own: the gross-up of the scenario's subtotal at its tax rate; see GrossUpIdentity, QuoteAscending, Totalize |
| Pricing.GrossUpTier | server/src/services/calculator.ts:245-255 | in one tier, the total times (1 - tax rate) is the subtotal, the total is the subtotal plus the tax, and both are non-negative for a rate in [0, 1) and a subtotal of at least 0 |
| Pricing.GrossUpIdentity | server/src/services/calculator.ts:245-255 | for every tax rate other than 1: the subtotal is kept; the total is the subtotal plus the tax; the total net of tax is the subtotal |
| Pricing.GrossUpAscending | server/src/services/calculator.ts:245-255 | with a rate in [0, 1), an ascending subtotal gives an ascending tax and total |
| Pricing.LicensingAscending | server/src/services/calculator.ts:118-161 | on well-formed tables with non-negative amounts, the three licensing items are ascending |
| Pricing.ManagementAscending | server/src/services/calculator.ts:204-230 | on well-formed tables with non-negative amounts, both management fees are ascending |
| Pricing.ItemsAscending | server/src/services/calculator.ts:118-230 | on well-formed tables with non-negative amounts, every line item is ascending aggressive <= moderate <= conservative |
| Pricing.QuoteAscending | server/src/services/calculator.ts:234-255 | under those conditions and a rate in [0, 1), the subtotal, the tax and the total are ascending |
| Text.NatToString | server/src/services/calculator.ts:267 | at least one character, all decimal digits, and no leading zero for a positive count; see NatToStringRoundTrip, NatToStringInjective |
| Text.IntToString | server/src/services/calculator.ts:176-178 | no contract of its own: a minus sign before the digits of a negative horizon, else the digits; see HardwareItems |
| Text.NatToStringRoundTrip | server/src/services/calculator.ts:267 | reading back the decimal rendering of a count gives the count |
| Text.NatToStringInjective | server/src/services/calculator.ts:267 | distinct counts are rendered differently |
| Text.EditionShortName | server/src/services/calculator.ts:258-262 | no contract of its own: four first-occurrence replaces, in the engine's order; see IndexFrom, EnterprisePlusShortName, EnterpriseShortName, StandardShortName |
| Text.ReplaceFirst | server/src/services/calculator.ts:259-262 | no contract of its own: the text with its first occurrence of the pattern replaced, or unchanged when there is none, as JavaScript's `replace` with a string pattern; see IndexFrom, EnterprisePlusShortName |
| Text.IndexFrom | server/src/services/calculator.ts:258-262 | the position found is an occurrence and no earlier one exists; None exactly when there is no occurrence |
| Text.EnterprisePlusShortName | server/src/services/calculator.ts:258-262 | the replace chain turns "Veeam Backup & Replication ENT Plus" into "Enterprise Plus" (the later "ENT" replace does not touch it) |
| Text.EnterpriseShortName | server/src/services/calculator.ts:258-262 | the replace chain turns "Veeam Backup & Replication ENT" into "Enterprise" |
| Text.StandardShortName | server/src/services/calculator.ts:258-262 | the replace chain turns "Veeam Backup & Replication STAN" into "Standard" |
| Description.BuildDescription | server/src/services/calculator.ts:264-310 | building the text by appending and pushing gives exactly `DescriptionText` |
| Description.DescriptionText | server/src/services/calculator.ts:264-310 | no contract of its own: the header, the included lines in scope order, the setup line and the not-included section; see BuildDescription, StartsWithHeader, SetupLineAfterIncludedLines, EndsAtSetupLine, IncludedLinesEmpty, NotIncludedSectionPresence, NotIncludedItemsExact |
| Description.AppendVeeamLine | server/src/services/calculator.ts:266-272 | appends the licensing line (edition short name, VM count, physical servers when there are any) exactly when licensing is on, and nothing otherwise |
| Description.AppendO365Line | server/src/services/calculator.ts:274-276 | appends the mailbox line exactly when O365 backup is on, and nothing otherwise |
| Description.AppendCloudLine | server/src/services/calculator.ts:278-280 | appends the cloud repository line exactly when cloud storage is on, and nothing otherwise |
| Description.AppendHardwareLine | server/src/services/calculator.ts:282-284 | appends the local server line exactly when local hardware is on, and nothing otherwise |
| Description.AppendManagedLine | server/src/services/calculator.ts:286-293 | appends the managed-services line, with the Office 365 clause when O365 backup is on, exactly when managed services are on, and nothing otherwise |
| Description.PushUnlessIncluded | server/src/services/calculator.ts:298-303 | adds the entry at the end of the list exactly when its scope item is not included, and leaves the list unchanged otherwise |
| Description.AppendNotIncluded | server/src/services/calculator.ts:305-310 | the loop appends the heading and one bullet per collected item, in list order, or nothing when the list is empty |
| Description.CollectNotIncluded | server/src/services/calculator.ts:298-303 | the guarded pushes give exactly the excluded items' labels in offer-text order |
| Description.ExcludedExact | server/src/services/calculator.ts:298-303 | a scope item is excluded exactly when its flag is off; excluded items keep the fixed order; none are excluded exactly when all five flags are on |
| Description.NotIncludedItemsExact | server/src/services/calculator.ts:298-310 | the not-included list names each item exactly when its flag is off, without repetition, in the order Veeam, O365, cloud, hardware, managed, and is empty exactly when all flags are on |
| Description.NotIncludedSectionPresence | server/src/services/calculator.ts:305-310 | the "Itens não incluídos" section is present exactly when some flag is off, and is then the heading plus one bullet per excluded item |
| Description.StartsWithHeader | server/src/services/calculator.ts:264 | the offer text always starts with the fixed header |
| Description.SetupLineAfterIncludedLines | server/src/services/calculator.ts:295 | the setup line always appears, right after the header and the included lines |
| Description.EndsAtSetupLine | server/src/services/calculator.ts:295-310 | the text ends right after the setup line exactly when all five flags are on |
| Description.IncludedLinesEmpty | server/src/services/calculator.ts:266-293 | there are no included lines exactly when all five flags are off |
| Description.VeeamItemText | server/src/services/calculator.ts:316-319 | no contract of its own: the catalog edition, the VM count and the physical servers when there are any, or "Não incluído"; see VeeamItemTextMarksExclusion |
| Description.O365ItemText | server/src/services/calculator.ts:322-325 | no contract of its own: the mailbox count text, or "Não incluído"; see O365ItemTextMarksExclusion |
| Description.CloudConnectItemText | server/src/services/calculator.ts:328-331 | no contract of its own: the Cloud Connect VM text under the Cloud Connect guard, or "Não aplicável"; see CloudConnectItemTextMarksExclusion |
| Description.ServerMonthlyItemText | server/src/services/calculator.ts:336-337 | no contract of its own: "Custo mensal do servidor", or "Não incluído"; see FixedItemTextsMarkExclusion |
| Description.CloudStorageItemText | server/src/services/calculator.ts:340-343 | no contract of its own: the storage size text, or "Não incluído"; see CloudStorageItemTextMarksExclusion |
| Description.ManagementMonthlyItemText | server/src/services/calculator.ts:346-347 | no contract of its own: "Serviços Gerenciados (mensal)", or "Não incluído"; see FixedItemTextsMarkExclusion |
| Description.ManagementSetupItemText | server/src/services/calculator.ts:350-351 | no contract of its own: "Serviços Gerenciados (setup, cobrança única)", or "Não incluído"; see FixedItemTextsMarkExclusion |
| Description.VeeamItemTextMarksExclusion | server/src/services/calculator.ts:317-319 | the licensing item reads "Não incluído" exactly when licensing is off; when on, it starts with the catalog edition name |
| Description.O365ItemTextMarksExclusion | server/src/services/calculator.ts:323-325 | the O365 item reads "Não incluído" exactly when O365 backup is off |
| Description.CloudConnectItemTextMarksExclusion | server/src/services/calculator.ts:329-331 | the Cloud Connect item reads "Não aplicável" exactly when the Cloud Connect guard (no Veeam licensing, cloud storage on) fails; with the guard on it reads the VM text even when priced at zero |
| Description.CloudStorageItemTextMarksExclusion | server/src/services/calculator.ts:341-343 | the cloud storage item reads "Não incluído" exactly when cloud storage is off |
| Description.FixedItemTextsMarkExclusion | server/src/services/calculator.ts:337-351 | the server-monthly and both management items read "Não incluído" exactly when their flag is off |
| Calculator.CalculateScenario | server/src/services/calculator.ts:93-362 | the imperative engine returns exactly the functional `Quote`; its totals are the gross-up of the sum of its own recurring line items; each charged licensing item is its base cost marked up by the margins the result reports |
| Calculator.Quote | server/src/services/calculator.ts:312-361 | no contract of its own: the risk label, the margins, the itemised quote, the totals and the offer text; see CalculateScenario, QuoteSubtotal, QuoteTierOrder, QuoteMarksExclusions |
| Calculator.QuoteItems | server/src/services/calculator.ts:315-354 | no contract of its own: the nine line items, each with its description and its price; see PriceLineItems, QuoteTierOrder, QuoteMarksExclusions |
| Calculator.PriceLineItems | server/src/services/calculator.ts:108-230 | reading the reference data once and running the guarded blocks gives exactly the itemised quote |
| Calculator.ClassifyRisk | server/src/services/calculator.ts:96-101 | the risk level chosen by the if/else is exactly `Pricing.Risk` |
| Calculator.PriceVeeamLicensing | server/src/services/calculator.ts:118-132 | the guarded licensing block gives exactly `Pricing.VeeamLicensing` |
| Calculator.PriceO365Licensing | server/src/services/calculator.ts:136-146 | the guarded O365 block gives exactly `Pricing.O365Licensing` |
| Calculator.PriceCloudConnect | server/src/services/calculator.ts:151-161 | the guarded Cloud Connect block gives exactly `Pricing.CloudConnect` |
| Calculator.PriceHardware | server/src/services/calculator.ts:164-186 | the guarded hardware block gives exactly `Pricing.ServerAcquisition`, `Pricing.ServerMonthly` and `Pricing.ServerRoiText` |
| Calculator.PriceCloudStorage | server/src/services/calculator.ts:191-199 | the guarded storage block gives exactly `Pricing.CloudStorage` |
| Calculator.PriceManagement | server/src/services/calculator.ts:204-230 | one guarded management block gives zero when managed services are off, else its fee base scaled by the multipliers |
| Calculator.Totalize | server/src/services/calculator.ts:234-255 | the field-by-field sums, division and product give the gross-up of the recurring subtotal |
| Calculator.QuoteSubtotal | server/src/services/calculator.ts:236-243 | the sum of the quote's recurring line items is the subtotal of the pricing rules |
| Calculator.QuoteTierOrder | server/src/services/calculator.ts:118-255 | on well-formed tables with non-negative amounts and a rate in [0, 1), every line item and every total of the quote is ascending, and the hardware horizons are non-zero |
| Calculator.ReportedMarginsRecoverBase | server/src/services/calculator.ts:105-161 | in a quote that reports its applied margins, when one plus each reported margin is non-zero, each charged licensing item divided tier by tier by one plus the reported margin gives back the item's base cost, the same in every tier |
| Calculator.QuoteMarksExclusions | server/src/services/calculator.ts:316-353 | each item of the quote reads "Não incluído" ("Não aplicável" for Cloud Connect) exactly when its guard is off, and is then priced at zero |
| WorkedExamples.LicensingExample | server/src/services/calculator.ts:118-132 | 10 VMs of 9 points at 0.69 and dollar 5.50 cost 341.55, priced 426.9375 in the aggressive tier at a 25% margin |
| WorkedExamples.TaxExample | server/src/services/calculator.ts:245-255 | at 18% tax, a moderate subtotal of 1000 gives a total between 1219.51 and 1219.52 whose net of tax is 1000, and a tax between 219.51 and 219.52 |
| WorkedExamples.CloudStorageExample | server/src/services/calculator.ts:191-199 | 2 TB at 199 per TB are priced 318.40, 358.20 and 398.00 |

## Left out

- Database access, HTTP routes, authentication, logo upload and the React client are not modelled. The seven table reads are an immutable `ReferenceSnapshot` given as a parameter.
- Floating point is not modelled; amounts are exact reals. The model's values are the exact results of the engine's formulas, while the engine's doubles can be off in the last digits: ten VMs at 9 points, 0.69 per point and a dollar rate of 5.50 cost 341.55 in the model, where `10 * 9 * 0.69 * 5.5` in doubles is 341.54999999999995; 2 TB at 199 per TB cost 318.4 in the aggressive tier, where `398 * 0.8` is 318.40000000000003. Currency formatting (`toLocaleString`, `toFixed`) is in the client and is not modelled.
- A tax rate of 1 and zero amortisation horizons are excluded by `requires`. `Pricing.GrossUp` and the methods that call it need a rate other than 1. `Pricing.ServerMonthly` needs non-zero horizons when local hardware is on (`Pricing.AmortisationDefined`). With those inputs JavaScript yields Infinity or NaN; the model does not produce those values.
- The route handler in server/src/routes/scenarios.ts:45-62 fills defaults with `x || default`, so a tax rate of 0 becomes 0.18. That is caller normalisation, outside the engine, and is not modelled; the engine model accepts any rate other than 1.
- How JavaScript renders a fractional number inside a template string (`${input.cloud_storage_tb}TB`) is the parameter `showNumber`. Whole-number counts are rendered in decimal.
- The engine writes each line-item block and the description builder inline. In the model they are separate methods, one per block (`Calculator.PriceVeeamLicensing` and so on, `Description.AppendVeeamLine` and so on). This keeps each proof small; the order of operations and the guards are the same.
- `Description.EndsAtSetupLine` states "the text ends with the setup line exactly when all flags are on" through the text's length. Together with `Description.SetupLineAfterIncludedLines`, which places the setup line right after the included lines, this says the same thing.
- The fallback horizons (16, 15, 14 months, server/src/services/calculator.ts:70) and the seeded rows (server/src/db/seed.ts:162-164) shrink along the tiers, so the amortised monthly cost rises from aggressive to conservative. `Pricing.ServerMonthlyAscending` assumes shrinking horizons and `Reference.WellFormedSnapshot` requires them.
- The counts (VMs, physical servers, mailboxes) are natural numbers, as the form parses them as integers. A negative or fractional count is not modelled. The engine holds them as JavaScript numbers: above 2^53 they lose integer precision, and from 10^21 a template string prints them in exponent form (`1e+21`). `Text.NatToString` always prints plain decimal digits, so the texts of such counts are not modelled.
- Amortisation horizons are whole numbers of months (`Reference.RoiMonths`), as in the fallbacks and the seeded rows. The reference editor parses them with `parseFloat` (client/src/pages/Dados.tsx:134) and stores them unchanged, so a horizon such as 16.5 months can reach the engine, which then divides by 16.5 and prints "16.5 meses". Fractional horizons are not modelled.
