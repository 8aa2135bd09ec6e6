/** The offer text of a scenario and the descriptions of its line items.

    The offer text is a header, one line per scope item in the scenario, the
    fixed setup line and, when any scope item is left out, a heading followed
    by one bullet per excluded item in a fixed order. It depends on the scope
    flags and quantities only, never on the reference data.

    JavaScript renders a storage size such as `2.5` inside a template string
    by its own number-to-text rules; the model takes that rendering as the
    parameter `showNumber`. Whole-number counts are rendered in decimal. */
module Description {
  import opened Scenario
  import opened Text

  // ---------------------------------------------------------------------------
  // Scope items

  /** The five scope items, each switched on by one flag of the scenario. */
  datatype Scope = VeeamScope | O365Scope | CloudScope | HardwareScope | ManagedScope

  /** Position of a scope item in the offer text. */
  function Rank(s: Scope): nat {
    match s
    case VeeamScope => 0
    case O365Scope => 1
    case CloudScope => 2
    case HardwareScope => 3
    case ManagedScope => 4
  }

  /** Every scope item, in the order the offer text lists them. */
  const Scopes: seq<Scope> := [VeeamScope, O365Scope, CloudScope, HardwareScope, ManagedScope]

  predicate InScope(input: ScenarioInput, s: Scope) {
    match s
    case VeeamScope => input.needsVeeamLicensing
    case O365Scope => input.needsO365Backup
    case CloudScope => input.needsCloudStorage
    case HardwareScope => input.needsLocalHardware
    case ManagedScope => input.needsManagedServices
  }

  /** How an excluded scope item is listed. */
  function NotIncludedLabel(s: Scope): string {
    match s
    case VeeamScope => "Licenciamento Veeam Backup and Replication."
    case O365Scope => "Licenciamento Veeam Backup for Microsoft Office 365."
    case CloudScope => "Repositório para armazenamento em nuvem."
    case HardwareScope => "Locação de servidor para repositório local."
    case ManagedScope => "Serviços Continuados de operação e monitoramento das rotinas de backup."
  }

  /** The next-to-last character of each label, different for every scope item. */
  function LabelTag(s: Scope): char {
    match s
    case VeeamScope => 'n'
    case O365Scope => '5'
    case CloudScope => 'm'
    case HardwareScope => 'l'
    case ManagedScope => 'p'
  }

  lemma LabelEndsWithTag(s: Scope)
    ensures var entry := NotIncludedLabel(s);
            |entry| >= 2 && entry[|entry| - 2] == LabelTag(s) && entry[|entry| - 1] == '.'
  {
  }

  /** Different scope items are listed differently. */
  lemma NotIncludedLabelInjective(s: Scope, t: Scope)
    requires NotIncludedLabel(s) == NotIncludedLabel(t)
    ensures s == t
  {
    LabelEndsWithTag(s);
    LabelEndsWithTag(t);
  }

  /** `list` with `x` appended unless `included`. */
  function Push<T>(list: seq<T>, included: bool, x: T): seq<T> {
    if included then list else list + [x]
  }

  /** The scope items of `scopes` that the scenario leaves out, in order. */
  function Excluded(input: ScenarioInput, scopes: seq<Scope>): (r: seq<Scope>)
    ensures |r| <= |scopes|
    ensures forall s :: s in r <==> s in scopes && !InScope(input, s)
    decreases |scopes|
  {
    if scopes == [] then []
    else
      var last := scopes[|scopes| - 1];
      assert scopes == scopes[..|scopes| - 1] + [last];
      Push(Excluded(input, scopes[..|scopes| - 1]), InScope(input, last), last)
  }

  lemma ExcludedSnoc(input: ScenarioInput, scopes: seq<Scope>, s: Scope)
    ensures Excluded(input, scopes + [s]) == Push(Excluded(input, scopes), InScope(input, s), s)
  {
    assert (scopes + [s])[..|scopes|] == scopes;
  }

  /** Scope items strictly in offer-text order. */
  predicate InRankOrder(scopes: seq<Scope>) {
    forall i, j :: 0 <= i < j < |scopes| ==> Rank(scopes[i]) < Rank(scopes[j])
  }

  /** Leaving items out keeps the others in offer-text order. */
  lemma {:induction false} ExcludedInRankOrder(input: ScenarioInput, scopes: seq<Scope>)
    requires InRankOrder(scopes)
    ensures InRankOrder(Excluded(input, scopes))
    decreases |scopes|
  {
    if scopes != [] {
      var front := scopes[..|scopes| - 1];
      var last := scopes[|scopes| - 1];
      assert InRankOrder(front) by {
        forall i, j | 0 <= i < j < |front| ensures Rank(front[i]) < Rank(front[j]) {
          assert front[i] == scopes[i] && front[j] == scopes[j];
        }
      }
      ExcludedInRankOrder(input, front);
      var head := Excluded(input, front);
      forall t | t in head ensures Rank(t) < Rank(last) {
        var k :| 0 <= k < |front| && front[k] == t;
        assert scopes[k] == t;
      }
    }
  }

  /** The list entries of some scope items. */
  function Labels(scopes: seq<Scope>): (r: seq<string>)
    ensures |r| == |scopes|
    ensures forall i :: 0 <= i < |scopes| ==> r[i] == NotIncludedLabel(scopes[i])
    decreases |scopes|
  {
    if scopes == [] then [] else [NotIncludedLabel(scopes[0])] + Labels(scopes[1..])
  }

  /** The items the offer text lists as not included. */
  function NotIncludedItems(input: ScenarioInput): seq<string> {
    Labels(Excluded(input, Scopes))
  }

  /** A scope item is excluded exactly when its flag is off; the excluded
      items keep the offer-text order, and there are none exactly when every
      flag is on. */
  lemma ExcludedExact(input: ScenarioInput)
    ensures forall s :: s in Excluded(input, Scopes) <==> !InScope(input, s)
    ensures InRankOrder(Excluded(input, Scopes))
    ensures Excluded(input, Scopes) == [] <==>
              input.needsVeeamLicensing && input.needsO365Backup && input.needsCloudStorage &&
              input.needsLocalHardware && input.needsManagedServices
  {
    ExcludedInRankOrder(input, Scopes);
    forall s ensures s in Scopes {
      assert Scopes[Rank(s)] == s;
    }
    var ex := Excluded(input, Scopes);
    if !(input.needsVeeamLicensing && input.needsO365Backup && input.needsCloudStorage &&
         input.needsLocalHardware && input.needsManagedServices) {
      var s :| !InScope(input, s);
      assert s in ex;
    } else {
      ExcludedByFlags(input);
    }
  }

  /** A label is listed exactly when its scope item is among the listed items. */
  lemma LabelsMembership(scopes: seq<Scope>, s: Scope)
    ensures NotIncludedLabel(s) in Labels(scopes) <==> s in scopes
  {
    var entries := Labels(scopes);
    if NotIncludedLabel(s) in entries {
      var k :| 0 <= k < |entries| && entries[k] == NotIncludedLabel(s);
      NotIncludedLabelInjective(scopes[k], s);
    }
    if s in scopes {
      var k :| 0 <= k < |scopes| && scopes[k] == s;
      assert entries[k] == NotIncludedLabel(s);
    }
  }

  /** Items in offer-text order are listed without repetition. */
  lemma LabelsDistinct(scopes: seq<Scope>)
    requires InRankOrder(scopes)
    ensures forall i, j :: 0 <= i < j < |scopes| ==> Labels(scopes)[i] != Labels(scopes)[j]
  {
    forall i, j | 0 <= i < j < |scopes| ensures Labels(scopes)[i] != Labels(scopes)[j] {
      if Labels(scopes)[i] == Labels(scopes)[j] {
        NotIncludedLabelInjective(scopes[i], scopes[j]);
      }
    }
  }

  /** The not-included list names each scope item exactly when its flag is
      off, once, in offer-text order, and is empty exactly when every flag
      is on. */
  lemma NotIncludedItemsExact(input: ScenarioInput)
    ensures forall s :: NotIncludedLabel(s) in NotIncludedItems(input) <==> !InScope(input, s)
    ensures forall i, j :: 0 <= i < j < |NotIncludedItems(input)| ==> NotIncludedItems(input)[i] != NotIncludedItems(input)[j]
    ensures var ex := Excluded(input, Scopes);
            NotIncludedItems(input) == Labels(ex) && InRankOrder(ex)
    ensures NotIncludedItems(input) == [] <==>
              input.needsVeeamLicensing && input.needsO365Backup && input.needsCloudStorage &&
              input.needsLocalHardware && input.needsManagedServices
  {
    var ex := Excluded(input, Scopes);
    ExcludedExact(input);
    LabelsDistinct(ex);
    forall s ensures NotIncludedLabel(s) in Labels(ex) <==> !InScope(input, s) {
      LabelsMembership(ex, s);
    }
  }

  // ---------------------------------------------------------------------------
  // The offer text

  const Header: string :=
    "Solução de backup como serviço (BaaS) utilizando tecnologia Veeam conforme escopo dimensionado abaixo:\n\nItens incluídos:\n"
  const SetupLine: string := "\n\n* Serviço de setup inicial incluído."
  const NotIncludedHeading: string := "\n\nItens não incluídos:\n"

  function VeeamLine(input: ScenarioInput): string {
    "\n- Software Veeam Backup and Replication " + EditionShortName(input.veeamEdition)
    + " para proteção de " + NatToString(input.vmCount) + " servidores virtuais"
    + (if input.physicalServerCount > 0
       then " e " + NatToString(input.physicalServerCount) + " servidores físicos com Veeam Agent"
       else "")
    + "."
  }

  function O365Line(input: ScenarioInput): string {
    "\n- Software Veeam Backup for Microsoft Office 365 para " + NatToString(input.mailboxCount) + " caixas postais."
  }

  function CloudLine(input: ScenarioInput, showNumber: real -> string): string {
    "\n- Repositório para armazenamento em nuvem com capacidade de " + showNumber(input.cloudStorageTb) + "TB."
  }

  function HardwareLine(input: ScenarioInput, showNumber: real -> string): string {
    "\n- Locação de servidor Dell EMC para repositório local com capacidade de " + showNumber(input.localStorageTb) + "TB."
  }

  function ManagedLine(input: ScenarioInput): string {
    "\n\n- Serviços Continuados de operação e monitoramento das rotinas de backup, para até "
    + NatToString(input.vmCount + input.physicalServerCount) + " servidores"
    + (if input.needsO365Backup then ", incluindo ambiente Veeam Backup for Office 365." else ".")
  }

  // Each line appears in the offer text only when its scope item is in scope.
  function VeeamPart(input: ScenarioInput): string {
    if input.needsVeeamLicensing then VeeamLine(input) else ""
  }

  function O365Part(input: ScenarioInput): string {
    if input.needsO365Backup then O365Line(input) else ""
  }

  function CloudPart(input: ScenarioInput, showNumber: real -> string): string {
    if input.needsCloudStorage then CloudLine(input, showNumber) else ""
  }

  function HardwarePart(input: ScenarioInput, showNumber: real -> string): string {
    if input.needsLocalHardware then HardwareLine(input, showNumber) else ""
  }

  function ManagedPart(input: ScenarioInput): string {
    if input.needsManagedServices then ManagedLine(input) else ""
  }

  /** The lines of the included scope items, in offer-text order. */
  function IncludedLines(input: ScenarioInput, showNumber: real -> string): string {
    VeeamPart(input) + O365Part(input) + CloudPart(input, showNumber)
    + HardwarePart(input, showNumber) + ManagedPart(input)
  }

  /** One bullet per item, each on a new line. */
  function Bullets(items: seq<string>): string
    decreases |items|
  {
    if items == [] then "" else Bullets(items[..|items| - 1]) + ("\n- " + items[|items| - 1])
  }

  /** The not-included section: a heading and the bullets, or nothing. */
  function NotIncludedSection(items: seq<string>): string {
    if |items| > 0 then NotIncludedHeading + Bullets(items) else ""
  }

  /** The offer text around given included lines and not-included items. */
  function OfferText(includedLines: string, notIncluded: seq<string>): string {
    Header + includedLines + SetupLine + NotIncludedSection(notIncluded)
  }

  /** The offer text of a scenario. */
  function DescriptionText(input: ScenarioInput, showNumber: real -> string): string {
    OfferText(IncludedLines(input, showNumber), NotIncludedItems(input))
  }

  /** The offer text built the way the engine builds it: appended to piece by
      piece, with the excluded items first collected in a list. */
  method BuildDescription(input: ScenarioInput, showNumber: real -> string) returns (description: string)
    ensures description == DescriptionText(input, showNumber)
  {
    description := Header;
    description := AppendVeeamLine(description, input);
    description := AppendO365Line(description, input);
    description := AppendCloudLine(description, input, showNumber);
    description := AppendHardwareLine(description, input, showNumber);
    description := AppendManagedLine(description, input);
    IncludedLinesAfterHeader(input, showNumber);
    description := description + "\n\n* Serviço de setup inicial incluído.";
    var notIncluded := CollectNotIncluded(input);
    description := AppendNotIncluded(description, notIncluded);
  }

  /** The header followed by the five parts one after the other. */
  lemma IncludedLinesAfterHeader(input: ScenarioInput, showNumber: real -> string)
    ensures Header + VeeamPart(input) + O365Part(input) + CloudPart(input, showNumber)
            + HardwarePart(input, showNumber) + ManagedPart(input)
            == Header + IncludedLines(input, showNumber)
  {
    Regroup(Header, VeeamPart(input), O365Part(input), CloudPart(input, showNumber),
            HardwarePart(input, showNumber), ManagedPart(input));
  }

  lemma Regroup(h: string, p1: string, p2: string, p3: string, p4: string, p5: string)
    ensures h + p1 + p2 + p3 + p4 + p5 == h + (p1 + p2 + p3 + p4 + p5)
  {
  }

  /** The Veeam licensing line, appended when Veeam licensing is in scope. */
  method AppendVeeamLine(description: string, input: ScenarioInput) returns (d: string)
    ensures d == description + VeeamPart(input)
  {
    d := description;
    if input.needsVeeamLicensing {
      var editionShortName := EditionShortName(input.veeamEdition);
      d := d + ("\n- Software Veeam Backup and Replication " + editionShortName
                + " para proteção de " + NatToString(input.vmCount) + " servidores virtuais");
      if input.physicalServerCount > 0 {
        d := d + (" e " + NatToString(input.physicalServerCount) + " servidores físicos com Veeam Agent");
      }
      d := d + ".";
      VeeamLineAppended(description, input);
    }
  }

  /** The three appends of the Veeam licensing line add up to that line. */
  lemma VeeamLineAppended(before: string, input: ScenarioInput)
    ensures var first := "\n- Software Veeam Backup and Replication " + EditionShortName(input.veeamEdition)
                         + " para proteção de " + NatToString(input.vmCount) + " servidores virtuais";
            var physical := " e " + NatToString(input.physicalServerCount) + " servidores físicos com Veeam Agent";
            (if input.physicalServerCount > 0 then before + first + physical + "." else before + first + ".")
            == before + VeeamLine(input)
  {
    var first := "\n- Software Veeam Backup and Replication " + EditionShortName(input.veeamEdition)
                 + " para proteção de " + NatToString(input.vmCount) + " servidores virtuais";
    var physical := " e " + NatToString(input.physicalServerCount) + " servidores físicos com Veeam Agent";
    var optional := if input.physicalServerCount > 0 then physical else "";
    assert VeeamLine(input) == first + optional + ".";
    AppendAssoc(before, first + optional, ".");
    AppendAssoc(before, first, optional);
    AppendEmpty(first);
    AppendEmpty(before + first);
  }

  method AppendO365Line(description: string, input: ScenarioInput) returns (d: string)
    ensures d == description + O365Part(input)
  {
    d := description;
    if input.needsO365Backup {
      d := d + ("\n- Software Veeam Backup for Microsoft Office 365 para "
                + NatToString(input.mailboxCount) + " caixas postais.");
    }
  }

  method AppendCloudLine(description: string, input: ScenarioInput, showNumber: real -> string) returns (d: string)
    ensures d == description + CloudPart(input, showNumber)
  {
    d := description;
    if input.needsCloudStorage {
      d := d + ("\n- Repositório para armazenamento em nuvem com capacidade de "
                + showNumber(input.cloudStorageTb) + "TB.");
    }
  }

  method AppendHardwareLine(description: string, input: ScenarioInput, showNumber: real -> string) returns (d: string)
    ensures d == description + HardwarePart(input, showNumber)
  {
    d := description;
    if input.needsLocalHardware {
      d := d + ("\n- Locação de servidor Dell EMC para repositório local com capacidade de "
                + showNumber(input.localStorageTb) + "TB.");
    }
  }

  /** The managed services paragraph, appended when managed services are in scope. */
  method AppendManagedLine(description: string, input: ScenarioInput) returns (d: string)
    ensures d == description + ManagedPart(input)
  {
    d := description;
    if input.needsManagedServices {
      d := d + ("\n\n- Serviços Continuados de operação e monitoramento das rotinas de backup, para até "
                + NatToString(input.vmCount + input.physicalServerCount) + " servidores");
      if input.needsO365Backup {
        d := d + ", incluindo ambiente Veeam Backup for Office 365.";
      } else {
        d := d + ".";
      }
      ManagedLineAppended(description, input);
    }
  }

  /** The two appends of the managed services paragraph add up to it. */
  lemma ManagedLineAppended(before: string, input: ScenarioInput)
    ensures var first := "\n\n- Serviços Continuados de operação e monitoramento das rotinas de backup, para até "
                         + NatToString(input.vmCount + input.physicalServerCount) + " servidores";
            (if input.needsO365Backup then before + first + ", incluindo ambiente Veeam Backup for Office 365."
             else before + first + ".")
            == before + ManagedLine(input)
  {
    var first := "\n\n- Serviços Continuados de operação e monitoramento das rotinas de backup, para até "
                 + NatToString(input.vmCount + input.physicalServerCount) + " servidores";
    var last := if input.needsO365Backup then ", incluindo ambiente Veeam Backup for Office 365." else ".";
    assert ManagedLine(input) == first + last;
    AppendAssoc(before, first, last);
  }

  /** The list of excluded items, filled one flag at a time. */
  method CollectNotIncluded(input: ScenarioInput) returns (notIncluded: seq<string>)
    ensures notIncluded == NotIncludedItems(input)
  {
    notIncluded := [];
    notIncluded := PushUnlessIncluded(notIncluded, input.needsVeeamLicensing,
                                      "Licenciamento Veeam Backup and Replication.");
    notIncluded := PushUnlessIncluded(notIncluded, input.needsO365Backup,
                                      "Licenciamento Veeam Backup for Microsoft Office 365.");
    notIncluded := PushUnlessIncluded(notIncluded, input.needsCloudStorage,
                                      "Repositório para armazenamento em nuvem.");
    notIncluded := PushUnlessIncluded(notIncluded, input.needsLocalHardware,
                                      "Locação de servidor para repositório local.");
    notIncluded := PushUnlessIncluded(notIncluded, input.needsManagedServices,
                                      "Serviços Continuados de operação e monitoramento das rotinas de backup.");
    NotIncludedItemsByFlags(input);
  }

  /** One guarded push onto the list of excluded items. */
  method PushUnlessIncluded(notIncluded: seq<string>, included: bool, entry: string) returns (r: seq<string>)
    ensures !included ==> |r| == |notIncluded| + 1 && r[..|notIncluded|] == notIncluded && r[|notIncluded|] == entry
    ensures included ==> r == notIncluded
    ensures r == Push(notIncluded, included, entry)
  {
    r := notIncluded;
    if !included {
      r := r + [entry];
    }
  }

  /** The not-included section, appended when the list is not empty. */
  method AppendNotIncluded(description: string, notIncluded: seq<string>) returns (d: string)
    ensures d == description + NotIncludedSection(notIncluded)
  {
    d := description;
    if |notIncluded| > 0 {
      d := d + "\n\nItens não incluídos:\n";
      for i := 0 to |notIncluded|
        invariant d == description + NotIncludedHeading + Bullets(notIncluded[..i])
      {
        assert notIncluded[..i + 1][..i] == notIncluded[..i];
        AppendAssoc(description + NotIncludedHeading, Bullets(notIncluded[..i]), "\n- " + notIncluded[i]);
        d := d + ("\n- " + notIncluded[i]);
      }
      assert notIncluded[..|notIncluded|] == notIncluded;
      AppendAssoc(description, NotIncludedHeading, Bullets(notIncluded));
    } else {
      AppendEmpty(description);
    }
  }

  /** The excluded scope items, gathered one flag at a time in offer-text order. */
  lemma ExcludedByFlags(input: ScenarioInput)
    ensures Excluded(input, Scopes) ==
              Push(Push(Push(Push(Push([], input.needsVeeamLicensing, VeeamScope), input.needsO365Backup, O365Scope),
                input.needsCloudStorage, CloudScope), input.needsLocalHardware, HardwareScope),
                input.needsManagedServices, ManagedScope)
  {
    var p0: seq<Scope> := [];
    var p1 := p0 + [VeeamScope];
    var p2 := p1 + [O365Scope];
    var p3 := p2 + [CloudScope];
    var p4 := p3 + [HardwareScope];
    assert p4 + [ManagedScope] == Scopes;
    ExcludedSnoc(input, p0, VeeamScope);
    ExcludedSnoc(input, p1, O365Scope);
    ExcludedSnoc(input, p2, CloudScope);
    ExcludedSnoc(input, p3, HardwareScope);
    ExcludedSnoc(input, p4, ManagedScope);
  }

  lemma LabelsPush(scopes: seq<Scope>, included: bool, s: Scope)
    ensures Labels(Push(scopes, included, s)) == Push(Labels(scopes), included, NotIncludedLabel(s))
  {
    LabelsAppend(scopes, [s]);
  }

  /** The not-included list, one entry per switched-off flag. */
  lemma NotIncludedItemsByFlags(input: ScenarioInput)
    ensures NotIncludedItems(input) ==
              Push(Push(Push(Push(Push([], input.needsVeeamLicensing, NotIncludedLabel(VeeamScope)),
                input.needsO365Backup, NotIncludedLabel(O365Scope)),
                input.needsCloudStorage, NotIncludedLabel(CloudScope)),
                input.needsLocalHardware, NotIncludedLabel(HardwareScope)),
                input.needsManagedServices, NotIncludedLabel(ManagedScope))
  {
    ExcludedByFlags(input);
    var e1 := Push([], input.needsVeeamLicensing, VeeamScope);
    var e2 := Push(e1, input.needsO365Backup, O365Scope);
    var e3 := Push(e2, input.needsCloudStorage, CloudScope);
    var e4 := Push(e3, input.needsLocalHardware, HardwareScope);
    LabelsPush([], input.needsVeeamLicensing, VeeamScope);
    LabelsPush(e1, input.needsO365Backup, O365Scope);
    LabelsPush(e2, input.needsCloudStorage, CloudScope);
    LabelsPush(e3, input.needsLocalHardware, HardwareScope);
    LabelsPush(e4, input.needsManagedServices, ManagedScope);
  }

  lemma {:induction false} LabelsAppend(a: seq<Scope>, b: seq<Scope>)
    ensures Labels(a + b) == Labels(a) + Labels(b)
    decreases |a|
  {
    if a != [] {
      assert (a + b)[1..] == a[1..] + b;
      LabelsAppend(a[1..], b);
    }
  }

  // ---------------------------------------------------------------------------
  // Properties of the offer text

  /** The offer text opens with the header. */
  lemma StartsWithHeader(input: ScenarioInput, showNumber: real -> string)
    ensures Header <= DescriptionText(input, showNumber)
  {
    var rest := IncludedLines(input, showNumber) + SetupLine + NotIncludedSection(NotIncludedItems(input));
    assert DescriptionText(input, showNumber) == Header + rest by {
      AppendAssoc(Header, IncludedLines(input, showNumber), SetupLine);
      AppendAssoc(Header, IncludedLines(input, showNumber) + SetupLine, NotIncludedSection(NotIncludedItems(input)));
    }
    assert (Header + rest)[..|Header|] == Header;
  }

  /** The setup line comes right after the included lines. */
  lemma SetupLineAfterIncludedLines(input: ScenarioInput, showNumber: real -> string)
    ensures OccursAt(DescriptionText(input, showNumber), SetupLine, |Header + IncludedLines(input, showNumber)|)
  {
    OccursAfterPrefix(Header + IncludedLines(input, showNumber), SetupLine, NotIncludedSection(NotIncludedItems(input)));
  }

  /** No included lines exactly when no scope item is in scope. */
  lemma IncludedLinesEmpty(input: ScenarioInput, showNumber: real -> string)
    ensures IncludedLines(input, showNumber) == "" <==>
              !input.needsVeeamLicensing && !input.needsO365Backup && !input.needsCloudStorage &&
              !input.needsLocalHardware && !input.needsManagedServices
  {
    assert |IncludedLines(input, showNumber)| == |VeeamPart(input)| + |O365Part(input)| + |CloudPart(input, showNumber)|
                                                 + |HardwarePart(input, showNumber)| + |ManagedPart(input)|;
  }

  /** The offer text stops right after the setup line exactly when nothing
      is left out; with the setup line placed right after the included
      lines, this says the text ends with the setup line in that case only. */
  lemma EndsAtSetupLine(input: ScenarioInput, showNumber: real -> string)
    ensures |DescriptionText(input, showNumber)| == |Header + IncludedLines(input, showNumber)| + |SetupLine| <==>
              input.needsVeeamLicensing && input.needsO365Backup && input.needsCloudStorage &&
              input.needsLocalHardware && input.needsManagedServices
  {
    NotIncludedItemsExact(input);
  }

  /** The not-included section is present exactly when some scope item is
      off, and then it is the heading followed by one bullet per excluded item. */
  lemma NotIncludedSectionPresence(input: ScenarioInput)
    ensures NotIncludedSection(NotIncludedItems(input)) == "" <==>
              input.needsVeeamLicensing && input.needsO365Backup && input.needsCloudStorage &&
              input.needsLocalHardware && input.needsManagedServices
    ensures NotIncludedItems(input) != [] ==>
              NotIncludedSection(NotIncludedItems(input)) == NotIncludedHeading + Bullets(NotIncludedItems(input))
  {
    NotIncludedItemsExact(input);
  }

  // ---------------------------------------------------------------------------
  // Line item descriptions

  const NotIncludedText: string := "Não incluído"
  const NotApplicableText: string := "Não aplicável"

  /** The catalog edition, the VM count and, when there are any, the physical servers. */
  function VeeamItemText(input: ScenarioInput): string {
    if input.needsVeeamLicensing
    then input.veeamEdition + " para " + NatToString(input.vmCount) + " VMs"
         + (if input.physicalServerCount > 0
            then " e " + NatToString(input.physicalServerCount) + " servidores físicos"
            else "")
    else NotIncludedText
  }

  function O365ItemText(input: ScenarioInput): string {
    if input.needsO365Backup
    then "Veeam Backup for Microsoft Office 365 para " + NatToString(input.mailboxCount) + " mailboxes"
    else NotIncludedText
  }

  function CloudConnectItemText(input: ScenarioInput): string {
    if !input.needsVeeamLicensing && input.needsCloudStorage
    then "Veeam Cloud Connect para " + NatToString(input.vmCount) + " VMs"
    else NotApplicableText
  }

  function ServerMonthlyItemText(input: ScenarioInput): string {
    if input.needsLocalHardware then "Custo mensal do servidor" else NotIncludedText
  }

  function CloudStorageItemText(input: ScenarioInput, showNumber: real -> string): string {
    if input.needsCloudStorage
    then "Armazenamento em nuvem (Zerobox): " + showNumber(input.cloudStorageTb) + " TB"
    else NotIncludedText
  }

  function ManagementMonthlyItemText(input: ScenarioInput): string {
    if input.needsManagedServices then "Serviços Gerenciados (mensal)" else NotIncludedText
  }

  function ManagementSetupItemText(input: ScenarioInput): string {
    if input.needsManagedServices then "Serviços Gerenciados (setup, cobrança única)" else NotIncludedText
  }

  /** The last character of a concatenation is the last character of its
      non-empty right part. */
  lemma LastOfAppend(a: string, b: string)
    requires b != []
    ensures (a + b)[|a + b| - 1] == b[|b| - 1]
  {
  }

  /** Each item reads "Não incluído" exactly when its scope item is off. */
  lemma VeeamItemTextMarksExclusion(input: ScenarioInput)
    ensures VeeamItemText(input) == NotIncludedText <==> !input.needsVeeamLicensing
    ensures input.needsVeeamLicensing ==> input.veeamEdition <= VeeamItemText(input)
  {
    if input.needsVeeamLicensing {
      var t := VeeamItemText(input);
      var front := input.veeamEdition + " para " + NatToString(input.vmCount);
      var physical := " e " + NatToString(input.physicalServerCount) + " servidores físicos";
      if input.physicalServerCount > 0 {
        LastOfAppend(front + " VMs", physical);
      } else {
        AppendEmpty(front + " VMs");
        LastOfAppend(front, " VMs");
      }
      assert t[|t| - 1] == 's';
      AppendAssoc(input.veeamEdition, " para ", NatToString(input.vmCount));
      assert t == input.veeamEdition + (" para " + NatToString(input.vmCount) + " VMs"
                                        + (if input.physicalServerCount > 0 then physical else ""));
    }
  }

  lemma O365ItemTextMarksExclusion(input: ScenarioInput)
    ensures O365ItemText(input) == NotIncludedText <==> !input.needsO365Backup
  {
    if input.needsO365Backup {
      LastOfAppend("Veeam Backup for Microsoft Office 365 para " + NatToString(input.mailboxCount), " mailboxes");
    }
  }

  /** The Cloud Connect item reads "Não aplicável" exactly when the Cloud Connect
      guard (no Veeam licensing, cloud storage on) fails. */
  lemma CloudConnectItemTextMarksExclusion(input: ScenarioInput)
    ensures CloudConnectItemText(input) == NotApplicableText <==> !(!input.needsVeeamLicensing && input.needsCloudStorage)
  {
    if !input.needsVeeamLicensing && input.needsCloudStorage {
      LastOfAppend("Veeam Cloud Connect para " + NatToString(input.vmCount), " VMs");
    }
  }

  lemma CloudStorageItemTextMarksExclusion(input: ScenarioInput, showNumber: real -> string)
    ensures CloudStorageItemText(input, showNumber) == NotIncludedText <==> !input.needsCloudStorage
  {
    if input.needsCloudStorage {
      LastOfAppend("Armazenamento em nuvem (Zerobox): " + showNumber(input.cloudStorageTb), " TB");
    }
  }

  lemma FixedItemTextsMarkExclusion(input: ScenarioInput)
    ensures ServerMonthlyItemText(input) == NotIncludedText <==> !input.needsLocalHardware
    ensures ManagementMonthlyItemText(input) == NotIncludedText <==> !input.needsManagedServices
    ensures ManagementSetupItemText(input) == NotIncludedText <==> !input.needsManagedServices
  {
    assert |"Custo mensal do servidor"| != |NotIncludedText|;
    assert |"Serviços Gerenciados (mensal)"| != |NotIncludedText|;
    assert |"Serviços Gerenciados (setup, cobrança única)"| != |NotIncludedText|;
  }
}
