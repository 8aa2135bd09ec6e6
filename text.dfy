/** String helpers the offer text needs: decimal rendering of whole numbers,
    first-occurrence search and replace, and the edition short name. */
module Text {
  import opened Reference

  /** The character of a decimal digit. */
  function DigitChar(d: nat): (c: char)
    requires d < 10
    ensures '0' <= c <= '9'
    ensures (c as int) - ('0' as int) == d
  {
    (('0' as int) + d) as char
  }

  /** Decimal digits of `n`, most significant first, without leading zeros. */
  function NatToString(n: nat): (s: string)
    ensures |s| >= 1
    ensures forall i :: 0 <= i < |s| ==> '0' <= s[i] <= '9'
    ensures n > 0 ==> s[0] != '0'
    decreases n
  {
    if n < 10 then [DigitChar(n)] else NatToString(n / 10) + [DigitChar(n % 10)]
  }

  /** Decimal rendering of an integer, with a leading minus sign when negative. */
  function IntToString(i: int): string {
    if i < 0 then "-" + NatToString(-i) else NatToString(i)
  }

  /** The number a string of decimal digits denotes. */
  function DigitsValue(s: string): int
    decreases |s|
  {
    if s == [] then 0 else 10 * DigitsValue(s[..|s| - 1]) + ((s[|s| - 1] as int) - ('0' as int))
  }

  /** Rendering a whole number and reading it back gives the number. */
  lemma {:induction false} NatToStringRoundTrip(n: nat)
    ensures DigitsValue(NatToString(n)) == n
    decreases n
  {
    if n >= 10 {
      NatToStringRoundTrip(n / 10);
      var s := NatToString(n);
      assert s[..|s| - 1] == NatToString(n / 10);
    }
  }

  /** Distinct numbers render differently. */
  lemma NatToStringInjective(m: nat, n: nat)
    requires NatToString(m) == NatToString(n)
    ensures m == n
  {
    NatToStringRoundTrip(m);
    NatToStringRoundTrip(n);
  }

  predicate OccursAt(s: string, pat: string, i: nat) {
    i + |pat| <= |s| && s[i..i + |pat|] == pat
  }

  /** Position of the first occurrence of `pat` in `s` at or after `from`, if any. */
  function IndexFrom(s: string, pat: string, from: nat): (r: Option<nat>)
    ensures r.Some? ==> from <= r.value && OccursAt(s, pat, r.value)
    ensures r.Some? ==> forall j :: from <= j < r.value ==> !OccursAt(s, pat, j)
    ensures r.None? <==> forall j :: from <= j <= |s| ==> !OccursAt(s, pat, j)
    decreases |s| - from
  {
    if |s| < from + |pat| then None
    else if OccursAt(s, pat, from) then Some(from)
    else IndexFrom(s, pat, from + 1)
  }

  /** Position of the first occurrence of `pat` in `s`, if any. */
  function IndexOf(s: string, pat: string): Option<nat> {
    IndexFrom(s, pat, 0)
  }

  /** Replace the first occurrence of `pat` in `s` by `rep`; unchanged when there is none. */
  function ReplaceFirst(s: string, pat: string, rep: string): string {
    match IndexOf(s, pat)
    case None => s
    case Some(i) => s[..i] + rep + s[i + |pat|..]
  }

  /** The edition name as printed in the offer text. */
  function EditionShortName(edition: string): string {
    ReplaceFirst(ReplaceFirst(ReplaceFirst(ReplaceFirst(
      edition, "Veeam Backup & Replication ", ""),
      "ENT Plus", "Enterprise Plus"),
      "ENT", "Enterprise"),
      "STAN", "Standard")
  }

  /** A string that starts with the pattern has it replaced at the front. */
  lemma ReplaceLeading(s: string, pat: string, rep: string)
    requires pat <= s
    ensures ReplaceFirst(s, pat, rep) == rep + s[|pat|..]
  {
    assert OccursAt(s, pat, 0);
  }

  /** A pattern containing a character the string lacks is not replaced. */
  lemma ReplaceAbsent(s: string, pat: string, rep: string, c: char)
    requires c in pat && c !in s
    ensures ReplaceFirst(s, pat, rep) == s
  {
  }

  /** The seeded Enterprise Plus edition is printed as "Enterprise Plus". */
  lemma EnterprisePlusShortName(edition: string)
    requires edition == "Veeam Backup & Replication ENT Plus"
    ensures EditionShortName(edition) == "Enterprise Plus"
  {
    var prefix := "Veeam Backup & Replication ";
    assert prefix <= edition;
    ReplaceLeading(edition, prefix, "");
    var r1 := ReplaceFirst(edition, prefix, "");
    assert r1 == "ENT Plus";
    EnterprisePlusRest(r1);
  }

  /** The last three replacements on the stripped Enterprise Plus name. */
  lemma EnterprisePlusRest(r1: string)
    requires r1 == "ENT Plus"
    ensures ReplaceFirst(ReplaceFirst(ReplaceFirst(r1, "ENT Plus", "Enterprise Plus"), "ENT", "Enterprise"),
                         "STAN", "Standard") == "Enterprise Plus"
  {
    ReplaceLeading(r1, "ENT Plus", "Enterprise Plus");
    assert r1[|"ENT Plus"|..] == [];
    var r2 := ReplaceFirst(r1, "ENT Plus", "Enterprise Plus");
    AppendEmpty("Enterprise Plus");
    KeepsEnterprisePlus(r2);
  }

  /** "Enterprise Plus" holds neither "ENT" nor "STAN". */
  lemma KeepsEnterprisePlus(r2: string)
    requires r2 == "Enterprise Plus"
    ensures ReplaceFirst(ReplaceFirst(r2, "ENT", "Enterprise"), "STAN", "Standard") == r2
  {
    ReplaceAbsent(r2, "ENT", "Enterprise", 'N');
    ReplaceAbsent(r2, "STAN", "Standard", 'S');
  }

  /** The seeded Enterprise edition is printed as "Enterprise". */
  lemma EnterpriseShortName(edition: string)
    requires edition == "Veeam Backup & Replication ENT"
    ensures EditionShortName(edition) == "Enterprise"
  {
    var prefix := "Veeam Backup & Replication ";
    assert prefix <= edition;
    ReplaceLeading(edition, prefix, "");
    var r1 := ReplaceFirst(edition, prefix, "");
    assert r1 == "ENT";
    ReplaceAbsent(r1, "ENT Plus", "Enterprise Plus", 'P');
    var r2 := ReplaceFirst(r1, "ENT Plus", "Enterprise Plus");
    assert r2 == "ENT";
    ReplaceLeading(r2, "ENT", "Enterprise");
    var r3 := ReplaceFirst(r2, "ENT", "Enterprise");
    assert r3 == "Enterprise";
    ReplaceAbsent(r3, "STAN", "Standard", 'S');
  }

  /** The seeded Standard edition is printed as "Standard". */
  lemma StandardShortName(edition: string)
    requires edition == "Veeam Backup & Replication STAN"
    ensures EditionShortName(edition) == "Standard"
  {
    var prefix := "Veeam Backup & Replication ";
    assert prefix <= edition;
    ReplaceLeading(edition, prefix, "");
    var r1 := ReplaceFirst(edition, prefix, "");
    assert r1 == "STAN";
    ReplaceAbsent(r1, "ENT Plus", "Enterprise Plus", 'P');
    var r2 := ReplaceFirst(r1, "ENT Plus", "Enterprise Plus");
    assert r2 == "STAN";
    ReplaceAbsent(r2, "ENT", "Enterprise", 'E');
    var r3 := ReplaceFirst(r2, "ENT", "Enterprise");
    assert r3 == "STAN";
    ReplaceLeading(r3, "STAN", "Standard");
  }

  // Facts about concatenation, stated on arbitrary strings so that proofs
  // about long literal texts can rely on them instead of comparing characters.

  lemma AppendAssoc(a: string, b: string, c: string)
    ensures a + (b + c) == (a + b) + c
  {
  }

  lemma AppendEmpty(a: string)
    ensures a + "" == a
  {
  }

  /** In `a + b + c`, the string `b` starts right after `a`. */
  lemma OccursAfterPrefix(a: string, b: string, c: string)
    ensures OccursAt(a + b + c, b, |a|)
  {
    assert (a + b + c)[|a|..|a| + |b|] == b;
  }
}
