/** The descriptions shown for the claim-type codes of Statens innkrevingssentral when
    the API sends no claim-type text. */
module KravtypeMapping {
  import opened Strings

  /** `kravtypeMapping`. */
  const Table: map<string, string> := map[
    "110" := "Bot - forenklet forelegg",
    "111" := "Bot - forenklet forelegg ATK",
    "113" := "Bot - Vanlig forelegg",
    "129" := "Erstatning - Dom",
    "627" := "Studielån - oppsagt studielån"
  ]

  /** `getKravtypeDescription`: the API's own text when there is one, otherwise the
      table's entry for the code, otherwise the code itself. */
  function Describe(kravtype: string, kravtypetekst: Option<string>): (r: string)
    ensures kravtypetekst.Some? && kravtypetekst.value != "" ==> r == kravtypetekst.value
    ensures (kravtypetekst.None? || kravtypetekst.value == "") && kravtype in Table ==> r == Table[kravtype]
    ensures (kravtypetekst.None? || kravtypetekst.value == "") && kravtype !in Table ==> r == kravtype
  {
    if kravtypetekst.Some? && kravtypetekst.value != "" then kravtypetekst.value
    else if kravtype in Table && Table[kravtype] != "" then Table[kravtype]
    else kravtype
  }

  /** A description is never empty when the code is not. */
  lemma DescriptionNonEmpty(kravtype: string, kravtypetekst: Option<string>)
    requires kravtype != ""
    ensures Describe(kravtype, kravtypetekst) != ""
  {
  }

  /** The result is always the API's text, a table entry or the code. */
  lemma DescriptionOrigin(kravtype: string, kravtypetekst: Option<string>)
    ensures var r := Describe(kravtype, kravtypetekst);
      (kravtypetekst.Some? && r == kravtypetekst.value) || r in Table.Values || r == kravtype
  {
    var r := Describe(kravtype, kravtypetekst);
    if kravtype in Table && r == Table[kravtype] {
      assert r in Table.Values;
    }
  }

  lemma StudyLoanExample()
    ensures Describe("627", None) == "Studielån - oppsagt studielån"
    ensures Describe("627", Some("")) == "Studielån - oppsagt studielån"
    ensures Describe("999", None) == "999"
  {
  }
}
