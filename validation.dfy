/** The national-ID check made before a scrape starts: the input is trimmed, must be
    non-empty and must be exactly 11 characters long. Its digits are not checked. */
module Validation {
  import opened Strings

  const Required := "Fødselsnummer er påkrevd"
  const WrongLength := "Fødselsnummer må være nøyaktig 11 siffer"

  /** `{ valid, error? }`: `error` is absent on a valid result. */
  datatype Verdict = Verdict(valid: bool, error: Option<string>)

  /** `validateNationalID`. */
  function ValidateNationalId(nationalId: string): (r: Verdict)
    ensures r.valid <==> |TrimJs(nationalId)| == 11
    ensures r.valid <==> r.error.None?
    ensures TrimJs(nationalId) == [] ==> r.error == Some(Required)
    ensures TrimJs(nationalId) != [] && !r.valid ==> r.error == Some(WrongLength)
  {
    var trimmed := TrimJs(nationalId);
    if trimmed == [] then Verdict(false, Some(Required))
    else if |trimmed| != 11 then Verdict(false, Some(WrongLength))
    else Verdict(true, None)
  }

  /** Surrounding white space makes no difference to the verdict. */
  lemma SurroundingSpaceIsIgnored(nationalId: string)
    ensures ValidateNationalId(TrimJs(nationalId)) == ValidateNationalId(nationalId)
  {
    TrimIdempotent(nationalId, IsJsSpace);
  }

  /** Input made only of white space is reported as missing. */
  lemma BlankIsRequired(nationalId: string)
    requires forall k :: 0 <= k < |nationalId| ==> IsJsSpace(nationalId[k])
    ensures ValidateNationalId(nationalId) == Verdict(false, Some(Required))
  {
    TrimStartRemovesPrefix(nationalId, IsJsSpace);
    assert TrimStart(nationalId, IsJsSpace) == [];
  }

  /** Any 11 characters without surrounding white space pass, digits or not. */
  lemma ElevenCharactersPass(nationalId: string)
    requires |nationalId| == 11 && !IsJsSpace(nationalId[0]) && !IsJsSpace(nationalId[10])
    ensures ValidateNationalId(nationalId).valid
  {
    assert TrimStart(nationalId, IsJsSpace) == nationalId;
    assert TrimEnd(nationalId, IsJsSpace) == nationalId;
  }
}
